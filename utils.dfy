/**
 * The scoring back end of the "Pick the Safer Road" quiz (utils.py).
 *
 * A road is a one-row frame of attributes. To score it, the back end derives
 * extra features from it, one-hot encodes five categorical columns, aligns the
 * result to the feature list the model was trained on, scales it, asks the
 * model for a prediction and clamps that to [0, 1]. Roads themselves are drawn
 * at random, with the lane count depending on the road type.
 *
 * The fitted scaler and the trained model are opaque: they are function
 * parameters here. The random source is opaque too: the draws it yields are
 * inputs.
 */
module Utils {

  datatype Option<+T> = None | Some(value: T)

  /** The exceptions the pipeline raises: a KeyError for a missing column, and
      a TypeError or ValueError for a column that cannot be compared,
      multiplied or cast to int. */
  datatype FrameError = MissingColumn(name: string) | NotNumeric(name: string)

  datatype Result<+T> = Ok(value: T) | Err(error: FrameError)

  /** One cell of a one-row pandas frame. `Cat` is a categorical whose
      categories are the integers 0 .. levels-1 (what `pd.cut` with labels
      [0, 1, 2] yields); its code is None where the value is NaN. */
  datatype Cell =
    | Str(s: string)
    | Int(i: int)
    | Real(r: real)
    | Bool(b: bool)
    | Cat(code: Option<nat>, levels: nat)

  /** A one-row frame: column name to cell. */
  type Row = map<string, Cell>

  /** A frame after reindexing: its columns in order, one value per column. */
  datatype Frame = Frame(columns: seq<string>, values: seq<Cell>)

  /** What the loader hands to the pipeline: the trained model's single-row
      prediction, the fitted scaler's transform and the training-time
      feature names, in order. */
  datatype Backend = Backend(
    predict: seq<real> -> real,
    scale: Frame -> seq<real>,
    featureNames: seq<string>)

  /*************************************************************************
   * Cells
   *************************************************************************/

  /** The number pandas compares and multiplies; a bool counts as 0 or 1. */
  function Number(c: Cell): Option<real>
  {
    match c
    case Int(i) => Some(i as real)
    case Real(r) => Some(r)
    case Bool(b) => Some(if b then 1.0 else 0.0)
    case _ => None
  }

  /** A boolean column after `.astype(int)`. */
  function Flag(b: bool): Cell
  {
    Int(if b then 1 else 0)
  }

  /** Truncation toward zero, as numpy casts a float to an int. */
  function Trunc(r: real): (t: int)
    ensures 0.0 <= r ==> t as real <= r < t as real + 1.0
    ensures r < 0.0 ==> t as real - 1.0 < r <= t as real
  {
    if r >= 0.0 then r.Floor else -((-r).Floor)
  }

  /** `.astype(int)` on one cell; None where pandas raises. */
  function AsInt(c: Cell): (r: Option<Cell>)
    ensures r.Some? <==> Number(c).Some?
    ensures c.Bool? ==> r == Some(Flag(c.b))
    ensures c.Int? ==> r == Some(c)
    ensures c.Real? ==> r == Some(Int(Trunc(c.r)))
  {
    match c
    case Int(_) => Some(c)
    case Bool(b) => Some(Flag(b))
    case Real(r) => Some(Int(Trunc(r)))
    case _ => None
  }

  /** `curvature * high_speed`, where high_speed is 0 or 1. A number is
      multiplied; a string is repeated, as Python's `*` does on the cells of
      an object column, so it is kept or becomes empty; a categorical has no
      arithmetic and raises. */
  function TimesFlag(c: Cell, high: bool): (r: Option<Cell>)
    ensures r.Some? <==> !c.Cat?
    ensures Number(c).Some? ==> Number(r.value) == Some(if high then Number(c).value else 0.0)
    ensures c.Str? ==> r == Some(Str(if high then c.s else ""))
  {
    match c
    case Int(i) => Some(Int(if high then i else 0))
    case Real(x) => Some(Real(if high then x else 0.0))
    case Bool(b) => Some(Flag(high && b))
    case Str(s) => Some(Str(if high then s else ""))
    case Cat(_, _) => None
  }

  /** `pd.cut(count, bins=[-1, 0, 2, inf], labels=[0, 1, 2])`: the bins are
      closed on the right, and a count outside them is NaN. */
  function AccidentBin(count: real): (b: Option<nat>)
    ensures b == Some(0) <==> -1.0 < count <= 0.0
    ensures b == Some(1) <==> 0.0 < count <= 2.0
    ensures b == Some(2) <==> 2.0 < count
    ensures b == None <==> count <= -1.0
  {
    if count <= -1.0 then None
    else if count <= 0.0 then Some(0)
    else if count <= 2.0 then Some(1)
    else Some(2)
  }

  /** Every non-negative count lands in exactly one bin: 0 alone, 1 to 2, or
      more than 2, and the top bin is exactly where `high_accidents` is set. */
  lemma AccidentBinOfCount(count: nat)
    ensures AccidentBin(count as real) ==
      Some(if count == 0 then 0 else if count <= 2 then 1 else 2)
    ensures AccidentBin(count as real) == Some(2) <==> count > 2
  {
  }

  /*************************************************************************
   * engineer_features
   *************************************************************************/

  const BoolCols: seq<string> :=
    ["road_signs_present", "public_road", "holiday", "school_season"]

  const DerivedCols: set<string> :=
    {"high_speed", "night_lighting", "bad_weather", "high_accidents",
     "curvature_high_speed", "accidents_binned"}

  /** The columns the derived features read are present, those it compares
      are numeric, and the one it multiplies is not a categorical. */
  predicate Readable(df: Row)
  {
    && "speed_limit" in df && Number(df["speed_limit"]).Some?
    && "lighting" in df
    && "weather" in df
    && "num_reported_accidents" in df && Number(df["num_reported_accidents"]).Some?
    && "curvature" in df && !df["curvature"].Cat?
  }

  /** Every boolean column that is present can be cast to int. */
  predicate Castable(df: Row)
  {
    forall c :: c in BoolCols && c in df ==> AsInt(df[c]).Some?
  }

  /** The first boolean column, from index i on, that cannot be cast. */
  function FirstUncastable(df: Row, i: nat): (e: Option<FrameError>)
    requires i <= |BoolCols|
    ensures e.None? <==>
      forall j :: i <= j < |BoolCols| && BoolCols[j] in df ==> AsInt(df[BoolCols[j]]).Some?
    ensures e.Some? ==> e.value.NotNumeric? && e.value.name in BoolCols
    decreases |BoolCols| - i
  {
    if i == |BoolCols| then None
    else if BoolCols[i] in df && AsInt(df[BoolCols[i]]).None? then Some(NotNumeric(BoolCols[i]))
    else FirstUncastable(df, i + 1)
  }

  /** The error names the first present boolean column, in the loop's order,
      that cannot be cast: every present one before it casts. */
  lemma {:induction false} FirstUncastableIsFirst(df: Row, i: nat)
    requires i <= |BoolCols|
    ensures FirstUncastable(df, i).Some? ==>
      exists j :: && i <= j < |BoolCols| && FirstUncastable(df, i).value == NotNumeric(BoolCols[j])
                  && BoolCols[j] in df && AsInt(df[BoolCols[j]]).None?
                  && (forall k :: i <= k < j && BoolCols[k] in df ==> AsInt(df[BoolCols[k]]).Some?)
    decreases |BoolCols| - i
  {
    if i < |BoolCols| && !(BoolCols[i] in df && AsInt(df[BoolCols[i]]).None?) {
      FirstUncastableIsFirst(df, i + 1);
    }
  }

  /** The exception `engineer_features` raises, in the order of its
      statements, or None when it returns. */
  function EngineerError(df: Row): (e: Option<FrameError>)
    ensures e.None? <==> Readable(df) && Castable(df)
  {
    if "speed_limit" !in df then Some(MissingColumn("speed_limit"))
    else if Number(df["speed_limit"]).None? then Some(NotNumeric("speed_limit"))
    else if "lighting" !in df then Some(MissingColumn("lighting"))
    else if "weather" !in df then Some(MissingColumn("weather"))
    else if "num_reported_accidents" !in df then Some(MissingColumn("num_reported_accidents"))
    else if Number(df["num_reported_accidents"]).None? then Some(NotNumeric("num_reported_accidents"))
    else if "curvature" !in df then Some(MissingColumn("curvature"))
    else if df["curvature"].Cat? then Some(NotNumeric("curvature"))
    else FirstUncastable(df, 0)
  }

  /** The six columns `engineer_features` adds. */
  function DerivedOf(df: Row): Row
    requires Readable(df)
  {
    var speed := Number(df["speed_limit"]).value;
    var count := Number(df["num_reported_accidents"]).value;
    map[
      "high_speed" := Flag(speed >= 60.0),
      "night_lighting" := Flag(df["lighting"] == Str("night")),
      "bad_weather" := Flag(df["weather"] != Str("clear")),
      "high_accidents" := Flag(count > 2.0),
      "curvature_high_speed" := TimesFlag(df["curvature"], speed >= 60.0).value,
      "accidents_binned" := Cat(AccidentBin(count), 3)
    ]
  }

  /** The frame with its boolean columns cast to int. */
  function CastCols(df: Row): Row
    requires Castable(df)
  {
    map k | k in df :: if k in BoolCols then AsInt(df[k]).value else df[k]
  }

  /** No boolean column is a derived one, and the boolean columns are distinct. */
  lemma BoolColsApart()
    ensures forall j :: 0 <= j < |BoolCols| ==> BoolCols[j] !in DerivedCols
    ensures forall c :: c in BoolCols ==> c !in DerivedCols
    ensures forall i, j :: 0 <= i < j < |BoolCols| ==> BoolCols[i] != BoolCols[j]
  {
  }

  /** What `engineer_features` promises of its result `eng` for input `df`. */
  ghost predicate EngineeredFrom(df: Row, eng: Row)
    requires Readable(df) && Castable(df)
  {
    var speed := Number(df["speed_limit"]).value;
    var count := Number(df["num_reported_accidents"]).value;
    && eng.Keys == df.Keys + DerivedCols
    && eng["high_speed"] == Flag(speed >= 60.0)
    && eng["night_lighting"] == Flag(df["lighting"] == Str("night"))
    && eng["bad_weather"] == Flag(df["weather"] != Str("clear"))
    && eng["high_accidents"] == Flag(count > 2.0)
    && (Number(df["curvature"]).Some? ==>
          Number(eng["curvature_high_speed"]) == Some(if speed >= 60.0 then Number(df["curvature"]).value else 0.0))
    && (df["curvature"].Str? ==>
          eng["curvature_high_speed"] == Str(if speed >= 60.0 then df["curvature"].s else ""))
    && eng["accidents_binned"] == Cat(AccidentBin(count), 3)
    && (forall c :: c in BoolCols && c in df ==> eng[c] == AsInt(df[c]).value)
    && (forall k :: k in df && k !in DerivedCols && k !in BoolCols ==> eng[k] == df[k])
  }

  /** `engineer_features(df)`, as a value: the input row itself is never
      changed, because the function works on a copy. */
  function Engineered(df: Row): (r: Result<Row>)
    ensures r.Err? <==> EngineerError(df).Some?
    ensures r.Err? ==> r.error == EngineerError(df).value
  {
    match EngineerError(df)
    case Some(e) => Err(e)
    case None => Ok(CastCols(df) + DerivedOf(df))
  }

  /** The flags are 1 exactly when their condition holds and 0 otherwise, the
      interaction is the curvature on fast roads and 0 elsewhere, the count
      is binned, the boolean columns that are present become 0/1, and every
      other column keeps its value. */
  lemma EngineeredProperties(df: Row)
    ensures Engineered(df).Ok? ==> Readable(df) && Castable(df) && EngineeredFrom(df, Engineered(df).value)
  {
    if Engineered(df).Ok? {
      CastPart(df);
      DerivedPart(df);
    }
  }

  lemma CastPart(df: Row)
    requires Readable(df) && Castable(df)
    ensures var eng := CastCols(df) + DerivedOf(df);
      && eng.Keys == df.Keys + DerivedCols
      && (forall c :: c in BoolCols && c in df ==> eng[c] == AsInt(df[c]).value)
      && (forall k :: k in df && k !in DerivedCols && k !in BoolCols ==> eng[k] == df[k])
  {
    BoolColsApart();
    DerivedOfKeys(df);
  }

  /** The derived columns are exactly the six names listed above. */
  lemma DerivedOfKeys(df: Row)
    requires Readable(df)
    ensures DerivedOf(df).Keys == DerivedCols
  {
  }

  lemma DerivedPart(df: Row)
    requires Readable(df) && Castable(df)
    ensures var eng := CastCols(df) + DerivedOf(df);
      var speed := Number(df["speed_limit"]).value;
      var count := Number(df["num_reported_accidents"]).value;
      && eng["high_speed"] == Flag(speed >= 60.0)
      && eng["night_lighting"] == Flag(df["lighting"] == Str("night"))
      && eng["bad_weather"] == Flag(df["weather"] != Str("clear"))
      && eng["high_accidents"] == Flag(count > 2.0)
      && (Number(df["curvature"]).Some? ==>
          Number(eng["curvature_high_speed"]) == Some(if speed >= 60.0 then Number(df["curvature"]).value else 0.0))
      && (df["curvature"].Str? ==>
          eng["curvature_high_speed"] == Str(if speed >= 60.0 then df["curvature"].s else ""))
      && eng["accidents_binned"] == Cat(AccidentBin(count), 3)
  {
    DerivedFlags(df);
    DerivedNumbers(df);
  }

  /** The four flags, looked up in the derived columns. */
  lemma DerivedFlags(df: Row)
    requires Readable(df)
    ensures var speed := Number(df["speed_limit"]).value;
      var count := Number(df["num_reported_accidents"]).value;
      && DerivedOf(df)["high_speed"] == Flag(speed >= 60.0)
      && DerivedOf(df)["night_lighting"] == Flag(df["lighting"] == Str("night"))
      && DerivedOf(df)["bad_weather"] == Flag(df["weather"] != Str("clear"))
      && DerivedOf(df)["high_accidents"] == Flag(count > 2.0)
  {
  }

  /** The interaction and the bin, looked up in the derived columns. */
  lemma DerivedNumbers(df: Row)
    requires Readable(df)
    ensures var speed := Number(df["speed_limit"]).value;
      var count := Number(df["num_reported_accidents"]).value;
      && (Number(df["curvature"]).Some? ==>
            Number(DerivedOf(df)["curvature_high_speed"]) == Some(if speed >= 60.0 then Number(df["curvature"]).value else 0.0))
      && (df["curvature"].Str? ==>
            DerivedOf(df)["curvature_high_speed"] == Str(if speed >= 60.0 then df["curvature"].s else ""))
      && DerivedOf(df)["accidents_binned"] == Cat(AccidentBin(count), 3)
  {
  }

  /** `engineer_features`: assigns the derived columns one after the other on
      a copy of the frame, then casts the boolean columns in a loop. */
  method EngineerFeatures(df: Row) returns (res: Result<Row>)
    ensures res == Engineered(df)
  {
    // The copy only gains new columns here, so the columns read are read
    // from the input itself.
    var eng := df;
    if "speed_limit" !in df {
      return Err(MissingColumn("speed_limit"));
    }
    var speed := Number(df["speed_limit"]);
    if speed.None? {
      return Err(NotNumeric("speed_limit"));
    }
    var high := speed.value >= 60.0;
    eng := eng["high_speed" := Flag(high)];
    if "lighting" !in df {
      return Err(MissingColumn("lighting"));
    }
    eng := eng["night_lighting" := Flag(df["lighting"] == Str("night"))];
    if "weather" !in df {
      return Err(MissingColumn("weather"));
    }
    eng := eng["bad_weather" := Flag(df["weather"] != Str("clear"))];
    if "num_reported_accidents" !in df {
      return Err(MissingColumn("num_reported_accidents"));
    }
    var count := Number(df["num_reported_accidents"]);
    if count.None? {
      return Err(NotNumeric("num_reported_accidents"));
    }
    eng := eng["high_accidents" := Flag(count.value > 2.0)];
    if "curvature" !in df {
      return Err(MissingColumn("curvature"));
    }
    var product := TimesFlag(df["curvature"], high);
    if product.None? {
      return Err(NotNumeric("curvature"));
    }
    eng := eng["curvature_high_speed" := product.value];
    eng := eng["accidents_binned" := Cat(AccidentBin(count.value), 3)];
    assert Readable(df);
    DerivedAssignments(df, Flag(high), Flag(df["lighting"] == Str("night")),
      Flag(df["weather"] != Str("clear")), Flag(count.value > 2.0), product.value,
      Cat(AccidentBin(count.value), 3));
    assert eng == df + DerivedOf(df);
    DerivedKeepsBoolCols(df);
    res := CastBoolColumns(eng);
  }

  /** Assigning the six derived columns one after the other is adding them
      all at once. */
  lemma DerivedAssignments(df: Row, highSpeed: Cell, night: Cell, bad: Cell, high: Cell,
                           interaction: Cell, binned: Cell)
    ensures df["high_speed" := highSpeed]["night_lighting" := night]["bad_weather" := bad]
              ["high_accidents" := high]["curvature_high_speed" := interaction]
              ["accidents_binned" := binned]
         == df + map["high_speed" := highSpeed, "night_lighting" := night, "bad_weather" := bad,
                     "high_accidents" := high, "curvature_high_speed" := interaction,
                     "accidents_binned" := binned]
  {
    UpdatesAreMerge(df, "high_speed", highSpeed, "night_lighting", night, "bad_weather", bad,
      "high_accidents", high, "curvature_high_speed", interaction, "accidents_binned", binned);
  }

  /** Six assignments in a row, whatever the keys, are one merge. */
  lemma UpdatesAreMerge(df: Row, k1: string, v1: Cell, k2: string, v2: Cell, k3: string, v3: Cell,
                        k4: string, v4: Cell, k5: string, v5: Cell, k6: string, v6: Cell)
    ensures df[k1 := v1][k2 := v2][k3 := v3][k4 := v4][k5 := v5][k6 := v6]
         == df + map[k1 := v1, k2 := v2, k3 := v3, k4 := v4, k5 := v5, k6 := v6]
  {
    var m0: Row := map[];
    assert df == df + m0;
    MergeUpdate(df, m0, k1, v1);
    MergeUpdate(df, m0[k1 := v1], k2, v2);
    MergeUpdate(df, m0[k1 := v1][k2 := v2], k3, v3);
    MergeUpdate(df, m0[k1 := v1][k2 := v2][k3 := v3], k4, v4);
    MergeUpdate(df, m0[k1 := v1][k2 := v2][k3 := v3][k4 := v4], k5, v5);
    MergeUpdate(df, m0[k1 := v1][k2 := v2][k3 := v3][k4 := v4][k5 := v5], k6, v6);
  }

  lemma MergeUpdate(a: Row, b: Row, k: string, v: Cell)
    ensures (a + b)[k := v] == a + b[k := v]
  {
  }

  /** Adding the derived columns leaves the boolean columns alone, so casting
      before or after adding them gives the same frame and the same error. */
  lemma DerivedKeepsBoolCols(df: Row)
    requires Readable(df)
    ensures FirstUncastable(df + DerivedOf(df), 0) == FirstUncastable(df, 0)
    ensures Castable(df) ==> Castable(df + DerivedOf(df))
    ensures Castable(df) ==> CastCols(df + DerivedOf(df)) == CastCols(df) + DerivedOf(df)
  {
    BoolColsApart();
    var eng := df + DerivedOf(df);
    assert forall c :: c in BoolCols ==> (c in eng <==> c in df) && (c in df ==> eng[c] == df[c]);
    SameBoolCols(df, eng, 0);
  }

  lemma {:induction false} SameBoolCols(a: Row, b: Row, i: nat)
    requires i <= |BoolCols|
    requires forall c :: c in BoolCols ==> (c in a <==> c in b) && (c in a ==> a[c] == b[c])
    ensures FirstUncastable(a, i) == FirstUncastable(b, i)
    decreases |BoolCols| - i
  {
    if i < |BoolCols| {
      SameBoolCols(a, b, i + 1);
    }
  }

  /** The loop over the boolean columns: each present one is cast to int, and
      the first that cannot be cast raises. */
  method CastBoolColumns(frame: Row) returns (res: Result<Row>)
    ensures res.Err? <==> FirstUncastable(frame, 0).Some?
    ensures res.Err? ==> res.error == FirstUncastable(frame, 0).value
    ensures res.Ok? ==> Castable(frame) && res.value == CastCols(frame)
  {
    BoolColsApart();
    var eng := frame;
    for i := 0 to |BoolCols|
      invariant FirstUncastable(frame, 0) == FirstUncastable(frame, i)
      invariant forall j :: 0 <= j < i && BoolCols[j] in frame ==> AsInt(frame[BoolCols[j]]).Some?
      invariant eng.Keys == frame.Keys
      invariant forall k :: k in frame && k !in BoolCols ==> eng[k] == frame[k]
      invariant forall j :: i <= j < |BoolCols| && BoolCols[j] in frame ==> eng[BoolCols[j]] == frame[BoolCols[j]]
      invariant forall j :: 0 <= j < i && BoolCols[j] in frame ==> eng[BoolCols[j]] == AsInt(frame[BoolCols[j]]).value
    {
      var col := BoolCols[i];
      if col in eng {
        var cast := AsInt(eng[col]);
        if cast.None? {
          return Err(NotNumeric(col));
        }
        eng := eng[col := cast.value];
      }
    }
    assert Castable(frame);
    forall k | k in eng
      ensures eng[k] == CastCols(frame)[k]
    {
      if k in BoolCols {
        var j :| 0 <= j < |BoolCols| && BoolCols[j] == k;
      }
    }
    res := Ok(eng);
  }

  /*************************************************************************
   * get_dummies(columns=..., drop_first=True) on a one-row frame
   *************************************************************************/

  const OheCols: seq<string> :=
    ["road_type", "lighting", "weather", "time_of_day", "accidents_binned"]

  const Digits: string := "0123456789"

  predicate EndsInDigit(name: string)
  {
    |name| > 0 && name[|name| - 1] in Digits
  }

  /** `str(n)` for a category label. */
  function NatToString(n: nat): (s: string)
    ensures EndsInDigit(s)
    ensures forall i :: 0 <= i < |s| ==> s[i] in Digits
  {
    if n < 10 then [Digits[n]] else NatToString(n / 10) + [Digits[n % 10]]
  }

  /** The ten digits are distinct characters. */
  lemma DigitsDistinct(i: nat, j: nat)
    requires i < 10 && j < 10
    ensures Digits[i] == Digits[j] ==> i == j
  {
  }

  /** Different numbers have different decimal text. */
  lemma {:induction false} NatToStringInjective(a: nat, b: nat)
    ensures NatToString(a) == NatToString(b) ==> a == b
    decreases a
  {
    var s, t := NatToString(a), NatToString(b);
    if s == t {
      if a < 10 && b < 10 {
        DigitsDistinct(a, b);
      } else if a >= 10 && b >= 10 {
        var p, q := NatToString(a / 10), NatToString(b / 10);
        assert s[|s| - 1] == Digits[a % 10] && t[|t| - 1] == Digits[b % 10];
        DigitsDistinct(a % 10, b % 10);
        assert p == s[..|s| - 1] && q == t[..|t| - 1];
        NatToStringInjective(a / 10, b / 10);
      }
    }
  }

  /** The dummy column pandas names `<column>_<level>`. */
  function DummyName(col: string, level: nat): (name: string)
    ensures EndsInDigit(name)
    ensures |name| > |col| + 1 && name[..|col|] == col && name[|col|] == '_'
    ensures name[|col| + 1..] == NatToString(level)
  {
    var digits := NatToString(level);
    var name := col + "_" + digits;
    assert name[|name| - 1] == digits[|digits| - 1];
    name
  }

  /** Two levels of one column never share a dummy column. */
  lemma DummyNameInjective(col: string, k: nat, l: nat)
    ensures DummyName(col, k) == DummyName(col, l) ==> k == l
  {
    if DummyName(col, k) == DummyName(col, l) {
      NatToStringInjective(k, l);
    }
  }

  /** The dummies of a categorical's levels k .. n-1. */
  function LevelDummies(col: string, code: Option<nat>, k: nat, n: nat): (m: Row)
    ensures forall name :: name in m ==> EndsInDigit(name)
    decreases n - k
  {
    if k >= n then map[]
    else LevelDummies(col, code, k + 1, n)[DummyName(col, k) := Bool(code == Some(k))]
  }

  /** One column per level, true exactly for the row's own level. */
  lemma {:induction false} LevelDummiesLevels(col: string, code: Option<nat>, k: nat, n: nat)
    ensures forall l :: k <= l < n ==> DummyName(col, l) in LevelDummies(col, code, k, n)
    ensures forall name :: name in LevelDummies(col, code, k, n) ==>
      exists l :: k <= l < n && name == DummyName(col, l) && LevelDummies(col, code, k, n)[name] == Bool(code == Some(l))
    decreases n - k
  {
    if k < n {
      LevelDummiesLevels(col, code, k + 1, n);
      var m := LevelDummies(col, code, k, n);
      var rest := LevelDummies(col, code, k + 1, n);
      forall l | k <= l < n
        ensures DummyName(col, l) in m
      {
        if l > k {
          assert DummyName(col, l) in rest;
        }
      }
      forall name | name in m
        ensures exists l :: k <= l < n && name == DummyName(col, l) && m[name] == Bool(code == Some(l))
      {
        if name == DummyName(col, k) {
          assert m[name] == Bool(code == Some(k));
        } else {
          assert name in rest && m[name] == rest[name];
        }
      }
    }
  }

  /** The dummies one column contributes with `drop_first`. A categorical
      keeps a dummy for each declared level but the first. Any other column
      of a one-row frame has exactly one observed level, which is the one
      dropped, so it contributes nothing. */
  function ColumnDummies(col: string, v: Cell): (m: Row)
    ensures forall name :: name in m ==> EndsInDigit(name)
    ensures !v.Cat? ==> m == map[]
  {
    match v
    case Cat(code, n) => LevelDummies(col, code, 1, n)
    case _ => map[]
  }

  /** A categorical yields the column `<col>_<level>` for every declared
      level but the first, each true exactly when it is the row's level. */
  lemma ColumnDummiesLevels(col: string, v: Cell)
    requires v.Cat?
    ensures forall l :: 1 <= l < v.levels ==> DummyName(col, l) in ColumnDummies(col, v)
    ensures forall name :: name in ColumnDummies(col, v) ==>
      exists l :: 1 <= l < v.levels && name == DummyName(col, l) && ColumnDummies(col, v)[name] == Bool(v.code == Some(l))
  {
    LevelDummiesLevels(col, v.code, 1, v.levels);
  }

  /** The dummies of the listed columns, in order. */
  function DummiesOf(row: Row, cols: seq<string>): (m: Row)
    requires forall c :: c in cols ==> c in row
    ensures forall name :: name in m ==> EndsInDigit(name)
  {
    if cols == [] then map[]
    else DummiesOf(row, cols[..|cols| - 1]) + ColumnDummies(cols[|cols| - 1], row[cols[|cols| - 1]])
  }

  /** The first of cols that is not a column of row. */
  function FirstMissing(row: Row, cols: seq<string>): (m: Option<string>)
    ensures m.None? <==> forall c :: c in cols ==> c in row
    ensures m.Some? ==> m.value in cols && m.value !in row
  {
    if cols == [] then None
    else if cols[0] !in row then Some(cols[0])
    else FirstMissing(row, cols[1..])
  }

  /** `pd.get_dummies(df, columns=OheCols, drop_first=True)` on a one-row
      frame: a KeyError if a listed column is missing; otherwise every listed
      column is replaced by its dummies and every other column is kept. */
  function GetDummies(row: Row): (r: Result<Row>)
    ensures r.Ok? <==> forall c :: c in OheCols ==> c in row
    ensures r.Err? ==> r.error.MissingColumn? && r.error.name in OheCols && r.error.name !in row
    ensures r.Ok? ==> forall c :: c in OheCols ==> c !in r.value
    ensures r.Ok? ==> forall k :: k in r.value && !EndsInDigit(k) ==> k in row && r.value[k] == row[k]
    ensures r.Ok? ==> forall k :: k in row && k !in OheCols && !EndsInDigit(k) ==> k in r.value
    ensures r.Ok? ==> forall k :: k in row && k !in OheCols && k !in DummiesOf(row, OheCols) ==>
      k in r.value && r.value[k] == row[k]
  {
    match FirstMissing(row, OheCols)
    case Some(c) => Err(MissingColumn(c))
    case None =>
      var kept := row - set c | c in OheCols;
      var dummies := DummiesOf(row, OheCols);
      assert forall c :: c in OheCols ==> !EndsInDigit(c);
      Ok(kept + dummies)
  }

  /** Every dummy of the five columns is a column of the encoded frame,
      holding the dummy's value. */
  lemma GetDummiesHoldsDummies(row: Row)
    ensures GetDummies(row).Ok? ==>
      forall k :: k in DummiesOf(row, OheCols) ==>
        k in GetDummies(row).value && GetDummies(row).value[k] == DummiesOf(row, OheCols)[k]
  {
  }

  /** Every dummy of every listed column is in the encoded frame, and every
      dummy there comes from a listed column. */
  lemma {:induction false} DummiesOfColumns(row: Row, cols: seq<string>)
    requires forall c :: c in cols ==> c in row
    ensures forall c :: c in cols ==> ColumnDummies(c, row[c]).Keys <= DummiesOf(row, cols).Keys
    ensures forall name :: name in DummiesOf(row, cols) ==>
      exists c :: c in cols && name in ColumnDummies(c, row[c])
                   && DummiesOf(row, cols)[name] == ColumnDummies(c, row[c])[name]
  {
    if cols != [] {
      var init := cols[..|cols| - 1];
      var last := cols[|cols| - 1];
      DummiesOfColumns(row, init);
      assert forall c :: c in cols ==> c in init || c == last;
      forall name | name in DummiesOf(row, cols)
        ensures exists c :: c in cols && name in ColumnDummies(c, row[c])
                              && DummiesOf(row, cols)[name] == ColumnDummies(c, row[c])[name]
      {
        if name !in ColumnDummies(last, row[last]) {
          assert name in DummiesOf(row, init);
          var c :| c in init && name in ColumnDummies(c, row[c])
                   && DummiesOf(row, init)[name] == ColumnDummies(c, row[c])[name];
          assert c in cols;
        }
      }
    }
  }

  /** `accidents_binned` has the declared levels 0, 1 and 2, so it always
      yields the dummies `_1` and `_2`, whatever the bin; a NaN bin sets
      neither. */
  lemma BinnedDummies(code: Option<nat>)
    ensures ColumnDummies("accidents_binned", Cat(code, 3)) ==
      map["accidents_binned_1" := Bool(code == Some(1)),
          "accidents_binned_2" := Bool(code == Some(2))]
  {
    assert DummyName("accidents_binned", 1) == "accidents_binned_1" by {
      assert NatToString(1) == "1";
    }
    assert DummyName("accidents_binned", 2) == "accidents_binned_2" by {
      assert NatToString(2) == "2";
    }
    var none := LevelDummies("accidents_binned", code, 3, 3);
    assert none == map[];
    assert LevelDummies("accidents_binned", code, 2, 3) == none["accidents_binned_2" := Bool(code == Some(2))];
  }

  /*************************************************************************
   * Alignment to the feature names
   *************************************************************************/

  /** `reindex(columns=names, fill_value=0)`: the columns are the names in
      order, each holding the row's value, or 0 where the row lacks it. */
  function Reindex(row: Row, names: seq<string>): (f: Frame)
    ensures f.columns == names && |f.values| == |names|
  {
    Frame(names, seq(|names|, i requires 0 <= i < |names| =>
      if names[i] in row then row[names[i]] else Int(0)))
  }

  /** Every requested column takes the row's value under its name, or 0
      when the row has no such column. */
  lemma ReindexSelects(row: Row, names: seq<string>)
    ensures forall i :: 0 <= i < |names| && names[i] in row ==> Reindex(row, names).values[i] == row[names[i]]
    ensures forall i :: 0 <= i < |names| && names[i] !in row ==> Reindex(row, names).values[i] == Int(0)
  {
  }

  /** The row whose columns are the given names with the given values. */
  function RowOf(names: seq<string>, values: seq<Cell>): Row
    requires |values| == |names|
    requires forall i, j :: 0 <= i < |names| && 0 <= j < |names| && names[i] == names[j] ==> values[i] == values[j]
  {
    map i | 0 <= i < |names| :: names[i] := values[i]
  }

  /** Aligning a frame that is already aligned changes nothing. */
  lemma ReindexIdempotent(row: Row, names: seq<string>)
    ensures var f := Reindex(row, names);
      RowOf(names, f.values).Keys == set n | n in names &&
      Reindex(RowOf(names, f.values), names) == f
  {
    var f := Reindex(row, names);
    var again := RowOf(names, f.values);
    forall i | 0 <= i < |names|
      ensures names[i] in again && again[names[i]] == f.values[i]
    {
      assert names[i] in again;
    }
    assert Reindex(again, names).values == f.values;
  }

  /** The loop that adds every missing feature as a column of zeros, then
      `reindex(columns=names, fill_value=0)`. */
  method AlignColumns(encoded: Row, names: seq<string>) returns (aligned: Frame)
    ensures aligned == Reindex(encoded, names)
    ensures aligned.columns == names && |aligned.values| == |names|
    ensures forall i :: 0 <= i < |names| && names[i] in encoded ==> aligned.values[i] == encoded[names[i]]
    ensures forall i :: 0 <= i < |names| && names[i] !in encoded ==> aligned.values[i] == Int(0)
  {
    var filled := encoded;
    for i := 0 to |names|
      invariant forall k :: k in encoded ==> k in filled && filled[k] == encoded[k]
      invariant forall k :: k in filled && k !in encoded ==> filled[k] == Int(0)
      invariant forall j :: 0 <= j < i ==> names[j] in filled
    {
      if names[i] !in filled {
        filled := filled[names[i] := Int(0)];
      }
    }
    aligned := Reindex(filled, names);
    assert aligned.values == Reindex(encoded, names).values;
  }

  /*************************************************************************
   * preprocess_input and predict_risk
   *************************************************************************/

  /** The pipeline runs to the scaler without raising. */
  predicate PipelineAccepts(df: Row)
  {
    EngineerError(df).None? && "road_type" in df && "time_of_day" in df
  }

  /** Feature engineering and the one-hot encoding both go through exactly
      when the pipeline accepts the row: the engineered frame keeps every input
      column and adds `accidents_binned`, so only `road_type` and
      `time_of_day` can still be missing. */
  lemma EncodeAccepts(df: Row)
    ensures (Engineered(df).Ok? && GetDummies(Engineered(df).value).Ok?) <==> PipelineAccepts(df)
  {
    if Engineered(df).Ok? {
      CastPart(df);
      var eng := Engineered(df).value;
      OheColsIn(eng.Keys);
      InputColsApart();
    }
  }

  /** The input columns the encoding needs are not derived ones. */
  lemma InputColsApart()
    ensures "road_type" !in DerivedCols && "time_of_day" !in DerivedCols
    ensures "lighting" !in DerivedCols && "weather" !in DerivedCols
    ensures "road_type" !in BoolCols && "time_of_day" !in BoolCols
    ensures "lighting" !in BoolCols && "weather" !in BoolCols
    ensures "accidents_binned" in DerivedCols
  {
  }

  lemma OheColsIn(keys: set<string>)
    ensures (forall c :: c in OheCols ==> c in keys) <==>
      "road_type" in keys && "lighting" in keys && "weather" in keys &&
      "time_of_day" in keys && "accidents_binned" in keys
  {
  }

  /** The frame the scaler receives for `df`. */
  function Encode(df: Row, names: seq<string>): (r: Result<Frame>)
    ensures r.Ok? <==> PipelineAccepts(df)
    ensures r.Ok? ==> r.value.columns == names && |r.value.values| == |names|
  {
    EncodeAccepts(df);
    match Engineered(df)
    case Err(e) => Err(e)
    case Ok(eng) =>
      match GetDummies(eng)
      case Err(e) => Err(e)
      case Ok(encoded) => Ok(Reindex(encoded, names))
  }

  /** `np.clip(pred, 0, 1)`. */
  function Clip(x: real): (r: real)
    ensures 0.0 <= r <= 1.0
    ensures 0.0 <= x <= 1.0 ==> r == x
    ensures x < 0.0 ==> r == 0.0
    ensures 1.0 < x ==> r == 1.0
  {
    if x < 0.0 then 0.0 else if x > 1.0 then 1.0 else x
  }

  /** Clamping twice is clamping once, and clamping keeps the order of
      two predictions. */
  lemma ClipIdempotentMonotone(x: real, y: real)
    ensures Clip(Clip(x)) == Clip(x)
    ensures x <= y ==> Clip(x) <= Clip(y)
  {
  }

  /** The risk the back end reports for a row it accepts. */
  function Risk(df: Row, backend: Backend): (r: real)
    requires PipelineAccepts(df)
    ensures 0.0 <= r <= 1.0
  {
    Clip(backend.predict(backend.scale(Encode(df, backend.featureNames).value)))
  }

  /** `preprocess_input(df, feature_names, scaler)`. */
  method PreprocessInput(df: Row, featureNames: seq<string>, scale: Frame -> seq<real>)
    returns (res: Result<seq<real>>)
    ensures res.Ok? <==> PipelineAccepts(df)
    ensures res.Err? ==> res.error == Encode(df, featureNames).error
    ensures res.Ok? ==> res.value == scale(Encode(df, featureNames).value)
  {
    EncodeAccepts(df);
    var eng := EngineerFeatures(df);
    if eng.Err? {
      return Err(eng.error);
    }
    var encoded := GetDummies(eng.value);
    if encoded.Err? {
      assert Encode(df, featureNames) == Err(encoded.error);
      return Err(encoded.error);
    }
    var aligned := AlignColumns(encoded.value, featureNames);
    assert Encode(df, featureNames) == Ok(aligned);
    res := Ok(scale(aligned));
  }

  /** `predict_risk(df, model, feature_names, scaler)`. */
  method PredictRisk(df: Row, backend: Backend) returns (res: Result<real>)
    ensures res.Ok? <==> PipelineAccepts(df)
    ensures res.Err? ==> res.error == Encode(df, backend.featureNames).error
    ensures res.Ok? ==> 0.0 <= res.value <= 1.0 && res.value == Risk(df, backend)
  {
    var scaled := PreprocessInput(df, backend.featureNames, backend.scale);
    if scaled.Err? {
      return Err(scaled.error);
    }
    res := Ok(Clip(backend.predict(scaled.value)));
  }

  /*************************************************************************
   * generate_road
   *************************************************************************/

  const RoadTypes: seq<string> := ["highway", "urban", "rural"]
  const SpeedLimits: seq<int> := [25, 35, 45, 60, 70]
  const Lightings: seq<string> := ["daylight", "night", "dim"]
  const Weathers: seq<string> := ["clear", "rainy", "foggy"]
  const TimesOfDay: seq<string> := ["morning", "evening", "afternoon"]
  const Booleans: seq<bool> := [true, false]

  const RoadColumns: set<string> :=
    {"road_type", "num_lanes", "curvature", "speed_limit", "lighting", "weather",
     "road_signs_present", "public_road", "time_of_day", "holiday", "school_season",
     "num_reported_accidents"}

  /** numpy's doubles in [0, 1) are 53-bit integers over 2^53. */
  const Two53: nat := 0x20_0000_0000_0000

  /** The raw values one `generate_road` call takes from the random source,
      one per draw, in the order the source draws them. */
  datatype Draws = Draws(
    roadType: nat, lanes: nat, curvature: nat, speedLimit: nat,
    lighting: nat, weather: nat, roadSigns: nat, publicRoad: nat,
    timeOfDay: nat, holiday: nat, schoolSeason: nat, accidents: nat)

  /** The process-wide random source: the draws a call makes when it does not
      reseed (they depend on everything drawn before), and the draws a call
      makes right after seeding with a given seed. */
  datatype Sampler = Sampler(carried: Draws, seeded: nat -> Draws)

  /** `if seed:` reseeds only for a seed that is given and non-zero. */
  predicate Reseeds(seed: Option<nat>)
  {
    seed.Some? && seed.value != 0
  }

  /** The draws a call makes: those the seed fixes when it reseeds, the
      carried ones for no seed or seed 0. */
  function DrawsFor(seed: Option<nat>, rng: Sampler): (d: Draws)
    ensures seed.Some? && seed.value != 0 ==> d == rng.seeded(seed.value)
    ensures seed.None? || seed == Some(0) ==> d == rng.carried
  {
    if Reseeds(seed) then rng.seeded(seed.value) else rng.carried
  }

  /** `np.random.choice(options)`. */
  function RandomChoice<T>(options: seq<T>, draw: nat): (x: T)
    requires |options| > 0
    ensures x in options
  {
    options[draw % |options|]
  }

  /** `np.random.randint(lo, hi)`: a value in [lo, hi). */
  function RandInt(lo: int, hi: int, draw: nat): (x: int)
    requires lo < hi
    ensures lo <= x < hi
  {
    lo + draw % (hi - lo)
  }

  /** The bounds the source passes to `randint` for a road type: a
      non-empty range, and for a listed type exactly the lanes it allows. */
  function LaneBounds(roadType: string): (b: (int, int))
    ensures b.0 < b.1
  {
    if roadType == "rural" then (1, 3)
    else if roadType == "urban" then (2, 5)
    else (3, 7)
  }

  /** The half-open range `randint(low, high)` draws from holds exactly the
      lane counts allowed for a known road type. */
  lemma LaneBoundsFit(roadType: string)
    ensures forall n :: LaneBounds(roadType).0 <= n < LaneBounds(roadType).1 ==> LanesFit(roadType, n)
    ensures roadType in RoadTypes ==>
      forall n :: LanesFit(roadType, n) ==> LaneBounds(roadType).0 <= n < LaneBounds(roadType).1
  {
  }

  /** `np.round(np.random.uniform(0.0, 1.0), 2)` in hundredths: the 53-bit
      draw over 2^53, times 100, rounded half to even. */
  function RoundedHundredths(draw: nat): (k: int)
    ensures 0 <= k <= 100
  {
    var scaled := 100 * (draw % Two53);
    var q := scaled / Two53;
    var rem := scaled % Two53;
    assert q < 100 by {
      assert scaled < 100 * Two53;
      assert q * Two53 <= scaled;
    }
    if 2 * rem < Two53 then q
    else if 2 * rem > Two53 then q + 1
    else if q % 2 == 0 then q
    else q + 1
  }

  /** A real with at most two decimals. */
  predicate IsHundredths(x: real)
  {
    (100.0 * x).Floor as real == 100.0 * x
  }

  /** The record `generate_road` returns, one field per key of its dict. */
  datatype Road = Road(
    roadType: string, numLanes: int, curvature: real, speedLimit: int,
    lighting: string, weather: string, roadSignsPresent: bool, publicRoad: bool,
    timeOfDay: string, holiday: bool, schoolSeason: bool, numReportedAccidents: nat)

  /** The road as the one-row frame `pd.DataFrame([road])`. */
  function RoadRow(road: Road): (row: Row)
    ensures row.Keys == RoadColumns
  {
    map[
      "road_type" := Str(road.roadType),
      "num_lanes" := Int(road.numLanes),
      "curvature" := Real(road.curvature),
      "speed_limit" := Int(road.speedLimit),
      "lighting" := Str(road.lighting),
      "weather" := Str(road.weather),
      "road_signs_present" := Bool(road.roadSignsPresent),
      "public_road" := Bool(road.publicRoad),
      "time_of_day" := Str(road.timeOfDay),
      "holiday" := Bool(road.holiday),
      "school_season" := Bool(road.schoolSeason),
      "num_reported_accidents" := Int(road.numReportedAccidents)
    ]
  }

  /** Two roads are equal as dicts exactly when they are equal as records. */
  lemma RoadRowInjective(a: Road, b: Road)
    ensures RoadRow(a) == RoadRow(b) <==> a == b
  {
    if RoadRow(a) == RoadRow(b) {
      assert RoadRow(a)["road_type"] == RoadRow(b)["road_type"];
      assert RoadRow(a)["num_lanes"] == RoadRow(b)["num_lanes"];
      assert RoadRow(a)["curvature"] == RoadRow(b)["curvature"];
      assert RoadRow(a)["speed_limit"] == RoadRow(b)["speed_limit"];
      assert RoadRow(a)["lighting"] == RoadRow(b)["lighting"];
      assert RoadRow(a)["weather"] == RoadRow(b)["weather"];
      assert RoadRow(a)["road_signs_present"] == RoadRow(b)["road_signs_present"];
      assert RoadRow(a)["public_road"] == RoadRow(b)["public_road"];
      assert RoadRow(a)["time_of_day"] == RoadRow(b)["time_of_day"];
      assert RoadRow(a)["holiday"] == RoadRow(b)["holiday"];
      assert RoadRow(a)["school_season"] == RoadRow(b)["school_season"];
      assert RoadRow(a)["num_reported_accidents"] == RoadRow(b)["num_reported_accidents"];
    }
  }

  /** The lanes the source allows for a road type. */
  predicate LanesFit(roadType: string, lanes: int)
  {
    && (roadType == "rural" ==> 1 <= lanes <= 2)
    && (roadType == "urban" ==> 2 <= lanes <= 4)
    && (roadType == "highway" ==> 3 <= lanes <= 6)
  }

  /** What the source promises of every road it generates. */
  predicate WellFormedRoad(road: Road)
  {
    && road.roadType in RoadTypes
    && LanesFit(road.roadType, road.numLanes)
    && 0.0 <= road.curvature <= 1.0 && IsHundredths(road.curvature)
    && road.speedLimit in SpeedLimits
    && road.lighting in Lightings
    && road.weather in Weathers
    && road.timeOfDay in TimesOfDay
  }

  /** The road record built from one call's draws. */
  function BuildRoad(d: Draws): (road: Road)
    ensures WellFormedRoad(road)
  {
    var roadType := RandomChoice(RoadTypes, d.roadType);
    var bounds := LaneBounds(roadType);
    var hundredths := RoundedHundredths(d.curvature);
    var curvature := hundredths as real / 100.0;
    assert IsHundredths(curvature) by {
      assert 100.0 * curvature == hundredths as real;
    }
    Road(
      roadType,
      RandInt(bounds.0, bounds.1, d.lanes),
      curvature,
      RandomChoice(SpeedLimits, d.speedLimit),
      RandomChoice(Lightings, d.lighting),
      RandomChoice(Weathers, d.weather),
      RandomChoice(Booleans, d.roadSigns),
      RandomChoice(Booleans, d.publicRoad),
      RandomChoice(TimesOfDay, d.timeOfDay),
      RandomChoice(Booleans, d.holiday),
      RandomChoice(Booleans, d.schoolSeason),
      d.accidents)
  }

  /** `generate_road(seed)`. */
  function GenerateRoad(seed: Option<nat>, rng: Sampler): (road: Road)
    ensures WellFormedRoad(road)
  {
    BuildRoad(DrawsFor(seed, rng))
  }

  /** A non-zero seed makes the road independent of everything drawn
      before; seed 0 is treated like no seed at all. */
  lemma SeedReproducible(seed: nat, carried1: Draws, carried2: Draws, seeded: nat -> Draws)
    ensures seed != 0 ==>
      GenerateRoad(Some(seed), Sampler(carried1, seeded)) == GenerateRoad(Some(seed), Sampler(carried2, seeded))
    ensures seed == 0 ==>
      GenerateRoad(Some(seed), Sampler(carried1, seeded)) == GenerateRoad(None, Sampler(carried1, seeded))
  {
    assert seed != 0 ==> DrawsFor(Some(seed), Sampler(carried1, seeded)) == DrawsFor(Some(seed), Sampler(carried2, seeded));
    assert seed == 0 ==> DrawsFor(Some(seed), Sampler(carried1, seeded)) == DrawsFor(None, Sampler(carried1, seeded));
  }

  /*************************************************************************
   * The pipeline on generated roads
   *************************************************************************/

  /** With four plain columns and the binned count, only the count yields
      dummies. */
  lemma {:induction false} OnlyBinnedDummies(eng: Row, code: Option<nat>)
    requires forall c :: c in OheCols ==> c in eng
    requires !eng["road_type"].Cat? && !eng["lighting"].Cat? && !eng["weather"].Cat? && !eng["time_of_day"].Cat?
    requires eng["accidents_binned"] == Cat(code, 3)
    ensures DummiesOf(eng, OheCols) == map["accidents_binned_1" := Bool(code == Some(1)),
                                           "accidents_binned_2" := Bool(code == Some(2))]
  {
    BinnedDummies(code);
    var plain := OheCols[..4];
    assert plain == ["road_type", "lighting", "weather", "time_of_day"];
    assert OheCols[..|OheCols| - 1] == plain;
    NoDummiesWithoutCategoricals(eng, plain);
    assert DummiesOf(eng, OheCols) == ColumnDummies("accidents_binned", Cat(code, 3));
  }

  /** Columns of a one-row frame that are not categoricals yield no dummies. */
  lemma {:induction false} NoDummiesWithoutCategoricals(row: Row, cols: seq<string>)
    requires forall c :: c in cols ==> c in row && !row[c].Cat?
    ensures DummiesOf(row, cols) == map[]
  {
    if cols != [] {
      NoDummiesWithoutCategoricals(row, cols[..|cols| - 1]);
    }
  }

  /** The pipeline never raises on a road record. */
  lemma GeneratedRoadAccepted(road: Road)
    ensures PipelineAccepts(RoadRow(road))
  {
    var row := RoadRow(road);
    assert Readable(row);
    assert Castable(row);
  }

  /** A road's frame with its boolean columns cast to 0/1. */
  function CastRoadRow(road: Road): Row
  {
    RoadRow(road)
      ["road_signs_present" := Flag(road.roadSignsPresent)]
      ["public_road" := Flag(road.publicRoad)]
      ["holiday" := Flag(road.holiday)]
      ["school_season" := Flag(road.schoolSeason)]
  }

  /** The six columns `engineer_features` derives from a road. */
  function DerivedRoadRow(road: Road): Row
  {
    var high := road.speedLimit >= 60;
    map[
      "high_speed" := Flag(high),
      "night_lighting" := Flag(road.lighting == "night"),
      "bad_weather" := Flag(road.weather != "clear"),
      "high_accidents" := Flag(road.numReportedAccidents > 2),
      "curvature_high_speed" := Real(if high then road.curvature else 0.0),
      "accidents_binned" := Cat(AccidentBin(road.numReportedAccidents as real), 3)
    ]
  }

  /** The two dummies of a road's binned accident count. */
  function BinnedRoadDummies(road: Road): Row
  {
    var bin := AccidentBin(road.numReportedAccidents as real);
    map["accidents_binned_1" := Bool(bin == Some(1)), "accidents_binned_2" := Bool(bin == Some(2))]
  }

  /** The features a road reaches alignment with: the engineered road
      without the five encoded columns, plus the binned count's dummies. */
  function RoadEncoded(road: Road): Row
  {
    ((CastRoadRow(road) + DerivedRoadRow(road)) - set c | c in OheCols) + BinnedRoadDummies(road)
  }

  /** The columns left after engineering and encoding a road. */
  const EncodedRoadColumns: set<string> :=
    {"num_lanes", "curvature", "speed_limit", "road_signs_present", "public_road",
     "holiday", "school_season", "num_reported_accidents",
     "high_speed", "night_lighting", "bad_weather", "high_accidents",
     "curvature_high_speed", "accidents_binned_1", "accidents_binned_2"}

  /** No column of the road's type, lighting, weather or time of day reaches
      the model: the encoded road has exactly the columns above. */
  lemma RoadEncodedColumns(road: Road)
    ensures RoadEncoded(road).Keys == EncodedRoadColumns
  {
    CastRoadColumns(road);
    DerivedRoadColumns(road);
    var keys := (CastRoadRow(road) + DerivedRoadRow(road)).Keys;
    assert keys == RoadColumns + DerivedCols;
    EncodedKeys(keys, BinnedRoadDummies(road).Keys);
  }

  /** A cell `scaler.transform` reads as a number: an int, a float or a bool. */
  predicate IsNumber(c: Cell)
  {
    c.Int? || c.Real? || c.Bool?
  }

  /** Every column of an encoded road is a number. */
  lemma RoadEncodedNumeric(road: Road)
    ensures forall c :: c in RoadEncoded(road) ==> IsNumber(RoadEncoded(road)[c])
  {
    var eng := CastRoadRow(road) + DerivedRoadRow(road);
    forall c | c in eng && c !in OheCols
      ensures IsNumber(eng[c])
    {
      if c !in DerivedRoadRow(road) {
        assert c in RoadColumns;
      }
    }
  }

  /** Every cell of the aligned frame the scaler receives for a road is a
      number, so the scaler never meets a string from a generated road. */
  lemma AlignedRoadNumeric(road: Road, names: seq<string>)
    ensures forall i :: 0 <= i < |names| ==> IsNumber(Reindex(RoadEncoded(road), names).values[i])
  {
    RoadEncodedNumeric(road);
    ReindexSelects(RoadEncoded(road), names);
  }

  /** The derived columns are exactly the six names `engineer_features` adds. */
  lemma DerivedRoadColumns(road: Road)
    ensures DerivedRoadRow(road).Keys == DerivedCols
  {
  }

  /** Casting replaces values only. */
  lemma CastRoadColumns(road: Road)
    ensures CastRoadRow(road).Keys == RoadColumns
  {
    var row := RoadRow(road);
    assert "road_signs_present" in row && "public_road" in row && "holiday" in row && "school_season" in row;
    var r1 := row["road_signs_present" := Flag(road.roadSignsPresent)];
    assert r1.Keys == row.Keys;
    var r2 := r1["public_road" := Flag(road.publicRoad)];
    assert r2.Keys == row.Keys;
    var r3 := r2["holiday" := Flag(road.holiday)];
    assert r3.Keys == row.Keys;
    var r4 := r3["school_season" := Flag(road.schoolSeason)];
    assert r4.Keys == row.Keys;
  }

  /** The set arithmetic behind `RoadEncodedColumns`. */
  lemma EncodedKeys(keys: set<string>, dummyKeys: set<string>)
    requires keys == RoadColumns + DerivedCols
    requires dummyKeys == {"accidents_binned_1", "accidents_binned_2"}
    ensures (keys - set c | c in OheCols) + dummyKeys == EncodedRoadColumns
  {
  }

  /** Casting the boolean columns of a road's frame. */
  lemma CastRoad(road: Road)
    ensures Castable(RoadRow(road)) && CastCols(RoadRow(road)) == CastRoadRow(road)
  {
    var row := RoadRow(road);
    RoadCastable(road);
    CastRoadColumns(road);
    assert CastCols(row).Keys == row.Keys == CastRoadRow(road).Keys;
    forall k | k in row
      ensures CastCols(row)[k] == CastRoadRow(road)[k]
    {
      CastRoadAt(road, k);
    }
  }

  /** Casting a road's frame, one column at a time. */
  lemma CastRoadAt(road: Road, k: string)
    requires k in RoadRow(road)
    ensures Castable(RoadRow(road)) && CastCols(RoadRow(road))[k] == CastRoadRow(road)[k]
  {
    RoadCastable(road);
    BoolColsMembers();
    if k == "road_signs_present" {
    } else if k == "public_road" {
    } else if k == "holiday" {
    } else if k == "school_season" {
    } else {
      assert k !in BoolCols;
    }
  }

  /** Every boolean column of a road's frame casts to an integer. */
  lemma RoadCastable(road: Road)
    ensures Castable(RoadRow(road))
  {
    var row := RoadRow(road);
    assert Castable(row);
  }

  lemma BoolColsMembers()
    ensures forall k :: k in BoolCols <==>
      k == "road_signs_present" || k == "public_road" || k == "holiday" || k == "school_season"
  {
  }

  /** The derived columns of a road's frame. */
  lemma DerivedRoad(road: Road)
    ensures Readable(RoadRow(road)) && DerivedOf(RoadRow(road)) == DerivedRoadRow(road)
  {
    var row := RoadRow(road);
    assert Readable(row);
  }

  /** `engineer_features` on a road's frame. */
  lemma EngineeredRoad(road: Road)
    ensures Engineered(RoadRow(road)) == Ok(CastRoadRow(road) + DerivedRoadRow(road))
  {
    GeneratedRoadAccepted(road);
    CastRoad(road);
    DerivedRoad(road);
  }

  /** The five columns the encoding replaces, in an engineered road. */
  lemma EngineeredRoadEncodedColumns(road: Road)
    ensures var eng := CastRoadRow(road) + DerivedRoadRow(road);
      && (forall c :: c in OheCols ==> c in eng)
      && eng["road_type"] == Str(road.roadType) && eng["lighting"] == Str(road.lighting)
      && eng["weather"] == Str(road.weather) && eng["time_of_day"] == Str(road.timeOfDay)
      && eng["accidents_binned"] == Cat(AccidentBin(road.numReportedAccidents as real), 3)
  {
    var eng := CastRoadRow(road) + DerivedRoadRow(road);
    InputColsApart();
    CastRoadColumns(road);
    OheColsIn(eng.Keys);
  }

  /** One-hot encoding of an engineered road: the four string columns yield
      nothing and the binned count yields its two dummies. */
  lemma {:induction false} DummiesOfRoad(road: Road)
    ensures GetDummies(CastRoadRow(road) + DerivedRoadRow(road)) == Ok(RoadEncoded(road))
  {
    EngineeredRoadEncodedColumns(road);
    EncodeEngineeredRoad(CastRoadRow(road) + DerivedRoadRow(road), road);
  }

  /** One-hot encoding of any row whose five encoded columns are a road's. */
  lemma EncodeEngineeredRoad(eng: Row, road: Road)
    requires forall c :: c in OheCols ==> c in eng
    requires eng["road_type"] == Str(road.roadType) && eng["lighting"] == Str(road.lighting)
    requires eng["weather"] == Str(road.weather) && eng["time_of_day"] == Str(road.timeOfDay)
    requires eng["accidents_binned"] == Cat(AccidentBin(road.numReportedAccidents as real), 3)
    ensures GetDummies(eng) == Ok((eng - set c | c in OheCols) + BinnedRoadDummies(road))
  {
    OnlyBinnedDummies(eng, AccidentBin(road.numReportedAccidents as real));
  }

  /** The frame the scaler receives for a road. */
  lemma EncodeRoad(road: Road, names: seq<string>)
    ensures Encode(RoadRow(road), names) == Ok(Reindex(RoadEncoded(road), names))
  {
    EngineeredRoad(road);
    DummiesOfRoad(road);
  }

  /** The risk the back end reports for a road record, read off the road's
      encoded features. */
  function RoadRisk(road: Road, backend: Backend): (r: real)
    ensures 0.0 <= r <= 1.0
  {
    Clip(backend.predict(backend.scale(Reindex(RoadEncoded(road), backend.featureNames))))
  }

  /** The pipeline accepts every road, and the risk it reports is the one
      read off the road's encoded features. */
  lemma RoadRiskIsRisk(road: Road, backend: Backend)
    ensures PipelineAccepts(RoadRow(road))
    ensures RoadRisk(road, backend) == Risk(RoadRow(road), backend)
  {
    GeneratedRoadAccepted(road);
    EncodeRoad(road, backend.featureNames);
  }

  /** Consequently every feature name outside the encoded columns, such as
      `road_type_urban` or `lighting_night`, reaches the scaler as the zero
      that alignment fills in, whatever the road. */
  lemma StringDummiesZeroFilled(road: Road, names: seq<string>, i: nat)
    requires i < |names| && names[i] !in EncodedRoadColumns
    ensures Encode(RoadRow(road), names).Ok?
    ensures Encode(RoadRow(road), names).value.values[i] == Int(0)
  {
    EncodeRoad(road, names);
    RoadEncodedColumns(road);
  }
}
