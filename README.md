# Pick the Safer Road — a Dafny model of the quiz's scoring and round logic

"Pick the Safer Road" is a Streamlit quiz. Each round shows two randomly
generated roads. The player guesses which one the accident-risk model thinks
is safer, and a game lasts five rounds. This project models the two pieces of
logic underneath the page and proves what they promise.

- **`utils.dfy` (module `Utils`, from `utils.py`)** models the scoring back
  end:
  - `engineer_features`: four 0/1 flags, the curvature × high-speed
    interaction, the three-way bin of the accident count, and the cast of the
    four boolean columns;
  - `preprocess_input`: one-hot encoding with the first level dropped, then
    alignment to the model's feature names;
  - the clamp in `predict_risk`;
  - `generate_road`.

  A road is a one-row frame, `map<string, Cell>`. Raised exceptions are
  `Err` values, in the order the source would raise them. The scaler, the
  model and the random source are parameters. The imperative parts are
  methods proved against specification functions: the sequential column
  assignments, the loop over the boolean columns and the zero-fill loop.
  The properties are lemmas about those functions.

  On a generated road the pipeline never raises. Each of the four string
  columns has exactly one observed level in a one-row frame, and
  `drop_first` removes that level. The count's bin is a categorical with
  declared levels 0, 1 and 2, so it always yields `accidents_binned_1` and
  `accidents_binned_2`. Every other one-hot feature the model was trained on
  (`road_type_urban`, `lighting_night`, …) therefore reaches the scaler as the
  0 that alignment fills in. `RoadEncoded` states this closed form, and
  `EncodeRoad` and `StringDummiesZeroFilled` prove it.

- **`app.dfy` (module `App`, from `app.py`)** models the round controller:
  - the verdict rule and the score and round counter;
  - the round seeds and the loop that redraws Road 2 while it equals Road 1;
  - `get_road_image`;
  - `st.session_state` as the class `Session`. Its methods are the
    script's steps: initialise, generate and score the round, submit, the
    verdict, "Next Round", and deleting every key for "New Game" or "Play
    Again".

  `Session.Valid()` is the invariant every step keeps while the state is
  filled: `0 <= score <= total_questions <= max_rounds == 5`; an open round
  has a round left; a finished game has none; a resolved round has its risks
  and the guess recorded. `Run` is one top-to-bottom run of the script with
  one button click.

Where the code departs from its comments or the obvious reading, the model
follows the code:
- `if seed:` does not reseed for seed 0. Road 1 of the first round therefore
  comes from whatever state the random source carried over, not from a seed
  (`RoundSeedsProperties`, `RoundRoadsReproducible`). Every rerun of round
  one draws Road 1 again from that carried state, so the run that scores a
  first-round guess can hold a different Road 1 from the one the player saw
  (`FirstRoundRoad1Varies`).
- The string one-hot columns never survive encoding of a one-row frame, as
  described above.

## Model

| member | source | states |
|---|---|---|
| Utils.Trunc | utils.py:33 | a float cast to int truncates toward zero, for both signs |
| Utils.AsInt | utils.py:33 | `.astype(int)` succeeds exactly on numeric cells; it maps a bool to 0/1, keeps an int and truncates a float toward zero |
| Utils.TimesFlag | utils.py:28 | multiplying by the 0/1 high-speed flag gives a numeric curvature when the flag is set and 0 otherwise; a string curvature is repeated once or zero times, so it stays itself or becomes ""; only a categorical curvature fails |
| Utils.AccidentBin | utils.py:29 | the right-closed bins (-1,0], (0,2], (2,inf) give 0, 1, 2, and a count at or below -1 is NaN, each as an if-and-only-if |
| Utils.AccidentBinOfCount | utils.py:27-29 | every non-negative count lands in exactly one bin: 0 for 0, 1 for 1–2, 2 above 2, and bin 2 coincides with `high_accidents` |
| Utils.FirstUncastable | utils.py:30-33 | no error exactly when every present boolean column casts, and an error names a boolean column |
| Utils.FirstUncastableIsFirst | utils.py:30-33 | the error names the first present boolean column that cannot be cast, and every present boolean column before it casts |
| Utils.EngineerError | utils.py:24-33 | `engineer_features` raises exactly when a column it reads is missing, when the speed limit or the accident count is not numeric, when the curvature is a categorical, or when a present boolean column cannot be cast |
| Utils.Engineered | utils.py:22-34 | the result is an error exactly when `EngineerError` reports one, and it is that error |
| Utils.EngineeredProperties | utils.py:23-33 | on success: `high_speed` is 1 iff speed ≥ 60, `night_lighting` iff lighting is "night", `bad_weather` iff weather is not "clear", `high_accidents` iff count > 2, each 0 otherwise; the interaction is a numeric curvature on fast roads and 0 elsewhere, and a string curvature itself on fast roads and "" elsewhere; the count is binned; present boolean columns become 0/1; every other input column keeps its value; the columns are the input's plus the six derived ones |
| Utils.CastPart | utils.py:30-33 | the engineered frame's columns are the input's plus the derived ones, present boolean columns hold their cast value, and all other input columns are unchanged |
| Utils.DerivedPart | utils.py:24-29 | the six derived columns hold the flags, the interaction and the bin as defined by the input row |
| Utils.EngineerFeatures | utils.py:22-34 | the sequential column assignments followed by the cast loop compute `Engineered(df)`, errors included |
| Utils.DerivedKeepsBoolCols | utils.py:24-33 | adding the derived columns changes neither which boolean column fails first nor the cast result, so casting after the assignments equals casting the input |
| Utils.CastBoolColumns | utils.py:30-33 | the loop fails exactly at the first present boolean column that cannot be cast; otherwise it casts every present boolean column and leaves the rest alone |
| Utils.NatToString | utils.py:41 | a category label's text is made of digits only and ends in one |
| Utils.NatToStringInjective | utils.py:41 | different labels have different text |
| Utils.DummyName | utils.py:41 | a dummy's name is the column's name, an underscore and exactly the level's text, so it ends in a digit and is longer than the column's name |
| Utils.DummyNameInjective | utils.py:41 | two levels of one column never share a dummy column |
| Utils.LevelDummies | utils.py:41 | every dummy name of a categorical's levels ends in a digit |
| Utils.LevelDummiesLevels | utils.py:41 | levels k … n-1 each get the column `<col>_<level>`, every column in the map is one of these, and each is true exactly for the row's own level |
| Utils.ColumnDummies | utils.py:41 | every dummy column name ends in a digit, and a column that is not a categorical contributes no dummy in a one-row frame |
| Utils.ColumnDummiesLevels | utils.py:41 | with `drop_first` a categorical yields `<col>_<level>` for every declared level but the first and nothing else, each true exactly for the row's own level |
| Utils.DummiesOf | utils.py:41 | every dummy name of the listed columns ends in a digit |
| Utils.DummiesOfColumns | utils.py:41 | the dummies of the listed columns are exactly the union of each column's own dummies, and each holds the value its column gives it |
| Utils.FirstMissing | utils.py:41 | None exactly when every listed column is present; otherwise a listed column that is absent |
| Utils.GetDummies | utils.py:37-41 | a KeyError exactly when one of the five columns is missing, naming a missing one; otherwise none of the five survives, and every other column whose name does not clash with a dummy is kept with its value |
| Utils.GetDummiesHoldsDummies | utils.py:41 | every dummy of the five columns is a column of the encoded frame and holds that dummy's value |
| Utils.BinnedDummies | utils.py:37-41 | the binned count always yields `accidents_binned_1` and `accidents_binned_2`, set by its bin; bin 0 and NaN set neither |
| Utils.OnlyBinnedDummies | utils.py:41 | with four non-categorical encoded columns, `DummiesOf` over the encoded columns is exactly the two dummies of the binned count |
| Utils.NoDummiesWithoutCategoricals | utils.py:41 | a one-row frame's non-categorical columns yield no dummy with `drop_first` |
| Utils.ReindexIdempotent | utils.py:45 | aligning an already aligned frame changes nothing |
| Utils.Reindex | utils.py:45 | the result's columns are the names in order, one value per name |
| Utils.ReindexSelects | utils.py:45 | `reindex(columns=names, fill_value=0)` gives each requested name the row's value, or 0 when the row lacks that column |
| Utils.AlignColumns | utils.py:42-45 | the result has exactly the feature names in order; a name present after encoding keeps its value, a missing one is 0, and extra columns are dropped |
| Utils.EncodeAccepts | utils.py:39-41 | engineering and encoding both succeed exactly when the engineering inputs are usable and `road_type` and `time_of_day` are present |
| Utils.Encode | utils.py:39-45 | the encoded frame exists exactly when the pipeline accepts the row, and it has the feature names as its columns |
| Utils.Clip | utils.py:53 | the result is in [0,1]: below 0 gives 0, above 1 gives 1, in range is unchanged |
| Utils.ClipIdempotentMonotone | utils.py:53 | clamping is idempotent and preserves order |
| Utils.Risk | utils.py:50-53 | the reported risk of an accepted row lies in [0,1] |
| Utils.PreprocessInput | utils.py:39-47 | succeeds exactly when engineering and encoding accept the row (`EncodeAccepts`), with the scaler applied to `Encode`'s frame; otherwise returns `Encode`'s error |
| Utils.PredictRisk | utils.py:50-53 | succeeds exactly when engineering and encoding accept the row (`EncodeAccepts`), with a risk in [0,1] equal to `Risk`; otherwise returns `Encode`'s error |
| Utils.RandomChoice | utils.py:63 | a choice is one of its options |
| Utils.RandInt | utils.py:66-71 | `randint(lo, hi)` lies in [lo, hi) |
| Utils.LaneBounds | utils.py:66-71 | the `randint` bounds of a road type form a non-empty range |
| Utils.LaneBoundsFit | utils.py:66-71 | for a known road type the range holds exactly the allowed lane counts: rural 1–2, urban 2–4, highway 3–6 |
| Utils.RoundedHundredths | utils.py:76 | the rounded uniform draw is a whole number of hundredths between 0 and 100 |
| Utils.DrawsFor | utils.py:58-61 | as `if seed:` decides, a non-zero seed draws from that seed's stream; no seed or seed 0 continues the carried state |
| Utils.RoadRow | utils.py:73-86 | the road's frame has exactly the twelve keys of the dict |
| Utils.RoadRowInjective | app.py:77 | two road dicts are equal exactly when all twelve fields are equal |
| Utils.BuildRoad | utils.py:63-86 | every road has a listed type, rural 1–2 / urban 2–4 / highway 3–6 lanes, curvature in [0,1] at two decimals, and a listed speed limit, lighting, weather and time of day |
| Utils.GenerateRoad | utils.py:58-87 | `generate_road` always returns such a well-formed road |
| Utils.SeedReproducible | utils.py:59-61 | a non-zero seed makes the road independent of the earlier draws, and seed 0 behaves as no seed |
| Utils.GeneratedRoadAccepted | utils.py:22-41 | the pipeline accepts every road record |
| Utils.CastRoad | utils.py:30-33 | casting a road's frame turns its four booleans into 0/1 and keeps the rest |
| Utils.DerivedRoad | utils.py:24-29 | the derived columns of a road are its flags, interaction and bin |
| Utils.EngineeredRoad | utils.py:22-34 | `engineer_features` on a road's frame gives the cast frame plus the derived columns |
| Utils.DummiesOfRoad | utils.py:41 | encoding an engineered road drops the five columns and adds only the two count dummies |
| Utils.EncodeEngineeredRoad | utils.py:41 | the same, for any row whose five encoded columns carry a road's strings and bin |
| Utils.RoadEncodedColumns | utils.py:37-41 | an encoded road has exactly fifteen columns, none from its type, lighting, weather or time of day |
| Utils.RoadEncodedNumeric | utils.py:24-41 | every column of an encoded road holds an int, a float or a bool |
| Utils.AlignedRoadNumeric | utils.py:45-46 | every cell of the aligned frame handed to `scaler.transform` for a road is a number |
| Utils.EncodeRoad | utils.py:39-45 | the frame the scaler receives for a road is its closed-form encoding aligned to the feature names |
| Utils.RoadRisk | utils.py:50-53 | a road's risk lies in [0,1] |
| Utils.RoadRiskIsRisk | utils.py:50-53 | the pipeline accepts every road, and its risk equals the closed-form one |
| Utils.StringDummiesZeroFilled | utils.py:41-45 | every feature name outside the fifteen encoded columns reaches the scaler as 0, whatever the road |
| App.Safer | app.py:154 | Road 1 exactly when risk1 < risk2, and Road 2 exactly when risk2 ≤ risk1 |
| App.SaferIsNoRiskier | app.py:126 | the safer road never has the higher risk, distinct risks swap the verdict when swapped, and a tie goes to Road 2 |
| App.AfterGuess | app.py:127-133 | the score rises by one exactly when the guess is right and rounds remain, and otherwise stays; the counter becomes min(total + 1, max) |
| App.AfterGuessKeepsBounds | app.py:127-133 | a guess keeps 0 ≤ score ≤ total ≤ max, counts a round while rounds remain, and changes nothing once the limit is reached |
| App.Play | app.py:123-133 | from reset, 0 ≤ score ≤ total ≤ max holds after every series of guesses |
| App.PlayCounts | app.py:127-133 | over a game the counter is the number of guesses capped at max, and the score is the number of correct guesses among those counted |
| App.RoundSeeds | app.py:72-73 | round t uses seed 2t for Road 1 and 2t + 1 for Road 2, an even seed and the next odd one |
| App.RoundSeedsProperties | app.py:72-78 | rounds never share a seed; the retry seed is the next round's first seed; Road 2 and the retry always reseed; Road 1 reseeds exactly after the first round |
| App.RoundRoadsReproducible | app.py:72-75 | a rerun shows the same Road 2 and retry road, and the same Road 1 after round one; round one's Road 1 comes from the carried random state |
| App.FirstRoundRoad1Varies | app.py:72-75 | two runs of round one whose seeded draws agree show the same Road 2 but can show different Road 1 roads |
| App.Deduped | app.py:77-78 | a Road 2 that already differs from Road 1 is kept; otherwise the retry is used when it differs from Road 1; the loop does not end exactly when Road 2 and the retry both equal Road 1, and a road it leaves never equals Road 1 |
| App.DrawRoads | app.py:71-78 | the loop's Road 1 comes from seed 2t; its Road 2 is `Deduped`'s result; it hangs exactly when both draws equal Road 1 |
| App.ScoreRoad | app.py:80-84 | a road's risk never raises, lies in [0,1] and is `RoadRisk` |
| App.RoadImage | app.py:23-25 | the exact scene's image wins, then the road type's, then the rural one, and the result is always one of the listed images |
| App.GeneratedRoadHasTypeImage | app.py:14-25 | every generated road type has its own image, so a non-rural road never falls back to the rural one |
| App.Session.constructor | app.py:54 | a new session holds no keys |
| App.Session.Valid | app.py:54-175 | in a filled state 0 ≤ score ≤ total ≤ 5, and a finished game has played exactly 5 rounds |
| App.Session.Initialize | app.py:54-66 | an empty state becomes score 0, total 0, active, not over, nothing drawn, max 5; a filled state is left alone |
| App.Session.GenerateRound | app.py:71-91 | stores Road 1 from seed 2t and the deduplicated Road 2, which differ; the score and counter are untouched |
| App.Session.ScoreRound | app.py:83-91 | stores each road's risk as `RoadRisk`, keeping the roads, the score and the counter |
| App.Session.Submit | app.py:123-133 | closes the round, records the guess, updates score and counter as `AfterGuess` does against the stored risks, and keeps `Valid()` |
| App.Session.Verdict | app.py:144-166 | the verdict is `Safer` of the stored risks, a guess is correct exactly when it names that road, and the game is over exactly when total ≥ max |
| App.Session.OpenNextRound | app.py:172-175 | reopens play with the score and counter untouched |
| App.Session.ClearState | app.py:136-139 | deleting the keys one by one leaves the state empty |
| App.Session.BeginRun | app.py:54-91 | an empty state starts a new game and a filled one keeps its score, counter, flags and guess; while a round is open, the run hangs exactly when the dedupe loop does, and otherwise the state holds round t's Road 1 (seed 2t), its deduplicated Road 2 and `RoadRisk` of each; with no round open, or after a hang, the stored roads and risks are the ones found |
| App.Session.HandleClick | app.py:119-195 | per click, in terms of the state found: "Submit Guess" on an open round closes it, records the guess, applies `AfterGuess` against the stored risks and ends the game exactly when the last round was played; "New Game" on an open round and "Play Again" after the last round empty the state and rerun; "Next Round" at a verdict with rounds left reopens play and reruns; the roads and risks never change, and any other click leaves score, counter and guess alone |
| App.Session.Run | app.py:54-195 | a whole run keeps `Valid()`; it hangs exactly when a round is open and its dedupe loop does, and a hang leaves the roads, risks and guess it found; an open round then holds round t's roads and their `RoadRisk`; the click acts on the state the top of the script left, as `HandleClick` states, from score 0 and total 0 when the state was empty; a run that submits nothing keeps the recorded guess |
| App.ResetThenInitialize | app.py:54-66 | a reset followed by the next run's initialisation always gives score 0, total 0, active, not over, max 5 |

## Left out

- Streamlit presentation is not modelled: page setup, CSS, columns, images, data frames, metrics, balloons, and `display_road` (app.py:96-116). `st.rerun()` appears only as the `rerun` flag a run returns.
- `load_model_stuff` (utils.py:9-19) is not modelled. It is file I/O through joblib and json, with caching and `st.stop`. Its results appear as the `Backend` parameter.
- `scaler.transform` and `model.predict` are opaque fitted objects. They are the uninterpreted functions `Backend.scale` and `Backend.predict`.
- Utils.PreprocessInput, Utils.PredictRisk: the scaler and the model are total here, so an error raised inside them is not modelled, and "succeeds" means "reaches the scaler". `scaler.transform` (utils.py:46) raises ValueError on a cell it cannot read as a number, such as the `""` that utils.py:28 makes of a string curvature at 30 mph or less, or a string `num_lanes`; the model returns a risk for such a row. Generated roads are unaffected, because every cell of their aligned frame is a number (`AlignedRoadNumeric`).
- The random distributions (`np.random.choice`, `randint`, `uniform`, `poisson`) are abstract draws. A draw is a natural number reduced modulo the number of options, and the uniform draw is a 53-bit integer. Random state is the `Sampler` parameter, so the state the module-level generator shares across sessions and calls is not modelled.
- Floating point is modelled as exact reals. That covers the risks, the curvature and the comparisons `speed >= 60` and `count > 2`.
- The percentage display (app.py:162, 184) is not modelled. It is float arithmetic that is only shown.
- The order of the encoded frame's columns before alignment is not modelled. Rows are maps, and alignment fixes the order anyway.
- Pandas casting corners are simplified. A string column passed to `.astype(int)` is always an error, even one holding digits. Bools compare as 0/1. Comparing a string column with a number is a `NotNumeric` error.
- Categorical inputs other than the binned count are not modelled beyond "not a categorical". A caller-supplied categorical `road_type`, for example, would not have its declared levels tracked.
- Utils.GetDummies: an input column already named like a dummy (`accidents_binned_1`, say) is overwritten by the dummy in the model. Pandas keeps both columns under the same label, and the `reindex` at utils.py:45 then raises ValueError. A generated road has no such column (`RoadEncodedColumns`), so the road pipeline is unaffected.
- App.DrawRoads: the dedupe loop runs at most `fuel` times. When a retry equals Road 1 the source loops forever, and the model reports `hung` instead. With `fuel` 0 a Road 2 equal to Road 1 already counts as a hang, even when the retry would differ; with any positive `fuel` the hang condition is exactly the source's.
- App.Session.ClearState: `st.session_state` is modelled as the set of keys it holds plus one field per value. Deleting a key removes it from the set and leaves the stale field value, which no step reads while the key is absent.
- Utils.EngineerFeatures: utils.py:28 reads `high_speed` back from the copy being filled; the model uses the value it has just stored there, which is the same cell. Every other derived column is computed from input columns, which the copy holds unchanged until the cast loop.
