/**
 * The round controller of the "Pick the Safer Road" quiz (app.py).
 *
 * Streamlit runs the script from the top on every interaction, against a
 * per-user session state. Each run initialises the state if it is empty,
 * draws and scores the round's two roads while a round is open, then handles
 * the one button that was clicked: submitting a guess, opening the next
 * round, or wiping the state for a new game.
 */
module App {
  import opened Utils

  /** The radio button's two answers, 'Road 1' and 'Road 2'. */
  datatype Choice = Road1 | Road2

  /** The buttons a run can see clicked; at most one per run. Both "Play
      Again" buttons carry the same label and so are the same widget. */
  datatype Click = NoClick | SubmitGuess | NewGame | NextRound | PlayAgain

  const MaxRounds: int := 5

  /*************************************************************************
   * Verdict
   *************************************************************************/

  /** The road the model calls safer: Road 1 only when its risk is strictly
      lower, so equal risks make Road 2 the safer one. */
  function Safer(risk1: real, risk2: real): (c: Choice)
    ensures c == Road1 <==> risk1 < risk2
    ensures c == Road2 <==> risk2 <= risk1
  {
    if risk1 < risk2 then Road1 else Road2
  }

  /** The safer road never has the higher risk; swapping two different risks
      swaps the verdict, while a tie goes to Road 2 either way round. */
  lemma SaferIsNoRiskier(risk1: real, risk2: real)
    ensures Safer(risk1, risk2) == Road1 ==> risk1 <= risk2
    ensures Safer(risk1, risk2) == Road2 ==> risk2 <= risk1
    ensures risk1 != risk2 ==> Safer(risk2, risk1) != Safer(risk1, risk2)
    ensures risk1 == risk2 ==> Safer(risk1, risk2) == Road2 && Safer(risk2, risk1) == Road2
  {
  }

  /** The score and the number of rounds answered. */
  datatype Progress = Progress(score: int, total: int)

  /** The score and the round counter after one guess: a point only for a
      correct guess made while rounds remain, and the counter moves on by one
      but never past the last round. */
  function AfterGuess(p: Progress, maxRounds: int, correct: bool): (q: Progress)
    ensures q.score == p.score || q.score == p.score + 1
    ensures q.score == p.score + 1 <==> correct && p.total < maxRounds
    ensures q.total == if p.total + 1 <= maxRounds then p.total + 1 else maxRounds
  {
    Progress(
      if correct && p.total < maxRounds then p.score + 1 else p.score,
      Min(p.total + 1, maxRounds))
  }

  function Min(a: int, b: int): int
  {
    if a <= b then a else b
  }

  /** A guess keeps 0 <= score <= total <= max, and is counted as a round
      exactly when rounds remain. */
  lemma AfterGuessKeepsBounds(p: Progress, maxRounds: int, correct: bool)
    requires 0 <= p.score <= p.total <= maxRounds
    ensures var q := AfterGuess(p, maxRounds, correct);
      && 0 <= q.score <= q.total <= maxRounds
      && (p.total < maxRounds ==> q.total == p.total + 1)
      && (p.total == maxRounds ==> q == p)
  {
  }

  /** The progress after a series of guesses from a blank game. */
  function Play(guesses: seq<bool>, maxRounds: int): (p: Progress)
    requires 0 <= maxRounds
    ensures 0 <= p.score <= p.total <= maxRounds
  {
    if guesses == [] then Progress(0, 0)
    else
      var before := Play(guesses[..|guesses| - 1], maxRounds);
      AfterGuessKeepsBounds(before, maxRounds, guesses[|guesses| - 1]);
      AfterGuess(before, maxRounds, guesses[|guesses| - 1])
  }

  /** The number of true entries. */
  function CountTrue(s: seq<bool>): nat
  {
    if s == [] then 0 else CountTrue(s[..|s| - 1]) + (if s[|s| - 1] then 1 else 0)
  }

  /** Over a whole game the counter is the number of guesses capped at the
      last round, and the score is the number of correct guesses among
      those counted rounds: guesses after the last round earn nothing. */
  lemma {:induction false} PlayCounts(guesses: seq<bool>, maxRounds: int)
    requires 0 <= maxRounds
    ensures Play(guesses, maxRounds).total == Min(|guesses|, maxRounds)
    ensures Play(guesses, maxRounds).score == CountTrue(guesses[..Min(|guesses|, maxRounds)])
  {
    if guesses != [] {
      var init := guesses[..|guesses| - 1];
      PlayCounts(init, maxRounds);
      if |guesses| <= maxRounds {
        assert guesses[..Min(|guesses|, maxRounds)] == guesses;
        assert init[..Min(|init|, maxRounds)] == init;
      } else {
        assert guesses[..Min(|guesses|, maxRounds)] == init[..Min(|init|, maxRounds)];
      }
    }
  }

  /*************************************************************************
   * Seeds and the dedupe loop
   *************************************************************************/

  /** The seeds of a round: 2t for Road 1 and 2t + 1 for Road 2. */
  function RoundSeeds(t: nat): (s: (nat, nat))
    ensures s.0 % 2 == 0 && s.1 == s.0 + 1 && s.0 / 2 == t
  {
    (t * 2, t * 2 + 1)
  }

  /** Two rounds never share a seed, and the seed the dedupe loop retries
      with (Road 2's seed plus one) is the next round's seed for Road 1.
      Road 2 is always reseeded, but Road 1 of the first round has seed 0,
      which `generate_road` does not reseed with. */
  lemma RoundSeedsProperties(t: nat, u: nat)
    ensures t != u ==> RoundSeeds(t).0 != RoundSeeds(u).0 && RoundSeeds(t).1 != RoundSeeds(u).1
    ensures RoundSeeds(t).0 != RoundSeeds(u).1
    ensures RoundSeeds(t).1 + 1 == RoundSeeds(t + 1).0
    ensures Reseeds(Some(RoundSeeds(t).1)) && Reseeds(Some(RoundSeeds(t).1 + 1))
    ensures Reseeds(Some(RoundSeeds(t).0)) <==> t != 0
  {
  }

  /** The roads a round draws, for Road 1, Road 2 and the retry. */
  function FirstRoad(t: nat, rng: Sampler): Road
  {
    GenerateRoad(Some(RoundSeeds(t).0), rng)
  }

  function SecondRoad(t: nat, rng: Sampler): Road
  {
    GenerateRoad(Some(RoundSeeds(t).1), rng)
  }

  function RetryRoad(t: nat, rng: Sampler): Road
  {
    GenerateRoad(Some(RoundSeeds(t).1 + 1), rng)
  }

  /** The roads of every round but the first depend only on the seeded
      draws, so every rerun of the script shows the same pair; Road 1 of the
      first round comes from whatever the random source carried over. */
  lemma RoundRoadsReproducible(t: nat, rng1: Sampler, rng2: Sampler)
    requires rng1.seeded == rng2.seeded
    ensures SecondRoad(t, rng1) == SecondRoad(t, rng2)
    ensures RetryRoad(t, rng1) == RetryRoad(t, rng2)
    ensures t != 0 ==> FirstRoad(t, rng1) == FirstRoad(t, rng2)
    ensures FirstRoad(0, rng1) == BuildRoad(rng1.carried)
  {
  }

  /** The seeds do not pin round one's Road 1: two runs whose seeded draws
      agree show the same Road 2 but can show different Road 1 roads, so the
      run that scores a first-round guess may hold another Road 1 than the
      run that displayed it. */
  lemma FirstRoundRoad1Varies(seeded: nat -> Draws) returns (rng1: Sampler, rng2: Sampler)
    ensures rng1.seeded == seeded && rng2.seeded == seeded
    ensures SecondRoad(0, rng1) == SecondRoad(0, rng2)
    ensures FirstRoad(0, rng1) != FirstRoad(0, rng2)
  {
    var d := Draws(0, 0, 0, 0, 0, 0, 0, 0, 0, 0, 0, 0);
    rng1 := Sampler(d, seeded);
    rng2 := Sampler(d.(accidents := 1), seeded);
    assert FirstRoad(0, rng1).numReportedAccidents == 0;
    assert FirstRoad(0, rng2).numReportedAccidents == 1;
  }

  /** Road 2 as the dedupe loop leaves it, or None when the loop never ends:
      the retry always uses the same seed, so a retry equal to Road 1 repeats
      forever. */
  function Deduped(road1: Road, road2: Road, retry: Road): (r: Option<Road>)
    ensures r.Some? ==> r.value != road1
    ensures r.Some? ==> r.value == road2 || r.value == retry
    ensures r.None? <==> road1 == road2 && retry == road1
    ensures road1 != road2 ==> r == Some(road2)
    ensures road1 == road2 && retry != road1 ==> r == Some(retry)
  {
    if road1 != road2 then Some(road2)
    else if retry != road1 then Some(retry)
    else None
  }

  /** The dedupe loop of round t never ends: Road 2 equals Road 1, and the
      retry does too or there is no try left. */
  predicate Hangs(t: nat, rng: Sampler, fuel: nat)
  {
    FirstRoad(t, rng) == SecondRoad(t, rng) && (fuel == 0 || RetryRoad(t, rng) == FirstRoad(t, rng))
  }

  /** The round's roads: Road 1 from seed 2t and Road 2 from seed 2t + 1,
      redrawn from seed 2t + 2 while it equals Road 1. The loop runs at most
      `fuel` times; `hung` reports that it would go on. */
  method DrawRoads(t: nat, rng: Sampler, fuel: nat) returns (first: Road, second: Road, hung: bool)
    ensures first == FirstRoad(t, rng)
    ensures hung <==> Hangs(t, rng, fuel)
    ensures !hung ==> Some(second) == Deduped(FirstRoad(t, rng), SecondRoad(t, rng), RetryRoad(t, rng))
  {
    first := FirstRoad(t, rng);
    second := SecondRoad(t, rng);
    var tries := 0;
    while first == second && tries < fuel
      invariant 0 <= tries <= fuel
      invariant first == FirstRoad(t, rng)
      invariant tries == 0 ==> second == SecondRoad(t, rng)
      invariant tries > 0 ==> second == RetryRoad(t, rng) && first == SecondRoad(t, rng)
      decreases fuel - tries
    {
      second := RetryRoad(t, rng);
      tries := tries + 1;
    }
    hung := first == second;
  }

  /** `predict_risk(pd.DataFrame([road]), ...)` for a drawn road, which
      never raises. */
  method ScoreRoad(road: Road, backend: Backend) returns (risk: real)
    ensures risk == RoadRisk(road, backend)
    ensures 0.0 <= risk <= 1.0
  {
    RoadRiskIsRisk(road, backend);
    var res := PredictRisk(RoadRow(road), backend);
    risk := res.value;
  }

  /*************************************************************************
   * Road images
   *************************************************************************/

  /** A key of `road_images`: a road type, or a full scene. */
  datatype ImageKey =
    | TypeKey(roadType: string)
    | SceneKey(roadType: string, lighting: string, weather: string, lanes: int)

  const RoadImages: map<ImageKey, string> := map[
    TypeKey("urban") := "images/urban-road.jpg",
    TypeKey("rural") := "images/rural-road.jpg",
    TypeKey("highway") := "images/highway-road.jpg",
    SceneKey("rural", "night", "clear", 2) := "images/night-country-road.jpg",
    SceneKey("urban", "daylight", "rainy", 2) := "images/Wet-city-street-day.jpg",
    SceneKey("highway", "dim", "foggy", 4) := "images/foggy-highway.jpg"
  ]

  /** `get_road_image`: the exact scene's picture, else the road type's,
      else the rural one. */
  function RoadImage(roadType: string, lighting: string, weather: string, lanes: int): (path: string)
    ensures path in RoadImages.Values
    ensures SceneKey(roadType, lighting, weather, lanes) in RoadImages ==>
      path == RoadImages[SceneKey(roadType, lighting, weather, lanes)]
    ensures SceneKey(roadType, lighting, weather, lanes) !in RoadImages && TypeKey(roadType) in RoadImages ==>
      path == RoadImages[TypeKey(roadType)]
    ensures SceneKey(roadType, lighting, weather, lanes) !in RoadImages && TypeKey(roadType) !in RoadImages ==>
      path == RoadImages[TypeKey("rural")]
  {
    var scene := SceneKey(roadType, lighting, weather, lanes);
    if scene in RoadImages then RoadImages[scene]
    else if TypeKey(roadType) in RoadImages then RoadImages[TypeKey(roadType)]
    else RoadImages[TypeKey("rural")]
  }

  /** Every road type a road can be drawn with has its own picture, so the
      rural fallback is never reached for a generated road of another type. */
  lemma GeneratedRoadHasTypeImage(road: Road)
    requires WellFormedRoad(road)
    ensures TypeKey(road.roadType) in RoadImages
    ensures road.roadType != "rural" ==>
      RoadImage(road.roadType, road.lighting, road.weather, road.numLanes) != RoadImages[TypeKey("rural")]
  {
  }

  /*************************************************************************
   * Session state
   *************************************************************************/

  const SessionKeys: set<string> :=
    {"score", "total_questions", "game_active", "game_over", "road1", "road2",
     "risk1", "risk2", "user_choice", "max_rounds"}

  /** `st.session_state` for one user. `keys` holds the names currently
      set; the other fields hold their values while they are set. */
  class Session {
    var keys: set<string>
    var score: int
    var totalQuestions: nat
    var maxRounds: int
    var gameActive: bool
    var gameOver: bool
    var road1: Option<Road>
    var road2: Option<Road>
    var risk1: Option<real>
    var risk2: Option<real>
    var userChoice: Option<Choice>

    /** The state is empty or complete, the score never exceeds the rounds
        played and those never exceed the limit, an open round always has a
        round left, a finished game has none, and a resolved round has its
        risks and the guess recorded. */
    predicate Valid()
      reads this
      ensures Valid() && keys != {} ==>
        && 0 <= score <= totalQuestions <= MaxRounds
        && (gameOver ==> totalQuestions == MaxRounds)
    {
      && (keys == {} || keys == SessionKeys)
      && (keys == SessionKeys ==>
          && maxRounds == MaxRounds
          && 0 <= score <= totalQuestions <= maxRounds
          && (gameActive ==> totalQuestions < maxRounds)
          && (gameOver ==> !gameActive && totalQuestions >= maxRounds)
          && (!gameActive ==> risk1.Some? && risk2.Some? && userChoice.Some?))
    }

    predicate Initialized()
      reads this
    {
      keys == SessionKeys
    }

    /** The stored roads and risks are round t's: Road 1, Road 2 as the
        dedupe loop leaves it, and the backend's risk of each. */
    predicate HoldsRound(t: nat, rng: Sampler, backend: Backend)
      reads this`road1, this`road2, this`risk1, this`risk2
    {
      && road1 == Some(FirstRoad(t, rng))
      && road2 == Deduped(FirstRoad(t, rng), SecondRoad(t, rng), RetryRoad(t, rng))
      && road2.Some?
      && risk1 == Some(RoadRisk(road1.value, backend))
      && risk2 == Some(RoadRisk(road2.value, backend))
    }

    /** What a click leaves behind, given the flags, score and counter it
        found. "Submit Guess" on an open round scores the guess against the
        stored risks and shows the verdict, ending the game after the last
        round; "New Game" on an open round, and "Play Again" once the last
        round is played, clear the state and rerun; "Next Round" at a
        verdict with rounds left reopens play and reruns; any other click
        changes nothing. */
    predicate AfterClick(click: Click, choice: Choice, wasActive: bool, wasOver: bool,
                         score0: int, total0: nat, rerun: bool)
      reads this
    {
      var submitted := wasActive && click == SubmitGuess;
      && (rerun <==>
            || (wasActive && click == NewGame)
            || (!wasActive && !wasOver && total0 < MaxRounds && click == NextRound)
            || (!wasActive && (wasOver || total0 >= MaxRounds) && click == PlayAgain))
      && keys == (if rerun && click != NextRound then {} else SessionKeys)
      && (submitted ==>
            && userChoice == Some(choice) && risk1.Some? && risk2.Some?
            && Progress(score, totalQuestions) ==
                 AfterGuess(Progress(score0, total0), MaxRounds, choice == Safer(risk1.value, risk2.value)))
      && (!submitted ==> score == score0 && totalQuestions == total0)
      && (gameActive <==>
            || (wasActive && click != SubmitGuess)
            || (!wasActive && !wasOver && total0 < MaxRounds && click == NextRound))
      && (gameOver <==> wasOver || ((!wasActive || click == SubmitGuess) && totalQuestions >= MaxRounds))
    }

    /** A new visitor's session holds nothing yet. */
    constructor ()
      ensures keys == {}
      ensures Valid()
    {
      keys := {};
    }

    /** The first thing every run does: fill an empty state with a fresh
        game, and leave a filled one alone. */
    method Initialize()
      requires Valid()
      modifies this
      ensures Valid() && Initialized()
      ensures old(keys) == {} ==>
        && score == 0 && totalQuestions == 0 && maxRounds == MaxRounds
        && gameActive && !gameOver
        && road1.None? && road2.None? && risk1.None? && risk2.None? && userChoice.None?
      ensures old(keys) != {} ==> unchanged(this)
    {
      if "score" !in keys {
        keys := SessionKeys;
        score := 0;
        totalQuestions := 0;
        gameActive := true;
        gameOver := false;
        road1 := None;
        road2 := None;
        risk1 := None;
        risk2 := None;
        userChoice := None;
        maxRounds := MaxRounds;
      }
    }

    /** Draws the round's two roads from the seeds of the current round and
        stores them; nothing is stored when the dedupe loop would not end. */
    method GenerateRound(rng: Sampler, fuel: nat) returns (hung: bool)
      requires Valid() && Initialized() && gameActive && !gameOver
      modifies this
      ensures Valid() && Initialized() && gameActive && !gameOver
      ensures hung <==> Hangs(old(totalQuestions), rng, fuel)
      ensures var t := old(totalQuestions);
        !hung ==>
          && road1 == Some(FirstRoad(t, rng))
          && road2 == Deduped(FirstRoad(t, rng), SecondRoad(t, rng), RetryRoad(t, rng))
          && road1 != road2
      ensures hung ==> unchanged(this)
      ensures score == old(score) && totalQuestions == old(totalQuestions) && userChoice == old(userChoice)
      ensures risk1 == old(risk1) && risk2 == old(risk2)
    {
      var first, second;
      first, second, hung := DrawRoads(totalQuestions, rng, fuel);
      if !hung {
        road1, road2 := Some(first), Some(second);
      }
    }

    /** Scores the stored roads and stores their risks. */
    method ScoreRound(backend: Backend)
      requires Valid() && Initialized() && gameActive && !gameOver
      requires road1.Some? && road2.Some?
      modifies this
      ensures Valid() && Initialized() && gameActive && !gameOver
      ensures road1 == old(road1) && road2 == old(road2)
      ensures risk1 == Some(RoadRisk(road1.value, backend))
      ensures risk2 == Some(RoadRisk(road2.value, backend))
      ensures score == old(score) && totalQuestions == old(totalQuestions) && userChoice == old(userChoice)
    {
      var r1 := ScoreRoad(road1.value, backend);
      var r2 := ScoreRoad(road2.value, backend);
      risk1, risk2 := Some(r1), Some(r2);
    }

    /** "Submit Guess": closes the round, records the guess and scores it
        against the stored risks. */
    method Submit(choice: Choice)
      requires Valid() && Initialized() && gameActive && !gameOver
      requires risk1.Some? && risk2.Some?
      modifies this
      ensures Valid() && Initialized() && !gameActive && !gameOver
      ensures userChoice == Some(choice)
      ensures Progress(score, totalQuestions) ==
        AfterGuess(Progress(old(score), old(totalQuestions)), maxRounds, choice == Safer(risk1.value, risk2.value))
      ensures totalQuestions == old(totalQuestions) + 1
      ensures keys == old(keys) && maxRounds == old(maxRounds)
      ensures road1 == old(road1) && road2 == old(road2) && risk1 == old(risk1) && risk2 == old(risk2)
    {
      AfterGuessKeepsBounds(Progress(score, totalQuestions), maxRounds, choice == Safer(risk1.value, risk2.value));
      gameActive := false;
      userChoice := Some(choice);
      var safer := Safer(risk1.value, risk2.value);
      if choice == safer {
        if totalQuestions < maxRounds {
          score := score + 1;
        }
      }
      totalQuestions := Min(totalQuestions + 1, maxRounds);
    }

    /** The verdict shown after a guess: the safer road and whether the
        guess matched it; the game ends once the last round is played. */
    method Verdict() returns (safer: Choice, correct: bool)
      requires Valid() && Initialized() && !gameActive && !gameOver
      modifies this
      ensures Valid() && Initialized() && !gameActive
      ensures safer == Safer(risk1.value, risk2.value)
      ensures correct <==> userChoice == Some(safer)
      ensures gameOver <==> totalQuestions >= maxRounds
      ensures keys == old(keys) && score == old(score) && totalQuestions == old(totalQuestions)
      ensures road1 == old(road1) && road2 == old(road2) && risk1 == old(risk1) && risk2 == old(risk2)
      ensures userChoice == old(userChoice) && maxRounds == old(maxRounds)
    {
      safer := Safer(risk1.value, risk2.value);
      correct := userChoice == Some(safer);
      if totalQuestions >= maxRounds {
        gameOver := true;
      }
    }

    /** "Next Round": reopens play with the score and counter untouched. */
    method OpenNextRound()
      requires Valid() && Initialized() && !gameActive && !gameOver && totalQuestions < maxRounds
      modifies this
      ensures Valid() && Initialized() && gameActive && !gameOver
      ensures score == old(score) && totalQuestions == old(totalQuestions)
      ensures keys == old(keys) && maxRounds == old(maxRounds) && userChoice == old(userChoice)
      ensures road1 == old(road1) && road2 == old(road2) && risk1 == old(risk1) && risk2 == old(risk2)
    {
      gameActive := true;
    }

    /** "New Game" and "Play Again": deletes every key, one at a time. */
    method ClearState()
      requires Valid()
      modifies this
      ensures keys == {} && Valid()
      ensures score == old(score) && totalQuestions == old(totalQuestions) && maxRounds == old(maxRounds)
      ensures gameActive == old(gameActive) && gameOver == old(gameOver) && userChoice == old(userChoice)
      ensures road1 == old(road1) && road2 == old(road2) && risk1 == old(risk1) && risk2 == old(risk2)
    {
      var pending := keys;
      while pending != {}
        invariant keys == pending
        invariant score == old(score) && totalQuestions == old(totalQuestions) && maxRounds == old(maxRounds)
        invariant gameActive == old(gameActive) && gameOver == old(gameOver) && userChoice == old(userChoice)
        invariant road1 == old(road1) && road2 == old(road2) && risk1 == old(risk1) && risk2 == old(risk2)
        decreases |pending|
      {
        var key :| key in pending;
        pending := pending - {key};
        keys := keys - {key};
      }
    }

    /** One run of the script, top to bottom, with the radio set to `choice`
        and `click` the button clicked. `rerun` means the run stopped at a
        `st.rerun()`; `hung` means the dedupe loop would not end. An empty
        state starts a blank game; a round that is open then gets its roads
        and risks, and the click acts on the state as `HandleClick` says. */
    method Run(click: Click, choice: Choice, rng: Sampler, backend: Backend, fuel: nat)
      returns (rerun: bool, hung: bool)
      requires Valid()
      modifies this
      ensures Valid()
      ensures !rerun ==> Initialized()
      ensures rerun ==> !hung
      ensures var blank := old(keys) == {};
        var t := if blank then 0 else old(totalQuestions);
        var open := blank || old(gameActive);
        && (hung <==> open && Hangs(t, rng, fuel))
        && (hung ==> && score == (if blank then 0 else old(score)) && totalQuestions == t
                     && gameActive && !gameOver)
        && (hung ==> && road1 == (if blank then None else old(road1)) && road2 == (if blank then None else old(road2))
                     && risk1 == (if blank then None else old(risk1)) && risk2 == (if blank then None else old(risk2)))
        && (hung || !(open && click == SubmitGuess) ==> userChoice == (if blank then None else old(userChoice)))
        && (open && !hung ==> HoldsRound(t, rng, backend))
        && (!open ==> road1 == old(road1) && road2 == old(road2) && risk1 == old(risk1) && risk2 == old(risk2))
        && (!hung ==>
              AfterClick(click, choice, open, !blank && old(gameOver),
                         if blank then 0 else old(score), t, rerun))
    {
      ghost var blank := keys == {};
      ghost var t: nat := if blank then 0 else totalQuestions;
      ghost var open := blank || gameActive;
      hung := BeginRun(rng, backend, fuel);
      if hung {
        return false, true;
      }
      ghost var found := (gameActive, gameOver, score, totalQuestions);
      assert found == (open, !blank && old(gameOver), if blank then 0 else old(score), t);
      rerun := HandleClick(click, choice);
      assert AfterClick(click, choice, found.0, found.1, found.2, found.3, rerun);
    }

    /** The top of the script: initialisation, then the round's roads and
        risks while a round is open. Nothing is scored here. */
    method BeginRun(rng: Sampler, backend: Backend, fuel: nat) returns (hung: bool)
      requires Valid()
      modifies this
      ensures Valid() && Initialized()
      ensures var blank := old(keys) == {};
        && score == (if blank then 0 else old(score))
        && totalQuestions == (if blank then 0 else old(totalQuestions))
        && gameActive == (blank || old(gameActive))
        && gameOver == (!blank && old(gameOver))
        && userChoice == (if blank then None else old(userChoice))
      ensures hung <==> gameActive && Hangs(totalQuestions, rng, fuel)
      ensures gameActive && !hung ==> risk1.Some? && risk2.Some?
      ensures gameActive && !hung ==> HoldsRound(totalQuestions, rng, backend)
      ensures !gameActive || hung ==>
        var blank := old(keys) == {};
        && road1 == (if blank then None else old(road1)) && road2 == (if blank then None else old(road2))
        && risk1 == (if blank then None else old(risk1)) && risk2 == (if blank then None else old(risk2))
    {
      Initialize();
      hung := false;
      if gameActive && !gameOver {
        hung := GenerateRound(rng, fuel);
        if hung {
          return;
        }
        ScoreRound(backend);
      }
    }

    /** The buttons of one run: "Submit Guess" or "New Game" while a round is
        open, then the verdict with "Next Round" or "Play Again". A button
        that is not on the page does nothing. */
    method HandleClick(click: Click, choice: Choice) returns (rerun: bool)
      requires Valid() && Initialized()
      requires gameActive ==> risk1.Some? && risk2.Some?
      modifies this
      ensures Valid()
      ensures road1 == old(road1) && road2 == old(road2) && risk1 == old(risk1) && risk2 == old(risk2)
      ensures maxRounds == old(maxRounds)
      ensures AfterClick(click, choice, old(gameActive), old(gameOver), old(score), old(totalQuestions), rerun)
      ensures !(old(gameActive) && click == SubmitGuess) ==> userChoice == old(userChoice)
    {
      rerun := false;
      if gameActive && !gameOver {
        if click == SubmitGuess {
          Submit(choice);
        }
        if click == NewGame {
          ClearState();
          return true;
        }
      }
      if !gameActive && !gameOver {
        var safer, correct := Verdict();
        if totalQuestions >= maxRounds {
          if click == PlayAgain {
            ClearState();
            return true;
          }
        } else {
          if click == NextRound {
            OpenNextRound();
            return true;
          }
        }
      } else if gameOver {
        if click == PlayAgain {
          ClearState();
          return true;
        }
      }
    }
  }

  /** A reset followed by the next run's initialisation gives a blank game,
      whatever state it started from. */
  method ResetThenInitialize(s: Session)
    requires s.Valid()
    modifies s
    ensures s.Valid() && s.Initialized()
    ensures s.score == 0 && s.totalQuestions == 0 && s.maxRounds == MaxRounds
    ensures s.gameActive && !s.gameOver && s.userChoice.None?
  {
    s.ClearState();
    s.Initialize();
  }
}
