/**
 * Session: the game controller's state machine, the global time scale it writes, and the
 * end-of-game star rank (Assets/Scripts/GameController.cs).
 */
module Session {
  import opened Items
  import opened Trucks

  datatype GameState = PreGame | InProgress | EndGame

  /** The physics step at time scale 1; the fixed step is always this times the time scale. */
  const FixedStep: real := 0.01666667
  /** The number of rank stars on the end display. */
  const StarTotal: nat := 5
  /** The default scale of the slow-motion effect. */
  const SlowMotionScale: real := 0.5

  /** How far along the session a state is; the session only moves to larger values. */
  function Stage(s: GameState): nat
  {
    match s
    case PreGame => 0
    case InProgress => 1
    case EndGame => 2
  }

  /**
   * The state after one frame, given whether the start countdown and the play countdown
   * have run out. The in-progress check follows the pre-game check in the same frame.
   */
  function UpdatedState(s: GameState, startReached: bool, endReached: bool): (r: GameState)
    ensures Stage(s) <= Stage(r)
    ensures s == EndGame ==> r == EndGame
    ensures r != s ==> (s == PreGame && startReached) || (s == InProgress && endReached)
    ensures s == PreGame && r == EndGame ==> startReached && endReached
    ensures s == PreGame && startReached && !endReached ==> r == InProgress
    ensures s == PreGame && startReached && endReached ==> r == EndGame
    ensures s == InProgress && endReached ==> r == EndGame
  {
    var afterStart := if s == PreGame && startReached then InProgress else s;
    if afterStart == InProgress && endReached then EndGame else afterStart
  }

  /** The state after a run of frames, each given as (start reached, end reached). */
  function Run(s: GameState, frames: seq<(bool, bool)>): GameState
    decreases |frames|
  {
    if frames == [] then s else Run(UpdatedState(s, frames[0].0, frames[0].1), frames[1..])
  }

  /** Over any run of frames the state never moves backwards, and the end of the game is final. */
  lemma {:induction false} RunMovesForward(s: GameState, frames: seq<(bool, bool)>)
    ensures Stage(s) <= Stage(Run(s, frames))
    ensures s == EndGame ==> Run(s, frames) == EndGame
    decreases |frames|
  {
    if frames != [] {
      RunMovesForward(UpdatedState(s, frames[0].0, frames[0].1), frames[1..]);
    }
  }

  /** The outcome of the single-precision division total / max. */
  datatype Ratio = Finite(q: real) | PositiveInfinity | NegativeInfinity | NotANumber

  /** The score: the truck's value as a fraction of the value of all items at Awake. */
  function ScoreRatio(total: real, max: real): (r: Ratio)
    ensures r.Finite? <==> max != 0.0
    ensures r.Finite? ==> r.q * max == total
    ensures max == 0.0 ==> (r == PositiveInfinity <==> total > 0.0)
    ensures max == 0.0 ==> (r == NotANumber <==> total == 0.0)
  {
    if max != 0.0 then Finite(total / max)
    else if total > 0.0 then PositiveInfinity
    else if total < 0.0 then NegativeInfinity
    else NotANumber
  }

  /** Star i is lit when the score reaches i / 5 (every comparison with NaN is false). */
  function StarShown(r: Ratio, i: nat): (shown: bool)
    ensures r.Finite? ==> (shown <==> 5.0 * r.q >= i as real)
    ensures r.PositiveInfinity? ==> shown
    ensures r.NegativeInfinity? || r.NotANumber? ==> !shown
  {
    match r
    case Finite(q) => q >= i as real / 5.0
    case PositiveInfinity => true
    case NegativeInfinity => false
    case NotANumber => false
  }

  /** How many of the first n stars are lit. */
  function StarsShown(r: Ratio, n: nat): (c: nat)
    ensures c <= n
  {
    if n == 0 then 0 else StarsShown(r, n - 1) + (if StarShown(r, n - 1) then 1 else 0)
  }

  function Min(a: int, b: int): int
  {
    if a <= b then a else b
  }

  /** For a finite score q the lit stars are the first floor(5q) + 1 of them, capped at n. */
  lemma {:induction false} StarsShownFinite(q: real, n: nat)
    ensures StarsShown(Finite(q), n) == if q < 0.0 then 0 else Min(n, (5.0 * q).Floor + 1)
  {
    if n > 0 {
      StarsShownFinite(q, n - 1);
      var f := (5.0 * q).Floor;
      assert StarShown(Finite(q), n - 1) <==> f >= n - 1 by {
        assert q >= (n - 1) as real / 5.0 <==> 5.0 * q >= (n - 1) as real;
      }
    }
  }

  /** Lit stars always form a prefix: if star i is lit, so is every star before it. */
  lemma StarsFormPrefix(r: Ratio, i: nat, j: nat)
    requires j <= i && StarShown(r, i)
    ensures StarShown(r, j)
  {
  }

  /**
   * With a positive maximum the rank shows at least one star exactly when the total is not
   * negative, and all five exactly when the score is at least 0.8.
   */
  lemma RankBounds(total: real, max: real)
    requires max > 0.0
    ensures StarsShown(ScoreRatio(total, max), StarTotal) >= 1 <==> total >= 0.0
    ensures StarsShown(ScoreRatio(total, max), StarTotal) == StarTotal <==> total / max >= 0.8
  {
    var q := total / max;
    StarsShownFinite(q, StarTotal);
    RatioBounds(total, max);
    assert q < 0.0 <==> total < 0.0;
    assert (5.0 * q).Floor >= 4 <==> q >= 0.8;
  }

  /** With a positive maximum a larger truck total never shows fewer stars. */
  lemma RankMonotone(total1: real, total2: real, max: real)
    requires max > 0.0 && total1 <= total2
    ensures StarsShown(ScoreRatio(total1, max), StarTotal) <= StarsShown(ScoreRatio(total2, max), StarTotal)
  {
    var q1, q2 := total1 / max, total2 / max;
    assert q1 <= q2 by {
      assert (q2 - q1) * max == total2 - total1;
      RatioBounds(total2 - total1, max);
    }
    StarsShownFinite(q1, StarTotal);
    StarsShownFinite(q2, StarTotal);
    assert (5.0 * q1).Floor <= (5.0 * q2).Floor;
  }

  /** With no value in the level the division is 0 / 0 or x / 0: NaN lights nothing, +Infinity everything. */
  lemma RankWithoutItems(total: real)
    ensures total > 0.0 ==> StarsShown(ScoreRatio(total, 0.0), StarTotal) == StarTotal
    ensures total <= 0.0 ==> StarsShown(ScoreRatio(total, 0.0), StarTotal) == 0
  {
  }

  class GameController {
    var state: GameState
    /** Unity's global Time.timeScale and Time.fixedDeltaTime, which only this class writes. */
    var timeScale: real
    var fixedDeltaTime: real
    /** Cursor unlocked and visible. */
    var cursorEnabled: bool
    var mainUIActive: bool
    var startDisplayActive: bool
    var endDisplayActive: bool
    /** The value of every item present at Awake. */
    var maxValue: real
    /** The item count and value the end display reports. */
    var packedCount: nat
    var packedValue: real
    const truck: Truck
    /** Whether each rank star on the end display is shown. */
    const stars: array<bool>

    ghost predicate Valid()
      reads this
    {
      stars.Length >= StarTotal && fixedDeltaTime == FixedStep * timeScale
    }

    /** The score the rank is computed from. */
    function Score(): Ratio
      reads this, truck
    {
      ScoreRatio(ValueSum(truck.items), maxValue)
    }

    /** The controller as the scene creates it; the time scale is whatever the engine had. */
    constructor (truck: Truck, stars: array<bool>, timeScale: real, fixedDeltaTime: real)
      ensures this.truck == truck && this.stars == stars
      ensures state == PreGame && maxValue == 0.0
      ensures this.timeScale == timeScale && this.fixedDeltaTime == fixedDeltaTime
      ensures !cursorEnabled && !mainUIActive && !startDisplayActive && !endDisplayActive
      ensures packedCount == 0 && packedValue == 0.0
    {
      this.truck := truck;
      this.stars := stars;
      state := PreGame;
      this.timeScale := timeScale;
      this.fixedDeltaTime := fixedDeltaTime;
      cursorEnabled := false;
      mainUIActive := false;
      startDisplayActive := false;
      endDisplayActive := false;
      maxValue := 0.0;
      packedCount := 0;
      packedValue := 0.0;
    }

    /** Adds up the value of every item in the level. */
    method Awake(items: seq<Item>)
      modifies this`maxValue
      ensures maxValue == old(maxValue) + ValueSum(items)
    {
      var i := 0;
      while i < |items|
        invariant 0 <= i <= |items|
        invariant maxValue == old(maxValue) + ValueSum(items[..i])
      {
        assert items[..i + 1][..i] == items[..i];
        maxValue := maxValue + items[i].value;
        i := i + 1;
      }
      assert items[..|items|] == items;
    }

    /** Freezes the world, locks the cursor and shows the start display only. */
    method Start()
      requires stars.Length >= StarTotal
      modifies this
      ensures Valid()
      ensures timeScale == 0.0 && fixedDeltaTime == 0.0
      ensures !cursorEnabled && mainUIActive && startDisplayActive && !endDisplayActive
      ensures state == old(state) && maxValue == old(maxValue)
      ensures packedCount == old(packedCount) && packedValue == old(packedValue)
    {
      mainUIActive := true;
      SetCursorEnabled(false);
      SetTimeScale(0.0);
      startDisplayActive := true;
      endDisplayActive := false;
    }

    /** One frame: start the game when the start countdown has run out, then end it when the play countdown has. */
    method Update(startReached: bool, endReached: bool)
      requires Valid()
      modifies this, stars
      ensures Valid()
      ensures state == UpdatedState(old(state), startReached, endReached)
      ensures old(state) == PreGame && state != PreGame ==> !startDisplayActive
      ensures old(state) == PreGame && state == InProgress ==> timeScale == 1.0
      ensures old(state) != GameState.EndGame && state == GameState.EndGame ==>
                timeScale == 0.0 && cursorEnabled && endDisplayActive &&
                packedCount == |truck.items| && packedValue == ValueSum(truck.items) &&
                (forall i :: 0 <= i < StarTotal ==> stars[i] == StarShown(Score(), i)) &&
                (forall i :: StarTotal <= i < stars.Length ==> stars[i] == old(stars[i]))
      ensures state == old(state) ==>
                timeScale == old(timeScale) && cursorEnabled == old(cursorEnabled) &&
                startDisplayActive == old(startDisplayActive) && endDisplayActive == old(endDisplayActive) &&
                stars[..] == old(stars[..])
      ensures state != GameState.EndGame ==>
                cursorEnabled == old(cursorEnabled) && endDisplayActive == old(endDisplayActive) &&
                stars[..] == old(stars[..]) && packedCount == old(packedCount) && packedValue == old(packedValue)
      ensures old(state) != PreGame ==> startDisplayActive == old(startDisplayActive)
      ensures state == old(state) ==> packedCount == old(packedCount) && packedValue == old(packedValue)
      ensures maxValue == old(maxValue) && mainUIActive == old(mainUIActive)
    {
      if state == PreGame {
        if startReached {
          StartGame();
        }
      }
      if state == InProgress {
        if endReached {
          EndGame();
        }
      }
    }

    method SetGameState(s: GameState)
      modifies this`state
      ensures state == s
    {
      state := s;
    }

    method SetCursorEnabled(on: bool)
      modifies this`cursorEnabled
      ensures cursorEnabled == on
    {
      cursorEnabled := on;
    }

    /** Sets the global time scale; the fixed physics step follows it. */
    method SetTimeScale(scale: real)
      modifies this`timeScale, this`fixedDeltaTime
      ensures timeScale == scale && fixedDeltaTime == FixedStep * scale
    {
      timeScale := scale;
      fixedDeltaTime := FixedStep * timeScale;
    }

    /** The first half of the slow-motion effect: slow the world down to `scale`. */
    method BeginSlowMotion(scale: real)
      requires Valid()
      modifies this`timeScale, this`fixedDeltaTime
      ensures Valid() && timeScale == scale
    {
      SetTimeScale(scale);
    }

    /** The second half, once the effect's duration has passed: back to scale 1, whatever it was. */
    method EndSlowMotion()
      requires Valid()
      modifies this`timeScale, this`fixedDeltaTime
      ensures Valid() && timeScale == 1.0
    {
      SetTimeScale(1.0);
    }

    method StartGame()
      requires Valid()
      modifies this
      ensures Valid()
      ensures state == InProgress && timeScale == 1.0 && !startDisplayActive
      ensures cursorEnabled == old(cursorEnabled) && endDisplayActive == old(endDisplayActive)
      ensures maxValue == old(maxValue) && mainUIActive == old(mainUIActive)
      ensures packedCount == old(packedCount) && packedValue == old(packedValue)
    {
      state := InProgress;
      SetTimeScale(1.0);
      startDisplayActive := false;
    }

    method EndGame()
      requires Valid()
      modifies this, stars
      ensures Valid()
      ensures state == GameState.EndGame && timeScale == 0.0 && cursorEnabled && endDisplayActive
      ensures packedCount == |truck.items| && packedValue == ValueSum(truck.items)
      ensures forall i :: 0 <= i < StarTotal ==> stars[i] == StarShown(Score(), i)
      ensures forall i :: StarTotal <= i < stars.Length ==> stars[i] == old(stars[i])
      ensures startDisplayActive == old(startDisplayActive)
      ensures maxValue == old(maxValue) && mainUIActive == old(mainUIActive)
    {
      state := GameState.EndGame;
      SetTimeScale(0.0);
      SetCursorEnabled(true);
      packedCount := truck.ItemsCount();
      packedValue := truck.TotalValue();
      endDisplayActive := true;
      RankLevel();
    }

    /** Shows star i exactly when the score reaches i / 5. */
    method RankLevel()
      requires stars.Length >= StarTotal
      modifies stars
      ensures forall i :: 0 <= i < StarTotal ==> stars[i] == StarShown(Score(), i)
      ensures forall i :: StarTotal <= i < stars.Length ==> stars[i] == old(stars[i])
    {
      var total := truck.TotalValue();
      var score := ScoreRatio(total, maxValue);
      for i := 0 to StarTotal
        invariant forall k :: 0 <= k < i ==> stars[k] == StarShown(score, k)
        invariant forall k :: StarTotal <= k < stars.Length ==> stars[k] == old(stars[k])
      {
        stars[i] := StarShown(score, i);
      }
    }
  }
}
