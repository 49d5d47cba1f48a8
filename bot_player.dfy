/** The autonomous agent: circling while the music plays, then a per-tick
    countdown machine (reaction delay, stuck timer, escape timer) that chases
    the nearest available chair and sits within reach. */
module BotPlayers {
  import opened Common
  import opened LevelConfig
  import opened Chairs

  datatype Difficulty = Easy | Medium | Hard

  /** One frame, as the source counts it (about 60 frames per second). */
  const TICK_MS: int := 16
  /** `distanceMoved < 5`, squared. */
  const STUCK_MOVE2: int := 25
  /** The stuck timer must exceed this many milliseconds to trigger escape mode. */
  const STUCK_LIMIT_MS: int := 200
  /** Length of escape mode. */
  const ESCAPE_MS: int := 1500
  /** `closestDistance < 80`, squared. */
  const BOT_SIT_RANGE2: int := 6400

  /** The inclusive bounds of `Phaser.Math.Between` for the initial reaction
      delay, by difficulty. */
  function ReactionDelayRange(d: Difficulty): (int, int)
  {
    match d
    case Easy => (500, 1000)
    case Medium => (200, 500)
    case Hard => (0, 150)
  }

  /** `getSpeed`: the base speed of a difficulty. */
  function BaseSpeed(d: Difficulty): int
  {
    match d
    case Easy => BOT_EASY_SPEED
    case Medium => BOT_MEDIUM_SPEED
    case Hard => BOT_HARD_SPEED
  }

  /** `getSpeed(canMove) * 1.3`, exact because every base speed is a multiple of 10. */
  function EscapeSpeed(d: Difficulty): (s: int)
    ensures s * 10 == BaseSpeed(d) * 13
  {
    BaseSpeed(d) * 13 / 10
  }

  /** Harder bots react sooner and run faster. */
  lemma DifficultyTable()
    ensures ReactionDelayRange(Easy) == (500, 1000)
    ensures ReactionDelayRange(Medium) == (200, 500)
    ensures ReactionDelayRange(Hard) == (0, 150)
    ensures ReactionDelayRange(Hard).1 < ReactionDelayRange(Medium).0
    ensures ReactionDelayRange(Medium).1 <= ReactionDelayRange(Easy).0
    ensures BaseSpeed(Easy) == 150 && BaseSpeed(Medium) == 200 && BaseSpeed(Hard) == 250
    ensures BaseSpeed(Easy) < BaseSpeed(Medium) < BaseSpeed(Hard)
  {
  }

  /** The velocity a bot last set. Directions that the source computes with
      trigonometry are given by what they point at: `Orbit` follows the circle
      around the arena centre, `Chase` heads straight for a chair, and `Dodge`
      heads for a chair offset by an angle drawn from `roll`
      (`Math.random()`). */
  datatype BotVelocity =
    | Still
    | Orbit(speed: int)
    | Chase(tx: int, ty: int, speed: int)
    | Dodge(tx: int, ty: int, roll: real, speed: int)

  datatype BotState = BotState(
    index: nat,
    difficulty: Difficulty,
    x: int,
    y: int,
    seated: bool,
    reactionDelay: int,
    lastX: int,
    lastY: int,
    stuckTimer: int,
    randomMoveTimer: int,
    velocity: BotVelocity)

  /** A bot as its constructor leaves it; `lastPosition` starts at the origin. */
  function NewBot(index: nat, d: Difficulty, x: int, y: int, delay: int): BotState
  {
    BotState(index, d, x, y, false, delay, 0, 0, 0, 0, Still)
  }

  /** Stuck detection: `(stuckTimer, randomMoveTimer)` after one check with
      squared displacement `moved2`. */
  function StuckCheck(stuckTimer: int, randomMoveTimer: int, moved2: int): (int, int)
  {
    if moved2 < STUCK_MOVE2 then
      var s := stuckTimer + TICK_MS;
      if s > STUCK_LIMIT_MS then (0, ESCAPE_MS) else (s, randomMoveTimer)
    else (0, randomMoveTimer)
  }

  /** Both timers after one full tick that reaches the stuck check: the check,
      then the escape countdown if escape mode is on. */
  function TimersTick(stuckTimer: int, randomMoveTimer: int, moved2: int): (int, int)
  {
    var (s, r) := StuckCheck(stuckTimer, randomMoveTimer, moved2);
    (s, if r > 0 then r - TICK_MS else r)
  }

  /** `sitOnChair`: sit only if the chair is still available. */
  function BotSit(b: BotState, c: ChairState): (BotState, ChairState)
  {
    if !Available(c) then (b, c)
    else (b.(seated := true, x := c.x, y := c.y, velocity := Still), AfterOccupy(c, b.index))
  }

  /** The stuck check of `tryToSit` and the `lastPosition` update after it. */
  function AfterStuckCheck(b: BotState): BotState
  {
    var (st, rmt) := StuckCheck(b.stuckTimer, b.randomMoveTimer, Dist2(b.x, b.y, b.lastX, b.lastY));
    b.(stuckTimer := st, randomMoveTimer := rmt, lastX := b.x, lastY := b.y)
  }

  /** The rest of `tryToSit` once chair `k` is chosen and the stuck check made:
      escape mode, or the chase and the attempt to sit. */
  function ChaseOrEscape(b: BotState, cs: seq<ChairState>, k: nat, roll: real): (BotState, seq<ChairState>)
    requires k < |cs|
  {
    var chair := cs[k];
    if b.randomMoveTimer > 0 then
      var b2 := b.(randomMoveTimer := b.randomMoveTimer - TICK_MS);
      if JsRem(b2.randomMoveTimer, 100) < TICK_MS
      then (b2.(velocity := Dodge(chair.x, chair.y, roll, EscapeSpeed(b.difficulty))), cs)
      else (b2, cs)
    else
      var b2 := b.(velocity := Chase(chair.x, chair.y, BaseSpeed(b.difficulty)));
      if ChairDist2(chair, b.x, b.y) < BOT_SIT_RANGE2 then
        var (b3, c3) := BotSit(b2, chair);
        (b3, cs[k := c3])
      else (b2, cs)
  }

  /** `tryToSit`: one tick of the scramble phase. */
  function BotTryToSit(b: BotState, cs: seq<ChairState>, roll: real): (BotState, seq<ChairState>)
  {
    if b.seated then (b, cs)
    else if b.reactionDelay > 0 then
      (b.(reactionDelay := b.reactionDelay - TICK_MS, velocity := Still), cs)
    else
      match FirstNearest(cs, b.x, b.y)
      case None => (b, cs)
      case Some(k) => ChaseOrEscape(AfterStuckCheck(b), cs, k, roll)
  }

  /** `update(canMove, chairs)`: one tick of a bot. */
  function BotUpdate(b: BotState, cs: seq<ChairState>, canMove: bool, roll: real): (BotState, seq<ChairState>)
  {
    if b.seated then (b.(velocity := Still), cs)
    else if canMove then (b.(velocity := Orbit(BaseSpeed(b.difficulty))), cs)
    else BotTryToSit(b, cs, roll)
  }

  // ----- one tick -----

  /** A seated bot only stops, and stays seated. */
  lemma SeatedBotStops(b: BotState, cs: seq<ChairState>, canMove: bool, roll: real)
    requires b.seated
    ensures BotUpdate(b, cs, canMove, roll) == (b.(velocity := Still), cs)
  {
  }

  /** While the music plays the bot circles and touches no chair. */
  lemma CirclingTouchesNoChair(b: BotState, cs: seq<ChairState>, roll: real)
    requires !b.seated
    ensures BotUpdate(b, cs, true, roll) == (b.(velocity := Orbit(BaseSpeed(b.difficulty))), cs)
  {
  }

  /** Reaction delay: the bot stands still and the delay drops by 16; no chair
      is chosen and no stuck state changes. */
  lemma ReactionDelayCountsDown(b: BotState, cs: seq<ChairState>, roll: real)
    requires !b.seated && b.reactionDelay > 0
    ensures BotUpdate(b, cs, false, roll)
      == (b.(reactionDelay := b.reactionDelay - TICK_MS, velocity := Still), cs)
  {
  }

  /** With no available chair the tick returns before any timer changes. */
  lemma NoChairNoChange(b: BotState, cs: seq<ChairState>, roll: real)
    requires !b.seated && b.reactionDelay <= 0
    requires forall k :: 0 <= k < |cs| ==> !Available(cs[k])
    ensures BotUpdate(b, cs, false, roll) == (b, cs)
  {
    FirstNearestIsFirstMinimum(cs, b.x, b.y);
  }

  /** Once the bot is past its reaction delay and some chair is available, the
      timers follow `TimersTick`, `lastPosition` becomes the current position,
      and in escape mode the bot heads off (re-rolled only when the timer's
      JavaScript remainder by 100 is below 16) and never sits. */
  lemma ScrambleTick(b: BotState, cs: seq<ChairState>, roll: real)
    requires !b.seated && b.reactionDelay <= 0
    requires exists k :: 0 <= k < |cs| && Available(cs[k])
    ensures var (b', cs') := BotUpdate(b, cs, false, roll);
      var moved2 := Dist2(b.x, b.y, b.lastX, b.lastY);
      var escaping := StuckCheck(b.stuckTimer, b.randomMoveTimer, moved2).1 > 0;
      (b'.stuckTimer, b'.randomMoveTimer) == TimersTick(b.stuckTimer, b.randomMoveTimer, moved2) &&
      b'.lastX == b.x && b'.lastY == b.y && b'.reactionDelay == b.reactionDelay &&
      (escaping ==> !b'.seated && cs' == cs && b'.x == b.x && b'.y == b.y) &&
      (escaping && JsRem(b'.randomMoveTimer, 100) >= TICK_MS ==> b'.velocity == b.velocity) &&
      (escaping && JsRem(b'.randomMoveTimer, 100) < TICK_MS ==>
         b'.velocity.Dodge? && b'.velocity.roll == roll && b'.velocity.speed == EscapeSpeed(b.difficulty))
  {
    FirstNearestIsFirstMinimum(cs, b.x, b.y);
  }

  /** A bot sits exactly when, out of escape mode, its chosen chair (the first
      nearest available one) is nearer than 80; it then occupies that chair and
      stands on it. */
  lemma SitsOnlyWithinReach(b: BotState, cs: seq<ChairState>, roll: real)
    requires !b.seated
    ensures var (b', cs') := BotUpdate(b, cs, false, roll);
      b'.seated <==>
        b.reactionDelay <= 0 &&
        FirstNearest(cs, b.x, b.y).Some? &&
        StuckCheck(b.stuckTimer, b.randomMoveTimer, Dist2(b.x, b.y, b.lastX, b.lastY)).1 <= 0 &&
        ChairDist2(cs[FirstNearest(cs, b.x, b.y).value], b.x, b.y) < BOT_SIT_RANGE2
    ensures var (b', cs') := BotUpdate(b, cs, false, roll);
      b'.seated ==>
        var k := FirstNearest(cs, b.x, b.y).value;
        cs' == cs[k := AfterOccupy(cs[k], b.index)] && cs'[k].occupant == Some(b.index) &&
        b'.x == cs[k].x && b'.y == cs[k].y && b'.velocity == Still
  {
  }

  /** What a tick does to the chairs, for any bot: it claims at most one chair,
      the one it sits on, and otherwise leaves the list as it was. */
  lemma BotUpdateClaimsAtMostOne(b: BotState, cs: seq<ChairState>, canMove: bool, roll: real)
    ensures var (b', cs') := BotUpdate(b, cs, canMove, roll);
      b'.index == b.index && b'.difficulty == b.difficulty && (b.seated ==> b'.seated) &&
      |cs'| == |cs| &&
      OccupiedCount(cs') == OccupiedCount(cs) + (if b'.seated && !b.seated then 1 else 0) &&
      RealCount(cs') == RealCount(cs) &&
      (AllWellFormed(cs) ==> AllWellFormed(cs'))
  {
    var (b', cs') := BotUpdate(b, cs, canMove, roll);
    if b'.seated && !b.seated {
      var k := FirstNearest(cs, b.x, b.y).value;
      OccupyCounts(cs, k, b.index);
      if AllWellFormed(cs) {
        OperationsKeepWellFormed(cs[k], b.index, true);
      }
    }
  }

  // ----- many ticks of the timers -----

  /** The timers after `n` ticks in which the bot does not move. */
  function StuckTicks(n: nat, stuckTimer: int, randomMoveTimer: int): (int, int)
  {
    if n == 0 then (stuckTimer, randomMoveTimer)
    else
      var (s, r) := StuckTicks(n - 1, stuckTimer, randomMoveTimer);
      TimersTick(s, r, 0)
  }

  /** The timers after `n` ticks in which the bot moves at least 5 per tick. */
  function MovingTicks(n: nat, stuckTimer: int, randomMoveTimer: int): (int, int)
  {
    if n == 0 then (stuckTimer, randomMoveTimer)
    else
      var (s, r) := MovingTicks(n - 1, stuckTimer, randomMoveTimer);
      TimersTick(s, r, STUCK_MOVE2)
  }

  /** A bot that stops moving enters escape mode on the 13th tick (208 ms,
      the first multiple of 16 beyond 200), not before. */
  lemma {:induction false} EscapeEntry(n: nat)
    requires n <= 13
    ensures n < 13 ==> StuckTicks(n, 0, 0) == (16 * n, 0)
    ensures n == 13 ==> StuckTicks(n, 0, 0) == (0, ESCAPE_MS - TICK_MS)
  {
    if n > 0 {
      EscapeEntry(n - 1);
    }
  }

  /** A bot that never moves again never leaves escape mode: every 13th tick
      the stuck check re-arms the 1500 ms escape timer, long before it runs
      out. */
  lemma {:induction false} StuckBotKeepsEscaping(n: nat)
    requires n >= 13
    ensures StuckTicks(n, 0, 0) == (16 * ((n - 13) % 13), 1484 - 16 * ((n - 13) % 13))
    ensures StuckTicks(n, 0, 0).1 > 0
  {
    if n == 13 {
      EscapeEntry(13);
    } else {
      StuckBotKeepsEscaping(n - 1);
      var j := (n - 14) % 13;
      assert (n - 13) % 13 == if j == 12 then 0 else j + 1;
    }
  }

  /** Once the bot moves freely, escape mode runs out: the timer drops by 16
      per tick, so after 94 ticks a timer of at most 1500 is spent. */
  lemma {:induction false} MovingBotLeavesEscape(n: nat, randomMoveTimer: int)
    requires -TICK_MS < randomMoveTimer <= ESCAPE_MS
    ensures var (s, r) := MovingTicks(n, 0, randomMoveTimer);
      s == 0 && (r > 0 ==> r == randomMoveTimer - 16 * n) && (r <= 0 ==> r > -16)
    ensures n >= 94 ==> MovingTicks(n, 0, randomMoveTimer).1 <= 0
  {
    if n > 0 {
      MovingBotLeavesEscape(n - 1, randomMoveTimer);
    }
  }

  // ----- the bot object -----

  class BotPlayer {
    /** The bot's number; its name is "Bot " followed by it. */
    const index: nat
    const difficulty: Difficulty
    var x: int
    var y: int
    var seated: bool
    var reactionDelay: int
    var lastX: int
    var lastY: int
    var stuckTimer: int
    var randomMoveTimer: int
    var velocity: BotVelocity

    ghost function State(): BotState
      reads this
    {
      BotState(index, difficulty, x, y, seated, reactionDelay, lastX, lastY,
               stuckTimer, randomMoveTimer, velocity)
    }

    /** `delayDraw` is the value `Phaser.Math.Between` draws in the range of
        the difficulty. */
    constructor (x0: int, y0: int, d: Difficulty, botIndex: nat, delayDraw: int)
      requires ReactionDelayRange(d).0 <= delayDraw <= ReactionDelayRange(d).1
      ensures State() == NewBot(botIndex, d, x0, y0, delayDraw)
      ensures ReactionDelayRange(d).0 <= reactionDelay <= ReactionDelayRange(d).1
    {
      index := botIndex;
      difficulty := d;
      x, y := x0, y0;
      seated := false;
      lastX, lastY := 0, 0;
      stuckTimer, randomMoveTimer := 0, 0;
      velocity := Still;
      reactionDelay := delayDraw;
    }

    method Update(canMove: bool, chairs: seq<Chair>, roll: real)
      requires Distinct(chairs) && AllWellFormed(Views(chairs))
      modifies this, chairs
      ensures AllWellFormed(Views(chairs))
      ensures (State(), Views(chairs)) == BotUpdate(old(State()), old(Views(chairs)), canMove, roll)
    {
      if seated {
        velocity := Still;
        return;
      }
      if canMove {
        MoveInCircle(canMove);
      } else {
        TryToSit(chairs, canMove, roll);
      }
    }

    method MoveInCircle(canMove: bool)
      modifies this
      ensures State() == old(State()).(velocity := Orbit(BaseSpeed(difficulty)))
    {
      var speed := GetSpeed(canMove);
      velocity := Orbit(speed);
    }

    method TryToSit(chairs: seq<Chair>, canMove: bool, roll: real)
      requires Distinct(chairs) && AllWellFormed(Views(chairs))
      modifies this, chairs
      ensures AllWellFormed(Views(chairs))
      ensures (State(), Views(chairs)) == BotTryToSit(old(State()), old(Views(chairs)), roll)
    {
      if seated {
        return;
      }
      if reactionDelay > 0 {
        reactionDelay := reactionDelay - TICK_MS;
        velocity := Still;
        return;
      }
      var closest, closestDistance := NearestAvailableChair(chairs, x, y);
      if closest.None? {
        return;
      }
      var k := closest.value;
      CheckStuck();
      ChaseOrEscapeStep(chairs, k, closestDistance, canMove, roll);
    }

    /** The stuck check and the `lastPosition` update. */
    method CheckStuck()
      modifies this
      ensures State() == AfterStuckCheck(old(State()))
    {
      var distanceMoved := Dist2(x, y, lastX, lastY);
      if distanceMoved < STUCK_MOVE2 {
        stuckTimer := stuckTimer + TICK_MS;
        if stuckTimer > STUCK_LIMIT_MS {
          randomMoveTimer := ESCAPE_MS;
          stuckTimer := 0;
        }
      } else {
        stuckTimer := 0;
      }
      lastX, lastY := x, y;
    }

    method ChaseOrEscapeStep(chairs: seq<Chair>, k: nat, closestDistance: int, canMove: bool, roll: real)
      requires Distinct(chairs) && k < |chairs| && AllWellFormed(Views(chairs))
      requires closestDistance == ChairDist2(chairs[k].State(), x, y)
      modifies this, chairs
      ensures AllWellFormed(Views(chairs))
      ensures (State(), Views(chairs)) == ChaseOrEscape(old(State()), old(Views(chairs)), k, roll)
    {
      var chair := chairs[k];
      if randomMoveTimer > 0 {
        randomMoveTimer := randomMoveTimer - TICK_MS;
        if JsRem(randomMoveTimer, 100) < TICK_MS {
          var speed := GetSpeed(canMove) * 13 / 10;
          velocity := Dodge(chair.x, chair.y, roll, speed);
        }
        return;
      }
      velocity := Chase(chair.x, chair.y, GetSpeed(canMove));
      if closestDistance < BOT_SIT_RANGE2 {
        ghost var before := Views(chairs);
        ghost var b2 := State();
        assert before[k] == chair.State();
        SitOnChair(chair);
        assert (State(), chair.State()) == BotSit(b2, before[k]);
        forall j | 0 <= j < |chairs|
          ensures Views(chairs)[j] == before[k := chair.State()][j]
        {
          if j != k {
            assert chairs[j] != chair;
          }
        }
        assert Views(chairs) == before[k := chair.State()];
      }
    }

    method SitOnChair(chair: Chair)
      requires chair.Valid()
      modifies this, chair
      ensures chair.Valid()
      ensures (State(), chair.State()) == BotSit(old(State()), old(chair.State()))
    {
      if !chair.IsAvailable() {
        return;
      }
      chair.Occupy(index);
      seated := true;
      x, y := chair.x, chair.y;
      velocity := Still;
    }

    /** `getSpeed(canMove)`: the argument plays no part. */
    function GetSpeed(canMove: bool): (speed: int)
      ensures speed == BaseSpeed(difficulty)
      ensures BOT_EASY_SPEED <= speed <= BOT_HARD_SPEED
    {
      BaseSpeed(difficulty)
    }

    function IsSeated(): (r: bool)
      reads this
      ensures r == State().seated
    {
      seated
    }

    /** `setVelocity(0, 0)`, as `gameOver` and `playDeathAnimation` do. */
    method Stop()
      modifies this
      ensures State() == old(State()).(velocity := Still)
    {
      velocity := Still;
    }

    /** `teleportToRandomCorner`: `pick` is the corner `Phaser.Math.RND.pick`
        draws. The position change that the source makes halfway through a
        fade tween is made at once. */
    method TeleportToRandomCorner(width: int, height: int, pick: nat)
      requires pick < 4
      modifies this
      ensures State() == old(State()).(velocity := Still,
        x := BotCorner(width, height, pick).0, y := BotCorner(width, height, pick).1)
    {
      velocity := Still;
      var corners := [(100, 100), (width - 100, 100), (100, height - 100), (width - 100, height - 100)];
      x, y := corners[pick].0, corners[pick].1;
    }
  }

  /** The four corners a bot may be teleported to, inset 100 from the camera edges. */
  function BotCorner(width: int, height: int, pick: nat): (p: (int, int))
    requires pick < 4
    ensures p.0 == 100 || p.0 == width - 100
    ensures p.1 == 100 || p.1 == height - 100
  {
    [(100, 100), (width - 100, 100), (100, height - 100), (width - 100, height - 100)][pick]
  }

  ghost function BotViews(bots: seq<BotPlayer>): (vs: seq<BotState>)
    reads bots
    ensures |vs| == |bots|
  {
    seq(|bots|, i reads bots requires 0 <= i < |bots| => bots[i].State())
  }

  ghost predicate DistinctBots(bots: seq<BotPlayer>)
  {
    forall i, j :: 0 <= i < j < |bots| ==> bots[i] != bots[j]
  }
}
