/** The human-controlled agent: velocity from the joystick or the keyboard,
    and an automatic attempt to sit whenever the music is stopped. */
module Players {
  import opened Common
  import opened LevelConfig
  import opened Chairs

  /** `closestDistance < 100`, squared: the player reaches further than a bot. */
  const PLAYER_SIT_RANGE2: int := 10000
  /** Joystick deflections up to this magnitude on both axes are ignored. */
  const DEAD_ZONE: real := 0.1

  /** A joystick deflection, each axis in `[-1, 1]`. */
  datatype Stick = Stick(x: real, y: real)

  /** The keys held this frame: the four cursor keys and W, A, S, D. */
  datatype Keys = Keys(
    left: bool, right: bool, up: bool, down: bool,
    a: bool, d: bool, w: bool, s: bool)

  function Abs(r: real): real
  {
    if r < 0.0 then -r else r
  }

  /** The joystick leaves its dead zone on at least one axis. */
  predicate Deflected(joy: Option<Stick>)
  {
    joy.Some? && (Abs(joy.value.x) > DEAD_ZONE || Abs(joy.value.y) > DEAD_ZONE)
  }

  /** One keyboard axis: the negative direction wins when both are held. */
  function KeyAxis(negative: bool, positive: bool): real
  {
    if negative then -(PLAYER_SPEED as real)
    else if positive then PLAYER_SPEED as real
    else 0.0
  }

  /** The velocity `update` sets: a deflected joystick scales by the player
      speed; otherwise, when there is a keyboard (`keys` present), each axis
      comes from its keys; otherwise the player stands still. */
  function InputVelocity(joy: Option<Stick>, keys: Option<Keys>): (real, real)
  {
    if Deflected(joy) then
      (joy.value.x * PLAYER_SPEED as real, joy.value.y * PLAYER_SPEED as real)
    else if keys.Some? then
      var k := keys.value;
      (KeyAxis(k.left || k.a, k.right || k.d), KeyAxis(k.up || k.w, k.down || k.s))
    else (0.0, 0.0)
  }

  datatype PlayerState = PlayerState(x: int, y: int, seated: bool, vx: real, vy: real)

  function NewPlayer(x: int, y: int): PlayerState
  {
    PlayerState(x, y, false, 0.0, 0.0)
  }

  /** `sitOnChair`: sit only if the chair is still available. */
  function PlayerSit(p: PlayerState, c: ChairState): (PlayerState, ChairState)
  {
    if !Available(c) then (p, c)
    else (p.(seated := true, x := c.x, y := c.y, vx := 0.0, vy := 0.0), AfterOccupy(c, PLAYER_ID))
  }

  /** `tryToSit`: sit on the first nearest available chair if it is nearer than 100. */
  function PlayerTryToSit(p: PlayerState, cs: seq<ChairState>): (PlayerState, seq<ChairState>)
  {
    if p.seated then (p, cs)
    else
      match FirstNearest(cs, p.x, p.y)
      case None => (p, cs)
      case Some(k) =>
        if ChairDist2(cs[k], p.x, p.y) < PLAYER_SIT_RANGE2 then
          var (p', c') := PlayerSit(p, cs[k]);
          (p', cs[k := c'])
        else (p, cs)
  }

  /** `update(canMove, chairs, joystickInput)`: one tick of the player. */
  function PlayerUpdate(p: PlayerState, cs: seq<ChairState>, canMove: bool,
                        joy: Option<Stick>, keys: Option<Keys>): (PlayerState, seq<ChairState>)
  {
    if p.seated then (p.(vx := 0.0, vy := 0.0), cs)
    else
      var (vx, vy) := InputVelocity(joy, keys);
      var p1 := p.(vx := vx, vy := vy);
      if !canMove then PlayerTryToSit(p1, cs) else (p1, cs)
  }

  // ----- input -----

  /** A deflected joystick decides the velocity whatever keys are held. */
  lemma JoystickOverridesKeys(joy: Option<Stick>, keys: Option<Keys>)
    requires Deflected(joy)
    ensures InputVelocity(joy, keys) == InputVelocity(joy, None)
    ensures InputVelocity(joy, keys) == (joy.value.x * 200.0, joy.value.y * 200.0)
  {
  }

  /** A joystick inside its dead zone counts as no joystick. */
  lemma DeadZoneIgnored(joy: Option<Stick>, keys: Option<Keys>)
    requires joy.Some? && Abs(joy.value.x) <= DEAD_ZONE && Abs(joy.value.y) <= DEAD_ZONE
    ensures InputVelocity(joy, keys) == InputVelocity(None, keys)
  {
  }

  /** On the keyboard each axis is -200, 0 or 200; an arrow key and its
      letter key act alike; left beats right and up beats down. */
  lemma KeyboardAxes(keys: Keys)
    ensures var (vx, vy) := InputVelocity(None, Some(keys));
      (vx < 0.0 <==> keys.left || keys.a) &&
      (vx > 0.0 <==> !(keys.left || keys.a) && (keys.right || keys.d)) &&
      (vx == 0.0 <==> !(keys.left || keys.a || keys.right || keys.d)) &&
      (vy < 0.0 <==> keys.up || keys.w) &&
      (vy > 0.0 <==> !(keys.up || keys.w) && (keys.down || keys.s)) &&
      (vy == 0.0 <==> !(keys.up || keys.w || keys.down || keys.s)) &&
      (vx == -200.0 || vx == 0.0 || vx == 200.0) &&
      (vy == -200.0 || vy == 0.0 || vy == 200.0)
  {
  }

  /** With neither a deflected joystick nor a keyboard the player stands still. */
  lemma NoInputNoMotion(joy: Option<Stick>)
    requires !Deflected(joy)
    ensures InputVelocity(joy, None) == (0.0, 0.0)
  {
  }

  // ----- one tick -----

  /** A seated player only stops. */
  lemma SeatedPlayerStops(p: PlayerState, cs: seq<ChairState>, canMove: bool,
                          joy: Option<Stick>, keys: Option<Keys>)
    requires p.seated
    ensures PlayerUpdate(p, cs, canMove, joy, keys) == (p.(vx := 0.0, vy := 0.0), cs)
  {
  }

  /** While the music plays the player steers freely and touches no chair. */
  lemma MusicPlayingNoSeat(p: PlayerState, cs: seq<ChairState>, joy: Option<Stick>, keys: Option<Keys>)
    requires !p.seated
    ensures var (p', cs') := PlayerUpdate(p, cs, true, joy, keys);
      cs' == cs && !p'.seated && (p'.vx, p'.vy) == InputVelocity(joy, keys) &&
      p'.x == p.x && p'.y == p.y
  {
  }

  /** With the music stopped the player sits exactly when the first nearest
      available chair is nearer than 100, whatever the input says; it then
      occupies that chair and stands still on it. If it does not sit, the
      velocity is the input's and the chairs are as they were. */
  lemma PlayerSitsOnlyWithinReach(p: PlayerState, cs: seq<ChairState>, joy: Option<Stick>, keys: Option<Keys>)
    requires !p.seated
    ensures var (p', cs') := PlayerUpdate(p, cs, false, joy, keys);
      p'.seated <==>
        FirstNearest(cs, p.x, p.y).Some? &&
        ChairDist2(cs[FirstNearest(cs, p.x, p.y).value], p.x, p.y) < PLAYER_SIT_RANGE2
    ensures var (p', cs') := PlayerUpdate(p, cs, false, joy, keys);
      p'.seated ==>
        var k := FirstNearest(cs, p.x, p.y).value;
        cs' == cs[k := AfterOccupy(cs[k], PLAYER_ID)] && cs'[k].occupant == Some(PLAYER_ID) &&
        p'.x == cs[k].x && p'.y == cs[k].y && p'.vx == 0.0 && p'.vy == 0.0
    ensures var (p', cs') := PlayerUpdate(p, cs, false, joy, keys);
      !p'.seated ==> cs' == cs && (p'.vx, p'.vy) == InputVelocity(joy, keys)
  {
    FirstNearestIsFirstMinimum(cs, p.x, p.y);
  }

  /** What a tick does to the chairs: it claims at most one, the one the
      player sits on. */
  lemma PlayerUpdateClaimsAtMostOne(p: PlayerState, cs: seq<ChairState>, canMove: bool,
                                    joy: Option<Stick>, keys: Option<Keys>)
    ensures var (p', cs') := PlayerUpdate(p, cs, canMove, joy, keys);
      (p.seated ==> p'.seated) &&
      |cs'| == |cs| &&
      OccupiedCount(cs') == OccupiedCount(cs) + (if p'.seated && !p.seated then 1 else 0) &&
      RealCount(cs') == RealCount(cs) &&
      (AllWellFormed(cs) ==> AllWellFormed(cs'))
  {
    var (p', cs') := PlayerUpdate(p, cs, canMove, joy, keys);
    if p'.seated && !p.seated {
      var k := FirstNearest(cs, p.x, p.y).value;
      OccupyCounts(cs, k, PLAYER_ID);
      if AllWellFormed(cs) {
        OperationsKeepWellFormed(cs[k], PLAYER_ID, true);
      }
    }
  }

  /** The corners the player may be teleported to: inset 100 from the physics
      world bounds horizontally and from the camera height vertically. */
  function PlayerCorner(boundsX: int, boundsWidth: int, height: int, pick: nat): (p: (int, int))
    requires pick < 4
    ensures p.0 == boundsX + 100 || p.0 == boundsX + boundsWidth - 100
    ensures p.1 == 100 || p.1 == height - 100
  {
    var left, right := boundsX + 100, boundsX + boundsWidth - 100;
    [(left, 100), (right, 100), (left, height - 100), (right, height - 100)][pick]
  }

  // ----- the player object -----

  class Player {
    var x: int
    var y: int
    var seated: bool
    var vx: real
    var vy: real

    ghost function State(): PlayerState
      reads this
    {
      PlayerState(x, y, seated, vx, vy)
    }

    constructor (x0: int, y0: int)
      ensures State() == NewPlayer(x0, y0)
    {
      x, y := x0, y0;
      seated := false;
      vx, vy := 0.0, 0.0;
    }

    /** `joy` is the virtual joystick's input, if any; `keys` the keys held,
        absent when the device has no keyboard. */
    method Update(canMove: bool, chairs: seq<Chair>, joy: Option<Stick>, keys: Option<Keys>)
      requires Distinct(chairs) && AllWellFormed(Views(chairs))
      modifies this, chairs
      ensures AllWellFormed(Views(chairs))
      ensures (State(), Views(chairs)) == PlayerUpdate(old(State()), old(Views(chairs)), canMove, joy, keys)
    {
      if seated {
        vx, vy := 0.0, 0.0;
        return;
      }
      var velocityX, velocityY := ReadInput(joy, keys);
      vx, vy := velocityX, velocityY;
      if !canMove {
        TryToSit(chairs);
      }
    }

    /** The velocity the input asks for: the joystick first, then the keys. */
    method ReadInput(joy: Option<Stick>, keys: Option<Keys>) returns (velocityX: real, velocityY: real)
      ensures (velocityX, velocityY) == InputVelocity(joy, keys)
    {
      velocityX, velocityY := 0.0, 0.0;
      if joy.Some? && (Abs(joy.value.x) > DEAD_ZONE || Abs(joy.value.y) > DEAD_ZONE) {
        velocityX := joy.value.x * PLAYER_SPEED as real;
        velocityY := joy.value.y * PLAYER_SPEED as real;
      } else if keys.Some? {
        var k := keys.value;
        if k.left || k.a {
          velocityX := -(PLAYER_SPEED as real);
        } else if k.right || k.d {
          velocityX := PLAYER_SPEED as real;
        }
        if k.up || k.w {
          velocityY := -(PLAYER_SPEED as real);
        } else if k.down || k.s {
          velocityY := PLAYER_SPEED as real;
        }
      }
    }

    method TryToSit(chairs: seq<Chair>)
      requires Distinct(chairs) && AllWellFormed(Views(chairs))
      modifies this, chairs
      ensures AllWellFormed(Views(chairs))
      ensures (State(), Views(chairs)) == PlayerTryToSit(old(State()), old(Views(chairs)))
    {
      if seated {
        return;
      }
      var closest, closestDistance := NearestAvailableChair(chairs, x, y);
      if closest.Some? && closestDistance < PLAYER_SIT_RANGE2 {
        var k := closest.value;
        var chair := chairs[k];
        ghost var before := Views(chairs);
        ghost var p0 := State();
        assert before[k] == chair.State();
        SitOnChair(chair);
        assert (State(), chair.State()) == PlayerSit(p0, before[k]);
        forall j | 0 <= j < |chairs|
          ensures Views(chairs)[j] == before[k := chair.State()][j]
        {
          if j != k {
            assert chairs[j] != chair;
          }
        }
        assert Views(chairs) == before[k := chair.State()];
      }
    }

    method SitOnChair(chair: Chair)
      requires chair.Valid()
      modifies this, chair
      ensures chair.Valid()
      ensures (State(), chair.State()) == PlayerSit(old(State()), old(chair.State()))
    {
      if !chair.IsAvailable() {
        return;
      }
      chair.Occupy(PLAYER_ID);
      seated := true;
      x, y := chair.x, chair.y;
      vx, vy := 0.0, 0.0;
    }

    function IsSeated(): (r: bool)
      reads this
      ensures r == State().seated
    {
      seated
    }

    /** `setVelocity(0, 0)`, as `gameOver` and `playDeathAnimation` do. */
    method Stop()
      modifies this
      ensures State() == old(State()).(vx := 0.0, vy := 0.0)
    {
      vx, vy := 0.0, 0.0;
    }

    /** `teleportToRandomCorner`: `boundsX` and `boundsWidth` are the physics
        world bounds, `pick` the corner `Phaser.Math.RND.pick` draws; the
        position change of the fade tween is made at once. */
    method TeleportToRandomCorner(boundsX: int, boundsWidth: int, height: int, pick: nat)
      requires pick < 4
      modifies this
      ensures State() == old(State()).(vx := 0.0, vy := 0.0,
        x := PlayerCorner(boundsX, boundsWidth, height, pick).0,
        y := PlayerCorner(boundsX, boundsWidth, height, pick).1)
    {
      vx, vy := 0.0, 0.0;
      var leftEdge := boundsX + 100;
      var rightEdge := boundsX + boundsWidth - 100;
      var corners := [(leftEdge, 100), (rightEdge, 100), (leftEdge, height - 100), (rightEdge, height - 100)];
      x, y := corners[pick].0, corners[pick].1;
    }
  }
}
