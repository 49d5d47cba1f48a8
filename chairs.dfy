/** A chair (seat resource): its claim protocol, its availability predicate,
    the decoy ("fake") trap, and the nearest-available-chair search that the
    player and the bots share. */
module Chairs {
  import opened Common

  /** The rule-relevant state of one chair. */
  datatype ChairState = ChairState(
    x: int,
    y: int,
    occupied: bool,
    chairActive: bool,
    occupant: Option<AgentId>,
    isFake: bool,
    revealed: bool)

  /** A chair as the constructor leaves it. */
  function NewChair(x: int, y: int, isFake: bool): ChairState
  {
    ChairState(x, y, false, false, None, isFake, false)
  }

  /** `isAvailable()`: a fake chair never is; a real one is when it is active
      and nobody sits on it. */
  predicate Available(c: ChairState)
  {
    if c.isFake then false else !c.occupied && c.chairActive
  }

  /** `setChairActive(b)`. */
  function AfterSetActive(c: ChairState, b: bool): ChairState
  {
    c.(chairActive := b)
  }

  /** `revealFake()`. */
  function AfterReveal(c: ChairState): ChairState
  {
    if !c.revealed then c.(revealed := true) else c
  }

  /** `occupy(who)`: the single point where a seat is claimed. */
  function AfterOccupy(c: ChairState, who: AgentId): ChairState
  {
    if c.isFake then AfterReveal(c)
    else if c.occupied || !c.chairActive then c
    else c.(occupied := true, occupant := Some(who))
  }

  /** The chair invariant kept by every operation: the occupant is recorded
      exactly when the chair is occupied, and a fake chair is never occupied. */
  ghost predicate WellFormed(c: ChairState)
  {
    (c.occupied <==> c.occupant.Some?) && (c.occupied ==> !c.isFake)
  }

  lemma NewChairIsFree(x: int, y: int, isFake: bool)
    ensures var c := NewChair(x, y, isFake);
      !c.occupied && !c.chairActive && !c.revealed && c.occupant == None &&
      c.isFake == isFake && WellFormed(c) && !Available(c)
  {
  }

  /** The decoy trap: occupying a fake chair only marks it revealed. */
  lemma OccupyFakeOnlyReveals(c: ChairState, who: AgentId)
    requires c.isFake
    ensures AfterOccupy(c, who) == c.(revealed := true)
  {
  }

  /** A claim succeeds exactly on an available chair; otherwise occupancy and
      occupant stay as they were. */
  lemma OccupySucceedsIffAvailable(c: ChairState, who: AgentId)
    ensures Available(c) ==> AfterOccupy(c, who) == c.(occupied := true, occupant := Some(who))
    ensures !Available(c) ==>
      AfterOccupy(c, who).occupied == c.occupied && AfterOccupy(c, who).occupant == c.occupant
    ensures !c.isFake && !Available(c) ==> AfterOccupy(c, who) == c
  {
  }

  /** First caller wins: once a claim has succeeded, a later claim by anybody
      changes nothing, so a chair never gets a second occupant. */
  lemma FirstClaimantWins(c: ChairState, first: AgentId, second: AgentId)
    requires Available(c)
    ensures AfterOccupy(AfterOccupy(c, first), second) == AfterOccupy(c, first)
    ensures AfterOccupy(AfterOccupy(c, first), second).occupant == Some(first)
  {
  }

  /** Claiming twice with the same caller is the same as claiming once. */
  lemma OccupyIdempotent(c: ChairState, who: AgentId)
    ensures AfterOccupy(AfterOccupy(c, who), who) == AfterOccupy(c, who)
  {
  }

  /** A fake chair is never available, active or not. */
  lemma FakeNeverAvailable(c: ChairState, b: bool)
    requires c.isFake
    ensures !Available(c) && !Available(AfterSetActive(c, b))
  {
  }

  /** `revealFake` flips `revealed` at most once; afterwards it stays set. */
  lemma RevealIdempotent(c: ChairState)
    ensures AfterReveal(c).revealed
    ensures AfterReveal(AfterReveal(c)) == AfterReveal(c)
    ensures c.revealed ==> AfterReveal(c) == c
    ensures AfterReveal(c) == c.(revealed := true)
  {
  }

  /** Activation touches only the activation flag. */
  lemma SetActiveOnlyActivates(c: ChairState, b: bool)
    ensures var d := AfterSetActive(c, b);
      d.chairActive == b && d.occupied == c.occupied && d.occupant == c.occupant &&
      d.isFake == c.isFake && d.revealed == c.revealed && d.x == c.x && d.y == c.y
  {
  }

  lemma OperationsKeepWellFormed(c: ChairState, who: AgentId, b: bool)
    requires WellFormed(c)
    ensures WellFormed(AfterOccupy(c, who)) && WellFormed(AfterSetActive(c, b)) && WellFormed(AfterReveal(c))
  {
  }

  // ----- counting chairs -----

  function OccupiedCount(cs: seq<ChairState>): nat
  {
    if cs == [] then 0 else (if cs[0].occupied then 1 else 0) + OccupiedCount(cs[1..])
  }

  function RealCount(cs: seq<ChairState>): nat
  {
    if cs == [] then 0 else (if cs[0].isFake then 0 else 1) + RealCount(cs[1..])
  }

  function FakeCount(cs: seq<ChairState>): nat
  {
    if cs == [] then 0 else (if cs[0].isFake then 1 else 0) + FakeCount(cs[1..])
  }

  ghost predicate AllWellFormed(cs: seq<ChairState>)
  {
    forall k :: 0 <= k < |cs| ==> WellFormed(cs[k])
  }

  /** Fake chairs are never occupied, so at most the real chairs are. */
  lemma {:induction false} OccupiedAtMostReal(cs: seq<ChairState>)
    requires AllWellFormed(cs)
    ensures OccupiedCount(cs) <= RealCount(cs)
  {
    if cs != [] {
      OccupiedAtMostReal(cs[1..]);
    }
  }

  lemma {:induction false} RealPlusFake(cs: seq<ChairState>)
    ensures RealCount(cs) + FakeCount(cs) == |cs|
  {
    if cs != [] {
      RealPlusFake(cs[1..]);
    }
  }

  /** Replacing one chair changes the counts by that chair's contribution only. */
  lemma {:induction false} CountsAfterUpdate(cs: seq<ChairState>, k: nat, c: ChairState)
    requires k < |cs|
    ensures OccupiedCount(cs[k := c]) + (if cs[k].occupied then 1 else 0)
      == OccupiedCount(cs) + (if c.occupied then 1 else 0)
    ensures RealCount(cs[k := c]) + (if cs[k].isFake then 0 else 1)
      == RealCount(cs) + (if c.isFake then 0 else 1)
  {
    if k > 0 {
      CountsAfterUpdate(cs[1..], k - 1, c);
      assert cs[k := c][1..] == cs[1..][k - 1 := c];
    }
  }

  /** A claim on chair `k` raises the occupied count by one exactly when the
      chair was available, and never changes how many chairs are real. */
  lemma OccupyCounts(cs: seq<ChairState>, k: nat, who: AgentId)
    requires k < |cs|
    ensures OccupiedCount(cs[k := AfterOccupy(cs[k], who)])
      == OccupiedCount(cs) + (if Available(cs[k]) then 1 else 0)
    ensures RealCount(cs[k := AfterOccupy(cs[k], who)]) == RealCount(cs)
  {
    CountsAfterUpdate(cs, k, AfterOccupy(cs[k], who));
  }

  // ----- nearest available chair -----

  /** Squared distance from a point to a chair. */
  function ChairDist2(c: ChairState, x: int, y: int): nat
  {
    Dist2(x, y, c.x, c.y)
  }

  /** The index the source's scan `if (chair.isAvailable() && distance <
      closestDistance)` ends with: it walks the list in order and replaces its
      candidate only on a strictly smaller distance. */
  function FirstNearest(cs: seq<ChairState>, x: int, y: int): (r: Option<nat>)
    ensures r.Some? ==> r.value < |cs| && Available(cs[r.value])
    decreases |cs|
  {
    if cs == [] then None
    else
      var best := FirstNearest(cs[..|cs| - 1], x, y);
      var last := cs[|cs| - 1];
      if Available(last) &&
         (best.None? || ChairDist2(last, x, y) < ChairDist2(cs[best.value], x, y))
      then Some(|cs| - 1)
      else best
  }

  /** What the scan finds: nothing exactly when no chair is available;
      otherwise an available chair no farther than any available chair, and
      strictly nearer than every available chair before it (ties go to the
      first in list order). */
  lemma {:induction false} FirstNearestIsFirstMinimum(cs: seq<ChairState>, x: int, y: int)
    ensures FirstNearest(cs, x, y).None? <==> forall k :: 0 <= k < |cs| ==> !Available(cs[k])
    ensures FirstNearest(cs, x, y).Some? ==>
      var i := FirstNearest(cs, x, y).value;
      (forall k :: 0 <= k < |cs| && Available(cs[k]) ==>
         ChairDist2(cs[i], x, y) <= ChairDist2(cs[k], x, y)) &&
      (forall k :: 0 <= k < i && Available(cs[k]) ==>
         ChairDist2(cs[i], x, y) < ChairDist2(cs[k], x, y))
  {
    if cs != [] {
      var front := cs[..|cs| - 1];
      FirstNearestIsFirstMinimum(front, x, y);
      assert forall k :: 0 <= k < |front| ==> front[k] == cs[k];
    }
  }

  // ----- the chair object -----

  class Chair {
    var x: int
    var y: int
    var occupied: bool
    var chairActive: bool
    var occupant: Option<AgentId>
    /** Fixed when the chair is built. */
    const isFake: bool
    var revealed: bool

    ghost function State(): ChairState
      reads this
    {
      ChairState(x, y, occupied, chairActive, occupant, isFake, revealed)
    }

    ghost predicate Valid()
      reads this
    {
      WellFormed(State())
    }

    constructor (x0: int, y0: int, fake: bool)
      ensures State() == NewChair(x0, y0, fake)
      ensures Valid()
    {
      x, y := x0, y0;
      isFake := fake;
      occupied, chairActive, occupant, revealed := false, false, None, false;
    }

    method SetChairActive(isActive: bool)
      requires Valid()
      modifies this
      ensures Valid()
      ensures State() == AfterSetActive(old(State()), isActive)
    {
      chairActive := isActive;
    }

    method Occupy(who: AgentId)
      requires Valid()
      modifies this
      ensures Valid()
      ensures State() == AfterOccupy(old(State()), who)
    {
      if isFake {
        RevealFake();
        return;
      }
      if occupied || !chairActive {
        return;
      }
      occupied := true;
      occupant := Some(who);
    }

    predicate IsAvailable()
      reads this
      ensures IsAvailable() == Available(State())
    {
      if isFake then false else !occupied && chairActive
    }

    method RevealFake()
      requires Valid()
      modifies this
      ensures Valid()
      ensures State() == AfterReveal(old(State()))
    {
      if !revealed {
        revealed := true;
      }
    }

    function GetIsFake(): (r: bool)
      reads this
      ensures r ==> !IsAvailable()
    {
      isFake
    }

    function IsOccupied(): (r: bool)
      reads this
      ensures r ==> !IsAvailable()
    {
      occupied
    }

    function GetOccupant(): (r: Option<AgentId>)
      reads this
      requires Valid()
      ensures r.Some? <==> IsOccupied()
      ensures r.Some? ==> !GetIsFake()
    {
      occupant
    }

    /** `stopMoving()`: stops the motion tween, which is not modelled; the
        chair's claim state is untouched. */
    method StopMoving()
      ensures State() == old(State())
    {
    }

    /** `teleportToRandomPosition`: the chair reappears at `(nx, ny)`, drawn
        by the caller; nothing but the position changes. */
    method TeleportToRandomPosition(nx: int, ny: int)
      requires Valid()
      modifies this
      ensures Valid()
      ensures State() == old(State()).(x := nx, y := ny)
    {
      StopMoving();
      x, y := nx, ny;
    }
  }

  /** The states of a list of chair objects, in list order. */
  ghost function Views(chairs: seq<Chair>): (vs: seq<ChairState>)
    reads chairs
    ensures |vs| == |chairs|
  {
    seq(|chairs|, i reads chairs requires 0 <= i < |chairs| => chairs[i].State())
  }

  ghost predicate Distinct(chairs: seq<Chair>)
  {
    forall i, j :: 0 <= i < j < |chairs| ==> chairs[i] != chairs[j]
  }

  /** The scan over the chair objects. Returns the index of the chosen chair
      and its squared distance. */
  method NearestAvailableChair(chairs: seq<Chair>, x: int, y: int)
    returns (closest: Option<nat>, closestDistance: int)
    ensures closest == FirstNearest(Views(chairs), x, y)
    ensures closest.Some? ==> closestDistance == ChairDist2(Views(chairs)[closest.value], x, y)
  {
    closest := None;
    closestDistance := 0;
    var i := 0;
    while i < |chairs|
      invariant 0 <= i <= |chairs|
      invariant closest == FirstNearest(Views(chairs)[..i], x, y)
      invariant closest.Some? ==>
        closest.value < i && closestDistance == ChairDist2(Views(chairs)[closest.value], x, y)
    {
      ghost var vs := Views(chairs);
      assert vs[..i + 1][..i] == vs[..i];
      if chairs[i].IsAvailable() {
        var distance := Dist2(x, y, chairs[i].x, chairs[i].y);
        if closest.None? || distance < closestDistance {
          closestDistance := distance;
          closest := Some(i);
        }
      }
      i := i + 1;
    }
    assert Views(chairs)[..i] == Views(chairs);
  }
}
