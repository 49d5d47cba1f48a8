/** Who is eliminated when a round is judged: the unseated agents, each one's
    distance to its nearest chair, and the first agent whose nearest chair is
    furthest away. */
module Elimination {
  import opened Common
  import opened Chairs

  /** What the judge sees of an agent (the player or a bot). */
  datatype Agent = Agent(id: AgentId, x: int, y: int, seated: bool)

  /** `allPlayers.filter(p => !p.isSeated())`, order kept. */
  function Unseated(agents: seq<Agent>): (u: seq<Agent>)
    ensures |u| <= |agents|
    ensures forall a :: a in u ==> a in agents && !a.seated
  {
    if |agents| == 0 then []
    else (if agents[0].seated then [] else [agents[0]]) + Unseated(agents[1..])
  }

  function SeatedCount(agents: seq<Agent>): nat
  {
    if |agents| == 0 then 0
    else (if agents[0].seated then 1 else 0) + SeatedCount(agents[1..])
  }

  /** The filter keeps exactly the unseated agents. */
  lemma {:induction false} UnseatedCount(agents: seq<Agent>)
    ensures |Unseated(agents)| + SeatedCount(agents) == |agents|
    ensures forall a :: a in agents && !a.seated ==> a in Unseated(agents)
  {
    if |agents| > 0 {
      UnseatedCount(agents[1..]);
      forall a | a in agents && !a.seated
        ensures a in Unseated(agents)
      {
        if a != agents[0] {
          assert a in agents[1..];
        }
      }
    }
  }

  lemma {:induction false} SeatedCountAppend(a: seq<Agent>, b: seq<Agent>)
    ensures SeatedCount(a + b) == SeatedCount(a) + SeatedCount(b)
  {
    if |a| == 0 {
      assert a + b == b;
    } else {
      assert (a + b)[0] == a[0];
      assert (a + b)[1..] == a[1..] + b;
      SeatedCountAppend(a[1..], b);
    }
  }

  /** The inner `forEach` of `checkRoundResult`: the distance from `(x, y)`
      to the nearest chair (fake, occupied or not), `Inf` when there is no chair. */
  function MinDist(cs: seq<ChairState>, x: int, y: int): Dist
  {
    if |cs| == 0 then Inf
    else
      var m := MinDist(cs[..|cs| - 1], x, y);
      var d := Fin(ChairDist2(cs[|cs| - 1], x, y));
      if Greater(m, d) then d else m
  }

  lemma {:induction false} MinDistIsMinimum(cs: seq<ChairState>, x: int, y: int)
    ensures MinDist(cs, x, y) == Inf <==> |cs| == 0
    ensures MinDist(cs, x, y).Fin? ==>
      (exists k :: 0 <= k < |cs| && MinDist(cs, x, y).d2 == ChairDist2(cs[k], x, y)) &&
      (forall k :: 0 <= k < |cs| ==> MinDist(cs, x, y).d2 <= ChairDist2(cs[k], x, y))
  {
    if |cs| > 0 {
      var p := cs[..|cs| - 1];
      MinDistIsMinimum(p, x, y);
      var m := MinDist(p, x, y);
      var d := ChairDist2(cs[|cs| - 1], x, y);
      if Greater(m, Fin(d)) {
        assert MinDist(cs, x, y).d2 == d;
        forall k | 0 <= k < |cs|
          ensures d <= ChairDist2(cs[k], x, y)
        {
          if k < |cs| - 1 {
            assert cs[k] == p[k];
          }
        }
      } else {
        var k0 :| 0 <= k0 < |p| && m.d2 == ChairDist2(p[k0], x, y);
        assert cs[k0] == p[k0];
        forall k | 0 <= k < |cs|
          ensures m.d2 <= ChairDist2(cs[k], x, y)
        {
          if k < |cs| - 1 {
            assert cs[k] == p[k];
          }
        }
      }
    }
  }

  /** `maxMinDistance` and the index of `eliminated` after the outer `forEach`:
      the loop starts from `(-1, 0)` and moves on a strictly greater distance only. */
  function Furthest(ds: seq<Dist>): (Dist, nat)
  {
    if |ds| == 0 then (Fin(-1), 0)
    else
      var (best, i) := Furthest(ds[..|ds| - 1]);
      var d := ds[|ds| - 1];
      if Greater(d, best) then (d, |ds| - 1) else (best, i)
  }

  predicate NonNegative(ds: seq<Dist>)
  {
    forall j :: 0 <= j < |ds| ==> ds[j].Inf? || ds[j].d2 >= 0
  }

  /** Over non-negative distances, `Furthest` finds the first maximum. */
  lemma {:induction false} FurthestIsFirstMaximum(ds: seq<Dist>)
    requires |ds| > 0 && NonNegative(ds)
    ensures var (best, i) := Furthest(ds);
      i < |ds| && best == ds[i] &&
      (forall j :: 0 <= j < |ds| ==> !Greater(ds[j], best)) &&
      (forall j :: 0 <= j < i ==> Greater(best, ds[j]))
  {
    var p := ds[..|ds| - 1];
    if |p| == 0 {
      assert Greater(ds[0], Fin(-1));
    } else {
      assert NonNegative(p) by {
        forall j | 0 <= j < |p|
          ensures p[j].Inf? || p[j].d2 >= 0
        {
          assert p[j] == ds[j];
        }
      }
      FurthestIsFirstMaximum(p);
      var (best, i) := Furthest(p);
      assert forall j :: 0 <= j < |p| ==> p[j] == ds[j];
    }
  }

  /** Each unseated agent's distance to its nearest chair. */
  function Distances(unseated: seq<Agent>, cs: seq<ChairState>): (ds: seq<Dist>)
    ensures |ds| == |unseated|
    ensures NonNegative(ds)
  {
    var ds := seq(|unseated|, i requires 0 <= i < |unseated| => MinDist(cs, unseated[i].x, unseated[i].y));
    assert NonNegative(ds) by {
      forall j | 0 <= j < |ds|
        ensures ds[j].Inf? || ds[j].d2 >= 0
      {
        MinDistIsMinimum(cs, unseated[j].x, unseated[j].y);
      }
    }
    ds
  }

  /** The position in `unseated` of the agent `checkRoundResult` eliminates:
      the only one, or the first whose nearest chair is furthest. */
  function Victim(unseated: seq<Agent>, cs: seq<ChairState>): (v: nat)
    requires |unseated| > 0
    ensures v < |unseated|
  {
    if |unseated| == 1 then 0
    else
      FurthestIsFirstMaximum(Distances(unseated, cs));
      Furthest(Distances(unseated, cs)).1
  }

  /** The victim's nearest chair is at least as far as every other unseated
      agent's, and strictly further than those before it. */
  lemma VictimIsFurthest(unseated: seq<Agent>, cs: seq<ChairState>)
    requires |unseated| > 0
    ensures var ds := Distances(unseated, cs);
      var v := Victim(unseated, cs);
      (forall j :: 0 <= j < |unseated| ==> !Greater(ds[j], ds[v])) &&
      (forall j :: 0 <= j < v ==> Greater(ds[v], ds[j]))
  {
    var ds := Distances(unseated, cs);
    if |unseated| > 1 {
      FurthestIsFirstMaximum(ds);
    } else {
      assert !Greater(ds[0], ds[0]);
    }
  }

  /** Skipping the search for a single unseated agent changes nothing: the
      loop would pick it too. */
  lemma LoneAgentSearchAgrees(unseated: seq<Agent>, cs: seq<ChairState>)
    requires |unseated| == 1
    ensures Furthest(Distances(unseated, cs)).1 == Victim(unseated, cs)
  {
    FurthestIsFirstMaximum(Distances(unseated, cs));
  }

  /** The victim sits further from the chairs than some other unseated agent,
      or the two tie and the victim comes first. */
  lemma VictimPreferredOver(unseated: seq<Agent>, cs: seq<ChairState>, j: nat)
    requires j < |unseated| && j != Victim(unseated, cs)
    ensures var ds := Distances(unseated, cs);
      var v := Victim(unseated, cs);
      Greater(ds[v], ds[j]) || (ds[v] == ds[j] && v < j)
  {
    VictimIsFurthest(unseated, cs);
  }

  /** The worked tie-break: unseated agents whose nearest chairs are 5, 12, 12
      and 3 away (squared: 25, 144, 144, 9) lose the second agent, the first of
      the two at 12, and not the one at 3. */
  lemma TieBreakExample()
    ensures Furthest([Fin(25), Fin(144), Fin(144), Fin(9)]) == (Fin(144), 1)
  {
    var ds := [Fin(25), Fin(144), Fin(144), Fin(9)];
    assert ds[..1] == [Fin(25)] && [Fin(25)][..0] == [];
    assert Furthest(ds[..1]) == (Fin(25), 0);
    assert ds[..2][..1] == ds[..1];
    assert Furthest(ds[..2]) == (Fin(144), 1);
    assert ds[..3][..2] == ds[..2];
    assert Furthest(ds[..3]) == (Fin(144), 1);
    assert ds[..3] == ds[..|ds| - 1];
  }

  method MinChairDistance(chairs: seq<Chair>, x: int, y: int) returns (minDistance: Dist)
    ensures minDistance == MinDist(Views(chairs), x, y)
  {
    ghost var vs := Views(chairs);
    minDistance := Inf;
    var i := 0;
    while i < |chairs|
      invariant 0 <= i <= |chairs|
      invariant minDistance == MinDist(vs[..i], x, y)
    {
      var distance := Fin(Dist2(x, y, chairs[i].x, chairs[i].y));
      if Greater(minDistance, distance) {
        minDistance := distance;
      }
      assert vs[..i + 1][..i] == vs[..i];
      i := i + 1;
    }
    assert vs[..i] == vs;
  }

  method PickEliminated(unseated: seq<Agent>, chairs: seq<Chair>) returns (eliminated: nat)
    requires |unseated| > 0
    ensures eliminated == Victim(unseated, Views(chairs))
  {
    eliminated := 0;
    if |unseated| > 1 {
      ghost var ds := Distances(unseated, Views(chairs));
      var maxMinDistance := Fin(-1);
      var i := 0;
      while i < |unseated|
        invariant 0 <= i <= |unseated|
        invariant (maxMinDistance, eliminated) == Furthest(ds[..i])
      {
        var minDistance := MinChairDistance(chairs, unseated[i].x, unseated[i].y);
        if Greater(minDistance, maxMinDistance) {
          maxMinDistance := minDistance;
          eliminated := i;
        }
        assert ds[..i + 1][..i] == ds[..i];
        i := i + 1;
      }
      assert ds[..i] == ds;
    }
  }
}
