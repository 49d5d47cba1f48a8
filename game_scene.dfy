/** The round state machine of the game scene: a round starts with one chair
    fewer than agents, the music stops, chairs activate, everyone scrambles,
    and the judge eliminates one unseated agent until the player is out or
    alone. */
module Scenes {
  import opened Common
  import opened LevelConfig
  import opened Chairs
  import opened BotPlayers
  import opened Players
  import opened Elimination

  /** One player and five bots. */
  const INITIAL_PLAYERS: int := 6
  /** The round is judged this long after the music stops. */
  const ROUND_CHECK_DELAY_MS: int := 6000
  /** Radius of the circle the agents start on. */
  const AGENT_RADIUS: int := 280

  /** The scene's status line, as the game sets it. */
  datatype Status =
    | Idle
    | MusicPlaying
    | MusicStopped
    | BotOut(who: AgentId)
    | Won
    | Lost

  /** What judging a round decided; the source schedules the follow-up
      (`gameOver(false)` after 1000 ms, or the next round after 2000 ms). */
  datatype Verdict = NobodyOut | PlayerOut | BotEliminated(who: AgentId)

  datatype Scene = Scene(
    mechanic: Mechanic,
    player: PlayerState,
    bots: seq<BotState>,
    chairs: seq<ChairState>,
    isRoundActive: bool,
    isMusicPlaying: bool,
    currentRound: int,
    totalPlayers: int,
    status: Status)

  // ----- agents -----

  function PlayerAgent(p: PlayerState): Agent
  {
    Agent(PLAYER_ID, p.x, p.y, p.seated)
  }

  function BotAgent(b: BotState): Agent
  {
    Agent(b.index, b.x, b.y, b.seated)
  }

  function BotAgents(bs: seq<BotState>): (agents: seq<Agent>)
    ensures |agents| == |bs|
  {
    seq(|bs|, i requires 0 <= i < |bs| => BotAgent(bs[i]))
  }

  /** `[this.player, ...this.bots]`. */
  function Agents(s: Scene): seq<Agent>
  {
    [PlayerAgent(s.player)] + BotAgents(s.bots)
  }

  /** Bots are told apart by their numbers, all of them 1 or more (0 is the player). */
  ghost predicate BotIdsOk(bs: seq<BotState>)
  {
    (forall i :: 0 <= i < |bs| ==> bs[i].index >= 1) &&
    (forall i, j :: 0 <= i < j < |bs| ==> bs[i].index != bs[j].index)
  }

  /** `this.bots.indexOf(bot)`, by the bot's number. */
  function IndexOfBot(bs: seq<BotState>, id: AgentId): (r: Option<nat>)
    ensures r.Some? ==> r.value < |bs| && bs[r.value].index == id &&
                        forall j :: 0 <= j < r.value ==> bs[j].index != id
    ensures r.None? ==> forall j :: 0 <= j < |bs| ==> bs[j].index != id
  {
    if |bs| == 0 then None
    else if bs[0].index == id then Some(0)
    else match IndexOfBot(bs[1..], id)
      case None => None
      case Some(j) => Some(j + 1)
  }

  // ----- starting a round -----

  /** Round 1 always plays the plain mechanic; later rounds play the special
      one `pick` draws from the remaining four. */
  function ChooseMechanic(round: int, pick: nat): Mechanic
    requires pick < 4
  {
    if round == 1 then MECHANICS[0] else MECHANICS[1 + pick]
  }

  /** `createChairs`: one chair fewer than agents, plus three decoys at the end
      of the list in the fake-chair mechanic. `spot(i, n)` is the position of
      chair `i` of `n` on the circle of radius 200 around the centre. */
  function ChairPlan(m: Mechanic, totalPlayers: int, spot: (nat, nat) -> (int, int)): seq<ChairState>
  {
    var fakes := m.specialMechanic == MovingChairsWithFakes;
    var chairCount := totalPlayers - 1;
    var totalChairs := if fakes then chairCount + 3 else chairCount;
    var n := if totalChairs < 0 then 0 else totalChairs;
    seq(n, i requires 0 <= i < n => NewChair(spot(i, n).0, spot(i, n).1, fakes && i >= chairCount))
  }

  /** The bots `createPlayers` makes: numbers 1 to `n - 1`, all hard, at spots
      1 to `n - 1` of `n` on the circle of radius 280; `delays(i)` is bot
      `i`'s reaction-delay draw. */
  function BotRoster(n: int, spot: (nat, nat) -> (int, int), delays: nat -> int): (bs: seq<BotState>)
    ensures |bs| == if n <= 1 then 0 else n - 1
  {
    if n <= 1 then [] else BotsAt(n - 1, n as nat, spot, delays)
  }

  function BotsAt(count: nat, n: nat, spot: (nat, nat) -> (int, int), delays: nat -> int): (bs: seq<BotState>)
    ensures |bs| == count
  {
    seq(count, i requires 0 <= i < count =>
      NewBot(i + 1, Hard, spot(i + 1, n).0, spot(i + 1, n).1, delays(i + 1)))
  }

  /** `startRound`: clear the entities, choose the mechanic, create chairs and
      agents, start the music. */
  function RoundStart(s: Scene, pick: nat, chairSpot: (nat, nat) -> (int, int),
                      agentSpot: (nat, nat) -> (int, int), delays: nat -> int): Scene
    requires pick < 4
  {
    var m := ChooseMechanic(s.currentRound, pick);
    var n := if s.totalPlayers < 0 then 0 else s.totalPlayers;
    s.(mechanic := m,
       chairs := ChairPlan(m, s.totalPlayers, chairSpot),
       player := NewPlayer(agentSpot(0, n).0, agentSpot(0, n).1),
       bots := BotRoster(s.totalPlayers, agentSpot, delays),
       isRoundActive := true,
       isMusicPlaying := true,
       status := MusicPlaying)
  }

  /** The scene before `create` runs `startRound` (`init` resets the counters). */
  function Initial(): Scene
  {
    Scene(MECHANICS[0], NewPlayer(0, 0), [], [], false, false, 1, INITIAL_PLAYERS, Idle)
  }

  // ----- stopping the music -----

  function ActivateAll(cs: seq<ChairState>): (r: seq<ChairState>)
    ensures |r| == |cs|
  {
    seq(|cs|, i requires 0 <= i < |cs| => AfterSetActive(cs[i], true))
  }

  /** Chairs moved to the drawn positions `draw(i)`. */
  function Relocate(cs: seq<ChairState>, draw: nat -> (int, int)): (r: seq<ChairState>)
    ensures |r| == |cs|
  {
    seq(|cs|, i requires 0 <= i < |cs| => cs[i].(x := draw(i).0, y := draw(i).1))
  }

  /** Bots sent to the corners `corner(i + 1)` picks (the player takes `corner(0)`). */
  function TeleportBots(bs: seq<BotState>, width: int, height: int, corner: nat -> nat): (r: seq<BotState>)
    requires forall i :: corner(i) < 4
    ensures |r| == |bs|
  {
    seq(|bs|, i requires 0 <= i < |bs| =>
      bs[i].(velocity := Still, x := BotCorner(width, height, corner(i + 1)).0,
                                y := BotCorner(width, height, corner(i + 1)).1))
  }

  /** The delay after `stopMusic` before the chairs activate. */
  function ActivationDelay(sp: Special): nat
  {
    match sp
    case MovingChairsWithFakes => 0
    case TeleportPlayers => 300
    case MovingChairs => 300
    case RandomChairPositions => 500
    case NoSpecial => 0
  }

  /** `stopMusic`, up to the delayed activation: the fake-chair and plain
      mechanics activate the chairs at once; the others first teleport agents
      or move chairs, and the chairs activate later (`ActivateAllChairs`). The
      physics world bounds are the camera's, so the player's corners are the
      bots'. */
  function MusicStop(s: Scene, draw: nat -> (int, int), corner: nat -> nat, width: int, height: int): Scene
    requires forall i :: corner(i) < 4
  {
    var s1 := s.(isMusicPlaying := false, status := MusicStopped);
    match s.mechanic.specialMechanic
    case MovingChairsWithFakes => s1.(chairs := ActivateAll(s.chairs))
    case TeleportPlayers =>
      s1.(player := s.player.(vx := 0.0, vy := 0.0,
                              x := PlayerCorner(0, width, height, corner(0)).0,
                              y := PlayerCorner(0, width, height, corner(0)).1),
          bots := TeleportBots(s.bots, width, height, corner))
    case MovingChairs => s1.(chairs := Relocate(s.chairs, draw))
    case RandomChairPositions => s1.(chairs := Relocate(s.chairs, draw))
    case NoSpecial => s1.(chairs := ActivateAll(s.chairs))
  }

  /** The delayed `chairs.forEach(chair => chair.setChairActive(true))`. */
  function ActivateAllChairs(s: Scene): Scene
  {
    s.(chairs := ActivateAll(s.chairs))
  }

  /** The overlap callback `createPlayers` registers between every agent and
      every fake chair: contact reveals chair `k`. Real chairs get a collider
      instead, which only blocks movement (physics, not modelled). */
  function ChairContact(s: Scene, k: nat): Scene
    requires k < |s.chairs|
  {
    if s.chairs[k].isFake then s.(chairs := s.chairs[k := AfterReveal(s.chairs[k])]) else s
  }

  // ----- one frame -----

  /** The bots' updates in list order, each seeing the chairs as the earlier
      ones left them; `rolls(i)` is bot `i`'s `Math.random()` draw. */
  function BotsTick(bs: seq<BotState>, cs: seq<ChairState>, canMove: bool, rolls: nat -> real)
    : (r: (seq<BotState>, seq<ChairState>))
    ensures |r.0| == |bs|
  {
    if |bs| == 0 then ([], cs)
    else
      var (done, cs1) := BotsTick(bs[..|bs| - 1], cs, canMove, rolls);
      var (b, cs2) := BotUpdate(bs[|bs| - 1], cs1, canMove, rolls(|bs| - 1));
      (done + [b], cs2)
  }

  /** `update()`: nothing while no round is active; otherwise the player, then
      every bot. */
  function SceneTick(s: Scene, joy: Option<Stick>, keys: Option<Keys>, rolls: nat -> real): Scene
  {
    if !s.isRoundActive then s
    else
      var (p, cs1) := PlayerUpdate(s.player, s.chairs, s.isMusicPlaying, joy, keys);
      var (bs, cs2) := BotsTick(s.bots, cs1, s.isMusicPlaying, rolls);
      s.(player := p, bots := bs, chairs := cs2)
  }

  // ----- judging a round -----

  /** `checkRoundResult`'s choice. */
  function Judge(s: Scene): Verdict
  {
    var u := Unseated(Agents(s));
    if |u| == 0 then NobodyOut
    else
      var v := u[Victim(u, s.chairs)];
      if v.id == PLAYER_ID then PlayerOut else BotEliminated(v.id)
  }

  /** `checkRoundResult`'s immediate effect: the eliminated agent stops (its
      death animation); an eliminated bot leaves the list and is announced. */
  function AfterJudge(s: Scene): Scene
  {
    AfterVerdict(s, Judge(s))
  }

  function AfterVerdict(s: Scene, v: Verdict): Scene
  {
    match v
    case NobodyOut => s
    case PlayerOut => s.(player := s.player.(vx := 0.0, vy := 0.0))
    case BotEliminated(id) => s.(bots := DropBot(s.bots, id), status := BotOut(id))
  }

  /** `bots.splice(indexOf(bot), 1)` guarded by the index being found. */
  function DropBot(bs: seq<BotState>, id: AgentId): seq<BotState>
  {
    match IndexOfBot(bs, id)
    case None => bs
    case Some(j) => bs[..j] + bs[j + 1..]
  }

  function StopAll(bs: seq<BotState>): (r: seq<BotState>)
    ensures |r| == |bs|
  {
    seq(|bs|, i requires 0 <= i < |bs| => bs[i].(velocity := Still))
  }

  /** `gameOver(won)`. */
  function Finish(s: Scene, won: bool): Scene
  {
    s.(isRoundActive := false,
       player := s.player.(vx := 0.0, vy := 0.0),
       bots := StopAll(s.bots),
       status := if won then Won else Lost)
  }

  /** The callback 2000 ms after a bot is eliminated: one agent fewer, the next
      round number, and either the win or the next round. */
  function AfterBotOut(s: Scene, pick: nat, chairSpot: (nat, nat) -> (int, int),
                       agentSpot: (nat, nat) -> (int, int), delays: nat -> int): Scene
    requires pick < 4
  {
    var s1 := s.(totalPlayers := s.totalPlayers - 1, currentRound := s.currentRound + 1);
    if s1.totalPlayers == 1 then Finish(s1, true)
    else RoundStart(s1, pick, chairSpot, agentSpot, delays)
  }

  /** `checkRoundResult` together with the callback it schedules: an
      eliminated player is followed by `gameOver(false)` alone, an eliminated
      bot by the 2000 ms callback. */
  function RoundOutcome(s: Scene, pick: nat, chairSpot: (nat, nat) -> (int, int),
                        agentSpot: (nat, nat) -> (int, int), delays: nat -> int): Scene
    requires pick < 4
  {
    match Judge(s)
    case NobodyOut => s
    case PlayerOut => Finish(AfterJudge(s), false)
    case BotEliminated(_) => AfterBotOut(AfterJudge(s), pick, chairSpot, agentSpot, delays)
  }

  // ----- the invariant -----

  /** A round can still be played or judged: not waiting for the next round
      after a bot's elimination, and the game neither won nor lost. */
  predicate Live(s: Scene)
  {
    !s.status.BotOut? && s.status != Won && s.status != Lost
  }

  /** What holds between events: the counters add up to seven, one bot fewer
      than agents remain, the chairs are well formed, the seated agents are
      exactly the occupants, and (until the game is won) there is one real
      chair fewer than agents. */
  ghost predicate SceneInv(s: Scene)
  {
    1 <= s.totalPlayers <= INITIAL_PLAYERS &&
    s.currentRound + s.totalPlayers == INITIAL_PLAYERS + 1 &&
    |s.bots| + 1 == s.totalPlayers - (if s.status.BotOut? then 1 else 0) &&
    (s.status == Won <==> s.totalPlayers == 1) &&
    BotIdsOk(s.bots) &&
    AllWellFormed(s.chairs) &&
    SeatedCount(Agents(s)) == OccupiedCount(s.chairs) &&
    (s.status != Won ==> RealCount(s.chairs) + 1 == s.totalPlayers)
  }

  // ----- helper facts -----

  lemma SeatedCountSingle(a: Agent)
    ensures SeatedCount([a]) == if a.seated then 1 else 0
  {
    assert [a][1..] == [];
  }

  /** The seated agents are the player (if seated) and the seated bots. */
  lemma SeatedAgents(s: Scene)
    ensures SeatedCount(Agents(s)) ==
      (if s.player.seated then 1 else 0) + SeatedCount(BotAgents(s.bots))
  {
    SeatedCountAppend([PlayerAgent(s.player)], BotAgents(s.bots));
    SeatedCountSingle(PlayerAgent(s.player));
  }

  lemma BotAgentsSplit(bs: seq<BotState>, j: nat)
    requires j < |bs|
    ensures SeatedCount(BotAgents(bs)) ==
      SeatedCount(BotAgents(bs[..j] + bs[j + 1..])) + (if bs[j].seated then 1 else 0)
  {
    var a, b := bs[..j], bs[j + 1..];
    assert BotAgents(bs) == BotAgents(a) + [BotAgent(bs[j])] + BotAgents(b);
    assert BotAgents(a + b) == BotAgents(a) + BotAgents(b);
    SeatedCountAppend(BotAgents(a) + [BotAgent(bs[j])], BotAgents(b));
    SeatedCountAppend(BotAgents(a), [BotAgent(bs[j])]);
    SeatedCountAppend(BotAgents(a), BotAgents(b));
    SeatedCountSingle(BotAgent(bs[j]));
  }

  lemma BotAgentsSnoc(bs: seq<BotState>, b: BotState)
    ensures SeatedCount(BotAgents(bs + [b])) == SeatedCount(BotAgents(bs)) + (if b.seated then 1 else 0)
  {
    assert BotAgents(bs + [b]) == BotAgents(bs) + [BotAgent(b)];
    SeatedCountAppend(BotAgents(bs), [BotAgent(b)]);
    SeatedCountSingle(BotAgent(b));
  }

  /** Two chair lists that agree, chair by chair, on which are fake and which
      are occupied have the same counts. */
  lemma {:induction false} SameCounts(cs: seq<ChairState>, ds: seq<ChairState>)
    requires |cs| == |ds|
    requires forall k :: 0 <= k < |cs| ==> cs[k].isFake == ds[k].isFake && cs[k].occupied == ds[k].occupied
    ensures OccupiedCount(cs) == OccupiedCount(ds) && RealCount(cs) == RealCount(ds)
  {
    if cs != [] {
      SameCounts(cs[1..], ds[1..]);
    }
  }

  /** A list whose chairs from `c` on are exactly the fake ones has `c` real chairs. */
  lemma {:induction false} RealCountPrefix(cs: seq<ChairState>, c: nat)
    requires c <= |cs|
    requires forall k :: 0 <= k < |cs| ==> (cs[k].isFake <==> k >= c)
    ensures RealCount(cs) == c
  {
    if cs != [] {
      if c == 0 {
        RealCountPrefix(cs[1..], 0);
      } else {
        RealCountPrefix(cs[1..], c - 1);
      }
    }
  }

  lemma {:induction false} NoneOccupied(cs: seq<ChairState>)
    requires forall k :: 0 <= k < |cs| ==> !cs[k].occupied
    ensures OccupiedCount(cs) == 0
  {
    if cs != [] {
      NoneOccupied(cs[1..]);
    }
  }

  lemma {:induction false} NobodySeated(bs: seq<BotState>)
    requires forall i :: 0 <= i < |bs| ==> !bs[i].seated
    ensures SeatedCount(BotAgents(bs)) == 0
  {
    if bs != [] {
      var p := bs[..|bs| - 1];
      assert bs == p + [bs[|bs| - 1]];
      NobodySeated(p);
      BotAgentsSnoc(p, bs[|bs| - 1]);
    }
  }

  // ----- the mechanics and the chair plan -----

  /** Round 1 is always plain; every later round has a special mechanic and
      at most 12 seconds of music. */
  lemma MechanicChoice(round: int, pick: nat)
    requires pick < 4
    ensures round == 1 ==> ChooseMechanic(round, pick) == MECHANICS[0]
    ensures round != 1 ==> ChooseMechanic(round, pick) == MECHANICS[1 + pick]
    ensures round != 1 ==> ChooseMechanic(round, pick).specialMechanic != NoSpecial
    ensures round != 1 ==> ChooseMechanic(round, pick).musicDuration <= 12
  {
  }

  /** The chair plan: one real chair fewer than agents, three decoys exactly in
      the fake-chair mechanic, placed last; no chair starts occupied or
      active, so nobody can sit before the music stops. */
  lemma ChairPlanShape(m: Mechanic, totalPlayers: int, spot: (nat, nat) -> (int, int))
    requires totalPlayers >= 1
    ensures var cs := ChairPlan(m, totalPlayers, spot);
      var fakes := m.specialMechanic == MovingChairsWithFakes;
      RealCount(cs) == totalPlayers - 1 &&
      FakeCount(cs) == (if fakes then 3 else 0) &&
      |cs| == totalPlayers - 1 + (if fakes then 3 else 0) &&
      OccupiedCount(cs) == 0 &&
      AllWellFormed(cs) &&
      (forall k :: 0 <= k < |cs| ==> (cs[k].isFake <==> fakes && k >= totalPlayers - 1)) &&
      (forall k :: 0 <= k < |cs| ==> !cs[k].chairActive && !Available(cs[k]))
  {
    var cs := ChairPlan(m, totalPlayers, spot);
    var fakes := m.specialMechanic == MovingChairsWithFakes;
    RealCountPrefix(cs, totalPlayers - 1);
    RealPlusFake(cs);
    NoneOccupied(cs);
  }

  /** The roster: bots numbered 1 to `n - 1` in order, all hard, none seated,
      each with its reaction-delay draw. */
  lemma RosterShape(n: int, spot: (nat, nat) -> (int, int), delays: nat -> int)
    requires n >= 1
    ensures var bs := BotRoster(n, spot, delays);
      |bs| == n - 1 && BotIdsOk(bs) && SeatedCount(BotAgents(bs)) == 0 &&
      forall i :: 0 <= i < |bs| ==>
        bs[i].index == i + 1 && bs[i].difficulty == Hard && !bs[i].seated &&
        bs[i].reactionDelay == delays(i + 1)
  {
    var bs := BotRoster(n, spot, delays);
    if n > 1 {
      var b2 := BotsAt(n - 1, n as nat, spot, delays);
      assert bs == b2;
      assert forall i :: 0 <= i < |b2| ==> b2[i] == NewBot(i + 1, Hard, spot(i + 1, n as nat).0, spot(i + 1, n as nat).1, delays(i + 1));
    }
    NobodySeated(bs);
  }

  // ----- each event keeps the invariant -----

  lemma RoundStartKeepsInv(s: Scene, pick: nat, chairSpot: (nat, nat) -> (int, int),
                           agentSpot: (nat, nat) -> (int, int), delays: nat -> int)
    requires pick < 4
    requires 2 <= s.totalPlayers <= INITIAL_PLAYERS && s.currentRound + s.totalPlayers == INITIAL_PLAYERS + 1
    ensures SceneInv(RoundStart(s, pick, chairSpot, agentSpot, delays))
    ensures Live(RoundStart(s, pick, chairSpot, agentSpot, delays))
  {
    var s' := RoundStart(s, pick, chairSpot, agentSpot, delays);
    ChairPlanShape(s'.mechanic, s.totalPlayers, chairSpot);
    RosterShape(s.totalPlayers, agentSpot, delays);
    SeatedAgents(s');
  }

  /** The game starts in round 1 of 6 agents with the plain mechanic, five
      bots and five chairs. */
  lemma GameStartShape(pick: nat, chairSpot: (nat, nat) -> (int, int),
                       agentSpot: (nat, nat) -> (int, int), delays: nat -> int)
    requires pick < 4
    ensures var s := RoundStart(Initial(), pick, chairSpot, agentSpot, delays);
      SceneInv(s) && Live(s) && s.mechanic == MECHANICS[0] && s.currentRound == 1 &&
      |s.bots| == 5 && |s.chairs| == 5 && s.isRoundActive && s.isMusicPlaying
  {
    RoundStartKeepsInv(Initial(), pick, chairSpot, agentSpot, delays);
  }

  lemma MusicStopKeepsInv(s: Scene, draw: nat -> (int, int), corner: nat -> nat, width: int, height: int)
    requires forall i :: corner(i) < 4
    requires SceneInv(s) && Live(s)
    ensures SceneInv(MusicStop(s, draw, corner, width, height))
    ensures Live(MusicStop(s, draw, corner, width, height))
  {
    var s1 := s.(isMusicPlaying := false, status := MusicStopped);
    match s.mechanic.specialMechanic
    case TeleportPlayers =>
      SeatedTeleport(s.bots, width, height, corner);
      AgentsMovedKeepInv(s1, MusicStop(s, draw, corner, width, height).player,
                         TeleportBots(s.bots, width, height, corner));
    case MovingChairs =>
      ChairsRedrawnKeepInv(s1, Relocate(s.chairs, draw));
    case RandomChairPositions =>
      ChairsRedrawnKeepInv(s1, Relocate(s.chairs, draw));
    case MovingChairsWithFakes =>
      ChairsRedrawnKeepInv(s1, ActivateAll(s.chairs));
    case NoSpecial =>
      ChairsRedrawnKeepInv(s1, ActivateAll(s.chairs));
  }

  /** Agents that keep their seats and their numbers keep the invariant. */
  lemma AgentsMovedKeepInv(s: Scene, p: PlayerState, bs: seq<BotState>)
    requires SceneInv(s) && p.seated == s.player.seated && |bs| == |s.bots|
    requires forall i :: 0 <= i < |bs| ==> bs[i].index == s.bots[i].index
    requires SeatedCount(BotAgents(bs)) == SeatedCount(BotAgents(s.bots))
    ensures SceneInv(s.(player := p, bots := bs))
  {
    SeatedAgents(s);
    SeatedAgents(s.(player := p, bots := bs));
  }

  /** Chairs that keep their kind, their occupation and their well-formedness
      keep the invariant. */
  lemma ChairsRedrawnKeepInv(s: Scene, cs: seq<ChairState>)
    requires SceneInv(s) && |cs| == |s.chairs|
    requires forall k :: 0 <= k < |cs| ==>
      cs[k].isFake == s.chairs[k].isFake && cs[k].occupied == s.chairs[k].occupied && WellFormed(cs[k])
    ensures SceneInv(s.(chairs := cs))
  {
    SameCounts(s.chairs, cs);
    SeatedAgents(s);
    SeatedAgents(s.(chairs := cs));
  }

  lemma SeatedTeleport(bs: seq<BotState>, width: int, height: int, corner: nat -> nat)
    requires forall i :: corner(i) < 4
    ensures SeatedCount(BotAgents(TeleportBots(bs, width, height, corner))) == SeatedCount(BotAgents(bs))
    ensures forall i :: 0 <= i < |bs| ==> TeleportBots(bs, width, height, corner)[i].index == bs[i].index
  {
    SeatedFlagsAgree(bs, TeleportBots(bs, width, height, corner));
  }

  /** Bot lists that agree on who is seated count the same seated agents. */
  lemma {:induction false} SeatedFlagsAgree(bs: seq<BotState>, cs: seq<BotState>)
    requires |bs| == |cs|
    requires forall i :: 0 <= i < |bs| ==> bs[i].seated == cs[i].seated
    ensures SeatedCount(BotAgents(bs)) == SeatedCount(BotAgents(cs))
  {
    if bs != [] {
      var n := |bs| - 1;
      assert bs == bs[..n] + [bs[n]];
      assert cs == cs[..n] + [cs[n]];
      SeatedFlagsAgree(bs[..n], cs[..n]);
      BotAgentsSnoc(bs[..n], bs[n]);
      BotAgentsSnoc(cs[..n], cs[n]);
    }
  }

  lemma ActivateKeepsInv(s: Scene)
    requires SceneInv(s)
    ensures SceneInv(ActivateAllChairs(s))
  {
    SameCounts(s.chairs, ActivateAllChairs(s).chairs);
    SeatedAgents(s);
    SeatedAgents(ActivateAllChairs(s));
  }

  /** Touching a chair claims nothing: only a decoy's `revealed` flag can
      change, every chair stays exactly as available as it was, and the
      invariant holds. */
  lemma ContactKeepsInv(s: Scene, k: nat)
    requires SceneInv(s) && k < |s.chairs|
    ensures var s' := ChairContact(s, k);
      SceneInv(s') && |s'.chairs| == |s.chairs| &&
      s'.player == s.player && s'.bots == s.bots &&
      (forall j :: 0 <= j < |s.chairs| ==>
         s'.chairs[j].occupied == s.chairs[j].occupied &&
         s'.chairs[j].occupant == s.chairs[j].occupant &&
         (Available(s'.chairs[j]) <==> Available(s.chairs[j]))) &&
      (s.chairs[k].isFake ==> s'.chairs == s.chairs[k := s.chairs[k].(revealed := true)]) &&
      (!s.chairs[k].isFake ==> s' == s)
  {
    var s' := ChairContact(s, k);
    SameCounts(s.chairs, s'.chairs);
    SeatedAgents(s);
    SeatedAgents(s');
  }

  /** The bots' pass over the chairs: each seat a bot takes is one more
      occupied chair, and nothing else about the chairs' counts changes. */
  lemma {:induction false} BotsTickClaims(bs: seq<BotState>, cs: seq<ChairState>, canMove: bool, rolls: nat -> real)
    ensures var (bs', cs') := BotsTick(bs, cs, canMove, rolls);
      |cs'| == |cs| &&
      (forall i :: 0 <= i < |bs| ==> bs'[i].index == bs[i].index) &&
      OccupiedCount(cs') + SeatedCount(BotAgents(bs)) == OccupiedCount(cs) + SeatedCount(BotAgents(bs')) &&
      RealCount(cs') == RealCount(cs) &&
      (AllWellFormed(cs) ==> AllWellFormed(cs'))
  {
    if |bs| > 0 {
      var n := |bs| - 1;
      var p := bs[..n];
      BotsTickClaims(p, cs, canMove, rolls);
      var (done, cs1) := BotsTick(p, cs, canMove, rolls);
      var (b, cs2) := BotUpdate(bs[n], cs1, canMove, rolls(n));
      BotUpdateClaimsAtMostOne(bs[n], cs1, canMove, rolls(n));
      assert bs == p + [bs[n]];
      BotAgentsSnoc(p, bs[n]);
      BotAgentsSnoc(done, b);
      assert forall i :: 0 <= i < n ==> (done + [b])[i] == done[i];
    }
  }

  lemma TickKeepsInv(s: Scene, joy: Option<Stick>, keys: Option<Keys>, rolls: nat -> real)
    requires SceneInv(s)
    ensures SceneInv(SceneTick(s, joy, keys, rolls))
    ensures Live(s) ==> Live(SceneTick(s, joy, keys, rolls))
  {
    if s.isRoundActive {
      var (p, cs1) := PlayerUpdate(s.player, s.chairs, s.isMusicPlaying, joy, keys);
      PlayerUpdateClaimsAtMostOne(s.player, s.chairs, s.isMusicPlaying, joy, keys);
      BotsTickClaims(s.bots, cs1, s.isMusicPlaying, rolls);
      SeatedAgents(s);
      SeatedAgents(SceneTick(s, joy, keys, rolls));
    }
  }

  /** Pigeonhole: while the round is live, one agent more than real chairs
      means somebody is left standing, so judging always eliminates someone. */
  lemma JudgeAlwaysEliminates(s: Scene)
    requires SceneInv(s) && Live(s)
    ensures |Unseated(Agents(s))| >= 1
    ensures Judge(s) != NobodyOut
  {
    OccupiedAtMostReal(s.chairs);
    UnseatedCount(Agents(s));
  }

  /** The eliminated agent is an unseated agent of the scene, and its nearest
      chair is at least as far as every other unseated agent's. */
  lemma JudgePicksFurthestUnseated(s: Scene)
    requires SceneInv(s) && Live(s)
    ensures |Unseated(Agents(s))| >= 1
    ensures var u := Unseated(Agents(s));
      var v := Victim(u, s.chairs);
      var ds := Distances(u, s.chairs);
      (Judge(s) == PlayerOut <==> u[v] == PlayerAgent(s.player)) &&
      (Judge(s) == PlayerOut ==> !s.player.seated) &&
      (Judge(s).BotEliminated? ==>
         exists j :: 0 <= j < |s.bots| && s.bots[j].index == Judge(s).who && !s.bots[j].seated) &&
      (forall j :: 0 <= j < |u| ==> !Greater(ds[j], ds[v]))
  {
    JudgeAlwaysEliminates(s);
    var u := Unseated(Agents(s));
    var v := Victim(u, s.chairs);
    VictimIsFurthest(u, s.chairs);
    assert u[v] in u;
    assert u[v] in Agents(s);
    if u[v].id != PLAYER_ID {
      assert u[v] in BotAgents(s.bots);
      var j :| 0 <= j < |s.bots| && BotAgents(s.bots)[j] == u[v];
    }
  }

  /** Taking bot `j` out of the list keeps the numbering sound, removes its
      number, and loses its seat from the count. */
  lemma RemoveBot(bs: seq<BotState>, j: nat)
    requires j < |bs| && BotIdsOk(bs)
    ensures var rest := bs[..j] + bs[j + 1..];
      |rest| + 1 == |bs| && BotIdsOk(rest) &&
      (forall i :: 0 <= i < |rest| ==> rest[i].index != bs[j].index) &&
      SeatedCount(BotAgents(bs)) == SeatedCount(BotAgents(rest)) + (if bs[j].seated then 1 else 0)
  {
    var rest := bs[..j] + bs[j + 1..];
    BotAgentsSplit(bs, j);
    assert forall i :: 0 <= i < |rest| ==> rest[i] == (if i < j then bs[i] else bs[i + 1]);
  }

  lemma JudgeKeepsInv(s: Scene)
    requires SceneInv(s) && Live(s)
    ensures SceneInv(AfterJudge(s))
    ensures Judge(s).BotEliminated? ==>
      AfterJudge(s).status == BotOut(Judge(s).who) && |AfterJudge(s).bots| + 1 == |s.bots| &&
      forall i :: 0 <= i < |AfterJudge(s).bots| ==> AfterJudge(s).bots[i].index != Judge(s).who
    ensures Judge(s) == PlayerOut ==> Live(AfterJudge(s)) && AfterJudge(s).bots == s.bots
  {
    JudgePicksFurthestUnseated(s);
    match Judge(s)
    case NobodyOut =>
    case PlayerOut =>
      PlayerOutKeepsInv(s);
    case BotEliminated(id) =>
      var j :| 0 <= j < |s.bots| && s.bots[j].index == id && !s.bots[j].seated;
      BotOutKeepsInv(s, id, j);
  }

  lemma PlayerOutKeepsInv(s: Scene)
    requires SceneInv(s) && Live(s)
    ensures var s' := AfterVerdict(s, PlayerOut);
      SceneInv(s') && Live(s') && s'.bots == s.bots
  {
    SeatedAgents(s);
    SeatedAgents(AfterVerdict(s, PlayerOut));
  }

  /** Taking out an unseated bot `j` keeps the invariant, announces it, and
      leaves no bot with its number. */
  lemma BotOutKeepsInv(s: Scene, id: AgentId, j: nat)
    requires SceneInv(s) && Live(s)
    requires j < |s.bots| && s.bots[j].index == id && !s.bots[j].seated
    ensures var s' := AfterVerdict(s, BotEliminated(id));
      SceneInv(s') && s'.status == BotOut(id) && |s'.bots| + 1 == |s.bots| &&
      forall i :: 0 <= i < |s'.bots| ==> s'.bots[i].index != id
  {
    var k := IndexOfBot(s.bots, id).value;
    assert k == j;
    var s' := AfterVerdict(s, BotEliminated(id));
    assert s'.bots == s.bots[..j] + s.bots[j + 1..];
    RemoveBot(s.bots, j);
    SeatedAgents(s);
    SeatedAgents(s');
  }

  lemma AfterBotOutKeepsInv(s: Scene, pick: nat, chairSpot: (nat, nat) -> (int, int),
                            agentSpot: (nat, nat) -> (int, int), delays: nat -> int)
    requires pick < 4
    requires SceneInv(s) && s.status.BotOut?
    ensures SceneInv(AfterBotOut(s, pick, chairSpot, agentSpot, delays))
    ensures var s' := AfterBotOut(s, pick, chairSpot, agentSpot, delays);
      s'.totalPlayers == s.totalPlayers - 1 && s'.currentRound == s.currentRound + 1 &&
      (s'.status == Won <==> s.bots == []) &&
      (s'.status != Won ==> Live(s') && s'.isRoundActive && s'.isMusicPlaying)
  {
    var s1 := s.(totalPlayers := s.totalPlayers - 1, currentRound := s.currentRound + 1);
    if s1.totalPlayers == 1 {
      var s' := Finish(s1, true);
      SeatedAgents(s1);
      SeatedAgents(s');
      SeatedFlagsAgree(s1.bots, s'.bots);
    } else {
      RoundStartKeepsInv(s1, pick, chairSpot, agentSpot, delays);
    }
  }

  lemma FinishKeepsInv(s: Scene)
    requires SceneInv(s) && Live(s)
    ensures SceneInv(Finish(s, false))
    ensures !Finish(s, false).isRoundActive && Finish(s, false).status == Lost
  {
    var s' := Finish(s, false);
    SeatedAgents(s);
    SeatedAgents(s');
    SeatedFlagsAgree(s.bots, s'.bots);
  }

  /** The lose half of the win/lose rule: once the player is judged out, the
      game is lost whatever the number of agents left, with the counters as
      they were. */
  lemma PlayerOutLoses(s: Scene, pick: nat, chairSpot: (nat, nat) -> (int, int),
                       agentSpot: (nat, nat) -> (int, int), delays: nat -> int)
    requires pick < 4
    requires SceneInv(s) && Live(s) && Judge(s) == PlayerOut
    ensures var s' := RoundOutcome(s, pick, chairSpot, agentSpot, delays);
      SceneInv(s') && s'.status == Lost && !s'.isRoundActive && !Live(s') &&
      s'.totalPlayers == s.totalPlayers && s'.currentRound == s.currentRound
  {
    JudgeKeepsInv(s);
    FinishKeepsInv(AfterJudge(s));
  }

  /** The win half: once a bot is judged out, one agent fewer remain and the
      round number goes up; the game is won exactly when the player is the
      last agent, otherwise the next round is under way. */
  lemma BotOutAdvances(s: Scene, pick: nat, chairSpot: (nat, nat) -> (int, int),
                       agentSpot: (nat, nat) -> (int, int), delays: nat -> int)
    requires pick < 4
    requires SceneInv(s) && Live(s) && Judge(s).BotEliminated?
    ensures var s' := RoundOutcome(s, pick, chairSpot, agentSpot, delays);
      SceneInv(s') &&
      s'.totalPlayers == s.totalPlayers - 1 && s'.currentRound == s.currentRound + 1 &&
      (s'.status == Won <==> s'.totalPlayers == 1) &&
      (s'.status != Won ==> Live(s') && s'.isRoundActive && s'.isMusicPlaying)
  {
    JudgeKeepsInv(s);
    AfterBotOutKeepsInv(AfterJudge(s), pick, chairSpot, agentSpot, delays);
  }

  // ----- consequences -----

  /** At most five bots are eliminated: the game is over by round 6, and a
      won game leaves the player alone in round 6. */
  lemma GameLength(s: Scene)
    requires SceneInv(s)
    ensures 1 <= s.currentRound <= INITIAL_PLAYERS
    ensures s.status == Won ==> s.currentRound == INITIAL_PLAYERS && s.bots == []
  {
  }

  /** A finished game, lost or won, admits no further round event: it is not
      live, the music neither plays nor has just stopped (so neither the music
      stop nor the judgement can run), no bot's elimination is pending (so no
      next round can start), and frames change nothing. */
  lemma GameOverIsFinal(s: Scene, won: bool, joy: Option<Stick>, keys: Option<Keys>, rolls: nat -> real)
    ensures var s' := Finish(s, won);
      !Live(s') && s'.status != MusicPlaying && s'.status != MusicStopped &&
      !s'.status.BotOut? && SceneTick(s', joy, keys, rolls) == s'
  {
    InactiveSceneFrozen(Finish(s, won), joy, keys, rolls);
  }

  /** Once no round is active (the game is over), frames change nothing. */
  lemma InactiveSceneFrozen(s: Scene, joy: Option<Stick>, keys: Option<Keys>, rolls: nat -> real)
    requires !s.isRoundActive
    ensures SceneTick(s, joy, keys, rolls) == s
  {
  }

  /** While the music plays, a frame moves no chair into anyone's possession:
      the chairs are untouched and nobody sits down. */
  lemma {:induction false} MusicBotsNoSeat(bs: seq<BotState>, cs: seq<ChairState>, rolls: nat -> real)
    ensures var (bs', cs') := BotsTick(bs, cs, true, rolls);
      cs' == cs && forall i :: 0 <= i < |bs| ==> bs'[i].seated == bs[i].seated
  {
    if |bs| > 0 {
      var n := |bs| - 1;
      MusicBotsNoSeat(bs[..n], cs, rolls);
      var (done, cs1) := BotsTick(bs[..n], cs, true, rolls);
      assert forall i :: 0 <= i < n ==> (done + [BotUpdate(bs[n], cs1, true, rolls(n)).0])[i] == done[i];
    }
  }

  lemma MusicTickNoSeat(s: Scene, joy: Option<Stick>, keys: Option<Keys>, rolls: nat -> real)
    requires s.isMusicPlaying
    ensures var s' := SceneTick(s, joy, keys, rolls);
      s'.chairs == s.chairs && s'.player.seated == s.player.seated &&
      |s'.bots| == |s.bots| && forall i :: 0 <= i < |s.bots| ==> s'.bots[i].seated == s.bots[i].seated
  {
    if s.isRoundActive {
      var (p, cs1) := PlayerUpdate(s.player, s.chairs, true, joy, keys);
      MusicBotsNoSeat(s.bots, cs1, rolls);
    }
  }

  /** The chairs always activate before the round is judged, and after the
      activation every real free chair is available and no decoy is. */
  lemma ActivationBeforeJudgement(s: Scene, draw: nat -> (int, int), corner: nat -> nat, width: int, height: int)
    requires forall i :: corner(i) < 4
    ensures ActivationDelay(s.mechanic.specialMechanic) < ROUND_CHECK_DELAY_MS
    ensures var s' := MusicStop(s, draw, corner, width, height);
      ActivationDelay(s.mechanic.specialMechanic) == 0 ==>
        forall k :: 0 <= k < |s'.chairs| ==> s'.chairs[k].chairActive
    ensures var s' := MusicStop(s, draw, corner, width, height);
      ActivationDelay(s.mechanic.specialMechanic) > 0 && NoneActive(s.chairs) ==>
        NoneActive(s'.chairs) && forall k :: 0 <= k < |s'.chairs| ==> !Available(s'.chairs[k])
    ensures var s' := ActivateAllChairs(MusicStop(s, draw, corner, width, height));
      |s'.chairs| == |s.chairs| &&
      forall k :: 0 <= k < |s'.chairs| ==>
        s'.chairs[k].chairActive && (Available(s'.chairs[k]) <==> !s.chairs[k].isFake && !s.chairs[k].occupied)
  {
  }

  /** No chair of the round has been activated yet. */
  ghost predicate NoneActive(cs: seq<ChairState>)
  {
    forall k :: 0 <= k < |cs| ==> !cs[k].chairActive
  }

  /** The chairs of a new round start inactive, and while the music plays
      neither a frame nor a contact activates one. */
  lemma InactiveUntilMusicStops(s: Scene, pick: nat, chairSpot: (nat, nat) -> (int, int),
                                agentSpot: (nat, nat) -> (int, int), delays: nat -> int,
                                joy: Option<Stick>, keys: Option<Keys>, rolls: nat -> real, k: nat)
    requires pick < 4
    ensures NoneActive(RoundStart(s, pick, chairSpot, agentSpot, delays).chairs)
    ensures NoneActive(s.chairs) && s.isMusicPlaying ==> NoneActive(SceneTick(s, joy, keys, rolls).chairs)
    ensures NoneActive(s.chairs) && k < |s.chairs| ==> NoneActive(ChairContact(s, k).chairs)
  {
    if s.isMusicPlaying {
      MusicTickNoSeat(s, joy, keys, rolls);
    }
  }

  /** With no chair available, a bot's pass claims nothing and seats nobody. */
  lemma {:induction false} UnavailableBotsNoSeat(bs: seq<BotState>, cs: seq<ChairState>, canMove: bool, rolls: nat -> real)
    requires forall k :: 0 <= k < |cs| ==> !Available(cs[k])
    ensures var (bs', cs') := BotsTick(bs, cs, canMove, rolls);
      cs' == cs && forall i :: 0 <= i < |bs| ==> bs'[i].seated == bs[i].seated
  {
    if |bs| > 0 {
      var n := |bs| - 1;
      UnavailableBotsNoSeat(bs[..n], cs, canMove, rolls);
      var (done, cs1) := BotsTick(bs[..n], cs, canMove, rolls);
      FirstNearestIsFirstMinimum(cs1, bs[n].x, bs[n].y);
      assert forall i :: 0 <= i < n ==> (done + [BotUpdate(bs[n], cs1, canMove, rolls(n)).0])[i] == done[i];
    }
  }

  /** Between `stopMusic` and a delayed activation no chair is available, so
      a frame in that window seats nobody and leaves the chairs as they are. */
  lemma NoSeatBeforeActivation(s: Scene, joy: Option<Stick>, keys: Option<Keys>, rolls: nat -> real)
    requires forall k :: 0 <= k < |s.chairs| ==> !Available(s.chairs[k])
    ensures var s' := SceneTick(s, joy, keys, rolls);
      s'.chairs == s.chairs && s'.player.seated == s.player.seated &&
      |s'.bots| == |s.bots| && forall i :: 0 <= i < |s.bots| ==> s'.bots[i].seated == s.bots[i].seated
  {
    if s.isRoundActive {
      FirstNearestIsFirstMinimum(s.chairs, s.player.x, s.player.y);
      var (p, cs1) := PlayerUpdate(s.player, s.chairs, s.isMusicPlaying, joy, keys);
      UnavailableBotsNoSeat(s.bots, cs1, s.isMusicPlaying, rolls);
    }
  }

  /** A won game has no bot left; until then there is one real chair fewer
      than agents. */
  lemma OutcomeShape(s: Scene)
    requires SceneInv(s)
    ensures s.status == Won ==> s.totalPlayers == 1 && |s.bots| == 0
    ensures s.status != Won ==> s.totalPlayers >= 2 && RealCount(s.chairs) == s.totalPlayers - 1
  {
  }

  // ----- the scene object -----

  /** Every reaction-delay draw lies in the hard bots' range. */
  ghost predicate DelaysOk(delays: nat -> int)
  {
    forall i :: ReactionDelayRange(Hard).0 <= delays(i) <= ReactionDelayRange(Hard).1
  }

  class GameScene {
    var currentMechanic: Mechanic
    var player: Player
    var bots: seq<BotPlayer>
    var chairs: seq<Chair>
    var isRoundActive: bool
    var isMusicPlaying: bool
    var currentRound: int
    var totalPlayers: int
    var status: Status

    ghost function Snapshot(): Scene
      reads this, player, bots, chairs
    {
      Scene(currentMechanic, player.State(), BotViews(bots), Views(chairs),
            isRoundActive, isMusicPlaying, currentRound, totalPlayers, status)
    }

    ghost predicate Valid()
      reads this
    {
      Distinct(chairs) && DistinctBots(bots)
    }

    /** The scene invariant, kept by every event of a round. */
    ghost predicate Inv()
      reads this, player, bots, chairs
    {
      Valid() && SceneInv(Snapshot())
    }

    /** `init` and `create`: six agents, round 1, and the first round started. */
    constructor (pick: nat, chairSpot: (nat, nat) -> (int, int),
                 agentSpot: (nat, nat) -> (int, int), delays: nat -> int)
      requires pick < 4 && DelaysOk(delays)
      ensures Valid()
      ensures Snapshot() == RoundStart(Initial(), pick, chairSpot, agentSpot, delays)
      ensures Inv() && Live(Snapshot())
    {
      currentMechanic := MECHANICS[0];
      player := new Player(0, 0);
      bots := [];
      chairs := [];
      isRoundActive := false;
      isMusicPlaying := false;
      currentRound := 1;
      totalPlayers := INITIAL_PLAYERS;
      status := Idle;
      new;
      StartRound(pick, chairSpot, agentSpot, delays);
      GameStartShape(pick, chairSpot, agentSpot, delays);
    }

    /** `startRound`; `pick` is the draw among the four special mechanics. The
        music timer that ends in `stopMusic` is the caller's. */
    method StartRound(pick: nat, chairSpot: (nat, nat) -> (int, int),
                      agentSpot: (nat, nat) -> (int, int), delays: nat -> int)
      requires pick < 4 && DelaysOk(delays) && totalPlayers >= 1
      requires status != Won && status != Lost
      modifies this
      ensures Valid()
      ensures Snapshot() == RoundStart(old(Snapshot()), pick, chairSpot, agentSpot, delays)
      ensures (2 <= old(totalPlayers) <= INITIAL_PLAYERS &&
               old(currentRound) + old(totalPlayers) == INITIAL_PLAYERS + 1) ==> Inv() && Live(Snapshot())
    {
      ghost var s0 := Snapshot();
      ghost var s1 := RoundStart(Snapshot(), pick, chairSpot, agentSpot, delays);
      SetUpRound(pick, chairSpot, agentSpot, delays);
      ghost var p, bs, cs := player.State(), BotViews(bots), Views(chairs);
      isRoundActive := true;
      isMusicPlaying := true;
      status := MusicPlaying;
      assert Views(chairs) == cs;
      assert player.State() == p;
      assert BotViews(bots) == bs;
      assert Snapshot() == s1;
      if 2 <= s0.totalPlayers <= INITIAL_PLAYERS && s0.currentRound + s0.totalPlayers == INITIAL_PLAYERS + 1 {
        RoundStartKeepsInv(s0, pick, chairSpot, agentSpot, delays);
      }
    }

    /** The first half of `startRound`: `clearEntities`, the mechanic, the
        chairs and the agents. */
    method SetUpRound(pick: nat, chairSpot: (nat, nat) -> (int, int),
                      agentSpot: (nat, nat) -> (int, int), delays: nat -> int)
      requires pick < 4 && DelaysOk(delays) && totalPlayers >= 1
      modifies this
      ensures Valid()
      ensures currentRound == old(currentRound) && totalPlayers == old(totalPlayers)
      ensures isRoundActive == old(isRoundActive) && isMusicPlaying == old(isMusicPlaying)
      ensures status == old(status)
      ensures currentMechanic == ChooseMechanic(currentRound, pick)
      ensures Views(chairs) == ChairPlan(currentMechanic, totalPlayers, chairSpot)
      ensures player.State() == NewPlayer(agentSpot(0, totalPlayers as nat).0, agentSpot(0, totalPlayers as nat).1)
      ensures BotViews(bots) == BotRoster(totalPlayers, agentSpot, delays)
    {
      ClearEntities();
      if currentRound == 1 {
        currentMechanic := MECHANICS[0];
      } else {
        currentMechanic := MECHANICS[1 + pick];
      }
      CreateChairs(chairSpot);
      assert Views(chairs) == ChairPlan(currentMechanic, totalPlayers, chairSpot);
      CreatePlayers(agentSpot, delays);
      assert BotViews(bots) == BotRoster(totalPlayers, agentSpot, delays);
    }

    /** `clearEntities`: the sprites are destroyed and both lists emptied (the
        player is replaced by `createPlayers`). */
    method ClearEntities()
      modifies this
      ensures bots == [] && chairs == []
      ensures currentMechanic == old(currentMechanic) && player == old(player)
      ensures currentRound == old(currentRound) && totalPlayers == old(totalPlayers)
      ensures isRoundActive == old(isRoundActive) && isMusicPlaying == old(isMusicPlaying)
      ensures status == old(status)
    {
      bots := [];
      chairs := [];
    }

    /** `createChairs`: `spot(i, n)` is where chair `i` of `n` goes. */
    method CreateChairs(spot: (nat, nat) -> (int, int))
      requires Distinct(chairs)
      modifies this
      ensures Views(chairs) == old(Views(chairs)) + ChairPlan(currentMechanic, totalPlayers, spot)
      ensures Distinct(chairs)
      ensures currentMechanic == old(currentMechanic) && totalPlayers == old(totalPlayers)
      ensures currentRound == old(currentRound) && player == old(player) && bots == old(bots)
      ensures isRoundActive == old(isRoundActive) && isMusicPlaying == old(isMusicPlaying)
      ensures status == old(status)
    {
      var fakes := currentMechanic.specialMechanic == MovingChairsWithFakes;
      var chairCount := totalPlayers - 1;
      var totalChairs := if fakes then chairCount + 3 else chairCount;
      var n: nat := if totalChairs < 0 then 0 else totalChairs;
      ghost var plan := ChairPlan(currentMechanic, totalPlayers, spot);
      ghost var v0 := Views(chairs);
      ghost var m := |chairs|;
      var i := 0;
      while i < totalChairs
        invariant 0 <= i <= n && |chairs| == m + i
        invariant Views(chairs) == v0 + plan[..i]
        invariant Distinct(chairs)
        invariant currentMechanic == old(currentMechanic) && totalPlayers == old(totalPlayers)
        invariant currentRound == old(currentRound) && player == old(player) && bots == old(bots)
        invariant isRoundActive == old(isRoundActive) && isMusicPlaying == old(isMusicPlaying)
        invariant status == old(status)
      {
        ghost var before := Views(chairs);
        var chair := new Chair(spot(i, n).0, spot(i, n).1, fakes && i >= chairCount);
        assert Views(chairs) == before;
        chairs := chairs + [chair];
        assert Views(chairs) == before + [chair.State()];
        assert plan[..i + 1] == plan[..i] + [plan[i]];
        i := i + 1;
      }
      assert plan[..i] == plan;
    }

    /** `createPlayers`: `spot(i, n)` is where agent `i` of `n` goes, the
        player first; `delays(i)` is bot `i`'s reaction-delay draw. The scene
        always has an agent, so the player is always replaced. */
    method CreatePlayers(spot: (nat, nat) -> (int, int), delays: nat -> int)
      requires DistinctBots(bots) && DelaysOk(delays) && totalPlayers >= 1
      modifies this
      ensures currentMechanic == old(currentMechanic) && totalPlayers == old(totalPlayers)
      ensures currentRound == old(currentRound) && chairs == old(chairs)
      ensures isRoundActive == old(isRoundActive) && isMusicPlaying == old(isMusicPlaying)
      ensures status == old(status)
      ensures player.State() == NewPlayer(spot(0, totalPlayers as nat).0, spot(0, totalPlayers as nat).1)
      ensures BotViews(bots) == old(BotViews(bots)) + BotRoster(totalPlayers, spot, delays)
      ensures DistinctBots(bots) && fresh(player)
    {
      var playerCount := totalPlayers;
      ghost var roster := BotRoster(totalPlayers, spot, delays);
      ghost var v0 := BotViews(bots);
      ghost var m := |bots|;
      var i := 0;
      while i < playerCount
        invariant currentMechanic == old(currentMechanic) && totalPlayers == old(totalPlayers)
        invariant currentRound == old(currentRound) && chairs == old(chairs)
        invariant isRoundActive == old(isRoundActive) && isMusicPlaying == old(isMusicPlaying)
        invariant status == old(status)
        invariant 0 <= i <= playerCount
        invariant |bots| == m + if i == 0 then 0 else i - 1
        invariant i >= 1 ==> fresh(player)
        invariant i >= 1 ==> player.State() == NewPlayer(spot(0, totalPlayers as nat).0, spot(0, totalPlayers as nat).1)
        invariant BotViews(bots) == v0 + roster[..|bots| - m]
        invariant DistinctBots(bots)
      {
        var x, y := spot(i, playerCount as nat).0, spot(i, playerCount as nat).1;
        if i == 0 {
          player := new Player(x, y);
        } else {
          ghost var before := BotViews(bots);
          var bot := new BotPlayer(x, y, Hard, i, delays(i));
          assert BotViews(bots) == before;
          bots := bots + [bot];
          assert BotViews(bots) == before + [bot.State()];
          assert roster[..i] == roster[..i - 1] + [roster[i - 1]];
        }
        i := i + 1;
      }
      assert roster[..|bots| - m] == roster;
    }

    /** `stopMusic`; `draw(i)` is the position drawn for chair `i`, `corner(0)`
        the player's corner and `corner(i + 1)` bot `i`'s. Returns the delay
        after which the caller runs `ActivateChairs`; the round is judged
        `ROUND_CHECK_DELAY_MS` after this call. */
    method StopMusic(draw: nat -> (int, int), corner: nat -> nat, width: int, height: int)
      returns (activationDelay: nat)
      requires Inv() && Live(Snapshot()) && status == MusicPlaying && forall i :: corner(i) < 4
      modifies this, player, bots, chairs
      ensures Inv() && Live(Snapshot())
      ensures Snapshot() == MusicStop(old(Snapshot()), draw, corner, width, height)
      ensures activationDelay == ActivationDelay(currentMechanic.specialMechanic)
    {
      ghost var s0 := Snapshot();
      MusicStopKeepsInv(s0, draw, corner, width, height);
      SilenceMusic();
      activationDelay := ApplyMechanic(draw, corner, width, height, s0);
    }

    /** The mechanic's own part of `stopMusic`, once the music is off; `s0`
        is the scene before the music stopped. */
    method ApplyMechanic(draw: nat -> (int, int), corner: nat -> nat, width: int, height: int, ghost s0: Scene)
      returns (activationDelay: nat)
      requires Inv() && forall i :: corner(i) < 4
      requires Snapshot() == s0.(isMusicPlaying := false, status := MusicStopped)
      modifies player, bots, chairs
      ensures Snapshot() == MusicStop(s0, draw, corner, width, height)
      ensures activationDelay == ActivationDelay(currentMechanic.specialMechanic)
    {
      match currentMechanic.specialMechanic
      case MovingChairsWithFakes =>
        StopChairMotion();
        ActivateChairs();
        activationDelay := 0;
      case TeleportPlayers =>
        TeleportAgents(width, height, corner);
        activationDelay := 300;
      case MovingChairs =>
        RelocateChairs(draw);
        activationDelay := 300;
      case RandomChairPositions =>
        RelocateChairs(draw);
        activationDelay := 500;
      case NoSpecial =>
        ActivateChairs();
        activationDelay := 0;
    }

    /** The music stops: the flag and the status, nothing else. */
    method SilenceMusic()
      requires Inv() && Live(Snapshot())
      modifies this
      ensures Inv() && Live(Snapshot())
      ensures Snapshot() == old(Snapshot()).(isMusicPlaying := false, status := MusicStopped)
      ensures player == old(player) && bots == old(bots) && chairs == old(chairs)
    {
      ghost var s0 := Snapshot();
      isMusicPlaying := false;
      status := MusicStopped;
      assert Snapshot() == s0.(isMusicPlaying := false, status := MusicStopped);
    }

    /** An agent touches chair `k`: the overlap callback of a fake chair
        reveals it; a real chair's collider changes no game state. */
    method ChairOverlap(k: nat)
      requires Inv() && k < |chairs|
      modifies chairs
      ensures Inv()
      ensures Snapshot() == ChairContact(old(Snapshot()), k)
    {
      ghost var s0 := Snapshot();
      ContactKeepsInv(s0, k);
      var chair := chairs[k];
      assert chair.State() == s0.chairs[k];
      if chair.GetIsFake() {
        chair.RevealFake();
        forall j | 0 <= j < |chairs|
          ensures Views(chairs)[j] == s0.chairs[k := AfterReveal(s0.chairs[k])][j]
        {
          if j != k {
            assert chairs[j] != chair;
          }
        }
      }
      assert player.State() == s0.player;
      assert BotViews(bots) == s0.bots;
      assert Snapshot() == ChairContact(s0, k);
    }

    /** `chairs.forEach(chair => chair.stopMoving())`: ends the movement
        tweens, which leaves every chair's state as it was. */
    method StopChairMotion()
      ensures Snapshot() == old(Snapshot())
    {
      var i := 0;
      while i < |chairs|
        invariant 0 <= i <= |chairs|
        invariant Snapshot() == old(Snapshot())
      {
        chairs[i].StopMoving();
        i := i + 1;
      }
    }

    /** The delayed activation of every chair. */
    method ActivateChairs()
      requires Inv()
      modifies chairs
      ensures Inv()
      ensures Snapshot() == ActivateAllChairs(old(Snapshot()))
    {
      ghost var s0 := Snapshot();
      ActivateKeepsInv(s0);
      ActivateEach();
      assert player.State() == s0.player;
      assert BotViews(bots) == s0.bots;
    }

    /** The teleport mechanic: the player and every bot to a drawn corner. */
    method TeleportAgents(width: int, height: int, corner: nat -> nat)
      requires Valid() && forall i :: corner(i) < 4
      modifies player, bots
      ensures Snapshot() == old(Snapshot()).(
        player := old(player.State()).(vx := 0.0, vy := 0.0,
                                       x := PlayerCorner(0, width, height, corner(0)).0,
                                       y := PlayerCorner(0, width, height, corner(0)).1),
        bots := TeleportBots(old(BotViews(bots)), width, height, corner))
    {
      ghost var s0 := Snapshot();
      player.TeleportToRandomCorner(0, width, height, corner(0));
      assert BotViews(bots) == s0.bots;
      TeleportEachBot(width, height, corner);
      assert Views(chairs) == s0.chairs;
    }

    /** The two moving-chair mechanics: every chair to its drawn position. */
    method RelocateChairs(draw: nat -> (int, int))
      requires Valid() && AllWellFormed(Views(chairs))
      modifies chairs
      ensures Snapshot() == old(Snapshot()).(chairs := Relocate(old(Views(chairs)), draw))
    {
      ghost var s0 := Snapshot();
      TeleportEachChair(draw);
      assert player.State() == s0.player;
      assert BotViews(bots) == s0.bots;
    }

    method ActivateEach()
      requires Distinct(chairs) && AllWellFormed(Views(chairs))
      modifies chairs
      ensures Views(chairs) == ActivateAll(old(Views(chairs)))
    {
      forall j | 0 <= j < |chairs|
        ensures chairs[j].Valid()
      {
        assert Views(chairs)[j] == chairs[j].State();
      }
      var i := 0;
      while i < |chairs|
        invariant 0 <= i <= |chairs|
        invariant forall j :: i <= j < |chairs| ==> chairs[j].Valid()
        invariant forall j :: 0 <= j < |chairs| ==>
          chairs[j].State() == if j < i then AfterSetActive(old(chairs[j].State()), true) else old(chairs[j].State())
      {
        chairs[i].SetChairActive(true);
        i := i + 1;
      }
      assert Views(chairs) == ActivateAll(old(Views(chairs)));
    }

    /** Each chair moved to its drawn position: `teleportToRandomPosition`
        in the moving-chairs mechanic, the 500 ms tween of
        `randomizeChairPositions` in the random-positions one. */
    method TeleportEachChair(draw: nat -> (int, int))
      requires Distinct(chairs) && AllWellFormed(Views(chairs))
      modifies chairs
      ensures Views(chairs) == Relocate(old(Views(chairs)), draw)
    {
      forall j | 0 <= j < |chairs|
        ensures chairs[j].Valid()
      {
        assert Views(chairs)[j] == chairs[j].State();
      }
      var i := 0;
      while i < |chairs|
        invariant 0 <= i <= |chairs|
        invariant forall j :: i <= j < |chairs| ==> chairs[j].Valid()
        invariant forall j :: 0 <= j < |chairs| ==>
          chairs[j].State() == if j < i then old(chairs[j].State()).(x := draw(j).0, y := draw(j).1)
                               else old(chairs[j].State())
      {
        chairs[i].TeleportToRandomPosition(draw(i).0, draw(i).1);
        i := i + 1;
      }
      assert Views(chairs) == Relocate(old(Views(chairs)), draw);
    }

    method TeleportEachBot(width: int, height: int, corner: nat -> nat)
      requires DistinctBots(bots) && forall i :: corner(i) < 4
      modifies bots
      ensures BotViews(bots) == TeleportBots(old(BotViews(bots)), width, height, corner)
    {
      var i := 0;
      while i < |bots|
        invariant 0 <= i <= |bots|
        invariant forall j :: 0 <= j < |bots| ==>
          bots[j].State() == if j < i then TeleportBots(old(BotViews(bots)), width, height, corner)[j]
                             else old(bots[j].State())
      {
        bots[i].TeleportToRandomCorner(width, height, corner(i + 1));
        i := i + 1;
      }
      assert BotViews(bots) == TeleportBots(old(BotViews(bots)), width, height, corner);
    }

    /** `update()`: one frame; `joy` and `keys` are this frame's input and
        `rolls(i)` bot `i`'s `Math.random()` draw. */
    method Update(joy: Option<Stick>, keys: Option<Keys>, rolls: nat -> real)
      requires Inv()
      modifies player, bots, chairs
      ensures Inv()
      ensures Snapshot() == SceneTick(old(Snapshot()), joy, keys, rolls)
    {
      ghost var s0 := Snapshot();
      TickKeepsInv(s0, joy, keys, rolls);
      if !isRoundActive {
        return;
      }
      player.Update(isMusicPlaying, chairs, joy, keys);
      ghost var p1 := player.State();
      assert BotViews(bots) == s0.bots;
      UpdateBots(rolls);
      assert player.State() == p1;
      assert Snapshot() == SceneTick(s0, joy, keys, rolls);
    }

    /** `this.bots.forEach(bot => bot.update(this.isMusicPlaying, this.chairs))`. */
    method UpdateBots(rolls: nat -> real)
      requires Valid() && AllWellFormed(Views(chairs))
      modifies bots, chairs
      ensures (BotViews(bots), Views(chairs)) == BotsTick(old(BotViews(bots)), old(Views(chairs)), isMusicPlaying, rolls)
    {
      ghost var cs1 := Views(chairs);
      ghost var bs0 := BotViews(bots);
      ghost var done: seq<BotState> := [];
      var i := 0;
      while i < |bots|
        invariant 0 <= i <= |bots| && |bs0| == |bots| && |done| == i
        invariant (done, Views(chairs)) == BotsTick(bs0[..i], cs1, isMusicPlaying, rolls)
        invariant forall j :: 0 <= j < |bots| ==> bots[j].State() == if j < i then done[j] else bs0[j]
        invariant AllWellFormed(Views(chairs))
      {
        BotsTickStep(bs0, i, cs1, isMusicPlaying, rolls);
        UpdateBot(i, rolls);
        done := done + [bots[i].State()];
        i := i + 1;
      }
      assert bs0[..i] == bs0;
      assert BotViews(bots) == done;
    }

    /** One bot's `update`; the other bots are untouched. */
    method UpdateBot(i: nat, rolls: nat -> real)
      requires Valid() && i < |bots| && AllWellFormed(Views(chairs))
      modifies bots[i], chairs
      ensures AllWellFormed(Views(chairs))
      ensures (bots[i].State(), Views(chairs)) ==
        BotUpdate(old(bots[i].State()), old(Views(chairs)), isMusicPlaying, rolls(i))
      ensures forall j :: 0 <= j < |bots| && j != i ==> bots[j].State() == old(bots[j].State())
    {
      bots[i].Update(isMusicPlaying, chairs, rolls(i));
      forall j | 0 <= j < |bots| && j != i
        ensures bots[j].State() == old(bots[j].State())
      {
        assert bots[j] != bots[i];
      }
    }

    /** `this.bots.indexOf(bot)`, by the bot's number. */
    method FindBot(id: AgentId) returns (r: Option<nat>)
      ensures r == IndexOfBot(BotViews(bots), id)
    {
      ghost var bs := BotViews(bots);
      var i := 0;
      while i < |bots|
        invariant 0 <= i <= |bots|
        invariant forall j :: 0 <= j < i ==> bs[j].index != id
      {
        if bots[i].index == id {
          r := Some(i);
          UniqueFirst(bs, id, i);
          return;
        }
        i := i + 1;
      }
      r := None;
    }

    /** The choice `checkRoundResult` makes: gather the agents, filter the
        unseated ones, and pick the one whose nearest chair is furthest. */
    method ChooseEliminated() returns (verdict: Verdict)
      ensures verdict == Judge(Snapshot())
    {
      ghost var s := Snapshot();
      var allPlayers := [Agent(PLAYER_ID, player.x, player.y, player.seated)] +
        seq(|bots|, i reads this, bots requires 0 <= i < |bots| =>
          Agent(bots[i].index, bots[i].x, bots[i].y, bots[i].seated));
      assert allPlayers == Agents(s);
      var unseatedPlayers := Unseated(allPlayers);
      if |unseatedPlayers| == 0 {
        verdict := NobodyOut;
      } else {
        var e := PickEliminated(unseatedPlayers, chairs);
        assert e == Victim(unseatedPlayers, s.chairs);
        var eliminated := unseatedPlayers[e];
        verdict := if eliminated.id == PLAYER_ID then PlayerOut else BotEliminated(eliminated.id);
      }
    }

    /** `checkRoundResult`, up to its delayed callbacks: after `PlayerOut` the
        caller runs `GameOver(false)` 1000 ms later, after `BotEliminated` it
        runs `NextRoundOrWin` 2000 ms later. */
    method CheckRoundResult() returns (verdict: Verdict)
      requires Inv() && Live(Snapshot()) && status == MusicStopped
      modifies this, player, bots
      ensures Inv()
      ensures verdict == Judge(old(Snapshot())) && verdict != NobodyOut
      ensures Snapshot() == AfterVerdict(old(Snapshot()), verdict)
      ensures player == old(player) && forall i :: 0 <= i < |bots| ==> bots[i] in old(bots)
    {
      ghost var s0 := Snapshot();
      JudgeKeepsInv(s0);
      JudgeAlwaysEliminates(s0);
      verdict := ChooseEliminated();
      ApplyVerdict(verdict);
      assert Snapshot() == AfterJudge(s0);
    }

    /** The eliminated agent's fate. */
    method ApplyVerdict(verdict: Verdict)
      requires Valid()
      modifies this, player, bots
      ensures Valid()
      ensures Snapshot() == AfterVerdict(old(Snapshot()), verdict)
      ensures player == old(player) && forall i :: 0 <= i < |bots| ==> bots[i] in old(bots)
    {
      match verdict
      case NobodyOut =>
      case PlayerOut =>
        EliminatePlayer();
      case BotEliminated(id) =>
        EliminateBot(id);
    }

    /** `checkRoundResult` and, once its timer fires, the callback it
        scheduled: `gameOver(false)` after the player's elimination, the next
        round or the win after a bot's. */
    method ResolveRound(pick: nat, chairSpot: (nat, nat) -> (int, int),
                        agentSpot: (nat, nat) -> (int, int), delays: nat -> int)
      returns (verdict: Verdict)
      requires Inv() && Live(Snapshot()) && status == MusicStopped && pick < 4 && DelaysOk(delays)
      modifies this, player, bots
      ensures Inv()
      ensures verdict == Judge(old(Snapshot())) && verdict != NobodyOut
      ensures Snapshot() == RoundOutcome(old(Snapshot()), pick, chairSpot, agentSpot, delays)
    {
      ghost var s0 := Snapshot();
      verdict := CheckRoundResult();
      ghost var s1 := Snapshot();
      assert s1 == AfterJudge(s0);
      if verdict == PlayerOut {
        PlayerOutLoses(s0, pick, chairSpot, agentSpot, delays);
        GameOver(false);
        assert Snapshot() == Finish(s1, false);
      } else {
        BotOutAdvances(s0, pick, chairSpot, agentSpot, delays);
        NextRoundOrWin(pick, chairSpot, agentSpot, delays);
        assert Snapshot() == AfterBotOut(s1, pick, chairSpot, agentSpot, delays);
      }
    }

    /** The player is out: its death animation stops it. */
    method EliminatePlayer()
      modifies player
      ensures Snapshot() == AfterVerdict(old(Snapshot()), PlayerOut)
    {
      ghost var s0 := Snapshot();
      player.Stop();
      assert Views(chairs) == s0.chairs;
      assert BotViews(bots) == s0.bots;
    }

    /** Bot `id` is out: it is announced, stopped and taken out of the list. */
    method EliminateBot(id: AgentId)
      requires Valid()
      modifies this, bots
      ensures Valid()
      ensures Snapshot() == AfterVerdict(old(Snapshot()), BotEliminated(id))
      ensures player == old(player) && forall i :: 0 <= i < |bots| ==> bots[i] in old(bots)
    {
      ghost var s0 := Snapshot();
      RemoveEliminatedBot(id);
      ghost var bs := BotViews(bots);
      assert Views(chairs) == s0.chairs;
      assert player.State() == s0.player;
      status := BotOut(id);
      assert BotViews(bots) == bs;
      assert Snapshot() == s0.(bots := bs, status := BotOut(id));
    }

    /** The eliminated bot's death animation stops it, and it leaves the list. */
    method RemoveEliminatedBot(id: AgentId)
      requires DistinctBots(bots)
      modifies this, bots
      ensures DistinctBots(bots)
      ensures BotViews(bots) == DropBot(old(BotViews(bots)), id)
      ensures currentMechanic == old(currentMechanic) && chairs == old(chairs) && player == old(player)
      ensures isRoundActive == old(isRoundActive) && isMusicPlaying == old(isMusicPlaying)
      ensures currentRound == old(currentRound) && totalPlayers == old(totalPlayers) && status == old(status)
      ensures forall i :: 0 <= i < |bots| ==> bots[i] in old(bots)
    {
      var botIndex := FindBot(id);
      if botIndex.Some? {
        var j := botIndex.value;
        ghost var bs := BotViews(bots);
        bots[j].Stop();
        bots := bots[..j] + bots[j + 1..];
        assert BotViews(bots) == bs[..j] + bs[j + 1..];
      }
    }

    /** The callback 2000 ms after a bot is eliminated. */
    method NextRoundOrWin(pick: nat, chairSpot: (nat, nat) -> (int, int),
                          agentSpot: (nat, nat) -> (int, int), delays: nat -> int)
      requires Inv() && status.BotOut? && pick < 4 && DelaysOk(delays)
      modifies this, player, bots
      ensures Inv()
      ensures Snapshot() == AfterBotOut(old(Snapshot()), pick, chairSpot, agentSpot, delays)
    {
      AfterBotOutKeepsInv(Snapshot(), pick, chairSpot, agentSpot, delays);
      totalPlayers := totalPlayers - 1;
      currentRound := currentRound + 1;
      if totalPlayers == 1 {
        GameOver(true);
      } else {
        StartRound(pick, chairSpot, agentSpot, delays);
      }
    }

    /** `gameOver(won)`; the return to the menu is left to the caller. */
    method GameOver(won: bool)
      requires Valid()
      modifies this, player, bots
      ensures Valid()
      ensures Snapshot() == Finish(old(Snapshot()), won)
      ensures !won && old(SceneInv(Snapshot())) && old(Live(Snapshot())) ==> Inv()
    {
      ghost var s0 := Snapshot();
      isRoundActive := false;
      player.Stop();
      StopBots();
      status := if won then Won else Lost;
      assert Snapshot() == Finish(s0, won);
      if !won && SceneInv(s0) && Live(s0) {
        FinishKeepsInv(s0);
      }
    }

    /** `this.bots.forEach(bot => bot.setVelocity(0, 0))`. */
    method StopBots()
      requires DistinctBots(bots)
      modifies bots
      ensures BotViews(bots) == StopAll(old(BotViews(bots)))
    {
      ghost var bs0 := BotViews(bots);
      var i := 0;
      while i < |bots|
        invariant 0 <= i <= |bots|
        invariant forall j :: 0 <= j < |bots| ==>
          bots[j].State() == if j < i then bs0[j].(velocity := Still) else bs0[j]
      {
        bots[i].Stop();
        i := i + 1;
      }
      assert BotViews(bots) == StopAll(bs0);
    }
  }

  /** One more bot in the pass: the bots' updates are a left-to-right fold. */
  lemma BotsTickStep(bs: seq<BotState>, i: nat, cs: seq<ChairState>, canMove: bool, rolls: nat -> real)
    requires i < |bs|
    ensures var (done, cs1) := BotsTick(bs[..i], cs, canMove, rolls);
      var (b, cs2) := BotUpdate(bs[i], cs1, canMove, rolls(i));
      BotsTick(bs[..i + 1], cs, canMove, rolls) == (done + [b], cs2)
  {
    assert bs[..i + 1][..i] == bs[..i];
  }

  /** With distinct numbers, the first bot carrying a number is the only one. */
  lemma UniqueFirst(bs: seq<BotState>, id: AgentId, i: nat)
    requires i < |bs| && bs[i].index == id
    requires forall j :: 0 <= j < i ==> bs[j].index != id
    ensures IndexOfBot(bs, id) == Some(i)
  {
  }
}
