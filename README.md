# Musical chairs: a verified model of the game rules

This project models the rules of a Phaser "musical chairs" game ("sandalye
kapmaca"). One human player and five bots walk while the music plays. When it
stops they race for one chair fewer than there are agents. One unseated agent
is eliminated per round, until the player is out or alone.

The model keeps the rule-carrying state of the four game objects and the
constant tables:

- `Chairs` (`chairs.dfy`): the chair's seat state machine. It covers
  `occupy` as the single claim point (first caller wins, repeated claims are
  no-ops, fake chairs are decoys that only reveal themselves), the
  `isAvailable` predicate, and the nearest-available-chair scan that the
  player and the bots share.
- `BotPlayers` (`bot_player.dfy`): the bot's per-frame countdown machine.
  It covers the reaction delay, the stuck timer and the escape-mode timer,
  each stepped by 16 ms, the chase of the nearest available chair, and the
  rule that a bot sits only within 80.
- `Players` (`player.dfy`): the human player. It covers joystick and
  keyboard input mapped to a velocity, and a seat attempt within 100 that is
  made only while the music is stopped.
- `Elimination` (`elimination.dfy`): the judge of a round. The only unseated
  agent loses. Among several, the one whose nearest chair is furthest loses,
  and ties go to the earliest in `[player, ...bots]` order.
- `Scenes` (`game_scene.dfy`): the round state machine of the game scene.
  It covers the mechanic choice, the chair and agent rosters, the
  per-mechanic activation delay once the music stops, the judging of the
  round, and the round/population counters with the win/lose rule.
- `LevelConfig` (`level_config.dfy`): the five mechanics and the speeds.
- `Common` (`common.dfy`): agent identities, squared distances, and
  JavaScript's remainder operator.

Every object whose fields the game updates in place is a class: `Chair`,
`BotPlayer`, `Player` and `GameScene`. Each has a ghost `State()` (for the
scene, `Snapshot()`) giving its value as a datatype. Each method is proved
to leave the state that a pure step function gives (`AfterOccupy`,
`BotUpdate`, `PlayerUpdate`, `MusicStop`, `AfterVerdict`, …). The game's
promises are lemmas about those step functions.

The central scene invariant, `Scenes.SceneInv`, holds between events:

- `currentRound + totalPlayers == 7`;
- one real chair fewer than agents;
- every chair is well formed: an occupant is recorded exactly when the chair
  is occupied, and fake chairs are never occupied;
- the seated agents are exactly as many as the occupied chairs.

Every event keeps it. From it follows that judging a live round always
eliminates somebody (pigeonhole), and that the game ends by round 6.

Distances are compared squared on integer coordinates, because the square
root is strictly monotone. So `d < 80` is `d² < 6400`, `d < 100` is
`d² < 10000`, and `distanceMoved < 5` is `d² < 25`.

Randomness becomes parameters:

- `pick` for `Phaser.Math.RND.pick` of a mechanic or a corner;
- `delays` for the reaction-delay draws of `Phaser.Math.Between`;
- `draw` for the drawn chair positions;
- `rolls` for `Math.random`;
- `chairSpot` and `agentSpot` for the circle layouts.

Timers become explicit events: `StartRound`, `StopMusic` (which returns the
activation delay), `ActivateChairs`, `CheckRoundResult`, `NextRoundOrWin`
and `GameOver`. `ResolveRound` runs `CheckRoundResult` with the callback it
schedules: `GameOver(false)` after the player's elimination, `NextRoundOrWin`
after a bot's. Each event of a round keeps the scene invariant
`SceneInv`, stated as `GameScene.Inv`. Each event also requires the status
its timer fires in: `StopMusic` while the music plays, `CheckRoundResult` and
`ResolveRound` once it has stopped, `StartRound` before the game is won or
lost. A lost or won game is therefore final.

In these places the code behaves differently from the intended game design,
and the model follows the code:

- Escape mode is re-armed by the stuck check every 13 frames while the bot
  stays wedged, so a bot that never gets unstuck never leaves it
  (`BotPlayers.StuckBotKeepsEscaping`). Escape mode ends on its own only
  once the bot moves (`BotPlayers.MovingBotLeavesEscape`).
- Activation sets every chair active, decoys included; decoys stay
  unavailable because `isAvailable` checks `isFake` first.
- Decoys are the last three chairs of the list.
- The player's reach is 100 while a bot's is 80.
- When nobody is unseated, `checkRoundResult` does nothing (`NobodyOut`).
  It does not raise an error.
- An eliminated bot is removed from the bot list. The model has no
  `eliminated` flag.

## Model

| member | source | states |
|---|---|---|
| `LevelConfig.MechanicsShape` | src/config/LevelConfig.ts:8-14 | the catalogue has five mechanics; the first is "Normal", 15 s of music, with no special tag |
| `LevelConfig.MusicGetsShorter` | src/config/LevelConfig.ts:8-38 | music duration strictly decreases along the catalogue (15, 12, 10, 8, 6) |
| `LevelConfig.SpecialTags` | src/config/LevelConfig.ts:14-38 | entries 1–4 carry randomChairPositions, movingChairs, teleportPlayers, movingChairsWithFakes, all tags pairwise distinct |
| `LevelConfig.SpeedOrder` | src/config/LevelConfig.ts:40-45 | easy < medium < hard bot speeds, and the player's speed equals the medium bot's |
| `Common.JsRem` | src/entities/BotPlayer.ts:224 | JavaScript `%`: equals Euclidean remainder for a non-negative dividend, lies in (-b, 0] for a negative one, a small negative dividend is its own remainder, and the dividend minus the result is a multiple of the divisor |
| `Chairs.NewChairIsFree` | src/entities/Chair.ts:4-13 | a new chair is unoccupied, inactive, unrevealed, has no occupant, keeps its fake flag, is well formed and not available |
| `Chairs.OccupyFakeOnlyReveals` | src/entities/Chair.ts:65-70 | occupying a fake chair changes only `revealed`, to true |
| `Chairs.OccupySucceedsIffAvailable` | src/entities/Chair.ts:65-85 | a claim on an available chair sets occupied and the occupant; on any other chair occupancy and occupant are unchanged, and a real unavailable chair is untouched |
| `Chairs.FirstClaimantWins` | src/entities/Chair.ts:72-75 | after a successful claim, a second claim by anybody changes nothing; the occupant stays the first claimant |
| `Chairs.OccupyIdempotent` | src/entities/Chair.ts:65-75 | claiming twice with the same caller equals claiming once |
| `Chairs.FakeNeverAvailable` | src/entities/Chair.ts:81-85 | a fake chair is never available, before or after `setChairActive` |
| `Chairs.RevealIdempotent` | src/entities/Chair.ts:87-93 | `revealFake` sets `revealed`, changes nothing else, and a second call changes nothing |
| `Chairs.SetActiveOnlyActivates` | src/entities/Chair.ts:48-50 | `setChairActive(b)` sets the flag to `b`; occupancy, occupant, fake flag, revealed flag and position are unchanged |
| `Chairs.OperationsKeepWellFormed` | src/entities/Chair.ts:48-93 | occupy, setChairActive and revealFake keep the chair invariant (occupant present iff occupied, fake never occupied) |
| `Chairs.OccupiedAtMostReal` | src/entities/Chair.ts:65-75 | over well-formed chairs, occupied chairs are no more than real chairs |
| `Chairs.OccupyCounts` | src/entities/Chair.ts:65-75 | a claim raises the occupied count by one exactly when the chair was available, and never changes the real-chair count |
| `Chairs.FirstNearest` | src/entities/BotPlayer.ts:178-189 | the scan's result, when present, is an index of an available chair |
| `Chairs.FirstNearestIsFirstMinimum` | src/entities/BotPlayer.ts:178-191 | the scan finds nothing iff no chair is available; otherwise an available chair no farther than any available chair and strictly nearer than every available chair before it |
| `Chairs.NearestAvailableChair` | src/entities/Player.ts:167-179 | the loop over chair objects returns the first nearest available chair and its squared distance |
| `Chairs.Chair.constructor` | src/entities/Chair.ts:4-13 | a fresh chair at the given place with the given fake flag, all claim state cleared |
| `Chairs.Chair.SetChairActive` | src/entities/Chair.ts:48-50 | new state is `AfterSetActive` of the old; the chair invariant is kept |
| `Chairs.Chair.Occupy` | src/entities/Chair.ts:65-79 | new state is `AfterOccupy` of the old; the chair invariant is kept |
| `Chairs.Chair.IsAvailable` | src/entities/Chair.ts:81-85 | agrees with `Available` on the chair's state |
| `Chairs.Chair.RevealFake` | src/entities/Chair.ts:87-93 | new state is `AfterReveal` of the old; the chair invariant is kept |
| `Chairs.Chair.GetIsFake` | src/entities/Chair.ts:95-97 | a fake chair is not available |
| `Chairs.Chair.IsOccupied` | src/entities/Chair.ts:99-101 | an occupied chair is not available |
| `Chairs.Chair.GetOccupant` | src/entities/Chair.ts:103-105 | an occupant exists exactly when the chair is occupied, and only on a real chair |
| `Chairs.Chair.StopMoving` | src/entities/Chair.ts:134-139 | the claim state and position are unchanged |
| `Chairs.Chair.TeleportToRandomPosition` | src/entities/Chair.ts:141-164 | only the position changes, to the drawn point; occupancy and activation are untouched; the chair invariant is kept |
| `BotPlayers.DifficultyTable` | src/entities/BotPlayer.ts:70-80 | reaction-delay ranges easy [500,1000], medium [200,500], hard [0,150]; speeds 150 < 200 < 250 |
| `BotPlayers.EscapeSpeed` | src/entities/BotPlayer.ts:230 | escape speed is exactly 1.3 times the base speed |
| `BotPlayers.SeatedBotStops` | src/entities/BotPlayer.ts:128-131 | a seated bot's frame only zeroes its velocity; it stays seated and touches no chair |
| `BotPlayers.CirclingTouchesNoChair` | src/entities/BotPlayer.ts:133-135 | while the music plays an unseated bot circles at its base speed and the chairs are untouched |
| `BotPlayers.ReactionDelayCountsDown` | src/entities/BotPlayer.ts:171-175 | during the reaction delay the delay drops by 16 and the bot stands still; no chair, stuck or escape state changes |
| `BotPlayers.NoChairNoChange` | src/entities/BotPlayer.ts:178-191 | with no available chair the frame returns before any timer or position changes |
| `BotPlayers.ScrambleTick` | src/entities/BotPlayer.ts:193-248 | the timers follow the stuck check then the escape countdown; lastPosition becomes the position; in escape mode the bot never sits, and re-rolls its heading at 1.3× speed only when the timer's JS remainder by 100 is below 16 |
| `BotPlayers.SitsOnlyWithinReach` | src/entities/BotPlayer.ts:250-284 | a bot sits iff, past its delay and out of escape mode, its first nearest available chair is nearer than 80; it then occupies that chair and stands on it |
| `BotPlayers.BotUpdateClaimsAtMostOne` | src/entities/BotPlayer.ts:121-140 | a frame claims at most the one chair the bot sits on, never unseats it, keeps the real-chair count and well-formedness |
| `BotPlayers.EscapeEntry` | src/entities/BotPlayer.ts:201-209 | a bot that stops moving enters escape mode on the 13th frame (208 ms > 200 ms), not earlier |
| `BotPlayers.StuckBotKeepsEscaping` | src/entities/BotPlayer.ts:201-218 | a bot that never moves again stays in escape mode forever: the stuck check re-arms 1500 ms every 13 frames |
| `BotPlayers.MovingBotLeavesEscape` | src/entities/BotPlayer.ts:210-218 | a bot that keeps moving counts its escape timer down by 16 per frame and is out of escape mode after 94 frames |
| `BotPlayers.BotCorner` | src/entities/BotPlayer.ts:331-337 | a teleport corner is inset 100 from the camera edges |
| `BotPlayers.BotPlayer.constructor` | src/entities/BotPlayer.ts:19-81 | a new bot is unseated with zeroed timers and its reaction delay within its difficulty's range |
| `BotPlayers.BotPlayer.Update` | src/entities/BotPlayer.ts:121-140 | new bot and chair states are `BotUpdate` of the old |
| `BotPlayers.BotPlayer.MoveInCircle` | src/entities/BotPlayer.ts:142-151 | only the velocity changes, to circling at base speed |
| `BotPlayers.BotPlayer.TryToSit` | src/entities/BotPlayer.ts:167-191 | new bot and chair states are `BotTryToSit` of the old |
| `BotPlayers.BotPlayer.CheckStuck` | src/entities/BotPlayer.ts:193-214 | new state is `AfterStuckCheck` of the old |
| `BotPlayers.BotPlayer.ChaseOrEscapeStep` | src/entities/BotPlayer.ts:216-272 | new bot and chair states are `ChaseOrEscape` of the old |
| `BotPlayers.BotPlayer.SitOnChair` | src/entities/BotPlayer.ts:275-292 | sits and occupies only an available chair; otherwise nothing changes |
| `BotPlayers.BotPlayer.GetSpeed` | src/entities/BotPlayer.ts:294-311 | the base speed of the difficulty, between the easy and the hard speed, whatever `canMove` is |
| `BotPlayers.BotPlayer.IsSeated` | src/entities/BotPlayer.ts:313-315 | the seated flag of the state |
| `BotPlayers.BotPlayer.Stop` | src/entities/BotPlayer.ts:321-325 | only the velocity changes, to zero |
| `BotPlayers.BotPlayer.TeleportToRandomCorner` | src/entities/BotPlayer.ts:327-354 | the bot stops and stands on the picked corner |
| `Players.JoystickOverridesKeys` | src/entities/Player.ts:116-120 | a deflected joystick decides the velocity, input times 200, whatever keys are held |
| `Players.DeadZoneIgnored` | src/entities/Player.ts:116-122 | a joystick within 0.1 on both axes counts as no joystick |
| `Players.KeyboardAxes` | src/entities/Player.ts:121-134 | each keyboard axis is -200, 0 or 200; left beats right, up beats down, arrows and WASD act alike |
| `Players.NoInputNoMotion` | src/entities/Player.ts:112-136 | with neither a deflected joystick nor a keyboard the velocity is zero |
| `Players.SeatedPlayerStops` | src/entities/Player.ts:106-110 | a seated player's frame only zeroes its velocity |
| `Players.MusicPlayingNoSeat` | src/entities/Player.ts:112-161 | while the music plays the player takes the input's velocity and no seat, and the chairs are untouched |
| `Players.PlayerSitsOnlyWithinReach` | src/entities/Player.ts:158-196 | with the music stopped the player sits iff the first nearest available chair is nearer than 100, occupying it; otherwise chairs are untouched and the velocity is the input's |
| `Players.PlayerUpdateClaimsAtMostOne` | src/entities/Player.ts:99-162 | a frame claims at most the chair the player sits on, never unseats, keeps counts and well-formedness |
| `Players.PlayerCorner` | src/entities/Player.ts:224-237 | a teleport corner is inset 100 from the physics world bounds |
| `Players.Player.constructor` | src/entities/Player.ts:5-17 | a new player is unseated and still at the given place |
| `Players.Player.Update` | src/entities/Player.ts:99-162 | new player and chair states are `PlayerUpdate` of the old |
| `Players.Player.ReadInput` | src/entities/Player.ts:112-134 | the velocity is `InputVelocity` of the input |
| `Players.Player.TryToSit` | src/entities/Player.ts:164-185 | new player and chair states are `PlayerTryToSit` of the old |
| `Players.Player.SitOnChair` | src/entities/Player.ts:187-204 | sits and occupies only an available chair; otherwise nothing changes |
| `Players.Player.IsSeated` | src/entities/Player.ts:206-208 | the seated flag of the state |
| `Players.Player.Stop` | src/entities/Player.ts:214-218 | only the velocity changes, to zero |
| `Players.Player.TeleportToRandomCorner` | src/entities/Player.ts:220-254 | the player stops and stands on the picked corner |
| `Elimination.Unseated` | src/scenes/GameScene.ts:297-298 | the filter keeps only unseated agents of the list |
| `Elimination.UnseatedCount` | src/scenes/GameScene.ts:297-298 | unseated plus seated is everyone, and every unseated agent is kept |
| `Elimination.MinDistIsMinimum` | src/scenes/GameScene.ts:313-324 | the inner loop's value is infinity iff there are no chairs, otherwise the distance to some chair and no more than the distance to any chair |
| `Elimination.FurthestIsFirstMaximum` | src/scenes/GameScene.ts:309-331 | the outer loop ends on a maximum distance, strictly greater than every earlier one (first maximum wins) |
| `Elimination.Victim` | src/scenes/GameScene.ts:305-332 | the eliminated position is within the unseated list |
| `Elimination.VictimIsFurthest` | src/scenes/GameScene.ts:305-332 | the eliminated agent's nearest chair is at least as far as every unseated agent's, strictly further than those before it |
| `Elimination.LoneAgentSearchAgrees` | src/scenes/GameScene.ts:305-307 | skipping the search for a lone unseated agent gives what the search would |
| `Elimination.VictimPreferredOver` | src/scenes/GameScene.ts:326-330 | against any other unseated agent the victim is strictly further, or ties and comes first |
| `Elimination.TieBreakExample` | src/scenes/GameScene.ts:326-330 | with nearest-chair distances 5, 12, 12, 3 the second agent is eliminated |
| `Elimination.MinChairDistance` | src/scenes/GameScene.ts:313-324 | the loop computes `MinDist` over all chairs, fakes included |
| `Elimination.PickEliminated` | src/scenes/GameScene.ts:305-332 | the loop computes `Victim` |
| `Scenes.IndexOfBot` | src/scenes/GameScene.ts:350-353 | `indexOf`: the first bot with that number, or none when no bot has it |
| `Scenes.MechanicChoice` | src/scenes/GameScene.ts:102-109 | round 1 plays MECHANICS[0]; later rounds play MECHANICS[1 + pick], never the plain mechanic |
| `Scenes.ChairPlanShape` | src/scenes/GameScene.ts:147-170 | `totalPlayers − 1` real chairs; three fakes, the last three, exactly under movingChairsWithFakes; none occupied, active or available |
| `Scenes.RosterShape` | src/scenes/GameScene.ts:172-194 | `totalPlayers − 1` bots numbered 1… in order, all hard and unseated, with their drawn delays |
| `Scenes.RoundStartKeepsInv` | src/scenes/GameScene.ts:97-145 | starting a round establishes the scene invariant |
| `Scenes.GameStartShape` | src/scenes/GameScene.ts:31-35 | the game starts in round 1 with the plain mechanic, five bots and five chairs |
| `Scenes.MusicStopKeepsInv` | src/scenes/GameScene.ts:218-272 | stopping the music keeps the invariant under every mechanic |
| `Scenes.ActivateKeepsInv` | src/scenes/GameScene.ts:241-243 | the delayed activation keeps the invariant |
| `Scenes.ContactKeepsInv` | src/scenes/GameScene.ts:197-215 | touching a chair reveals only a fake one, changes no occupancy or availability, and keeps the invariant |
| `Scenes.BotsTickClaims` | src/scenes/GameScene.ts:429-434 | over the bots' pass, each newly seated bot is one more occupied chair |
| `Scenes.TickKeepsInv` | src/scenes/GameScene.ts:412-435 | a frame keeps the invariant |
| `Scenes.JudgeAlwaysEliminates` | src/scenes/GameScene.ts:295-303 | in a live round somebody is unseated, so judging eliminates somebody |
| `Scenes.JudgePicksFurthestUnseated` | src/scenes/GameScene.ts:295-344 | the verdict names the player iff the victim is the player, names only an unseated agent, and the furthest one |
| `Scenes.JudgeKeepsInv` | src/scenes/GameScene.ts:334-353 | judging keeps the invariant; an eliminated bot leaves the list (one fewer) and is announced; the player's elimination leaves the bots alone |
| `Scenes.BotOutKeepsInv` | src/scenes/GameScene.ts:342-353 | removing an unseated bot keeps the invariant and leaves no bot with its number |
| `Scenes.AfterBotOutKeepsInv` | src/scenes/GameScene.ts:355-367 | one agent fewer, one round more; won iff no bot is left, otherwise a new live round |
| `Scenes.FinishKeepsInv` | src/scenes/GameScene.ts:372-379 | losing ends the round and keeps the invariant |
| `Scenes.GameLength` | src/scenes/GameScene.ts:355-362 | the round number stays within 1..6; a won game is in round 6 with no bot left |
| `Scenes.InactiveSceneFrozen` | src/scenes/GameScene.ts:412-413 | with no active round a frame changes nothing |
| `Scenes.MusicTickNoSeat` | src/scenes/GameScene.ts:423-434 | while the music plays nobody sits and the chairs are untouched |
| `Scenes.ActivationBeforeJudgement` | src/scenes/GameScene.ts:229-271 | every activation delay is below 6000 ms; the zero-delay mechanics activate at once; the delayed ones leave every chair of the round inactive and unavailable; after activation exactly the free real chairs are available |
| `Scenes.InactiveUntilMusicStops` | src/scenes/GameScene.ts:147-170 | a new round's chairs are all inactive, and neither a frame during the music nor a contact activates one |
| `Scenes.UnavailableBotsNoSeat` | src/entities/BotPlayer.ts:167-272 | with no chair available the bots' pass claims no chair and seats no bot |
| `Scenes.NoSeatBeforeActivation` | src/scenes/GameScene.ts:412-435 | in the window before a delayed activation a frame seats nobody and leaves the chairs as they were |
| `Scenes.PlayerOutLoses` | src/scenes/GameScene.ts:334-341 | the player out in a live round means the game is lost, the round over, the scene no longer live, and the counters unchanged, whatever the number of agents left; the invariant holds |
| `Scenes.GameOverIsFinal` | src/scenes/GameScene.ts:372-379 | after `gameOver`, won or lost, the scene is not live, the music neither plays nor has just stopped, no bot's elimination is pending, and frames change nothing; so no music stop, judgement or next round can follow |
| `Scenes.BotOutAdvances` | src/scenes/GameScene.ts:342-368 | a bot out in a live round means one agent fewer and one round more, won exactly when one agent is left, otherwise a live new round; the invariant holds |
| `Scenes.OutcomeShape` | src/scenes/GameScene.ts:355-366 | a won game has one agent and no bot; otherwise one real chair fewer than agents |
| `Scenes.GameScene.constructor` | src/scenes/GameScene.ts:31-94 | the scene is the first round started from round 1 with six agents, and the scene invariant holds |
| `Scenes.GameScene.StartRound` | src/scenes/GameScene.ts:97-145 | only before the game is won or lost; new scene is `RoundStart` of the old; with counters that add up, the scene invariant holds after |
| `Scenes.GameScene.SetUpRound` | src/scenes/GameScene.ts:97-121 | mechanic, chairs and agents are the chosen mechanic, the chair plan and the roster; counters untouched |
| `Scenes.GameScene.ClearEntities` | src/scenes/GameScene.ts:400-410 | both lists are emptied, nothing else changes |
| `Scenes.GameScene.CreateChairs` | src/scenes/GameScene.ts:147-170 | appends the chair plan to the chair list |
| `Scenes.GameScene.CreatePlayers` | src/scenes/GameScene.ts:172-194 | a fresh player at spot 0 and the roster appended to the bots |
| `Scenes.GameScene.StopMusic` | src/scenes/GameScene.ts:218-272 | only while the music plays in a live round; new scene is `MusicStop` of the old; returns 0, 300 or 500 ms by mechanic; keeps the scene invariant |
| `Scenes.GameScene.ApplyMechanic` | src/scenes/GameScene.ts:229-262 | the mechanic's part of stopping the music: the scene becomes `MusicStop` of the scene before; returns the mechanic's activation delay |
| `Scenes.GameScene.SilenceMusic` | src/scenes/GameScene.ts:218-220 | only the music flag and the status change; keeps the scene invariant |
| `Scenes.GameScene.StopChairMotion` | src/scenes/GameScene.ts:230-232 | stopping the chairs' motion changes no game state |
| `Scenes.GameScene.ChairOverlap` | src/scenes/GameScene.ts:197-215 | new scene is `ChairContact` of the old; keeps the scene invariant |
| `Scenes.GameScene.ActivateChairs` | src/scenes/GameScene.ts:241-243 | every chair is set active, nothing else changes; keeps the scene invariant |
| `Scenes.GameScene.TeleportAgents` | src/scenes/GameScene.ts:236-239 | the player and every bot stop on their picked corners |
| `Scenes.GameScene.RelocateChairs` | src/scenes/GameScene.ts:245-262 | every chair moves to its drawn position, nothing else changes |
| `Scenes.GameScene.ActivateEach` | src/scenes/GameScene.ts:265 | the loop activates every chair |
| `Scenes.GameScene.TeleportEachChair` | src/scenes/GameScene.ts:247-249 | the loop moves each chair to its drawn position |
| `Scenes.GameScene.TeleportEachBot` | src/scenes/GameScene.ts:239 | the loop sends each bot to its picked corner |
| `Scenes.GameScene.Update` | src/scenes/GameScene.ts:412-435 | new scene is `SceneTick` of the old; keeps the scene invariant |
| `Scenes.GameScene.UpdateBots` | src/scenes/GameScene.ts:429-434 | the loop is the left-to-right fold `BotsTick` |
| `Scenes.GameScene.UpdateBot` | src/scenes/GameScene.ts:432 | one bot's update is `BotUpdate` of its state and the chairs; no other bot changes |
| `Scenes.GameScene.FindBot` | src/scenes/GameScene.ts:350 | returns `IndexOfBot` |
| `Scenes.GameScene.ChooseEliminated` | src/scenes/GameScene.ts:296-332 | returns `Judge` of the scene |
| `Scenes.GameScene.CheckRoundResult` | src/scenes/GameScene.ts:295-353 | only once the music has stopped in a live round (the judging timer of GameScene.ts:267-271); returns the verdict, never "nobody out", and leaves `AfterVerdict`; keeps the scene invariant |
| `Scenes.GameScene.ApplyVerdict` | src/scenes/GameScene.ts:334-353 | new scene is `AfterVerdict` of the old |
| `Scenes.GameScene.ResolveRound` | src/scenes/GameScene.ts:295-370 | only once the music has stopped in a live round; the verdict and the scheduled follow-up together: new scene is `RoundOutcome` of the old (lost after the player's elimination, `AfterBotOut` after a bot's); keeps the scene invariant |
| `Scenes.GameScene.EliminatePlayer` | src/scenes/GameScene.ts:334-341 | only the player's velocity changes |
| `Scenes.GameScene.EliminateBot` | src/scenes/GameScene.ts:342-353 | the bot is announced and removed from the list |
| `Scenes.GameScene.RemoveEliminatedBot` | src/scenes/GameScene.ts:344-353 | the bot list loses the found bot, or is unchanged when none has the number |
| `Scenes.GameScene.NextRoundOrWin` | src/scenes/GameScene.ts:355-367 | runs only after a bot's elimination; new scene is `AfterBotOut` of the old; keeps the scene invariant |
| `Scenes.GameScene.GameOver` | src/scenes/GameScene.ts:372-398 | new scene is `Finish` of the old; losing from a live round keeps the scene invariant |
| `Scenes.GameScene.StopBots` | src/scenes/GameScene.ts:379 | every bot stops, nothing else about them changes |

## Left out

- Rendering, animations, tints, alpha, sprite flipping, HUD and countdown
  texts, name labels and every sound: none of them is game state.
- The physics engine. It integrates velocities into positions, enforces the
  world bounds and resolves collisions. Positions change in the model only by
  sitting and teleporting. The step functions take any positions, so their
  lemmas hold for wherever the engine put the agents. Real chairs' colliders
  only block movement; the fake chairs' overlap is kept as
  `GameScene.ChairOverlap`.
- Trigonometry: the circle layouts (`chairSpot`, `agentSpot`), the bots'
  orbit angle `targetAngle`, and the chase and escape headings. A velocity
  records what it heads for (`Orbit`, `Chase`, `Dodge` with the random
  roll) and its speed, not its components.
- Chair motion tweens: `startMoving`/`moveToRandomPosition` (continuous
  motion during the music) and the 500 ms tween of
  `randomizeChairPositions`. A moved chair is placed at its drawn position
  at once, and so is a teleported chair or agent. `stopMoving` only stops a
  tween.
- Real timers. `time.delayedCall` becomes explicit event methods called in
  sequence, so timer cancellation does not arise. Also left out: the return
  to the menu 2000 ms after `gameOver`, and the 1000 ms wait before
  `gameOver(false)`.
- Randomness. Every draw is a parameter, and the ranges of the drawn
  positions are not enforced.
- Agent names (`getName`). An agent is identified by its number: 0 is the
  player, `i` is "Bot i".
- The `active` filter in `checkRoundResult` and `update`. Destroyed sprites
  never stay in the lists, so every listed agent is active.
- Floating point. Positions are integers; joystick input and velocities are
  reals.
- The other files of the repository are not part of this model: the audio
  manager, the virtual joystick, the menu and preload scenes, the app
  bootstrap and configuration, and the unused ball entity.
