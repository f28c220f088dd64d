# Dodgeball match core, modelled in Dafny

This project models the match logic of a networked dodgeball game. One ball
flies towards players and chases them. A punch sends it back faster, towards
a new target. A match runs through four states: waiting for players, a
"3, 2, 1, GO" countdown, playing, and ending. The last player standing wins
a point. Four components are modelled:

- **NetcoManager** (`roster.dfy`, `netco.dfy`) holds the host's roster. It
  keeps the set of dead connection ids and a score per connection id. It
  broadcasts the lobby list ("name  score" lines joined by newlines), centre
  messages and dead flags to every client.
  - The roster is the pure `Roster.RosterState`, changed by pure transitions.
  - `Netco.NetcoManager` updates it in place.
  - A broadcast is an `Event` appended to the manager's `outbox`.
  - `Netco.Deliver` and the `Receive…` methods model what one client's HUD
    does when an event reaches it.
  - Only the host acts on the roster; a flag says whether this side is the
    host.
- **GameHud** (`hud.dfy`) is the client interface.
  - It holds the centre message and a label per player name.
  - It keeps the set of names flagged dead.
  - It buffers names and a message that arrive before the panel is built.
- **Behavior** (`ballsim.dfy`, `behavior.dfy`) is the ball.
  - `BallSim` holds its pure transitions: punch, kickoff, stop, return home and
    the fixed-step flight. It also holds the properties proved about them.
  - `Behaviour.Behavior` updates the synced fields in place and scans the
    candidates for a target with a loop.
- **GameMode** (`matchspec.dfy`, `gamemode.dfy`) is the match state machine.
  - `MatchSpec` describes a whole frame as a pure function over a `World`
    value.
  - `Gamemode.GameMode` updates its fields, the manager and the ball in place.

`text.dfy` holds the .NET string helpers the core relies on:

- `Split` with and without removal of empty entries, and `Join`;
- formatting of integers and `int.TryParse`;
- `char.IsWhiteSpace`.

## Model inputs

- Scene queries, the clock and networking are parameters of the model:
  - the connected players (`Connection` values whose `id` is the id in "N"
    format);
  - the connections that own a player object;
  - the candidate targets, each with the score the ball would give it and a
    "too close" flag;
  - the set of objects that are still valid;
  - the time step of a frame.
- The directions the ball takes from vector maths are also inputs:
  - the normalised punch direction;
  - the kickoff aim;
  - the steering result for a given turn rate.
- The state timer counts seconds since its last reset. Each frame first adds
  the elapsed time and then runs `OnUpdate`.

## How the code behaves

Where the code does something other than its comments or design intent
suggest, the model follows the code:

- `SetBallActive(false)` still kicks off a round, because the `if` has no
  braces. While the match is waiting or counting down, each frame sends the
  ball home and then launches it again whenever a target exists.
  `MatchSpec.InactiveBallStillLaunched` states this.
- When the HUD panel is first built, it first calls `SetMessage("")` and only
  then shows the buffered player names, so a message buffered before the
  build is lost (`Hud.GameHud.OnTreeFirstBuilt`).
- `SetPlayerDead` looks for the id prefix among the direct children of the
  players panel. After the build those are the background panel and the
  content panel, never labels, so nothing changes
  (`Hud.FlagOnBuiltLayout`).
- HUD labels are keyed by the whole lobby line (`name  score`), while the
  by-name dead flag uses the bare display name. The name is recorded as dead,
  but no label is found for it: a display name without two spaces in a row is
  never one of the unpacked lobby lines (`Roster.ByNameMissesLobbyLabels`).
- While the match is ending, the "not enough players" branch cannot run,
  because the population was checked earlier in the same frame. The model has
  no such branch.

## Model

| member | source | states |
|---|---|---|
| Text.DigitChar | code/Component/NetcoManager.cs:133 | the character for a digit d is a decimal digit whose code is '0' + d |
| Text.NatToString | code/Component/NetcoManager.cs:133 | a formatted natural is non-empty and made of decimal digits only |
| Text.IntToString | code/Component/NetcoManager.cs:133 | a formatted score is non-empty and made of digits and a minus sign |
| Text.TrimStart | code/Component/NetcoManager.cs:233 | the trimmed text is a suffix of the input and does not start with number white space |
| Text.TrimEnd | code/Component/NetcoManager.cs:233 | the trimmed text is a prefix of the input and does not end with number white space |
| Text.TryParseInt | code/Component/NetcoManager.cs:233 | any parsed value lies in the signed 32-bit range |
| Text.ParseSigned | code/Component/NetcoManager.cs:233 | any value parsed after trimming lies in the signed 32-bit range |
| Text.NatToStringValue | code/Component/NetcoManager.cs:133 | the decimal digits of a formatted natural evaluate back to that natural |
| Text.ParseUnsigned | code/Component/NetcoManager.cs:233 | parsing a formatted natural within Int32 gives that natural back |
| Text.ParseNegative | code/Component/NetcoManager.cs:233 | parsing "-" followed by a formatted natural within Int32 gives its negation |
| Text.ParseFormattedInt | code/Component/NetcoManager.cs:233 | every Int32 formatted as text parses back to itself |
| Text.Split | code/Component/NetcoManager.cs:229 | splitting yields at least one piece and no piece contains the separator |
| Text.RemoveEmpty | code/Component/NetcoManager.cs:145-147 | removing empty entries keeps exactly the non-empty pieces; a single piece stays unless it is empty |
| Text.RemoveEmptyAppend | code/Component/NetcoManager.cs:145-147 | removing empty entries works piece by piece: the result for a concatenation is the concatenation of the results, so order is kept |
| Text.Join | code/Component/NetcoManager.cs:135 | joining nothing gives the empty text, and a join starts with its first piece |
| Text.SplitWithoutSeparator | code/Component/NetcoManager.cs:229 | text without the separator splits into itself alone |
| Text.SplitAfterPiece | code/Component/NetcoManager.cs:229 | splitting "a sep b" gives a followed by the pieces of b |
| Text.SplitJoin | code/Component/NetcoManager.cs:135-147 | splitting the join of separator-free pieces gives the pieces back |
| Text.JoinSplit | code/Component/NetcoManager.cs:135-147 | joining the pieces of a split gives the original text back |
| Text.RemoveEmptyKeepsNonEmpty | code/Component/NetcoManager.cs:145-147 | a list without empty pieces is unchanged when empty entries are removed |
| Roster.ScoreOf | code/Component/NetcoManager.cs:131-132 | a connection without a recorded score counts as 0, otherwise its recorded score |
| Roster.AliveConnections | code/Component/NetcoManager.cs:64-67 | a connection is alive exactly when it is connected and its id is not in the dead set; a single connection is kept exactly when it is not dead |
| Roster.AliveConnectionsAppend | code/Component/NetcoManager.cs:64-67 | the alive filter works connection by connection, so the alive list keeps connection order |
| Roster.FirstById | code/Component/NetcoManager.cs:256-257 | finds a connected player with that id when one exists, and none otherwise |
| Roster.ParsePlayerList | code/Component/NetcoManager.cs:142-147 | an empty packet gives no names, and every name received is non-empty and has no newline |
| Roster.LobbyLine | code/Component/NetcoManager.cs:129-134 | a lobby line starts with the display name followed by two spaces, with at least one character after them |
| Roster.LobbyLineScore | code/Component/NetcoManager.cs:129-134 | what follows the name and the two spaces is the connection's score, which parses back to it; a connection without a score shows "0" |
| Roster.LobbyLines | code/Component/NetcoManager.cs:129-134 | one lobby line per connection, in connection order, each starting with that connection's display name |
| Roster.LobbySnapshot | code/Component/NetcoManager.cs:129-136 | the packed lobby list is empty exactly when nobody is connected |
| Roster.NameIsNoLobbyLine | code/Component/NetcoManager.cs:129-134 | a text without two spaces in a row is never a lobby line |
| Roster.ByNameMissesLobbyLabels | code/Component/NetcoManager.cs:129-147 | such a display name is never among the names a client unpacks from the lobby list, so the by-name dead flag finds no label for it |
| Roster.LobbyLineShape | code/Component/NetcoManager.cs:129-134 | a lobby line is non-empty and holds no newline whenever the display name has none |
| Roster.LobbyRoundTrip | code/Component/NetcoManager.cs:129-147 | the lobby lines the host packs are exactly the names every client unpacks |
| Roster.LobbySnapshotExample | code/Component/NetcoManager.cs:129-135 | two players, one with 3 points, pack as "Alice  3\nBob  0" |
| Roster.AddPoint | code/Component/NetcoManager.cs:69-82 | on the host, the winner's score goes up by one and no other score changes; elsewhere nothing changes |
| Roster.RemovePlayer | code/Component/NetcoManager.cs:84-94 | on the host, the leaver's dead flag and score are both forgotten; elsewhere nothing changes |
| Roster.RefreshLobby | code/Component/NetcoManager.cs:121-139 | on the host, exactly one lobby list with the current scores is broadcast |
| Roster.MessageAll | code/Component/NetcoManager.cs:159-168 | the message is broadcast and the roster is unchanged |
| Roster.SetDeadState | code/Component/NetcoManager.cs:181-194 | on the host, only that connection's dead flag becomes the new value, and the id-keyed update is broadcast |
| Roster.NameEvents | code/Component/NetcoManager.cs:256-260 | a by-name update is sent exactly when a connected player has that id and a non-empty display name |
| Roster.RpcSetDeadState | code/Component/NetcoManager.cs:246-261 | an empty id is ignored; otherwise only that id's dead flag changes and the by-name update follows |
| Roster.AliveByName | code/Component/NetcoManager.cs:275-278 | one "alive" update per connected player, in connection order |
| Roster.ResetMatch | code/Component/NetcoManager.cs:263-282 | on the host, nobody is dead, scores are cleared when asked, and every player is announced alive |
| Roster.ResetMatchTwice | code/Component/NetcoManager.cs:263-282 | resetting twice without clearing scores leaves the same dead set and scores as resetting once |
| Roster.DeathRemovesFromAlive | code/Component/NetcoManager.cs:246-261 | after a player is marked dead, no connection with that id counts as alive |
| Netco.NetcoManager.constructor | code/Component/NetcoManager.cs:10-14 | a fresh manager has no dead players, no scores and nothing sent |
| Netco.NetcoManager.ServerAddPoint | code/Component/NetcoManager.cs:69-82 | the stored roster becomes Roster.AddPoint of the old one |
| Netco.NetcoManager.ServerRemovePlayer | code/Component/NetcoManager.cs:84-94 | the stored roster becomes Roster.RemovePlayer of the old one |
| Netco.NetcoManager.ServerRefreshLobbyState | code/Component/NetcoManager.cs:121-139 | the stored roster becomes Roster.RefreshLobby of the old one |
| Netco.NetcoManager.HudMessageAll | code/Component/NetcoManager.cs:159-168 | the stored roster becomes Roster.MessageAll of the old one |
| Netco.NetcoManager.ServerSetPlayerDeadState | code/Component/NetcoManager.cs:181-194 | the stored roster becomes Roster.SetDeadState of the old one |
| Netco.NetcoManager.ServerMarkPlayerDead | code/Component/NetcoManager.cs:170-174 | marking a player dead is the dead-state update with true |
| Netco.NetcoManager.ServerMarkPlayerAlive | code/Component/NetcoManager.cs:176-179 | marking a player alive is the dead-state update with false |
| Netco.NetcoManager.RpcSetDeadState | code/Component/NetcoManager.cs:246-261 | the stored roster becomes Roster.RpcSetDeadState of the old one |
| Netco.NetcoManager.ServerResetMatch | code/Component/NetcoManager.cs:263-282 | the stored roster becomes Roster.ResetMatch of the old one, the loop sending one alive update per player |
| Netco.ReceivePlayerList | code/Component/NetcoManager.cs:142-157 | the client buffers the unpacked names and, once built, shows exactly those names |
| Netco.ReceiveMessage | code/Component/NetcoManager.cs:159-168 | the client buffers the message and, once built, shows it in the centre label |
| Netco.ReceiveDeadState | code/Component/NetcoManager.cs:209-217 | a built client flags the first list child carrying the id prefix; an unbuilt one ignores the update |
| Netco.ReceiveDeadStateByName | code/Component/NetcoManager.cs:240-245 | a built client records or clears the name in its dead set; blank names and unbuilt clients change nothing |
| Netco.ParseDeadLine | code/Component/NetcoManager.cs:229-235 | a line is accepted exactly when it has two '\|' pieces and the second parses; it is dead exactly when that number is 1 |
| Netco.ParseDeadLines | code/Component/NetcoManager.cs:227-237 | no more entries come out than lines went in; a single line gives its entry, or nothing when it is malformed |
| Netco.ParseDeadLinesAppend | code/Component/NetcoManager.cs:227-237 | the lines are parsed one by one: the entries of a concatenation are the entries of each part, in order |
| Netco.MalformedLineKeepsTheRest | code/Component/NetcoManager.cs:229-230 | a malformed line is skipped and the lines before and after it still apply, in order |
| Netco.DeadSnapshotEntries | code/Component/NetcoManager.cs:219-238 | an empty snapshot applies nothing, and no more entries are applied than there are lines |
| Netco.DeadSnapshotText | code/Component/NetcoManager.cs:201-204 | the packed snapshot is empty exactly when there are no entries |
| Netco.ApplyDeadEntries | code/Component/NetcoManager.cs:227-237 | applying the entries keeps the number of list children and never changes a child that is not a label |
| Netco.SnapshotOnBuiltLayout | code/Component/NetcoManager.cs:219-238 | on the list panel as the HUD builds it, a whole dead snapshot changes nothing |
| Netco.DeadLines | code/Component/NetcoManager.cs:201-204 | one "id\|0/1" line per entry, in order |
| Netco.FlagParses | code/Component/NetcoManager.cs:233-235 | the "1" and "0" flags of a dead line parse back to 1 and 0 |
| Netco.DeadLineRoundTrip | code/Component/NetcoManager.cs:201-236 | a well-formed entry's line is non-empty and parses back to that entry |
| Netco.ParseDeadLinesOfWellFormed | code/Component/NetcoManager.cs:227-237 | parsing the lines of well-formed entries gives the entries back |
| Netco.DeadSnapshotRoundTrip | code/Component/NetcoManager.cs:201-236 | a packed dead snapshot unpacks to exactly the entries that were packed |
| Netco.MalformedLineSkipped | code/Component/NetcoManager.cs:229-230 | a line without a '\|' is skipped |
| Netco.ReceiveDeadSnapshot | code/Component/NetcoManager.cs:219-238 | a built client applies every parsed entry in order, as the loop over the lines does; an unbuilt one changes nothing |
| Netco.Deliver | code/Component/NetcoManager.cs:142-245 | for each kind of broadcast, the fields its handler sets take the handler's values (the names shown, the centre label, the id-prefixed child flagged, the by-name dead set and label, every snapshot entry applied), an unbuilt HUD ignores all but the buffers, and every other HUD field is unchanged |
| Hud.LabelsFor | code/Component/hud/Gamehud.cs:195-214 | one label per name, in order, flagged dead exactly when the name is in the dead set |
| Hud.FirstPrefixed | code/Component/hud/Gamehud.cs:232-245 | finds the first child label starting with the prefix, or says that none does |
| Hud.FlagFirstPrefixed | code/Component/hud/Gamehud.cs:232-245 | only the first matching child changes, taking the dead flag; all other children stay the same |
| Hud.FlagOnBuiltLayout | code/Component/hud/Gamehud.cs:47-56 | on the list panel as built, a dead-flag update by id changes nothing |
| Hud.GameHud.constructor | code/Component/hud/Gamehud.cs:13-26 | a new HUD is unbuilt, with an empty buffered message, no buffered names, no labels and no dead names |
| Hud.GameHud.SetMessage | code/Component/hud/Gamehud.cs:184-193 | the message is buffered (null as empty) and, when built, shown, with the label hidden when empty |
| Hud.GameHud.SetPlayerNames | code/Component/hud/Gamehud.cs:195-214 | the names are buffered and, when built, the list shows exactly those names, each keyed and flagged from the dead set |
| Hud.GameHud.SetPlayerDeadByName | code/Component/hud/Gamehud.cs:216-228 | a blank name changes nothing; otherwise the name enters or leaves the dead set and its label, if any, takes the flag |
| Hud.GameHud.SetPlayerDead | code/Component/hud/Gamehud.cs:232-245 | the list panel's children are those of Hud.FlagFirstPrefixed for "id - " |
| Hud.GameHud.OnTreeFirstBuilt | code/Component/hud/Gamehud.cs:28-65 | an owner-proxy HUD stays unbuilt; otherwise it is built, shows the buffered names and an empty message |
| BallSim.DefaultConfig | code/Component/Behavior.cs:10-38 | the defaults are a starting speed of 400, a maximum of 500, a hit multiplier of 1.05, turn rates of 6 and 1.75, a boost of 0.05 s and a speed chase rate of 0.25; so the starting speed is positive and at most the maximum, and the multiplier is at least 1 |
| BallSim.ChaseStep | code/Component/Behavior.cs:284 | the step a chase may take in one frame is never negative |
| BallSim.ChaseFloat | code/Component/Behavior.cs:282-291 | the value reaches the target exactly when it is within one step; otherwise it moves one full step towards it, stays between start and target and never gets further away |
| BallSim.HitSpeed | code/Component/Behavior.cs:193-196 | a resting ball starts at the starting speed; a moving one speeds up by the multiplier, capped at the maximum |
| BallSim.BoostTick | code/Component/Behavior.cs:258-267 | while boosted, the boost rate is used and the time left becomes max(0, left - dt); otherwise the normal rate is used and nothing changes |
| BallSim.BoostRunsOut | code/Component/Behavior.cs:258-267 | a step at least as long as the boost left ends the boost |
| BallSim.ScanFrom | code/Component/Behavior.cs:227-256 | the scan's pick is a valid index |
| BallSim.SelectIndex | code/Component/Behavior.cs:227-256 | the selected candidate is a valid index |
| BallSim.SelectTarget | code/Component/Behavior.cs:227-256 | a target is found exactly when the scan picks a candidate, and it is the id of one of the candidates |
| BallSim.ScanFromSpec | code/Component/Behavior.cs:227-256 | resuming the scan yields the first eligible candidate that strictly beats everything before it, or keeps the current best |
| BallSim.SelectIndexSpec | code/Component/Behavior.cs:227-256 | the target is the first eligible candidate with the highest score above -1, and none exists only when no eligible candidate scores above -1 |
| BallSim.SelectTargetSafe | code/Component/Behavior.cs:227-256 | the target is valid, is not the excluded player and is not too close |
| BallSim.SelectUniqueBest | code/Component/Behavior.cs:227-256 | an eligible candidate scoring above all others is the one chosen |
| BallSim.TerrainClamp | code/Component/Behavior.cs:293-305 | without a hitbox, or above the ground, nothing changes; otherwise the ball is lifted to rest on the ground and its vertical direction turns upwards |
| BallSim.PunchSim | code/Component/Behavior.cs:187-210 | a punch remembers the old target, applies the hit speed, launches the ball, starts the boost, takes the hit direction and targets the best candidate other than the puncher |
| BallSim.Kickoff | code/Component/Behavior.cs:327-353 | when a target exists, the ball launches at the starting speed towards the aim; otherwise it rests |
| BallSim.Stop | code/Component/Behavior.cs:355-374 | the simulating side rests the ball, ends the boost and forgets both targets |
| BallSim.ReturnHome | code/Component/Behavior.cs:155-171 | the simulating side puts the ball back at its home position and rotation |
| BallSim.FixedUpdate | code/Component/Behavior.cs:89-125 | a proxy does nothing; an idle ball only syncs its position; a flying ball keeps a live target or reacquires one excluding the previous target, steers towards it at the rate the boost timer gives while ticking that timer, chases the maximum speed, steps along its direction by speed times dt, lands on the ground and syncs its position |
| BallSim.Reacquire | code/Component/Behavior.cs:103-104 | a live target is kept; otherwise the new target is the fresh pick, which is live and never the previous target |
| BallSim.Steer | code/Component/Behavior.cs:106-112 | with a live target, the direction is steered at the boost timer's rate and the timer ticks; without one nothing changes; nothing else ever changes |
| BallSim.Move | code/Component/Behavior.cs:114-122 | the speed chases the maximum and stays within bounds, the ball steps speed times dt along its direction, is clamped to the ground and syncs its position; nothing else changes |
| BallSim.ApplyKeepsSpeedBounded | code/Component/Behavior.cs:187-196 | with a sane tuning, every step keeps the speed between 0 and the maximum and the boost non-negative |
| BallSim.RunKeepsSpeedBounded | code/Component/Behavior.cs:89-125 | any sequence of punches, frames, kickoffs, stops and returns keeps the speed between 0 and the maximum |
| BallSim.RunKeepsBoostNonNegative | code/Component/Behavior.cs:258-267 | the boost time left never becomes negative along any run |
| Behaviour.Behavior.constructor | code/Component/Behavior.cs:75-87 | the start pose becomes home, the ball rests facing forward and the simulating side syncs its position |
| Behaviour.Behavior.AcquireTarget | code/Component/Behavior.cs:227-256 | the loop picks exactly BallSim.SelectTarget |
| Behaviour.Behavior.GetCurrentDirectionRateAndTickTimer | code/Component/Behavior.cs:258-267 | the rate and the new boost time are those of BallSim.BoostTick |
| Behaviour.Behavior.HandleTerrainCollision | code/Component/Behavior.cs:293-305 | the position and direction become those of BallSim.TerrainClamp |
| Behaviour.Behavior.ApplyPunchSim | code/Component/Behavior.cs:187-210 | the ball state becomes BallSim.PunchSim of the old state |
| Behaviour.Behavior.ServerKickoffRound | code/Component/Behavior.cs:327-353 | the ball state becomes BallSim.Kickoff of the old state |
| Behaviour.Behavior.ServerStopRound | code/Component/Behavior.cs:355-374 | the ball state becomes BallSim.Stop of the old state |
| Behaviour.Behavior.ServerReturnHome | code/Component/Behavior.cs:155-171 | the ball state becomes BallSim.ReturnHome of the old state |
| Behaviour.Behavior.Advance | code/Component/Behavior.cs:115-122 | the ball state becomes BallSim.Move of the old state |
| Behaviour.Behavior.OnFixedUpdate | code/Component/Behavior.cs:89-125 | the ball state becomes BallSim.FixedUpdate of the old state |
| MatchSpec.MinPlayers | code/Component/Gamemode.cs:149-153 | the manager's minimum applies when there is a manager, otherwise 2 |
| MatchSpec.DefaultSetup | code/Component/Gamemode.cs:14-17 | a round ends after 3 seconds and the countdown ticks every second |
| MatchSpec.EnoughPlayersAtDefault | code/Component/Gamemode.cs:149-153 | without a manager two connections are enough to play; with one, its minimum decides |
| MatchSpec.WaitingMessage | code/Component/Gamemode.cs:155-159 | the waiting message reads "En attente de joueurs (" ... ")" |
| MatchSpec.WaitingMessageCounts | code/Component/Gamemode.cs:155-159 | the two numbers between the parentheses, split at '/', are the connection count and the minimum |
| MatchSpec.SetBallActive | code/Component/Gamemode.cs:232-252 | only the ball changes; activating sends it home first, and both activating and deactivating kick off a round |
| MatchSpec.RecenterBall | code/Component/Gamemode.cs:299-305 | only the ball changes, returning home |
| MatchSpec.Owners | code/Component/Gamemode.cs:185-194 | no more owners than connections; a single connection is an owner exactly when it owns a player |
| MatchSpec.OwnersAppend | code/Component/Gamemode.cs:185-194 | owners are taken connection by connection, so they come in connection order |
| MatchSpec.RespawnOrders | code/Component/Gamemode.cs:181-204 | one respawn order per connection that owns a player |
| MatchSpec.RespawnAll | code/Component/Gamemode.cs:181-204 | without spawn points nothing happens; otherwise the round-robin orders are added, every player owner's id leaves the dead set, scores stay, and exactly the "alive" broadcasts of MatchSpec.ReviveEvents are sent |
| MatchSpec.ReviveOwners | code/Component/Gamemode.cs:181-204 | reviving keeps every score and only adds to what has been broadcast |
| MatchSpec.ReviveEvents | code/Component/Gamemode.cs:191-202 | the revival broadcasts are all by-name "alive" updates, at most one per connection, and every player owner with a non-empty id whose connection has a non-empty display name gets one |
| MatchSpec.ReviveOwnersBroadcasts | code/Component/Gamemode.cs:199-202 | reviving appends exactly the MatchSpec.ReviveEvents broadcasts to what was sent before |
| MatchSpec.RespawnStep | code/Component/Gamemode.cs:191-203 | each further connection adds one round-robin order and one revival when it owns a player, and nothing otherwise |
| MatchSpec.BeginCountdown | code/Component/Gamemode.cs:281-298 | the countdown starts at 3 with its first deadline one step away and a fresh state time, everyone is respawned alive, "3" is shown, the lobby is refreshed on the host, and the ball is launched then recentred |
| MatchSpec.UpdateCountdown | code/Component/Gamemode.cs:318-346 | before the deadline nothing changes; at it the value drops by one, "n", "GO" or "" is shown, the deadline moves one step, and below zero play starts with the ball sent home and launched |
| MatchSpec.CheckRoundEnd | code/Component/Gamemode.cs:206-230 | with two or more alive nothing changes; otherwise the round ends, the ball is recentred, a sole survivor gains a point and is announced, and nobody alive is a draw |
| MatchSpec.Tick | code/Component/Gamemode.cs:82-136 | a proxy only advances its clock; too few players always means Waiting; a frame never loses spawns, respawn orders or broadcasts |
| MatchSpec.OnActive | code/Component/Gamemode.cs:254-263 | a proxy does nothing; otherwise the host broadcasts the lobby, then the waiting message while waiting, and nothing else changes |
| MatchSpec.JoinBroadcastsLobby | code/Component/Gamemode.cs:254-263 | the lobby list broadcast when someone joins unpacks to one line per connection |
| MatchSpec.OnDisconnected | code/Component/Gamemode.cs:265-279 | a proxy does nothing; otherwise the leaver is removed and, with too few players left, the match returns to Waiting with the ball kicked off again |
| MatchSpec.ResetMatchState | code/Component/Gamemode.cs:65-76 | the match waits afresh with the new spawn points, the roster is reset with its scores cleared, the waiting message is shown and the ball is kicked off |
| MatchSpec.OnStart | code/Component/Gamemode.cs:39-53 | a proxy does nothing; the simulating side starts Waiting with the scene's spawn points |
| MatchSpec.OnDisabled | code/Component/Gamemode.cs:55-63 | a proxy does nothing; otherwise only the ball changes, kicked off from where it is |
| MatchSpec.UnderpopulatedTickWaits | code/Component/Gamemode.cs:87-101 | with too few players the match goes to Waiting (restarting the state time only on a change), the ball is launched then recentred so a simulated ball stands at home, the waiting message is shown, and nothing else changes |
| MatchSpec.WaitingStartsCountdown | code/Component/Gamemode.cs:105-108 | with enough players, a waiting match starts the countdown at 3, sending the revival broadcasts (when there are spawn points), then "3", then the lobby on the host |
| MatchSpec.ReviveOwnersRevives | code/Component/Gamemode.cs:181-204 | after reviving, the dead set is the old one minus every player owner's id |
| MatchSpec.CountdownWaitsForDeadline | code/Component/Gamemode.cs:318-346 | before the next deadline the countdown only advances its timer |
| MatchSpec.CountdownCrossesDeadline | code/Component/Gamemode.cs:318-346 | at a deadline the count drops by one and shows the number, then "GO", then clears and starts play |
| MatchSpec.CountdownRuns | code/Component/Gamemode.cs:281-346 | from the start of a countdown, one-second frames show "2", "1", "GO", then "" and play begins |
| MatchSpec.PlayingContinues | code/Component/Gamemode.cs:206-230 | while more than one player is alive, play goes on untouched |
| MatchSpec.SoleSurvivorScores | code/Component/Gamemode.cs:206-230 | a sole survivor ends the round, gains a point and is announced as winner |
| MatchSpec.NoSurvivorDraws | code/Component/Gamemode.cs:206-230 | with nobody alive the round ends as a draw and no score changes |
| MatchSpec.EndingWaitsThenRestarts | code/Component/Gamemode.cs:121-134 | an ending match waits for the end delay, then starts a new countdown |
| MatchSpec.TickKeepsCountdownInRange | code/Component/Gamemode.cs:82-136 | while counting down, the countdown value stays between 0 and 3 after every frame |
| MatchSpec.TickScores | code/Component/Gamemode.cs:206-230 | a frame changes scores only by giving a sole survivor one point |
| MatchSpec.RespawnRoundRobin | code/Component/Gamemode.cs:189-200 | the k-th player owner is sent to spawn point k modulo the number of spawn points |
| MatchSpec.OwnersAreOwners | code/Component/Gamemode.cs:185-194 | a connection is in the owner list exactly when it owns a player object |
| MatchSpec.InactiveBallStillLaunched | code/Component/Gamemode.cs:232-252 | deactivating the ball still launches it when a target exists |
| MatchSpec.DisconnectUpdatesRoster | code/Component/Gamemode.cs:265-279 | a leaver loses its dead flag and score, and too few players sends the match back to Waiting |
| MatchSpec.ResetClearsEverything | code/Component/Gamemode.cs:65-76 | a reset starts Waiting with nobody dead, no scores and the scene's spawn points |
| Gamemode.GameMode.constructor | code/Component/Gamemode.cs:14-37 | a new game mode waits with a countdown of 3, no spawn points and no respawns |
| Gamemode.GameMode.UpdateWaitingMessage | code/Component/Gamemode.cs:155-159 | the waiting message is broadcast and nothing else changes |
| Gamemode.GameMode.SetBallActive | code/Component/Gamemode.cs:232-252 | the world becomes MatchSpec.SetBallActive of the old one |
| Gamemode.GameMode.RecenterBall | code/Component/Gamemode.cs:299-305 | the world becomes MatchSpec.RecenterBall of the old one |
| Gamemode.GameMode.RespawnAllPlayersAlive | code/Component/Gamemode.cs:181-204 | the world becomes MatchSpec.RespawnAll of the old one, the loop giving round-robin orders and revivals |
| Gamemode.GameMode.RespawnOwners | code/Component/Gamemode.cs:189-200 | the loop gives each player owner the next spawn point in turn and revives it, as MatchSpec.RespawnOrders and MatchSpec.ReviveOwners say |
| Gamemode.GameMode.BeginCountdown | code/Component/Gamemode.cs:281-298 | the world becomes MatchSpec.BeginCountdown of the old one |
| Gamemode.GameMode.UpdateCountdown | code/Component/Gamemode.cs:318-346 | the world becomes MatchSpec.UpdateCountdown of the old one |
| Gamemode.GameMode.CheckRoundEnd | code/Component/Gamemode.cs:206-230 | the world becomes MatchSpec.CheckRoundEnd of the old one |
| Gamemode.GameMode.OnUpdate | code/Component/Gamemode.cs:82-136 | the world becomes MatchSpec.Tick of the old one |
| Gamemode.GameMode.OnActive | code/Component/Gamemode.cs:254-263 | the world becomes MatchSpec.OnActive of the old one |
| Gamemode.GameMode.OnDisconnected | code/Component/Gamemode.cs:265-279 | the world becomes MatchSpec.OnDisconnected of the old one |
| Gamemode.GameMode.ResetMatchState | code/Component/Gamemode.cs:65-76 | the world becomes MatchSpec.ResetMatchState of the old one |
| Gamemode.GameMode.OnStart | code/Component/Gamemode.cs:39-53 | the world becomes MatchSpec.OnStart of the old one |
| Gamemode.GameMode.OnDisabled | code/Component/Gamemode.cs:55-63 | the world becomes MatchSpec.OnDisabled of the old one |

## Left out

- Roster.AddPoint: scores are unbounded integers; the 32-bit overflow of `score + 1` is not modelled.
- Text.TryParseInt: only ASCII digits, an optional leading sign and .NET number white space are accepted; culture-specific signs and trailing NUL characters are not modelled.
- BallSim.TerrainClamp: the reflected direction is not re-normalised; normalisation is vector maths, which is left out.
- Netco.NetcoManager.ServerSetPlayerDeadState: the code reads the connection's id before checking for null, so the model takes a connection that is always present.
- `BroadcastDeadSnapshot` is never called. It writes ids in the default Guid format but looks up dead ids in "N" format. Only its line format is modelled, by `Netco.DeadSnapshotText`.
- `GameMode.StartRound` is never called, so it is not modelled.
- `RequestLobbySnapshotFromHud` and `RpcRequestLobbySnapshot` only forward a client's request to `ServerRefreshLobbyState`, so they are not modelled.
- The singleton handling is not modelled: `EnsureInstance`, automatic spawning of the manager, and `GameHud.Instance`. Host authority is a flag, and "the HUD exists" is the `built` flag.
- Network transport, RPC ordering and ownership transfer are not modelled. Broadcasts are appended to an outbox in call order.
- Vector maths is not modelled: `ChaseVector`, normalisation, the eye offset, dot products and the proxy's position interpolation in `Behavior.OnUpdate`. The resulting directions and candidate scores are inputs.
- Floating point is not modelled; ball scalars are exact reals, without rounding or NaN.
- The `RefreshTargets` scene query and the target cache are not modelled. Candidates and the set of valid objects are inputs.
- `Punch` and `PunchRequest` only route a punch to the owner, who runs `ApplyPunchSim`. The model applies the punch directly.
- Sound, visual effects, debug drawing and rigidbody velocity zeroing are not modelled.
- The ball indicator, the camera, the panel and stylesheet construction and `OnUpdate` of the HUD are not modelled. The built list panel is a fixed layout of a background panel and a content panel.
- Player objects (`Bbplayer`, `PropppBehavior`, bots) are not part of this model. Their `ServerRespawnAt` is recorded as an order with the spawn pose.
- Every kickoff within one frame uses the same candidates and aim. In the code, the ball re-scores its candidates on each kickoff, after it has gone home and the players have respawned.
- `CacheSpawns` is not modelled; the spawn poses it finds in the scene are a parameter.
- The culture-sensitive `StartsWith` of `SetPlayerDead` is taken as an ordinal prefix test.
