/**
  The match state machine of GameMode as values: the host's match variables,
  the roster store it drives and the ball it launches and recentres, with one
  function per GameMode operation and the properties of a tick.

  `stateTime` stands for the `TimeSince` field: a reset sets it to 0 and the
  clock adds each frame's elapsed time to it. The connection list, which
  connections own a live player, the ball's target candidates and the aim at
  the chosen target are explicit inputs (`Env`).
*/
module MatchSpec {
  import opened Wrappers
  import opened Text
  import opened Roster
  import opened BallSim

  datatype MatchState = Waiting | Countdown | Playing | Ending

  /** A spawn point's transform. */
  datatype Pose = Pose(position: Vec3, rotation: Rot)

  /** A `ServerRespawnAt` order to the player owned by `connectionId`. */
  datatype Respawn = Respawn(connectionId: string, pose: Pose)

  /** The ball object GameMode finds: its properties, whether it is a proxy, and its state. */
  datatype Ball = Ball(config: BallConfig, isProxy: bool, state: BallState)

  /**
    What does not change during a match: whether this GameMode is a proxy, whether the NetcoManager is
    the authority, the player minimum in force, and the `RoundEndDelay` and `CountdownStepSeconds` properties.
  */
  datatype Setup = Setup(isProxy: bool, authority: bool, minPlayers: int, roundEndDelay: real, countdownStep: real)

  /** The minimum: the NetcoManager's `MinPlayersToStart` when an instance exists, else 2. */
  function MinPlayers(instanceMin: Option<int>): (m: int)
    ensures instanceMin.None? ==> m == 2
    ensures instanceMin.Some? ==> m == instanceMin.value
  {
    instanceMin.GetOr(2)
  }

  /** `Setup` with the property defaults: a 3-second round end and 1-second countdown steps. */
  function DefaultSetup(isProxy: bool, authority: bool, instanceMin: Option<int>): (s: Setup)
    ensures s.roundEndDelay == 3.0 && s.countdownStep == 1.0
  {
    Setup(isProxy, authority, MinPlayers(instanceMin), 3.0, 1.0)
  }

  /** `Connection.All`, the connection ids that own a valid player, the ball's candidates and its aim. */
  datatype Env = Env(conns: seq<Connection>, players: set<string>, cands: seq<Candidate>, live: set<nat>, aim: Vec3)

  datatype World = World(
    state: MatchState,
    stateTime: real,
    countdownValue: int,
    nextCountdownAt: real,
    spawns: seq<Pose>,
    /** The respawn orders issued so far, oldest first. */
    respawns: seq<Respawn>,
    roster: RosterState,
    /** `None` when no object carries the ball component. */
    ball: Option<Ball>)

  // ---------------------------------------------------------------------------
  // Helpers of GameMode

  predicate HasEnoughPlayers(setup: Setup, conns: seq<Connection>) {
    |conns| >= setup.minPlayers
  }

  /** Without a NetcoManager two connections are enough; with one, its minimum decides. */
  lemma EnoughPlayersAtDefault(isProxy: bool, authority: bool, instanceMin: Option<int>, conns: seq<Connection>)
    ensures instanceMin.None? ==> (HasEnoughPlayers(DefaultSetup(isProxy, authority, instanceMin), conns) <==> |conns| >= 2)
    ensures instanceMin.Some? ==>
      (HasEnoughPlayers(DefaultSetup(isProxy, authority, instanceMin), conns) <==> |conns| >= instanceMin.value)
  {
  }

  const WaitingPrefix := "En attente de joueurs ("

  /** "En attente de joueurs (n/min)". */
  function WaitingMessage(setup: Setup, conns: seq<Connection>): (m: string)
    ensures WaitingPrefix <= m && |m| > |WaitingPrefix| + 3 && m[|m| - 1] == ')'
  {
    WaitingPrefix + (IntToString(|conns|) + "/" + IntToString(setup.minPlayers)) + ")"
  }

  /** Between the parentheses the waiting message shows the connection count and the minimum, which parse back. */
  lemma WaitingMessageCounts(setup: Setup, conns: seq<Connection>)
    requires |conns| <= MaxInt32 && MinInt32 <= setup.minPlayers <= MaxInt32
    ensures var m := WaitingMessage(setup, conns);
      var parts := Split(m[|WaitingPrefix|..|m| - 1], '/');
      && |parts| == 2
      && TryParseInt(parts[0]) == Some(|conns|)
      && TryParseInt(parts[1]) == Some(setup.minPlayers)
  {
    var n := IntToString(|conns|);
    var k := IntToString(setup.minPlayers);
    var inner := n + "/" + k;
    var m := WaitingMessage(setup, conns);
    MiddleSlice(WaitingPrefix, inner, ")");
    assert m[|WaitingPrefix|..|m| - 1] == inner;
    NoSlashInNumber(|conns|);
    NoSlashInNumber(setup.minPlayers);
    SplitAfterPiece(n, '/', k);
    SplitWithoutSeparator(k, '/');
    assert Split(inner, '/') == [n, k];
    ParseFormattedInt(|conns|);
    ParseFormattedInt(setup.minPlayers);
  }

  lemma MiddleSlice(p: string, x: string, q: string)
    ensures (p + x + q)[|p|..|p + x + q| - |q|] == x
  {
    assert (p + x + q)[|p|..|p| + |x|] == x;
  }

  lemma NoSlashInNumber(i: int)
    ensures '/' !in IntToString(i)
  {
    var n := IntToString(i);
    forall j | 0 <= j < |n|
      ensures n[j] != '/'
    {
      assert IsDigit(n[j]) || n[j] == '-';
    }
  }

  /** `SetBallActive`: the return home is guarded by `active`, the kickoff is not. */
  function SetBallActive(w: World, active: bool, env: Env): (w': World)
    ensures w'.ball.None? <==> w.ball.None?
    ensures w' == w.(ball := w'.ball)
    ensures w.ball.Some? ==>
      var b := w.ball.value;
      var start := if active then ReturnHome(b.config, b.state, b.isProxy) else b.state;
      w'.ball.value == b.(state := Kickoff(b.config, start, b.isProxy, env.cands, env.live, env.aim))
  {
    match w.ball
    case None => w
    case Some(b) =>
      var start := if active then ReturnHome(b.config, b.state, b.isProxy) else b.state;
      w.(ball := Some(b.(state := Kickoff(b.config, start, b.isProxy, env.cands, env.live, env.aim))))
  }

  /** `RecenterBall`. */
  function RecenterBall(w: World): (w': World)
    ensures w' == w.(ball := w'.ball)
    ensures w.ball.None? ==> w'.ball.None?
    ensures w.ball.Some? ==> w'.ball == Some(w.ball.value.(state := ReturnHome(w.ball.value.config, w.ball.value.state, w.ball.value.isProxy)))
  {
    match w.ball
    case None => w
    case Some(b) => w.(ball := Some(b.(state := ReturnHome(b.config, b.state, b.isProxy))))
  }

  /** The connections that own a player, in order. */
  function Owners(conns: seq<Connection>, players: set<string>): (os: seq<Connection>)
    ensures |os| <= |conns|
    ensures |conns| == 1 ==> os == if conns[0].id in players then conns else []
    decreases |conns|
  {
    if |conns| == 0 then []
    else
      var prev := Owners(conns[..|conns| - 1], players);
      if conns[|conns| - 1].id in players then prev + [conns[|conns| - 1]] else prev
  }

  /** Owners of a concatenation are the owners of each part, in connection order. */
  lemma {:induction false} OwnersAppend(a: seq<Connection>, b: seq<Connection>, players: set<string>)
    ensures Owners(a + b, players) == Owners(a, players) + Owners(b, players)
    decreases |b|
  {
    if |b| == 0 {
      assert a + b == a;
    } else {
      var init := b[..|b| - 1];
      assert (a + b)[..|a + b| - 1] == a + init;
      assert (a + b)[|a + b| - 1] == b[|b| - 1];
      OwnersAppend(a, init, players);
    }
  }

  /** The respawn orders of `RespawnAllPlayersAlive`: the counter only advances on a connection that owns a player. */
  function RespawnOrders(spawns: seq<Pose>, conns: seq<Connection>, players: set<string>): (rs: seq<Respawn>)
    requires |spawns| > 0
    ensures |rs| == |Owners(conns, players)|
    decreases |conns|
  {
    if |conns| == 0 then []
    else
      var prev := RespawnOrders(spawns, conns[..|conns| - 1], players);
      var c := conns[|conns| - 1];
      if c.id in players then prev + [Respawn(c.id, spawns[|prev| % |spawns|])] else prev
  }

  /**
    The "alive again" broadcasts reviving the owners sends: only by-name updates to alive, and one for every
    owner whose non-empty id names a connection with a non-empty display name.
  */
  function ReviveEvents(conns: seq<Connection>, players: set<string>, all: seq<Connection>): (es: seq<Event>)
    ensures |es| <= |conns|
    ensures forall e :: e in es ==> e.DeadByName? && !e.isDead
    ensures forall c :: c in conns && c.id in players && c.id != "" && FirstById(all, c.id).Some?
                        && FirstById(all, c.id).value.displayName != "" ==>
      DeadByName(FirstById(all, c.id).value.displayName, false) in es
    decreases |conns|
  {
    if |conns| == 0 then []
    else
      var init := conns[..|conns| - 1];
      var c := conns[|conns| - 1];
      assert forall x :: x in conns <==> x in init || x == c by {
        assert conns == init + [c];
      }
      var mine := if c.id in players && c.id != "" then NameEvents(all, c.id, false) else [];
      ReviveEvents(init, players, all) + mine
  }

  /** The `RpcSetDeadState(id, false)` calls of `RespawnAllPlayersAlive`, one per connection that owns a player. */
  function ReviveOwners(r: RosterState, conns: seq<Connection>, players: set<string>, all: seq<Connection>): (r': RosterState)
    ensures r'.scores == r.scores
    ensures r.outbox <= r'.outbox
    decreases |conns|
  {
    if |conns| == 0 then r
    else
      var prev := ReviveOwners(r, conns[..|conns| - 1], players, all);
      var c := conns[|conns| - 1];
      if c.id in players then RpcSetDeadState(prev, c.id, false, all) else prev
  }

  /** One more connection: an order and a revival when it owns a player, nothing otherwise. */
  lemma RespawnStep(r: RosterState, spawns: seq<Pose>, conns: seq<Connection>, j: nat, players: set<string>, all: seq<Connection>)
    requires |spawns| > 0 && j < |conns|
    ensures var prev := RespawnOrders(spawns, conns[..j], players);
      RespawnOrders(spawns, conns[..j + 1], players)
        == if conns[j].id in players then prev + [Respawn(conns[j].id, spawns[|prev| % |spawns|])] else prev
    ensures var prev := ReviveOwners(r, conns[..j], players, all);
      ReviveOwners(r, conns[..j + 1], players, all)
        == if conns[j].id in players then RpcSetDeadState(prev, conns[j].id, false, all) else prev
  {
    assert conns[..j + 1][..j] == conns[..j];
  }

  /** `RespawnAllPlayersAlive`: nothing without spawns. */
  function RespawnAll(w: World, env: Env): (w': World)
    ensures |w.spawns| == 0 ==> w' == w
    ensures w' == w.(respawns := w'.respawns, roster := w'.roster)
    ensures |w.spawns| > 0 ==>
      && w'.respawns == w.respawns + RespawnOrders(w.spawns, env.conns, env.players)
      && w'.roster.dead == w.roster.dead - (OwnerIds(env.conns, env.players) - {""})
      && w'.roster.outbox == w.roster.outbox + ReviveEvents(env.conns, env.players, env.conns)
    ensures w'.roster.scores == w.roster.scores && w.roster.outbox <= w'.roster.outbox
  {
    ReviveOwnersRevives(w.roster, env.conns, env.players, env.conns);
    ReviveOwnersBroadcasts(w.roster, env.conns, env.players, env.conns);
    if |w.spawns| == 0 then w
    else w.(respawns := w.respawns + RespawnOrders(w.spawns, env.conns, env.players),
            roster := ReviveOwners(w.roster, env.conns, env.players, env.conns))
  }

  // ---------------------------------------------------------------------------
  // The GameMode operations

  /**
    `BeginCountdown`: everyone is respawned alive, the ball is launched and recentred, the countdown shows
    "3" with its first deadline one step away, and the lobby is refreshed.
  */
  function BeginCountdown(setup: Setup, w: World, env: Env): (w': World)
    ensures w'.state == Countdown && w'.stateTime == 0.0
    ensures w'.countdownValue == 3 && w'.nextCountdownAt == setup.countdownStep
    ensures w'.spawns == w.spawns && w'.roster.scores == w.roster.scores
    ensures var rw := RespawnAll(w, env);
      && w'.respawns == rw.respawns && w'.roster.dead == rw.roster.dead
      && w'.roster.outbox == rw.roster.outbox + [Message("3")]
                             + (if setup.authority then [PlayerList(LobbySnapshot(env.conns, w.roster.scores))] else [])
    ensures w'.ball == RecenterBall(SetBallActive(w, false, env)).ball
  {
    var w1 := RespawnAll(w.(state := Countdown, stateTime := 0.0), env);
    var w2 := RecenterBall(SetBallActive(w1, false, env));
    w2.(countdownValue := 3, nextCountdownAt := setup.countdownStep,
        roster := RefreshLobby(MessageAll(w2.roster, "3"), setup.authority, env.conns))
  }

  /** `UpdateCountdown`: at each deadline the value drops and "2", "1", "GO" are shown; after "GO" the round starts. */
  function UpdateCountdown(setup: Setup, w: World, env: Env): (w': World)
    ensures w.stateTime < w.nextCountdownAt ==> w' == w
    ensures w.stateTime >= w.nextCountdownAt ==>
      var v := w.countdownValue - 1;
      && w'.countdownValue == v
      && w'.roster.dead == w.roster.dead && w'.roster.scores == w.roster.scores
      && w'.roster.outbox == w.roster.outbox + [Message(if v > 0 then IntToString(v) else if v == 0 then "GO" else "")]
      && w'.spawns == w.spawns && w'.respawns == w.respawns
      && (v >= 0 ==> w' == w.(countdownValue := v, roster := w'.roster, nextCountdownAt := w.nextCountdownAt + setup.countdownStep))
      && (v < 0 ==> w'.state == Playing && w'.stateTime == 0.0 && w'.ball == SetBallActive(w, true, env).ball)
  {
    if w.stateTime < w.nextCountdownAt then w
    else
      var v := w.countdownValue - 1;
      if v > 0 then
        w.(countdownValue := v, roster := MessageAll(w.roster, IntToString(v)),
           nextCountdownAt := w.nextCountdownAt + setup.countdownStep)
      else if v == 0 then
        w.(countdownValue := v, roster := MessageAll(w.roster, "GO"),
           nextCountdownAt := w.nextCountdownAt + setup.countdownStep)
      else
        SetBallActive(w.(countdownValue := v, roster := MessageAll(w.roster, ""), state := Playing, stateTime := 0.0),
                      true, env)
  }

  /** `CheckRoundEnd`: the round ends when at most one connection is alive; a sole survivor scores. */
  function CheckRoundEnd(setup: Setup, w: World, env: Env): (w': World)
    ensures var alive := AliveConnections(env.conns, w.roster.dead);
      && (|alive| > 1 ==> w' == w)
      && (|alive| <= 1 ==>
            var lobby := if setup.authority then [PlayerList(LobbySnapshot(env.conns, w'.roster.scores))] else [];
            && w'.state == Ending && w'.stateTime == 0.0 && w'.roster.dead == w.roster.dead
            && w'.countdownValue == w.countdownValue && w'.spawns == w.spawns && w'.respawns == w.respawns
            && w'.ball == RecenterBall(SetBallActive(w, false, env)).ball
            && (|alive| == 1 ==>
                  && w'.roster.scores == AddPoint(w.roster, setup.authority, Some(alive[0])).scores
                  && w'.roster.outbox == w.roster.outbox + [Message(alive[0].displayName + " gagne +1")] + lobby)
            && (|alive| == 0 ==>
                  w'.roster.scores == w.roster.scores && w'.roster.outbox == w.roster.outbox + [Message("Égalité")] + lobby))
  {
    var alive := AliveConnections(env.conns, w.roster.dead);
    if |alive| > 1 then w
    else
      var w1 := RecenterBall(SetBallActive(w.(state := Ending, stateTime := 0.0), false, env));
      var r := if |alive| == 1
               then MessageAll(AddPoint(w1.roster, setup.authority, Some(alive[0])), alive[0].displayName + " gagne +1")
               else MessageAll(w1.roster, "Égalité");
      w1.(roster := RefreshLobby(r, setup.authority, env.conns))
  }

  /**
    `OnUpdate`, after the clock has added `elapsed` to the state time. Too few players force Waiting (the
    state time restarts only on the change) and publish the waiting message; otherwise the state decides.
  */
  function Tick(setup: Setup, w: World, elapsed: real, env: Env): (w': World)
    ensures setup.isProxy ==> w' == w.(stateTime := w.stateTime + elapsed)
    ensures !setup.isProxy && !HasEnoughPlayers(setup, env.conns) ==> w'.state == Waiting
    ensures w'.spawns == w.spawns && w.respawns <= w'.respawns
    ensures w.roster.outbox <= w'.roster.outbox
  {
    var w0 := w.(stateTime := w.stateTime + elapsed);
    if setup.isProxy then w0
    else if !HasEnoughPlayers(setup, env.conns) then
      var w1 := RecenterBall(SetBallActive(w0, false, env));
      var w2 := if w1.state != Waiting then w1.(state := Waiting, stateTime := 0.0) else w1;
      w2.(roster := MessageAll(w2.roster, WaitingMessage(setup, env.conns)))
    else
      match w0.state
      case Waiting => BeginCountdown(setup, RecenterBall(SetBallActive(w0, false, env)), env)
      case Countdown => UpdateCountdown(setup, RecenterBall(SetBallActive(w0, false, env)), env)
      case Playing => CheckRoundEnd(setup, w0, env)
      case Ending => if w0.stateTime > setup.roundEndDelay then BeginCountdown(setup, w0, env) else w0
  }

  /** `OnActive`: a joining connection refreshes the lobby, and the waiting message while waiting. */
  function OnActive(setup: Setup, w: World, env: Env): (w': World)
    ensures setup.isProxy ==> w' == w
    ensures w' == w.(roster := w'.roster)
    ensures w'.roster.dead == w.roster.dead && w'.roster.scores == w.roster.scores
    ensures !setup.isProxy ==>
      w'.roster.outbox == w.roster.outbox
                          + (if setup.authority then [PlayerList(LobbySnapshot(env.conns, w.roster.scores))] else [])
                          + (if w.state == Waiting then [Message(WaitingMessage(setup, env.conns))] else [])
  {
    if setup.isProxy then w
    else
      var r := RefreshLobby(w.roster, setup.authority, env.conns);
      if w.state == Waiting then w.(roster := MessageAll(r, WaitingMessage(setup, env.conns))) else w.(roster := r)
  }

  /** `OnDisconnected`: the leaver's entries go, the lobby is refreshed, and too few players force Waiting. */
  function OnDisconnected(setup: Setup, w: World, leaver: Connection, env: Env): (w': World)
    ensures setup.isProxy ==> w' == w
    ensures w'.spawns == w.spawns && w'.respawns == w.respawns && w'.countdownValue == w.countdownValue
    ensures !setup.isProxy ==>
      var removed := RemovePlayer(w.roster, setup.authority, Some(leaver));
      && w'.roster.dead == removed.dead && w'.roster.scores == removed.scores
      && (HasEnoughPlayers(setup, env.conns) ==> w' == w.(roster := w'.roster))
      && (!HasEnoughPlayers(setup, env.conns) ==>
            w'.state == Waiting && w'.stateTime == 0.0 && w'.ball == SetBallActive(w, false, env).ball)
  {
    if setup.isProxy then w
    else
      var w1 := w.(roster := RefreshLobby(RemovePlayer(w.roster, setup.authority, Some(leaver)), setup.authority, env.conns));
      if HasEnoughPlayers(setup, env.conns) then w1
      else
        var w2 := SetBallActive(w1.(state := Waiting, stateTime := 0.0), false, env);
        w2.(roster := MessageAll(w2.roster, WaitingMessage(setup, env.conns)))
  }

  /** `ResetMatchState`, with the spawn points the scene holds now. */
  function ResetMatchState(setup: Setup, w: World, spawns: seq<Pose>, env: Env): (w': World)
    ensures w'.state == Waiting && w'.stateTime == 0.0 && w'.spawns == spawns
    ensures w'.countdownValue == w.countdownValue && w'.nextCountdownAt == w.nextCountdownAt && w'.respawns == w.respawns
    ensures var r := ResetMatch(w.roster, setup.authority, true, env.conns);
      && w'.roster.dead == r.dead && w'.roster.scores == r.scores
      && w'.roster.outbox == r.outbox + [Message(WaitingMessage(setup, env.conns))]
    ensures w'.ball == SetBallActive(w, false, env).ball
  {
    var w1 := w.(state := Waiting, stateTime := 0.0, spawns := spawns,
                 roster := ResetMatch(w.roster, setup.authority, true, env.conns));
    var w2 := SetBallActive(w1, false, env);
    w2.(roster := MessageAll(w2.roster, WaitingMessage(setup, env.conns)))
  }

  /** `OnStart` and `OnEnabled`: the simulating side resets the match. */
  function OnStart(setup: Setup, w: World, spawns: seq<Pose>, env: Env): (w': World)
    ensures setup.isProxy ==> w' == w
    ensures !setup.isProxy ==> w'.state == Waiting && w'.stateTime == 0.0 && w'.spawns == spawns
  {
    if setup.isProxy then w else ResetMatchState(setup, w, spawns, env)
  }

  /** `OnDisabled`. */
  function OnDisabled(setup: Setup, w: World, env: Env): (w': World)
    ensures setup.isProxy ==> w' == w
    ensures w' == w.(ball := w'.ball)
    ensures !setup.isProxy && w.ball.Some? ==>
      var b := w.ball.value;
      w'.ball == Some(b.(state := Kickoff(b.config, b.state, b.isProxy, env.cands, env.live, env.aim)))
  {
    if setup.isProxy then w else SetBallActive(w, false, env)
  }

  // ---------------------------------------------------------------------------
  // Properties

  /**
    Too few players: Waiting, the state time restarted only on a change, the waiting message, the ball
    launched then recentred (a simulated ball stands at its home position), and nothing else.
  */
  lemma UnderpopulatedTickWaits(setup: Setup, w: World, elapsed: real, env: Env)
    requires !setup.isProxy && !HasEnoughPlayers(setup, env.conns)
    ensures var w' := Tick(setup, w, elapsed, env);
      && w'.ball == RecenterBall(SetBallActive(w, false, env)).ball
      && (w.ball.Some? && !w.ball.value.isProxy ==> w'.ball.value.state.position == w.ball.value.config.homePos)
      && w'.state == Waiting
      && w'.stateTime == (if w.state == Waiting then w.stateTime + elapsed else 0.0)
      && w'.countdownValue == w.countdownValue && w'.nextCountdownAt == w.nextCountdownAt
      && w'.spawns == w.spawns && w'.respawns == w.respawns
      && w'.roster == MessageAll(w.roster, WaitingMessage(setup, env.conns))
  {
  }

  /** From Waiting with enough players the same tick starts the countdown at 3, showing "3". */
  lemma WaitingStartsCountdown(setup: Setup, w: World, elapsed: real, env: Env)
    requires !setup.isProxy && HasEnoughPlayers(setup, env.conns) && w.state == Waiting
    ensures var w' := Tick(setup, w, elapsed, env);
      && w'.state == Countdown && w'.stateTime == 0.0
      && w'.countdownValue == 3 && w'.nextCountdownAt == setup.countdownStep
      && w'.roster.scores == w.roster.scores
      && var revived := if |w.spawns| > 0 then ReviveEvents(env.conns, env.players, env.conns) else [];
         w'.roster.outbox == w.roster.outbox + revived + [Message("3")]
                             + (if setup.authority then [PlayerList(LobbySnapshot(env.conns, w.roster.scores))] else [])
  {
  }

  /** The ids of the connections that own a player. */
  function OwnerIds(conns: seq<Connection>, players: set<string>): set<string> {
    set c | c in conns && c.id in players :: c.id
  }

  /** The respawn revives exactly the connections that own a player (an empty id is ignored); nobody else changes. */
  lemma {:induction false} ReviveOwnersRevives(r: RosterState, conns: seq<Connection>, players: set<string>, all: seq<Connection>)
    ensures ReviveOwners(r, conns, players, all).dead == r.dead - (OwnerIds(conns, players) - {""})
    decreases |conns|
  {
    if |conns| > 0 {
      var init := conns[..|conns| - 1];
      var last := conns[|conns| - 1];
      ReviveOwnersRevives(r, init, players, all);
      assert conns == init + [last];
      assert OwnerIds(conns, players) == OwnerIds(init, players) + (if last.id in players then {last.id} else {});
    }
  }

  /** Reviving sends exactly the "alive again" broadcasts of `ReviveEvents`, after what was sent before. */
  lemma {:induction false} ReviveOwnersBroadcasts(r: RosterState, conns: seq<Connection>, players: set<string>, all: seq<Connection>)
    ensures ReviveOwners(r, conns, players, all).outbox == r.outbox + ReviveEvents(conns, players, all)
    decreases |conns|
  {
    if |conns| > 0 {
      var init := conns[..|conns| - 1];
      ReviveOwnersBroadcasts(r, init, players, all);
    }
  }

  /** Before the deadline a countdown tick changes only the state time (and re-centres the ball). */
  lemma CountdownWaitsForDeadline(setup: Setup, w: World, elapsed: real, env: Env)
    requires !setup.isProxy && HasEnoughPlayers(setup, env.conns) && w.state == Countdown
    requires w.stateTime + elapsed < w.nextCountdownAt
    ensures var w' := Tick(setup, w, elapsed, env);
      w' == w.(stateTime := w.stateTime + elapsed, ball := w'.ball)
  {
  }

  /** At a deadline the value drops by one and the deadline moves by exactly one step, or the round starts. */
  lemma CountdownCrossesDeadline(setup: Setup, w: World, elapsed: real, env: Env)
    requires !setup.isProxy && HasEnoughPlayers(setup, env.conns) && w.state == Countdown
    requires w.stateTime + elapsed >= w.nextCountdownAt
    ensures var w' := Tick(setup, w, elapsed, env);
      && w'.countdownValue == w.countdownValue - 1
      && w'.roster.dead == w.roster.dead && w'.roster.scores == w.roster.scores
      && (w'.countdownValue >= 0 ==>
            && w'.state == Countdown && w'.stateTime == w.stateTime + elapsed
            && w'.nextCountdownAt == w.nextCountdownAt + setup.countdownStep
            && w'.roster.outbox == w.roster.outbox + [Message(if w'.countdownValue > 0 then IntToString(w'.countdownValue) else "GO")])
      && (w'.countdownValue < 0 ==>
            && w'.state == Playing && w'.stateTime == 0.0
            && w'.roster.outbox == w.roster.outbox + [Message("")])
  {
  }

  /**
    Four ticks of one step each from a fresh countdown publish "2", "1", "GO" and "" in turn, and the
    fourth starts the round.
  */
  lemma CountdownRuns(setup: Setup, w: World, env: Env)
    requires !setup.isProxy && HasEnoughPlayers(setup, env.conns) && setup.countdownStep > 0.0
    requires w.state == Countdown && w.countdownValue == 3 && w.stateTime == 0.0 && w.nextCountdownAt == setup.countdownStep
    ensures var step := setup.countdownStep;
      var w1 := Tick(setup, w, step, env);
      var w2 := Tick(setup, w1, step, env);
      var w3 := Tick(setup, w2, step, env);
      var w4 := Tick(setup, w3, step, env);
      && w1.state == Countdown && w1.roster.outbox == w.roster.outbox + [Message("2")]
      && w2.state == Countdown && w2.roster.outbox == w1.roster.outbox + [Message("1")]
      && w3.state == Countdown && w3.roster.outbox == w2.roster.outbox + [Message("GO")]
      && w4.state == Playing && w4.stateTime == 0.0 && w4.roster.outbox == w3.roster.outbox + [Message("")]
  {
    var step := setup.countdownStep;
    assert IntToString(2) == "2" && IntToString(1) == "1" by {
      assert DigitChar(2) == '2' && DigitChar(1) == '1';
    }
    CountdownCrossesDeadline(setup, w, step, env);
    var w1 := Tick(setup, w, step, env);
    CountdownCrossesDeadline(setup, w1, step, env);
    var w2 := Tick(setup, w1, step, env);
    CountdownCrossesDeadline(setup, w2, step, env);
    var w3 := Tick(setup, w2, step, env);
    CountdownCrossesDeadline(setup, w3, step, env);
  }

  /** While more than one connection is alive, a playing tick changes nothing but the state time. */
  lemma PlayingContinues(setup: Setup, w: World, elapsed: real, env: Env)
    requires !setup.isProxy && HasEnoughPlayers(setup, env.conns) && w.state == Playing
    requires |AliveConnections(env.conns, w.roster.dead)| > 1
    ensures Tick(setup, w, elapsed, env) == w.(stateTime := w.stateTime + elapsed)
  {
  }

  /** A sole survivor gains exactly one point and is announced; nobody else's score moves. */
  lemma SoleSurvivorScores(setup: Setup, w: World, elapsed: real, env: Env, winner: Connection)
    requires !setup.isProxy && setup.authority && HasEnoughPlayers(setup, env.conns) && w.state == Playing
    requires AliveConnections(env.conns, w.roster.dead) == [winner]
    ensures var w' := Tick(setup, w, elapsed, env);
      && w'.state == Ending && w'.stateTime == 0.0
      && w'.roster.scores == w.roster.scores[winner.id := ScoreOf(w.roster.scores, winner.id) + 1]
      && w'.roster.outbox == w.roster.outbox + [Message(winner.displayName + " gagne +1"),
                                                PlayerList(LobbySnapshot(env.conns, w'.roster.scores))]
  {
  }

  /** With no survivor the round is a draw: "Égalité" and no score changes. */
  lemma NoSurvivorDraws(setup: Setup, w: World, elapsed: real, env: Env)
    requires !setup.isProxy && HasEnoughPlayers(setup, env.conns) && w.state == Playing
    requires AliveConnections(env.conns, w.roster.dead) == []
    ensures var w' := Tick(setup, w, elapsed, env);
      && w'.state == Ending && w'.stateTime == 0.0
      && w'.roster.scores == w.roster.scores
      && w'.roster.outbox[|w.roster.outbox|] == Message("Égalité")
  {
  }

  /** Ending waits until the state time passes `RoundEndDelay`, then begins the next countdown. */
  lemma EndingWaitsThenRestarts(setup: Setup, w: World, elapsed: real, env: Env)
    requires !setup.isProxy && HasEnoughPlayers(setup, env.conns) && w.state == Ending
    ensures var w' := Tick(setup, w, elapsed, env);
      && (w.stateTime + elapsed <= setup.roundEndDelay ==> w' == w.(stateTime := w.stateTime + elapsed))
      && (w.stateTime + elapsed > setup.roundEndDelay ==>
            w'.state == Countdown && w'.stateTime == 0.0 && w'.countdownValue == 3)
  {
  }

  /** In Countdown the value stays within 0..3, whatever the ticks. */
  predicate CountdownInRange(w: World) {
    w.state == Countdown ==> 0 <= w.countdownValue <= 3
  }

  lemma TickKeepsCountdownInRange(setup: Setup, w: World, elapsed: real, env: Env)
    requires CountdownInRange(w)
    ensures CountdownInRange(Tick(setup, w, elapsed, env))
  {
  }

  /** A tick changes the scores only by the one point a sole survivor gains. */
  lemma TickScores(setup: Setup, w: World, elapsed: real, env: Env)
    ensures var s' := Tick(setup, w, elapsed, env).roster.scores;
      s' == w.roster.scores || exists id :: s' == w.roster.scores[id := ScoreOf(w.roster.scores, id) + 1]
  {
    var w0 := w.(stateTime := w.stateTime + elapsed);
    if !setup.isProxy && HasEnoughPlayers(setup, env.conns) {
      match w0.state
      case Waiting =>
      case Countdown =>
      case Playing =>
        var alive := AliveConnections(env.conns, w.roster.dead);
        if |alive| == 1 && setup.authority {
          assert Tick(setup, w, elapsed, env).roster.scores == w.roster.scores[alive[0].id := ScoreOf(w.roster.scores, alive[0].id) + 1];
        }
      case Ending =>
    }
  }

  /** The k-th connection that owns a player is sent to spawn k modulo the number of spawns. */
  lemma {:induction false} RespawnRoundRobin(spawns: seq<Pose>, conns: seq<Connection>, players: set<string>)
    requires |spawns| > 0
    ensures var owners := Owners(conns, players);
      forall k :: 0 <= k < |owners| ==>
        RespawnOrders(spawns, conns, players)[k] == Respawn(owners[k].id, spawns[k % |spawns|])
    decreases |conns|
  {
    if |conns| > 0 {
      RespawnRoundRobin(spawns, conns[..|conns| - 1], players);
    }
  }

  /** Only connections that own a player are respawned, and all of them. */
  lemma {:induction false} OwnersAreOwners(conns: seq<Connection>, players: set<string>)
    ensures forall c :: c in Owners(conns, players) <==> c in conns && c.id in players
    decreases |conns|
  {
    if |conns| > 0 {
      var init := conns[..|conns| - 1];
      OwnersAreOwners(init, players);
      assert forall c :: c in conns <==> c in init || c == conns[|conns| - 1] by {
        assert conns == init + [conns[|conns| - 1]];
      }
    }
  }

  /** `SetBallActive(false)` still launches a resting ball whenever a target can be acquired. */
  lemma InactiveBallStillLaunched(w: World, env: Env)
    requires w.ball.Some? && !w.ball.value.isProxy
    requires SelectTarget(env.cands, None, env.live).Some?
    ensures var b := SetBallActive(w, false, env).ball.value.state;
      b.isOut && b.speed == w.ball.value.config.startingSpeed
  {
  }

  /** A connection joining while Waiting gets the lobby first, and that list unpacks to one line per connection. */
  lemma JoinBroadcastsLobby(setup: Setup, w: World, env: Env)
    requires !setup.isProxy && setup.authority
    requires forall c :: c in env.conns ==> '\n' !in c.displayName
    ensures var w' := OnActive(setup, w, env);
      var n := |w.roster.outbox|;
      && |w'.roster.outbox| > n
      && w'.roster.outbox[n].PlayerList?
      && ParsePlayerList(w'.roster.outbox[n].packedNames) == LobbyLines(env.conns, w.roster.scores)
      && (w.state == Waiting ==> w'.roster.outbox[n + 1..] == [Message(WaitingMessage(setup, env.conns))])
  {
    LobbyRoundTrip(env.conns, w.roster.scores);
  }

  /** A departure removes the leaver's entries and refreshes the lobby; too few players left force Waiting. */
  lemma DisconnectUpdatesRoster(setup: Setup, w: World, leaver: Connection, env: Env)
    requires !setup.isProxy && setup.authority
    ensures var w' := OnDisconnected(setup, w, leaver, env);
      && w'.roster.dead == w.roster.dead - {leaver.id}
      && w'.roster.scores.Keys == w.roster.scores.Keys - {leaver.id}
      && (HasEnoughPlayers(setup, env.conns) ==>
            w'.state == w.state && w'.roster.outbox == w.roster.outbox + [PlayerList(LobbySnapshot(env.conns, w'.roster.scores))])
      && (!HasEnoughPlayers(setup, env.conns) ==>
            w'.state == Waiting && w'.stateTime == 0.0
            && w'.roster.outbox == w.roster.outbox + [PlayerList(LobbySnapshot(env.conns, w'.roster.scores)),
                                                      Message(WaitingMessage(setup, env.conns))])
  {
  }

  /** A reset starts Waiting with nobody dead and every score cleared. */
  lemma ResetClearsEverything(setup: Setup, w: World, spawns: seq<Pose>, env: Env)
    requires setup.authority
    ensures var w' := ResetMatchState(setup, w, spawns, env);
      && w'.state == Waiting && w'.stateTime == 0.0 && w'.spawns == spawns
      && w'.roster.dead == {} && w'.roster.scores == map[]
  {
  }
}
