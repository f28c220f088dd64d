/**
  The GameMode component: its match variables updated in place each frame,
  driving the NetcoManager's roster store and the ball. Every method is tied to
  the matching function of `MatchSpec`, where the properties are proved.
*/
module Gamemode {
  import opened Wrappers
  import opened Text
  import opened Roster
  import opened BallSim
  import opened MatchSpec
  import opened Netco
  import opened Behaviour

  class GameMode {
    const isProxy: bool
    /** The `RoundEndDelay` property. */
    const roundEndDelay: real
    /** The `CountdownStepSeconds` property. */
    const countdownStep: real
    /** `NetcoManager.Instance != null` when the player minimum is read. */
    const instanceKnown: bool
    const netco: NetcoManager
    /** The ball component found through `BallObject` or the scene; null when there is none. */
    const ball: Behavior?
    var state: MatchState
    /** `_stateTime`, as the seconds since it was last reset. */
    var stateTime: real
    var countdownValue: int
    var nextCountdownAt: real
    var spawns: seq<Pose>
    /** The `ServerRespawnAt` orders given to players so far. */
    var respawns: seq<Respawn>

    function Settings(): Setup {
      Setup(isProxy, netco.isAuthority, MinPlayers(if instanceKnown then Some(netco.minPlayersToStart) else None),
            roundEndDelay, countdownStep)
    }

    function BallView(): Option<Ball>
      reads ball
    {
      if ball == null then None else Some(Ball(ball.config, ball.isProxy, ball.View()))
    }

    function View(): World
      reads this, netco, ball
    {
      World(state, stateTime, countdownValue, nextCountdownAt, spawns, respawns, netco.View(), BallView())
    }

    constructor (isProxy: bool, roundEndDelay: real, countdownStep: real, instanceKnown: bool,
                 netco: NetcoManager, ball: Behavior?)
      ensures this.isProxy == isProxy && this.roundEndDelay == roundEndDelay && this.countdownStep == countdownStep
      ensures this.instanceKnown == instanceKnown && this.netco == netco && this.ball == ball
      ensures state == Waiting && stateTime == 0.0 && countdownValue == 3 && nextCountdownAt == 0.0
      ensures spawns == [] && respawns == []
    {
      this.isProxy := isProxy;
      this.roundEndDelay := roundEndDelay;
      this.countdownStep := countdownStep;
      this.instanceKnown := instanceKnown;
      this.netco := netco;
      this.ball := ball;
      state := Waiting;
      stateTime := 0.0;
      countdownValue := 3;
      nextCountdownAt := 0.0;
      spawns := [];
      respawns := [];
    }

    method UpdateWaitingMessage(env: Env)
      modifies netco`outbox
      ensures View() == old(View()).(roster := MessageAll(old(View()).roster, WaitingMessage(Settings(), env.conns)))
    {
      netco.HudMessageAll(WaitingMessage(Settings(), env.conns));
    }

    method SetBallActive(active: bool, env: Env)
      modifies ball
      ensures View() == MatchSpec.SetBallActive(old(View()), active, env)
    {
      if ball == null {
        return;
      }
      if active {
        ball.ServerReturnHome();
      }
      ball.ServerKickoffRound(env.cands, env.live, env.aim);
    }

    method RecenterBall()
      modifies ball
      ensures View() == MatchSpec.RecenterBall(old(View()))
    {
      if ball == null {
        return;
      }
      ball.ServerReturnHome();
    }

    method RespawnAllPlayersAlive(env: Env)
      modifies this`respawns, netco`dead, netco`outbox
      ensures View() == RespawnAll(old(View()), env)
    {
      if |spawns| == 0 {
        return;
      }
      RespawnOwners(env);
    }

    /** The loop of `RespawnAllPlayersAlive`: each connection that owns a player gets the next spawn, round robin, and is revived. */
    method RespawnOwners(env: Env)
      requires |spawns| > 0
      modifies this`respawns, netco`dead, netco`outbox
      ensures respawns == old(respawns) + RespawnOrders(spawns, env.conns, env.players)
      ensures netco.View() == ReviveOwners(old(netco.View()), env.conns, env.players, env.conns)
    {
      var conns := env.conns;
      ghost var r0 := netco.View();
      var i := 0;
      for j := 0 to |conns|
        invariant respawns == old(respawns) + RespawnOrders(spawns, conns[..j], env.players)
        invariant i == |RespawnOrders(spawns, conns[..j], env.players)|
        invariant netco.View() == ReviveOwners(r0, conns[..j], env.players, conns)
      {
        var conn := conns[j];
        ghost var orders := RespawnOrders(spawns, conns[..j], env.players);
        ghost var before := netco.View();
        RespawnStep(r0, spawns, conns, j, env.players, conns);
        if conn.id !in env.players {
          assert RespawnOrders(spawns, conns[..j + 1], env.players) == orders;
          assert ReviveOwners(r0, conns[..j + 1], env.players, conns) == before;
          continue;
        }
        var spawn := spawns[i % |spawns|];
        i := i + 1;
        respawns := respawns + [Respawn(conn.id, spawn)];
        assert respawns == old(respawns) + RespawnOrders(spawns, conns[..j + 1], env.players);
        netco.RpcSetDeadState(conn.id, false, conns);
        assert netco.View() == ReviveOwners(r0, conns[..j + 1], env.players, conns);
      }
      assert conns[..|conns|] == conns;
    }

    method BeginCountdown(env: Env)
      modifies this, netco, ball
      ensures View() == MatchSpec.BeginCountdown(Settings(), old(View()), env)
    {
      state := Countdown;
      stateTime := 0.0;
      RespawnAllPlayersAlive(env);
      SetBallActive(false, env);
      RecenterBall();
      countdownValue := 3;
      nextCountdownAt := countdownStep;
      netco.HudMessageAll("3");
      netco.ServerRefreshLobbyState(env.conns);
    }

    method UpdateCountdown(env: Env)
      modifies this, netco, ball
      ensures View() == MatchSpec.UpdateCountdown(Settings(), old(View()), env)
    {
      if stateTime < nextCountdownAt {
        return;
      }
      countdownValue := countdownValue - 1;
      if countdownValue > 0 {
        netco.HudMessageAll(IntToString(countdownValue));
        nextCountdownAt := nextCountdownAt + countdownStep;
        return;
      }
      if countdownValue == 0 {
        netco.HudMessageAll("GO");
        nextCountdownAt := nextCountdownAt + countdownStep;
        return;
      }
      netco.HudMessageAll("");
      state := Playing;
      stateTime := 0.0;
      SetBallActive(true, env);
    }

    method CheckRoundEnd(env: Env)
      modifies this, netco, ball
      ensures View() == MatchSpec.CheckRoundEnd(Settings(), old(View()), env)
    {
      var alive := AliveConnections(env.conns, netco.dead);
      if |alive| > 1 {
        return;
      }
      state := Ending;
      stateTime := 0.0;
      SetBallActive(false, env);
      RecenterBall();
      if |alive| == 1 {
        var winner := alive[0];
        netco.ServerAddPoint(Some(winner));
        netco.HudMessageAll(winner.displayName + " gagne +1");
      } else {
        netco.HudMessageAll("Égalité");
      }
      netco.ServerRefreshLobbyState(env.conns);
    }

    /**
      One frame: the clock first adds `elapsed` to the state time, then `OnUpdate` runs. The "too few
      players" branch inside Ending cannot be reached, since the population was checked first.
    */
    method OnUpdate(elapsed: real, env: Env)
      modifies this, netco, ball
      ensures View() == Tick(Settings(), old(View()), elapsed, env)
    {
      stateTime := stateTime + elapsed;
      ghost var w0 := View();
      assert w0 == old(View()).(stateTime := old(View()).stateTime + elapsed);
      if isProxy {
        return;
      }
      if !HasEnoughPlayers(Settings(), env.conns) {
        SetBallActive(false, env);
        RecenterBall();
        if state != Waiting {
          state := Waiting;
          stateTime := 0.0;
        }
        UpdateWaitingMessage(env);
        return;
      }
      match state
      case Waiting =>
        SetBallActive(false, env);
        RecenterBall();
        ghost var w1 := View();
        assert w1 == MatchSpec.RecenterBall(MatchSpec.SetBallActive(w0, false, env));
        BeginCountdown(env);
        assert View() == MatchSpec.BeginCountdown(Settings(), w1, env);
      case Countdown =>
        SetBallActive(false, env);
        RecenterBall();
        ghost var w1 := View();
        assert w1 == MatchSpec.RecenterBall(MatchSpec.SetBallActive(w0, false, env));
        UpdateCountdown(env);
        assert View() == MatchSpec.UpdateCountdown(Settings(), w1, env);
      case Playing =>
        CheckRoundEnd(env);
        assert View() == MatchSpec.CheckRoundEnd(Settings(), w0, env);
      case Ending =>
        if stateTime > roundEndDelay {
          BeginCountdown(env);
          assert View() == MatchSpec.BeginCountdown(Settings(), w0, env);
        }
    }

    method OnActive(env: Env)
      modifies netco`outbox
      ensures View() == MatchSpec.OnActive(Settings(), old(View()), env)
    {
      if isProxy {
        return;
      }
      netco.ServerRefreshLobbyState(env.conns);
      if state == Waiting {
        UpdateWaitingMessage(env);
      }
    }

    method OnDisconnected(leaver: Connection, env: Env)
      modifies this, netco, ball
      ensures View() == MatchSpec.OnDisconnected(Settings(), old(View()), leaver, env)
    {
      if isProxy {
        return;
      }
      netco.ServerRemovePlayer(Some(leaver));
      netco.ServerRefreshLobbyState(env.conns);
      if !HasEnoughPlayers(Settings(), env.conns) {
        state := Waiting;
        stateTime := 0.0;
        SetBallActive(false, env);
        UpdateWaitingMessage(env);
      }
    }

    /** `ResetMatchState`; `CacheSpawns` found `sceneSpawns`. */
    method ResetMatchState(sceneSpawns: seq<Pose>, env: Env)
      modifies this, netco, ball
      ensures View() == MatchSpec.ResetMatchState(Settings(), old(View()), sceneSpawns, env)
    {
      state := Waiting;
      stateTime := 0.0;
      spawns := sceneSpawns;
      netco.ServerResetMatch(true, env.conns);
      SetBallActive(false, env);
      UpdateWaitingMessage(env);
    }

    /** `OnStart`, and `OnEnabled`, which does the same. */
    method OnStart(sceneSpawns: seq<Pose>, env: Env)
      modifies this, netco, ball
      ensures View() == MatchSpec.OnStart(Settings(), old(View()), sceneSpawns, env)
    {
      if isProxy {
        return;
      }
      ResetMatchState(sceneSpawns, env);
    }

    method OnDisabled(env: Env)
      modifies ball
      ensures View() == MatchSpec.OnDisabled(Settings(), old(View()), env)
    {
      if isProxy {
        return;
      }
      SetBallActive(false, env);
    }
  }
}
