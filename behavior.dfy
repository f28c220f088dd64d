/**
  The ball component (Behavior): its synced properties updated in place by the
  simulating side, each method tied to the matching transition of `BallSim`.
*/
module Behaviour {
  import opened Wrappers
  import opened BallSim

  /** `Vector3.Forward`. */
  const Forward: Vec3 := Vec3(1.0, 0.0, 0.0)

  class Behavior {
    /** The tunable properties, with the home position and rotation taken at start. */
    const config: BallConfig
    /** `IsProxy`: another machine simulates this ball. */
    const isProxy: bool
    var direction: Vec3
    var speed: real
    var isOut: bool
    var boostLeft: real
    var target: Option<nat>
    var previousTarget: Option<nat>
    var syncedPosition: Vec3
    /** `WorldPosition` and `WorldRotation`. */
    var position: Vec3
    var rotation: Rot

    function View(): BallState
      reads this
    {
      BallState(direction, speed, isOut, boostLeft, target, previousTarget, syncedPosition, position, rotation)
    }

    /** Creation followed by `OnStart`: the start pose becomes home, and the simulating side syncs it. */
    constructor (properties: BallConfig, isProxy: bool, position: Vec3, rotation: Rot)
      ensures config == properties.(homePos := position, homeRot := rotation) && this.isProxy == isProxy
      ensures View() == BallState(Forward, 0.0, false, 0.0, None, None,
                                  if isProxy then Vec3(0.0, 0.0, 0.0) else position, position, rotation)
    {
      config := properties.(homePos := position, homeRot := rotation);
      this.isProxy := isProxy;
      direction := Forward;
      speed := 0.0;
      isOut := false;
      boostLeft := 0.0;
      target := None;
      previousTarget := None;
      syncedPosition := if isProxy then Vec3(0.0, 0.0, 0.0) else position;
      this.position := position;
      this.rotation := rotation;
    }

    /** `AcquireTarget`: keeps the first candidate whose score beats the best so far, starting from -1. */
    method AcquireTarget(cands: seq<Candidate>, exclude: Option<nat>, live: set<nat>) returns (best: Option<nat>)
      ensures best == SelectTarget(cands, exclude, live)
    {
      best := None;
      var bestDot := -1.0;
      ghost var bestAt: Option<nat> := None;
      for i := 0 to |cands|
        invariant bestAt.Some? ==> bestAt.value < i
        invariant best == if bestAt.Some? then Some(cands[bestAt.value].id) else None
        invariant ScanFrom(cands, exclude, live, i, bestAt, bestDot) == SelectIndex(cands, exclude, live)
      {
        var candidate := cands[i];
        if candidate.id !in live {
          continue;
        }
        if exclude.Some? && candidate.id == exclude.value {
          continue;
        }
        if candidate.tooClose {
          continue;
        }
        var dot := candidate.score;
        if dot > bestDot {
          bestDot := dot;
          best := Some(candidate.id);
          bestAt := Some(i);
        }
      }
    }

    /** `GetCurrentDirectionRateAndTickTimer`. */
    method GetCurrentDirectionRateAndTickTimer(dt: real) returns (rate: real)
      modifies this`boostLeft
      ensures (rate, boostLeft) == BoostTick(config, old(boostLeft), dt)
    {
      if boostLeft > 0.0 {
        boostLeft := if boostLeft - dt > 0.0 then boostLeft - dt else 0.0;
        return config.rateBoost;
      }
      return config.rateNormal;
    }

    /** `HandleTerrainCollision`, its `ref` position given in and handed back. */
    method HandleTerrainCollision(next: Vec3) returns (pos: Vec3)
      modifies this`direction
      ensures (pos, direction) == TerrainClamp(config, next, old(direction))
    {
      pos := next;
      if config.hitboxRadius.None? {
        return;
      }
      var radius := config.hitboxRadius.value;
      if pos.z - radius <= config.groundZ {
        pos := pos.(z := config.groundZ + radius);
        direction := direction.(z := Abs(direction.z));
      }
    }

    /** `ApplyPunchSim`, which `Punch` runs directly or through the owner's `PunchRequest`. */
    method ApplyPunchSim(hitDir: Option<Vec3>, owner: Option<nat>, cands: seq<Candidate>, live: set<nat>)
      modifies this
      ensures View() == PunchSim(config, old(View()), hitDir, owner, cands, live)
    {
      previousTarget := target;
      if !isOut || speed <= 0.001 {
        speed := config.startingSpeed;
      } else {
        speed := if config.maxSpeed < speed * config.multiplierOnHit then config.maxSpeed else speed * config.multiplierOnHit;
      }
      isOut := true;
      if hitDir.Some? {
        direction := hitDir.value;
      }
      target := AcquireTarget(cands, owner, live);
      boostLeft := config.boostDuration;
      syncedPosition := position;
    }

    method ServerKickoffRound(cands: seq<Candidate>, live: set<nat>, aim: Vec3)
      modifies this
      ensures View() == Kickoff(config, old(View()), isProxy, cands, live, aim)
    {
      if isProxy {
        return;
      }
      previousTarget := None;
      target := AcquireTarget(cands, None, live);
      if target.Some? {
        direction := aim;
        speed := config.startingSpeed;
        isOut := true;
      } else {
        isOut := false;
        speed := 0.0;
      }
      syncedPosition := position;
    }

    method ServerStopRound()
      modifies this
      ensures View() == Stop(old(View()), isProxy)
    {
      if isProxy {
        return;
      }
      isOut := false;
      speed := 0.0;
      boostLeft := 0.0;
      previousTarget := None;
      target := None;
      syncedPosition := position;
    }

    method ServerReturnHome()
      modifies this
      ensures View() == ReturnHome(config, old(View()), isProxy)
    {
      if isProxy {
        return;
      }
      position := config.homePos;
      rotation := config.homeRot;
      syncedPosition := position;
    }

    /** The last part of a moving tick: chase the maximum speed, step along the direction, clamp to the ground. */
    method Advance(dt: real)
      modifies this
      ensures View() == Move(config, old(View()), dt)
    {
      speed := ChaseFloat(speed, config.maxSpeed, config.speedChaseRate, dt);
      var next := position.Plus(direction.Times(StepLength(speed, dt)));
      next := HandleTerrainCollision(next);
      position := next;
      syncedPosition := next;
    }

    method OnFixedUpdate(dt: real, cands: seq<Candidate>, live: set<nat>, steer: real -> Vec3)
      modifies this
      ensures View() == FixedUpdate(config, old(View()), isProxy, dt, cands, live, steer)
    {
      if isProxy {
        return;
      }
      if !isOut || speed <= 0.001 {
        syncedPosition := position;
        return;
      }
      if target.None? || target.value !in live {
        target := AcquireTarget(cands, previousTarget, live);
      }
      if target.Some? && target.value in live {
        var rate := GetCurrentDirectionRateAndTickTimer(dt);
        direction := steer(rate);
      }
      Advance(dt);
    }
  }
}
