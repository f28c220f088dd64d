/**
  The dodgeball's simulation scalars and synced state, as values: the clamped
  speed chase, the speed rule on a hit, the steering-boost timer, target
  selection by alignment score, the ground clamp, and the round start/stop and
  return-home resets.

  Vector directions are abstract: a candidate's alignment with the travel
  direction is given as its `score`, and every normalised direction the
  simulation computes (the hit direction, the aim at a target, the steered
  direction) is an input.
*/
module BallSim {
  import opened Wrappers

  datatype Vec3 = Vec3(x: real, y: real, z: real) {
    function Plus(v: Vec3): Vec3 { Vec3(x + v.x, y + v.y, z + v.z) }
    function Times(k: real): Vec3 { Vec3(x * k, y * k, z * k) }
  }

  /** A rotation, kept only to be restored. */
  datatype Rot = Rot(x: real, y: real, z: real, w: real)

  /** The ball's tunable properties. */
  datatype BallConfig = BallConfig(
    startingSpeed: real,
    maxSpeed: real,
    multiplierOnHit: real,
    rateBoost: real,
    rateNormal: real,
    boostDuration: real,
    speedChaseRate: real,
    /** The hitbox sphere's radius; `None` when no hitbox is set. */
    hitboxRadius: Option<real>,
    groundZ: real,
    /** Where the ball stood at start, to return to. */
    homePos: Vec3,
    homeRot: Rot)

  /** The property defaults, for a ball that starts at `homePos`/`homeRot` with a hitbox of `radius`. */
  function DefaultConfig(radius: Option<real>, homePos: Vec3, homeRot: Rot): (c: BallConfig)
    ensures c.startingSpeed == 400.0 && c.maxSpeed == 500.0 && c.multiplierOnHit == 1.05
    ensures c.rateBoost == 6.0 && c.rateNormal == 1.75 && c.boostDuration == 0.05 && c.speedChaseRate == 0.25
    ensures c.hitboxRadius == radius && c.homePos == homePos && c.homeRot == homeRot
    ensures Sane(c) && 0.0 < c.startingSpeed && 1.0 <= c.multiplierOnHit
  {
    BallConfig(400.0, 500.0, 1.05, 6.0, 1.75, 0.05, 0.25, radius, 0.0, homePos, homeRot)
  }

  /** What the speed bound needs of the configuration. */
  predicate Sane(c: BallConfig) {
    0.0 <= c.startingSpeed <= c.maxSpeed && 0.0 <= c.multiplierOnHit
  }

  /** The synced state plus the object's position and rotation. Targets are object ids. */
  datatype BallState = BallState(
    direction: Vec3,
    speed: real,
    isOut: bool,
    boostLeft: real,
    target: Option<nat>,
    previousTarget: Option<nat>,
    syncedPosition: Vec3,
    position: Vec3,
    rotation: Rot)

  // ---------------------------------------------------------------------------
  // Scalars

  function Max0(x: real): real { if x > 0.0 then x else 0.0 }

  function Abs(x: real): real { if x < 0.0 then -x else x }

  function Sign(x: real): real { if x > 0.0 then 1.0 else if x < 0.0 then -1.0 else 0.0 }

  /** The largest move a chase may make in one step: `max(0, rate) * max(0, dt)`. */
  function ChaseStep(rate: real, dt: real): (step: real)
    ensures step >= 0.0
  {
    Max0(rate) * Max0(dt)
  }

  /**
    `ChaseFloat`: lands on `target` when it is within one step, otherwise moves exactly one step
    toward it; it never overshoots and never moves away.
  */
  function ChaseFloat(current: real, target: real, rate: real, dt: real): (r: real)
    ensures r == target <==> Abs(target - current) <= ChaseStep(rate, dt)
    ensures r != target ==> Abs(r - current) == ChaseStep(rate, dt)
    ensures r != target && ChaseStep(rate, dt) > 0.0 ==> Sign(r - current) == Sign(target - current)
    ensures current <= r <= target || target <= r <= current
    ensures Abs(target - r) <= Abs(target - current)
  {
    var step := ChaseStep(rate, dt);
    var delta := target - current;
    if Abs(delta) <= step then target else current + Sign(delta) * step
  }

  /** The speed a hit gives: the starting speed for a ball at rest, else the old speed multiplied and capped. */
  function HitSpeed(c: BallConfig, isOut: bool, speed: real): (r: real)
    ensures !isOut || speed <= 0.001 ==> r == c.startingSpeed
    ensures isOut && speed > 0.001 ==>
      r <= c.maxSpeed && r <= speed * c.multiplierOnHit && (r == c.maxSpeed || r == speed * c.multiplierOnHit)
  {
    if !isOut || speed <= 0.001 then c.startingSpeed
    else if c.maxSpeed < speed * c.multiplierOnHit then c.maxSpeed else speed * c.multiplierOnHit
  }

  /** `GetCurrentDirectionRateAndTickTimer`: the steering rate to use and the boost time left after this step. */
  function BoostTick(c: BallConfig, boostLeft: real, dt: real): (r: (real, real))
    ensures boostLeft > 0.0 ==> r.0 == c.rateBoost && r.1 >= 0.0 && (r.1 == 0.0 || r.1 == boostLeft - dt)
    ensures boostLeft > 0.0 && dt >= 0.0 ==> r.1 <= boostLeft
    ensures boostLeft > 0.0 ==> r.1 == Max0(boostLeft - dt)
    ensures boostLeft <= 0.0 ==> r == (c.rateNormal, boostLeft)
  {
    if boostLeft > 0.0 then (c.rateBoost, if boostLeft - dt > 0.0 then boostLeft - dt else 0.0)
    else (c.rateNormal, boostLeft)
  }

  /** A running boost ends on the first step whose `dt` covers what is left of it. */
  lemma BoostRunsOut(c: BallConfig, boostLeft: real, dt: real)
    requires boostLeft >= 0.0 && dt >= boostLeft
    ensures BoostTick(c, boostLeft, dt).1 == 0.0
  {
  }

  // ---------------------------------------------------------------------------
  // Target selection

  /**
    A target candidate as `AcquireTarget` sees it: the object's id, whether it lies within 0.001 of
    the ball (then it is skipped), and the dot product of the travel direction with the direction to it.
  */
  datatype Candidate = Candidate(id: nat, tooClose: bool, score: real)

  /** Live (non-null, valid) objects, not the excluded one, not on top of the ball. */
  predicate Eligible(cand: Candidate, exclude: Option<nat>, live: set<nat>) {
    cand.id in live && exclude != Some(cand.id) && !cand.tooClose
  }

  /** `k` is where the scan ends: eligible, above -1, at least every eligible score, and strictly above those before it. */
  predicate IsFirstStrictMax(cands: seq<Candidate>, exclude: Option<nat>, live: set<nat>, k: int) {
    && 0 <= k < |cands|
    && Eligible(cands[k], exclude, live)
    && cands[k].score > -1.0
    && (forall j :: 0 <= j < |cands| && Eligible(cands[j], exclude, live) ==> cands[j].score <= cands[k].score)
    && (forall j :: 0 <= j < k && Eligible(cands[j], exclude, live) ==> cands[j].score < cands[k].score)
  }

  /** The scan from position `i` on, holding the best index so far and its score. */
  function ScanFrom(cands: seq<Candidate>, exclude: Option<nat>, live: set<nat>, i: nat, best: Option<nat>, bestDot: real): (r: Option<nat>)
    requires i <= |cands|
    requires best.Some? ==> best.value < |cands|
    ensures r.Some? ==> r.value < |cands|
    decreases |cands| - i
  {
    if i == |cands| then best
    else if Eligible(cands[i], exclude, live) && cands[i].score > bestDot then
      ScanFrom(cands, exclude, live, i + 1, Some(i), cands[i].score)
    else ScanFrom(cands, exclude, live, i + 1, best, bestDot)
  }

  /** The index the scan picks, starting from no best and a best score of -1. */
  function SelectIndex(cands: seq<Candidate>, exclude: Option<nat>, live: set<nat>): (r: Option<nat>)
    ensures r.Some? ==> r.value < |cands|
  {
    ScanFrom(cands, exclude, live, 0, None, -1.0)
  }

  /** `AcquireTarget` over abstract scores: the id of the selected candidate, if any. */
  function SelectTarget(cands: seq<Candidate>, exclude: Option<nat>, live: set<nat>): (t: Option<nat>)
    ensures t.None? <==> SelectIndex(cands, exclude, live).None?
    ensures t.Some? ==> exists k :: 0 <= k < |cands| && cands[k].id == t.value
  {
    match SelectIndex(cands, exclude, live)
    case None => None
    case Some(k) => Some(cands[k].id)
  }

  /** What the scan has established after looking at the first `i` candidates. */
  predicate ScanInvariant(cands: seq<Candidate>, exclude: Option<nat>, live: set<nat>, i: nat, best: Option<nat>, bestDot: real) {
    && i <= |cands|
    && (best.None? ==>
          bestDot == -1.0 && forall j :: 0 <= j < i && Eligible(cands[j], exclude, live) ==> cands[j].score <= -1.0)
    && (best.Some? ==>
          var k := best.value;
          && k < i && Eligible(cands[k], exclude, live) && bestDot == cands[k].score && bestDot > -1.0
          && (forall j :: 0 <= j < i && Eligible(cands[j], exclude, live) ==> cands[j].score <= bestDot)
          && (forall j :: 0 <= j < k && Eligible(cands[j], exclude, live) ==> cands[j].score < bestDot))
  }

  lemma {:induction false} ScanFromSpec(cands: seq<Candidate>, exclude: Option<nat>, live: set<nat>, i: nat, best: Option<nat>, bestDot: real)
    requires ScanInvariant(cands, exclude, live, i, best, bestDot)
    ensures var r := ScanFrom(cands, exclude, live, i, best, bestDot);
      && (r.None? <==> forall j :: 0 <= j < |cands| && Eligible(cands[j], exclude, live) ==> cands[j].score <= -1.0)
      && (r.Some? ==> IsFirstStrictMax(cands, exclude, live, r.value))
    decreases |cands| - i
  {
    if i < |cands| {
      if Eligible(cands[i], exclude, live) && cands[i].score > bestDot {
        ScanFromSpec(cands, exclude, live, i + 1, Some(i), cands[i].score);
      } else {
        ScanFromSpec(cands, exclude, live, i + 1, best, bestDot);
      }
    }
  }

  /**
    The selection rule: nothing when no eligible candidate scores above -1; otherwise the first
    eligible candidate with the highest score, never the excluded one nor a dead or too-close one.
  */
  lemma SelectIndexSpec(cands: seq<Candidate>, exclude: Option<nat>, live: set<nat>)
    ensures var r := SelectIndex(cands, exclude, live);
      && (r.None? <==> forall j :: 0 <= j < |cands| && Eligible(cands[j], exclude, live) ==> cands[j].score <= -1.0)
      && (r.Some? ==> IsFirstStrictMax(cands, exclude, live, r.value))
  {
    ScanFromSpec(cands, exclude, live, 0, None, -1.0);
  }

  /** The selected id is never the excluded one and always a live object's. */
  lemma SelectTargetSafe(cands: seq<Candidate>, exclude: Option<nat>, live: set<nat>)
    ensures var t := SelectTarget(cands, exclude, live);
      t.Some? ==> t.value in live && t != exclude
  {
    SelectIndexSpec(cands, exclude, live);
  }

  /** A unique best is picked whatever the order of the others. */
  lemma SelectUniqueBest(cands: seq<Candidate>, exclude: Option<nat>, live: set<nat>, k: nat)
    requires k < |cands| && Eligible(cands[k], exclude, live) && cands[k].score > -1.0
    requires forall j :: 0 <= j < |cands| && j != k && Eligible(cands[j], exclude, live) ==> cands[j].score < cands[k].score
    ensures SelectIndex(cands, exclude, live) == Some(k)
  {
    SelectIndexSpec(cands, exclude, live);
    var r := SelectIndex(cands, exclude, live);
    assert r.Some? by {
      assert !(cands[k].score <= -1.0);
    }
    assert cands[k].score <= cands[r.value].score;
  }

  // ---------------------------------------------------------------------------
  // Ground clamp

  /**
    `HandleTerrainCollision` on z: with a hitbox of radius `r`, a next position whose bottom reaches the
    ground is lifted to `groundZ + r` and the direction's z made non-negative; otherwise nothing changes.
  */
  function TerrainClamp(c: BallConfig, next: Vec3, dir: Vec3): (r: (Vec3, Vec3))
    ensures c.hitboxRadius.None? ==> r == (next, dir)
    ensures c.hitboxRadius.Some? && next.z - c.hitboxRadius.value > c.groundZ ==> r == (next, dir)
    ensures c.hitboxRadius.Some? && next.z - c.hitboxRadius.value <= c.groundZ ==>
      && r.0 == next.(z := c.groundZ + c.hitboxRadius.value)
      && r.1 == dir.(z := Abs(dir.z))
    ensures c.hitboxRadius.Some? ==> r.0.z - c.hitboxRadius.value >= c.groundZ
    ensures r.1.z >= dir.z
  {
    match c.hitboxRadius
    case None => (next, dir)
    case Some(radius) =>
      if next.z - radius <= c.groundZ then (next.(z := c.groundZ + radius), dir.(z := Abs(dir.z)))
      else (next, dir)
  }

  // ---------------------------------------------------------------------------
  // Transitions

  /**
    `ApplyPunchSim`: the old target becomes the previous one, the speed follows the hit rule, the ball is
    out, a long enough hit direction (given normalised as `hitDir`) replaces the direction, the target is
    chosen excluding the hitter from `cands` (scored against the new direction), and the boost restarts.
  */
  function PunchSim(c: BallConfig, s: BallState, hitDir: Option<Vec3>, owner: Option<nat>,
                    cands: seq<Candidate>, live: set<nat>): (s': BallState)
    ensures s'.previousTarget == s.target
    ensures s'.speed == HitSpeed(c, s.isOut, s.speed)
    ensures s'.isOut && s'.boostLeft == c.boostDuration
    ensures s'.direction == hitDir.GetOr(s.direction)
    ensures s'.target == SelectTarget(cands, owner, live)
    ensures s'.syncedPosition == s.position
    ensures s'.position == s.position && s'.rotation == s.rotation
  {
    s.(previousTarget := s.target,
       speed := HitSpeed(c, s.isOut, s.speed),
       isOut := true,
       direction := hitDir.GetOr(s.direction),
       target := SelectTarget(cands, owner, live),
       boostLeft := c.boostDuration,
       syncedPosition := s.position)
  }

  /**
    `ServerKickoffRound`: forgets the previous target and picks one with nothing excluded; with a target
    the ball leaves at the starting speed along `aim` (the normalised way to it, or forward); without one
    it rests. A proxy does nothing.
  */
  function Kickoff(c: BallConfig, s: BallState, isProxy: bool, cands: seq<Candidate>, live: set<nat>, aim: Vec3): (s': BallState)
    ensures isProxy ==> s' == s
    ensures !isProxy ==>
      && s'.previousTarget.None?
      && s'.target == SelectTarget(cands, None, live)
      && (s'.target.Some? ==> s'.isOut && s'.speed == c.startingSpeed && s'.direction == aim)
      && (s'.target.None? ==> !s'.isOut && s'.speed == 0.0 && s'.direction == s.direction)
      && s'.syncedPosition == s.position
      && s'.boostLeft == s.boostLeft && s'.position == s.position && s'.rotation == s.rotation
  {
    if isProxy then s
    else
      var t := SelectTarget(cands, None, live);
      var s1 := s.(previousTarget := None, target := t, syncedPosition := s.position);
      if t.Some? then s1.(direction := aim, speed := c.startingSpeed, isOut := true)
      else s1.(isOut := false, speed := 0.0)
  }

  /** `ServerStopRound`: the ball rests, with no boost and no targets. A proxy does nothing. */
  function Stop(s: BallState, isProxy: bool): (s': BallState)
    ensures isProxy ==> s' == s
    ensures !isProxy ==>
      && !s'.isOut && s'.speed == 0.0 && s'.boostLeft == 0.0
      && s'.target.None? && s'.previousTarget.None? && s'.syncedPosition == s.position
      && s'.direction == s.direction && s'.position == s.position && s'.rotation == s.rotation
  {
    if isProxy then s
    else s.(isOut := false, speed := 0.0, boostLeft := 0.0, previousTarget := None, target := None,
            syncedPosition := s.position)
  }

  /** `ServerReturnHome`: back to the start position and rotation, which is also what is synced. A proxy does nothing. */
  function ReturnHome(c: BallConfig, s: BallState, isProxy: bool): (s': BallState)
    ensures isProxy ==> s' == s
    ensures !isProxy ==>
      s' == s.(position := c.homePos, rotation := c.homeRot, syncedPosition := c.homePos)
  {
    if isProxy then s else s.(position := c.homePos, rotation := c.homeRot, syncedPosition := c.homePos)
  }

  /** The ball is resting: not out, or too slow to move. */
  predicate Idle(s: BallState) {
    !s.isOut || s.speed <= 0.001
  }

  /**
    `OnFixedUpdate` on the simulating side. Resting, it only syncs its position. Moving, it reacquires a
    missing or dead target (excluding the previous one), steers toward a live target at the boosted or
    normal rate (`steer(rate)` is the normalised chased direction), chases the maximum speed, moves one
    step along its direction and applies the ground clamp.
  */
  function FixedUpdate(c: BallConfig, s: BallState, isProxy: bool, dt: real, cands: seq<Candidate>, live: set<nat>,
                       steer: real -> Vec3): (s': BallState)
    ensures isProxy ==> s' == s
    ensures !isProxy && Idle(s) ==> s' == s.(syncedPosition := s.position)
    ensures !isProxy && !Idle(s) ==>
      && s'.speed == ChaseFloat(s.speed, c.maxSpeed, c.speedChaseRate, dt)
      && s'.syncedPosition == s'.position
      && (c.hitboxRadius.Some? ==> s'.position.z - c.hitboxRadius.value >= c.groundZ)
      && (s.target.Some? && s.target.value in live ==> s'.target == s.target)
      && (s.target.None? || s.target.value !in live ==> s'.target == SelectTarget(cands, s.previousTarget, live))
      && (s'.target.None? || s'.target.value !in live ==> s'.boostLeft == s.boostLeft)
      && s'.isOut == s.isOut && s'.previousTarget == s.previousTarget && s'.rotation == s.rotation
    ensures !isProxy && !Idle(s) ==>
      var chasing := s'.target.Some? && s'.target.value in live;
      var dir := if chasing then steer(BoostTick(c, s.boostLeft, dt).0) else s.direction;
      && (s'.target.Some? ==> chasing)
      && s'.boostLeft == (if chasing then BoostTick(c, s.boostLeft, dt).1 else s.boostLeft)
      && (s'.position, s'.direction) == TerrainClamp(c, s.position.Plus(dir.Times(StepLength(s'.speed, dt))), dir)
  {
    if isProxy then s
    else if Idle(s) then s.(syncedPosition := s.position)
    else Move(c, Steer(c, s.(target := Reacquire(s, cands, live)), dt, live, steer), dt)
  }

  /** A missing or dead target is replaced by a fresh pick that excludes the previous target. */
  function Reacquire(s: BallState, cands: seq<Candidate>, live: set<nat>): (t: Option<nat>)
    ensures s.target.Some? && s.target.value in live ==> t == s.target
    ensures t != s.target ==> t == SelectTarget(cands, s.previousTarget, live)
    ensures t.Some? ==> t.value in live && (t != s.target ==> t != s.previousTarget)
  {
    SelectTargetSafe(cands, s.previousTarget, live);
    if s.target.None? || s.target.value !in live then SelectTarget(cands, s.previousTarget, live) else s.target
  }

  /** With a live target, the direction follows `steer` at the rate the boost timer gives, and the timer ticks. */
  function Steer(c: BallConfig, s: BallState, dt: real, live: set<nat>, steer: real -> Vec3): (s': BallState)
    ensures s.target.Some? && s.target.value in live ==>
      s'.direction == steer(BoostTick(c, s.boostLeft, dt).0) && s'.boostLeft == BoostTick(c, s.boostLeft, dt).1
    ensures s.target.None? || s.target.value !in live ==> s' == s
    ensures s' == s.(direction := s'.direction, boostLeft := s'.boostLeft)
  {
    if s.target.Some? && s.target.value in live then
      var tick := BoostTick(c, s.boostLeft, dt);
      s.(direction := steer(tick.0), boostLeft := tick.1)
    else s
  }

  /** How far the ball travels in `dt` at `speed`. */
  function StepLength(speed: real, dt: real): real {
    speed * dt
  }

  /** The speed chases the maximum, then the ball moves one step and is clamped to the ground. */
  function Move(c: BallConfig, s: BallState, dt: real): (s': BallState)
    ensures s'.speed == ChaseFloat(s.speed, c.maxSpeed, c.speedChaseRate, dt)
    ensures 0.0 <= s.speed <= c.maxSpeed ==> 0.0 <= s'.speed <= c.maxSpeed
    ensures (s'.position, s'.direction) == TerrainClamp(c, s.position.Plus(s.direction.Times(StepLength(s'.speed, dt))), s.direction)
    ensures c.hitboxRadius.Some? ==> s'.position.z - c.hitboxRadius.value >= c.groundZ
    ensures s'.syncedPosition == s'.position
    ensures s' == s.(speed := s'.speed, direction := s'.direction, position := s'.position, syncedPosition := s'.position)
  {
    var speed := ChaseFloat(s.speed, c.maxSpeed, c.speedChaseRate, dt);
    var clamped := TerrainClamp(c, s.position.Plus(s.direction.Times(StepLength(speed, dt))), s.direction);
    s.(speed := speed, direction := clamped.1, position := clamped.0, syncedPosition := clamped.0)
  }

  // ---------------------------------------------------------------------------
  // The speed bound

  /** The speed lies in [0, MaxBallSpeed]. */
  predicate SpeedBounded(c: BallConfig, s: BallState) {
    0.0 <= s.speed <= c.maxSpeed
  }

  /** One thing that can happen to the ball. */
  datatype Step =
    | Hit(hitDir: Option<Vec3>, owner: Option<nat>, cands: seq<Candidate>, live: set<nat>)
    | Frame(dt: real, cands: seq<Candidate>, live: set<nat>, steer: real -> Vec3)
    | KickoffStep(cands: seq<Candidate>, live: set<nat>, aim: Vec3)
    | StopStep
    | HomeStep

  function Apply(c: BallConfig, s: BallState, isProxy: bool, step: Step): BallState {
    match step
    case Hit(hitDir, owner, cands, live) => PunchSim(c, s, hitDir, owner, cands, live)
    case Frame(dt, cands, live, steer) => FixedUpdate(c, s, isProxy, dt, cands, live, steer)
    case KickoffStep(cands, live, aim) => Kickoff(c, s, isProxy, cands, live, aim)
    case StopStep => Stop(s, isProxy)
    case HomeStep => ReturnHome(c, s, isProxy)
  }

  function Run(c: BallConfig, s: BallState, isProxy: bool, steps: seq<Step>): BallState
    decreases |steps|
  {
    if |steps| == 0 then s else Run(c, Apply(c, s, isProxy, steps[0]), isProxy, steps[1..])
  }

  /** Every operation keeps the speed within [0, max] when the configuration is sane. */
  lemma ApplyKeepsSpeedBounded(c: BallConfig, s: BallState, isProxy: bool, step: Step)
    requires Sane(c) && SpeedBounded(c, s)
    ensures SpeedBounded(c, Apply(c, s, isProxy, step))
  {
    match step
    case Hit(hitDir, owner, cands, live) =>
      if s.isOut && s.speed > 0.001 {
        assert s.speed * c.multiplierOnHit >= 0.0;
      }
    case Frame(dt, cands, live, steer) =>
    case KickoffStep(cands, live, aim) =>
    case StopStep =>
    case HomeStep =>
  }

  /** So the speed never exceeds MaxBallSpeed, after any number of hits, ticks, kickoffs and stops. */
  lemma {:induction false} RunKeepsSpeedBounded(c: BallConfig, s: BallState, isProxy: bool, steps: seq<Step>)
    requires Sane(c) && SpeedBounded(c, s)
    ensures SpeedBounded(c, Run(c, s, isProxy, steps))
    decreases |steps|
  {
    if |steps| > 0 {
      ApplyKeepsSpeedBounded(c, s, isProxy, steps[0]);
      RunKeepsSpeedBounded(c, Apply(c, s, isProxy, steps[0]), isProxy, steps[1..]);
    }
  }

  /** The boost timer never goes negative once it starts non-negative. */
  lemma {:induction false} RunKeepsBoostNonNegative(c: BallConfig, s: BallState, isProxy: bool, steps: seq<Step>)
    requires c.boostDuration >= 0.0 && s.boostLeft >= 0.0
    ensures Run(c, s, isProxy, steps).boostLeft >= 0.0
    decreases |steps|
  {
    if |steps| > 0 {
      RunKeepsBoostNonNegative(c, Apply(c, s, isProxy, steps[0]), isProxy, steps[1..]);
    }
  }
}
