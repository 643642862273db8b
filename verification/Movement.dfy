/**
 Player movement and voxel collision (src/physics/movement.cpp), over the reals
 instead of doubles. `root` stands for the square root: any function with
 IsRoot. A world is the set of its solid voxels.
 */
module Movement {

  datatype Vec3 = Vec3(x: real, y: real, z: real)

  type World = (int, int, int) -> bool

  datatype MoveParams = MoveParams(
    halfWidth: real, height: real, walkSpeed: real, sprintSpeed: real, accel: real, airAccel: real,
    friction: real, gravity: real, jumpSpeed: real, terminalVelocity: real, stepHeight: real,
    flySpeed: real, fly: bool)

  datatype MoveState = MoveState(position: Vec3, velocity: Vec3, onGround: bool)

  datatype MoveInput = MoveInput(wish: Vec3, jump: bool, sprint: bool, flyUp: bool, flyDown: bool, dt: real)

  const SKIN := 0.0001
  const MAX_STEP_DIST := 0.4
  const MAX_DT := 0.1
  const FALL_GRAVITY_SCALE := 1.4
  const PROBE := 0.02
  const SETTLE := 0.05
  const BISECTIONS := 16

  // --------------------------------------------------------------- collision

  datatype Box = Box(min: Vec3, max: Vec3)

  function PlayerBox(feet: Vec3, p: MoveParams): Box {
    Box(Vec3(feet.x - p.halfWidth, feet.y, feet.z - p.halfWidth),
        Vec3(feet.x + p.halfWidth, feet.y + p.height, feet.z + p.halfWidth))
  }

  /** Voxel index k overlaps the shrunk extent from lo to hi. */
  predicate Covers(lo: real, hi: real, k: int) {
    (lo + SKIN).Floor <= k <= (hi - SKIN).Floor
  }

  ghost predicate BoxHits(box: Box, world: World) {
    exists x, y, z :: Touches(box, world, x, y, z)
  }

  ghost predicate Touches(box: Box, world: World, x: int, y: int, z: int) {
    && Covers(box.min.x, box.max.x, x) && Covers(box.min.y, box.max.y, y) && Covers(box.min.z, box.max.z, z)
    && world(x, y, z)
  }

  ghost predicate Hits(feet: Vec3, p: MoveParams, world: World) {
    BoxHits(PlayerBox(feet, p), world)
  }

  method BoxHitsSolid(box: Box, world: World) returns (hit: bool)
    ensures hit == BoxHits(box, world)
  {
    var x0, x1 := (box.min.x + SKIN).Floor, (box.max.x - SKIN).Floor;
    var y0, y1 := (box.min.y + SKIN).Floor, (box.max.y - SKIN).Floor;
    var z0, z1 := (box.min.z + SKIN).Floor, (box.max.z - SKIN).Floor;
    var x := x0;
    while x <= x1
      invariant forall i, j, k :: x0 <= i < x ==> !Touches(box, world, i, j, k)
      invariant x0 <= x
      decreases x1 - x
    {
      var y := y0;
      while y <= y1
        invariant forall j, k :: y0 <= j < y ==> !Touches(box, world, x, j, k)
        invariant y0 <= y
        decreases y1 - y
      {
        var z := z0;
        while z <= z1
          invariant forall k :: z0 <= k < z ==> !Touches(box, world, x, y, k)
          invariant z0 <= z
          decreases z1 - z
        {
          if world(x, y, z) {
            assert Touches(box, world, x, y, z);
            return true;
          }
          z := z + 1;
        }
        y := y + 1;
      }
      x := x + 1;
    }
    return false;
  }

  // ------------------------------------------------------------------- sweep

  datatype SweepResult = SweepResult(pos: Vec3, blocked: bool)

  function Plus(a: Vec3, d: Vec3): Vec3 {
    Vec3(a.x + d.x, a.y + d.y, a.z + d.z)
  }

  function Middle(a: Vec3, b: Vec3): Vec3 {
    Vec3((a.x + b.x) * 0.5, (a.y + b.y) * 0.5, (a.z + b.z) * 0.5)
  }

  /** n bisections between a free position and a hitting one. */
  ghost function Bisected(lo: Vec3, hi: Vec3, n: nat, p: MoveParams, world: World): (r: (Vec3, Vec3)) {
    if n == 0 then (lo, hi)
    else
      var (a, b) := Bisected(lo, hi, n - 1, p, world);
      var mid := Middle(a, b);
      if Hits(mid, p, world) then (a, mid) else (mid, b)
  }

  ghost function Swept(pos: Vec3, delta: Vec3, p: MoveParams, world: World): SweepResult {
    var np := Plus(pos, delta);
    if !Hits(np, p, world) then SweepResult(np, false)
    else SweepResult(Bisected(pos, np, BISECTIONS, p, world).0, true)
  }

  method Sweep(pos: Vec3, delta: Vec3, p: MoveParams, world: World) returns (r: SweepResult)
    ensures r == Swept(pos, delta, p, world)
  {
    var np := Plus(pos, delta);
    var hit := BoxHitsSolid(PlayerBox(np, p), world);
    if !hit {
      return SweepResult(np, false);
    }
    var lo, hi := pos, np;
    for k := 0 to BISECTIONS
      invariant (lo, hi) == Bisected(pos, np, k, p, world)
    {
      var mid := Middle(lo, hi);
      hit := BoxHitsSolid(PlayerBox(mid, p), world);
      if hit {
        hi := mid;
      } else {
        lo := mid;
      }
    }
    return SweepResult(lo, true);
  }

  // -------------------------------------------------- horizontal resolution

  /** A state together with the waypoints the feet went through to reach it. */
  datatype Motion = Motion(state: MoveState, trail: seq<Vec3>)

  function Stopped(v: Vec3, delta: Vec3): Vec3 {
    Vec3(if delta.x != 0.0 then 0.0 else v.x, v.y, if delta.z != 0.0 then 0.0 else v.z)
  }

  ghost function Resolved(s: MoveState, delta: Vec3, canStep: bool, p: MoveParams, world: World): Motion {
    var flat := Swept(s.position, delta, p, world);
    var lifted := Plus(s.position, Vec3(0.0, p.stepHeight, 0.0));
    var over := Swept(lifted, delta, p, world);
    if !flat.blocked then
      Motion(s.(position := flat.pos), [flat.pos])
    else if canStep && !Hits(lifted, p, world) && !over.blocked then
      var down := Swept(over.pos, Vec3(0.0, -(p.stepHeight + SETTLE), 0.0), p, world);
      Motion(s.(position := down.pos, onGround := true), [lifted, over.pos, down.pos])
    else
      Motion(s.(position := flat.pos, velocity := Stopped(s.velocity, delta)), [flat.pos])
  }

  method ResolveHorizontal(s: MoveState, delta: Vec3, canStep: bool, p: MoveParams, world: World)
    returns (r: MoveState)
    ensures r == Resolved(s, delta, canStep, p, world).state
  {
    r := s;
    var flat := Sweep(r.position, delta, p, world);
    if !flat.blocked {
      r := r.(position := flat.pos);
      return;
    }
    if canStep {
      var lifted := Vec3(r.position.x, r.position.y + p.stepHeight, r.position.z);
      assert lifted == Plus(s.position, Vec3(0.0, p.stepHeight, 0.0));
      var hit := BoxHitsSolid(PlayerBox(lifted, p), world);
      if !hit {
        var over := Sweep(lifted, delta, p, world);
        if !over.blocked {
          var down := Sweep(over.pos, Vec3(0.0, -(p.stepHeight + SETTLE), 0.0), p, world);
          r := r.(position := down.pos);
          r := r.(onGround := true);
          return;
        }
      }
    }
    r := r.(position := flat.pos);
    if delta.x != 0.0 {
      r := r.(velocity := r.velocity.(x := 0.0));
    }
    if delta.z != 0.0 {
      r := r.(velocity := r.velocity.(z := 0.0));
    }
  }

  // ---------------------------------------------------------------- substeps

  /** The variables of the substep loop. */
  datatype Stride = Stride(motion: Motion, disp: Vec3, grounded: bool)

  ghost function Substep(w: Stride, p: MoveParams, world: World): Stride {
    var s, trail := w.motion.state, w.motion.trail;
    var down := Swept(s.position, Vec3(0.0, w.disp.y, 0.0), p, world);
    var landed := w.disp.y != 0.0 && down.blocked;
    var s1 := if w.disp.y == 0.0 then s
              else s.(position := down.pos, velocity := if landed then s.velocity.(y := 0.0) else s.velocity);
    var grounded := w.grounded || (landed && s.velocity.y <= 0.0);
    var canStep := s.onGround || grounded;
    var a := Resolved(s1, Vec3(w.disp.x, 0.0, 0.0), canStep, p, world);
    var b := Resolved(a.state, Vec3(0.0, 0.0, w.disp.z), canStep, p, world);
    Stride(Motion(b.state, trail + [s1.position] + a.trail + b.trail),
           if landed then w.disp.(y := 0.0) else w.disp, grounded)
  }

  ghost function Substeps(w: Stride, n: nat, p: MoveParams, world: World): Stride {
    if n == 0 then w else Substep(Substeps(w, n - 1, p, world), p, world)
  }

  // ----------------------------------------------------------- step_movement

  ghost predicate IsRoot(root: real -> real) {
    forall v: real :: v >= 0.0 ==> root(v) >= 0.0 && root(v) * root(v) == v
  }

  function Clamp(v: real, lo: real, hi: real): real {
    if v < lo then lo else if v > hi then hi else v
  }

  function Abs(v: real): real {
    if v < 0.0 then -v else v
  }

  function MaxOf(a: real, b: real): real {
    if a < b then b else a
  }

  function Ceil(v: real): int {
    -((-v).Floor)
  }

  /** Number of substeps: enough to keep each below MAX_STEP_DIST on every axis. */
  function StepCount(disp: Vec3): (n: nat)
    ensures n >= 1
    ensures Abs(disp.x) <= 0.4 * n as real
    ensures Abs(disp.y) <= 0.4 * n as real
    ensures Abs(disp.z) <= 0.4 * n as real
  {
    var biggest := MaxOf(MaxOf(Abs(disp.x), Abs(disp.y)), Abs(disp.z));
    var n := Ceil(biggest / MAX_STEP_DIST);
    assert biggest / MAX_STEP_DIST <= n as real;
    assert biggest == MAX_STEP_DIST * (biggest / MAX_STEP_DIST);
    if n < 1 then 1 else n
  }

  function LengthXz(v: Vec3, root: real -> real): real {
    root(v.x * v.x + v.z * v.z)
  }

  function Direction(wish: Vec3, root: real -> real): Vec3 {
    var len := LengthXz(wish, root);
    if len > 1.0 then wish.(x := wish.x / len, z := wish.z / len) else wish
  }

  function TargetSpeed(input: MoveInput, p: MoveParams): real {
    if input.sprint then p.sprintSpeed else p.walkSpeed
  }

  /** Velocity asked for by the input; zero when no direction is held. */
  function WishVelocity(input: MoveInput, p: MoveParams, root: real -> real): Vec3 {
    var dir := Direction(input.wish, root);
    var target := TargetSpeed(input, p);
    if LengthXz(input.wish, root) > 0.000001 then Vec3(dir.x * target, 0.0, dir.z * target) else Vec3(0.0, 0.0, 0.0)
  }

  function Scaled(v: Vec3, c: real): Vec3 {
    Vec3(v.x * c, v.y, v.z * c)
  }

  function SlowRatio(sp: real, friction: real, dt: real): real
    requires sp > 0.0
  {
    MaxOf(sp - sp * friction * dt, 0.0) / sp
  }

  /** Ground friction, applied only when no direction is held. */
  function Slowed(v: Vec3, p: MoveParams, dt: real, root: real -> real): Vec3 {
    var sp := LengthXz(v, root);
    if sp > 0.0 then Scaled(v, SlowRatio(sp, p.friction, dt)) else v
  }

  /** Horizontal velocity moved toward `wish` by at most `most`. */
  function Accelerated(v: Vec3, wish: Vec3, most: real, root: real -> real): Vec3 {
    var dv := Vec3(wish.x - v.x, 0.0, wish.z - v.z);
    var len := LengthXz(dv, root);
    var d := if len > most && len > 0.0 then Scaled(dv, most / len) else dv;
    Vec3(v.x + d.x, v.y, v.z + d.z)
  }

  function Fallen(vy: real, p: MoveParams, dt: real): real {
    MaxOf(vy - p.gravity * (if vy < 0.0 then FALL_GRAVITY_SCALE else 1.0) * dt, -p.terminalVelocity)
  }

  /** How much the horizontal speed may change in dt. */
  function MostGain(onGround: bool, p: MoveParams, dt: real): real {
    if onGround then p.accel * dt else p.airAccel * dt
  }

  /** Velocity phase: everything before the position is integrated. */
  function Driven(s: MoveState, input: MoveInput, p: MoveParams, dt: real, root: real -> real): MoveState {
    if p.fly then
      var dir := Direction(input.wish, root);
      var vy := (if input.flyUp then 1.0 else 0.0) - (if input.flyDown then 1.0 else 0.0);
      MoveState(s.position, Vec3(dir.x * p.flySpeed, vy * p.flySpeed, dir.z * p.flySpeed), false)
    else
      var held := LengthXz(input.wish, root) > 0.000001;
      var v := if s.onGround && !held then Slowed(s.velocity, p, dt, root) else s.velocity;
      var u := Accelerated(v, WishVelocity(input, p, root), MostGain(s.onGround, p, dt), root);
      if input.jump && s.onGround then MoveState(s.position, u.(y := p.jumpSpeed), false)
      else MoveState(s.position, u.(y := Fallen(u.y, p, dt)), s.onGround)
  }

  function Displacement(v: Vec3, dt: real): Vec3 {
    Vec3(v.x * dt, v.y * dt, v.z * dt)
  }

  function PerStep(disp: Vec3, steps: nat): Vec3
    requires steps >= 1
  {
    Vec3(disp.x / steps as real, disp.y / steps as real, disp.z / steps as real)
  }

  /** One movement step and the waypoints of the feet, the start included. */
  ghost function Moved(s: MoveState, input: MoveInput, p: MoveParams, world: World, root: real -> real): Motion {
    var dt := Clamp(input.dt, 0.0, MAX_DT);
    if dt <= 0.0 then Motion(s, [s.position])
    else
      var d := Driven(s, input, p, dt, root);
      var disp := Displacement(d.velocity, dt);
      var n := StepCount(disp);
      var w := Substeps(Stride(Motion(d, [d.position]), PerStep(disp, n), false), n, p, world);
      var e := w.motion.state;
      var probed := e.velocity.y <= 0.0 && Hits(Plus(e.position, Vec3(0.0, -PROBE, 0.0)), p, world);
      Motion(e.(onGround := !p.fly && (w.grounded || probed)), w.motion.trail)
  }

  method ApplyFriction(v: Vec3, p: MoveParams, dt: real, root: real -> real) returns (r: Vec3)
    ensures r == Slowed(v, p, dt, root)
  {
    r := v;
    var sp := LengthXz(v, root);
    if sp > 0.0 {
      var ns := sp - sp * p.friction * dt;
      if ns < 0.0 {
        ns := 0.0;
      }
      r := Scaled(r, ns / sp);
    }
  }

  method Accelerate(v: Vec3, wish: Vec3, maxd: real, root: real -> real) returns (r: Vec3)
    ensures r == Accelerated(v, wish, maxd, root)
  {
    var dv := Vec3(wish.x - v.x, 0.0, wish.z - v.z);
    var dvlen := LengthXz(dv, root);
    if dvlen > maxd && dvlen > 0.0 {
      dv := Scaled(dv, maxd / dvlen);
    }
    r := v.(x := v.x + dv.x, z := v.z + dv.z);
  }

  method ApplyGravity(v: Vec3, p: MoveParams, dt: real) returns (r: Vec3)
    ensures r == v.(y := Fallen(v.y, p, dt))
  {
    r := v.(y := v.y - p.gravity * (if v.y < 0.0 then FALL_GRAVITY_SCALE else 1.0) * dt);
    if r.y < -p.terminalVelocity {
      r := r.(y := -p.terminalVelocity);
    }
  }

  method Drive(s: MoveState, input: MoveInput, p: MoveParams, dt: real, root: real -> real)
    returns (out: MoveState)
    ensures out == Driven(s, input, p, dt, root)
  {
    hide Slowed, Accelerated, LengthXz, Fallen, MostGain;
    out := s;
    var wish := input.wish;
    var wlen := LengthXz(wish, root);
    var hasWish := wlen > 0.000001;
    if wlen > 1.0 {
      wish := wish.(x := wish.x / wlen, z := wish.z / wlen);
    }
    if p.fly {
      var vy := (if input.flyUp then 1.0 else 0.0) - (if input.flyDown then 1.0 else 0.0);
      out := out.(velocity := Vec3(wish.x * p.flySpeed, vy * p.flySpeed, wish.z * p.flySpeed), onGround := false);
      return;
    }
    var targetSpeed := if input.sprint then p.sprintSpeed else p.walkSpeed;
    var wishVel := Vec3(if hasWish then wish.x * targetSpeed else 0.0, 0.0, if hasWish then wish.z * targetSpeed else 0.0);
    assert wishVel == WishVelocity(input, p, root);
    hide WishVelocity, Direction;
    if out.onGround && !hasWish {
      var slowed := ApplyFriction(out.velocity, p, dt, root);
      out := out.(velocity := slowed);
    }
    var v := Accelerate(out.velocity, wishVel, MostGain(out.onGround, p, dt), root);
    v := ApplyGravity(v, p, dt);
    out := out.(velocity := v);
    if input.jump && out.onGround {
      out := out.(velocity := v.(y := p.jumpSpeed), onGround := false);
    }
  }

  method StepMovement(s: MoveState, input: MoveInput, p: MoveParams, world: World, root: real -> real)
    returns (out: MoveState)
    ensures out == Moved(s, input, p, world, root).state
  {
    out := s;
    var dt := Clamp(input.dt, 0.0, MAX_DT);
    if dt <= 0.0 {
      return;
    }
    out := Drive(out, input, p, dt, root);

    hide Driven, Swept, Resolved, Displacement, StepCount, PerStep;
    var disp := Displacement(out.velocity, dt);
    var steps := StepCount(disp);
    var stepDisp := PerStep(disp, steps);
    ghost var first := Stride(Motion(out, [out.position]), stepDisp, false);
    var grounded := false;
    for i := 0 to steps
      invariant out == Substeps(first, i, p, world).motion.state
      invariant stepDisp == Substeps(first, i, p, world).disp
      invariant grounded == Substeps(first, i, p, world).grounded
    {
      if stepDisp.y != 0.0 {
        var r := Sweep(out.position, Vec3(0.0, stepDisp.y, 0.0), p, world);
        out := out.(position := r.pos);
        if r.blocked {
          if out.velocity.y <= 0.0 {
            grounded := true;
          }
          out := out.(velocity := out.velocity.(y := 0.0));
          stepDisp := stepDisp.(y := 0.0);
        }
      }
      var canStep := out.onGround || grounded;
      out := ResolveHorizontal(out, Vec3(stepDisp.x, 0.0, 0.0), canStep, p, world);
      out := ResolveHorizontal(out, Vec3(0.0, 0.0, stepDisp.z), canStep, p, world);
    }
    if !grounded && out.velocity.y <= 0.0 {
      var probe := out.position.(y := out.position.y - PROBE);
      assert probe == Plus(out.position, Vec3(0.0, -PROBE, 0.0));
      var hit := BoxHitsSolid(PlayerBox(probe, p), world);
      if hit {
        grounded := true;
      }
    }
    out := out.(onGround := if p.fly then false else grounded);
  }

  // ------------------------------------------------------------ no tunnelling

  function Minus(a: Vec3, b: Vec3): Vec3 {
    Vec3(a.x - b.x, a.y - b.y, a.z - b.z)
  }

  function Part(d: Vec3, t: real): Vec3 {
    Vec3(t * d.x, t * d.y, t * d.z)
  }

  /** The point a fraction t of the way from a to b. */
  function Lerp(a: Vec3, b: Vec3, t: real): Vec3 {
    Plus(a, Part(Minus(b, a), t))
  }

  /** No position on the segment from a to b overlaps a solid voxel. */
  ghost predicate FreeSegment(a: Vec3, b: Vec3, p: MoveParams, world: World) {
    forall t: real :: 0.0 <= t <= 1.0 ==> !Hits(Lerp(a, b, t), p, world)
  }

  ghost predicate FreeTrail(trail: seq<Vec3>, p: MoveParams, world: World) {
    && trail != []
    && (forall i :: 0 <= i < |trail| ==> !Hits(trail[i], p, world))
    && (forall i :: 0 <= i < |trail| - 1 ==> FreeSegment(trail[i], trail[i + 1], p, world))
  }

  /** The box is thick enough for the moves step_movement makes: a sweep may be
      one voxel longer than the shrunk extent it carries along its axis. */
  ghost predicate Thick(p: MoveParams) {
    && MAX_STEP_DIST <= 2.0 * p.halfWidth - 2.0 * SKIN + 1.0
    && MAX_STEP_DIST <= p.height - 2.0 * SKIN + 1.0
    && 0.0 <= p.stepHeight
    && p.stepHeight + SETTLE <= p.height - 2.0 * SKIN + 1.0
  }

  lemma ProductNonNegative(a: real, b: real)
    requires a >= 0.0 && b >= 0.0
    ensures a * b >= 0.0
  {
  }

  lemma ProductPositive(a: real, b: real)
    requires a > 0.0 && b > 0.0
    ensures a * b > 0.0
  {
  }

  // Division undoes multiplication and keeps a bound.
  lemma QuotientBelow(d: real, n: real, most: real) returns (q: real)
    requires n > 0.0 && d <= most * n
    ensures q == d / n && q * n == d && q <= most
  {
    q := d / n;
    assert q * n == d;
    if q > most {
      ProductPositive(q - most, n);
    }
  }

  lemma RatioInUnit(a: real, b: real) returns (q: real)
    requires 0.0 <= a <= b && b > 0.0
    ensures q == a / b && 0.0 <= q <= 1.0 && q * b == a
  {
    q := QuotientBelow(a, b, 1.0);
    if q < 0.0 {
      ProductPositive(-q, b);
    }
  }

  /** A voxel overlapped part way through a short enough move of an extent is
      overlapped at one of its ends. */
  lemma CoveredAtAnEnd(lo: real, hi: real, d: real, part: real, k: int)
    requires 0.0 <= part <= d || d <= part <= 0.0
    requires Abs(d) <= hi - lo - 2.0 * SKIN + 1.0
    requires Covers(lo + part, hi + part, k)
    ensures Covers(lo, hi, k) || Covers(lo + d, hi + d, k)
  {
  }

  predicate Between(part: real, d: real) {
    0.0 <= part <= d || d <= part <= 0.0
  }

  predicate Within(part: Vec3, d: Vec3) {
    Between(part.x, d.x) && Between(part.y, d.y) && Between(part.z, d.z)
  }

  lemma LerpIsPart(pos: Vec3, delta: Vec3, t: real)
    ensures Lerp(pos, Plus(pos, delta), t) == Plus(pos, Part(delta, t))
  {
    assert Minus(Plus(pos, delta), pos) == delta;
  }

  lemma PartIsBetween(d: real, t: real)
    requires 0.0 <= t <= 1.0
    ensures Between(t * d, d)
  {
    if d >= 0.0 {
      ProductNonNegative(t, d);
      ProductNonNegative(1.0 - t, d);
    } else {
      ProductNonNegative(t, -d);
      ProductNonNegative(1.0 - t, -d);
    }
  }

  lemma PartIsWithin(d: Vec3, t: real)
    requires 0.0 <= t <= 1.0
    ensures Within(Part(d, t), d)
  {
    PartIsBetween(d.x, t);
    PartIsBetween(d.y, t);
    PartIsBetween(d.z, t);
  }

  /** Sweeps run along one axis. */
  ghost predicate Axial(d: Vec3) {
    (d.y == 0.0 && d.z == 0.0) || (d.x == 0.0 && d.z == 0.0) || (d.x == 0.0 && d.y == 0.0)
  }

  ghost predicate Short(d: Vec3, p: MoveParams) {
    && Axial(d)
    && Abs(d.x) <= 2.0 * p.halfWidth - 2.0 * SKIN + 1.0
    && Abs(d.y) <= p.height - 2.0 * SKIN + 1.0
    && Abs(d.z) <= 2.0 * p.halfWidth - 2.0 * SKIN + 1.0
  }

  lemma TouchedAtAnEnd(a: Vec3, d: Vec3, part: Vec3, p: MoveParams, world: World, x: int, y: int, z: int)
    requires Short(d, p) && Within(part, d)
    requires Touches(PlayerBox(Plus(a, part), p), world, x, y, z)
    ensures Touches(PlayerBox(a, p), world, x, y, z) || Touches(PlayerBox(Plus(a, d), p), world, x, y, z)
  {
    var box := PlayerBox(a, p);
    hide Covers;
    if d.x != 0.0 {
      CoveredAtAnEnd(box.min.x, box.max.x, d.x, part.x, x);
    } else if d.y != 0.0 {
      CoveredAtAnEnd(box.min.y, box.max.y, d.y, part.y, y);
    } else {
      CoveredAtAnEnd(box.min.z, box.max.z, d.z, part.z, z);
    }
  }

  lemma FreeEndsFreeSegment(a: Vec3, d: Vec3, p: MoveParams, world: World)
    requires Short(d, p) && !Hits(a, p, world) && !Hits(Plus(a, d), p, world)
    ensures FreeSegment(a, Plus(a, d), p, world)
  {
    hide Lerp, Short, Touches, PlayerBox, Part, Within, Plus;
    forall t: real | 0.0 <= t <= 1.0
      ensures !Hits(Lerp(a, Plus(a, d), t), p, world)
    {
      LerpIsPart(a, d, t);
      PartIsWithin(d, t);
      var part := Part(d, t);
      if Hits(Plus(a, part), p, world) {
        var x, y, z :| Touches(PlayerBox(Plus(a, part), p), world, x, y, z);
        TouchedAtAnEnd(a, d, part, p, world, x, y, z);
      }
    }
  }

  /** An extent that moves by more than a voxel beyond its shrunk size can jump
      over voxel 0: clear of it before and after, on it part of the way. */
  lemma SpanJumps(size: real, d: real) returns (lo: real, t: real)
    requires size - 2.0 * SKIN > -1.0 && Abs(d) > size - 2.0 * SKIN + 1.0
    ensures 0.0 <= t <= 1.0
    ensures !Covers(lo, lo + size, 0) && !Covers(lo + d, lo + d + size, 0) && Covers(lo + t * d, lo + t * d + size, 0)
  {
    var e := size - 2.0 * SKIN;
    var rise := Abs(d) - 1.0 - e;
    // just below the voxel when rising, just above it when falling
    lo := (if d > 0.0 then 1.0 - d else 1.0) - SKIN;
    t := RatioInUnit(if d > 0.0 then rise else Abs(d) - rise, Abs(d));
    assert lo + t * d == -e - SKIN;
  }

  /** Free ends, but not a free way between them. */
  ghost predicate Tunnels(feet: Vec3, delta: Vec3, p: MoveParams, world: World) {
    !Hits(feet, p, world) && !Hits(Plus(feet, delta), p, world) && !FreeSegment(feet, Plus(feet, delta), p, world)
  }

  // Long moves along each axis, through a floor or a wall one voxel thick.

  lemma FallsThrough(p: MoveParams, d: real) returns (feet: Vec3, world: World)
    requires p.halfWidth >= SKIN && p.height - 2.0 * SKIN > -1.0
    requires Abs(d) > p.height - 2.0 * SKIN + 1.0
    ensures Tunnels(feet, Vec3(0.0, d, 0.0), p, world)
  {
    var lo, t := SpanJumps(p.height, d);
    feet, world := Vec3(0.0, lo, 0.0), (x: int, y: int, z: int) => y == 0;
    var delta := Vec3(0.0, d, 0.0);
    var part := Part(delta, t);
    LerpIsPart(feet, delta, t);
    assert Lerp(feet, Plus(feet, delta), t) == Plus(feet, part);
    var k := (0.0 - p.halfWidth + SKIN).Floor;
    assert Touches(PlayerBox(Plus(feet, part), p), world, k, 0, k);
  }

  lemma WalksThroughX(p: MoveParams, d: real) returns (feet: Vec3, world: World)
    requires p.halfWidth >= SKIN && p.height >= 2.0 * SKIN
    requires Abs(d) > 2.0 * p.halfWidth - 2.0 * SKIN + 1.0
    ensures Tunnels(feet, Vec3(d, 0.0, 0.0), p, world)
  {
    var lo, t := SpanJumps(2.0 * p.halfWidth, d);
    feet, world := Vec3(lo + p.halfWidth, 0.0, 0.0), (x: int, y: int, z: int) => x == 0;
    var delta := Vec3(d, 0.0, 0.0);
    var part := Part(delta, t);
    LerpIsPart(feet, delta, t);
    assert Lerp(feet, Plus(feet, delta), t) == Plus(feet, part);
    var k := (0.0 - p.halfWidth + SKIN).Floor;
    assert Touches(PlayerBox(Plus(feet, part), p), world, 0, 0, k);
  }

  lemma WalksThroughZ(p: MoveParams, d: real) returns (feet: Vec3, world: World)
    requires p.halfWidth >= SKIN && p.height >= 2.0 * SKIN
    requires Abs(d) > 2.0 * p.halfWidth - 2.0 * SKIN + 1.0
    ensures Tunnels(feet, Vec3(0.0, 0.0, d), p, world)
  {
    var lo, t := SpanJumps(2.0 * p.halfWidth, d);
    feet, world := Vec3(0.0, 0.0, lo + p.halfWidth), (x: int, y: int, z: int) => z == 0;
    var delta := Vec3(0.0, 0.0, d);
    var part := Part(delta, t);
    LerpIsPart(feet, delta, t);
    assert Lerp(feet, Plus(feet, delta), t) == Plus(feet, part);
    var k := (0.0 - p.halfWidth + SKIN).Floor;
    assert Touches(PlayerBox(Plus(feet, part), p), world, k, 0, 0);
  }

  lemma TunnelStart(p: MoveParams, delta: Vec3) returns (feet: Vec3, world: World)
    requires p.halfWidth >= SKIN && p.height - 2.0 * SKIN > -1.0
    requires Axial(delta) && !Short(delta, p) && (delta.y == 0.0 ==> p.height >= 2.0 * SKIN)
    ensures Tunnels(feet, delta, p, world)
  {
    hide Tunnels;
    if delta.y != 0.0 {
      feet, world := FallsThrough(p, delta.y);
    } else if delta.x != 0.0 {
      feet, world := WalksThroughX(p, delta.x);
    } else {
      feet, world := WalksThroughZ(p, delta.z);
    }
  }

  /** The bound is exact: along every axis, free ends guarantee a free path in
      every world precisely for moves up to one voxel longer than the shrunk box. */
  lemma SweepSafeIffShort(p: MoveParams, delta: Vec3)
    requires p.halfWidth >= SKIN && p.height - 2.0 * SKIN > -1.0
    requires Axial(delta) && (delta.y == 0.0 ==> p.height >= 2.0 * SKIN)
    ensures (forall feet: Vec3, world: World ::
               !Hits(feet, p, world) && !Hits(Plus(feet, delta), p, world) ==> FreeSegment(feet, Plus(feet, delta), p, world))
            <==> Short(delta, p)
  {
    hide Hits, FreeSegment, Plus;
    if Short(delta, p) {
      forall feet: Vec3, world: World | !Hits(feet, p, world) && !Hits(Plus(feet, delta), p, world)
        ensures FreeSegment(feet, Plus(feet, delta), p, world)
      {
        FreeEndsFreeSegment(feet, delta, p, world);
      }
    } else {
      var feet, world := TunnelStart(p, delta);
    }
  }

  // Half(n) is the part of a sweep still undecided after n bisections.
  function Half(n: nat): (h: real)
    ensures 0.0 < h <= 1.0
  {
    if n == 0 then 1.0 else Half(n - 1) * 0.5
  }

  lemma MiddleLerp(a: Vec3, b: Vec3, t: real, u: real)
    ensures Middle(Lerp(a, b, t), Lerp(a, b, u)) == Lerp(a, b, (t + u) * 0.5)
  {
  }

  lemma {:induction false} BisectedBrackets(pos: Vec3, np: Vec3, n: nat, p: MoveParams, world: World) returns (t: real)
    requires !Hits(pos, p, world) && Hits(np, p, world)
    ensures 0.0 <= t && t + Half(n) <= 1.0
    ensures var (lo, hi) := Bisected(pos, np, n, p, world);
            && lo == Lerp(pos, np, t) && !Hits(lo, p, world)
            && hi == Lerp(pos, np, t + Half(n)) && Hits(hi, p, world)
  {
    if n == 0 {
      t := 0.0;
    } else {
      t := BisectedBrackets(pos, np, n - 1, p, world);
      MiddleLerp(pos, np, t, t + Half(n - 1));
      if !Hits(Lerp(pos, np, t + Half(n)), p, world) {
        t := t + Half(n);
      }
    }
  }

  lemma HalfSixteen()
    ensures Half(BISECTIONS) == 1.0 / 65536.0
  {
    assert Half(4) == 1.0 / 16.0;
    assert Half(8) == 1.0 / 256.0;
    assert Half(12) == 1.0 / 4096.0;
  }

  // A sweep goes part of the way and ends free.
  lemma SweptPart(pos: Vec3, delta: Vec3, p: MoveParams, world: World) returns (part: Vec3)
    requires !Hits(pos, p, world) && Short(delta, p)
    ensures Short(part, p)
    ensures var r := Swept(pos, delta, p, world);
            r.pos == Plus(pos, part) && !Hits(r.pos, p, world)
  {
    hide Hits, Bisected, Short, Lerp, Part, Within;
    part := delta;
    if Hits(Plus(pos, delta), p, world) {
      var t := BisectedBrackets(pos, Plus(pos, delta), BISECTIONS, p, world);
      part := Part(delta, t);
      LerpIsPart(pos, delta, t);
      PartIsWithin(delta, t);
      PartIsShort(delta, part, p);
    }
  }

  /** A sweep never crosses a solid voxel. */
  lemma SweptIsFree(pos: Vec3, delta: Vec3, p: MoveParams, world: World)
    requires !Hits(pos, p, world) && Short(delta, p)
    ensures var r := Swept(pos, delta, p, world);
            !Hits(r.pos, p, world) && FreeSegment(pos, r.pos, p, world)
  {
    hide Swept;
    var part := SweptPart(pos, delta, p, world);
    FreeEndsFreeSegment(pos, part, p, world);
  }

  /** A blocked sweep stops within 1/65536 of its length from a position that
      overlaps a solid voxel; an unblocked one goes all the way. */
  lemma {:induction false} SweptSitsFlush(pos: Vec3, delta: Vec3, p: MoveParams, world: World) returns (t: real)
    requires !Hits(pos, p, world)
    ensures var r := Swept(pos, delta, p, world);
            var np := Plus(pos, delta);
            && (r.blocked <==> Hits(np, p, world))
            && (!r.blocked ==> r.pos == np)
            && (r.blocked ==>
                  && 0.0 <= t <= 1.0 - 1.0 / 65536.0
                  && r.pos == Lerp(pos, np, t) && !Hits(r.pos, p, world)
                  && Hits(Lerp(pos, np, t + 1.0 / 65536.0), p, world))
  {
    t := 0.0;
    if Hits(Plus(pos, delta), p, world) {
      t := BisectedBrackets(pos, Plus(pos, delta), BISECTIONS, p, world);
      HalfSixteen();
    }
  }

  lemma PartIsShort(delta: Vec3, part: Vec3, p: MoveParams)
    requires Short(delta, p) && Within(part, delta)
    ensures Short(part, p)
  {
  }

  // A trail that ends where the state stands and never touched a solid voxel.
  ghost predicate Walked(m: Motion, p: MoveParams, world: World) {
    FreeTrail(m.trail, p, world) && m.trail[|m.trail| - 1] == m.state.position
  }

  lemma WalkOn(trail: seq<Vec3>, next: Vec3, p: MoveParams, world: World)
    requires FreeTrail(trail, p, world) && !Hits(next, p, world)
    requires FreeSegment(trail[|trail| - 1], next, p, world)
    ensures FreeTrail(trail + [next], p, world)
  {
    var longer := trail + [next];
    forall i | 0 <= i < |longer| - 1
      ensures FreeSegment(longer[i], longer[i + 1], p, world)
    {
      assert longer[i] == trail[i];
    }
  }

  ghost predicate ShortXz(delta: Vec3) {
    delta.y == 0.0 && (delta.x == 0.0 || delta.z == 0.0) && Abs(delta.x) <= MAX_STEP_DIST && Abs(delta.z) <= MAX_STEP_DIST
  }

  lemma ResolvedIsFree(s: MoveState, before: seq<Vec3>, delta: Vec3, canStep: bool, p: MoveParams, world: World)
    requires Thick(p) && ShortXz(delta) && Walked(Motion(s, before), p, world)
    ensures var r := Resolved(s, delta, canStep, p, world);
            Walked(Motion(r.state, before + r.trail), p, world)
  {
    assert !Hits(s.position, p, world);
    hide FreeTrail, FreeSegment, Hits, Swept;
    var flat := Swept(s.position, delta, p, world);
    var up := Vec3(0.0, p.stepHeight, 0.0);
    var lifted := Plus(s.position, up);
    SweptIsFree(s.position, delta, p, world);
    WalkOn(before, flat.pos, p, world);
    if flat.blocked && canStep && !Hits(lifted, p, world) {
      FreeEndsFreeSegment(s.position, up, p, world);
      WalkOn(before, lifted, p, world);
      var over := Swept(lifted, delta, p, world);
      SweptIsFree(lifted, delta, p, world);
      WalkOn(before + [lifted], over.pos, p, world);
      if !over.blocked {
        var settle := Vec3(0.0, -(p.stepHeight + SETTLE), 0.0);
        SweptIsFree(over.pos, settle, p, world);
        var down := Swept(over.pos, settle, p, world);
        WalkOn(before + [lifted] + [over.pos], down.pos, p, world);
        assert before + [lifted, over.pos, down.pos] == before + [lifted] + [over.pos] + [down.pos];
      }
    }
  }

  ghost predicate ShortDisp(d: Vec3) {
    Abs(d.x) <= MAX_STEP_DIST && Abs(d.y) <= MAX_STEP_DIST && Abs(d.z) <= MAX_STEP_DIST
  }

  lemma SubstepIsFree(w: Stride, p: MoveParams, world: World)
    requires Thick(p) && ShortDisp(w.disp) && Walked(w.motion, p, world)
    ensures var r := Substep(w, p, world);
            ShortDisp(r.disp) && Walked(r.motion, p, world)
  {
    var s, trail := w.motion.state, w.motion.trail;
    var fall := Vec3(0.0, w.disp.y, 0.0);
    var down := Swept(s.position, fall, p, world);
    var landed := w.disp.y != 0.0 && down.blocked;
    var s1 := if w.disp.y == 0.0 then s
              else s.(position := down.pos, velocity := if landed then s.velocity.(y := 0.0) else s.velocity);
    var grounded := w.grounded || (landed && s.velocity.y <= 0.0);
    var canStep := s.onGround || grounded;
    SweptIsFree(s.position, fall, p, world);
    StayingIsFree(s.position, p, world);
    WalkOn(trail, s1.position, p, world);
    var alongX, alongZ := Vec3(w.disp.x, 0.0, 0.0), Vec3(0.0, 0.0, w.disp.z);
    var a := Resolved(s1, alongX, canStep, p, world);
    ResolvedIsFree(s1, trail + [s1.position], alongX, canStep, p, world);
    ResolvedIsFree(a.state, trail + [s1.position] + a.trail, alongZ, canStep, p, world);
  }

  lemma StayingIsFree(pos: Vec3, p: MoveParams, world: World)
    requires !Hits(pos, p, world)
    ensures FreeSegment(pos, pos, p, world)
  {
    forall t: real | 0.0 <= t <= 1.0
      ensures !Hits(Lerp(pos, pos, t), p, world)
    {
      assert Lerp(pos, pos, t) == pos;
    }
  }

  lemma {:induction false} SubstepsAreFree(w: Stride, n: nat, p: MoveParams, world: World)
    requires Thick(p) && ShortDisp(w.disp) && Walked(w.motion, p, world)
    ensures var r := Substeps(w, n, p, world);
            ShortDisp(r.disp) && Walked(r.motion, p, world)
  {
    if n > 0 {
      SubstepsAreFree(w, n - 1, p, world);
      SubstepIsFree(Substeps(w, n - 1, p, world), p, world);
    }
  }

  lemma PerStepIsShort(disp: Vec3)
    ensures ShortDisp(PerStep(disp, StepCount(disp)))
  {
    var n := StepCount(disp);
    ShareIsShort(disp.x, n);
    ShareIsShort(disp.y, n);
    ShareIsShort(disp.z, n);
  }

  lemma ShareIsShort(d: real, n: nat)
    requires n >= 1 && Abs(d) <= MAX_STEP_DIST * n as real
    ensures Abs(d / n as real) <= MAX_STEP_DIST
  {
    var q := QuotientBelow(d, n as real, MAX_STEP_DIST);
    var r := QuotientBelow(-d, n as real, MAX_STEP_DIST);
    assert (q + r) * n as real == 0.0;
  }

  /** No tunnelling: from a free position, in any world and for any input, every
      position the feet pass through in one step is free, the step-up, the move
      over and the settling down included. */
  lemma {:induction false} NoTunnelling(s: MoveState, input: MoveInput, p: MoveParams, world: World, root: real -> real)
    requires Thick(p) && !Hits(s.position, p, world)
    ensures var m := Moved(s, input, p, world, root);
            && m.trail[0] == s.position
            && Walked(m, p, world)
  {
    var dt := Clamp(input.dt, 0.0, MAX_DT);
    if dt > 0.0 {
      var d := Driven(s, input, p, dt, root);
      var disp := Displacement(d.velocity, dt);
      var n := StepCount(disp);
      var first := Stride(Motion(d, [d.position]), PerStep(disp, n), false);
      PerStepIsShort(disp);
      SubstepsAreFree(first, n, p, world);
      SubstepsGrow(first, n, p, world);
    }
  }

  lemma {:induction false} SubstepsGrow(w: Stride, n: nat, p: MoveParams, world: World)
    requires w.motion.trail != []
    ensures var t := Substeps(w, n, p, world).motion.trail;
            t != [] && t[0] == w.motion.trail[0]
  {
    if n > 0 {
      SubstepsGrow(w, n - 1, p, world);
    }
  }

  /** A run of inputs; the world may change between steps. */
  ghost function RunInputs(s: MoveState, inputs: seq<MoveInput>, p: MoveParams, worlds: nat -> World, root: real -> real): MoveState {
    if inputs == [] then s
    else
      var n := |inputs| - 1;
      Moved(RunInputs(s, inputs[..n], p, worlds, root), inputs[n], p, worlds(n), root).state
  }

  /** In a world that stands still a free player stays free for the whole run. */
  lemma {:induction false} RunStaysFree(s: MoveState, inputs: seq<MoveInput>, p: MoveParams, world: World, root: real -> real)
    requires Thick(p) && !Hits(s.position, p, world)
    ensures !Hits(RunInputs(s, inputs, p, (i: nat) => world, root).position, p, world)
    decreases |inputs|
  {
    if inputs != [] {
      var front := inputs[..|inputs| - 1];
      RunStaysFree(s, front, p, world, root);
      NoTunnelling(RunInputs(s, front, p, (i: nat) => world, root), inputs[|inputs| - 1], p, world, root);
    }
  }

  // --------------------------------------------------------- velocity bounds

  function Sq(a: real): (r: real)
    ensures r >= 0.0
  {
    a * a
  }

  function SpeedSquared(v: Vec3): real {
    Sq(v.x) + Sq(v.z)
  }

  // The square of a blend is at most the blend of the squares.
  lemma BlendOfSquares(a: real, b: real, c: real, m: real)
    requires 0.0 <= c <= 1.0 && m == a + c * (b - a)
    ensures Sq(m) <= Sq(a) + c * (Sq(b) - Sq(a))
  {
    var gap := Sq(b - a);
    assert Sq(a) + c * (Sq(b) - Sq(a)) - Sq(m) == c * (1.0 - c) * gap;
    ProductNonNegative(c, 1.0 - c);
    ProductNonNegative(c * (1.0 - c), gap);
  }

  lemma BlendBelow(a: real, b: real, c: real, a0: real, a1: real, b0: real, b1: real, bound: real)
    requires 0.0 <= c <= 1.0 && a0 + b0 <= bound && a1 + b1 <= bound
    requires a <= a0 + c * (a1 - a0) && b <= b0 + c * (b1 - b0)
    ensures a + b <= bound
  {
    ProductNonNegative(1.0 - c, bound - (a0 + b0));
    ProductNonNegative(c, bound - (a1 + b1));
  }

  lemma BlendIsBounded(v: Vec3, w: Vec3, c: real, bound: real)
    requires 0.0 <= c <= 1.0
    requires SpeedSquared(v) <= bound && SpeedSquared(w) <= bound
    ensures SpeedSquared(Vec3(v.x + c * (w.x - v.x), v.y, v.z + c * (w.z - v.z))) <= bound
  {
    hide Sq;
    var x, z := v.x + c * (w.x - v.x), v.z + c * (w.z - v.z);
    BlendOfSquares(v.x, w.x, c, x);
    BlendOfSquares(v.z, w.z, c, z);
    var vx, vz, wx, wz := Sq(v.x), Sq(v.z), Sq(w.x), Sq(w.z);
    BlendBelow(Sq(x), Sq(z), c, vx, wx, vz, wz, bound);
  }

  lemma ScaledSquares(v: Vec3, t: real)
    ensures SpeedSquared(Scaled(v, t)) == SpeedSquared(v) * Sq(t)
  {
  }

  // Scaling a square by at most one does not raise it.
  lemma ShrunkProduct(u: real, v: real)
    requires u <= 1.0 && v >= 0.0
    ensures u * v <= v && v * u <= v
  {
    ProductNonNegative(1.0 - u, v);
  }

  lemma ProductBelow(product: real, s: real, q: real, bound: real)
    requires product == s * q && 0.0 <= s <= bound && q <= 1.0
    ensures product <= bound
  {
    ShrunkProduct(q, s);
  }

  lemma ScaledIsBounded(v: Vec3, c: real, bound: real)
    requires 0.0 <= c <= 1.0 && SpeedSquared(v) <= bound
    ensures SpeedSquared(Scaled(v, c)) <= bound
  {
    ScaledSquares(v, c);
    ShrunkProduct(c, c);
    ProductBelow(SpeedSquared(Scaled(v, c)), SpeedSquared(v), Sq(c), bound);
  }

  lemma RootOf(root: real -> real, v: Vec3)
    requires IsRoot(root)
    ensures LengthXz(v, root) >= 0.0 && Sq(LengthXz(v, root)) == SpeedSquared(v)
  {
  }

  // The direction asked for has length at most one.
  lemma DirectionIsUnit(wish: Vec3, root: real -> real)
    requires IsRoot(root)
    ensures SpeedSquared(Direction(wish, root)) <= 1.0
  {
    RootOf(root, wish);
    var len := LengthXz(wish, root);
    if len > 1.0 {
      DividedSquares(wish.x, wish.z, len);
    } else {
      ShrunkProduct(len, len);
    }
  }

  lemma DividedSquares(x: real, z: real, len: real)
    requires len > 1.0 && Sq(x) + Sq(z) == Sq(len)
    ensures Sq(x / len) + Sq(z / len) == 1.0
  {
    var a, b := x / len, z / len;
    assert a * len == x && b * len == z;
    assert (Sq(a) + Sq(b)) * (len * len) == len * len;
    var inv := 1.0 / (len * len);
    assert (Sq(a) + Sq(b)) * (len * len) * inv == Sq(a) + Sq(b);
  }

  lemma WishIsBounded(input: MoveInput, p: MoveParams, root: real -> real)
    requires IsRoot(root)
    ensures SpeedSquared(WishVelocity(input, p, root)) <= Sq(TargetSpeed(input, p))
  {
    hide IsRoot, LengthXz, Direction, SpeedSquared, Sq, TargetSpeed;
    DirectionIsUnit(input.wish, root);
    var dir, t := Direction(input.wish, root), TargetSpeed(input, p);
    ScaledByTarget(dir, t);
    var v := WishVelocity(input, p, root);
    if LengthXz(input.wish, root) > 0.000001 {
      assert v == Vec3(dir.x * t, 0.0, dir.z * t);
    } else {
      assert v == Vec3(0.0, 0.0, 0.0);
    }
  }

  lemma ScaledByTarget(dir: Vec3, t: real)
    requires SpeedSquared(dir) <= 1.0
    ensures SpeedSquared(Vec3(dir.x * t, 0.0, dir.z * t)) <= Sq(t)
    ensures SpeedSquared(Vec3(0.0, 0.0, 0.0)) <= Sq(t)
  {
    ScaledSquares(dir, t);
    ProductBelow(SpeedSquared(Scaled(dir, t)), Sq(t), SpeedSquared(dir), Sq(t));
    assert SpeedSquared(Vec3(dir.x * t, 0.0, dir.z * t)) == SpeedSquared(Scaled(dir, t));
  }

  lemma SlowRatioInUnit(sp: real, friction: real, dt: real)
    requires sp > 0.0 && friction >= 0.0 && dt >= 0.0
    ensures 0.0 <= SlowRatio(sp, friction, dt) <= 1.0
  {
    ProductNonNegative(sp, friction);
    ProductNonNegative(sp * friction, dt);
    var c := RatioInUnit(MaxOf(sp - sp * friction * dt, 0.0), sp);
  }

  lemma SlowedIsBounded(v: Vec3, p: MoveParams, dt: real, root: real -> real, bound: real)
    requires IsRoot(root) && p.friction >= 0.0 && dt >= 0.0 && SpeedSquared(v) <= bound
    ensures SpeedSquared(Slowed(v, p, dt, root)) <= bound
  {
    hide IsRoot, LengthXz, SpeedSquared, Scaled, SlowRatio;
    var sp := LengthXz(v, root);
    if sp > 0.0 {
      SlowRatioInUnit(sp, p.friction, dt);
      ScaledIsBounded(v, SlowRatio(sp, p.friction, dt), bound);
    }
  }

  lemma AcceleratedIsBounded(v: Vec3, wish: Vec3, most: real, root: real -> real, bound: real)
    requires IsRoot(root) && most >= 0.0
    requires SpeedSquared(v) <= bound && SpeedSquared(wish) <= bound
    ensures SpeedSquared(Accelerated(v, wish, most, root)) <= bound
  {
    var dv := Vec3(wish.x - v.x, 0.0, wish.z - v.z);
    var len := LengthXz(dv, root);
    if len > most && len > 0.0 {
      var c := RatioInUnit(most, len);
      BlendIsBounded(v, wish, c, bound);
    }
  }

  /** Parameters that push nothing the wrong way. */
  ghost predicate Physical(p: MoveParams) {
    && p.accel >= 0.0 && p.airAccel >= 0.0 && p.friction >= 0.0
    && p.terminalVelocity >= 0.0 && p.jumpSpeed >= -p.terminalVelocity
  }

  lemma DrivenIsBounded(s: MoveState, input: MoveInput, p: MoveParams, dt: real, root: real -> real, bound: real)
    requires IsRoot(root) && Physical(p) && !p.fly && dt >= 0.0
    requires SpeedSquared(s.velocity) <= bound && Sq(TargetSpeed(input, p)) <= bound
    ensures var v := Driven(s, input, p, dt, root).velocity;
            SpeedSquared(v) <= bound && v.y >= -p.terminalVelocity
  {
    hide SpeedSquared, Slowed, Accelerated, WishVelocity, LengthXz, Sq, Direction;
    var held := LengthXz(input.wish, root) > 0.000001;
    SlowedIsBounded(s.velocity, p, dt, root, bound);
    var v := if s.onGround && !held then Slowed(s.velocity, p, dt, root) else s.velocity;
    WishIsBounded(input, p, root);
    GainNonNegative(s.onGround, p, dt);
    var wish, most := WishVelocity(input, p, root), MostGain(s.onGround, p, dt);
    AcceleratedIsBounded(v, wish, most, root, bound);
    var u := Accelerated(v, wish, most, root);
    SpeedIgnoresHeight(u, p.jumpSpeed);
    SpeedIgnoresHeight(u, Fallen(u.y, p, dt));
  }

  lemma SpeedIgnoresHeight(v: Vec3, y: real)
    ensures SpeedSquared(v.(y := y)) == SpeedSquared(v)
  {
  }

  lemma GainNonNegative(onGround: bool, p: MoveParams, dt: real)
    requires Physical(p) && dt >= 0.0
    ensures MostGain(onGround, p, dt) >= 0.0
  {
    ProductNonNegative(p.accel, dt);
    ProductNonNegative(p.airAccel, dt);
  }

  // Collisions only ever zero a component.
  ghost predicate Braked(before: Vec3, after: Vec3) {
    && (after.x == before.x || after.x == 0.0)
    && (after.y == before.y || after.y == 0.0)
    && (after.z == before.z || after.z == 0.0)
  }

  lemma ResolvedBrakes(s: MoveState, delta: Vec3, canStep: bool, p: MoveParams, world: World)
    ensures Braked(s.velocity, Resolved(s, delta, canStep, p, world).state.velocity)
  {
    hide Swept, Hits;
  }

  lemma SubstepBrakes(w: Stride, p: MoveParams, world: World)
    ensures Braked(w.motion.state.velocity, Substep(w, p, world).motion.state.velocity)
  {
    hide Swept, Hits, Resolved;
    var s := w.motion.state;
    var down := Swept(s.position, Vec3(0.0, w.disp.y, 0.0), p, world);
    var landed := w.disp.y != 0.0 && down.blocked;
    var s1 := if w.disp.y == 0.0 then s
              else s.(position := down.pos, velocity := if landed then s.velocity.(y := 0.0) else s.velocity);
    var canStep := s.onGround || w.grounded || (landed && s.velocity.y <= 0.0);
    var a := Resolved(s1, Vec3(w.disp.x, 0.0, 0.0), canStep, p, world);
    ResolvedBrakes(s1, Vec3(w.disp.x, 0.0, 0.0), canStep, p, world);
    ResolvedBrakes(a.state, Vec3(0.0, 0.0, w.disp.z), canStep, p, world);
  }

  lemma {:induction false} SubstepsBrake(w: Stride, n: nat, p: MoveParams, world: World)
    ensures Braked(w.motion.state.velocity, Substeps(w, n, p, world).motion.state.velocity)
  {
    if n > 0 {
      hide Substep;
      SubstepsBrake(w, n - 1, p, world);
      SubstepBrakes(Substeps(w, n - 1, p, world), p, world);
    }
  }

  lemma BrakedIsBounded(before: Vec3, after: Vec3)
    requires Braked(before, after)
    ensures SpeedSquared(after) <= SpeedSquared(before)
  {
    assert Sq(0.0) == 0.0;
  }

  /** Outside fly mode one step leaves the horizontal speed at most the larger
      of the speed before and the target speed, and the fall no faster than the
      terminal velocity; without time the velocity stays as it is. */
  lemma {:induction false} SpeedIsBounded(s: MoveState, input: MoveInput, p: MoveParams, world: World, root: real -> real, bound: real)
    requires IsRoot(root) && Physical(p) && !p.fly
    requires SpeedSquared(s.velocity) <= bound && Sq(TargetSpeed(input, p)) <= bound
    ensures var v := Moved(s, input, p, world, root).state.velocity;
            SpeedSquared(v) <= bound && if input.dt > 0.0 then v.y >= -p.terminalVelocity else v == s.velocity
  {
    var dt := Clamp(input.dt, 0.0, MAX_DT);
    if dt > 0.0 {
      hide SpeedSquared, Sq, Swept, Hits, Driven;
      DrivenIsBounded(s, input, p, dt, root, bound);
      var d := Driven(s, input, p, dt, root);
      var disp := Displacement(d.velocity, dt);
      var n := StepCount(disp);
      var first := Stride(Motion(d, [d.position]), PerStep(disp, n), false);
      SubstepsBrake(first, n, p, world);
      BrakedIsBounded(d.velocity, Substeps(first, n, p, world).motion.state.velocity);
    }
  }

  lemma {:induction false} RunSpeedIsBounded(s: MoveState, inputs: seq<MoveInput>, p: MoveParams, worlds: nat -> World,
                                             root: real -> real, bound: real)
    requires IsRoot(root) && Physical(p) && !p.fly
    requires SpeedSquared(s.velocity) <= bound && Sq(p.walkSpeed) <= bound && Sq(p.sprintSpeed) <= bound
    requires s.velocity.y >= -p.terminalVelocity
    ensures var v := RunInputs(s, inputs, p, worlds, root).velocity;
            SpeedSquared(v) <= bound && v.y >= -p.terminalVelocity
    decreases |inputs|
  {
    if inputs != [] {
      var n := |inputs| - 1;
      RunSpeedIsBounded(s, inputs[..n], p, worlds, root, bound);
      SpeedIsBounded(RunInputs(s, inputs[..n], p, worlds, root), inputs[n], p, worlds(n), root, bound);
    }
  }

  // -------------------------------------------- where a step takes the player

  /** How far a sweep goes: all the way, or short of it exactly if its end hits. */
  lemma SweptGoes(pos: Vec3, delta: Vec3, p: MoveParams, world: World) returns (t: real)
    ensures 0.0 <= t <= 1.0
    ensures var r := Swept(pos, delta, p, world);
            r.pos == Plus(pos, Part(delta, t)) && (r.blocked <==> t < 1.0) && (r.blocked <==> Hits(Plus(pos, delta), p, world))
  {
    t := 1.0;
    if Hits(Plus(pos, delta), p, world) {
      t := BisectedGoes(pos, Plus(pos, delta), BISECTIONS, p, world);
      LerpIsPart(pos, delta, t);
      HalfSixteen();
    }
  }

  lemma {:induction false} BisectedGoes(pos: Vec3, np: Vec3, n: nat, p: MoveParams, world: World) returns (t: real)
    ensures 0.0 <= t && t + Half(n) <= 1.0
    ensures Bisected(pos, np, n, p, world) == (Lerp(pos, np, t), Lerp(pos, np, t + Half(n)))
  {
    if n == 0 {
      t := 0.0;
    } else {
      t := BisectedGoes(pos, np, n - 1, p, world);
      MiddleLerp(pos, np, t, t + Half(n - 1));
      if !Hits(Lerp(pos, np, t + Half(n)), p, world) {
        t := t + Half(n);
      }
    }
  }

  ghost predicate Level(delta: Vec3) {
    delta.y == 0.0
  }

  /** A horizontal move goes all the way with its velocity kept, or part of the
      way with the velocity along it gone; only a player on the ground is lifted. */
  lemma ResolvedGoes(s: MoveState, delta: Vec3, canStep: bool, p: MoveParams, world: World) returns (t: real)
    requires Level(delta)
    ensures 0.0 <= t <= 1.0
    ensures var r := Resolved(s, delta, canStep, p, world).state;
            && r.position.x == s.position.x + t * delta.x && r.position.z == s.position.z + t * delta.z
            && r.velocity == (if t < 1.0 then Stopped(s.velocity, delta) else s.velocity)
            && (!canStep ==> r.position.y == s.position.y && r.onGround == s.onGround)
  {
    hide Hits, Swept;
    var flat := Swept(s.position, delta, p, world);
    t := SweptGoes(s.position, delta, p, world);
    var lifted := Plus(s.position, Vec3(0.0, p.stepHeight, 0.0));
    if flat.blocked && canStep && !Hits(lifted, p, world) {
      var over := Swept(lifted, delta, p, world);
      var u := SweptGoes(lifted, delta, p, world);
      if !over.blocked {
        t := 1.0;
        var down := SweptGoes(over.pos, Vec3(0.0, -(p.stepHeight + SETTLE), 0.0), p, world);
      }
    }
  }

  /** One coordinate after i shares of its move: somewhere on the way, and all
      the way so far exactly if its velocity was kept. */
  predicate OnTheWay(at: real, from: real, share: real, i: nat, velocity: real, v: real) {
    && Between(at - from, i as real * share)
    && (velocity == v || velocity == 0.0)
    && (share != 0.0 ==> v != 0.0 && (at - from == i as real * share <==> velocity == v))
  }

  /** The fraction t of a move leads from here to there. */
  predicate Reaches(at: real, t: real, move: real, to: real) {
    0.0 <= t <= 1.0 && to == at + t * move
  }

  lemma OneMoreShare(at: real, from: real, share: real, i: nat, velocity: real, v: real, t: real, to: real, after: real)
    requires OnTheWay(at, from, share, i, velocity, v) && Reaches(at, t, share, to)
    requires after == if t < 1.0 && share != 0.0 then 0.0 else velocity
    ensures OnTheWay(to, from, share, i + 1, after, v)
  {
    var gone, all := at - from, i as real * share;
    assert (i + 1) as real * share == all + share;
    PartIsBetween(share, t);
    if share != 0.0 && t < 1.0 {
      assert t * share != share by { ShareIsShorter(share, t); }
    }
  }

  lemma ShareIsShorter(share: real, t: real)
    requires share != 0.0 && t < 1.0
    ensures t * share != share
  {
    assert share - t * share == (1.0 - t) * share;
    if share > 0.0 {
      ProductPositive(1.0 - t, share);
    } else {
      ProductPositive(1.0 - t, -share);
    }
  }

  /** Both horizontal coordinates so far, the moves still planned as at first. */
  predicate LevelSoFar(w: Stride, start: Vec3, share: Vec3, i: nat, v: Vec3) {
    var s := w.motion.state;
    && w.disp.x == share.x && w.disp.z == share.z
    && OnTheWay(s.position.x, start.x, share.x, i, s.velocity.x, v.x)
    && OnTheWay(s.position.z, start.z, share.z, i, s.velocity.z, v.z)
  }

  /** What one substep does, axis by axis: how far of each move it goes, and what
      becomes of the velocities. */
  lemma SubstepParts(w: Stride, p: MoveParams, world: World) returns (t: Vec3, landed: bool)
    ensures landed == (w.disp.y != 0.0 && t.y < 1.0) && (w.disp.y == 0.0 ==> t.y == 0.0)
    ensures var (s, r) := (w.motion.state, Substep(w, p, world));
            var e := r.motion.state;
            && Reaches(s.position.x, t.x, w.disp.x, e.position.x) && Reaches(s.position.z, t.z, w.disp.z, e.position.z)
            && e.velocity.x == (if t.x < 1.0 && w.disp.x != 0.0 then 0.0 else s.velocity.x)
            && e.velocity.z == (if t.z < 1.0 && w.disp.z != 0.0 then 0.0 else s.velocity.z)
            && e.velocity.y == (if landed then 0.0 else s.velocity.y)
            && r.disp == (if landed then w.disp.(y := 0.0) else w.disp)
            && r.grounded == (w.grounded || (landed && s.velocity.y <= 0.0))
            && (!s.onGround && !r.grounded ==> !e.onGround && Reaches(s.position.y, t.y, w.disp.y, e.position.y))
  {
    hide Swept, Hits, Resolved;
    var s := w.motion.state;
    var fall := Vec3(0.0, w.disp.y, 0.0);
    var down := Swept(s.position, fall, p, world);
    var ty := SweptGoes(s.position, fall, p, world);
    landed := w.disp.y != 0.0 && down.blocked;
    var s1 := if w.disp.y == 0.0 then s
              else s.(position := down.pos, velocity := if landed then s.velocity.(y := 0.0) else s.velocity);
    var canStep := s.onGround || w.grounded || (landed && s.velocity.y <= 0.0);
    var a := Resolved(s1, Vec3(w.disp.x, 0.0, 0.0), canStep, p, world);
    var tx := ResolvedGoes(s1, Vec3(w.disp.x, 0.0, 0.0), canStep, p, world);
    var tz := ResolvedGoes(a.state, Vec3(0.0, 0.0, w.disp.z), canStep, p, world);
    t := Vec3(tx, if w.disp.y == 0.0 then 0.0 else ty, tz);
  }

  lemma SubstepGoesLevel(w: Stride, p: MoveParams, world: World, start: Vec3, share: Vec3, i: nat, v: Vec3)
    requires LevelSoFar(w, start, share, i, v)
    ensures LevelSoFar(Substep(w, p, world), start, share, i + 1, v)
  {
    hide Substep, OnTheWay, Reaches;
    var s, e := w.motion.state, Substep(w, p, world).motion.state;
    var t, landed := SubstepParts(w, p, world);
    OneMoreShare(s.position.x, start.x, share.x, i, s.velocity.x, v.x, t.x, e.position.x, e.velocity.x);
    OneMoreShare(s.position.z, start.z, share.z, i, s.velocity.z, v.z, t.z, e.position.z, e.velocity.z);
  }

  lemma {:induction false} SubstepsGoLevel(w: Stride, n: nat, p: MoveParams, world: World, start: Vec3, share: Vec3, v: Vec3)
    requires LevelSoFar(w, start, share, 0, v)
    ensures LevelSoFar(Substeps(w, n, p, world), start, share, n, v)
  {
    if n > 0 {
      hide Substep, LevelSoFar;
      SubstepsGoLevel(w, n - 1, p, world, start, share, v);
      SubstepGoesLevel(Substeps(w, n - 1, p, world), p, world, start, share, n - 1, v);
    }
  }

  /** The vertical speed so far: kept, or gone once the way up or down was
      blocked, which on the way down is landing. */
  predicate UprightSoFar(w: Stride, share: real, v: real) {
    var vy := w.motion.state.velocity.y;
    && (vy == v || vy == 0.0) && (w.disp.y == share || w.disp.y == 0.0)
    && (share != 0.0 ==> v != 0.0 && (w.disp.y == share <==> vy == v))
    && (w.grounded <==> v < 0.0 && share != 0.0 && vy == 0.0)
  }

  /** Until it lands, a player in the air is as far up or down as planned. */
  predicate AirborneSoFar(w: Stride, start: real, share: real, i: nat, v: real) {
    var s := w.motion.state;
    !w.grounded ==> !s.onGround && OnTheWay(s.position.y, start, share, i, s.velocity.y, v)
  }

  lemma SubstepStaysUpright(w: Stride, p: MoveParams, world: World, share: real, v: real)
    requires UprightSoFar(w, share, v)
    ensures UprightSoFar(Substep(w, p, world), share, v)
  {
    hide Substep;
    var t, landed := SubstepParts(w, p, world);
  }

  lemma SubstepGoesUpOrDown(w: Stride, p: MoveParams, world: World, start: real, share: real, i: nat, v: real)
    requires UprightSoFar(w, share, v) && AirborneSoFar(w, start, share, i, v)
    ensures AirborneSoFar(Substep(w, p, world), start, share, i + 1, v)
  {
    hide Substep, OnTheWay, Reaches;
    var t, landed := SubstepParts(w, p, world);
    var r := Substep(w, p, world);
    if !w.grounded && !r.grounded {
      NextHeight(w, start, share, i, v, t.y, r.motion.state.position.y);
    }
  }

  lemma NextHeight(w: Stride, start: real, share: real, i: nat, v: real, t: real, to: real)
    requires var s := w.motion.state; UprightSoFar(w, share, v) && OnTheWay(s.position.y, start, share, i, s.velocity.y, v)
    requires Reaches(w.motion.state.position.y, t, w.disp.y, to) && (w.disp.y == 0.0 ==> t == 0.0)
    ensures var s := w.motion.state;
            OnTheWay(to, start, share, i + 1, if w.disp.y != 0.0 && t < 1.0 then 0.0 else s.velocity.y, v)
  {
    var s := w.motion.state;
    assert w.disp.y == 0.0 ==> Reaches(s.position.y, t, share, to);
    hide OnTheWay, Reaches;
    OneMoreShare(s.position.y, start, share, i, s.velocity.y, v, t, to, if t < 1.0 && share != 0.0 then 0.0 else s.velocity.y);
  }

  lemma {:induction false} SubstepsGoUpOrDown(w: Stride, n: nat, p: MoveParams, world: World, start: real, share: real, v: real)
    requires UprightSoFar(w, share, v)
    ensures UprightSoFar(Substeps(w, n, p, world), share, v)
    ensures AirborneSoFar(w, start, share, 0, v) ==> AirborneSoFar(Substeps(w, n, p, world), start, share, n, v)
  {
    if n > 0 {
      hide Substep, UprightSoFar, AirborneSoFar;
      SubstepsGoUpOrDown(w, n - 1, p, world, start, share, v);
      var before := Substeps(w, n - 1, p, world);
      SubstepStaysUpright(before, p, world, share, v);
      if AirborneSoFar(before, start, share, n - 1, v) {
        SubstepGoesUpOrDown(before, p, world, start, share, n - 1, v);
      }
    }
  }

  /** A coordinate moved by the whole of its way if its speed was kept, by a part
      of it if its speed is gone, and in no other case. */
  predicate Travels(from: real, to: real, v: real, dt: real, after: real) {
    && Between(to - from, v * dt)
    && (after == v || after == 0.0)
    && (v != 0.0 ==> (to - from == v * dt <==> after == v))
  }

  /** One of n equal parts of the way covered in dt. */
  predicate IsShare(share: real, v: real, dt: real, n: nat) {
    n as real * share == v * dt
  }

  predicate AreShares(share: Vec3, v: Vec3, dt: real, n: nat) {
    IsShare(share.x, v.x, dt, n) && IsShare(share.y, v.y, dt, n) && IsShare(share.z, v.z, dt, n)
  }

  lemma NoShareNoSpeed(share: real, v: real, dt: real, n: nat)
    requires n >= 1 && dt > 0.0 && IsShare(share, v, dt, n)
    ensures share != 0.0 <==> v != 0.0
    ensures share < 0.0 <==> v < 0.0
  {
    if v > 0.0 {
      ProductPositive(v, dt);
    } else if v < 0.0 {
      ProductPositive(-v, dt);
    }
    if share > 0.0 {
      ProductPositive(share, n as real);
    } else if share < 0.0 {
      ProductPositive(-share, n as real);
    }
  }

  lemma AllShares(at: real, from: real, share: real, n: nat, velocity: real, v: real, dt: real)
    requires n >= 1 && dt > 0.0 && IsShare(share, v, dt, n) && OnTheWay(at, from, share, n, velocity, v)
    ensures Travels(from, at, v, dt, velocity)
  {
    NoShareNoSpeed(share, v, dt, n);
  }

  lemma NotYetOnTheWay(at: real, share: real, n: nat, v: real, dt: real)
    requires n >= 1 && dt > 0.0 && IsShare(share, v, dt, n)
    ensures OnTheWay(at, at, share, 0, v, v)
  {
    NoShareNoSpeed(share, v, dt, n);
  }

  /** Solid just below the feet of a player who is not rising. */
  ghost predicate AboveGround(s: MoveState, p: MoveParams, world: World) {
    s.velocity.y <= 0.0 && Hits(Plus(s.position, Vec3(0.0, -0.02, 0.0)), p, world)
  }

  /** The state after the substeps, and what the ground probe makes of it. */
  lemma MovedInParts(s: MoveState, input: MoveInput, p: MoveParams, world: World, root: real -> real, dt: real, d: MoveState)
    returns (n: nat, share: Vec3, w: Stride)
    requires dt > 0.0 && dt == Clamp(input.dt, 0.0, MAX_DT) && d == Driven(s, input, p, dt, root)
    ensures n >= 1 && AreShares(share, d.velocity, dt, n)
    ensures w == Substeps(Stride(Motion(d, [d.position]), share, false), n, p, world)
    ensures var r, e := Moved(s, input, p, world, root).state, w.motion.state;
            && r.position == e.position && r.velocity == e.velocity
            && r.onGround == (!p.fly && (w.grounded || AboveGround(r, p, world)))
  {
    hide Driven, Substeps, Hits, StepCount;
    var disp := Displacement(d.velocity, dt);
    n := StepCount(disp);
    share := PerStep(disp, n);
    w := Substeps(Stride(Motion(d, [d.position]), share, false), n, p, world);
  }

  /** Where the substeps lead from a velocity. */
  ghost predicate Goes(d: MoveState, dt: real, e: MoveState, landed: bool) {
    var v := d.velocity;
    && Travels(d.position.x, e.position.x, v.x, dt, e.velocity.x)
    && Travels(d.position.z, e.position.z, v.z, dt, e.velocity.z)
    && (e.velocity.y == v.y || e.velocity.y == 0.0)
    && landed == (v.y < 0.0 && e.velocity.y == 0.0)
    && (!d.onGround && !landed ==> Travels(d.position.y, e.position.y, v.y, dt, e.velocity.y))
  }

  lemma SubstepsGo(d: MoveState, dt: real, n: nat, share: Vec3, p: MoveParams, world: World)
    requires n >= 1 && dt > 0.0 && AreShares(share, d.velocity, dt, n)
    ensures var w := Substeps(Stride(Motion(d, [d.position]), share, false), n, p, world);
            Goes(d, dt, w.motion.state, w.grounded)
  {
    hide Substeps, Travels, OnTheWay, IsShare;
    var v, pos := d.velocity, d.position;
    var first := Stride(Motion(d, [pos]), share, false);
    NotYetOnTheWay(pos.x, share.x, n, v.x, dt);
    NotYetOnTheWay(pos.y, share.y, n, v.y, dt);
    NotYetOnTheWay(pos.z, share.z, n, v.z, dt);
    NoShareNoSpeed(share.y, v.y, dt, n);
    SubstepsGoLevel(first, n, p, world, pos, share, v);
    SubstepsGoUpOrDown(first, n, p, world, pos.y, share.y, v.y);
    var w := Substeps(first, n, p, world);
    var e := w.motion.state;
    AllShares(e.position.x, pos.x, share.x, n, e.velocity.x, v.x, dt);
    AllShares(e.position.z, pos.z, share.z, n, e.velocity.z, v.z, dt);
    if !d.onGround && !w.grounded {
      AllShares(e.position.y, pos.y, share.y, n, e.velocity.y, v.y, dt);
    }
  }

  /** Where a step goes, in every world: each horizontal coordinate by its
      velocity times the time unless that velocity is gone, and then by a part of
      that; the height likewise as long as the player is in the air. The player
      stands on the ground after landing or just above a solid voxel. */
  lemma StepGoes(s: MoveState, input: MoveInput, p: MoveParams, world: World, root: real -> real, dt: real)
    requires input.dt > 0.0 && dt == if input.dt > 0.1 then 0.1 else input.dt
    ensures var d, r := Driven(s, input, p, dt, root), Moved(s, input, p, world, root).state;
            var v, landed := d.velocity, d.velocity.y < 0.0 && r.velocity.y == 0.0;
            && Travels(s.position.x, r.position.x, v.x, dt, r.velocity.x)
            && Travels(s.position.z, r.position.z, v.z, dt, r.velocity.z)
            && (r.velocity.y == v.y || r.velocity.y == 0.0)
            && (!d.onGround && !landed ==> Travels(s.position.y, r.position.y, v.y, dt, r.velocity.y))
            && r.onGround == (!p.fly && (landed || AboveGround(r, p, world)))
  {
    hide Moved, Travels, Substeps, AreShares, AboveGround, Driven;
    var d := Driven(s, input, p, dt, root);
    DrivenStands(s, input, p, dt, root);
    var n, share, w := MovedInParts(s, input, p, world, root, dt, d);
    SubstepsGo(d, dt, n, share, p, world);
  }

  lemma DrivenStands(s: MoveState, input: MoveInput, p: MoveParams, dt: real, root: real -> real)
    ensures Driven(s, input, p, dt, root).position == s.position
  {
  }

  function WayOf(v: Vec3, dt: real): Vec3 {
    Vec3(v.x * dt, v.y * dt, v.z * dt)
  }

  /** Nothing solid within the box a move spans. */
  ghost predicate Clear(from: Vec3, move: Vec3, p: MoveParams, world: World) {
    forall part: Vec3 :: Within(part, move) ==> !Hits(Plus(from, part), p, world)
  }

  function Times(i: nat, share: real): real {
    i as real * share
  }

  function Shares(share: Vec3, x: nat, y: nat, z: nat): Vec3 {
    Vec3(Times(x, share.x), Times(y, share.y), Times(z, share.z))
  }

  lemma SharesWithin(share: real, i: nat, n: nat)
    requires i <= n
    ensures Between(Times(i, share), Times(n, share))
  {
    var rest := (n - i) as real;
    assert n as real * share == i as real * share + rest * share;
    if share >= 0.0 {
      ProductNonNegative(i as real, share);
      ProductNonNegative(rest, share);
    } else {
      ProductNonNegative(i as real, -share);
      ProductNonNegative(rest, -share);
    }
  }

  lemma AllWithin(share: Vec3, n: nat, x: nat, y: nat, z: nat)
    requires x <= n && y <= n && z <= n
    ensures Within(Shares(share, x, y, z), Shares(share, n, n, n))
  {
    hide Between, Times;
    SharesWithin(share.x, x, n);
    SharesWithin(share.y, y, n);
    SharesWithin(share.z, z, n);
  }

  lemma ClearAt(from: Vec3, share: Vec3, n: nat, p: MoveParams, world: World, x: nat, y: nat, z: nat)
    requires x <= n && y <= n && z <= n && Clear(from, Shares(share, n, n, n), p, world)
    ensures !Hits(Plus(from, Shares(share, x, y, z)), p, world)
  {
    hide Hits, Plus, Shares, Within;
    AllWithin(share, n, x, y, z);
  }

  predicate Unhindered(w: Stride, d: MoveState, share: Vec3, i: nat) {
    w.motion.state == d.(position := Plus(d.position, Shares(share, i, i, i))) && w.disp == share && !w.grounded
  }

  lemma SubstepUnhindered(w: Stride, d: MoveState, share: Vec3, i: nat, n: nat, p: MoveParams, world: World)
    requires i < n && Unhindered(w, d, share, i) && Clear(d.position, Shares(share, n, n, n), p, world)
    ensures Unhindered(Substep(w, p, world), d, share, i + 1)
  {
    hide Hits, Clear;
    var from := d.position;
    ClearAt(from, share, n, p, world, i, i + 1, i);
    ClearAt(from, share, n, p, world, i + 1, i + 1, i);
    ClearAt(from, share, n, p, world, i + 1, i + 1, i + 1);
    OneMore(from, share, i);
  }

  lemma OneMore(from: Vec3, share: Vec3, i: nat)
    ensures Plus(Plus(from, Shares(share, i, i, i)), Vec3(0.0, share.y, 0.0)) == Plus(from, Shares(share, i, i + 1, i))
    ensures Plus(Plus(from, Shares(share, i, i + 1, i)), Vec3(share.x, 0.0, 0.0)) == Plus(from, Shares(share, i + 1, i + 1, i))
    ensures Plus(Plus(from, Shares(share, i + 1, i + 1, i)), Vec3(0.0, 0.0, share.z)) ==
            Plus(from, Shares(share, i + 1, i + 1, i + 1))
    ensures share.y == 0.0 ==> Plus(from, Shares(share, i, i + 1, i)) == Plus(from, Shares(share, i, i, i))
  {
    assert (i + 1) as real * share.x == i as real * share.x + share.x;
    assert (i + 1) as real * share.y == i as real * share.y + share.y;
    assert (i + 1) as real * share.z == i as real * share.z + share.z;
  }

  lemma {:induction false} SubstepsUnhindered(w: Stride, d: MoveState, share: Vec3, i: nat, n: nat, p: MoveParams, world: World)
    requires i <= n && Unhindered(w, d, share, 0) && Clear(d.position, Shares(share, n, n, n), p, world)
    ensures Unhindered(Substeps(w, i, p, world), d, share, i)
  {
    if i > 0 {
      hide Substep, Unhindered, Clear;
      SubstepsUnhindered(w, d, share, i - 1, n, p, world);
      SubstepUnhindered(Substeps(w, i - 1, p, world), d, share, i - 1, n, p, world);
    }
  }

  lemma AllOfIt(share: Vec3, v: Vec3, dt: real, n: nat)
    requires AreShares(share, v, dt, n)
    ensures Shares(share, n, n, n) == WayOf(v, dt)
  {
  }

  lemma StartsUnhindered(d: MoveState, share: Vec3)
    ensures Unhindered(Stride(Motion(d, [d.position]), share, false), d, share, 0)
  {
    assert Shares(share, 0, 0, 0) == Vec3(0.0, 0.0, 0.0);
  }

  /** With nothing in the way a step moves the player by exactly its velocity
      times the time, on every axis, and leaves the velocity as it is. */
  lemma FreeMove(s: MoveState, input: MoveInput, p: MoveParams, world: World, root: real -> real, dt: real)
    requires input.dt > 0.0 && dt == if input.dt > 0.1 then 0.1 else input.dt
    requires Clear(s.position, WayOf(Driven(s, input, p, dt, root).velocity, dt), p, world)
    ensures var v, r := Driven(s, input, p, dt, root).velocity, Moved(s, input, p, world, root).state;
            r.velocity == v && r.position == Plus(s.position, WayOf(v, dt))
  {
    hide Moved, Substeps, Clear, AreShares, AboveGround, Driven, Plus, Shares;
    var d := Driven(s, input, p, dt, root);
    DrivenStands(s, input, p, dt, root);
    var n, share, w := MovedInParts(s, input, p, world, root, dt, d);
    AllOfIt(share, d.velocity, dt, n);
    StartsUnhindered(d, share);
    SubstepsUnhindered(Stride(Motion(d, [d.position]), share, false), d, share, n, n, p, world);
  }

  // ------------------------------------------------- what the velocity becomes

  /** Flight: the held direction, at most one long, times the flying speed. */
  lemma FlightVelocity(s: MoveState, input: MoveInput, p: MoveParams, dt: real, root: real -> real)
    requires p.fly
    ensures var (d, len) := (Driven(s, input, p, dt, root), LengthXz(input.wish, root));
            && !d.onGround
            && d.velocity.y == (if input.flyUp == input.flyDown then 0.0 else if input.flyUp then p.flySpeed else -p.flySpeed)
            && (len <= 1.0 ==> d.velocity.x == input.wish.x * p.flySpeed && d.velocity.z == input.wish.z * p.flySpeed)
            && (len > 1.0 ==> d.velocity.x * len == input.wish.x * p.flySpeed && d.velocity.z * len == input.wish.z * p.flySpeed)
  {
    hide LengthXz, WishVelocity, Slowed, Accelerated, Fallen, MostGain;
    var len := LengthXz(input.wish, root);
    if len > 1.0 {
      Undivided(input.wish.x, len, p.flySpeed);
      Undivided(input.wish.z, len, p.flySpeed);
    }
  }

  lemma Undivided(a: real, len: real, speed: real)
    requires len > 0.0
    ensures a / len * speed * len == a * speed
  {
    var q := a / len;
    assert q * len == a;
    assert q * speed * len == q * len * speed;
  }

  /** A jump from the ground rises at the jumping speed; otherwise gravity takes
      its share, more of it on the way down, until the terminal velocity. */
  lemma VerticalVelocity(s: MoveState, input: MoveInput, p: MoveParams, dt: real, root: real -> real)
    requires !p.fly
    ensures var d, before := Driven(s, input, p, dt, root), s.velocity.y;
            var pull := if before < 0.0 then p.gravity * dt * 1.4 else p.gravity * dt;
            if input.jump && s.onGround then d.velocity.y == p.jumpSpeed && !d.onGround
            else
              && d.onGround == s.onGround && d.velocity.y >= -p.terminalVelocity && d.velocity.y >= before - pull
              && (d.velocity.y == -p.terminalVelocity || d.velocity.y == before - pull)
  {
    hide LengthXz, WishVelocity;
    assert p.gravity * dt * FALL_GRAVITY_SCALE == p.gravity * FALL_GRAVITY_SCALE * dt;
  }

  /** What is asked for: nothing without a direction held, else the walking or
      sprinting speed along it, the direction counting as at most one long. */
  predicate AskedFor(target: Vec3, input: MoveInput, p: MoveParams, root: real -> real) {
    var (len, speed) := (LengthXz(input.wish, root),
                         if input.sprint then p.sprintSpeed else p.walkSpeed);
    && target.y == 0.0
    && (len <= 0.000001 ==> target.x == 0.0 && target.z == 0.0)
    && (0.000001 < len <= 1.0 ==> target.x == input.wish.x * speed && target.z == input.wish.z * speed)
    && (len > 1.0 ==> target.x * len == input.wish.x * speed && target.z * len == input.wish.z * speed)
  }

  /** What is left of the velocity after skidding: all of it, unless the player
      is on the ground without a direction held. */
  predicate Skidded(u: Vec3, k: real, s: MoveState, input: MoveInput, p: MoveParams, dt: real, root: real -> real) {
    var (v, held) := (s.velocity, LengthXz(input.wish, root) > 0.000001);
    var speed := LengthXz(v, root);
    && u.x == k * v.x && u.z == k * v.z
    && (!s.onGround || held || speed <= 0.0 ==> k == 1.0)
    && (s.onGround && !held && speed > 0.0 ==> k * speed == MaxOf(speed - speed * p.friction * dt, 0.0))
  }

  function Gap(from: Vec3, to: Vec3, root: real -> real): real {
    LengthXz(Vec3(to.x - from.x, 0.0, to.z - from.z), root)
  }

  /** Walking: after skidding, the velocity moves straight towards what is asked
      for, by the whole gap or by what the acceleration allows in the time,
      whichever is less. */
  lemma WalkVelocity(s: MoveState, input: MoveInput, p: MoveParams, dt: real, root: real -> real)
    returns (target: Vec3, u: Vec3, k: real, c: real)
    requires !p.fly
    ensures AskedFor(target, input, p, root) && Skidded(u, k, s, input, p, dt, root)
    ensures var (v, gap, gain) := (Driven(s, input, p, dt, root).velocity, Gap(u, target, root),
                                   (if s.onGround then p.accel else p.airAccel) * dt);
            && v.x == u.x + c * (target.x - u.x) && v.z == u.z + c * (target.z - u.z)
            && (gap > 0.0 ==> c * gap == if gap < gain then gap else gain)
            && (gap <= 0.0 ==> c == 1.0)
  {
    hide WishVelocity, Slowed, Accelerated, LengthXz, AskedFor, Fallen, Gap;
    target := WishVelocity(input, p, root);
    WishIsAskedFor(input, p, root);
    var held := LengthXz(input.wish, root) > 0.000001;
    u, k := s.velocity, 1.0;
    if s.onGround && !held {
      u := Slowed(s.velocity, p, dt, root);
      k := SlowedSkids(s.velocity, p, dt, root);
    }
    c := AcceleratedCloses(u, target, MostGain(s.onGround, p, dt), root);
  }

  lemma WishIsAskedFor(input: MoveInput, p: MoveParams, root: real -> real)
    ensures AskedFor(WishVelocity(input, p, root), input, p, root)
  {
    hide LengthXz;
    var len := LengthXz(input.wish, root);
    if len > 1.0 {
      Undivided(input.wish.x, len, TargetSpeed(input, p));
      Undivided(input.wish.z, len, TargetSpeed(input, p));
    }
  }

  lemma SlowedSkids(v: Vec3, p: MoveParams, dt: real, root: real -> real) returns (k: real)
    ensures var (r, speed) := (Slowed(v, p, dt, root), LengthXz(v, root));
            && r.x == k * v.x && r.z == k * v.z
            && (speed <= 0.0 ==> k == 1.0)
            && (speed > 0.0 ==> k * speed == MaxOf(speed - speed * p.friction * dt, 0.0))
  {
    hide LengthXz;
    k := 1.0;
    var speed := LengthXz(v, root);
    if speed > 0.0 {
      k := SlowRatio(speed, p.friction, dt);
    }
  }

  lemma AcceleratedCloses(u: Vec3, target: Vec3, most: real, root: real -> real) returns (c: real)
    ensures var (v, gap) := (Accelerated(u, target, most, root), Gap(u, target, root));
            && v.x == u.x + c * (target.x - u.x) && v.z == u.z + c * (target.z - u.z)
            && (gap > 0.0 ==> c * gap == if gap < most then gap else most)
            && (gap <= 0.0 ==> c == 1.0)
  {
    hide LengthXz;
    c := 1.0;
    var gap := LengthXz(Vec3(target.x - u.x, 0.0, target.z - u.z), root);
    if gap > most && gap > 0.0 {
      c := most / gap;
    }
  }

  /** So the gap to what is asked for shrinks by exactly that. */
  lemma GapCloses(u: Vec3, target: Vec3, v: Vec3, c: real, gain: real, root: real -> real)
    requires IsRoot(root) && gain >= 0.0
    requires v.x == u.x + c * (target.x - u.x) && v.z == u.z + c * (target.z - u.z)
    requires var gap := Gap(u, target, root);
             (gap > 0.0 ==> c * gap == if gap < gain then gap else gain) && (gap <= 0.0 ==> c == 1.0)
    ensures var gap := Gap(u, target, root);
            Sq(target.x - v.x) + Sq(target.z - v.z) == Sq(if gap < gain then 0.0 else gap - gain)
  {
    var gap := Gap(u, target, root);
    var x, z := target.x - u.x, target.z - u.z;
    RootOf(root, Vec3(x, 0.0, z));
    assert Sq(gap) == Sq(x) + Sq(z);
    assert target.x - v.x == (1.0 - c) * x && target.z - v.z == (1.0 - c) * z;
    SquaredProducts(1.0 - c, x, z, gap);
    assert (1.0 - c) * gap == gap - c * gap;
  }

  lemma SquaredProducts(t: real, x: real, z: real, gap: real)
    requires Sq(gap) == Sq(x) + Sq(z)
    ensures Sq(t * x) + Sq(t * z) == Sq(t * gap)
  {
    assert Sq(t * x) == t * t * Sq(x) && Sq(t * z) == t * t * Sq(z) && Sq(t * gap) == t * t * Sq(gap);
  }

  // ------------------------------------------------------ ledges and the box

  /** A point in both the shrunk extent and voxel k. */
  predicate Shared(lo: real, hi: real, k: int, q: real) {
    lo + SKIN <= q <= hi - SKIN && k as real <= q < k as real + 1.0
  }

  lemma CoversIff(lo: real, hi: real, k: int)
    requires lo + SKIN <= hi - SKIN
    ensures Covers(lo, hi, k) <==> exists q: real :: Shared(lo, hi, k, q)
  {
    if Covers(lo, hi, k) {
      var q := if lo + SKIN > k as real then lo + SKIN else k as real;
      assert Shared(lo, hi, k, q);
    }
  }

  /** A point of voxel (x, y, z) inside the player, the skin aside. */
  predicate Inside(feet: Vec3, p: MoveParams, x: int, y: int, z: int, q: Vec3) {
    && Abs(q.x - feet.x) <= p.halfWidth - 0.0001 && Abs(q.z - feet.z) <= p.halfWidth - 0.0001
    && feet.y + 0.0001 <= q.y <= feet.y + p.height - 0.0001
    && x as real <= q.x < x as real + 1.0 && y as real <= q.y < y as real + 1.0 && z as real <= q.z < z as real + 1.0
  }

  /** The player hits exactly if some solid voxel shares a point with it. */
  lemma HitsIff(feet: Vec3, p: MoveParams, world: World)
    requires p.halfWidth >= SKIN && p.height >= 2.0 * SKIN
    ensures Hits(feet, p, world) <==> exists x, y, z :: world(x, y, z) && exists q: Vec3 :: Inside(feet, p, x, y, z, q)
  {
    forall x, y, z
      ensures Touches(PlayerBox(feet, p), world, x, y, z) <==> world(x, y, z) && exists q: Vec3 :: Inside(feet, p, x, y, z, q)
    {
      TouchesIff(feet, p, world, x, y, z);
    }
    hide Inside, PlayerBox;
    if Hits(feet, p, world) {
      var x, y, z :| Touches(PlayerBox(feet, p), world, x, y, z);
      assert world(x, y, z) && exists q: Vec3 :: Inside(feet, p, x, y, z, q);
    }
    if x, y, z :| world(x, y, z) && exists q: Vec3 :: Inside(feet, p, x, y, z, q) {
      assert Touches(PlayerBox(feet, p), world, x, y, z);
    }
  }

  lemma TouchesIff(feet: Vec3, p: MoveParams, world: World, x: int, y: int, z: int)
    requires p.halfWidth >= SKIN && p.height >= 2.0 * SKIN
    ensures Touches(PlayerBox(feet, p), world, x, y, z) <==> world(x, y, z) && exists q: Vec3 :: Inside(feet, p, x, y, z, q)
  {
    var box := PlayerBox(feet, p);
    CoversIff(box.min.x, box.max.x, x);
    CoversIff(box.min.y, box.max.y, y);
    CoversIff(box.min.z, box.max.z, z);
    hide Covers;
    if Touches(box, world, x, y, z) {
      var a :| Shared(box.min.x, box.max.x, x, a);
      var b :| Shared(box.min.y, box.max.y, y, b);
      var c :| Shared(box.min.z, box.max.z, z, c);
      assert Inside(feet, p, x, y, z, Vec3(a, b, c));
    }
    if q: Vec3 :| Inside(feet, p, x, y, z, q) {
      assert Shared(box.min.x, box.max.x, x, q.x);
      assert Shared(box.min.y, box.max.y, y, q.y);
      assert Shared(box.min.z, box.max.z, z, q.z);
    }
  }

  /** A level move: all the way if that is free; else, for a player who may step,
      with room above and over there, onto the ledge, settled on it or below the
      height left; else up against the obstacle, stopped. */
  lemma LedgeOrWall(s: MoveState, delta: Vec3, canStep: bool, p: MoveParams, world: World) returns (t: real)
    requires Level(delta) && !Hits(s.position, p, world)
    ensures
      var r := Resolved(s, delta, canStep, p, world).state;
      var up, lift, sink := Plus(s.position, Vec3(0.0, p.stepHeight, 0.0)), Plus(Plus(s.position, Vec3(0.0, p.stepHeight, 0.0)), delta),
                      p.stepHeight + 0.05;
      if !Hits(Plus(s.position, delta), p, world) then r == s.(position := Plus(s.position, delta))
      else if canStep && !Hits(up, p, world) && !Hits(lift, p, world) then
        && r.velocity == s.velocity && r.onGround && 0.0 <= t <= 1.0
        && r.position == Plus(lift, Vec3(0.0, -(t * sink), 0.0)) && !Hits(r.position, p, world)
        && (t < 1.0 ==> Hits(Plus(lift, Vec3(0.0, -((t + 1.0 / 65536.0) * sink), 0.0)), p, world))
      else
        && r.velocity == Stopped(s.velocity, delta) && r.onGround == s.onGround && 0.0 <= t < 1.0
        && r.position == Plus(s.position, Part(delta, t)) && !Hits(r.position, p, world)
        && Hits(Plus(s.position, Part(delta, t + 1.0 / 65536.0)), p, world)
  {
    hide Swept, Hits;
    var lifted := Plus(s.position, Vec3(0.0, p.stepHeight, 0.0));
    t := SweptFlush(s.position, delta, p, world);
    if Hits(Plus(s.position, delta), p, world) && canStep && !Hits(lifted, p, world) {
      var u := SweptFlush(lifted, delta, p, world);
      if !Hits(Plus(lifted, delta), p, world) {
        t := SweptFlush(Plus(lifted, delta), Vec3(0.0, -(p.stepHeight + SETTLE), 0.0), p, world);
        SunkBy(t, p.stepHeight + SETTLE);
        SunkBy(t + 1.0 / 65536.0, p.stepHeight + SETTLE);
      }
    }
  }

  lemma SunkBy(t: real, sink: real)
    ensures Part(Vec3(0.0, -sink, 0.0), t) == Vec3(0.0, -(t * sink), 0.0)
  {
  }

  lemma SweptFlush(pos: Vec3, delta: Vec3, p: MoveParams, world: World) returns (t: real)
    requires !Hits(pos, p, world)
    ensures 0.0 <= t <= 1.0
    ensures var r := Swept(pos, delta, p, world);
            && r.blocked == Hits(Plus(pos, delta), p, world)
            && r.pos == (if r.blocked then Plus(pos, Part(delta, t)) else Plus(pos, delta)) && !Hits(r.pos, p, world)
            && r.pos == Plus(pos, Part(delta, t))
            && (r.blocked <==> t < 1.0)
            && (r.blocked ==> Hits(Plus(pos, Part(delta, t + 1.0 / 65536.0)), p, world))
  {
    t := SweptSitsFlush(pos, delta, p, world);
    if Hits(Plus(pos, delta), p, world) {
      LerpIsPart(pos, delta, t);
      LerpIsPart(pos, delta, t + 1.0 / 65536.0);
    } else {
      t := 1.0;
    }
  }

  lemma OneSubstep(disp: Vec3)
    requires ShortDisp(disp)
    ensures StepCount(disp) == 1
  {
    var biggest := MaxOf(MaxOf(Abs(disp.x), Abs(disp.y)), Abs(disp.z));
    var q := QuotientBelow(biggest, MAX_STEP_DIST, 1.0);
  }

  /** A level move steps up whenever it may and there is room to. */
  lemma ResolvedClimbs(s: MoveState, delta: Vec3, p: MoveParams, world: World)
    requires Level(delta)
    requires var up := Plus(s.position, Vec3(0.0, p.stepHeight, 0.0)); !Hits(up, p, world) && !Hits(Plus(up, delta), p, world)
    ensures var r := Resolved(s, delta, true, p, world).state;
            r.position.x == s.position.x + delta.x && r.position.z == s.position.z + delta.z && r.velocity == s.velocity
  {
    hide Hits, Swept;
    var up := Plus(s.position, Vec3(0.0, p.stepHeight, 0.0));
    var t := SweptGoes(s.position, delta, p, world);
    var u := SweptGoes(up, delta, p, world);
    var over := Swept(up, delta, p, world);
    var d := SweptGoes(over.pos, Vec3(0.0, -(p.stepHeight + SETTLE), 0.0), p, world);
  }

  lemma SubstepClimbs(w: Stride, p: MoveParams, world: World) returns (rise: real)
    requires var s := w.motion.state;
             s.onGround || w.grounded || (s.velocity.y <= 0.0 && w.disp.y != 0.0 && Hits(Plus(s.position, Vec3(0.0, w.disp.y, 0.0)), p, world))
    ensures Between(rise, w.disp.y)
    ensures var s, r := w.motion.state, Substep(w, p, world).motion.state;
            var up := Plus(s.position, Vec3(0.0, rise + p.stepHeight, 0.0));
            !Hits(up, p, world) && !Hits(Plus(up, Vec3(w.disp.x, 0.0, 0.0)), p, world) ==>
              r.position.x == s.position.x + w.disp.x && r.velocity.x == s.velocity.x
  {
    hide Swept, Hits, Resolved;
    var s := w.motion.state;
    var fall := Vec3(0.0, w.disp.y, 0.0);
    var down := Swept(s.position, fall, p, world);
    var t := SweptGoes(s.position, fall, p, world);
    rise := t * w.disp.y;
    PartIsBetween(w.disp.y, t);
    var landed := w.disp.y != 0.0 && down.blocked;
    var s1 := if w.disp.y == 0.0 then s
              else s.(position := down.pos, velocity := if landed then s.velocity.(y := 0.0) else s.velocity);
    var a := Resolved(s1, Vec3(w.disp.x, 0.0, 0.0), true, p, world);
    var tz := ResolvedGoes(a.state, Vec3(0.0, 0.0, w.disp.z), true, p, world);
    var up := Plus(s.position, Vec3(0.0, rise + p.stepHeight, 0.0));
    assert Plus(s1.position, Vec3(0.0, p.stepHeight, 0.0)) == up;
    if !Hits(up, p, world) && !Hits(Plus(up, Vec3(w.disp.x, 0.0, 0.0)), p, world) {
      ResolvedClimbs(s1, Vec3(w.disp.x, 0.0, 0.0), p, world);
    }
  }

  /** A player on the ground, or landing, is not stopped by what it can step
      over: with room above and beyond, a short step takes it all the way. */
  lemma ClimbsLedge(s: MoveState, input: MoveInput, p: MoveParams, world: World, root: real -> real, dt: real, way: Vec3)
    returns (rise: real)
    requires input.dt > 0.0 && dt == if input.dt > MAX_DT then MAX_DT else input.dt
    requires way == WayOf(Driven(s, input, p, dt, root).velocity, dt) && ShortDisp(way)
    requires Driven(s, input, p, dt, root).onGround || (way.y < 0.0 && Hits(Plus(s.position, Vec3(0.0, way.y, 0.0)), p, world))
    ensures Between(rise, way.y)
    ensures var v, r := Driven(s, input, p, dt, root).velocity, Moved(s, input, p, world, root).state;
            var up := Plus(s.position, Vec3(0.0, rise + p.stepHeight, 0.0));
            !Hits(up, p, world) && !Hits(Plus(up, Vec3(way.x, 0.0, 0.0)), p, world) ==>
              r.position.x == s.position.x + way.x && r.velocity.x == v.x
  {
    hide Driven, Hits, Substep, ShortDisp, WayOf, Moved;
    var d := Driven(s, input, p, dt, root);
    DrivenStands(s, input, p, dt, root);
    DisplacementIsWay(d.velocity, dt);
    ShortStep(s, input, p, world, root, dt, way);
    rise := SubstepClimbs(Stride(Motion(d, [d.position]), way, false), p, world);
  }

  lemma DisplacementIsWay(v: Vec3, dt: real)
    requires dt > 0.0
    ensures Displacement(v, dt) == WayOf(v, dt)
    ensures WayOf(v, dt).y < 0.0 ==> v.y <= 0.0
  {
    if v.y > 0.0 {
      ProductPositive(v.y, dt);
    }
  }

  lemma UndividedWay(way: Vec3)
    ensures PerStep(way, 1) == way
  {
  }

  /** A short step is one substep. */
  lemma ShortStep(s: MoveState, input: MoveInput, p: MoveParams, world: World, root: real -> real, dt: real, way: Vec3)
    requires dt > 0.0 && dt == Clamp(input.dt, 0.0, MAX_DT)
    requires way == WayOf(Driven(s, input, p, dt, root).velocity, dt) && ShortDisp(way)
    ensures var d := Driven(s, input, p, dt, root);
            var e, r := Substep(Stride(Motion(d, [d.position]), way, false), p, world).motion.state, Moved(s, input, p, world, root).state;
            r.position == e.position && r.velocity == e.velocity
  {
    hide Driven, Hits, Substep, WayOf, Displacement, StepCount, PerStep, ShortDisp;
    var d := Driven(s, input, p, dt, root);
    DisplacementIsWay(d.velocity, dt);
    OneSubstep(way);
    UndividedWay(way);
    var first := Stride(Motion(d, [d.position]), way, false);
    assert Substeps(first, 0, p, world) == first && Substeps(first, 1, p, world) == Substep(first, p, world);
  }

  // ------------------------------------------------------------ past a corner

  /** The axes take turns, x before z: in a level substep that may not climb, a
      free move along x is made whatever stands in the way of z, and then the one
      along z exactly if it is free from there. */
  lemma XBeforeZ(w: Stride, p: MoveParams, world: World)
    requires w.disp.y == 0.0 && !w.grounded && !w.motion.state.onGround
    requires !Hits(Plus(w.motion.state.position, Vec3(w.disp.x, 0.0, 0.0)), p, world)
    ensures var (s, r) := (w.motion.state, Substep(w, p, world).motion.state);
            var corner := Vec3(s.position.x + w.disp.x, s.position.y, s.position.z + w.disp.z);
            && r.position.x == s.position.x + w.disp.x && r.position.y == s.position.y && r.velocity.x == s.velocity.x
            && (if !Hits(corner, p, world) then r.position == corner && r.velocity == s.velocity
                else r.velocity == Stopped(s.velocity, Vec3(0.0, 0.0, w.disp.z)))
  {
    hide Hits;
    var s, x, z := w.motion.state, Vec3(w.disp.x, 0.0, 0.0), Vec3(0.0, 0.0, w.disp.z);
    var a := Resolved(s, x, false, p, world).state;
    assert a == s.(position := Plus(s.position, x));
    assert Plus(a.position, z) == Vec3(s.position.x + w.disp.x, s.position.y, s.position.z + w.disp.z);
    SweepStaysOnLine(a.position, z, p, world);
  }

  lemma SweepStaysOnLine(pos: Vec3, delta: Vec3, p: MoveParams, world: World)
    requires delta.x == 0.0 && delta.y == 0.0
    ensures var r := Swept(pos, delta, p, world).pos; r.x == pos.x && r.y == pos.y
  {
    hide Hits;
    BisectionStaysOnLine(pos, Plus(pos, delta), BISECTIONS, p, world);
  }

  lemma {:induction false} BisectionStaysOnLine(lo: Vec3, hi: Vec3, n: nat, p: MoveParams, world: World)
    requires lo.x == hi.x && lo.y == hi.y
    ensures var (a, b) := Bisected(lo, hi, n, p, world); a.x == b.x == lo.x && a.y == b.y == lo.y
  {
    hide Hits;
    if n > 0 {
      BisectionStaysOnLine(lo, hi, n - 1, p, world);
    }
  }
}
