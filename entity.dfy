/**
 * The entities of headers/entity.hpp: obstacles that follow a waypoint list,
 * and the player's per-frame kinematics and axis-separated collision.
 *
 * Positions are centres. Keyboard state arrives as booleans (the intent of
 * the frame), and raylib's rectangle test as a `RectTest` parameter called
 * with the source's argument order: `IsIntersecting(r)` is
 * `collides(r, GetCollider())`.
 */
module Entities {
  import opened Common
  import opened Bezier
  import opened Config

  /** PLAYER_WIDTH and PLAYER_HEIGHT. */
  const PlayerWidth: real := 24.0
  const PlayerHeight: real := 32.0

  /** `-INT32_MAX`, the lower bound LimitVerticalVelocity clamps to. */
  const MinVerticalVelocity: real := -2147483647.0

  datatype ObstacleType = Static | Moving

  datatype Heading = Left | Right

  function Opposite(h: Heading): (r: Heading)
    ensures r != h
  {
    if h == Left then Right else Left
  }

  // ---------------------------------------------------------------------
  // Moving obstacles: an index into the waypoint list plus a direction.
  // ---------------------------------------------------------------------

  datatype PathState = PathState(progress: int, forward: bool)

  /**
   * One MoveAlongPath step over a waypoint list of `size` entries. The
   * forward leg turns at the last index; the backward leg turns at index 1,
   * so once the obstacle has left index 0 it never comes back to it.
   */
  function NextStep(s: PathState, size: nat): (r: PathState)
    requires 0 <= s.progress < size
    ensures 0 <= r.progress < size
    ensures r.progress == s.progress ==> r == s
    ensures r.progress != s.progress ==>
      (s.forward && r.progress == s.progress + 1) || (!s.forward && r.progress == s.progress - 1)
    ensures s.progress >= 1 ==> r.progress >= 1
  {
    if s.forward then
      if s.progress < size - 1 then PathState(s.progress + 1, s.progress + 1 < size - 1) else s
    else
      if s.progress > 1 then PathState(s.progress - 1, s.progress - 1 <= 1) else s
  }

  /** The state after k frames. */
  function Iterate(s: PathState, size: nat, k: nat): (r: PathState)
    requires 0 <= s.progress < size
    ensures 0 <= r.progress < size
    ensures s.progress >= 1 ==> r.progress >= 1
  {
    if k == 0 then s else NextStep(Iterate(s, size, k - 1), size)
  }

  /** Where every obstacle starts (headers/entity.hpp:64-65). */
  const Start := PathState(0, true)

  lemma {:induction false} IterateAdd(s: PathState, size: nat, a: nat, b: nat)
    requires 0 <= s.progress < size
    ensures Iterate(s, size, a + b) == Iterate(Iterate(s, size, a), size, b)
  {
    if b > 0 {
      IterateAdd(s, size, a, b - 1);
    }
  }

  /** Moving forward from p, the obstacle climbs one index per frame until the last index, where it turns. */
  lemma {:induction false} ForwardRun(p: int, size: nat, j: nat)
    requires 0 <= p < size - 1 && p + j <= size - 1
    ensures Iterate(PathState(p, true), size, j) == PathState(p + j, p + j < size - 1)
  {
    if j > 0 {
      ForwardRun(p, size, j - 1);
    }
  }

  /** Moving backward from p, the obstacle descends one index per frame until index 1, where it turns. */
  lemma {:induction false} BackwardRun(p: int, size: nat, j: nat)
    requires 2 <= p < size && j <= p - 1
    ensures Iterate(PathState(p, false), size, j) == PathState(p - j, p - j <= 1)
  {
    if j > 0 {
      BackwardRun(p, size, j - 1);
    }
  }

  /**
   * With at least three waypoints, the first frame moves the obstacle to
   * index 1, and from then on it sweeps 1 .. size-1 and back with period
   * 2 * (size - 2); index 0 is never visited again.
   */
  lemma OscillationPeriod(size: nat, k: nat)
    requires size >= 3 && k >= 1
    ensures Iterate(Start, size, 1) == PathState(1, true)
    ensures Iterate(Start, size, size - 1) == PathState(size - 1, false)
    ensures Iterate(Start, size, 2 * size - 3) == PathState(1, true)
    ensures Iterate(Start, size, k + 2 * (size - 2)) == Iterate(Start, size, k)
    ensures 1 <= Iterate(Start, size, k).progress <= size - 1
  {
    OneSweep(size);
    ShiftByPeriod(size, k);
    NeverReturnsToZero(size, k);
  }

  /** The first sweep: up to the last index, then back down to index 1. */
  lemma OneSweep(size: nat)
    requires size >= 3
    ensures Iterate(Start, size, 1) == PathState(1, true)
    ensures Iterate(Start, size, size - 1) == PathState(size - 1, false)
    ensures Iterate(Start, size, 2 * size - 3) == PathState(1, true)
  {
    ForwardRun(0, size, 1);
    ForwardRun(0, size, size - 1);
    BackwardRun(size - 1, size, size - 2);
    IterateAdd(Start, size, size - 1, size - 2);
  }

  /** After the first frame, one full sweep brings back the same state. */
  lemma ShiftByPeriod(size: nat, k: nat)
    requires size >= 3 && k >= 1
    requires Iterate(Start, size, 1) == Iterate(Start, size, 2 * size - 3)
    ensures Iterate(Start, size, k + 2 * (size - 2)) == Iterate(Start, size, k)
  {
    IterateAdd(Start, size, 1, k - 1);
    IterateAdd(Start, size, 2 * size - 3, k - 1);
    assert k + 2 * (size - 2) == (2 * size - 3) + (k - 1);
  }

  lemma {:induction false} NeverReturnsToZero(size: nat, k: nat)
    requires size >= 2 && k >= 1
    ensures Iterate(Start, size, k).progress >= 1
  {
    IterateAdd(Start, size, 1, k - 1);
    ForwardRun(0, size, 1);
  }

  /** The waypoint lists built from curves have 51 entries: the obstacle repeats every 98 frames. */
  lemma CurvePathPeriod(k: nat)
    requires k >= 1
    ensures Iterate(Start, NumberOfSteps + 1, k + 98) == Iterate(Start, NumberOfSteps + 1, k)
  {
    OscillationPeriod(NumberOfSteps + 1, k);
  }

  /** With two waypoints the obstacle moves to index 1 and stays there, facing backward. */
  lemma {:induction false} TwoWaypointsStop(k: nat)
    requires k >= 1
    ensures Iterate(Start, 2, k) == PathState(1, false)
  {
    if k > 1 {
      TwoWaypointsStop(k - 1);
    }
  }

  /** The snapshot of an obstacle a collision scan reads: its type and its collider. */
  datatype Solid = Solid(kind: ObstacleType, collider: Rect)

  /** Obstacle (headers/entity.hpp:60-96). */
  class Obstacle {
    const kind: ObstacleType
    var position: Vec2
    const halfSizes: Vec2
    const path: BezierCurve
    var isMovingForward: bool
    var progress: int

    constructor (kind: ObstacleType, position: Vec2, halfSizes: Vec2, path: BezierCurve)
      ensures this.kind == kind && this.position == position && this.halfSizes == halfSizes
      ensures this.path == path && isMovingForward && progress == 0
    {
      this.kind := kind;
      this.position := position;
      this.halfSizes := halfSizes;
      this.path := path;
      isMovingForward := true;
      progress := 0;
    }

    function State(): PathState
      reads this
    {
      PathState(progress, isMovingForward)
    }

    function AsSolid(): (s: Solid)
      reads this
      ensures s.kind == kind && s.collider == Collider(position, halfSizes)
    {
      Solid(kind, Collider(position, halfSizes))
    }

    /**
     * MoveAlongPath (headers/entity.hpp:77-95): one NextStep over the
     * waypoint list; whenever the index moves, the obstacle is placed on
     * the waypoint it moved to, and otherwise it stays where it was.
     */
    method MoveAlongPath()
      requires 0 <= progress < |path.stepList|
      modifies this`progress, this`position, this`isMovingForward
      ensures State() == NextStep(old(State()), |path.stepList|)
      ensures 0 <= progress < |path.stepList|
      ensures progress != old(progress) ==> position == path.stepList[progress]
      ensures progress == old(progress) ==> position == old(position)
    {
      if isMovingForward {
        if progress < |path.stepList| - 1 {
          progress := progress + 1;
          position := path.stepList[progress];
          if progress >= |path.stepList| - 1 {
            isMovingForward := false;
          }
        }
      } else {
        if progress > 1 {
          progress := progress - 1;
          position := path.stepList[progress];
          if progress <= 1 {
            isMovingForward := true;
          }
        }
      }
    }
  }

  /** What a collision scan over `obstacles` reads, in list order. */
  function Snapshot(obstacles: seq<Obstacle>): (r: seq<Solid>)
    reads set o | o in obstacles
    ensures |r| == |obstacles|
    ensures forall i :: 0 <= i < |obstacles| ==> r[i] == obstacles[i].AsSolid()
  {
    if |obstacles| == 0 then [] else Snapshot(obstacles[..|obstacles| - 1]) + [obstacles[|obstacles| - 1].AsSolid()]
  }

  /** A step that leaves every obstacle as it was leaves the snapshot as it was. */
  twostate lemma SnapshotKept(obstacles: seq<Obstacle>)
    requires forall o | o in obstacles :: unchanged(o)
    ensures Snapshot(obstacles) == old(Snapshot(obstacles))
  {
  }

  // ---------------------------------------------------------------------
  // First-hit collision resolution.
  // ---------------------------------------------------------------------

  /**
   * The index of the first solid, in list order, whose collider `collides`
   * with `mover` (the scans `for (o : obstacles) if (...) { ...; break; }`).
   */
  function FirstHit(solids: seq<Solid>, mover: Rect, collides: RectTest): (r: Option<nat>)
    ensures r.Some? ==> r.value < |solids| && collides(solids[r.value].collider, mover)
    ensures r.Some? ==> forall j :: 0 <= j < r.value ==> !collides(solids[j].collider, mover)
    ensures r.None? <==> forall j :: 0 <= j < |solids| ==> !collides(solids[j].collider, mover)
  {
    if |solids| == 0 then None
    else if collides(solids[0].collider, mover) then Some(0)
    else
      match FirstHit(solids[1..], mover, collides)
      case None => None
      case Some(k) => Some(k + 1)
  }

  /**
   * The scan `for (o : obstacles) if (CheckCollisionRecs(o->GetCollider(),
   * mover)) { ...; break; }`: the index the loop stops at, if any.
   */
  method ScanObstacles(obstacles: seq<Obstacle>, mover: Rect, collides: RectTest) returns (hit: Option<nat>)
    ensures hit == FirstHit(Snapshot(obstacles), mover, collides)
  {
    var i := 0;
    while i < |obstacles|
      invariant 0 <= i <= |obstacles|
      invariant forall j :: 0 <= j < i ==> !collides(Snapshot(obstacles)[j].collider, mover)
    {
      var o := obstacles[i];
      if collides(Collider(o.position, o.halfSizes), mover) {
        FirstHitAt(Snapshot(obstacles), mover, collides, i);
        return Some(i);
      }
      i := i + 1;
    }
    return None;
  }

  /** A solid that is hit, with none hit before it, is the first hit. */
  lemma {:induction false} FirstHitAt(solids: seq<Solid>, mover: Rect, collides: RectTest, i: nat)
    requires i < |solids| && collides(solids[i].collider, mover)
    requires forall j :: 0 <= j < i ==> !collides(solids[j].collider, mover)
    ensures FirstHit(solids, mover, collides) == Some(i)
  {
    if i > 0 {
      FirstHitAt(solids[1..], mover, collides, i - 1);
    }
  }

  /**
   * The horizontal correction on a hit (headers/entity.hpp:210-216): against
   * a static obstacle the mover is placed `gap` beyond the side it came
   * from; against a moving obstacle it is shifted by `gap` against its
   * motion.
   */
  function PushOutX(s: Solid, x: real, halfWidth: real, vx: real, gap: real): (r: real)
    ensures s.kind == Static && vx > 0.0 ==> r + halfWidth == s.collider.x - gap
    ensures s.kind == Static && vx <= 0.0 ==> r - halfWidth == s.collider.x + s.collider.width + gap
    ensures s.kind == Moving ==> Abs(r - x) == Abs(gap)
    ensures s.kind == Moving && gap > 0.0 ==> (r < x <==> vx > 0.0)
  {
    if s.kind == Static then
      (if vx > 0.0 then s.collider.x - halfWidth - gap else s.collider.x + s.collider.width + halfWidth + gap)
    else
      (if vx > 0.0 then x - gap else x + gap)
  }

  /**
   * The vertical correction on a hit (headers/entity.hpp:234-240): a static
   * obstacle puts the mover `gap` above its top when falling and `gap`
   * below its bottom when rising; a moving obstacle always puts the mover's
   * bottom exactly on its top.
   */
  function PushOutY(s: Solid, halfHeight: real, vy: real, gap: real): (r: real)
    ensures s.kind == Static && vy > 0.0 ==> r + halfHeight == s.collider.y - gap
    ensures s.kind == Static && vy <= 0.0 ==> r - halfHeight == s.collider.y + s.collider.height + gap
    ensures s.kind == Moving ==> r + halfHeight == s.collider.y
  {
    if s.kind == Static then
      (if vy > 0.0 then s.collider.y - halfHeight - gap else s.collider.y + s.collider.height + halfHeight + gap)
    else
      s.collider.y - halfHeight
  }

  /**
   * The vertical velocity after a hit: a mover that was falling or at rest
   * lands (velocity 0); one that was rising bounces off with the same speed.
   */
  function Rebound(vy: real): (r: real)
    ensures vy >= 0.0 ==> r == 0.0
    ensures vy < 0.0 ==> r > 0.0 && r == Abs(vy)
  {
    if vy >= 0.0 then 0.0 else -vy
  }

  // ---------------------------------------------------------------------
  // Horizontal kinematics.
  // ---------------------------------------------------------------------

  /** The air-control factor of a frame (headers/entity.hpp:139-143). */
  function AirControl(vy: real, hAir: real): (f: real)
    ensures vy != 0.0 ==> f == hAir
    ensures vy == 0.0 ==> f == 1.0
  {
    if Abs(vy) > 0.0 then hAir else 1.0
  }

  /**
   * Accelerating toward one side and clamping (headers/entity.hpp:146-164).
   * `gain` is the push when the velocity already points that way (or is
   * zero) and `opposingGain` the push against the current velocity.
   */
  function Accelerate(vx: real, toLeft: bool, gain: real, opposingGain: real, hVelMax: real): real
  {
    var pushed :=
      if toLeft then
        (if vx > 0.0 then vx - opposingGain else vx - gain)
      else
        (if vx < 0.0 then vx + opposingGain else vx + gain);
    if Abs(pushed) >= hVelMax then (if toLeft then -hVelMax else hVelMax) else pushed
  }

  /**
   * After Accelerate the velocity is either the maximum speed toward that
   * side or strictly below the maximum speed, and for non-negative gains it
   * has not moved away from that side.
   */
  lemma AccelerateBounds(vx: real, toLeft: bool, gain: real, opposingGain: real, hVelMax: real)
    ensures var r := Accelerate(vx, toLeft, gain, opposingGain, hVelMax);
      (hVelMax >= 0.0 ==> Abs(r) <= hVelMax)
      && (r == (if toLeft then -hVelMax else hVelMax) || Abs(r) < hVelMax)
      && (gain >= 0.0 && opposingGain >= 0.0 ==>
            (if toLeft then r <= vx || r == -hVelMax else r >= vx || r == hVelMax))
  {
  }

  /** The minimum-speed threshold: a speed at or below hVelMin becomes exactly zero. */
  function SnapToZero(vx: real, hVelMin: real): (r: real)
    ensures r == 0.0 || (r == vx && Abs(vx) > hVelMin)
    ensures Abs(vx) > hVelMin ==> r == vx
  {
    if Abs(vx) <= hVelMin then 0.0 else vx
  }

  /** Friction by a coefficient of magnitude at most 1 never raises the speed. */
  lemma FrictionKeepsBound(vx: real, hCoeff: real, bound: real)
    requires Abs(hCoeff) <= 1.0 && Abs(vx) <= bound
    ensures Abs(vx * hCoeff) <= bound
  {
    var x, c := Abs(vx), Abs(hCoeff);
    ScaleLe(x, c, 1.0);
    assert x * c <= x * 1.0;
    assert x * 1.0 == x;
    AbsOfProduct(vx, hCoeff);
    assert Abs(vx * hCoeff) == x * c;
  }

  lemma ScaleLe(a: real, b: real, c: real)
    requires a >= 0.0 && b <= c
    ensures a * b <= a * c
  {
    assert a * c - a * b == a * (c - b);
  }

  lemma AbsOfProduct(a: real, b: real)
    ensures Abs(a * b) == Abs(a) * Abs(b)
  {
    if a < 0.0 {
      if b < 0.0 { assert a * b == (-a) * (-b); } else { assert -(a * b) == (-a) * b; }
    } else {
      if b < 0.0 { assert -(a * b) == a * (-b); }
    }
  }

  /**
   * The velocity before the minimum-speed snap, for a given air-control
   * factor: key A wins over key D; with neither, friction applies.
   */
  function PlayerSteer(vx: real, factor: real, p: Properties, keyA: bool, keyD: bool): real
  {
    if keyA then Accelerate(vx, true, p.hAccel * factor, p.hAccel * p.hOpposite * factor, p.hVelMax)
    else if keyD then Accelerate(vx, false, p.hAccel * factor, p.hAccel * p.hOpposite * factor, p.hVelMax)
    else vx * p.hCoeff
  }

  /**
   * The player's new horizontal velocity (headers/entity.hpp:137-172): with
   * a key held it is within the maximum speed whatever it was before;
   * friction keeps that bound; and it is either zero or above the minimum
   * speed.
   */
  function PlayerHorizontalVelocity(v: Vec2, p: Properties, keyA: bool, keyD: bool): (r: real)
    ensures (keyA || keyD) && p.hVelMax >= 0.0 ==> Abs(r) <= p.hVelMax
    ensures !keyA && !keyD && Abs(p.hCoeff) <= 1.0 && Abs(v.x) <= p.hVelMax ==> Abs(r) <= p.hVelMax
    ensures r == 0.0 || Abs(r) > p.hVelMin
  {
    var factor := AirControl(v.y, p.hAir);
    if keyA || keyD then
      AccelerateBounds(v.x, keyA, p.hAccel * factor, p.hAccel * p.hOpposite * factor, p.hVelMax);
      SnapToZero(PlayerSteer(v.x, factor, p, keyA, keyD), p.hVelMin)
    else if Abs(p.hCoeff) <= 1.0 && Abs(v.x) <= p.hVelMax then
      FrictionKeepsBound(v.x, p.hCoeff, p.hVelMax);
      SnapToZero(PlayerSteer(v.x, factor, p, keyA, keyD), p.hVelMin)
    else
      SnapToZero(PlayerSteer(v.x, factor, p, keyA, keyD), p.hVelMin)
  }

  // ---------------------------------------------------------------------
  // Vertical kinematics.
  // ---------------------------------------------------------------------

  /**
   * HandleGravity then LimitVerticalVelocity (headers/entity.hpp:118-124):
   * add gravity, then clamp to [-INT32_MAX, vVelMax].
   */
  function GravityStep(vy: real, p: Properties): (r: real)
    ensures r <= p.vVelMax
    ensures MinVerticalVelocity <= p.vVelMax ==> MinVerticalVelocity <= r
    ensures MinVerticalVelocity <= vy + p.gravity <= p.vVelMax ==> r == vy + p.gravity
  {
    Clamp(vy + p.gravity, MinVerticalVelocity, p.vVelMax)
  }

  /** The part of the player's state the jump logic reads and writes. */
  datatype JumpState = JumpState(vy: real, jumpFrame: nat)

  /** The jump can start: pressed this frame, not mid-jump, and within vSafe frames of leaving ground. */
  predicate CanStartJump(jumpFrame: nat, framesAfterFallingOff: nat, p: Properties, pressed: bool)
  {
    pressed && jumpFrame == 0 && framesAfterFallingOff as real <= p.vSafe
  }

  /**
   * The jump handling of MoveVertical before gravity (headers/entity.hpp:
   * 178-196): the press impulse, the hold impulse that shrinks as
   * jumpFrame approaches vHold, the cut once the hold window is over, and
   * the cut on release.
   */
  function JumpInput(s: JumpState, framesAfterFallingOff: nat, p: Properties, pressed: bool, down: bool, released: bool)
    : (r: JumpState)
    ensures r.jumpFrame == s.jumpFrame || r.jumpFrame == s.jumpFrame + 1
    ensures r.jumpFrame == s.jumpFrame + 1 <==>
      CanStartJump(s.jumpFrame, framesAfterFallingOff, p, pressed)
      || (down && s.vy < 0.0 && (s.jumpFrame as real) < p.vHold)
    ensures r.jumpFrame == s.jumpFrame ==> r.vy == s.vy || (s.vy < p.vVelCut && r.vy == p.vVelCut)
    ensures released ==> r.vy >= p.vVelCut
    ensures CanStartJump(s.jumpFrame, framesAfterFallingOff, p, pressed) && !released ==>
      r == JumpState(s.vy + p.vAccel, 1)
  {
    var afterPress :=
      if CanStartJump(s.jumpFrame, framesAfterFallingOff, p, pressed) then
        JumpState(s.vy + p.vAccel, s.jumpFrame + 1)
      else if down && s.vy < 0.0 then
        if (s.jumpFrame as real) < p.vHold then
          JumpState(s.vy + p.vAccel * ((p.vHold - s.jumpFrame as real) / p.vHold), s.jumpFrame + 1)
        else if s.vy < p.vVelCut then
          JumpState(p.vVelCut, s.jumpFrame)
        else
          s
      else
        s;
    if released && afterPress.vy < p.vVelCut then JumpState(p.vVelCut, afterPress.jumpFrame) else afterPress
  }

  /** Player (headers/entity.hpp:129-260), with Character's velocity and gravity helpers. */
  class Player {
    var position: Vec2
    const halfSizes: Vec2
    var velocity: Vec2
    var airControlFactor: real
    var isGrounded: bool
    var jumpFrame: nat
    var framesAfterFallingOff: nat

    constructor (position: Vec2, halfSizes: Vec2)
      ensures this.position == position && this.halfSizes == halfSizes && velocity == Vec2(0.0, 0.0)
      ensures airControlFactor == 1.0 && !isGrounded && jumpFrame == 0 && framesAfterFallingOff == 0
    {
      this.position := position;
      this.halfSizes := halfSizes;
      velocity := Vec2(0.0, 0.0);
      airControlFactor := 1.0;
      isGrounded := false;
      jumpFrame := 0;
      framesAfterFallingOff := 0;
    }

    /** Player::MoveHorizontal (headers/entity.hpp:137-174); keyA and keyD are IsKeyDown(KEY_A / KEY_D). */
    method MoveHorizontal(p: Properties, keyA: bool, keyD: bool)
      modifies this`airControlFactor, this`velocity, this`position
      ensures airControlFactor == AirControl(old(velocity).y, p.hAir)
      ensures velocity == old(velocity).(x := PlayerHorizontalVelocity(old(velocity), p, keyA, keyD))
      ensures position == old(position).(x := old(position).x + velocity.x)
    {
      if Abs(velocity.y) > 0.0 {
        airControlFactor := p.hAir;
      } else {
        airControlFactor := 1.0;
      }

      SteerHorizontal(p, keyA, keyD);

      if Abs(velocity.x) <= p.hVelMin {
        velocity := velocity.(x := 0.0);
      }
      position := position.(x := position.x + velocity.x);
    }

    /**
     * The key-driven part of MoveHorizontal (headers/entity.hpp:145-167): key
     * A wins over key D, each pushing and clamping as Accelerate states
     * (lines 146-154 and 156-164); with neither key the velocity decays by
     * hCoeff.
     */
    method SteerHorizontal(p: Properties, keyA: bool, keyD: bool)
      modifies this`velocity
      ensures velocity == old(velocity).(x := PlayerSteer(old(velocity).x, airControlFactor, p, keyA, keyD))
    {
      if keyA {
        velocity := velocity.(x := Accelerate(velocity.x, true, p.hAccel * airControlFactor,
                                              p.hAccel * p.hOpposite * airControlFactor, p.hVelMax));
      } else if keyD {
        velocity := velocity.(x := Accelerate(velocity.x, false, p.hAccel * airControlFactor,
                                              p.hAccel * p.hOpposite * airControlFactor, p.hVelMax));
      } else {
        velocity := velocity.(x := velocity.x * p.hCoeff);
      }
    }

    /**
     * Player::MoveVertical (headers/entity.hpp:176-201); pressed, down and
     * released are IsKeyPressed / IsKeyDown / IsKeyReleased(KEY_SPACE).
     */
    method MoveVertical(p: Properties, pressed: bool, down: bool, released: bool)
      modifies this`velocity, this`jumpFrame, this`position
      ensures var js := JumpInput(JumpState(old(velocity).y, old(jumpFrame)), framesAfterFallingOff, p, pressed, down, released);
        jumpFrame == js.jumpFrame && velocity == old(velocity).(y := GravityStep(js.vy, p))
      ensures velocity.y <= p.vVelMax
      ensures position == old(position).(y := old(position).y + velocity.y)
    {
      HandleJump(p, pressed, down, released);
      velocity := velocity.(y := velocity.y + p.gravity);
      velocity := velocity.(y := Clamp(velocity.y, MinVerticalVelocity, p.vVelMax));
      position := position.(y := position.y + velocity.y);
    }

    /** The jump part of MoveVertical (headers/entity.hpp:178-196), as JumpInput states it. */
    method HandleJump(p: Properties, pressed: bool, down: bool, released: bool)
      modifies this`velocity, this`jumpFrame
      ensures JumpState(velocity.y, jumpFrame)
        == JumpInput(JumpState(old(velocity).y, old(jumpFrame)), framesAfterFallingOff, p, pressed, down, released)
      ensures velocity.x == old(velocity).x
    {
      if pressed && jumpFrame <= 0 && framesAfterFallingOff as real <= p.vSafe {
        velocity := velocity.(y := velocity.y + p.vAccel);
        jumpFrame := jumpFrame + 1;
      } else if down && velocity.y < 0.0 {
        if (jumpFrame as real) < p.vHold {
          velocity := velocity.(y := velocity.y + p.vAccel * ((p.vHold - jumpFrame as real) / p.vHold));
          jumpFrame := jumpFrame + 1;
        } else {
          if velocity.y < p.vVelCut {
            velocity := velocity.(y := p.vVelCut);
          }
        }
      }
      if released {
        if velocity.y < p.vVelCut {
          velocity := velocity.(y := p.vVelCut);
        }
      }
    }

    /**
     * Player::CollideHorizontal (headers/entity.hpp:203-222): only the first
     * intersecting obstacle is resolved; with no hit nothing changes.
     */
    method CollideHorizontal(obstacles: seq<Obstacle>, gap: real, collides: RectTest)
      modifies this`position, this`velocity
      ensures var hit := FirstHit(old(Snapshot(obstacles)), Collider(old(position), halfSizes), collides);
        hit.None? ==> position == old(position) && velocity == old(velocity)
      ensures var hit := FirstHit(old(Snapshot(obstacles)), Collider(old(position), halfSizes), collides);
        hit.Some? ==>
          position == old(position).(x := PushOutX(old(Snapshot(obstacles))[hit.value], old(position).x, halfSizes.x, old(velocity).x, gap))
          && velocity == old(velocity).(x := 0.0)
    {
      var hit := ScanObstacles(obstacles, Collider(position, halfSizes), collides);
      if hit.Some? {
        var o := obstacles[hit.value];
        BumpSide(Solid(o.kind, Collider(o.position, o.halfSizes)), gap);
      }
    }

    /** The response to the first horizontal hit (headers/entity.hpp:210-218). */
    method BumpSide(s: Solid, gap: real)
      modifies this`position, this`velocity
      ensures position == old(position).(x := PushOutX(s, old(position).x, halfSizes.x, old(velocity).x, gap))
      ensures velocity == old(velocity).(x := 0.0)
    {
      if s.kind == Static {
        position := position.(x := if velocity.x > 0.0 then s.collider.x - halfSizes.x - gap
                                   else s.collider.x + s.collider.width + halfSizes.x + gap);
      } else {
        position := position.(x := if velocity.x > 0.0 then position.x - gap else position.x + gap);
      }
      velocity := velocity.(x := 0.0);
    }

    /**
     * The response to the first vertical hit (headers/entity.hpp:233-251):
     * the push-out of PushOutY, then landing (both jump counters reset) or
     * bouncing off a ceiling as Rebound states.
     */
    method Land(s: Solid, gap: real)
      modifies this`position, this`velocity, this`isGrounded, this`jumpFrame, this`framesAfterFallingOff
      ensures position == old(position).(y := PushOutY(s, halfSizes.y, old(velocity).y, gap))
      ensures velocity == old(velocity).(y := Rebound(old(velocity).y))
      ensures isGrounded == (old(isGrounded) || old(velocity).y >= 0.0)
      ensures jumpFrame == (if old(velocity).y >= 0.0 then 0 else old(jumpFrame))
      ensures framesAfterFallingOff == (if old(velocity).y >= 0.0 then 0 else old(framesAfterFallingOff))
    {
      if s.kind == Static {
        position := position.(y := if velocity.y > 0.0 then s.collider.y - halfSizes.y - gap
                                   else s.collider.y + s.collider.height + halfSizes.y + gap);
      } else {
        position := position.(y := s.collider.y - halfSizes.y);
      }
      if velocity.y >= 0.0 {
        jumpFrame := 0;
        framesAfterFallingOff := 0;
        velocity := velocity.(y := 0.0);
        isGrounded := true;
      } else {
        velocity := velocity.(y := -velocity.y);
      }
    }

    /**
     * Player::CollideVertical (headers/entity.hpp:224-259): the first hit
     * lands the player (resetting both jump counters) or bounces it off a
     * ceiling; afterwards the falling-off counter starts when the player
     * has just left the ground and keeps counting while it is airborne.
     */
    method CollideVertical(obstacles: seq<Obstacle>, gap: real, collides: RectTest)
      modifies this`position, this`velocity, this`isGrounded, this`jumpFrame, this`framesAfterFallingOff
      ensures var hit := FirstHit(old(Snapshot(obstacles)), Collider(old(position), halfSizes), collides);
        hit.None? ==>
          position == old(position) && velocity == old(velocity) && !isGrounded && jumpFrame == old(jumpFrame)
      ensures var hit := FirstHit(old(Snapshot(obstacles)), Collider(old(position), halfSizes), collides);
        hit.Some? ==>
          position == old(position).(y := PushOutY(old(Snapshot(obstacles))[hit.value], halfSizes.y, old(velocity).y, gap))
          && velocity == old(velocity).(y := Rebound(old(velocity).y))
          && isGrounded == (old(velocity).y >= 0.0)
          && jumpFrame == (if isGrounded then 0 else old(jumpFrame))
      ensures isGrounded ==> framesAfterFallingOff == 0
      ensures !isGrounded ==>
        framesAfterFallingOff == if old(isGrounded) || old(framesAfterFallingOff) > 0 then old(framesAfterFallingOff) + 1 else 0
    {
      var isGroundedLastFrame := isGrounded;
      // The scan reads only the obstacles, so it may come before the flag is cleared.
      var hit := ScanObstacles(obstacles, Collider(position, halfSizes), collides);
      isGrounded := false;
      if hit.Some? {
        var o := obstacles[hit.value];
        Land(Solid(o.kind, Collider(o.position, o.halfSizes)), gap);
      }

      if (isGroundedLastFrame && !isGrounded) || (!isGrounded && framesAfterFallingOff > 0) {
        framesAfterFallingOff := framesAfterFallingOff + 1;
      }
    }
  }
}
