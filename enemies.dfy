/**
 * The enemies of headers/enemies.hpp. RangedEnemy walks toward its heading,
 * turns round at ledges (two 10 x 10 probes under its bottom corners) and
 * at walls; MeleeEnemy is steered by two flags, has no minimum-speed snap,
 * and swaps its flags when it hits a wall. Enemy (headers/entity.hpp:262-395)
 * is the same code as RangedEnemy and is modelled by it.
 *
 * As in the source, `IsIntersecting(r)` is `collides(r, GetCollider())`,
 * while the ledge probes ask each obstacle, `o->IsIntersecting(probe)`,
 * which is the scan of ScanObstacles run with `Flip(collides)`.
 */
module Enemies {
  import opened Common
  import opened Config
  import opened Entities

  /** The side of the square ledge probes. */
  const ProbeSize: real := 10.0

  /**
   * GetBottomLeftCollider (headers/enemies.hpp:164-169): a probe square
   * whose right edge is the collider's left edge and whose top is the
   * collider's bottom.
   */
  function BottomLeftProbe(position: Vec2, halfSizes: Vec2): (r: Rect)
    ensures r.width == ProbeSize && r.height == ProbeSize
    ensures r.x + r.width == Collider(position, halfSizes).x
    ensures r.y == Collider(position, halfSizes).y + Collider(position, halfSizes).height
  {
    Rect(position.x - halfSizes.x - 10.0, position.y + halfSizes.y, 10.0, 10.0)
  }

  /**
   * GetBottomRightCollider (headers/enemies.hpp:171-176): a probe square
   * whose left edge is the collider's right edge and whose top is the
   * collider's bottom.
   */
  function BottomRightProbe(position: Vec2, halfSizes: Vec2): (r: Rect)
    ensures r.width == ProbeSize && r.height == ProbeSize
    ensures r.x == Collider(position, halfSizes).x + Collider(position, halfSizes).width
    ensures r.y == Collider(position, halfSizes).y + Collider(position, halfSizes).height
  {
    Rect(position.x + halfSizes.x, position.y + halfSizes.y, 10.0, 10.0)
  }

  /**
   * RangedEnemy's new horizontal velocity (headers/enemies.hpp:22-63). A
   * heading is always LEFT or RIGHT, so the enemy always accelerates and
   * the friction branch of the source (line 56) is never taken. The result
   * is within the maximum speed, is zero or above the minimum speed, and
   * for non-negative gains never points further away from the heading than
   * the old velocity did.
   */
  function RangedHorizontalVelocity(vx: real, heading: Heading, p: Properties): (r: real)
    ensures p.hVelMax >= 0.0 ==> Abs(r) <= p.hVelMax
    ensures r == 0.0 || Abs(r) > p.hVelMin
    ensures p.hAccel >= 0.0 && p.hAccel * p.hOpposite >= 0.0 && p.hVelMax >= 0.0 ==>
      if heading == Left then r <= 0.0 || r <= vx else r >= 0.0 || r >= vx
  {
    AccelerateBounds(vx, heading == Left, p.hAccel, p.hAccel * p.hOpposite, p.hVelMax);
    SnapToZero(RangedSteer(vx, heading, p), p.hVelMin)
  }

  /** The velocity before the snap: a push toward the heading, clamped. */
  function RangedSteer(vx: real, heading: Heading, p: Properties): real
  {
    Accelerate(vx, heading == Left, p.hAccel, p.hAccel * p.hOpposite, p.hVelMax)
  }

  /**
   * MeleeEnemy's new horizontal velocity (headers/enemies.hpp:195-230):
   * isMovingLeft wins over isMovingRight, and with neither the velocity
   * decays by hCoeff. There is no minimum-speed snap.
   */
  function MeleeHorizontalVelocity(vx: real, movingLeft: bool, movingRight: bool, p: Properties): real
  {
    if movingLeft then Accelerate(vx, true, p.hAccel, p.hAccel * p.hOpposite, p.hVelMax)
    else if movingRight then Accelerate(vx, false, p.hAccel, p.hAccel * p.hOpposite, p.hVelMax)
    else vx * p.hCoeff
  }

  /**
   * A melee enemy with a flag set ends within the maximum speed whatever
   * its old velocity; with no flag, friction by |hCoeff| <= 1 keeps that
   * bound.
   */
  lemma MeleeSpeedBound(vx: real, movingLeft: bool, movingRight: bool, p: Properties)
    ensures (movingLeft || movingRight) && p.hVelMax >= 0.0 ==>
      Abs(MeleeHorizontalVelocity(vx, movingLeft, movingRight, p)) <= p.hVelMax
    ensures !movingLeft && !movingRight && Abs(p.hCoeff) <= 1.0 && Abs(vx) <= p.hVelMax ==>
      Abs(MeleeHorizontalVelocity(vx, movingLeft, movingRight, p)) <= p.hVelMax
  {
    if movingLeft || movingRight {
      AccelerateBounds(vx, movingLeft, p.hAccel, p.hAccel * p.hOpposite, p.hVelMax);
    } else if Abs(p.hCoeff) <= 1.0 && Abs(vx) <= p.hVelMax {
      FrictionKeepsBound(vx, p.hCoeff, p.hVelMax);
    }
  }

  /**
   * The missing snap is observable: a melee enemy starting from rest with
   * a push no larger than the minimum speed creeps by that push, where a
   * ranged enemy in the same situation stays at rest.
   */
  lemma MeleeKeepsSlowSpeeds(p: Properties)
    requires 0.0 < p.hAccel <= p.hVelMin < p.hVelMax
    ensures MeleeHorizontalVelocity(0.0, true, false, p) == -p.hAccel
    ensures MeleeHorizontalVelocity(0.0, true, false, p) != 0.0
    ensures RangedHorizontalVelocity(0.0, Left, p) == 0.0
  {
  }

  /**
   * The ledge check of headers/enemies.hpp:78-100: some ledge probe of an
   * enemy at `position` touches none of the solids.
   */
  predicate AtLedge(solids: seq<Solid>, position: Vec2, halfSizes: Vec2, collides: RectTest)
  {
    FirstHit(solids, BottomLeftProbe(position, halfSizes), Flip(collides)).None?
    || FirstHit(solids, BottomRightProbe(position, halfSizes), Flip(collides)).None?
  }

  /**
   * The two probe scans of headers/enemies.hpp:78-98; the right probe is
   * only tried when the left one found an obstacle.
   */
  method ScanLedge(obstacles: seq<Obstacle>, position: Vec2, halfSizes: Vec2, collides: RectTest)
    returns (atLedge: bool)
    ensures atLedge == AtLedge(Snapshot(obstacles), position, halfSizes, collides)
  {
    var oLeft := ScanObstacles(obstacles, BottomLeftProbe(position, halfSizes), Flip(collides));
    var oRight: Option<nat> := None;
    if oLeft.Some? {
      oRight := ScanObstacles(obstacles, BottomRightProbe(position, halfSizes), Flip(collides));
    }
    atLedge := oLeft.None? || oRight.None?;
  }

  /** The part of an enemy's state that every step of a frame may move. */
  datatype Motion = Motion(position: Vec2, velocity: Vec2)

  /**
   * MoveVertical on values (headers/enemies.hpp:67-72, 235-240): gravity,
   * the clamp, and the step down. Nothing horizontal changes.
   */
  function Fall(m: Motion, p: Properties): (r: Motion)
    ensures r.position.x == m.position.x && r.velocity.x == m.velocity.x
    ensures r.velocity.y <= p.vVelMax
    ensures r.position.y - m.position.y == r.velocity.y
  {
    var vy := GravityStep(m.velocity.y, p);
    Motion(m.position.(y := m.position.y + vy), m.velocity.(y := vy))
  }

  /**
   * CollideVertical on values (headers/enemies.hpp:130-162, 278-310): the
   * first solid hit pushes the enemy out vertically and lands or bounces
   * it. Nothing horizontal changes, and with no hit nothing changes at all.
   */
  function Settle(m: Motion, halfSizes: Vec2, solids: seq<Solid>, gap: real, collides: RectTest): (r: Motion)
    ensures r.position.x == m.position.x && r.velocity.x == m.velocity.x
    ensures FirstHit(solids, Collider(m.position, halfSizes), collides).None? ==> r == m
    ensures r.velocity.y == m.velocity.y || r.velocity.y == Rebound(m.velocity.y)
  {
    match FirstHit(solids, Collider(m.position, halfSizes), collides)
    case None => m
    case Some(i) =>
      Motion(m.position.(y := PushOutY(solids[i], halfSizes.y, m.velocity.y, gap)), m.velocity.(y := Rebound(m.velocity.y)))
  }

  /**
   * RangedEnemy's MoveHorizontal on values (headers/enemies.hpp:22-65):
   * the new horizontal velocity, then the step by it. Nothing vertical
   * changes.
   */
  function RangedWalk(m: Motion, heading: Heading, p: Properties): (r: Motion)
    ensures r.position.y == m.position.y && r.velocity.y == m.velocity.y
    ensures r.position.x - m.position.x == r.velocity.x
    ensures r.velocity.x == 0.0 || Abs(r.velocity.x) > p.hVelMin
  {
    var vx := RangedHorizontalVelocity(m.velocity.x, heading, p);
    Motion(m.position.(x := m.position.x + vx), m.velocity.(x := vx))
  }

  /**
   * RangedEnemy's CollideHorizontal on values (headers/enemies.hpp:74-128):
   * at a ledge the enemy only turns; otherwise the first wall hit pushes it
   * out and turns it. The velocity and the vertical position never change.
   */
  function RangedTurn(m: Motion, heading: Heading, halfSizes: Vec2, solids: seq<Solid>, gap: real, collides: RectTest)
    : (r: (Motion, Heading))
    ensures r.0.velocity == m.velocity && r.0.position.y == m.position.y
    ensures AtLedge(solids, m.position, halfSizes, collides) ==> r.0 == m && r.1 == Opposite(heading)
    ensures r.1 == heading <==>
      !AtLedge(solids, m.position, halfSizes, collides) && FirstHit(solids, Collider(m.position, halfSizes), collides).None?
    ensures r.1 == heading ==> r.0 == m
    ensures var wall := FirstHit(solids, Collider(m.position, halfSizes), collides);
      !AtLedge(solids, m.position, halfSizes, collides) && wall.Some? ==>
        r.0.position.x == PushOutX(solids[wall.value], m.position.x, halfSizes.x, m.velocity.x, gap)
  {
    if AtLedge(solids, m.position, halfSizes, collides) then (m, Opposite(heading))
    else
      match FirstHit(solids, Collider(m.position, halfSizes), collides)
      case None => (m, heading)
      case Some(i) =>
        (m.(position := m.position.(x := PushOutX(solids[i], m.position.x, halfSizes.x, m.velocity.x, gap))), Opposite(heading))
  }

  /**
   * One RangedEnemy::Update (headers/enemies.hpp:12-19) on values: walk,
   * turn, fall, settle. The heading flips at most once, collisions leave
   * the horizontal velocity as the walk made it, and the vertical velocity
   * is the one gravity gives or that one landed or bounced.
   */
  function RangedFrame(m: Motion, heading: Heading, halfSizes: Vec2, p: Properties, solids: seq<Solid>, collides: RectTest)
    : (r: (Motion, Heading))
    ensures r.1 == heading || r.1 == Opposite(heading)
    ensures r.0.velocity.x == RangedHorizontalVelocity(m.velocity.x, heading, p)
    ensures var vy := GravityStep(m.velocity.y, p);
      r.0.velocity.y == vy || r.0.velocity.y == Rebound(vy)
  {
    var turned := RangedTurn(RangedWalk(m, heading, p), heading, halfSizes, solids, p.gap, collides);
    (Settle(Fall(turned.0, p), halfSizes, solids, p.gap, collides), turned.1)
  }

  /**
   * MeleeEnemy's MoveHorizontal on values (headers/enemies.hpp:195-233):
   * the new horizontal velocity, then the step by it. Nothing vertical
   * changes.
   */
  function MeleeWalk(m: Motion, movingLeft: bool, movingRight: bool, p: Properties): (r: Motion)
    ensures r.position.y == m.position.y && r.velocity.y == m.velocity.y
    ensures r.position.x - m.position.x == r.velocity.x
  {
    var vx := MeleeHorizontalVelocity(m.velocity.x, movingLeft, movingRight, p);
    Motion(m.position.(x := m.position.x + vx), m.velocity.(x := vx))
  }

  /**
   * MeleeEnemy's CollideHorizontal on values (headers/enemies.hpp:242-275):
   * the first wall hit pushes the enemy out and swaps its walking flags.
   * The velocity and the vertical position never change.
   */
  function MeleeTurn(m: Motion, movingLeft: bool, movingRight: bool, halfSizes: Vec2, solids: seq<Solid>, gap: real, collides: RectTest)
    : (r: (Motion, bool, bool))
    ensures r.0.velocity == m.velocity && r.0.position.y == m.position.y
    ensures FirstHit(solids, Collider(m.position, halfSizes), collides).None? ==> r == (m, movingLeft, movingRight)
    ensures FirstHit(solids, Collider(m.position, halfSizes), collides).Some? ==>
      r.1 != r.2 && r.2 == movingLeft
  {
    match FirstHit(solids, Collider(m.position, halfSizes), collides)
    case None => (m, movingLeft, movingRight)
    case Some(i) =>
      (m.(position := m.position.(x := PushOutX(solids[i], m.position.x, halfSizes.x, m.velocity.x, gap))), !movingLeft, movingLeft)
  }

  /**
   * One MeleeEnemy::Update (headers/enemies.hpp:186-193) on values: walk,
   * turn, fall, settle. The flags are kept or left with exactly one set,
   * collisions leave the horizontal velocity as the walk made it, and the
   * vertical velocity is the one gravity gives or that one landed or
   * bounced.
   */
  function MeleeFrame(m: Motion, movingLeft: bool, movingRight: bool, halfSizes: Vec2, p: Properties, solids: seq<Solid>, collides: RectTest)
    : (r: (Motion, bool, bool))
    ensures (r.1, r.2) == (movingLeft, movingRight) || r.1 != r.2
    ensures r.0.velocity.x == MeleeHorizontalVelocity(m.velocity.x, movingLeft, movingRight, p)
    ensures var vy := GravityStep(m.velocity.y, p);
      r.0.velocity.y == vy || r.0.velocity.y == Rebound(vy)
  {
    var turned := MeleeTurn(MeleeWalk(m, movingLeft, movingRight, p), movingLeft, movingRight, halfSizes, solids, p.gap, collides);
    (Settle(Fall(turned.0, p), halfSizes, solids, p.gap, collides), turned.1, turned.2)
  }

  /** RangedEnemy (headers/enemies.hpp:6-177), which also stands for Enemy (headers/entity.hpp:262-395). */
  class RangedEnemy {
    var position: Vec2
    const halfSizes: Vec2
    var velocity: Vec2
    var heading: Heading

    constructor (position: Vec2, halfSizes: Vec2)
      ensures this.position == position && this.halfSizes == halfSizes
      ensures velocity == Vec2(0.0, 0.0) && heading == Left
    {
      this.position := position;
      this.halfSizes := halfSizes;
      velocity := Vec2(0.0, 0.0);
      heading := Left;
    }

    /** RangedEnemy::Update (headers/enemies.hpp:12-19): the four steps in order, as RangedFrame states. */
    method Update(p: Properties, obstacles: seq<Obstacle>, collides: RectTest)
      modifies this`position, this`velocity, this`heading
      ensures (Motion(position, velocity), heading)
        == RangedFrame(Motion(old(position), old(velocity)), old(heading), halfSizes, p, old(Snapshot(obstacles)), collides)
      ensures heading == old(heading) || heading == Opposite(old(heading))
      ensures velocity.x == RangedHorizontalVelocity(old(velocity).x, old(heading), p)
      ensures p.hVelMax >= 0.0 ==> Abs(velocity.x) <= p.hVelMax
      ensures velocity.x == 0.0 || Abs(velocity.x) > p.hVelMin
    {
      label Start:
      MoveHorizontal(p);
      SnapshotKept@Start(obstacles);
      label Walked:
      CollideHorizontal(obstacles, p.gap, collides);
      SnapshotKept@Walked(obstacles);
      label Turned:
      MoveVertical(p);
      SnapshotKept@Turned(obstacles);
      CollideVertical(obstacles, p.gap, collides);
    }

    /** RangedEnemy::MoveHorizontal (headers/enemies.hpp:22-65). */
    method MoveHorizontal(p: Properties)
      modifies this`velocity, this`position
      ensures velocity == old(velocity).(x := RangedHorizontalVelocity(old(velocity).x, heading, p))
      ensures position == old(position).(x := old(position).x + velocity.x)
      ensures Motion(position, velocity) == RangedWalk(Motion(old(position), old(velocity)), heading, p)
    {
      Steer(p);
      if Abs(velocity.x) <= p.hVelMin {
        velocity := velocity.(x := 0.0);
      }
      position := position.(x := position.x + velocity.x);
    }

    /**
     * The push toward the heading (headers/enemies.hpp:24-53). Heading has
     * only two values, so the source's friction branch (line 56) is dead.
     */
    method Steer(p: Properties)
      modifies this`velocity
      ensures velocity == old(velocity).(x := RangedSteer(old(velocity).x, heading, p))
    {
      if heading == Left {
        velocity := velocity.(x := Accelerate(velocity.x, true, p.hAccel, p.hAccel * p.hOpposite, p.hVelMax));
      } else {
        velocity := velocity.(x := Accelerate(velocity.x, false, p.hAccel, p.hAccel * p.hOpposite, p.hVelMax));
      }
    }

    /** RangedEnemy::MoveVertical (headers/enemies.hpp:67-72): gravity, clamp, apply. */
    method MoveVertical(p: Properties)
      modifies this`velocity, this`position
      ensures velocity == old(velocity).(y := GravityStep(old(velocity).y, p))
      ensures velocity.y <= p.vVelMax
      ensures position == old(position).(y := old(position).y + velocity.y)
      ensures Motion(position, velocity) == Fall(Motion(old(position), old(velocity)), p)
    {
      velocity := velocity.(y := velocity.y + p.gravity);
      velocity := velocity.(y := Clamp(velocity.y, MinVerticalVelocity, p.vVelMax));
      position := position.(y := position.y + velocity.y);
    }

    /**
     * RangedEnemy::CollideHorizontal (headers/enemies.hpp:74-128), as
     * RangedTurn states: when either ledge probe touches no obstacle, the
     * enemy turns round and nothing else happens; otherwise the first wall
     * hit pushes it out and turns it round, keeping its velocity.
     */
    method CollideHorizontal(obstacles: seq<Obstacle>, gap: real, collides: RectTest)
      modifies this`position, this`heading
      ensures (Motion(position, velocity), heading)
        == RangedTurn(Motion(old(position), velocity), old(heading), halfSizes, old(Snapshot(obstacles)), gap, collides)
    {
      var atLedge := ScanLedge(obstacles, position, halfSizes, collides);
      if atLedge {
        heading := Opposite(heading);
        return;
      }

      var wall := ScanObstacles(obstacles, Collider(position, halfSizes), collides);
      if wall.Some? {
        var o := obstacles[wall.value];
        BumpWall(Solid(o.kind, Collider(o.position, o.halfSizes)), gap);
      }
    }

    /**
     * The wall response of headers/enemies.hpp:109-125: the push-out of
     * PushOutX and a turn, with the velocity kept.
     */
    method BumpWall(s: Solid, gap: real)
      modifies this`position, this`heading
      ensures position == old(position).(x := PushOutX(s, old(position).x, halfSizes.x, velocity.x, gap))
      ensures heading == Opposite(old(heading))
    {
      if s.kind == Static {
        position := position.(x := if velocity.x > 0.0 then s.collider.x - halfSizes.x - gap
                                   else s.collider.x + s.collider.width + halfSizes.x + gap);
      } else {
        position := position.(x := if velocity.x > 0.0 then position.x - gap else position.x + gap);
      }
      heading := Opposite(heading);
    }

    /**
     * RangedEnemy::CollideVertical (headers/enemies.hpp:130-162): the first
     * hit pushes the enemy out as PushOutY states and lands or bounces it
     * as Rebound states; with no hit nothing changes.
     */
    method CollideVertical(obstacles: seq<Obstacle>, gap: real, collides: RectTest)
      modifies this`position, this`velocity
      ensures var solids := old(Snapshot(obstacles));
        match FirstHit(solids, Collider(old(position), halfSizes), collides)
        case None => position == old(position) && velocity == old(velocity)
        case Some(i) =>
          position == old(position).(y := PushOutY(solids[i], halfSizes.y, old(velocity).y, gap))
          && velocity == old(velocity).(y := Rebound(old(velocity).y))
      ensures Motion(position, velocity) == Settle(Motion(old(position), old(velocity)), halfSizes, old(Snapshot(obstacles)), gap, collides)
    {
      var hit := ScanObstacles(obstacles, Collider(position, halfSizes), collides);
      if hit.Some? {
        var o := obstacles[hit.value];
        var oCollider := Collider(o.position, o.halfSizes);
        if o.kind == Static {
          position := position.(y := if velocity.y > 0.0 then oCollider.y - halfSizes.y - gap
                                     else oCollider.y + oCollider.height + halfSizes.y + gap);
        } else {
          position := position.(y := oCollider.y - halfSizes.y);
        }
        if velocity.y >= 0.0 {
          velocity := velocity.(y := 0.0);
        } else {
          velocity := velocity.(y := -velocity.y);
        }
      }
    }
  }

  /** MeleeEnemy (headers/enemies.hpp:179-311). */
  class MeleeEnemy {
    var position: Vec2
    const halfSizes: Vec2
    var velocity: Vec2
    var isMovingLeft: bool
    var isMovingRight: bool

    constructor (position: Vec2, halfSizes: Vec2)
      ensures this.position == position && this.halfSizes == halfSizes
      ensures velocity == Vec2(0.0, 0.0) && !isMovingLeft && !isMovingRight
    {
      this.position := position;
      this.halfSizes := halfSizes;
      velocity := Vec2(0.0, 0.0);
      isMovingLeft := false;
      isMovingRight := false;
    }

    /** MeleeEnemy::Update (headers/enemies.hpp:186-193): the four steps in order, as MeleeFrame states. */
    method Update(p: Properties, obstacles: seq<Obstacle>, collides: RectTest)
      modifies this`position, this`velocity, this`isMovingLeft, this`isMovingRight
      ensures (Motion(position, velocity), isMovingLeft, isMovingRight)
        == MeleeFrame(Motion(old(position), old(velocity)), old(isMovingLeft), old(isMovingRight), halfSizes, p, old(Snapshot(obstacles)), collides)
      ensures velocity.x == MeleeHorizontalVelocity(old(velocity).x, old(isMovingLeft), old(isMovingRight), p)
      ensures (isMovingLeft, isMovingRight) == (old(isMovingLeft), old(isMovingRight)) || (isMovingLeft != isMovingRight)
    {
      label Start:
      MoveHorizontal(p);
      SnapshotKept@Start(obstacles);
      label Walked:
      CollideHorizontal(obstacles, p.gap, collides);
      SnapshotKept@Walked(obstacles);
      label Turned:
      MoveVertical(p);
      SnapshotKept@Turned(obstacles);
      CollideVertical(obstacles, p.gap, collides);
    }

    /** MeleeEnemy::MoveHorizontal (headers/enemies.hpp:195-233): no minimum-speed snap. */
    method MoveHorizontal(p: Properties)
      modifies this`velocity, this`position
      ensures velocity == old(velocity).(x := MeleeHorizontalVelocity(old(velocity).x, isMovingLeft, isMovingRight, p))
      ensures position == old(position).(x := old(position).x + velocity.x)
      ensures Motion(position, velocity) == MeleeWalk(Motion(old(position), old(velocity)), isMovingLeft, isMovingRight, p)
    {
      if isMovingLeft {
        velocity := velocity.(x := Accelerate(velocity.x, true, p.hAccel, p.hAccel * p.hOpposite, p.hVelMax));
      } else if isMovingRight {
        velocity := velocity.(x := Accelerate(velocity.x, false, p.hAccel, p.hAccel * p.hOpposite, p.hVelMax));
      } else {
        velocity := velocity.(x := velocity.x * p.hCoeff);
      }
      position := position.(x := position.x + velocity.x);
    }

    /** MeleeEnemy::MoveVertical (headers/enemies.hpp:235-240): gravity, clamp, apply. */
    method MoveVertical(p: Properties)
      modifies this`velocity, this`position
      ensures velocity == old(velocity).(y := GravityStep(old(velocity).y, p))
      ensures velocity.y <= p.vVelMax
      ensures position == old(position).(y := old(position).y + velocity.y)
      ensures Motion(position, velocity) == Fall(Motion(old(position), old(velocity)), p)
    {
      velocity := velocity.(y := velocity.y + p.gravity);
      velocity := velocity.(y := Clamp(velocity.y, MinVerticalVelocity, p.vVelMax));
      position := position.(y := position.y + velocity.y);
    }

    /**
     * MeleeEnemy::CollideHorizontal (headers/enemies.hpp:242-275): the
     * first wall hit pushes the enemy out and makes it walk the other way:
     * afterwards exactly one flag is set, isMovingRight being the old
     * isMovingLeft. With no hit nothing changes.
     */
    method CollideHorizontal(obstacles: seq<Obstacle>, gap: real, collides: RectTest)
      modifies this`position, this`isMovingLeft, this`isMovingRight
      ensures var solids := old(Snapshot(obstacles));
        match FirstHit(solids, Collider(old(position), halfSizes), collides)
        case None =>
          position == old(position) && isMovingLeft == old(isMovingLeft) && isMovingRight == old(isMovingRight)
        case Some(i) =>
          position == old(position).(x := PushOutX(solids[i], old(position).x, halfSizes.x, velocity.x, gap))
          && isMovingRight == old(isMovingLeft) && isMovingLeft == !old(isMovingLeft)
      ensures (Motion(position, velocity), isMovingLeft, isMovingRight)
        == MeleeTurn(Motion(old(position), velocity), old(isMovingLeft), old(isMovingRight), halfSizes, old(Snapshot(obstacles)), gap, collides)
    {
      var hit := ScanObstacles(obstacles, Collider(position, halfSizes), collides);
      if hit.Some? {
        var o := obstacles[hit.value];
        var oCollider := Collider(o.position, o.halfSizes);
        if o.kind == Static {
          position := position.(x := if velocity.x > 0.0 then oCollider.x - halfSizes.x - gap
                                     else oCollider.x + oCollider.width + halfSizes.x + gap);
        } else {
          position := position.(x := if velocity.x > 0.0 then position.x - gap else position.x + gap);
        }
        if isMovingLeft {
          isMovingRight := true;
          isMovingLeft := false;
        } else {
          isMovingLeft := true;
          isMovingRight := false;
        }
      }
    }

    /** MeleeEnemy::CollideVertical (headers/enemies.hpp:278-310), the same resolution as RangedEnemy's. */
    method CollideVertical(obstacles: seq<Obstacle>, gap: real, collides: RectTest)
      modifies this`position, this`velocity
      ensures var solids := old(Snapshot(obstacles));
        match FirstHit(solids, Collider(old(position), halfSizes), collides)
        case None => position == old(position) && velocity == old(velocity)
        case Some(i) =>
          position == old(position).(y := PushOutY(solids[i], halfSizes.y, old(velocity).y, gap))
          && velocity == old(velocity).(y := Rebound(old(velocity).y))
      ensures Motion(position, velocity) == Settle(Motion(old(position), old(velocity)), halfSizes, old(Snapshot(obstacles)), gap, collides)
    {
      var hit := ScanObstacles(obstacles, Collider(position, halfSizes), collides);
      if hit.Some? {
        var o := obstacles[hit.value];
        var oCollider := Collider(o.position, o.halfSizes);
        if o.kind == Static {
          position := position.(y := if velocity.y > 0.0 then oCollider.y - halfSizes.y - gap
                                     else oCollider.y + oCollider.height + halfSizes.y + gap);
        } else {
          position := position.(y := oCollider.y - halfSizes.y);
        }
        if velocity.y >= 0.0 {
          velocity := velocity.(y := 0.0);
        } else {
          velocity := velocity.(y := -velocity.y);
        }
      }
    }
  }
}
