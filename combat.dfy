/**
 * The combat bookkeeping of the main loop: the sword swing
 * (main.cpp:116-150), the kill-threshold escalation (main.cpp:157-175) and
 * the swing cooldown and attack animation timers (main.cpp:267-280).
 *
 * The enemies, bullets and the weapon belong to classes whose bodies are
 * not part of this model (MeleeEnemy::kill, the speedModifier field,
 * Bullet, PlayerWeapon, player->kills). Enemies and bullets are records
 * holding what these blocks read and write; the weapon is its collider.
 * raylib's CheckCollisionRecs is a parameter, called with the arguments
 * of `Entity::IsIntersecting` (headers/entity.hpp:55-57): the rectangle
 * passed in first, the object's own collider second.
 */
module Combat {
  import opened Common

  /**
   * An enemy as the attack and escalation blocks see it. `killed` records
   * that kill() was called on it.
   */
  datatype Foe = Foe(position: Vec2, halfSizes: Vec2, speedModifier: real, killed: bool)

  /** A bullet: where it is, its size and its direction of travel. */
  datatype Bullet = Bullet(position: Vec2, halfSizes: Vec2, direction: Vec2)

  /** The kill count that triggers an escalation (main.cpp:157). */
  const EscalationKills: int := 10

  /** The speed every active melee enemy gains per escalation (main.cpp:171). */
  const SpeedBump: real := 0.025

  /** SWING_COOLDOWN and ATTACK_ANIMATION_LENGTH in seconds (main.cpp:26-27). */
  const SwingCooldown: real := 0.75
  const AttackAnimationLength: real := 0.15

  /** TIMESTEP: one tick of the fixed-step loop at TARGET_FPS 60 (main.cpp:22-23). */
  const Timestep: real := 1.0 / 60.0

  // ---------------------------------------------------------------------
  // The swing
  // ---------------------------------------------------------------------

  /** `weapon->IsIntersecting(i->GetCollider())` (main.cpp:122,133). */
  predicate Struck(f: Foe, weapon: Rect, collides: RectTest)
  {
    collides(Collider(f.position, f.halfSizes), weapon)
  }

  /** `b->IsIntersecting(weapon->GetCollider())` (main.cpp:146). */
  predicate Grazes(b: Bullet, weapon: Rect, collides: RectTest)
  {
    collides(weapon, Collider(b.position, b.halfSizes))
  }

  /** How many of the enemies the swing reaches. */
  function HitCount(foes: seq<Foe>, weapon: Rect, collides: RectTest): (n: nat)
    ensures n <= |foes|
    decreases |foes|
  {
    if |foes| == 0 then 0
    else HitCount(foes[..|foes| - 1], weapon, collides) + if Struck(foes[|foes| - 1], weapon, collides) then 1 else 0
  }

  /** The swing counts nothing exactly when it reaches no enemy. */
  lemma {:induction false} HitCountZero(foes: seq<Foe>, weapon: Rect, collides: RectTest)
    ensures HitCount(foes, weapon, collides) == 0 <==> forall k :: 0 <= k < |foes| ==> !Struck(foes[k], weapon, collides)
    decreases |foes|
  {
    if |foes| > 0 {
      var front := foes[..|foes| - 1];
      HitCountZero(front, weapon, collides);
      assert forall k :: 0 <= k < |front| ==> front[k] == foes[k];
    }
  }

  /** The enemies after the swing: exactly those it reaches are killed, in place. */
  function KillStruck(foes: seq<Foe>, weapon: Rect, collides: RectTest): (r: seq<Foe>)
    ensures |r| == |foes|
    decreases |foes|
  {
    if |foes| == 0 then []
    else
      var last := foes[|foes| - 1];
      KillStruck(foes[..|foes| - 1], weapon, collides) + [if Struck(last, weapon, collides) then last.(killed := true) else last]
  }

  /** Exactly the enemies the swing reaches are killed; every other enemy, and everything else about them, stays. */
  lemma {:induction false} KillStruckAt(foes: seq<Foe>, weapon: Rect, collides: RectTest, k: nat)
    requires k < |foes|
    ensures KillStruck(foes, weapon, collides)[k]
      == if Struck(foes[k], weapon, collides) then foes[k].(killed := true) else foes[k]
    decreases |foes|
  {
    if k < |foes| - 1 {
      KillStruckAt(foes[..|foes| - 1], weapon, collides, k);
    }
  }

  /** The bullets after the swing: exactly those touching the weapon have their direction negated. */
  function Deflected(bullets: seq<Bullet>, weapon: Rect, collides: RectTest): (r: seq<Bullet>)
    ensures |r| == |bullets|
  {
    if |bullets| == 0 then []
    else
      var last := bullets[|bullets| - 1];
      Deflected(bullets[..|bullets| - 1], weapon, collides) + [if Grazes(last, weapon, collides) then Deflect(last) else last]
  }

  /** Exactly the bullets touching the weapon are turned back; the others stay as they were. */
  lemma {:induction false} DeflectedAt(bullets: seq<Bullet>, weapon: Rect, collides: RectTest, k: nat)
    requires k < |bullets|
    ensures Deflected(bullets, weapon, collides)[k]
      == if Grazes(bullets[k], weapon, collides) then Deflect(bullets[k]) else bullets[k]
    decreases |bullets|
  {
    if k < |bullets| - 1 {
      DeflectedAt(bullets[..|bullets| - 1], weapon, collides, k);
    }
  }

  /** `b->direction = {-b->direction.x, -b->direction.y}` (main.cpp:147). */
  function Deflect(b: Bullet): (r: Bullet)
    ensures r.position == b.position && r.halfSizes == b.halfSizes
  {
    b.(direction := Vec2(-b.direction.x, -b.direction.y))
  }

  /** Deflection turns a bullet straight back: doing it twice restores the bullet. */
  lemma DeflectTwice(b: Bullet)
    ensures Deflect(Deflect(b)) == b
  {
  }

  /**
   * A second swing at the same place sends every bullet back the way it
   * came: deflection does not move a bullet, so the same bullets are hit
   * again and turned back.
   */
  lemma {:induction false} DeflectedTwice(bullets: seq<Bullet>, weapon: Rect, collides: RectTest)
    ensures Deflected(Deflected(bullets, weapon, collides), weapon, collides) == bullets
  {
    var once := Deflected(bullets, weapon, collides);
    var twice := Deflected(once, weapon, collides);
    forall k | 0 <= k < |bullets|
      ensures twice[k] == bullets[k]
    {
      DeflectedAt(bullets, weapon, collides, k);
      DeflectedAt(once, weapon, collides, k);
      if Grazes(bullets[k], weapon, collides) {
        DeflectTwice(bullets[k]);
      }
    }
  }

  /** A swing that reaches every enemy kills all of them and counts each one. */
  lemma {:induction false} HitCountAll(foes: seq<Foe>, weapon: Rect, collides: RectTest)
    requires forall k :: 0 <= k < |foes| ==> Struck(foes[k], weapon, collides)
    ensures HitCount(foes, weapon, collides) == |foes|
    decreases |foes|
  {
    if |foes| > 0 {
      HitCountAll(foes[..|foes| - 1], weapon, collides);
    }
  }

  /**
   * The loop over one enemy list (main.cpp:120-130 and 132-140): kill
   * every enemy the weapon reaches and count them.
   */
  method StrikeAll(foes: seq<Foe>, weapon: Rect, collides: RectTest) returns (struck: seq<Foe>, hits: nat)
    ensures struck == KillStruck(foes, weapon, collides)
    ensures hits == HitCount(foes, weapon, collides)
  {
    struck, hits := [], 0;
    var i := 0;
    while i < |foes|
      invariant 0 <= i <= |foes|
      invariant struck == KillStruck(foes[..i], weapon, collides)
      invariant hits == HitCount(foes[..i], weapon, collides)
    {
      assert foes[..i + 1][..i] == foes[..i];
      var foe := foes[i];
      if Struck(foe, weapon, collides) {
        foe := foe.(killed := true);
        hits := hits + 1;
      }
      struck := struck + [foe];
      i := i + 1;
    }
    assert foes[..i] == foes;
  }

  /** The bullet loop of the swing (main.cpp:145-149). */
  method DeflectAll(bullets: seq<Bullet>, weapon: Rect, collides: RectTest) returns (r: seq<Bullet>)
    ensures r == Deflected(bullets, weapon, collides)
  {
    r := [];
    var i := 0;
    while i < |bullets|
      invariant 0 <= i <= |bullets|
      invariant r == Deflected(bullets[..i], weapon, collides)
    {
      assert bullets[..i + 1][..i] == bullets[..i];
      var b := bullets[i];
      if Grazes(b, weapon, collides) {
        b := Deflect(b);
      }
      r := r + [b];
      i := i + 1;
    }
    assert bullets[..i] == bullets;
  }

  // ---------------------------------------------------------------------
  // The escalation
  // ---------------------------------------------------------------------

  /**
   * The melee rosters after one promotion (main.cpp:163-168): the front of
   * the inactive list moves to the back of the active list, if there is one.
   */
  function Promote(active: seq<Foe>, inactive: seq<Foe>): (r: (seq<Foe>, seq<Foe>))
    ensures |inactive| > 0 ==> r.0 == active + [inactive[0]] && r.1 == inactive[1..]
    ensures |inactive| == 0 ==> r == (active, inactive)
  {
    if |inactive| > 0 then (active + [inactive[0]], inactive[1..]) else (active, inactive)
  }

  /**
   * Promotion neither creates nor loses an enemy, and keeps their order:
   * the active list followed by the inactive one is the same roster.
   */
  lemma PromoteKeepsRoster(active: seq<Foe>, inactive: seq<Foe>)
    ensures Promote(active, inactive).0 + Promote(active, inactive).1 == active + inactive
    ensures |Promote(active, inactive).0| + |Promote(active, inactive).1| == |active| + |inactive|
  {
    if |inactive| > 0 {
      assert [inactive[0]] + inactive[1..] == inactive;
      assert active + [inactive[0]] + inactive[1..] == active + ([inactive[0]] + inactive[1..]);
    }
  }

  /** Every enemy of the list gains SpeedBump, and nothing else about it changes. */
  function Hasten(foes: seq<Foe>): (r: seq<Foe>)
    ensures |r| == |foes|
    ensures forall k :: 0 <= k < |foes| ==> r[k] == foes[k].(speedModifier := foes[k].speedModifier + SpeedBump)
  {
    if |foes| == 0 then []
    else
      var last := foes[|foes| - 1];
      Hasten(foes[..|foes| - 1]) + [last.(speedModifier := last.speedModifier + SpeedBump)]
  }

  /** The speed loop of the escalation (main.cpp:169-172). */
  method HastenAll(foes: seq<Foe>) returns (r: seq<Foe>)
    ensures r == Hasten(foes)
  {
    r := [];
    var i := 0;
    while i < |foes|
      invariant 0 <= i <= |foes|
      invariant r == Hasten(foes[..i])
    {
      assert foes[..i + 1][..i] == foes[..i];
      r := r + [foes[i].(speedModifier := foes[i].speedModifier + SpeedBump)];
      i := i + 1;
    }
    assert foes[..i] == foes;
  }

  /**
   * The threshold counter over one frame: the swing adds its hits, then the
   * escalation check resets it to 0 if it is exactly EscalationKills.
   */
  function ThresholdStep(threshold: int, hits: nat): (r: int)
    ensures r == 0 <==> threshold + hits == EscalationKills || threshold + hits == 0
  {
    if threshold + hits == EscalationKills then 0 else threshold + hits
  }

  /** The counter after a run of frames, one entry of `swings` per frame (its hit count). */
  function ThresholdAfter(threshold: int, swings: seq<nat>): int
    decreases |swings|
  {
    if |swings| == 0 then threshold
    else ThresholdAfter(ThresholdStep(threshold, swings[0]), swings[1..])
  }

  /** How many escalations fire during that run. */
  function Escalations(threshold: int, swings: seq<nat>): nat
    decreases |swings|
  {
    if |swings| == 0 then 0
    else
      (if threshold + swings[0] == EscalationKills then 1 else 0)
        + Escalations(ThresholdStep(threshold, swings[0]), swings[1..])
  }

  function Sum(swings: seq<nat>): nat
    decreases |swings|
  {
    if |swings| == 0 then 0 else swings[0] + Sum(swings[1..])
  }

  /**
   * Once the counter has passed EscalationKills it never fires again: it
   * only grows, and only an escalation resets it.
   */
  lemma {:induction false} PastThresholdNeverEscalates(threshold: int, swings: seq<nat>)
    requires threshold > EscalationKills
    ensures Escalations(threshold, swings) == 0
    ensures ThresholdAfter(threshold, swings) == threshold + Sum(swings)
    decreases |swings|
  {
    if |swings| > 0 {
      PastThresholdNeverEscalates(threshold + swings[0], swings[1..]);
    }
  }

  /**
   * One swing that takes the counter from 9 to 11 (two enemies at once)
   * switches escalation off for the rest of the game.
   */
  lemma DoubleKillAtNineSkipsEscalation(swings: seq<nat>)
    ensures ThresholdStep(9, 2) == 11
    ensures Escalations(9, [2] + swings) == 0
  {
    assert ([2] + swings)[1..] == swings;
    PastThresholdNeverEscalates(11, swings);
  }

  /**
   * When no swing kills more than one enemy, escalation behaves as meant:
   * it fires once per EscalationKills kills and the counter holds the
   * remainder.
   */
  lemma {:induction false} SingleKillsEscalateEveryTen(threshold: int, swings: seq<nat>)
    requires 0 <= threshold < EscalationKills
    requires forall k :: 0 <= k < |swings| ==> swings[k] <= 1
    ensures Escalations(threshold, swings) == (threshold + Sum(swings)) / EscalationKills
    ensures ThresholdAfter(threshold, swings) == (threshold + Sum(swings)) % EscalationKills
    decreases |swings|
  {
    if |swings| > 0 {
      var next := ThresholdStep(threshold, swings[0]);
      assert forall k :: 0 <= k < |swings[1..]| ==> swings[1..][k] == swings[k + 1];
      SingleKillsEscalateEveryTen(next, swings[1..]);
      if threshold + swings[0] == EscalationKills {
        assert next + Sum(swings[1..]) + EscalationKills == threshold + Sum(swings);
      }
    }
  }

  // ---------------------------------------------------------------------
  // The timers
  // ---------------------------------------------------------------------

  /** The swing cooldown state: canSwing and swingCooldownTimeLeft. */
  datatype SwingClock = SwingClock(canSwing: bool, left: real)

  /** One tick of main.cpp:267-272. */
  function CooldownTick(c: SwingClock): SwingClock
  {
    if c.left <= 0.0 && !c.canSwing then c.(canSwing := true) else c.(left := c.left - Timestep)
  }

  function CooldownAfter(c: SwingClock, ticks: nat): SwingClock
    decreases ticks
  {
    if ticks == 0 then c else CooldownTick(CooldownAfter(c, ticks - 1))
  }

  /** The clock right after a swing (main.cpp:142-143). */
  const SwungClock: SwingClock := SwingClock(false, SwingCooldown)

  lemma {:induction false} CooldownRunsDown(ticks: nat)
    requires ticks <= 45
    ensures CooldownAfter(SwungClock, ticks) == SwingClock(false, SwingCooldown - ticks as real * Timestep)
  {
    if ticks > 0 {
      CooldownRunsDown(ticks - 1);
    }
  }

  lemma {:induction false} ArmedStaysArmed(c: SwingClock, ticks: nat)
    requires c.canSwing
    ensures CooldownAfter(c, ticks).canSwing
  {
    if ticks > 0 {
      ArmedStaysArmed(c, ticks - 1);
    }
  }

  /**
   * In exact arithmetic, after a swing the sword can be swung again from
   * the 46th tick on: 45 ticks of 1/60 s run the 0.75 s cooldown down to
   * zero and the next one re-arms.
   */
  lemma RearmTakesFortySixTicks(ticks: nat)
    ensures CooldownAfter(SwungClock, ticks).canSwing <==> ticks >= 46
  {
    if ticks <= 45 {
      CooldownRunsDown(ticks);
    } else {
      CooldownRunsDown(45);
      var armed := CooldownAfter(SwungClock, 46);
      assert armed.canSwing;
      ArmedStaysArmed(armed, ticks - 46);
      CooldownShift(SwungClock, 46, ticks - 46);
    }
  }

  lemma {:induction false} CooldownShift(c: SwingClock, a: nat, b: nat)
    ensures CooldownAfter(CooldownAfter(c, a), b) == CooldownAfter(c, a + b)
    decreases b
  {
    if b > 0 {
      CooldownShift(c, a, b - 1);
    }
  }

  /** The attack animation state: inAttackAnimation and attackAnimTimeLeft. */
  datatype AnimationClock = AnimationClock(active: bool, left: real)

  /** One tick of main.cpp:274-280. */
  function AnimationTick(c: AnimationClock): AnimationClock
  {
    if !c.active then c
    else if c.left - Timestep <= 0.0 then AnimationClock(false, AttackAnimationLength)
    else c.(left := c.left - Timestep)
  }

  function AnimationAfter(c: AnimationClock, ticks: nat): AnimationClock
    decreases ticks
  {
    if ticks == 0 then c else AnimationTick(AnimationAfter(c, ticks - 1))
  }

  lemma {:induction false} AnimationRunsDown(ticks: nat)
    requires ticks <= 8
    ensures AnimationAfter(AnimationClock(true, AttackAnimationLength), ticks)
      == AnimationClock(true, AttackAnimationLength - ticks as real * Timestep)
  {
    if ticks > 0 {
      AnimationRunsDown(ticks - 1);
    }
  }

  lemma {:induction false} IdleAnimationStays(ticks: nat)
    ensures AnimationAfter(AnimationClock(false, AttackAnimationLength), ticks) == AnimationClock(false, AttackAnimationLength)
  {
    if ticks > 0 {
      IdleAnimationStays(ticks - 1);
    }
  }

  lemma {:induction false} AnimationShift(c: AnimationClock, a: nat, b: nat)
    ensures AnimationAfter(AnimationAfter(c, a), b) == AnimationAfter(c, a + b)
    decreases b
  {
    if b > 0 {
      AnimationShift(c, a, b - 1);
    }
  }

  /**
   * In exact arithmetic, a swing's animation shows for nine ticks of
   * 1/60 s (0.15 s) and then stops, with its timer reset for the next
   * swing.
   */
  lemma AnimationLastsNineTicks(ticks: nat)
    ensures AnimationAfter(AnimationClock(true, AttackAnimationLength), ticks).active <==> ticks < 9
    ensures ticks >= 9 ==> AnimationAfter(AnimationClock(true, AttackAnimationLength), ticks).left == AttackAnimationLength
  {
    if ticks <= 8 {
      AnimationRunsDown(ticks);
    } else {
      AnimationRunsDown(8);
      IdleAnimationStays(ticks - 9);
      AnimationShift(AnimationClock(true, AttackAnimationLength), 9, ticks - 9);
    }
  }

  // ---------------------------------------------------------------------
  // The session state of main()
  // ---------------------------------------------------------------------

  /** The locals of main() and the fields of player and level that these blocks touch. */
  class Session {
    var kills: int
    var killsThreshold: int
    var canSwing: bool
    var swingCooldownTimeLeft: real
    var inAttackAnimation: bool
    var attackAnimTimeLeft: real
    var activeMelee: seq<Foe>
    var inactiveMelee: seq<Foe>
    var ranged: seq<Foe>
    var bullets: seq<Bullet>
    /** The speedModifier a newly constructed enemy has. */
    const spawnSpeed: real

    /** Nine melee enemies in all, split between the two lists. */
    predicate Roster()
      reads this
    {
      |activeMelee| + |inactiveMelee| == 9
    }

    /** A ranged enemy of the kind escalation adds (main.cpp:62-63,160-161). */
    function Spawned(x: real, y: real): Foe
    {
      Foe(Vec2(x, y), Vec2(20.0, 20.0), spawnSpeed, false)
    }

    /**
     * The set-up of main() (main.cpp:43-74): three active and six
     * inactive melee enemies, two ranged ones, no bullets, and a sword that
     * cannot be swung until the cooldown clock first re-arms it.
     */
    constructor (spawnSpeed: real)
      ensures this.spawnSpeed == spawnSpeed
      ensures kills == 0 && killsThreshold == 0
      ensures !canSwing && swingCooldownTimeLeft == 0.0
      ensures !inAttackAnimation && attackAnimTimeLeft == AttackAnimationLength
      ensures |activeMelee| == 3 && |inactiveMelee| == 6 && Roster()
      ensures forall k :: 0 <= k < |activeMelee| ==> activeMelee[k].speedModifier == spawnSpeed && !activeMelee[k].killed
      ensures forall k :: 0 <= k < |inactiveMelee| ==> inactiveMelee[k].speedModifier == spawnSpeed && !inactiveMelee[k].killed
      ensures ranged == [Spawned(300.0, 400.0), Spawned(900.0, 400.0)]
      ensures bullets == []
    {
      this.spawnSpeed := spawnSpeed;
      kills, killsThreshold := 0, 0;
      canSwing, swingCooldownTimeLeft := false, 0.0;
      inAttackAnimation, attackAnimTimeLeft := false, AttackAnimationLength;
      var size := Vec2(20.0, 20.0);
      activeMelee := [Foe(Vec2(500.0, 200.0), size, spawnSpeed, false),
                      Foe(Vec2(500.0, 400.0), size, spawnSpeed, false),
                      Foe(Vec2(200.0, 500.0), size, spawnSpeed, false)];
      inactiveMelee := [Foe(Vec2(600.0, 420.0), size, spawnSpeed, false),
                        Foe(Vec2(400.0, 120.0), size, spawnSpeed, false),
                        Foe(Vec2(300.0, 120.0), size, spawnSpeed, false),
                        Foe(Vec2(800.0, 280.0), size, spawnSpeed, false),
                        Foe(Vec2(200.0, 1000.0), size, spawnSpeed, false),
                        Foe(Vec2(800.0, 120.0), size, spawnSpeed, false)];
      ranged := [Foe(Vec2(300.0, 400.0), size, spawnSpeed, false), Foe(Vec2(900.0, 400.0), size, spawnSpeed, false)];
      bullets := [];
    }

    /**
     * The attack block (main.cpp:116-150). Nothing happens unless the key
     * is pressed and the sword is armed; a swing kills and counts every
     * enemy the weapon reaches, adds the count to both kill counters,
     * disarms the sword, starts the cooldown and the animation, and turns
     * back every bullet touching the weapon.
     */
    method Attack(pressed: bool, weapon: Rect, collides: RectTest) returns (hits: nat)
      modifies this`activeMelee, this`ranged, this`bullets, this`kills, this`killsThreshold,
        this`canSwing, this`swingCooldownTimeLeft, this`inAttackAnimation
      ensures !(pressed && old(canSwing)) ==> hits == 0 && unchanged(this)
      ensures pressed && old(canSwing) ==>
        && hits == HitCount(old(activeMelee), weapon, collides) + HitCount(old(ranged), weapon, collides)
        && kills == old(kills) + hits && killsThreshold == old(killsThreshold) + hits
        && activeMelee == KillStruck(old(activeMelee), weapon, collides)
        && ranged == KillStruck(old(ranged), weapon, collides)
        && bullets == Deflected(old(bullets), weapon, collides)
        && !canSwing && swingCooldownTimeLeft == SwingCooldown && inAttackAnimation
    {
      if pressed && canSwing {
        hits := Swing(weapon, collides);
      } else {
        hits := 0;
      }
    }

    /** The body of the attack block, once the key is pressed with the sword armed. */
    method Swing(weapon: Rect, collides: RectTest) returns (hits: nat)
      modifies this`activeMelee, this`ranged, this`bullets, this`kills, this`killsThreshold,
        this`canSwing, this`swingCooldownTimeLeft, this`inAttackAnimation
      ensures hits == HitCount(old(activeMelee), weapon, collides) + HitCount(old(ranged), weapon, collides)
      ensures kills == old(kills) + hits && killsThreshold == old(killsThreshold) + hits
      ensures activeMelee == KillStruck(old(activeMelee), weapon, collides)
      ensures ranged == KillStruck(old(ranged), weapon, collides)
      ensures bullets == Deflected(old(bullets), weapon, collides)
      ensures !canSwing && swingCooldownTimeLeft == SwingCooldown && inAttackAnimation
    {
      inAttackAnimation := true;
      hits := StrikeEnemies(weapon, collides);
      canSwing, swingCooldownTimeLeft := false, SwingCooldown;
      bullets := DeflectAll(bullets, weapon, collides);
    }

    /** The two enemy loops of the swing (main.cpp:120-140): kills and the threshold grow together. */
    method StrikeEnemies(weapon: Rect, collides: RectTest) returns (hits: nat)
      modifies this`activeMelee, this`ranged, this`kills, this`killsThreshold
      ensures hits == HitCount(old(activeMelee), weapon, collides) + HitCount(old(ranged), weapon, collides)
      ensures kills == old(kills) + hits && killsThreshold == old(killsThreshold) + hits
      ensures activeMelee == KillStruck(old(activeMelee), weapon, collides)
      ensures ranged == KillStruck(old(ranged), weapon, collides)
    {
      var meleeHits, rangedHits;
      activeMelee, meleeHits := StrikeAll(activeMelee, weapon, collides);
      ranged, rangedHits := StrikeAll(ranged, weapon, collides);
      hits := meleeHits + rangedHits;
      kills, killsThreshold := kills + hits, killsThreshold + hits;
    }

    /**
     * The escalation block (main.cpp:157-175). Only a counter of exactly
     * EscalationKills fires it; it adds two ranged enemies, promotes the
     * front inactive melee enemy, speeds up every active melee enemy
     * (the promoted one included) and resets the counter.
     */
    method CheckEscalation()
      modifies this`ranged, this`activeMelee, this`inactiveMelee, this`killsThreshold
      ensures old(killsThreshold) != EscalationKills ==> unchanged(this)
      ensures old(killsThreshold) == EscalationKills ==>
        && ranged == old(ranged) + [Spawned(300.0, 400.0), Spawned(900.0, 400.0)]
        && activeMelee == Hasten(Promote(old(activeMelee), old(inactiveMelee)).0)
        && inactiveMelee == Promote(old(activeMelee), old(inactiveMelee)).1
        && killsThreshold == 0
      ensures old(Roster()) ==> Roster()
    {
      if killsThreshold == EscalationKills {
        ranged := ranged + [Spawned(300.0, 400.0), Spawned(900.0, 400.0)];
        PromoteKeepsRoster(activeMelee, inactiveMelee);
        activeMelee, inactiveMelee := Promote(activeMelee, inactiveMelee).0, Promote(activeMelee, inactiveMelee).1;
        activeMelee := HastenAll(activeMelee);
        killsThreshold := 0;
      }
    }

    /**
     * The attack block and the escalation check of one frame, with the
     * enemy movement between them (main.cpp:151-155) left out: the
     * struck enemies die and the struck bullets turn, the sword is spent,
     * and when the counter reaches EscalationKills two ranged enemies
     * spawn and one more melee enemy joins; the counter follows
     * ThresholdStep.
     */
    method Fight(pressed: bool, weapon: Rect, collides: RectTest) returns (hits: nat)
      modifies this`activeMelee, this`inactiveMelee, this`ranged, this`bullets, this`kills, this`killsThreshold,
        this`canSwing, this`swingCooldownTimeLeft, this`inAttackAnimation
      ensures killsThreshold == ThresholdStep(old(killsThreshold), hits)
      ensures kills == old(kills) + hits
      ensures old(Roster()) ==> Roster()
      ensures var struck := pressed && old(canSwing);
        var melee := if struck then KillStruck(old(activeMelee), weapon, collides) else old(activeMelee);
        var shooters := if struck then KillStruck(old(ranged), weapon, collides) else old(ranged);
        var escalates := old(killsThreshold) + hits == EscalationKills;
        && hits == (if struck then HitCount(old(activeMelee), weapon, collides) + HitCount(old(ranged), weapon, collides) else 0)
        && bullets == (if struck then Deflected(old(bullets), weapon, collides) else old(bullets))
        && canSwing == (old(canSwing) && !pressed)
        && swingCooldownTimeLeft == (if struck then SwingCooldown else old(swingCooldownTimeLeft))
        && inAttackAnimation == (struck || old(inAttackAnimation))
        && ranged == (if escalates then shooters + [Spawned(300.0, 400.0), Spawned(900.0, 400.0)] else shooters)
        && activeMelee == (if escalates then Hasten(Promote(melee, old(inactiveMelee)).0) else melee)
        && inactiveMelee == (if escalates then Promote(melee, old(inactiveMelee)).1 else old(inactiveMelee))
    {
      hits := Attack(pressed, weapon, collides);
      CheckEscalation();
    }

    /** The timer part of one fixed-step tick (main.cpp:267-280). */
    method Tick()
      modifies this`canSwing, this`swingCooldownTimeLeft, this`inAttackAnimation, this`attackAnimTimeLeft
      ensures SwingClock(canSwing, swingCooldownTimeLeft) == CooldownTick(SwingClock(old(canSwing), old(swingCooldownTimeLeft)))
      ensures AnimationClock(inAttackAnimation, attackAnimTimeLeft)
        == AnimationTick(AnimationClock(old(inAttackAnimation), old(attackAnimTimeLeft)))
    {
      if swingCooldownTimeLeft <= 0.0 && !canSwing {
        canSwing := true;
      } else {
        swingCooldownTimeLeft := swingCooldownTimeLeft - Timestep;
      }
      if inAttackAnimation {
        attackAnimTimeLeft := attackAnimTimeLeft - Timestep;
        if attackAnimTimeLeft <= 0.0 {
          inAttackAnimation := false;
          attackAnimTimeLeft := AttackAnimationLength;
        }
      }
    }
  }
}
