/** The enemies and pickups in the arena: one entity's turn in `enemiesTick`,
    `pickupsTick` and `applyPlayerMeleeAttack`, and what a whole tick does to
    a pool, stated on the pool as it was before the tick. */
module Entities {
  import opened Host
  import opened Spawning
  import opened Sequences

  /** An enemy. `spawnEnemy` sets neither `hitTick` nor `boss`; the unset
      `hitTick` compares like 0 and the unset `boss` reads as false. */
  datatype Enemy = Enemy(
    x: real,
    y: real,
    kind: EnemyKind,
    health: real,
    hitTick: real,
    damageTick: real,
    boss: bool,
    pushBackX: real,
    pushBackY: real)

  /** `PICKUP_TYPES`, with the amount the pickup carries. */
  datatype Loot = HealthLoot(health: real) | ExperienceLoot(experience: real)

  datatype Pickup = Pickup(x: real, y: real, loot: Loot)

  /** What the pools see during one tick: the player's position, `deltaTime`
      and the host's math. */
  datatype Frame = Frame(px: real, py: real, dt: real, math: HostMath)

  /** `width * 3`: enemies farther from the player than this are dropped. */
  const DespawnDistance: real := 1200.0
  /** Contact range, both for enemy attacks and for collecting pickups. */
  const ContactDistance: real := 10.0
  /** `Math.max(width, height) / 2`: the radius of the spawn ring. */
  const SpawnRadius: real := 200.0

  /** `Math.sqrt(dx * dx + dy * dy)`. */
  function Distance(math: HostMath, dx: real, dy: real): real {
    math.hypot(dx, dy)
  }

  /** `spawnEnemy(type)`, where `Math.random()` returns `r1` for the angle and
      then `r2` for the extra distance. */
  function SpawnedEnemy(kind: EnemyKind, px: real, py: real, r1: real, r2: real, math: HostMath): Enemy {
    var angle := r1 * Pi * 2.0;
    var distance := SpawnRadius + r2 * 100.0;
    Enemy(px + math.cos(angle) * distance, py + math.sin(angle) * distance,
      kind, EnemyTypes[kind].health, 0.0, 0.0, false, 0.0, 0.0)
  }

  /** One knockback component after a tick. */
  function Decay(v: real, dt: real): real {
    if Abs(v) > 0.1 then v + (if v > 0.0 then -1.0 else 1.0) * dt * 20.0 else 0.0
  }

  /** Knockback at or below 0.1 snaps to 0; above, it moves `20 * dt` toward 0,
      keeping its sign while that step does not exceed it. */
  lemma DecayTowardZero(v: real, dt: real)
    requires dt > 0.0
    ensures Abs(v) <= 0.1 ==> Decay(v, dt) == 0.0
    ensures Abs(v) > 0.1 ==> Abs(Decay(v, dt) - v) == 20.0 * dt
    ensures Abs(v) > 0.1 && 20.0 * dt <= Abs(v) ==> Abs(Decay(v, dt)) < Abs(v) && Decay(v, dt) * v >= 0.0
  {
  }

  /** A step larger than the knockback overshoots: at `deltaTime` 0.016 a
      knockback of 0.2 becomes -0.12 and then 0.2 again, so it never snaps. */
  lemma DecayCanOscillate()
    ensures Decay(0.2, 0.016) == -0.12 && Decay(-0.12, 0.016) == 0.2
  {
  }

  /** The enemy leaves the pool this tick: it is out of health, or it is not
      a boss and is farther than `DespawnDistance` from the player. */
  predicate Leaves(e: Enemy, f: Frame) {
    e.health <= 0.0 || (!e.boss && Distance(f.math, f.px - e.x, f.py - e.y) > DespawnDistance)
  }

  /** The enemy stays, its damage cooldown has run out, and it is within
      contact range of the player. */
  predicate StrikesPlayer(e: Enemy, f: Frame) {
    !Leaves(e, f) && e.damageTick <= 0.0 && Distance(f.math, f.px - e.x, f.py - e.y) < ContactDistance
  }

  datatype EnemyFate =
    | Killed  // health at or below 0: removed, dropping experience
    | Despawned  // too far from the player: removed
    | Stays(enemy: Enemy, struck: bool)  // moved; `struck` when it damaged the player

  /** One enemy's turn in `enemiesTick`. The chase direction divides by the
      distance, which is skipped when the distance is 0. */
  function EnemyStep(e: Enemy, f: Frame): (r: EnemyFate)
    ensures r.Killed? <==> e.health <= 0.0
    ensures r.Despawned? <==> e.health > 0.0 && !e.boss && Distance(f.math, f.px - e.x, f.py - e.y) > DespawnDistance
    ensures r.Stays? ==> r.enemy.health == e.health && r.enemy.kind == e.kind && r.enemy.boss == e.boss
    ensures r.Stays? ==> (r.struck <==> e.damageTick <= 0.0 && Distance(f.math, f.px - e.x, f.py - e.y) < ContactDistance)
    ensures r.Stays? <==> !Leaves(e, f)
    ensures (r.Stays? && r.struck) <==> StrikesPlayer(e, f)
  {
    if e.health <= 0.0 then Killed
    else
      var t := EnemyTypes[e.kind];
      var hitTick := if e.hitTick > 0.0 then e.hitTick - f.dt else e.hitTick;
      var dx := f.px - e.x;
      var dy := f.py - e.y;
      var distance := Distance(f.math, dx, dy);
      if !e.boss && distance > DespawnDistance then Despawned
      else
        var ready := e.damageTick <= 0.0;
        var struck := ready && distance < ContactDistance;
        var speed := t.speed * f.dt;
        var chase := ready && distance != 0.0;
        var vx := e.pushBackX * f.dt + (if chase then dx / distance * speed else 0.0);
        var vy := e.pushBackY * f.dt + (if chase then dy / distance * speed else 0.0);
        var damageTick := if !ready then e.damageTick - f.dt else if struck then t.damageTick else e.damageTick;
        Stays(
          e.(x := e.x + vx, y := e.y + vy, hitTick := hitTick, damageTick := damageTick,
             pushBackX := Decay(e.pushBackX, f.dt), pushBackY := Decay(e.pushBackY, f.dt)),
          struck)
  }

  /** Contact damage has a cooldown: an enemy that strikes restarts its
      `damageTick` from its type's, and so cannot strike on the next tick. */
  lemma ContactCooldown(e: Enemy, f1: Frame, f2: Frame)
    requires EnemyStep(e, f1).Stays? && EnemyStep(e, f1).struck
    ensures EnemyStep(e, f1).enemy.damageTick == EnemyTypes[e.kind].damageTick > 0.0
    ensures EnemyStep(EnemyStep(e, f1).enemy, f2).Stays? ==> !EnemyStep(EnemyStep(e, f1).enemy, f2).struck
  {
    ScheduleShape();
    assert EnemyTypes[e.kind].damageTick == 1.0;
  }

  /** `spawnEnemy` never sets `boss`, so even the boss type is dropped once it
      is too far from the player. */
  lemma SpawnedBossDespawns(px: real, py: real, r1: real, r2: real, math: HostMath, f: Frame)
    requires var e := SpawnedEnemy(2, px, py, r1, r2, math);
      Distance(f.math, f.px - e.x, f.py - e.y) > DespawnDistance
    ensures EnemyTypes[2].boss
    ensures EnemyStep(SpawnedEnemy(2, px, py, r1, r2, math), f) == Despawned
  {
  }

  /** The enemy as the tick leaves it in the array (an enemy that is removed
      stays as it was until the removal). */
  function Advance(e: Enemy, f: Frame): Enemy {
    match EnemyStep(e, f)
    case Stays(moved, _) => moved
    case _ => e
  }

  function Ticked(es: seq<Enemy>, f: Frame): seq<Enemy> {
    seq(|es|, i requires 0 <= i < |es| => Advance(es[i], f))
  }

  /** A pool whose every enemy has taken its turn is the ticked pool. */
  lemma AllAdvanced(es: seq<Enemy>, now: seq<Enemy>, f: Frame)
    requires |now| == |es| && forall j :: 0 <= j < |es| ==> now[j] == Advance(es[j], f)
    ensures now == Ticked(es, f)
  {
  }

  /** The enemies the tick puts in `enemiesToRemove`. */
  function Gone(f: Frame): Enemy -> bool {
    e => Leaves(e, f)
  }

  /** The enemies that damage the player this tick. */
  function Strikes(f: Frame): Enemy -> bool {
    e => StrikesPlayer(e, f)
  }

  predicate OutOfHealth(e: Enemy) {
    e.health <= 0.0
  }

  /** The experience pickup a dead enemy leaves where it stood. */
  function ExperienceDrop(e: Enemy): Pickup {
    Pickup(e.x, e.y, ExperienceLoot(EnemyTypes[e.kind].experience))
  }

  /** The pickups `enemiesTick` appends, in pool order. */
  function Drops(es: seq<Enemy>): seq<Pickup> {
    if |es| == 0 then []
    else
      var e := es[|es| - 1];
      Drops(es[..|es| - 1]) + (if OutOfHealth(e) then [ExperienceDrop(e)] else [])
  }

  /** What contact costs the player: each striking enemy subtracts its type's
      `health` (not its `damage`). */
  function ContactDamage(es: seq<Enemy>, f: Frame): real {
    if |es| == 0 then 0.0
    else
      var e := es[|es| - 1];
      ContactDamage(es[..|es| - 1], f) + (if Strikes(f)(e) then EnemyTypes[e.kind].health else 0.0)
  }

  /** The pool after `enemiesTick`. */
  function Survivors(es: seq<Enemy>, f: Frame): seq<Enemy> {
    Without(Ticked(es, f), Where(es, Gone(f)))
  }

  /** One more enemy's turn extends each tally of `enemiesTick` by that enemy
      alone. */
  lemma EnemyTallyStep(es: seq<Enemy>, i: nat, f: Frame)
    requires i < |es|
    ensures Where(es[..i + 1], Gone(f)) == Where(es[..i], Gone(f)) + (if Gone(f)(es[i]) then [i] else [])
    ensures Where(es[..i + 1], Strikes(f)) == Where(es[..i], Strikes(f)) + (if Strikes(f)(es[i]) then [i] else [])
    ensures Drops(es[..i + 1]) == Drops(es[..i]) + (if OutOfHealth(es[i]) then [ExperienceDrop(es[i])] else [])
    ensures ContactDamage(es[..i + 1], f)
      == ContactDamage(es[..i], f) + (if Strikes(f)(es[i]) then EnemyTypes[es[i].kind].health else 0.0)
  {
    assert es[..i + 1][..i] == es[..i];
  }

  /** Every enemy that dies leaves exactly one experience pickup at its
      position, in pool order. */
  lemma {:induction false} DropsPerDead(es: seq<Enemy>)
    ensures |Drops(es)| == |Where(es, OutOfHealth)|
    ensures forall k :: 0 <= k < |Drops(es)| ==> Drops(es)[k] == ExperienceDrop(es[Where(es, OutOfHealth)[k]])
    decreases |es|
  {
    if |es| != 0 {
      var n := |es| - 1;
      var front := es[..n];
      DropsPerDead(front);
      var d, w := Drops(es), Where(es, OutOfHealth);
      assert d == Drops(front) + (if OutOfHealth(es[n]) then [ExperienceDrop(es[n])] else []);
      assert w == Where(front, OutOfHealth) + (if OutOfHealth(es[n]) then [n] else []);
      forall k | 0 <= k < |d| ensures d[k] == ExperienceDrop(es[w[k]]) {
        if k < |Drops(front)| {
          assert d[k] == ExperienceDrop(front[Where(front, OutOfHealth)[k]]);
        }
      }
    }
  }

  /** After `enemiesTick` the pool holds exactly the enemies that neither died
      nor wandered off, each advanced by its turn, in their original order
      (`Kept` lists strictly increasing positions); none of them is out of
      health. */
  lemma EnemiesTickOutcome(es: seq<Enemy>, f: Frame)
    ensures var s := Survivors(es, f);
      var kept := Kept(|es|, Where(es, Gone(f)));
      && |s| == |kept|
      && (forall j :: 0 <= j < |s| ==> !Leaves(es[kept[j]], f) && s[j] == Advance(es[kept[j]], f))
      && (forall i :: 0 <= i < |es| && !Leaves(es[i], f) ==> i in kept)
      && (forall j :: 0 <= j < |s| ==> s[j].health > 0.0)
  {
    var rm := Where(es, Gone(f));
    WithoutKept(Ticked(es, f), rm);
    var kept := Kept(|es|, rm);
    forall j | 0 <= j < |kept| ensures !Leaves(es[kept[j]], f) {
      assert kept[j] !in rm;
    }
    forall i | 0 <= i < |es| && !Leaves(es[i], f) ensures i in kept {
      forall k | 0 <= k < |rm| ensures rm[k] != i {
        assert Gone(f)(es[rm[k]]);
      }
    }
  }

  /** The pickup is within contact range of the player. */
  predicate InContact(p: Pickup, f: Frame) {
    Distance(f.math, f.px - p.x, f.py - p.y) < ContactDistance
  }

  datatype PickupFate =
    | Collected  // within contact range: its loot goes to the player
    | Remains(pickup: Pickup)  // pulled toward the player when within pickup range

  /** One pickup's turn in `pickupsTick`, with `reach` the value of the
      `pickupDistance` attribute. */
  function PickupStep(p: Pickup, reach: real, f: Frame): (r: PickupFate)
    ensures r.Collected? <==> InContact(p, f)
    ensures r.Remains? ==> r.pickup.loot == p.loot
    ensures r.Remains? && Distance(f.math, f.px - p.x, f.py - p.y) >= reach ==> r.pickup == p
  {
    var dx := f.px - p.x;
    var dy := f.py - p.y;
    var distance := Distance(f.math, dx, dy);
    if distance < ContactDistance then Collected
    else if distance < reach then
      var speed := (reach + 10.0 - distance) * f.dt * 2.0;
      Remains(p.(x := p.x + dx / distance * speed, y := p.y + dy / distance * speed))
    else Remains(p)
  }

  function Pulled(p: Pickup, reach: real, f: Frame): Pickup {
    match PickupStep(p, reach, f)
    case Remains(moved) => moved
    case Collected => p
  }

  function PulledAll(ps: seq<Pickup>, reach: real, f: Frame): seq<Pickup> {
    seq(|ps|, i requires 0 <= i < |ps| => Pulled(ps[i], reach, f))
  }

  /** The pickups the tick puts in `pickupsToRemove`. */
  function Taken(f: Frame): Pickup -> bool {
    p => InContact(p, f)
  }

  function HealthOf(l: Loot): real {
    if l.HealthLoot? then l.health else 0.0
  }

  function ExperienceOf(l: Loot): real {
    if l.ExperienceLoot? then l.experience else 0.0
  }

  /** The health and experience the collected pickups give. */
  function Gains(ps: seq<Pickup>, f: Frame): (real, real) {
    if |ps| == 0 then (0.0, 0.0)
    else
      var p := ps[|ps| - 1];
      var before := Gains(ps[..|ps| - 1], f);
      if Taken(f)(p) then (before.0 + HealthOf(p.loot), before.1 + ExperienceOf(p.loot))
      else before
  }

  /** One more pickup's turn extends each tally of `pickupsTick` by that
      pickup alone. */
  lemma PickupTallyStep(ps: seq<Pickup>, i: nat, f: Frame)
    requires i < |ps|
    ensures Where(ps[..i + 1], Taken(f)) == Where(ps[..i], Taken(f)) + (if Taken(f)(ps[i]) then [i] else [])
    ensures var g := Gains(ps[..i], f);
      Gains(ps[..i + 1], f)
      == if Taken(f)(ps[i]) then (g.0 + HealthOf(ps[i].loot), g.1 + ExperienceOf(ps[i].loot)) else g
  {
    assert ps[..i + 1][..i] == ps[..i];
  }

  /** The pool after `pickupsTick`. */
  function Remaining(ps: seq<Pickup>, reach: real, f: Frame): seq<Pickup> {
    Without(PulledAll(ps, reach, f), Where(ps, Taken(f)))
  }

  /** After `pickupsTick` the pool holds exactly the pickups that were not
      collected, that is, were outside contact range, in their original
      order, each carrying the loot it had. */
  lemma PickupsTickOutcome(ps: seq<Pickup>, reach: real, f: Frame)
    ensures var s := Remaining(ps, reach, f);
      var kept := Kept(|ps|, Where(ps, Taken(f)));
      && |s| == |kept|
      && (forall j :: 0 <= j < |s| ==>
            !InContact(ps[kept[j]], f) && s[j] == Pulled(ps[kept[j]], reach, f) && s[j].loot == ps[kept[j]].loot)
      && (forall i :: 0 <= i < |ps| && !InContact(ps[i], f) ==> i in kept)
  {
    var rm := Where(ps, Taken(f));
    var pulled := PulledAll(ps, reach, f);
    WithoutKept(pulled, rm);
    var kept := Kept(|ps|, rm);
    var s := Remaining(ps, reach, f);
    forall j | 0 <= j < |s|
      ensures !InContact(ps[kept[j]], f) && s[j] == Pulled(ps[kept[j]], reach, f) && s[j].loot == ps[kept[j]].loot
    {
      var i := kept[j];
      assert i !in rm;
      assert s[j] == pulled[i];
      assert PickupStep(ps[i], reach, f).Remains?;
    }
    forall i | 0 <= i < |ps| && !InContact(ps[i], f) ensures i in kept {
      forall k | 0 <= k < |rm| ensures rm[k] != i {
        assert Taken(f)(ps[rm[k]]);
      }
    }
  }

  /** The player's melee as `applyPlayerMeleeAttack` reads it: position,
      `meleeDirection`, and the values of `meleeAngle`, `meleeDistance` and
      `meleeDamage`. */
  datatype Melee = Melee(px: real, py: real, direction: real, angle: real, reach: real, damage: real, math: HostMath)

  /** The enemy lies within the square of side `2 * reach`, inside the cone
      around the melee direction, and closer than `reach`. */
  predicate InReach(e: Enemy, m: Melee) {
    var dx := e.x - m.px;
    var dy := e.y - m.py;
    && !(Abs(dx) > m.reach || Abs(dy) > m.reach)
    && m.direction - m.angle / 2.0 < m.math.atan2(dy, dx) < m.direction + m.angle / 2.0
    && Distance(m.math, dx, dy) < m.reach
  }

  /** One enemy under `applyPlayerMeleeAttack`: an enemy in reach loses the
      melee damage, flashes for 0.1 and is knocked back along the attack
      angle; any other enemy is left alone. */
  function Strike(e: Enemy, m: Melee): (r: Enemy)
    ensures InReach(e, m) ==>
      && r.health == e.health - m.damage && r.hitTick == 0.1
      && r.(health := e.health, hitTick := e.hitTick, pushBackX := e.pushBackX, pushBackY := e.pushBackY) == e
    ensures !InReach(e, m) ==> r == e
  {
    if InReach(e, m) then
      var angle := m.math.atan2(e.y - m.py, e.x - m.px);
      e.(health := e.health - m.damage, hitTick := 0.1,
         pushBackX := m.math.cos(angle) * 25.0, pushBackY := m.math.sin(angle) * 25.0)
    else e
  }

  function StrikeAll(es: seq<Enemy>, m: Melee): seq<Enemy> {
    seq(|es|, i requires 0 <= i < |es| => Strike(es[i], m))
  }

  function Hits(m: Melee): Enemy -> bool {
    e => InReach(e, m)
  }

  /** The damage `applyPlayerMeleeAttack` adds to `damageDone`. */
  function DamageDealt(es: seq<Enemy>, m: Melee): real {
    if |es| == 0 then 0.0
    else DamageDealt(es[..|es| - 1], m) + (if InReach(es[|es| - 1], m) then m.damage else 0.0)
  }

  /** `d` added up `k` times. */
  function Scaled(d: real, k: nat): real {
    d * k as real
  }

  lemma ScaledStep(d: real, k: nat)
    ensures Scaled(d, k + 1) == Scaled(d, k) + d
  {
  }

  /** The melee adds its damage once per enemy hit. */
  lemma {:induction false} DamagePerHit(es: seq<Enemy>, m: Melee)
    ensures DamageDealt(es, m) == Scaled(m.damage, |Where(es, Hits(m))|)
    decreases |es|
  {
    if |es| != 0 {
      var n := |es| - 1;
      DamagePerHit(es[..n], m);
      ScaledStep(m.damage, |Where(es[..n], Hits(m))|);
    }
  }

  /** One more enemy under the melee extends its damage tally by that enemy
      alone. */
  lemma HitTallyStep(es: seq<Enemy>, i: nat, m: Melee)
    requires i < |es|
    ensures DamageDealt(es[..i + 1], m) == DamageDealt(es[..i], m) + (if InReach(es[i], m) then m.damage else 0.0)
  {
    assert es[..i + 1][..i] == es[..i];
  }
}
