/** The game loop (`gameLogicTick`): the manager's state machine
    (`managerTick`), one tick of the enemy and pickup pools and of the player
    (`enemiesTick`, `pickupsTick`, `playerTick`, `applyPlayerMeleeAttack`),
    and the input flags (`processKeyEvent`, the pointer listener,
    `inputTick`). */
module Simulation {
  import opened Host
  import opened Attributes
  import opened Catalog
  import opened Players
  import opened Spawning
  import opened Sequences
  import opened Entities

  /** `MANAGER_STATES`. */
  datatype State = Running | Dead | PickingUpgrade | Paused

  /** `manager`: its state and the fields `startingManagerState` lists.
      `upgrades` holds the offered catalog indices. */
  datatype Manager = Manager(
    state: State,
    lastSpawnRate: int,
    runtime: real,
    damageDone: real,
    kills: nat,
    spawnTimeout: real,
    upgrades: seq<nat>,
    selectedUpgradeIndex: nat)

  /** `manager` at load time, and after a restart. */
  const StartingManager: Manager := Manager(Running, -1, 0.0, 0.0, 0, 0.0, [], 0)

  /** The controls `inputMapping` maps keys to. */
  datatype Control = Up | Down | Left | Right | Enter | Pause

  datatype Keys = Keys(up: bool, down: bool, left: bool, right: bool, enter: bool, pause: bool)

  const Released: Keys := Keys(false, false, false, false, false, false)

  /** `input`: the held controls and the pointer position on the canvas. */
  datatype Input = Input(held: Keys, targetX: real, targetY: real)

  /** `inputMapping`, for a key name already in lower case. */
  function InputMapping(key: string): Option<Control> {
    if key == "arrowup" || key == "w" then Some(Up)
    else if key == "arrowdown" || key == "s" then Some(Down)
    else if key == "arrowleft" || key == "a" then Some(Left)
    else if key == "arrowright" || key == "d" then Some(Right)
    else if key == "enter" then Some(Enter)
    else if key == "escape" || key == "p" then Some(Pause)
    else None
  }

  function IsSet(k: Keys, c: Control): bool {
    match c
    case Up => k.up
    case Down => k.down
    case Left => k.left
    case Right => k.right
    case Enter => k.enter
    case Pause => k.pause
  }

  /** `keys[mapped] = state`. */
  function WithControl(k: Keys, c: Control, on: bool): (r: Keys)
    ensures IsSet(r, c) == on
    ensures forall d :: d != c ==> IsSet(r, d) == IsSet(k, d)
  {
    match c
    case Up => k.(up := on)
    case Down => k.(down := on)
    case Left => k.(left := on)
    case Right => k.(right := on)
    case Enter => k.(enter := on)
    case Pause => k.(pause := on)
  }

  /** `moveX` and `moveY` of `playerTick`. */
  function Direction(k: Keys): (real, real) {
    ((if k.left then -1.0 else 0.0) + (if k.right then 1.0 else 0.0),
     (if k.up then -1.0 else 0.0) + (if k.down then 1.0 else 0.0))
  }

  function Min(a: real, b: real): real {
    if a <= b then a else b
  }

  /** The upgrade cursor after one tick's up and down presses, over `count`
      offers. */
  function MoveCursor(index: nat, up: bool, down: bool, count: nat): nat {
    var afterUp := if up && index > 0 then index - 1 else index;
    if down && afterUp < count - 1 then afterUp + 1 else afterUp
  }

  /** The cursor moves by at most one; it stays on an offer when it was on
      one; a cursor left past the end by an earlier, longer list of offers
      never moves further out. */
  lemma CursorBounds(index: nat, up: bool, down: bool, count: nat)
    ensures var r := MoveCursor(index, up, down, count);
      && r <= index + 1 && index <= r + 1
      && (index < count ==> r < count)
      && (count <= index ==> r <= index)
      && (up && !down && index > 0 ==> r == index - 1)
      && (down && !up && index + 1 < count ==> r == index + 1)
  {
  }

  /** `spawnEnemy(kind)`: two draws of `Math.random`, angle first. */
  function Spawn(kind: EnemyKind, px: real, py: real, rnd: Random, math: HostMath): (r: (Enemy, Random))
    requires rnd.Valid()
    ensures r.1.Valid() && r.1.draw == rnd.draw && r.1.calls == rnd.calls + 2
  {
    var (r1, rnd1) := rnd.Next();
    var (r2, rnd2) := rnd1.Next();
    (SpawnedEnemy(kind, px, py, r1, r2, math), rnd2)
  }

  datatype SpawnResult = SpawnResult(lastSpawnRate: int, spawnTimeout: real, spawned: seq<Enemy>, rest: Random)

  /** The spawning part of a running `managerTick`, once `runtime` has
      advanced: the period's boss when the period index changed, then a
      regular enemy when the timer has passed the period's rate. */
  function SpawnStep(m: Manager, px: real, py: real, dt: real, rnd: Random, math: HostMath): (r: SpawnResult)
    requires rnd.Valid()
    ensures r.rest.Valid() && r.rest.draw == rnd.draw
  {
    ScheduleShape();
    ActiveIsLatestStarted(m.runtime);
    var index := SpawnRateIndex(m.runtime);
    var rate := SpawnRates[UsedEntry(index)];
    var bossDue := index != m.lastSpawnRate && rate.boss != 0;
    var (boss, rnd1) :=
      if bossDue then var s := Spawn(rate.boss as EnemyKind, px, py, rnd, math); ([s.0], s.1)
      else ([], rnd);
    if m.spawnTimeout > rate.rate then
      var (pick, rnd2) := rnd1.Next();
      var s := Spawn(PickRandom(rate.types, pick), px, py, rnd2, math);
      SpawnResult(index, 0.0, boss + [s.0], s.1)
    else
      SpawnResult(index, m.spawnTimeout + dt, boss, rnd1)
  }

  /** A running tick records the period index, spawns the period's boss only
      when that index changed (as `BossSpawns` counts it, so at most once over
      a run), spawns at most one regular enemy, of a type the period lists,
      and restarts the timer exactly when it spawns one; every spawned enemy
      has its type's full health and no `boss` flag. */
  lemma SpawnStepFacts(m: Manager, px: real, py: real, dt: real, rnd: Random, math: HostMath)
    requires rnd.Valid()
    ensures var r := SpawnStep(m, px, py, dt, rnd, math);
      var index := SpawnRateIndex(m.runtime);
      var rate := ActiveRate(m.runtime);
      var bossDue := index != m.lastSpawnRate && rate.boss != 0;
      var regular := m.spawnTimeout > rate.rate;
      && r.lastSpawnRate == index
      && r.spawnTimeout == (if regular then 0.0 else m.spawnTimeout + dt)
      && |r.spawned| == (if bossDue then 1 else 0) + (if regular then 1 else 0)
      && (bossDue ==> r.spawned[0].kind == rate.boss)
      && (regular ==> r.spawned[|r.spawned| - 1].kind in rate.types)
      && (forall k :: 0 <= k < |r.spawned| ==>
            r.spawned[k].health == EnemyTypes[r.spawned[k].kind].health && !r.spawned[k].boss
            && (r.spawned[k].kind == 2 <==> bossDue && k == 0))
      && (if bossDue then 1 else 0) == BossSpawns([m.runtime], m.lastSpawnRate)
      && r.rest.calls == rnd.calls + (if bossDue then 2 else 0) + (if regular then 3 else 0)
  {
    ScheduleShape();
    ActiveIsLatestStarted(m.runtime);
    assert [m.runtime][1..] == [];
  }

  /** `width / 2` and `height / 2`: where the player is drawn, the origin of
      the aim. */
  const ScreenCenter: real := 200.0

  /** The player's displacement in `playerTick`: the held direction divided
      by its length (`Math.sqrt(moveX * moveX + moveY * moveY)`, by the host)
      and scaled by the `speed` value times `deltaTime`; no move when that
      length is not positive. */
  function Movement(k: Keys, speedValue: real, dt: real, math: HostMath): (r: (real, real))
    ensures var (mx, my) := Direction(k);
      && (math.hypot(mx, my) <= 0.0 ==> r == (0.0, 0.0))
      && (speedValue > 0.0 && dt > 0.0 && math.hypot(mx, my) > 0.0 ==>
            && (r.0 > 0.0 <==> mx > 0.0) && (r.0 < 0.0 <==> mx < 0.0)
            && (r.1 > 0.0 <==> my > 0.0) && (r.1 < 0.0 <==> my < 0.0))
  {
    var (mx, my) := Direction(k);
    var speed := speedValue * dt;
    var d := math.hypot(mx, my);
    if d > 0.0 then (mx / d * speed, my / d * speed) else (0.0, 0.0)
  }

  /** Opposite keys cancel: each axis of the direction is -1, 0 or 1, and is 0
      exactly when both or neither of its keys are held; so with no net
      direction (and the host's square root of 0 being 0) the player stays. */
  lemma DirectionCancels(k: Keys, speedValue: real, dt: real, math: HostMath)
    ensures var (mx, my) := Direction(k);
      && mx in {-1.0, 0.0, 1.0} && my in {-1.0, 0.0, 1.0}
      && (mx == 0.0 <==> k.left == k.right) && (my == 0.0 <==> k.up == k.down)
      && (mx == 0.0 && my == 0.0 && math.hypot(0.0, 0.0) == 0.0 ==> Movement(k, speedValue, dt, math) == (0.0, 0.0))
  {
  }

  /** `Math.min(maxHealth, health + regen * deltaTime)`: regeneration never
      lifts health above the maximum, and below it adds exactly the rate times
      the frame time. Health already above the maximum drops to it. */
  function Regenerated(health: real, maxHealth: real, regen: real, dt: real): (r: real)
    ensures r <= maxHealth
    ensures health + regen * dt <= maxHealth ==> r == health + regen * dt
    ensures health + regen * dt > maxHealth ==> r == maxHealth
  {
    Min(maxHealth, health + regen * dt)
  }

  /** `if (t > 0) t -= deltaTime`: a timer that runs down and then rests. */
  function CountDown(t: real, dt: real): (r: real)
    ensures t <= 0.0 ==> r == t
    ensures t > 0.0 ==> r == t - dt
  {
    if t > 0.0 then t - dt else t
  }

  /** The timer `t` after `n` ticks of `dt` each. */
  function CountDowns(t: real, dt: real, n: nat): real {
    if n == 0 then t else CountDown(CountDowns(t, dt, n - 1), dt)
  }

  /** With a positive frame time, a running timer loses `dt` per tick while it
      is positive, has run out once `n * dt` reaches its start, never ends up
      a whole tick below zero, and from then on rests; a timer that has run
      out never moves. */
  lemma {:induction false} CountDownRests(t: real, dt: real, n: nat)
    requires dt > 0.0
    ensures CountDowns(t, dt, n) > 0.0 ==> CountDowns(t, dt, n) == t - n as real * dt
    ensures t > 0.0 && n as real * dt >= t ==> CountDowns(t, dt, n) <= 0.0
    ensures t > 0.0 ==> CountDowns(t, dt, n) > -dt
    ensures t <= 0.0 ==> CountDowns(t, dt, n) == t
    ensures CountDowns(t, dt, n) <= 0.0 ==> CountDowns(t, dt, n + 1) == CountDowns(t, dt, n)
  {
    if n > 0 {
      CountDownRests(t, dt, n - 1);
      var p := CountDowns(t, dt, n - 1);
      if p > 0.0 {
        assert p - dt == t - n as real * dt by {
          assert p == t - (n - 1) as real * dt;
          assert (n - 1) as real * dt + dt == n as real * dt;
        }
      }
    }
  }

  /** The offers of a level-up: the eligible upgrades are copied into an
      array (`Array.from`), shuffled in place, and the first three kept. */
  method DrawOffers(v: PlayerView, rnd: Random) returns (offers: seq<nat>, rest: Random)
    requires rnd.Valid()
    ensures offers == Offers(v, rnd)
    ensures |offers| <= 3 && Distinct(offers)
    ensures forall k :: 0 <= k < |offers| ==> offers[k] < |Upgrades| && Eligible(offers[k], v)
    ensures rest.Valid() && rest == rnd.(calls := rnd.calls + |Available(v)|)
  {
    var available := Available(v);
    var a := new nat[|available|](i requires 0 <= i < |available| => available[i]);
    assert a[..] == available;
    rest := ShuffleArray(a, rnd);
    OffersAreEligible(v, rnd);
    offers := TakeThree(a[..]);
  }

  /** The parts of the game `enemiesTick` tallies into. */
  datatype Tallies = Tallies(pickups: seq<Pickup>, manager: Manager, health: real, lastDamagedTick: real)

  /** The offer PICKING_UPGRADE takes in a tick: the one under the cursor
      after its moves, when enter was just pressed and there is one. */
  function Chosen(m: Manager, jp: Keys): Option<nat> {
    var cursor := MoveCursor(m.selectedUpgradeIndex, jp.up, jp.down, |m.upgrades|);
    if jp.enter && cursor < |m.upgrades| then Some(m.upgrades[cursor]) else None
  }

  /** Enter in PICKING_UPGRADE with no offer under the cursor: the source
      throws. */
  predicate Crashes(m: Manager, jp: Keys) {
    m.state == PickingUpgrade && jp.enter
    && MoveCursor(m.selectedUpgradeIndex, jp.up, jp.down, |m.upgrades|) >= |m.upgrades|
  }

  /** `managerTick` on the manager in a state other than RUNNING: DEAD
      restarts while enter is held, PICKING_UPGRADE moves the cursor and
      resumes on enter, PAUSED resumes on pause or enter. */
  function MenuStep(m: Manager, jp: Keys, enterHeld: bool): Manager {
    match m.state
    case Running => m
    case Dead => if enterHeld then StartingManager else m
    case PickingUpgrade =>
      var cursor := MoveCursor(m.selectedUpgradeIndex, jp.up, jp.down, |m.upgrades|);
      if Chosen(m, jp).Some? then m.(state := Running, selectedUpgradeIndex := cursor)
      else m.(selectedUpgradeIndex := cursor)
    case Paused => m.(state := if jp.pause || jp.enter then Running else Paused)
  }

  /** Outside RUNNING the clock, the spawner and the tallies stand still
      (only a restart resets them); the game runs again exactly on a restart
      from DEAD, a taken offer, or pause or enter in PAUSED, and otherwise
      keeps its state; of the offers only the cursor moves, by at most one. */
  lemma MenuStates(m: Manager, jp: Keys, enterHeld: bool)
    requires m.state != Running
    ensures var r := MenuStep(m, jp, enterHeld);
      && (r.state == Running <==>
            || (m.state == Dead && enterHeld)
            || (m.state == PickingUpgrade && Chosen(m, jp).Some?)
            || (m.state == Paused && (jp.pause || jp.enter)))
      && (r.state != Running ==> r.state == m.state)
      && (m.state == Dead && enterHeld ==> r == StartingManager)
      && (!(m.state == Dead && enterHeld) ==>
            && r.runtime == m.runtime && r.kills == m.kills && r.damageDone == m.damageDone
            && r.lastSpawnRate == m.lastSpawnRate && r.spawnTimeout == m.spawnTimeout
            && r.upgrades == m.upgrades
            && r.selectedUpgradeIndex <= m.selectedUpgradeIndex + 1
            && m.selectedUpgradeIndex <= r.selectedUpgradeIndex + 1)
      && (Crashes(m, jp) ==> r.state == PickingUpgrade)
  {
    if m.state == PickingUpgrade {
      CursorBounds(m.selectedUpgradeIndex, jp.up, jp.down, |m.upgrades|);
    }
  }

  /** What a RUNNING frame works on: the manager, both pools and the
      player's numbers. */
  datatype World = World(manager: Manager, enemies: seq<Enemy>, pickups: seq<Pickup>, body: Body)

  /** The RUNNING case of `managerTick`: the clock advances, then the game
      pauses (checked first), dies, or spawns (see `SpawnStep`). */
  function Managed(w: World, pause: bool, dt: real, rnd: Random, math: HostMath): (r: (World, Random))
    requires rnd.Valid()
    ensures r.1.Valid() && r.1.draw == rnd.draw
  {
    var m := w.manager.(runtime := w.manager.runtime + dt);
    if pause then (w.(manager := m.(state := Paused)), rnd)
    else if w.body.health <= 0.0 then (w.(manager := m.(state := Dead)), rnd)
    else
      var s := SpawnStep(m, w.body.x, w.body.y, dt, rnd, math);
      (w.(manager := m.(lastSpawnRate := s.lastSpawnRate, spawnTimeout := s.spawnTimeout),
          enemies := w.enemies + s.spawned), s.rest)
  }

  /** `enemiesTick` at the player's position: the pool becomes the survivors
      (see `EnemiesTickOutcome`), each dead enemy drops its experience and
      counts as a kill (see `DropsPerDead`), and the striking enemies cost
      health and restart the damage flash. */
  function EnemiesPhase(w: World, dt: real, math: HostMath): World {
    Fought(w, Frame(w.body.x, w.body.y, dt, math))
  }

  /** The turns and the splice of `enemiesTick` for the frame `f`. */
  function Fought(w: World, f: Frame): World {
    w.(enemies := Survivors(w.enemies, f),
       pickups := w.pickups + Drops(w.enemies),
       manager := w.manager.(kills := w.manager.kills + |Drops(w.enemies)|),
       body := w.body.(health := w.body.health - ContactDamage(w.enemies, f),
         lastDamagedTick := if |Where(w.enemies, Strikes(f))| > 0 then 0.5 else w.body.lastDamagedTick))
  }

  /** `pickupsTick` at the player's position, with the `pickupDistance` value
      of the player's level: the pool becomes the pulled pickups left (see
      `PickupsTickOutcome`), the collected loot goes to health and
      experience, and the pickup flash restarts when anything was collected. */
  function PickupsPhase(w: World, lists: AttrLists, dt: real, math: HostMath): World {
    Gathered(w, ValueAt(lists, PickupDistance, w.body.level), Frame(w.body.x, w.body.y, dt, math))
  }

  /** The pass of `pickupsTick` with the pull distance `reach` read. */
  function Gathered(w: World, reach: real, f: Frame): World {
    var gains := Gains(w.pickups, f);
    w.(pickups := Remaining(w.pickups, reach, f),
       body := w.body.(health := w.body.health + gains.0, experience := w.body.experience + gains.1,
         lastPickupTick := if |Where(w.pickups, Taken(f))| > 0 then 0.1 else w.body.lastPickupTick))
  }

  /** The move and the aim of `playerTick`, at the `speed` value. */
  function Moved(w: World, input: Input, lists: AttrLists, dt: real, math: HostMath): World {
    var v := Movement(input.held, ValueAt(lists, Speed, w.body.level), dt, math);
    w.(body := w.body.(x := w.body.x + v.0, y := w.body.y + v.1,
      meleeDirection := math.atan2(input.targetY - ScreenCenter, input.targetX - ScreenCenter)))
  }

  /** The melee of the player `b`, with the `meleeAngle`, `meleeDistance` and
      `meleeDamage` values of its level. */
  function MeleeOf(b: Body, lists: AttrLists, math: HostMath): Melee {
    Melee(b.x, b.y, b.meleeDirection, ValueAt(lists, MeleeAngle, b.level),
      ValueAt(lists, MeleeDistance, b.level), ValueAt(lists, MeleeDamage, b.level), math)
  }

  /** A melee strike (see `StrikeAll` and `DamagePerHit`), and the timer
      restarted from the `meleeTimeout` value. */
  function Struck(w: World, lists: AttrLists, math: HostMath): World {
    var s := Hit(w, MeleeOf(w.body, lists, math));
    s.(body := s.body.(meleeTick := ValueAt(lists, MeleeTimeout, w.body.level)))
  }

  /** `applyPlayerMeleeAttack` with the melee `m`. */
  function Hit(w: World, m: Melee): World {
    w.(enemies := StrikeAll(w.enemies, m),
       manager := w.manager.(damageDone := w.manager.damageDone + Scaled(m.damage, |Where(w.enemies, Hits(m))|)))
  }

  /** The melee timer of `playerTick`: a running timer counts down, one that
      has run out strikes. */
  function MeleePhase(w: World, lists: AttrLists, dt: real, math: HostMath): World {
    if w.body.meleeTick > 0.0 then w.(body := w.body.(meleeTick := w.body.meleeTick - dt))
    else Struck(w, lists, math)
  }

  /** The level-up of `playerTick`: at the threshold one level more, the
      threshold paid and raised by 10, the game stops on the offers drawn for
      the player as it stands at the new level, and the player heals 5. */
  function Leveled(w: World, lists: AttrLists, applied: seq<nat>, rnd: Random): (r: (World, Random))
    requires rnd.Valid()
    ensures r.1.Valid() && r.1.draw == rnd.draw
  {
    if w.body.experience >= w.body.nextLevelExperience then
      OfferedAndHealed(Promoted(w), ViewOf(Promoted(w).body, lists, applied), rnd)
    else (w, rnd)
  }

  /** One level more, the threshold paid from the experience and raised by 10. */
  function Promoted(w: World): World {
    var b := w.body;
    w.(body := b.(level := b.level + 1, experience := b.experience - b.nextLevelExperience,
      nextLevelExperience := b.nextLevelExperience + 10.0))
  }

  /** What the upgrade filter sees of the player `b` with the upgrades
      `applied`: its health and the `health` and `meleeDamage` values of its
      level. */
  function ViewOf(b: Body, lists: AttrLists, applied: seq<nat>): PlayerView {
    PlayerView(b.health, ValueAt(lists, Health, b.level), ValueAt(lists, MeleeDamage, b.level), applied)
  }

  /** The level-up once the level has gone up: the game stops on the offers
      drawn for the view `v` (see `OffersAreEligible`), and the player heals 5. */
  function OfferedAndHealed(w: World, v: PlayerView, rnd: Random): (r: (World, Random))
    requires rnd.Valid()
    ensures r.1.Valid() && r.1.draw == rnd.draw
  {
    (w.(manager := w.manager.(state := PickingUpgrade, upgrades := Offers(v, rnd)),
        body := w.body.(health := w.body.health + 5.0)),
     rnd.(calls := rnd.calls + |Available(v)|))
  }

  /** The end of `playerTick`: both flash timers count down (see
      `CountDownRests`) and health regenerates up to the `health` value (see
      `Regenerated`). */
  function Recovered(w: World, lists: AttrLists, dt: real): World {
    var b := w.body;
    w.(body := b.(lastDamagedTick := CountDown(b.lastDamagedTick, dt),
      lastPickupTick := CountDown(b.lastPickupTick, dt),
      health := Regenerated(b.health, ValueAt(lists, Health, b.level), ValueAt(lists, HealthRegen, b.level), dt)))
  }

  /** `playerTick`: the move and the melee read the attributes at the level
      the tick starts at, the regeneration at the level it ends at. */
  function PlayerPhase(w: World, input: Input, lists: AttrLists, applied: seq<nat>,
    dt: real, rnd: Random, math: HostMath): (r: (World, Random))
    requires rnd.Valid()
    ensures r.1.Valid() && r.1.draw == rnd.draw
  {
    LeveledAndRecovered(MovedAndStruck(w, input, lists, dt, math), lists, applied, dt, rnd)
  }

  /** The first half of `playerTick`: the move and the aim, then the melee
      timer. */
  function MovedAndStruck(w: World, input: Input, lists: AttrLists, dt: real, math: HostMath): World {
    MeleePhase(Moved(w, input, lists, dt, math), lists, dt, math)
  }

  /** The second half of `playerTick`: the level-up, then the timers and
      regeneration. */
  function LeveledAndRecovered(w: World, lists: AttrLists, applied: seq<nat>, dt: real, rnd: Random): (r: (World, Random))
    requires rnd.Valid()
    ensures r.1.Valid() && r.1.draw == rnd.draw
  {
    (Recovered(Leveled(w, lists, applied, rnd).0, lists, dt), Leveled(w, lists, applied, rnd).1)
  }

  /** `enemiesTick`, then `pickupsTick`. */
  function PoolsPhase(w: World, lists: AttrLists, dt: real, math: HostMath): World {
    PickupsPhase(EnemiesPhase(w, dt, math), lists, dt, math)
  }

  /** What a RUNNING frame does after `managerTick`: `enemiesTick`,
      `pickupsTick`, `playerTick`. */
  function WorldPhase(w: World, input: Input, lists: AttrLists, applied: seq<nat>,
    dt: real, rnd: Random, math: HostMath): (r: (World, Random))
    requires rnd.Valid()
    ensures r.1.Valid() && r.1.draw == rnd.draw
  {
    PlayerPhase(PoolsPhase(w, lists, dt, math), input, lists, applied, dt, rnd, math)
  }

  /** A frame of `gameLogicTick` that begins RUNNING: `managerTick`, then the
      rest of the frame whatever state `managerTick` left. */
  function RunningFrame(w: World, pause: bool, input: Input, lists: AttrLists, applied: seq<nat>,
    dt: real, rnd: Random, math: HostMath): (r: (World, Random))
    requires rnd.Valid()
    ensures r.1.Valid() && r.1.draw == rnd.draw
  {
    WorldPhase(Managed(w, pause, dt, rnd, math).0, input, lists, applied, dt, Managed(w, pause, dt, rnd, math).1, math)
  }

  /** The state a RUNNING frame ends in: PICKING_UPGRADE exactly when the
      experience after the pools reaches the threshold, so a level-up
      overrides a pause just pressed and a death just detected; otherwise the
      state `managerTick` chose, pause before death. The clock advances by the
      frame time, the level rises by one exactly on a level-up, health ends
      at most the `health` value of the final level, and the kills grow by
      the enemies that started the frame out of health. */
  lemma RunningFrameOutcome(w: World, pause: bool, input: Input, lists: AttrLists, applied: seq<nat>,
    dt: real, rnd: Random, math: HostMath)
    requires rnd.Valid() && w.manager.state == Running
    ensures var (managed, _) := Managed(w, pause, dt, rnd, math);
      var pooled := PickupsPhase(EnemiesPhase(managed, dt, math), lists, dt, math);
      var levelled := pooled.body.experience >= pooled.body.nextLevelExperience;
      var r := RunningFrame(w, pause, input, lists, applied, dt, rnd, math).0;
      && r.manager.state == (if levelled then PickingUpgrade
                             else if pause then Paused
                             else if w.body.health <= 0.0 then Dead
                             else Running)
      && r.manager.runtime == w.manager.runtime + dt
      && r.body.level == w.body.level + (if levelled then 1 else 0)
      && r.body.health <= ValueAt(lists, Health, r.body.level)
      && r.manager.kills == w.manager.kills + |Drops(managed.enemies)|
  {
    var managed := Managed(w, pause, dt, rnd, math).0;
    var rest := Managed(w, pause, dt, rnd, math).1;
    var pooled := PoolsPhase(managed, lists, dt, math);
    assert pooled == PickupsPhase(EnemiesPhase(managed, dt, math), lists, dt, math);
    var struck := MovedAndStruck(pooled, input, lists, dt, math);
    assert struck.manager.state == managed.manager.state && struck.body.level == w.body.level;
    assert struck.manager.kills == managed.manager.kills + |Drops(managed.enemies)|;
    assert struck.body.experience == pooled.body.experience;
    assert struck.body.nextLevelExperience == pooled.body.nextLevelExperience;
    var leveled := Leveled(struck, lists, applied, rest).0;
    assert RunningFrame(w, pause, input, lists, applied, dt, rnd, math).0 == Recovered(leveled, lists, dt);
  }

  /** A frame in which the player dies and levels up: health 0 with the
      experience at the threshold. `managerTick` sets DEAD, yet the level-up
      in the same frame switches to PICKING_UPGRADE and heals 5, so the
      death is undone; with a pause pressed instead the pause is lost the
      same way. */
  lemma DeathUndone(input: Input, lists: AttrLists, applied: seq<nat>, rnd: Random, math: HostMath)
    requires rnd.Valid() && ValueAt(lists, Health, 1) > 0.0 && ValueAt(lists, HealthRegen, 1) >= 0.0
    ensures var w := World(StartingManager, [], [], Body(0.0, 0.0, 0.0, 1.0, 0, 5.0, 5.0, 0.0, 0.0, 0.0));
      && Managed(w, false, 0.016, rnd, math).0.manager.state == Dead
      && Managed(w, true, 0.016, rnd, math).0.manager.state == Paused
      && RunningFrame(w, false, input, lists, applied, 0.016, rnd, math).0.manager.state == PickingUpgrade
      && RunningFrame(w, false, input, lists, applied, 0.016, rnd, math).0.body.health > 0.0
      && RunningFrame(w, true, input, lists, applied, 0.016, rnd, math).0.manager.state == PickingUpgrade
  {
  }

  class Game {
    var manager: Manager
    var player: Player
    var enemies: seq<Enemy>
    var pickups: seq<Pickup>
    var input: Input
    /** `justPressedInput`. */
    var justPressed: Keys

    /** The player is well formed, the experience threshold of level `L` is
        `5 + 10 * L`, and every offer is a catalog index. */
    ghost predicate Valid()
      reads this`player, this`manager, player`level, player`nextLevelExperience, player.attrs.Values
    {
      && player.Valid()
      && player.nextLevelExperience == 5.0 + 10.0 * player.level as real
      && forall k :: 0 <= k < |manager.upgrades| ==> manager.upgrades[k] < UpgradeCount
    }

    /** The part of the game a RUNNING frame works on. */
    function Now(): World
      reads this`manager, this`enemies, this`pickups, this`player, player
    {
      World(manager, enemies, pickups, player.Current())
    }

    /** The state at load time. */
    constructor ()
      ensures Valid() && fresh(player) && (forall n: AttrName :: fresh(player.attrs[n])) && player.Initial()
      ensures manager == StartingManager && enemies == [] && pickups == []
      ensures input == Input(Released, 0.0, 0.0) && justPressed == Released
    {
      manager := StartingManager;
      player := new Player();
      enemies := [];
      pickups := [];
      input := Input(Released, 0.0, 0.0);
      justPressed := Released;
    }

    /** `processKeyEvent` for a key name in lower case: a mapped key sets both
        the held and the just-pressed flag of its control to `pressed`. */
    method ProcessKey(key: string, pressed: bool)
      modifies this`input, this`justPressed
      ensures InputMapping(key).None? ==> input == old(input) && justPressed == old(justPressed)
      ensures InputMapping(key).Some? ==>
        && input == old(input).(held := WithControl(old(input.held), InputMapping(key).value, pressed))
        && justPressed == WithControl(old(justPressed), InputMapping(key).value, pressed)
    {
      var mapped := InputMapping(key);
      if mapped.Some? {
        input := input.(held := WithControl(input.held, mapped.value, pressed));
        justPressed := WithControl(justPressed, mapped.value, pressed);
      }
    }

    /** The `mousemove` listener. */
    method MovePointer(x: real, y: real)
      modifies this`input
      ensures input == old(input).(targetX := x, targetY := y)
    {
      input := input.(targetX := x, targetY := y);
    }

    /** `inputTick`: every just-pressed flag is cleared. */
    method InputTick()
      modifies this`justPressed
      ensures justPressed == Released
    {
      justPressed := Released;
    }

    /** The RUNNING case of `managerTick`: the clock advances, then the game
        pauses (checked first), dies, or spawns. */
    method RunningTick(dt: real, rnd: Random, math: HostMath) returns (rest: Random)
      requires Valid() && rnd.Valid() && manager.state == Running
      modifies this`manager, this`enemies
      ensures Valid() && rest.Valid() && rest.draw == rnd.draw
      ensures (Now(), rest) == Managed(old(Now()), justPressed.pause, dt, rnd, math)
    {
      rest := RunningStep(dt, rnd, math);
    }

    /** The RUNNING case of `managerTick` on the manager and the enemy pool. */
    method RunningStep(dt: real, rnd: Random, math: HostMath) returns (rest: Random)
      requires rnd.Valid()
      modifies this`manager, this`enemies
      ensures manager.upgrades == old(manager.upgrades)
      ensures (Now(), rest) == Managed(old(Now()), justPressed.pause, dt, rnd, math)
    {
      rest := rnd;
      manager := manager.(runtime := manager.runtime + dt);
      if justPressed.pause {
        manager := manager.(state := Paused);
      } else if player.health <= 0.0 {
        manager := manager.(state := Dead);
      } else {
        var s := SpawnStep(manager, player.x, player.y, dt, rnd, math);
        manager := manager.(lastSpawnRate := s.lastSpawnRate, spawnTimeout := s.spawnTimeout);
        enemies := enemies + s.spawned;
        rest := s.rest;
      }
    }

    /** The DEAD case of `managerTick`: while enter is held (not just
        pressed), a new player replaces the old one, every starting manager
        field is restored, the state is RUNNING and both pools are emptied. */
    method DeadTick()
      requires Valid() && manager.state == Dead
      modifies this`manager, this`player, this`enemies, this`pickups
      ensures Valid()
      ensures input.held.enter ==>
        && manager == StartingManager && fresh(player) && (forall n: AttrName :: fresh(player.attrs[n])) && player.Initial()
        && enemies == [] && pickups == []
      ensures !input.held.enter ==>
        manager == old(manager) && enemies == old(enemies) && pickups == old(pickups) && player == old(player)
    {
      if input.held.enter {
        player := new Player();
        manager := StartingManager;
        enemies := [];
        pickups := [];
      }
    }

    /** The PICKING_UPGRADE case of `managerTick`: the cursor moves, then on
        enter the offer under it is applied, its index is appended to the
        player's upgrades and the game resumes. With no offer under the cursor
        the source throws, which is `crashed`. */
    method PickingTick() returns (crashed: bool)
      requires Valid() && manager.state == PickingUpgrade
      modifies this`manager, player`upgrades, player`health, player.attrs.Values
      ensures Valid() && player.Current() == old(player.Current()).(health := player.health)
      ensures
        var count := |old(manager.upgrades)|;
        var cursor := MoveCursor(old(manager.selectedUpgradeIndex), justPressed.up, justPressed.down, count);
        && (crashed <==> justPressed.enter && cursor >= count)
        && if justPressed.enter && cursor < count then
             var i := old(manager.upgrades)[cursor];
             && manager == old(manager).(state := Running, selectedUpgradeIndex := cursor)
             && player.upgrades == old(player.upgrades) + [i]
             && player.Lists() == EffectOnLists(old(player.Lists()), Upgrades[i].effect)
             && player.health == old(player.health) + EffectOnHealth(Upgrades[i].effect)
           else
             && manager == old(manager).(selectedUpgradeIndex := cursor)
             && player.upgrades == old(player.upgrades) && player.health == old(player.health)
             && player.Lists() == old(player.Lists())
    {
      crashed := false;
      var cursor := MoveCursor(manager.selectedUpgradeIndex, justPressed.up, justPressed.down, |manager.upgrades|);
      manager := manager.(selectedUpgradeIndex := cursor);
      if justPressed.enter {
        if cursor < |manager.upgrades| {
          TakeOffer(cursor);
        } else {
          crashed := true;
        }
      }
    }

    /** Enter on an existing offer: the player takes the upgrade at `cursor`
        and the game runs again. */
    method TakeOffer(cursor: nat)
      requires Valid() && cursor < |manager.upgrades|
      modifies this`manager, player`upgrades, player`health, player.attrs.Values
      ensures Valid() && manager == old(manager).(state := Running)
      ensures player.Current() == old(player.Current()).(health := player.health)
      ensures
        var i := old(manager.upgrades)[cursor];
        && player.upgrades == old(player.upgrades) + [i]
        && player.Lists() == EffectOnLists(old(player.Lists()), Upgrades[i].effect)
        && player.health == old(player.health) + EffectOnHealth(Upgrades[i].effect)
    {
      var i := manager.upgrades[cursor];
      player.TakeUpgrade(i);
      manager := manager.(state := Running);
    }

    /** The PAUSED case of `managerTick`: pause or enter resumes. */
    method PausedTick()
      requires manager.state == Paused
      modifies this`manager
      ensures manager == old(manager).(state := if justPressed.pause || justPressed.enter then Running else Paused)
    {
      if justPressed.pause || justPressed.enter {
        manager := manager.(state := Running);
      }
    }

    /** What `managerTick` leaves outside RUNNING, from the world `w`, the
        just-pressed flags `jp`, the player object `p`, its upgrades `ups` and
        its attribute lists `lists` it started with: the manager as `MenuStep`
        gives it and a crash exactly as `Crashes` says; on a restart a new
        player and empty pools; otherwise the same player and pools, and the
        player changed only by the offer taken in PICKING_UPGRADE, if any. */
    ghost predicate Stopped(w: World, jp: Keys, p: Player, ups: seq<nat>, lists: AttrLists, crashed: bool)
      requires forall k :: 0 <= k < |w.manager.upgrades| ==> w.manager.upgrades[k] < |Upgrades|
      requires forall n: AttrName :: n in lists
      reads this`manager, this`player, this`enemies, this`pickups, this`input, player, player.attrs.Values
    {
      && manager == MenuStep(w.manager, jp, input.held.enter)
      && crashed == Crashes(w.manager, jp)
      && if w.manager.state == Dead && input.held.enter then
           player.Initial() && enemies == [] && pickups == []
         else
           && player == p && enemies == w.enemies && pickups == w.pickups
           && var i := Chosen(w.manager, jp);
              if w.manager.state == PickingUpgrade && i.Some? then
                && player.upgrades == ups + [i.value]
                && player.Lists() == EffectOnLists(lists, Upgrades[i.value].effect)
                && player.Current() == w.body.(health := w.body.health + EffectOnHealth(Upgrades[i.value].effect))
              else
                player.upgrades == ups && player.Lists() == lists && player.Current() == w.body
    }

    /** `managerTick` in DEAD, PICKING_UPGRADE or PAUSED. */
    method MenuTick() returns (crashed: bool)
      requires Valid() && manager.state != Running
      modifies this`manager, this`player, this`enemies, this`pickups
      modifies player`upgrades, player`health, player.attrs.Values
      ensures Valid() && Stopped(old(Now()), justPressed, old(player), old(player.upgrades), old(player.Lists()), crashed)
      ensures old(manager.state) == Dead && input.held.enter ==>
        fresh(player) && forall n: AttrName :: fresh(player.attrs[n])
    {
      crashed := false;
      if manager.state == Dead {
        DeadTick();
      } else if manager.state == PickingUpgrade {
        crashed := PickingTick();
      } else {
        PausedTick();
      }
    }

    /** `managerTick`: the RUNNING case, or one of the other three. */
    method ManagerTick(dt: real, rnd: Random, math: HostMath) returns (rest: Random, crashed: bool)
      requires Valid() && rnd.Valid()
      modifies this`manager, this`player, this`enemies, this`pickups
      modifies player`upgrades, player`health, player.attrs.Values
      ensures Valid() && rest.Valid() && rest.draw == rnd.draw
      ensures old(manager.state) == Running ==>
        && (Now(), rest) == Managed(old(Now()), justPressed.pause, dt, rnd, math) && !crashed
        && player == old(player) && player.Lists() == old(player.Lists()) && player.level == old(player.level)
      ensures old(manager.state) != Running ==>
        rest == rnd && Stopped(old(Now()), justPressed, old(player), old(player.upgrades), old(player.Lists()), crashed)
      ensures old(manager.state) == Dead && input.held.enter ==>
        fresh(player) && forall n: AttrName :: fresh(player.attrs[n])
    {
      if manager.state == Running {
        rest := RunningTick(dt, rnd, math);
        crashed := false;
      } else {
        rest := rnd;
        crashed := MenuTick();
      }
    }

    /** `enemiesTick`: every enemy takes its turn (`EnemyStep`) against the
        player's position; a dead enemy drops experience and counts as a kill;
        striking enemies cost the player health and restart the damage flash;
        then the collected positions are spliced out. */
    method EnemiesTick(dt: real, math: HostMath)
      requires Valid()
      modifies this`enemies, this`pickups, this`manager, player`health, player`lastDamagedTick
      ensures Valid() && player.Lists() == old(player.Lists())
      ensures Now() == EnemiesPhase(old(Now()), dt, math)
      ensures var f := Frame(player.x, player.y, dt, math);
        && enemies == Survivors(old(enemies), f)
        && pickups == old(pickups) + Drops(old(enemies))
        && manager == old(manager).(kills := old(manager.kills) + |Drops(old(enemies))|)
        && player.health == old(player.health) - ContactDamage(old(enemies), f)
        && player.lastDamagedTick == if |Where(old(enemies), Strikes(f))| > 0 then 0.5 else old(player.lastDamagedTick)
    {
      TurnsAndSplice(Frame(player.x, player.y, dt, math));
    }

    /** `enemiesTick` for a given frame: the turns, then the splice. */
    method TurnsAndSplice(f: Frame)
      modifies this`enemies, this`pickups, this`manager, player`health, player`lastDamagedTick
      ensures Now() == Fought(old(Now()), f)
      ensures enemies == Survivors(old(enemies), f)
      ensures pickups == old(pickups) + Drops(old(enemies))
      ensures manager == old(manager).(kills := old(manager.kills) + |Drops(old(enemies))|)
      ensures player.health == old(player.health) - ContactDamage(old(enemies), f)
      ensures player.lastDamagedTick == if |Where(old(enemies), Strikes(f))| > 0 then 0.5 else old(player.lastDamagedTick)
    {
      ghost var w := Now();
      var enemiesToRemove := AdvanceEnemies(f);
      enemies := RemoveIndices(enemies, enemiesToRemove);
      assert enemies == Fought(w, f).enemies && pickups == Fought(w, f).pickups;
      assert manager == Fought(w, f).manager && player.Current() == Fought(w, f).body;
    }

    /** The loop of `enemiesTick`: each enemy takes its turn and the positions
        to remove are collected. */
    method AdvanceEnemies(f: Frame) returns (enemiesToRemove: seq<nat>)
      modifies this`enemies, this`pickups, this`manager, player`health, player`lastDamagedTick
      ensures enemies == Ticked(old(enemies), f)
      ensures enemiesToRemove == Where(old(enemies), Gone(f))
      ensures pickups == old(pickups) + Drops(old(enemies))
      ensures manager == old(manager).(kills := old(manager.kills) + |Drops(old(enemies))|)
      ensures player.health == old(player.health) - ContactDamage(old(enemies), f)
      ensures player.lastDamagedTick == if |Where(old(enemies), Strikes(f))| > 0 then 0.5 else old(player.lastDamagedTick)
    {
      var es := enemies;
      ghost var before := Tallies(pickups, manager, player.health, player.lastDamagedTick);
      enemiesToRemove := AdvanceAll(es, f, before);
      assert es[..|es|] == es;
      AllAdvanced(es, enemies, f);
    }

    /** The loop itself, over the pool `es` as it was when the tick began. */
    method AdvanceAll(es: seq<Enemy>, f: Frame, ghost before: Tallies) returns (enemiesToRemove: seq<nat>)
      requires Advanced(es, 0, f, before)
      modifies this`enemies, this`pickups, this`manager, player`health, player`lastDamagedTick
      ensures Advanced(es, |es|, f, before) && enemiesToRemove == Where(es, Gone(f))
    {
      enemiesToRemove := [];
      var index := 0;
      while index < |es|
        invariant index <= |es| && Advanced(es, index, f, before)
        invariant enemiesToRemove == Where(es[..index], Gone(f))
      {
        EnemyTallyStep(es, index, f);
        var gone := AdvanceOne(es, index, f, before);
        if gone {
          enemiesToRemove := enemiesToRemove + [index];
        }
        index := index + 1;
      }
      assert es[..|es|] == es;
    }

    /** What `enemiesTick` may have changed by the time the enemies before
        `index` of the pool `es` have taken their turns, from the tallies
        `before` it started with. */
    ghost predicate Advanced(es: seq<Enemy>, index: nat, f: Frame, before: Tallies)
      reads this, player
      requires index <= |es|
    {
      && |enemies| == |es|
      && (forall j :: 0 <= j < index ==> enemies[j] == Advance(es[j], f))
      && (forall j :: index <= j < |es| ==> enemies[j] == es[j])
      && pickups == before.pickups + Drops(es[..index])
      && manager == before.manager.(kills := before.manager.kills + |Drops(es[..index])|)
      && player.health == before.health - ContactDamage(es[..index], f)
      && player.lastDamagedTick == if |Where(es[..index], Strikes(f))| > 0 then 0.5 else before.lastDamagedTick
    }

    /** The loop of `enemiesTick` moves on by one enemy. */
    method AdvanceOne(ghost es: seq<Enemy>, index: nat, f: Frame, ghost before: Tallies) returns (gone: bool)
      requires index < |es| && Advanced(es, index, f, before)
      modifies this`enemies, this`pickups, this`manager, player`health, player`lastDamagedTick
      ensures Advanced(es, index + 1, f, before) && gone == Gone(f)(es[index])
    {
      EnemyTallyStep(es, index, f);
      AppendAssoc(before.pickups, Drops(es[..index]), if OutOfHealth(es[index]) then [ExperienceDrop(es[index])] else []);
      gone := EnemyTurn(index, f);
    }

    /** One pass of the loop body of `enemiesTick`, on the enemy at `index`;
        `gone` says whether its position is collected for removal. */
    method EnemyTurn(index: nat, f: Frame) returns (gone: bool)
      requires index < |enemies|
      modifies this`enemies, this`pickups, this`manager, player`health, player`lastDamagedTick
      ensures var e := old(enemies[index]);
        && gone == Gone(f)(e)
        && enemies == old(enemies)[index := Advance(e, f)]
        && pickups == old(pickups) + (if OutOfHealth(e) then [ExperienceDrop(e)] else [])
        && manager == old(manager).(kills := old(manager.kills) + if OutOfHealth(e) then 1 else 0)
        && player.health == old(player.health) - (if Strikes(f)(e) then EnemyTypes[e.kind].health else 0.0)
        && player.lastDamagedTick == if Strikes(f)(e) then 0.5 else old(player.lastDamagedTick)
    {
      var enemy := enemies[index];
      match EnemyStep(enemy, f) {
        case Killed =>
          pickups := pickups + [ExperienceDrop(enemy)];
          manager := manager.(kills := manager.kills + 1);
          gone := true;
        case Despawned =>
          gone := true;
        case Stays(moved, struck) =>
          if struck {
            player.health := player.health - EnemyTypes[enemy.kind].health;
            player.lastDamagedTick := 0.5;
          }
          enemies := enemies[index := moved];
          gone := false;
      }
    }

    /** `pickupsTick`: a pickup within contact range is collected (its loot
        goes to the player and the pickup flash restarts), one within the
        `pickupDistance` attribute is pulled closer; then the collected
        positions are spliced out. */
    method PickupsTick(dt: real, math: HostMath)
      requires Valid()
      modifies this`pickups, player`health, player`experience, player`lastPickupTick, player.attrs.Values
      ensures Valid() && player.Lists() == old(player.Lists())
      ensures Now() == PickupsPhase(old(Now()), player.Lists(), dt, math)
      ensures var reach := player.Stat(PickupDistance);
        var f := Frame(player.x, player.y, dt, math);
        var gains := Gains(old(pickups), f);
        && pickups == Remaining(old(pickups), reach, f)
        && player.health == old(player.health) + gains.0
        && player.experience == old(player.experience) + gains.1
        && player.lastPickupTick == if |Where(old(pickups), Taken(f))| > 0 then 0.1 else old(player.lastPickupTick)
    {
      ghost var w := Now();
      var reach := player.ReadAttr(PickupDistance);
      assert Now() == w;
      CollectPickups(reach, Frame(player.x, player.y, dt, math));
    }

    /** The loop of `pickupsTick`, with the `pickupDistance` value read. */
    method CollectPickups(reach: real, f: Frame)
      modifies this`pickups, player`health, player`experience, player`lastPickupTick
      ensures Now() == Gathered(old(Now()), reach, f)
      ensures var gains := Gains(old(pickups), f);
        && pickups == Remaining(old(pickups), reach, f)
        && player.health == old(player.health) + gains.0
        && player.experience == old(player.experience) + gains.1
        && player.lastPickupTick == if |Where(old(pickups), Taken(f))| > 0 then 0.1 else old(player.lastPickupTick)
    {
      ghost var w := Now();
      var pickupsToRemove := PullAll(reach, f);
      pickups := RemoveIndices(pickups, pickupsToRemove);
      assert pickups == Gathered(w, reach, f).pickups;
      assert player.Current() == Gathered(w, reach, f).body;
    }

    /** The pass over the pool: every pickup is pulled or collected, and the
        positions of the collected ones are listed in order. */
    method PullAll(reach: real, f: Frame) returns (pickupsToRemove: seq<nat>)
      modifies this`pickups, player`health, player`experience, player`lastPickupTick
      ensures var gains := Gains(old(pickups), f);
        && pickups == PulledAll(old(pickups), reach, f)
        && pickupsToRemove == Where(old(pickups), Taken(f))
        && player.health == old(player.health) + gains.0
        && player.experience == old(player.experience) + gains.1
        && player.lastPickupTick == if |pickupsToRemove| > 0 then 0.1 else old(player.lastPickupTick)
    {
      var ps := pickups;
      ghost var before := (player.health, player.experience, player.lastPickupTick);
      pickupsToRemove := [];
      var index := 0;
      while index < |ps|
        invariant index <= |ps| && Collecting(ps, index, reach, f, before)
        invariant pickupsToRemove == Where(ps[..index], Taken(f))
      {
        PickupTallyStep(ps, index, f);
        var taken := CollectOne(ps, index, reach, f, before);
        if taken {
          pickupsToRemove := pickupsToRemove + [index];
        }
        index := index + 1;
      }
      assert ps[..|ps|] == ps;
    }

    /** What `pickupsTick` may have changed by the time the pickups before
        `index` of the pool `ps` have been visited, from the player's health,
        experience and `lastPickupTick` in `before`. */
    ghost predicate Collecting(ps: seq<Pickup>, index: nat, reach: real, f: Frame, before: (real, real, real))
      reads this, player
      requires index <= |ps|
    {
      && |pickups| == |ps|
      && (forall j :: 0 <= j < index ==> pickups[j] == Pulled(ps[j], reach, f))
      && (forall j :: index <= j < |ps| ==> pickups[j] == ps[j])
      && player.health == before.0 + Gains(ps[..index], f).0
      && player.experience == before.1 + Gains(ps[..index], f).1
      && player.lastPickupTick == if |Where(ps[..index], Taken(f))| > 0 then 0.1 else before.2
    }

    /** The loop of `pickupsTick` moves on by one pickup. */
    method CollectOne(ghost ps: seq<Pickup>, index: nat, reach: real, f: Frame, ghost before: (real, real, real))
      returns (taken: bool)
      requires index < |ps| && Collecting(ps, index, reach, f, before)
      modifies this`pickups, player`health, player`experience, player`lastPickupTick
      ensures Collecting(ps, index + 1, reach, f, before) && taken == Taken(f)(ps[index])
    {
      PickupTallyStep(ps, index, f);
      taken := PickupTurn(index, reach, f);
    }

    /** One pass of the loop body of `pickupsTick`, on the pickup at `index`;
        `taken` says whether its position is collected for removal. */
    method PickupTurn(index: nat, reach: real, f: Frame) returns (taken: bool)
      requires index < |pickups|
      modifies this`pickups, player`health, player`experience, player`lastPickupTick
      ensures var p := old(pickups[index]);
        && taken == Taken(f)(p)
        && pickups == old(pickups)[index := Pulled(p, reach, f)]
        && player.health == old(player.health) + (if taken then HealthOf(p.loot) else 0.0)
        && player.experience == old(player.experience) + (if taken then ExperienceOf(p.loot) else 0.0)
        && player.lastPickupTick == if taken then 0.1 else old(player.lastPickupTick)
    {
      var pickup := pickups[index];
      match PickupStep(pickup, reach, f) {
        case Collected =>
          if pickup.loot.HealthLoot? {
            player.health := player.health + pickup.loot.health;
          } else {
            player.experience := player.experience + pickup.loot.experience;
          }
          player.lastPickupTick := 0.1;
          taken := true;
        case Remains(moved) =>
          pickups := pickups[index := moved];
          taken := false;
      }
    }

    /** `applyPlayerMeleeAttack`: the melee attributes are read, then every
        enemy in reach is struck, and `damageDone` grows by the melee damage
        once per enemy hit. */
    method MeleeAttack(math: HostMath)
      requires Valid()
      modifies this`enemies, this`manager, player.attrs.Values
      ensures Valid() && player.Lists() == old(player.Lists())
      ensures Now() == Hit(old(Now()), MeleeOf(player.Current(), player.Lists(), math))
      ensures var m := MeleeOf(player.Current(), player.Lists(), math);
        && enemies == StrikeAll(old(enemies), m)
        && manager == old(manager).(damageDone := old(manager.damageDone) + Scaled(m.damage, |Where(old(enemies), Hits(m))|))
    {
      ghost var w := Now();
      var angle, reach, damage := player.MeleeStats();
      assert Now() == w;
      var m := Melee(player.x, player.y, player.meleeDirection, angle, reach, damage, math);
      StrikeEnemies(m);
    }

    /** The loop of `applyPlayerMeleeAttack`: every enemy in reach is struck
        (see `Strike`) and adds the melee damage to `damageDone`. */
    method StrikeEnemies(m: Melee)
      modifies this`enemies, this`manager
      ensures Now() == Hit(old(Now()), m)
      ensures enemies == StrikeAll(old(enemies), m)
      ensures manager == old(manager).(damageDone := old(manager.damageDone) + DamageDealt(old(enemies), m))
    {
      ghost var w := Now();
      var es := enemies;
      var index := 0;
      while index < |es|
        invariant index <= |es| && |enemies| == |es|
        invariant forall j :: 0 <= j < index ==> enemies[j] == Strike(es[j], m)
        invariant forall j :: index <= j < |es| ==> enemies[j] == es[j]
        invariant manager == old(manager).(damageDone := old(manager.damageDone) + DamageDealt(es[..index], m))
      {
        HitTallyStep(es, index, m);
        StrikeTurn(index, m);
        index := index + 1;
      }
      assert es[..|es|] == es;
      assert enemies == StrikeAll(es, m);
      DamagePerHit(es, m);
      assert manager == Hit(w, m).manager;
    }

    /** One pass of the loop body of `applyPlayerMeleeAttack`, on the enemy at
        `index`. */
    method StrikeTurn(index: nat, m: Melee)
      requires index < |enemies|
      modifies this`enemies, this`manager
      ensures var e := old(enemies[index]);
        && enemies == old(enemies)[index := Strike(e, m)]
        && manager == old(manager).(damageDone := old(manager.damageDone) + if InReach(e, m) then m.damage else 0.0)
    {
      var enemy := enemies[index];
      if InReach(enemy, m) {
        enemies := enemies[index := Strike(enemy, m)];
        manager := manager.(damageDone := manager.damageDone + m.damage);
      }
    }

    /** The start of `playerTick`: the player moves along the held direction
        at the `speed` value (at the current level) times `deltaTime`, and
        aims from the screen centre toward the pointer. */
    method MovePlayer(dt: real, math: HostMath)
      requires Valid()
      modifies player`x, player`y, player`meleeDirection, player.attrs.Values
      ensures Valid() && player.Lists() == old(player.Lists())
      ensures Now() == Moved(old(Now()), input, player.Lists(), dt, math)
      ensures var v := Movement(input.held, player.Stat(Speed), dt, math);
        player.x == old(player.x) + v.0 && player.y == old(player.y) + v.1
      ensures player.meleeDirection == math.atan2(input.targetY - ScreenCenter, input.targetX - ScreenCenter)
    {
      var speed := player.ReadAttr(Speed);
      var v := Movement(input.held, speed, dt, math);
      var aim := math.atan2(input.targetY - ScreenCenter, input.targetX - ScreenCenter);
      player.Place(player.x + v.0, player.y + v.1, aim);
    }

    /** The melee timer of `playerTick`: while it runs it counts down;
        once it has run out the melee strikes and the timer restarts (see
        `StrikeAndRestart`). */
    method MeleeTimer(dt: real, math: HostMath)
      requires Valid()
      modifies player`meleeTick, this`enemies, this`manager, player.attrs.Values
      ensures Valid() && player.Lists() == old(player.Lists())
      ensures Now() == MeleePhase(old(Now()), player.Lists(), dt, math)
      ensures old(player.meleeTick) > 0.0 ==>
        && player.meleeTick == old(player.meleeTick) - dt
        && enemies == old(enemies) && manager == old(manager)
      ensures old(player.meleeTick) <= 0.0 ==>
        var m := MeleeOf(player.Current(), player.Lists(), math);
        && enemies == StrikeAll(old(enemies), m)
        && manager == old(manager).(damageDone := old(manager.damageDone) + Scaled(m.damage, |Where(old(enemies), Hits(m))|))
        && player.meleeTick == player.Stat(MeleeTimeout)
    {
      if player.meleeTick > 0.0 {
        player.meleeTick := player.meleeTick - dt;
      } else {
        StrikeAndRestart(math);
      }
    }

    /** The melee strikes, then the timer restarts from the `meleeTimeout`
        value. */
    method StrikeAndRestart(math: HostMath)
      requires Valid()
      modifies player`meleeTick, this`enemies, this`manager, player.attrs.Values
      ensures Valid() && player.Lists() == old(player.Lists())
      ensures Now() == Struck(old(Now()), player.Lists(), math)
      ensures var m := MeleeOf(player.Current(), player.Lists(), math);
        && enemies == StrikeAll(old(enemies), m)
        && manager == old(manager).(damageDone := old(manager.damageDone) + Scaled(m.damage, |Where(old(enemies), Hits(m))|))
        && player.meleeTick == player.Stat(MeleeTimeout)
    {
      ghost var w := Now();
      ghost var lists := player.Lists();
      MeleeAttack(math);
      ghost var h := Now();
      player.RestartMelee();
      assert h == Hit(w, MeleeOf(w.body, lists, math));
      assert Now() == h.(body := h.body.(meleeTick := ValueAt(lists, MeleeTimeout, w.body.level)));
    }

    /** The level-up of `playerTick`, at most one per tick: the level goes up,
        the threshold is paid and raised by 10, the game stops to pick an
        upgrade, the offers are drawn (see `OfferUpgrades`; the cursor is not
        reset), and the player heals 5. */
    method LevelUp(rnd: Random) returns (rest: Random)
      requires Valid() && rnd.Valid()
      modifies player`level, player`experience, player`nextLevelExperience, player`health, this`manager
      modifies player.attrs.Values
      ensures Valid() && player.Lists() == old(player.Lists()) && rest.Valid() && rest.draw == rnd.draw
      ensures (Now(), rest) == Leveled(old(Now()), player.Lists(), player.upgrades, rnd)
      ensures old(player.experience) >= old(player.nextLevelExperience) ==>
        |manager.upgrades| <= 3 && Distinct(manager.upgrades)
    {
      rest := rnd;
      if player.experience >= player.nextLevelExperience {
        rest := LevelUpNow(rnd);
      }
    }

    /** The body of the level-up, once the threshold is reached. */
    method LevelUpNow(rnd: Random) returns (rest: Random)
      requires Valid() && rnd.Valid() && player.experience >= player.nextLevelExperience
      modifies player`level, player`experience, player`nextLevelExperience, player`health, this`manager
      modifies player.attrs.Values
      ensures Valid() && player.Lists() == old(player.Lists()) && rest.Valid() && rest.draw == rnd.draw
      ensures (Now(), rest) == Leveled(old(Now()), player.Lists(), player.upgrades, rnd)
      ensures |manager.upgrades| <= 3 && Distinct(manager.upgrades)
    {
      ghost var w := Now();
      ghost var p := Promoted(w);
      player.Promote();
      assert Now() == p;
      rest := OfferAndHeal(rnd);
      assert (Now(), rest) == OfferedAndHealed(p, ViewOf(p.body, player.Lists(), player.upgrades), rnd);
    }

    /** The rest of the level-up once the level has gone up: the game stops on
        the offers drawn for the player as it stands, then the player heals 5. */
    method OfferAndHeal(rnd: Random) returns (rest: Random)
      requires Valid() && rnd.Valid()
      modifies player`health, this`manager, player.attrs.Values
      ensures Valid() && player.Lists() == old(player.Lists()) && rest.Valid() && rest.draw == rnd.draw
      ensures (Now(), rest) == OfferedAndHealed(old(Now()), ViewOf(old(player.Current()), player.Lists(), player.upgrades), rnd)
      ensures |manager.upgrades| <= 3 && Distinct(manager.upgrades)
    {
      var v := player.View();
      rest := StopAndHeal(v, rnd);
    }

    /** The offers drawn for the view `v` of the player, then the heal. */
    method StopAndHeal(v: PlayerView, rnd: Random) returns (rest: Random)
      requires rnd.Valid()
      modifies player`health, this`manager
      ensures player.Lists() == old(player.Lists())
      ensures (Now(), rest) == OfferedAndHealed(old(Now()), v, rnd)
      ensures |manager.upgrades| <= 3 && Distinct(manager.upgrades)
      ensures forall k :: 0 <= k < |manager.upgrades| ==> manager.upgrades[k] < |Upgrades| && Eligible(manager.upgrades[k], v)
    {
      rest := OfferUpgrades(v, rnd);
      player.Heal(5.0);
    }

    /** `manager.state = PICKING_UPGRADE` and `manager.upgrades =
        shuffleArray(...).slice(0, 3)`: the offers are drawn from the upgrades
        eligible for the view `v` of the player. */
    method OfferUpgrades(v: PlayerView, rnd: Random) returns (rest: Random)
      requires rnd.Valid()
      modifies this`manager
      ensures manager == old(manager).(state := PickingUpgrade, upgrades := Offers(v, rnd))
      ensures rest.Valid() && rest == rnd.(calls := rnd.calls + |Available(v)|)
      ensures |manager.upgrades| <= 3 && Distinct(manager.upgrades)
      ensures forall k :: 0 <= k < |manager.upgrades| ==> manager.upgrades[k] < |Upgrades| && Eligible(manager.upgrades[k], v)
    {
      var offers;
      offers, rest := DrawOffers(v, rnd);
      manager := manager.(state := PickingUpgrade, upgrades := offers);
    }

    /** The end of `playerTick`: both flash timers count down, and the health
        regenerates by the `healthRegen` value times `deltaTime`, capped at the
        `health` value (see `Regenerated`). */
    method Recover(dt: real)
      requires Valid()
      modifies player`lastDamagedTick, player`lastPickupTick, player`health, player.attrs.Values
      ensures Valid() && player.Lists() == old(player.Lists())
      ensures Now() == Recovered(old(Now()), player.Lists(), dt)
      ensures player.lastDamagedTick == CountDown(old(player.lastDamagedTick), dt)
      ensures player.lastPickupTick == CountDown(old(player.lastPickupTick), dt)
      ensures player.health == Regenerated(old(player.health), player.Stat(Health), player.Stat(HealthRegen), dt)
    {
      var maxHealth, regen := player.RegenStats();
      player.Settle(CountDown(player.lastDamagedTick, dt), CountDown(player.lastPickupTick, dt),
        Regenerated(player.health, maxHealth, regen, dt));
    }

    /** `playerTick`: move and aim and the melee timer (`MoveAndStrike`),
        then the level-up, the timers and regeneration (`LevelAndRecover`). */
    method PlayerTick(dt: real, rnd: Random, math: HostMath) returns (rest: Random)
      requires Valid() && rnd.Valid()
      modifies player`x, player`y, player`meleeDirection, player`meleeTick, player`level, player`experience
      modifies player`nextLevelExperience, player`health, player`lastDamagedTick, player`lastPickupTick
      modifies this`enemies, this`manager, player.attrs.Values
      ensures Valid() && player.Lists() == old(player.Lists()) && rest.Valid() && rest.draw == rnd.draw
      ensures player.health <= player.Stat(Health)
      ensures |enemies| == |old(enemies)|
      ensures old(player.experience) >= old(player.nextLevelExperience) ==>
        && player.level == old(player.level) + 1 && manager.state == PickingUpgrade
        && |manager.upgrades| <= 3 && Distinct(manager.upgrades)
      ensures old(player.experience) < old(player.nextLevelExperience) ==>
        && player.level == old(player.level) && manager.state == old(manager.state)
        && manager.upgrades == old(manager.upgrades) && rest == rnd
      ensures manager.runtime == old(manager.runtime) && manager.kills == old(manager.kills)
      ensures (Now(), rest) == PlayerPhase(old(Now()), input, player.Lists(), player.upgrades, dt, rnd, math)
    {
      ghost var w := Now();
      ghost var lists := player.Lists();
      MoveAndStrike(dt, math);
      assert Now() == MovedAndStruck(w, input, lists, dt, math);
      rest := LevelAndRecover(dt, rnd);
    }

    /** The first half of `playerTick`: the move, the aim and the melee timer;
        of the manager only `damageDone` changes. */
    method MoveAndStrike(dt: real, math: HostMath)
      requires Valid()
      modifies player`x, player`y, player`meleeDirection, player`meleeTick, this`enemies, this`manager
      modifies player.attrs.Values
      ensures Valid() && player.Lists() == old(player.Lists())
      ensures Now() == MovedAndStruck(old(Now()), input, player.Lists(), dt, math)
      ensures |enemies| == |old(enemies)|
      ensures manager == old(manager).(damageDone := manager.damageDone)
    {
      ghost var w := Now();
      ghost var lists := player.Lists();
      MovePlayer(dt, math);
      assert Now() == Moved(w, input, lists, dt, math);
      MeleeTimer(dt, math);
    }

    /** The second half of `playerTick`: the level-up, then the timers and
        regeneration, which leave health at most the `health` value. */
    method LevelAndRecover(dt: real, rnd: Random) returns (rest: Random)
      requires Valid() && rnd.Valid()
      modifies player`level, player`experience, player`nextLevelExperience, player`health
      modifies player`lastDamagedTick, player`lastPickupTick, this`manager, player.attrs.Values
      ensures Valid() && player.Lists() == old(player.Lists()) && rest.Valid() && rest.draw == rnd.draw
      ensures player.health <= player.Stat(Health)
      ensures old(player.experience) >= old(player.nextLevelExperience) ==>
        && player.level == old(player.level) + 1
        && manager == old(manager).(state := PickingUpgrade, upgrades := manager.upgrades)
        && |manager.upgrades| <= 3 && Distinct(manager.upgrades)
      ensures old(player.experience) < old(player.nextLevelExperience) ==>
        player.level == old(player.level) && manager == old(manager) && rest == rnd
      ensures (Now(), rest) == LeveledAndRecovered(old(Now()), player.Lists(), player.upgrades, dt, rnd)
    {
      ghost var w := Now();
      ghost var lists := player.Lists();
      rest := LevelUp(rnd);
      ghost var l := Now();
      assert (l, rest) == Leveled(w, lists, player.upgrades, rnd);
      Recover(dt);
    }

    /** `gameLogicTick`: the manager ticks in every state; a tick that began
        RUNNING also runs the enemies, the pickups and the player (even when
        the manager just paused or died); then the just-pressed flags are
        cleared, unless the manager threw. */
    method GameLogicTick(dt: real, rnd: Random, math: HostMath) returns (rest: Random, crashed: bool)
      requires Valid() && rnd.Valid()
      modifies this`manager, this`player, this`enemies, this`pickups, this`justPressed
      modifies player`x, player`y, player`meleeDirection, player`meleeTick, player`level, player`experience
      modifies player`nextLevelExperience, player`health, player`lastDamagedTick, player`lastPickupTick
      modifies player`upgrades, player.attrs.Values
      ensures Valid() && rest.Valid() && rest.draw == rnd.draw
      ensures crashed ==> old(manager.state) == PickingUpgrade
      ensures justPressed == if crashed then old(justPressed) else Released
      ensures old(manager.state) == Running ==>
        && (Now(), rest) == RunningFrame(old(Now()), old(justPressed.pause), input, player.Lists(), player.upgrades, dt, rnd, math)
        && player == old(player) && player.Lists() == old(player.Lists()) && !crashed
        && player.health <= player.Stat(Health)
      ensures old(manager.state) != Running ==>
        rest == rnd && Stopped(old(Now()), old(justPressed), old(player), old(player.upgrades), old(player.Lists()), crashed)
      ensures old(manager.state) == Dead && input.held.enter ==>
        fresh(player) && forall n: AttrName :: fresh(player.attrs[n])
    {
      if manager.state == Running {
        rest := RunningLogicTick(dt, rnd, math);
        crashed := false;
      } else {
        rest := rnd;
        crashed := MenuLogicTick();
      }
    }

    /** `gameLogicTick` in a tick that began RUNNING: `managerTick` (its
        RUNNING case), then `enemiesTick`, `pickupsTick` and `playerTick`
        whatever state the manager left, then `inputTick`. */
    method RunningLogicTick(dt: real, rnd: Random, math: HostMath) returns (rest: Random)
      requires Valid() && rnd.Valid() && manager.state == Running
      modifies this`manager, this`enemies, this`pickups, this`justPressed
      modifies player`x, player`y, player`meleeDirection, player`meleeTick, player`level, player`experience
      modifies player`nextLevelExperience, player`health, player`lastDamagedTick, player`lastPickupTick
      modifies player.attrs.Values
      ensures Valid() && rest.Valid() && rest.draw == rnd.draw && justPressed == Released
      ensures (Now(), rest) == RunningFrame(old(Now()), old(justPressed.pause), input, player.Lists(), player.upgrades, dt, rnd, math)
      ensures player.Lists() == old(player.Lists())
      ensures player.health <= player.Stat(Health)
    {
      rest := FrameTick(dt, rnd, math);
      ghost var w2 := Now();
      ghost var l2 := player.Lists();
      InputTick();
      assert Now() == w2 && player.Lists() == l2;
    }

    /** A tick that began RUNNING, up to `inputTick`. */
    method FrameTick(dt: real, rnd: Random, math: HostMath) returns (rest: Random)
      requires Valid() && rnd.Valid() && manager.state == Running
      modifies this`manager, this`enemies, this`pickups
      modifies player`x, player`y, player`meleeDirection, player`meleeTick, player`level, player`experience
      modifies player`nextLevelExperience, player`health, player`lastDamagedTick, player`lastPickupTick
      modifies player.attrs.Values
      ensures Valid() && rest.Valid() && rest.draw == rnd.draw
      ensures (Now(), rest) == RunningFrame(old(Now()), justPressed.pause, input, player.Lists(), player.upgrades, dt, rnd, math)
      ensures player.Lists() == old(player.Lists())
      ensures player.health <= player.Stat(Health)
    {
      ghost var w := Now();
      ghost var lists := player.Lists();
      rest := RunningTick(dt, rnd, math);
      ghost var managed := Now();
      ghost var from := rest;
      assert player.Lists() == lists;
      rest := WorldTick(dt, rest, math);
      assert (Now(), rest) == WorldPhase(managed, input, lists, player.upgrades, dt, from, math);
    }

    /** `gameLogicTick` in a tick that began in DEAD, PICKING_UPGRADE or
        PAUSED: `managerTick`, then `inputTick` unless it threw. */
    method MenuLogicTick() returns (crashed: bool)
      requires Valid() && manager.state != Running
      modifies this`manager, this`player, this`enemies, this`pickups, this`justPressed
      modifies player`upgrades, player`health, player.attrs.Values
      ensures Valid() && justPressed == if crashed then old(justPressed) else Released
      ensures Stopped(old(Now()), old(justPressed), old(player), old(player.upgrades), old(player.Lists()), crashed)
      ensures old(manager.state) == Dead && input.held.enter ==>
        fresh(player) && forall n: AttrName :: fresh(player.attrs[n])
    {
      crashed := MenuTick();
      if !crashed {
        InputTick();
      }
    }

    /** The rest of a tick that began RUNNING: `enemiesTick`, `pickupsTick`,
        `playerTick`. */
    method WorldTick(dt: real, rnd: Random, math: HostMath) returns (rest: Random)
      requires Valid() && rnd.Valid()
      modifies this`enemies, this`pickups, this`manager
      modifies player`x, player`y, player`meleeDirection, player`meleeTick, player`level, player`experience
      modifies player`nextLevelExperience, player`health, player`lastDamagedTick, player`lastPickupTick
      modifies player.attrs.Values
      ensures Valid() && player.Lists() == old(player.Lists()) && rest.Valid() && rest.draw == rnd.draw
      ensures player.health <= player.Stat(Health)
      ensures manager.runtime == old(manager.runtime)
      ensures (Now(), rest) == WorldPhase(old(Now()), input, player.Lists(), player.upgrades, dt, rnd, math)
    {
      ghost var w := Now();
      ghost var lists := player.Lists();
      PoolsTick(dt, math);
      assert Now() == PoolsPhase(w, lists, dt, math);
      rest := PlayerTick(dt, rnd, math);
    }

    /** `enemiesTick`, then `pickupsTick`; the run time stays. */
    method PoolsTick(dt: real, math: HostMath)
      requires Valid()
      modifies this`enemies, this`pickups, this`manager
      modifies player`health, player`experience, player`lastDamagedTick, player`lastPickupTick, player.attrs.Values
      ensures Valid() && player.Lists() == old(player.Lists())
      ensures Now() == PoolsPhase(old(Now()), player.Lists(), dt, math)
      ensures manager.runtime == old(manager.runtime)
    {
      ghost var w := Now();
      EnemiesTick(dt, math);
      assert Now() == EnemiesPhase(w, dt, math);
      PickupsTick(dt, math);
    }
  }
}
