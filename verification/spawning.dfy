/** The enemy types (`enemyTypes`), the spawn schedule (`spawnRates`) and how
    the run time selects the active period of that schedule. */
module Spawning {
  import opened Host

  /** An index into `EnemyTypes`. */
  type EnemyKind = k: nat | k < 4

  datatype EnemyType = EnemyType(health: real, speed: real, damage: real, damageTick: real, boss: bool, experience: real)

  const EnemyTypes: seq<EnemyType> := [
    EnemyType(10.0, 20.0, 1.0, 1.0, false, 1.0),  // square
    EnemyType(20.0, 21.0, 2.0, 1.0, false, 2.0),  // triangle
    EnemyType(500.0, 20.0, 10.0, 1.0, true, 20.0),  // square boss
    EnemyType(25.0, 25.0, 1.0, 1.0, false, 3.0)  // circle
  ]

  /** A period of the schedule: from which run time it applies, the types it
      draws from, the spawn interval, and its boss type, where 0 (like an
      absent `boss`) is falsy and spawns nothing. */
  datatype SpawnRate = SpawnRate(from: real, types: seq<EnemyKind>, rate: real, boss: nat)

  const SpawnRates: seq<SpawnRate> := [
    SpawnRate(0.0, [0], 1.0, 0),
    SpawnRate(30.0, [1, 0], 1.0, 0),
    SpawnRate(40.0, [1, 0], 0.5, 0),
    SpawnRate(60.0, [1], 0.5, 2),
    SpawnRate(90.0, [1, 3], 0.7, 0),
    SpawnRate(120.0, [1, 3], 0.5, 0)
  ]

  /** The schedule's periods start in increasing order, every period draws from
      at least one type, only the period at index 3 has a boss, and the boss
      type is never drawn as a regular spawn. */
  lemma ScheduleShape()
    ensures |SpawnRates| == 6 && |EnemyTypes| == 4
    ensures forall i, j :: 0 <= i < j < |SpawnRates| ==> SpawnRates[i].from < SpawnRates[j].from
    ensures forall i :: 0 <= i < |SpawnRates| ==> |SpawnRates[i].types| > 0
    ensures forall i :: 0 <= i < |SpawnRates| ==> (SpawnRates[i].boss != 0 <==> i == 3)
    ensures forall i :: 0 <= i < |SpawnRates| ==> SpawnRates[i].boss < |EnemyTypes| && 2 !in SpawnRates[i].types
    ensures SpawnRates[3].boss == 2 && EnemyTypes[2].boss
  {
  }

  /** `rates.findIndex((rate) => rate.from > runtime)`, searching from `start`:
      the first such index, or -1 when there is none. */
  function FindIndexFrom(rates: seq<SpawnRate>, runtime: real, start: nat): (r: int)
    requires start <= |rates|
    ensures r == -1 || start <= r < |rates|
    ensures r == -1 ==> forall i :: start <= i < |rates| ==> rates[i].from <= runtime
    ensures r != -1 ==> rates[r].from > runtime && forall i :: start <= i < r ==> rates[i].from <= runtime
    decreases |rates| - start
  {
    if start == |rates| then -1
    else if rates[start].from > runtime then start
    else FindIndexFrom(rates, runtime, start + 1)
  }

  /** `spawnRates.findIndex((rate) => rate.from > manager.runtime) - 1`: the
      index the manager compares with `lastSpawnRate`. It is -1 before the
      first period starts and -2 once the last one has started. */
  function SpawnRateIndex(runtime: real): int {
    FindIndexFrom(SpawnRates, runtime, 0) - 1
  }

  /** The entry the manager uses for an index: a negative index falls back to
      the last entry. */
  function UsedEntry(index: int): nat
    requires index < |SpawnRates|
  {
    if index < 0 then |SpawnRates| - 1 else index
  }

  function ActiveRate(runtime: real): SpawnRate {
    SpawnRates[UsedEntry(SpawnRateIndex(runtime))]
  }

  /** The entry in force is the last one whose start the run time has reached;
      once the final entry has started, it stays in force. (Before the first
      start, which a non-negative run time never is, the final entry is used
      too.) */
  lemma ActiveIsLatestStarted(runtime: real)
    ensures SpawnRateIndex(runtime) < |SpawnRates| - 1
    ensures var k := UsedEntry(SpawnRateIndex(runtime));
      && (runtime >= SpawnRates[0].from ==>
            SpawnRates[k].from <= runtime
            && forall i :: k < i < |SpawnRates| ==> SpawnRates[i].from > runtime)
      && (runtime < SpawnRates[0].from ==> k == |SpawnRates| - 1)
  {
    ScheduleShape();
  }

  /** Orders the indices along the run: -1 (not started) first, then 0 to 4,
      then -2 (the final entry). */
  function Stage(index: int): int {
    if index == -2 then |SpawnRates| else index
  }

  /** A later run time never selects an earlier stage. */
  lemma StageMonotone(r1: real, r2: real)
    requires r1 <= r2
    ensures Stage(SpawnRateIndex(r1)) <= Stage(SpawnRateIndex(r2))
  {
    ScheduleShape();
    var f1 := FindIndexFrom(SpawnRates, r1, 0);
    var f2 := FindIndexFrom(SpawnRates, r2, 0);
    if f2 != -1 {
      assert SpawnRates[f2].from > r1;
      assert f1 != -1 && f1 <= f2;
    }
  }

  /** How many bosses a run spawns over ticks with run times `runtimes`,
      starting from `lastSpawnRate == last`: a tick spawns the boss of its
      entry when its index differs from the last one seen, and then records
      its index. */
  function BossSpawns(runtimes: seq<real>, last: int): nat {
    if |runtimes| == 0 then 0
    else
      var index := SpawnRateIndex(runtimes[0]);
      (if index != last && SpawnRates[UsedEntry(index)].boss != 0 then 1 else 0)
      + BossSpawns(runtimes[1..], index)
  }

  predicate NonDecreasing(s: seq<real>) {
    forall i, j :: 0 <= i < j < |s| ==> s[i] <= s[j]
  }

  /** Once the boss period has been recorded, no later tick spawns a boss. */
  lemma {:induction false} NoBossAfterBossPeriod(runtimes: seq<real>, seen: real)
    requires NonDecreasing(runtimes)
    requires forall i :: 0 <= i < |runtimes| ==> seen <= runtimes[i]
    requires Stage(SpawnRateIndex(seen)) >= 3
    ensures BossSpawns(runtimes, SpawnRateIndex(seen)) == 0
    decreases |runtimes|
  {
    ScheduleShape();
    if |runtimes| != 0 {
      StageMonotone(seen, runtimes[0]);
      NoBossAfterBossPeriod(runtimes[1..], runtimes[0]);
    }
  }

  /** Over a run whose clock never goes back, the boss spawns at most once:
      `lastSpawnRate` makes each entry's boss spawn only on the tick that
      enters it, and a period once left is never entered again. */
  lemma {:induction false} BossAtMostOnce(runtimes: seq<real>, last: int)
    requires NonDecreasing(runtimes)
    ensures BossSpawns(runtimes, last) <= 1
    decreases |runtimes|
  {
    ScheduleShape();
    if |runtimes| != 0 {
      var index := SpawnRateIndex(runtimes[0]);
      if index != last && SpawnRates[UsedEntry(index)].boss != 0 {
        NoBossAfterBossPeriod(runtimes[1..], runtimes[0]);
      } else {
        BossAtMostOnce(runtimes[1..], index);
      }
    }
  }

  /** `pickRandom(a)`: `a[Math.round(Math.random() * (a.length - 1))]`, one of
      the entries of `a`. */
  function PickRandom(types: seq<EnemyKind>, r: real): (k: EnemyKind)
    requires |types| > 0 && 0.0 <= r < 1.0
    ensures k in types
  {
    RoundOfScaledDraw(r, |types|);
    types[Round(r * (|types| - 1) as real)]
  }
}
