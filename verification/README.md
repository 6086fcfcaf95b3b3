# micro-survivors simulation core, in Dafny

A model of the game logic of micro-survivors (`main.js`), a small arena
survival game: the player moves around, a melee cone strikes enemies on a
timer, dead enemies leave experience pickups, and each level-up offers up to
three upgrades drawn from a catalog. The model covers everything a frame
does except drawing:

- `attributes.dfy` (module `Attributes`): `createAttribute`. A stat's value is
  the left fold of its "base" contributors from 0 times the left fold of its
  "multiplier" contributors from 1. The contributors `baseAttr`,
  `multiplyAttr`, `baseIncreaseWithLevel` and `baseValue` are a datatype. The
  attribute is a class whose `push` installs a longer list and whose `value`
  getter keeps a memo (`$cached`).
- `catalog.dfy` (module `Catalog`): the 13 upgrades, the eligibility filter
  (`condition`, `maxCount`), the in-place Fisher-Yates `shuffleArray` on an
  array, and the three offers of a level-up.
- `spawning.dfy` (module `Spawning`): `enemyTypes`, `spawnRates`, the period
  lookup `findIndex(...) - 1` with its fallback to the last entry, the boss
  bookkeeping through `lastSpawnRate`, and `pickRandom`.
- `player.dfy` (module `Players`): `createPlayer`, as a class whose eight
  attributes are `Attribute` objects, and what an upgrade's `apply` does to it.
- `entities.dfy` (module `Entities`): one enemy's turn in `enemiesTick`, one
  pickup's turn in `pickupsTick`, one enemy under `applyPlayerMeleeAttack`,
  and what a whole tick does to a pool, stated on the pool as it was before.
- `sequences.dfy` (module `Sequences`): the positions a tick loop collects,
  and the removal loop `splice(index - offset, 1)` that compacts a pool.
- `game.dfy` (module `Simulation`): the global state as a class `Game`
  (`manager`, `player`, `enemies`, `pickups`, `input`, `justPressedInput`)
  and the frame functions `gameLogicTick`, `managerTick` (RUNNING, DEAD,
  PICKING_UPGRADE, PAUSED), `enemiesTick`, `pickupsTick`, `playerTick`,
  `applyPlayerMeleeAttack`, `inputTick`, `processKeyEvent` and the pointer
  listener. Each is a method that updates the fields in place, as the source
  does. Beside them, a value `World` (the manager, both pools and the
  player's numbers) and one pure function per phase of a RUNNING frame
  (`Managed`, `EnemiesPhase`, `PickupsPhase`, `Moved`, `MeleePhase`,
  `Leveled`, `Recovered`, composed into `PlayerPhase`, `WorldPhase` and
  `RunningFrame`), plus `MenuStep` for the other three states. Every tick
  method, the composing ones included, ensures that the new state (`Now()`)
  is its phase function applied to the old state, and the lemmas state what
  those functions do: which state a frame ends in, the survivors, the
  drops, the offers, the timers.
- `host.dfy` (module `Host`): what the game takes from the browser.
  `Math.random` is a stream of draws in [0, 1) that the methods thread
  through. `Math.sqrt` of a sum of squares, `Math.atan2`, `Math.cos` and
  `Math.sin` are uninterpreted functions passed in as parameters. `Math.floor`
  and `Math.round` are modelled exactly.

The quirks of the source are kept as written:
- contact damage subtracts the enemy type's `health`, not its `damage`;
- `spawnEnemy` never sets `boss`, so even the boss can despawn;
- the upgrade cursor is not reset by a new level-up;
- pause is checked before death;
- a RUNNING tick still runs the pools and the player after `managerTick` has
  switched state;
- DEAD reacts to the held enter key rather than the just-pressed flag;
- `baseValue` discards the NaN that the missing `healthRegen` entry of the
  player type produces.

Enter on an empty offer list (the source throws) is an explicit `crashed`
result.

Numbers are Dafny `real`. An attribute value is `Num`, a real or NaN, because
the player type's missing `healthRegen` entry makes the fold NaN until
`baseValue` overrides it. `Player.Valid` keeps every attribute a real at every
level, so the stats the game uses are reals.

## Model

| member | source | states |
|---|---|---|
| Host.FloorOfScaledDraw | main.js:28 | `Math.floor(Math.random() * n)` is a valid index below `n` |
| Host.RoundOfScaledDraw | main.js:771 | `Math.round(Math.random() * (n - 1))` is a valid index below `n` |
| Sequences.Where | main.js:673-691 | the positions a tick loop pushes, walking with `index++`: strictly increasing, each in range and satisfying the test, and none that passes the test is missed |
| Sequences.Kept | main.js:749-753 | the positions a removal spares: strictly increasing, exactly those in range that `rm` does not list |
| Sequences.WithoutKept | main.js:749-753 | removing the listed positions leaves exactly the unlisted elements, in their original order |
| Sequences.RemoveIndices | main.js:749-753 | the splice loop with a running `offset` removes exactly the listed positions (given ascending, in-range positions) and shortens the pool by their number |
| Sequences.DistinctCounts | main.js:933 | a sequence has no repeated element iff every element occurs at most once in its multiset (used to carry distinctness through the shuffle) |
| Attributes.PlayerTypeEntry | main.js:54-64 | definition: the player type's entry for an attribute, NaN for `healthRegen`, which the type lacks (used by `StartingValues`) |
| Attributes.Apply | main.js:192-229 | definition: one contributor applied to the running value: the player-type entry (line 194), `baseAttr` and `multiplyAttr` (lines 67-70), `baseIncreaseWithLevel` and `baseValue` (lines 226-229); its effect is stated by `PushEffect` and `OverrideDiscards` |
| Attributes.Fold | main.js:211-213 | definition: `reduce` over a contributor list from a start value; split by `FoldSnoc` and `FoldConcat` |
| Attributes.Compute | main.js:211-213 | definition: the getter's value, the base fold from 0 times the multiplier fold from 1; `Attribute.Value` is proved to return it |
| Attributes.FoldSnoc | main.js:187-189 | pushing a contributor applies it after all earlier ones in the fold |
| Attributes.FoldConcat | main.js:211-213 | folding a concatenation is folding the second part from the result of the first |
| Attributes.OverrideDiscards | main.js:229 | a `baseValue` contributor discards everything before it, a NaN included, and the fold restarts from its constant |
| Attributes.PushEffect | main.js:67-70 | the value is the base fold times the multiplier fold; `baseAttr(c)` adds `c` times the multiplier product, `multiplyAttr(k)` scales the value by `k` |
| Attributes.StartingValues | main.js:249-256 | each attribute of a fresh player at level L: the player type's entry plus L times its per-level growth; `healthRegen` is 0.1 at every level |
| Attributes.Attribute.constructor | main.js:181-201 | the base list starts with the player-type contributor followed by the given ones, the multiplier list is the given one, and there is no memo |
| Attributes.Attribute.Push | main.js:187-189 | the named list grows by the contributor at its end and the other list is untouched; no memo matches any more; a finite attribute stays finite |
| Attributes.Attribute.Value | main.js:202-223 | the getter always returns the base fold from 0 times the multiplier fold from 1; a matching memo is returned and left as it was; afterwards the memo matches the current lists and level and holds the returned value |
| Catalog.CatalogEffects | main.js:72-174 | 13 upgrades, each with `maxCount` 5; every pushed contributor adds a constant to the base list or multiplies in the multiplier list |
| Catalog.ConditionHolds | main.js:916-919 | definition: an upgrade's `condition`: none, `health` below the `health` value, or `hasMelee` (line 65) |
| Catalog.Applications | main.js:923 | `player.upgrades.filter((u) => u === i).length` is the multiplicity of `i` in the applied upgrades |
| Catalog.Eligible | main.js:916-929 | definition: the filter's test, the condition passes and a truthy `maxCount` is not reached; characterised by `AvailableBelow` and `MaxCountEnforced` |
| Catalog.AvailableBelow | main.js:914-930 | the filter keeps exactly the eligible catalog indices (condition holds, below `maxCount`), in increasing order |
| Catalog.MaxCountEnforced | main.js:921-927 | an upgrade applied `maxCount` times is never offered again |
| Catalog.SwapIndex | main.js:28 | each swap partner `j` of position `i` lies in `[0, i]` |
| Catalog.ShuffleSteps | main.js:26-32 | definition: the swaps of `shuffleArray` from position `k - 1` down to 0, one draw each; a permutation by `ShuffleStepsPermutes` |
| Catalog.Shuffled | main.js:26-32 | definition: `shuffleArray` on a whole sequence; `ShuffleArray` is proved to compute it in place |
| Catalog.ShuffleStepsPermutes | main.js:26-32 | the shuffle keeps the length and the multiset of elements |
| Catalog.ShuffleArray | main.js:26-32 | the in-place loop from the last position down to 0 leaves the array a permutation of its input, equal to the specified shuffle, using one draw per element |
| Catalog.TakeThree | main.js:933 | definition: `slice(0, 3)` |
| Catalog.Offers | main.js:913-933 | definition: the eligible indices, shuffled, cut to three; its properties are `OffersAreEligible` |
| Catalog.OffersAreEligible | main.js:914-933 | a level-up offers at most three upgrades, three or all eligible ones if fewer, none twice, each eligible |
| Spawning.ScheduleShape | main.js:340-387 | the schedule's periods start in increasing order, each draws from at least one type, only the fourth has a boss (type 2, a boss type) and no period draws type 2 as a regular spawn |
| Spawning.FindIndexFrom | main.js:788-789 | `findIndex(rate.from > runtime)`: -1 when no period starts later, otherwise the first that does |
| Spawning.SpawnRateIndex | main.js:788-789 | definition: `spawnRateIndex`, the `findIndex` result minus one |
| Spawning.UsedEntry | main.js:790-791 | definition: the entry a negative index falls back to, the last one |
| Spawning.ActiveRate | main.js:788-791 | definition: the spawn rate in force; characterised by `ActiveIsLatestStarted` |
| Spawning.ActiveIsLatestStarted | main.js:788-791 | the entry in force is the last one whose start the run time has reached; the final entry stays in force once started |
| Spawning.StageMonotone | main.js:788-789 | a later run time never selects an earlier period |
| Spawning.BossSpawns | main.js:794-800 | definition: how many bosses a run of ticks at the given run times spawns, with `lastSpawnRate` threaded; bounded by `BossAtMostOnce` |
| Spawning.NoBossAfterBossPeriod | main.js:794-800 | once the boss period's index has been recorded in `lastSpawnRate`, no later tick of a run spawns a boss |
| Spawning.BossAtMostOnce | main.js:794-800 | over any run whose clock does not go back, the boss spawns at most once |
| Spawning.PickRandom | main.js:771 | `pickRandom` returns an entry of its list |
| Players.StartingFinite | main.js:249-256 | every attribute as `createPlayer` builds it is a number at every level |
| Players.StartingAttribute | main.js:249-256 | one `createAttribute` call of `createPlayer`: a fresh attribute with the starting lists, a valid memo and a number at every level |
| Players.StartingAttributes | main.js:248-257 | `attrs` holds a fresh, distinct attribute for each of the eight names, each as `createPlayer` builds it |
| Players.ValueAt | main.js:202-223 | definition: `player.attrs[n].value` at a level, for given contributor lists; `ReadAttr` and `Attribute.Value` are proved to return it |
| Players.Player.Current | main.js:236-245 | definition: the player's own numbers (position, aim, timers, level, experience, threshold, health) as a `Body` value |
| Players.Player.constructor | main.js:231-261 | `createPlayer()`: at the origin, level 0, no experience, threshold 5, health 100, all timers 0, no upgrades, and every attribute with its starting lists |
| Players.Player.ReadAttr | main.js:202-223 | reading `attrs[n].value` gives the attribute's value at the player's level and changes no list |
| Players.Player.RestartMelee | main.js:904 | the melee timer restarts from the `meleeTimeout` value |
| Players.Player.Promote | main.js:908-910 | one level more; the threshold is paid from the experience and raised by 10 |
| Players.Player.MeleeStats | main.js:992-1013 | the melee reads the `meleeAngle`, `meleeDistance` and `meleeDamage` values at the current level |
| Players.Player.RegenStats | main.js:946-949 | regeneration reads the `health` and `healthRegen` values at the current level |
| Players.Player.View | main.js:66-91 | what the filter reads: current health, the `health` and `meleeDamage` values, the applied upgrades |
| Players.Player.ApplyUpgrade | main.js:67-104 | an upgrade's `apply` pushes its contributor onto one attribute, heals, or both (`Max health`), and nothing else changes |
| Players.Player.TakeUpgrade | main.js:845-846 | `apply(player)` followed by `player.upgrades.push(index)`; of the player's numbers only health changes |
| Players.Player.PushOnto | main.js:67-70 | pushing onto one attribute changes that attribute's list alone, and every attribute stays a number at every level |
| Entities.SpawnedEnemy | main.js:756-768 | definition: the enemy `spawnEnemy` places on the ring round the player from two draws, at full health and without the `boss` flag (see `SpawnedBossDespawns`) |
| Entities.Decay | main.js:734-744 | definition: one tick of knockback decay; characterised by `DecayTowardZero` and `DecayCanOscillate` |
| Entities.DecayTowardZero | main.js:734-744 | knockback at or below 0.1 snaps to 0; above it, it moves by `20 * deltaTime` toward 0, shrinking and keeping its sign when the step is not larger than it |
| Entities.DecayCanOscillate | main.js:734-744 | with a step larger than the knockback it overshoots: 0.2 becomes -0.12 and then 0.2 again at `deltaTime` 0.016 |
| Entities.EnemyStep | main.js:676-747 | one enemy's turn: killed iff out of health; despawned iff alive, not flagged boss and beyond `width * 3`; otherwise it stays with its health and type, and strikes iff its cooldown has run out and it is within 10 |
| Entities.ContactCooldown | main.js:713-719 | an enemy that strikes restarts its cooldown from its type's (positive) `damageTick`, so it cannot strike on the next tick |
| Entities.SpawnedBossDespawns | main.js:706 | a spawned boss-type enemy is not flagged `boss`, so it despawns like any other when too far away |
| Entities.Survivors | main.js:672-754 | definition: the pool after `enemiesTick`, every enemy advanced and the leaving ones spliced out; characterised by `EnemiesTickOutcome` |
| Entities.DropsPerDead | main.js:679-691 | each enemy that starts the tick out of health leaves exactly one experience pickup, at its position and worth its type's experience, in pool order |
| Entities.EnemiesTickOutcome | main.js:672-754 | after `enemiesTick` the pool holds exactly the enemies that neither died nor wandered off, each advanced by its turn, in their original order, and all with health above 0 |
| Entities.PickupStep | main.js:956-981 | one pickup's turn: collected iff within 10; otherwise it keeps its loot, and it only moves when within the `pickupDistance` value |
| Entities.Remaining | main.js:952-989 | definition: the pool after `pickupsTick`, every pickup pulled and the collected ones spliced out; characterised by `PickupsTickOutcome` |
| Entities.PickupsTickOutcome | main.js:952-989 | after `pickupsTick` the pool holds exactly the pickups that were out of contact, each pulled by its turn, with its loot, in their original order |
| Entities.Strike | main.js:996-1021 | an enemy in reach (square, cone, then distance) loses the melee damage, flashes for 0.1 and has only its knockback changed besides; any other enemy is untouched |
| Entities.StrikeAll | main.js:996-1021 | definition: every enemy of the pool under the melee; `StrikeEnemies` is proved to compute it and `DamagePerHit` tallies it |
| Entities.DamagePerHit | main.js:1018 | `damageDone` grows by the melee damage once per enemy hit |
| Simulation.InputMapping | main.js:12-24 | definition: `inputMapping`, the lower-case key names and the control each one drives; used by `ProcessKey` |
| Simulation.WithControl | main.js:41-42 | setting a control's flag changes that control alone |
| Simulation.Direction | main.js:868-882 | definition: the held direction, each axis -1, 0 or 1; characterised by `DirectionCancels` |
| Simulation.MoveCursor | main.js:832-841 | definition: the cursor after the just-pressed up and down; bounded by `CursorBounds` |
| Simulation.CursorBounds | main.js:832-841 | the cursor moves by at most one; a cursor on an offer stays on one; up alone moves it up, down alone moves it down when there is room |
| Simulation.Spawn | main.js:756-768 | `spawnEnemy` draws `Math.random` twice |
| Simulation.SpawnStep | main.js:788-809 | the spawning part of a RUNNING tick leaves a valid draw stream |
| Simulation.SpawnStepFacts | main.js:788-809 | the tick records the period index; the boss spawns only when the index changed (as `BossSpawns` counts); at most one regular enemy spawns, of a type the period lists; the timer resets to 0 exactly when one spawns and otherwise grows by `deltaTime`; spawned enemies have full health and no `boss` flag |
| Simulation.Movement | main.js:868-890 | no move when the held direction has no length; otherwise each axis moves in the held direction's sign (for positive speed and frame time) |
| Simulation.DirectionCancels | main.js:868-882 | each axis of the direction is -1, 0 or 1 and is 0 exactly when both or neither of its keys are held, so with no net direction the player stays |
| Simulation.Regenerated | main.js:946-949 | health never exceeds the `health` value after regeneration; below it, it grows by exactly `healthRegen * deltaTime` |
| Simulation.CountDown | main.js:938-944 | definition: one tick of a flash timer, which only runs while positive |
| Simulation.CountDowns | main.js:938-944 | definition: a timer after `n` ticks |
| Simulation.CountDownRests | main.js:938-944 | with a positive frame time a running timer loses `deltaTime` per tick while positive, has run out once `n * deltaTime` reaches its start, never ends a whole tick below 0, and then never moves again; a timer at or below 0 never moves |
| Simulation.DrawOffers | main.js:914-933 | the eligible upgrades are copied into an array, shuffled in place and cut to three: at most three distinct eligible catalog indices, one draw per eligible upgrade |
| Simulation.Chosen | main.js:843-846 | definition: the offer PICKING_UPGRADE takes, the one under the moved cursor when enter was just pressed |
| Simulation.Crashes | main.js:843-844 | definition: enter just pressed with no offer under the moved cursor, where the source throws |
| Simulation.MenuStep | main.js:813-858 | definition: `managerTick` on the manager in DEAD, PICKING_UPGRADE and PAUSED; characterised by `MenuStates` |
| Simulation.MenuStates | main.js:813-858 | outside RUNNING the game runs again exactly on a restart from DEAD with enter held (which restores the starting manager), a taken offer, or pause or enter in PAUSED, and otherwise keeps its state; without a restart the clock, spawner, tallies and offers stand still and only the cursor moves, by at most one; a crash leaves PICKING_UPGRADE |
| Simulation.Managed | main.js:775-811 | definition: the RUNNING case of `managerTick` on a `World`: the clock advances, then pause, death or the spawning of `SpawnStep` |
| Simulation.EnemiesPhase | main.js:672-754 | definition: `enemiesTick` on a `World` at the player's position: the survivors, the drops, the kills, the contact damage and the flash |
| Simulation.Fought | main.js:672-754 | definition: the same for a given frame |
| Simulation.PickupsPhase | main.js:952-989 | definition: `pickupsTick` on a `World` with the `pickupDistance` value: the remaining pickups and the collected loot |
| Simulation.Gathered | main.js:952-989 | definition: the same for a given reach and frame |
| Simulation.Moved | main.js:868-898 | definition: the move at the `speed` value and the aim toward the pointer |
| Simulation.MeleeOf | main.js:991-1013 | definition: the melee a body makes with the `meleeAngle`, `meleeDistance` and `meleeDamage` values of its level |
| Simulation.Hit | main.js:991-1022 | definition: `applyPlayerMeleeAttack` on a `World`: every enemy struck or left, and `damageDone` tallied |
| Simulation.Struck | main.js:903-904 | definition: the strike, then the timer restarted from the `meleeTimeout` value |
| Simulation.MeleePhase | main.js:900-905 | definition: the melee timer: a running timer counts down, a run-out one strikes |
| Simulation.Promoted | main.js:908-910 | definition: one level more, the threshold paid and raised by 10 |
| Simulation.ViewOf | main.js:916-929 | definition: what the filter reads of a body: health and the `health` and `meleeDamage` values of its level, with the applied upgrades |
| Simulation.OfferedAndHealed | main.js:912-935 | definition: PICKING_UPGRADE with the offers `Offers` draws for a view, health raised by 5, one draw per eligible upgrade |
| Simulation.Leveled | main.js:907-936 | definition: the level-up at the threshold (the offers drawn at the new level), nothing below it |
| Simulation.Recovered | main.js:938-949 | definition: both flash timers count down and health regenerates at the level the tick ends at |
| Simulation.MovedAndStruck | main.js:868-905 | definition: the move and aim, then the melee timer |
| Simulation.LeveledAndRecovered | main.js:907-949 | definition: the level-up, then the timers and regeneration |
| Simulation.PlayerPhase | main.js:867-950 | definition: `playerTick` on a `World` |
| Simulation.PoolsPhase | main.js:658-659 | definition: `enemiesTick`, then `pickupsTick` |
| Simulation.WorldPhase | main.js:658-660 | definition: `enemiesTick`, `pickupsTick`, then `playerTick` |
| Simulation.RunningFrame | main.js:654-670 | definition: a frame that begins RUNNING, `managerTick` and then the rest of the frame whatever state it left; characterised by `RunningFrameOutcome` |
| Simulation.RunningFrameOutcome | main.js:654-670 | a RUNNING frame ends in PICKING_UPGRADE exactly when the experience after the pools reaches the threshold; otherwise in PAUSED if pause was just pressed, else DEAD if health was at most 0, else RUNNING; the clock advances by `deltaTime`; the level rises by one exactly on a level-up; health ends at most the `health` value of the final level; the kills grow by the number of enemies out of health when `enemiesTick` begins |
| Simulation.DeathUndone | main.js:783-912 | a concrete frame: health 0 and experience at the threshold; `managerTick` sets DEAD (or PAUSED with pause pressed), yet the frame ends in PICKING_UPGRADE with health above 0, so the death (or the pause) is lost |
| Simulation.Game.Now | main.js:263-305 | definition: the part of the global state a RUNNING frame works on, as a `World` |
| Simulation.Game.constructor | main.js:263-305 | the load-time state: a fresh `createPlayer()`, the starting manager, empty pools, nothing pressed |
| Simulation.Game.ProcessKey | main.js:38-44 | a mapped key sets both the held and the just-pressed flag of its control; an unmapped key changes nothing |
| Simulation.Game.MovePointer | main.js:49-52 | the pointer listener records the target position |
| Simulation.Game.InputTick | main.js:861-865 | every just-pressed flag is cleared, and nothing else changes |
| Simulation.Game.RunningTick | main.js:775-811 | the new state is `Managed` of the old: the clock advances; then pause wins over death, death over spawning; while spawning, the pool grows by exactly what `SpawnStep` spawns |
| Simulation.Game.RunningStep | main.js:775-811 | the same, on the manager and the enemy pool, without the validity of the player |
| Simulation.Game.DeadTick | main.js:814-829 | with enter held: a fresh player, every starting manager field restored with state RUNNING, both pools emptied; otherwise nothing changes |
| Simulation.Game.PickingTick | main.js:831-850 | the cursor moves (see `CursorBounds`); on enter the offer under it is applied and recorded and the game resumes; with no offer under the cursor the tick crashes; without enter only the cursor changes; of the player's numbers only health can change |
| Simulation.Game.TakeOffer | main.js:843-848 | the selected upgrade is applied to the player and its index appended to `player.upgrades`; the state becomes RUNNING |
| Simulation.Game.PausedTick | main.js:852-857 | pause or enter resumes; anything else leaves PAUSED |
| Simulation.Game.MenuTick | main.js:813-858 | `managerTick` outside RUNNING: the manager becomes `MenuStep` of the old one, a crash happens exactly as `Crashes` says, a restart replaces the player and empties the pools, and otherwise the pools stay and the player changes only by the offer taken |
| Simulation.Game.ManagerTick | main.js:773-859 | per old state: from RUNNING the new state is `Managed` of the old and the player object and its lists stay; from the other three, as `MenuTick` states |
| Simulation.Game.EnemiesTick | main.js:672-754 | the new state is `EnemiesPhase` of the old: the pool becomes the survivors (see `EnemiesTickOutcome`); the pickups grow by one experience drop per dead enemy and `kills` by their number; health drops by the contact damage and the damage flash restarts iff an enemy struck; attributes unchanged |
| Simulation.Game.TurnsAndSplice | main.js:672-754 | the same, for the frame's position and `deltaTime`: the turns, then the splice |
| Simulation.Game.AdvanceEnemies | main.js:673-747 | the first loop: every enemy has taken its turn, the removal list is the positions of the enemies that leave, and the drops, kills, damage and flash are tallied |
| Simulation.Game.AdvanceAll | main.js:676-747 | the first loop, from the state it starts in to all enemies advanced |
| Simulation.Game.AdvanceOne | main.js:676-747 | one more enemy's turn extends every tally of the loop by that enemy alone |
| Simulation.Game.EnemyTurn | main.js:677-746 | one enemy's turn: killed enemies drop experience and count as a kill; striking enemies cost the type's health and restart the flash; a staying enemy is replaced by its moved self |
| Simulation.Game.PickupsTick | main.js:952-989 | the new state is `PickupsPhase` of the old: the pool becomes the uncollected pickups, pulled (see `PickupsTickOutcome`); health and experience grow by the collected loot; the pickup flash restarts iff something was collected |
| Simulation.Game.CollectPickups | main.js:953-988 | the same, given the `pickupDistance` value: the pass, then the splice |
| Simulation.Game.PullAll | main.js:956-982 | the first loop: every pickup pulled, the removal list is the collected positions, and the loot is tallied |
| Simulation.Game.CollectOne | main.js:956-982 | one more pickup's turn extends every tally of the loop by that pickup alone |
| Simulation.Game.PickupTurn | main.js:957-981 | one pickup's turn: a collected pickup gives its loot and restarts the flash; any other is replaced by its pulled self |
| Simulation.Game.MeleeAttack | main.js:991-1022 | the new state is `Hit` of the old with the player's melee: every enemy in reach is struck, the rest untouched, and `damageDone` grows by the melee damage once per hit |
| Simulation.Game.StrikeEnemies | main.js:996-1021 | the loop: every enemy struck or left, and the damage tallied |
| Simulation.Game.StrikeTurn | main.js:997-1019 | one enemy under the melee: struck and tallied if in reach, else untouched |
| Simulation.Game.MovePlayer | main.js:868-898 | the new state is `Moved` of the old: the player moves by `Movement` at the `speed` value and aims from the screen centre toward the pointer |
| Simulation.Game.MeleeTimer | main.js:900-905 | the new state is `MeleePhase` of the old: a running timer only counts down; a run-out timer strikes (see `MeleeAttack`) and restarts from the `meleeTimeout` value |
| Simulation.Game.StrikeAndRestart | main.js:903-904 | the new state is `Struck` of the old: the strike, then the timer restart |
| Simulation.Game.LevelUp | main.js:907-936 | the new state is `Leveled` of the old: at or above the threshold exactly one level is gained, experience drops by the old threshold, which rises by 10, health rises by 5, the state becomes PICKING_UPGRADE with at most three distinct offers (the cursor kept); below it nothing changes |
| Simulation.Game.LevelUpNow | main.js:908-935 | the level-up once the threshold is reached |
| Simulation.Game.OfferAndHeal | main.js:912-935 | the new state is `OfferedAndHealed` of the old: the offers are drawn from the player as it stands before the heal, then health rises by 5 |
| Simulation.Game.StopAndHeal | main.js:912-935 | the same for a given view of the player; each offer is eligible for that view |
| Simulation.Game.OfferUpgrades | main.js:912-933 | PICKING_UPGRADE with the offers `Offers` draws for the player's view, each eligible, none twice, at most three; one draw per eligible upgrade |
| Simulation.Game.Recover | main.js:938-949 | the new state is `Recovered` of the old: both flash timers count down and health regenerates up to the `health` value |
| Simulation.Game.PlayerTick | main.js:867-950 | the new state is `PlayerPhase` of the old; health ends at most the `health` value; a level-up happens iff the threshold was reached, with at most three distinct offers; the clock and kills stay |
| Simulation.Game.MoveAndStrike | main.js:868-905 | the new state is `MovedAndStruck` of the old: move, aim and melee timer; of the manager only `damageDone` changes |
| Simulation.Game.LevelAndRecover | main.js:907-949 | the new state is `LeveledAndRecovered` of the old; health ends at most the `health` value; a level-up changes only the state and the offers of the manager |
| Simulation.Game.PoolsTick | main.js:658-659 | the new state is `PoolsPhase` of the old; the clock and every attribute stay |
| Simulation.Game.WorldTick | main.js:658-660 | the new state is `WorldPhase` of the old; the clock stays and health ends at most its maximum |
| Simulation.Game.FrameTick | main.js:656-661 | a tick that began RUNNING, up to `inputTick`: the new state is `RunningFrame` of the old, for the pause flag just pressed |
| Simulation.Game.RunningLogicTick | main.js:654-670 | the same followed by `inputTick`: the new state is `RunningFrame` of the old and every just-pressed flag is cleared |
| Simulation.Game.MenuLogicTick | main.js:662-669 | a tick that began outside RUNNING: `MenuTick`'s outcome, and the just-pressed flags are cleared unless the tick crashed |
| Simulation.Game.GameLogicTick | main.js:654-670 | per old state: from RUNNING the new state is `RunningFrame` of the old (so its final state is as `RunningFrameOutcome` gives it); from DEAD, PICKING_UPGRADE or PAUSED the manager is `MenuStep` of the old (so PAUSED with nothing pressed stays PAUSED, DEAD without enter stays DEAD), with the player and pools as `MenuTick` states; the just-pressed flags are cleared unless the tick crashed, which happens only in PICKING_UPGRADE |

## Left out

- Rendering, UI text and the canvas (`draw`, `render*`): presentation only.
- The keyboard and load listeners, `requestAnimationFrame` and the computation of `deltaTime` from timestamps: host scheduling. `deltaTime`, keys and pointer positions are parameters of the methods.
- `event.key.toLowerCase()`: `ProcessKey` takes the key name already in lower case; there is no case folding on Dafny strings.
- The `DEBUG` helper: a developer backdoor, not game logic.
- Floating point: numbers are exact reals, with no rounding, infinities or overflow. NaN is modelled only where the source produces it, in the attribute folds.
- `Math.sqrt(x * x + y * y)`, `Math.atan2`, `Math.cos`, `Math.sin`: uninterpreted host functions, so the geometry (distances, the cone test, the spawn ring, the chase and pull vectors) is exact in structure but nothing is proved about the trigonometry itself.
- Upgrade `weight`: declared in the catalog but never used by the source.
- Pickups of type HEALTH: nothing in the source creates them. The model keeps the case in `pickupsTick` but proves nothing specific to it.
- `manager.upgrades` holds `[index, upgrade]` pairs in the source; the model keeps the catalog indices, from which the pairs are determined.
- The exception on enter with no offer under the cursor is the `crashed` result. The model does not follow the exception any further than the rest of that tick being skipped.
- Entities.EnemyStep: the chase direction divides by the distance, which the model skips when the distance is 0 (where the source would produce NaN coordinates).
- Simulation.DirectionCancels: that no net direction means no move needs the host's `hypot(0, 0)` to be 0, which the lemma takes as a hypothesis.
- Players.Player.MeleeStats: the source reads `meleeDistance` and `meleeDamage` once per enemy, so never when the pool is empty; the model reads each once per attack. The memos can therefore differ, but no value read differs: nothing in the loop changes the lists or the level, and `Attribute.Value` ensures the memo never changes what is read.
- Players.Player.ReadAttr: `pickupsTick` reads `pickupDistance` up to twice per pickup, so never when the pool is empty; the model reads it once per tick. The memo can differ for the same reason, and no value read differs.
- Players.Player.constructor: `type` is always 0 (the only player type) and is not a field.
