/** The upgrade catalog (`upgrades`), the eligibility filter applied at a
    level-up, and the choice of at most three offers by an in-place
    Fisher-Yates shuffle (`shuffleArray`). Weights are declared but unused. */
module Catalog {
  import opened Host
  import opened Attributes
  import opened Sequences

  /** The `condition` an upgrade may carry. */
  datatype Condition =
    | NoCondition
    | BelowMaxHealth  // `player.health < player.attrs.health.value`
    | HasMelee  // `hasMelee`: `player.attrs.meleeDamage.value > 0`

  /** What an upgrade's `apply` does to the player. */
  datatype Effect =
    | PushContributor(attr: AttrName, kind: ListKind, c: Contributor)
    | Heal(amount: real)  // `player.health += amount`
    | RaiseMaxHealth(maxIncrease: real, heal: real)  // pushes `+maxIncrease` onto max health, then heals

  datatype Upgrade = Upgrade(
    name: string,
    description: string,
    weight: real,
    effect: Effect,
    condition: Condition,
    maxCount: nat)

  /** `baseAttr(attr, change)`. */
  function BaseAttr(attr: AttrName, change: real): Effect {
    PushContributor(attr, Base, AddConst(change))
  }

  /** `multiplyAttr(attr, change)`. */
  function MultiplyAttr(attr: AttrName, change: real): Effect {
    PushContributor(attr, Multiplier, MulConst(change))
  }

  /** The number of catalog entries. */
  const UpgradeCount: nat := 13

  const Upgrades: seq<Upgrade> := [
    Upgrade("Speed boost", "+25% speed", 1.0, MultiplyAttr(Speed, 1.25), NoCondition, 5),
    Upgrade("Speed base", "+1 base speed", 1.0, BaseAttr(Speed, 1.0), NoCondition, 5),
    Upgrade("Heal", "+25 health", 1.0, Heal(25.0), BelowMaxHealth, 5),
    Upgrade("Max health", "+25 max health, +5 health", 1.0, RaiseMaxHealth(25.0, 5.0), NoCondition, 5),
    Upgrade("Melee damage", "+5 base melee damage", 1.0, BaseAttr(MeleeDamage, 5.0), HasMelee, 5),
    Upgrade("Melee damage boost", "+25% melee damage", 1.0, MultiplyAttr(MeleeDamage, 1.25), HasMelee, 5),
    Upgrade("Melee range", "+10 melee range", 1.0, BaseAttr(MeleeDistance, 10.0), HasMelee, 5),
    Upgrade("Melee range boost", "+15% melee range", 1.0, MultiplyAttr(MeleeDistance, 1.15), HasMelee, 5),
    Upgrade("Melee wider cone", "+10% melee cone width", 1.0, MultiplyAttr(MeleeAngle, 1.1), HasMelee, 5),
    Upgrade("Melee attack speed", "+25% melee attack speed", 1.0, MultiplyAttr(MeleeTimeout, 0.75), HasMelee, 5),
    Upgrade("Regen", "+0.05 health regen", 1.0, BaseAttr(HealthRegen, 0.05), NoCondition, 5),
    Upgrade("Regen boost", "+5% health regen", 1.0, MultiplyAttr(HealthRegen, 1.05), NoCondition, 5),
    Upgrade("Pickup range", "+10 pickup range", 1.0, BaseAttr(PickupDistance, 10.0), NoCondition, 5)
  ]

  /** Every upgrade only adds or multiplies by a constant, or heals, so none
      can bring a NaN into an attribute. */
  lemma CatalogEffects(i: nat)
    requires i < |Upgrades|
    ensures |Upgrades| == UpgradeCount
    ensures Upgrades[i].effect.PushContributor? ==>
      (Upgrades[i].effect.c.AddConst? && Upgrades[i].effect.kind == Base)
      || (Upgrades[i].effect.c.MulConst? && Upgrades[i].effect.kind == Multiplier)
    ensures Upgrades[i].maxCount == 5
  {
  }

  /** What the filter reads of the player: current health, the values of the
      `health` and `meleeDamage` attributes, and the upgrades applied so far. */
  datatype PlayerView = PlayerView(health: real, maxHealth: real, meleeDamage: real, applied: seq<nat>)

  predicate ConditionHolds(c: Condition, v: PlayerView) {
    match c
    case NoCondition => true
    case BelowMaxHealth => v.health < v.maxHealth
    case HasMelee => v.meleeDamage > 0.0
  }

  /** `player.upgrades.filter((u) => u === i).length`. */
  function Applications(applied: seq<nat>, i: nat): (n: nat)
    ensures n == multiset(applied)[i]
  {
    if |applied| == 0 then 0
    else
      assert applied == [applied[0]] + applied[1..];
      (if applied[0] == i then 1 else 0) + Applications(applied[1..], i)
  }

  /** The filter's test: the condition, if any, passes, and a truthy `maxCount`
      has not been reached. */
  predicate Eligible(i: nat, v: PlayerView) {
    && i < |Upgrades|
    && ConditionHolds(Upgrades[i].condition, v)
    && !(Upgrades[i].maxCount != 0 && Applications(v.applied, i) >= Upgrades[i].maxCount)
  }

  /** The indices below `n` that survive the filter, in catalog order. */
  function AvailableBelow(v: PlayerView, n: nat): (r: seq<nat>)
    requires n <= |Upgrades|
    ensures forall k :: 0 <= k < |r| ==> r[k] < n && Eligible(r[k], v)
    ensures forall i :: 0 <= i < n && Eligible(i, v) ==> i in r
    ensures StrictlyIncreasing(r)
  {
    if n == 0 then []
    else AvailableBelow(v, n - 1) + (if Eligible(n - 1, v) then [n - 1] else [])
  }

  /** `upgrades.map((upgrade, index) => [index, upgrade]).filter(...)`, kept as
      the indices. */
  function Available(v: PlayerView): seq<nat> {
    AvailableBelow(v, |Upgrades|)
  }

  /** An upgrade applied `maxCount` times is never offered again. */
  lemma MaxCountEnforced(v: PlayerView, i: nat)
    requires i < |Upgrades|
    requires Applications(v.applied, i) >= Upgrades[i].maxCount
    ensures i !in Available(v)
  {
    CatalogEffects(i);
  }

  /** `Math.floor(Math.random() * (i + 1))`: the partner of position `i` in the
      shuffle, never past `i`. */
  function SwapIndex(r: real, i: nat): (j: nat)
    requires 0.0 <= r < 1.0
    ensures j <= i
  {
    FloorOfScaledDraw(r, i + 1);
    Floor(r * (i + 1) as real)
  }

  function Swap<T>(s: seq<T>, i: nat, j: nat): seq<T>
    requires i < |s| && j < |s|
  {
    s[i := s[j]][j := s[i]]
  }

  /** The rest of the shuffle when positions `k - 1` down to 0 are still to be
      visited. */
  function ShuffleSteps<T>(s: seq<T>, k: nat, rnd: Random): seq<T>
    requires k <= |s| && rnd.Valid()
    decreases k
  {
    if k == 0 then s
    else
      var next := rnd.Next();
      ShuffleSteps(Swap(s, k - 1, SwapIndex(next.0, k - 1)), k - 1, next.1)
  }

  /** What `shuffleArray` leaves in an array holding `s`. */
  function Shuffled<T>(s: seq<T>, rnd: Random): seq<T>
    requires rnd.Valid()
  {
    ShuffleSteps(s, |s|, rnd)
  }

  /** The shuffle only rearranges: same length, same multiset of elements. */
  lemma {:induction false} ShuffleStepsPermutes<T>(s: seq<T>, k: nat, rnd: Random)
    requires k <= |s| && rnd.Valid()
    ensures |ShuffleSteps(s, k, rnd)| == |s|
    ensures multiset(ShuffleSteps(s, k, rnd)) == multiset(s)
    decreases k
  {
    if k != 0 {
      var next := rnd.Next();
      var t := Swap(s, k - 1, SwapIndex(next.0, k - 1));
      assert multiset(t) == multiset(s);
      ShuffleStepsPermutes(t, k - 1, next.1);
    }
  }

  /** `shuffleArray`: visits positions from the last down to 0 and swaps each
      with a partner drawn at or below it. */
  method ShuffleArray<T>(a: array<T>, rnd: Random) returns (rest: Random)
    requires rnd.Valid()
    modifies a
    ensures a[..] == Shuffled(old(a[..]), rnd)
    ensures multiset(a[..]) == multiset(old(a[..]))
    ensures rest.Valid() && rest == rnd.(calls := rnd.calls + a.Length)
  {
    var i := a.Length - 1;
    rest := rnd;
    while i >= 0
      invariant -1 <= i < a.Length
      invariant rest.Valid() && rest == rnd.(calls := rnd.calls + (a.Length - 1 - i))
      invariant ShuffleSteps(a[..], i + 1, rest) == Shuffled(old(a[..]), rnd)
      invariant multiset(a[..]) == multiset(old(a[..]))
    {
      var next := rest.Next();
      var j := SwapIndex(next.0, i);
      assert a[..][i := a[j]][j := a[i]] == Swap(a[..], i, j);
      a[i], a[j] := a[j], a[i];
      rest := next.1;
      i := i - 1;
    }
  }

  /** `.slice(0, 3)`. */
  function TakeThree<T>(s: seq<T>): seq<T> {
    if |s| <= 3 then s else s[..3]
  }

  /** The offers a level-up puts in `manager.upgrades`. */
  function Offers(v: PlayerView, rnd: Random): seq<nat>
    requires rnd.Valid()
  {
    TakeThree(Shuffled(Available(v), rnd))
  }

  /** At a level-up, at most three offers, as many as there are eligible
      upgrades up to three, no upgrade twice, and each one eligible: its
      condition holds and it is below its `maxCount`. */
  lemma OffersAreEligible(v: PlayerView, rnd: Random)
    requires rnd.Valid()
    ensures var o := Offers(v, rnd);
      && |o| <= 3
      && |o| == (if |Available(v)| <= 3 then |Available(v)| else 3)
      && Distinct(o)
      && forall k :: 0 <= k < |o| ==> Eligible(o[k], v)
  {
    var avail := Available(v);
    var s := Shuffled(avail, rnd);
    ShuffleStepsPermutes(avail, |avail|, rnd);
    assert Distinct(avail);
    DistinctCounts(avail);
    DistinctCounts(s);
    var o := TakeThree(s);
    assert Distinct(o);
    forall k | 0 <= k < |o| ensures Eligible(o[k], v) {
      assert o[k] == s[k];
      assert o[k] in multiset(s);
      assert o[k] in multiset(avail);
    }
  }
}
