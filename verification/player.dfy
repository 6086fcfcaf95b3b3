/** The player record (`createPlayer`) and what an upgrade's `apply` does to it. */
module Players {
  import opened Attributes
  import opened Catalog

  /** One attribute's pair of lists with `fn` pushed onto the list `kind`. */
  function Pushed(lists: (seq<Contributor>, seq<Contributor>), kind: ListKind, c: Contributor)
    : (seq<Contributor>, seq<Contributor>)
  {
    if kind == Base then (lists.0 + [c], lists.1) else (lists.0, lists.1 + [c])
  }

  /** An attribute's lists as `createPlayer` creates them. */
  function StartingLists(n: AttrName): (seq<Contributor>, seq<Contributor>) {
    ([FromPlayerType] + StartingBase(n), [])
  }

  /** What an upgrade's `apply` does to the contributor lists. */
  function EffectOnLists(lists: map<AttrName, (seq<Contributor>, seq<Contributor>)>, e: Effect)
    : map<AttrName, (seq<Contributor>, seq<Contributor>)>
    requires forall n: AttrName :: n in lists
  {
    match e
    case PushContributor(a, kind, c) => lists[a := Pushed(lists[a], kind, c)]
    case Heal(_) => lists
    case RaiseMaxHealth(inc, _) => lists[Health := Pushed(lists[Health], Base, AddConst(inc))]
  }

  /** What an upgrade's `apply` adds to the current health. */
  function EffectOnHealth(e: Effect): real {
    match e
    case PushContributor(_, _, _) => 0.0
    case Heal(amount) => amount
    case RaiseMaxHealth(_, heal) => heal
  }

  /** A freshly created attribute is a number at every level. */
  lemma StartingFinite(a: Attribute)
    requires a.base == [FromPlayerType] + StartingBase(a.name) && a.multiplier == []
    ensures a.Finite()
  {
    forall level: nat ensures Compute(a.name, a.base, a.multiplier, level).Fin? {
      StartingValues(a.name, level);
    }
  }

  /** An attribute as `createPlayer` creates it for `n`, and a number at
      every level. */
  ghost predicate Starting(a: Attribute, n: AttrName)
    reads a
  {
    a.name == n && (a.base, a.multiplier) == StartingLists(n) && a.Valid() && a.Finite()
  }

  /** `createAttribute(n, ...)` as `createPlayer` calls it. */
  method StartingAttribute(n: AttrName) returns (a: Attribute)
    ensures fresh(a) && Starting(a, n)
  {
    a := new Attribute(n, StartingBase(n), []);
    StartingFinite(a);
  }

  /** The `attrs` object of `createPlayer`: one fresh attribute per name. */
  method StartingAttributes() returns (attrs: map<AttrName, Attribute>)
    ensures forall n: AttrName :: n in attrs && Starting(attrs[n], n) && fresh(attrs[n])
  {
    var speed := StartingAttribute(Speed);
    var health := StartingAttribute(Health);
    var healthRegen := StartingAttribute(HealthRegen);
    var meleeAngle := StartingAttribute(MeleeAngle);
    var meleeDistance := StartingAttribute(MeleeDistance);
    var meleeDamage := StartingAttribute(MeleeDamage);
    var meleeTimeout := StartingAttribute(MeleeTimeout);
    var pickupDistance := StartingAttribute(PickupDistance);
    attrs := map[
      Speed := speed, Health := health, HealthRegen := healthRegen, MeleeAngle := meleeAngle,
      MeleeDistance := meleeDistance, MeleeDamage := meleeDamage, MeleeTimeout := meleeTimeout,
      PickupDistance := pickupDistance];
    forall n: AttrName ensures n in attrs && Starting(attrs[n], n) && fresh(attrs[n]) {
      match n
      case Speed => case Health => case HealthRegen => case MeleeAngle =>
      case MeleeDistance => case MeleeDamage => case MeleeTimeout => case PickupDistance =>
    }
  }

  /** The player's own numbers: position, aim, melee timer, level and
      experience, health and the two flash timers. */
  datatype Body = Body(
    x: real, y: real, meleeDirection: real, meleeTick: real,
    level: nat, experience: real, nextLevelExperience: real,
    health: real, lastDamagedTick: real, lastPickupTick: real)

  /** The contributor lists of every attribute. */
  type AttrLists = map<AttrName, (seq<Contributor>, seq<Contributor>)>

  /** `player.attrs[n].value` at `level` for the contributor lists `lists`.
      A player's lists name every attribute and never make one NaN (see
      `Player.Valid`), so the 0 is never used. */
  function ValueAt(lists: AttrLists, n: AttrName, level: nat): real {
    if n in lists && Compute(n, lists[n].0, lists[n].1, level).Fin? then Compute(n, lists[n].0, lists[n].1, level).r
    else 0.0
  }

  class Player {
    var x: real
    var y: real
    var level: nat
    var experience: real
    var nextLevelExperience: real
    var health: real
    var meleeTick: real
    var lastDamagedTick: real
    var lastPickupTick: real
    var meleeDirection: real
    /** Applied upgrades, as indices into the catalog. */
    var upgrades: seq<nat>
    /** `attrs`; the player type is always the only one, type 0. */
    const attrs: map<AttrName, Attribute>

    /** Every attribute is present, carries its own name (so no object serves
        two names), has a consistent memo, and is a number at every level. */
    ghost predicate Valid()
      reads attrs.Values
    {
      && (forall n: AttrName :: n in attrs)
      && (forall n :: n in attrs ==> attrs[n].name == n && attrs[n].Valid() && attrs[n].Finite())
    }

    /** The contributor lists of all attributes. */
    ghost function Lists(): map<AttrName, (seq<Contributor>, seq<Contributor>)>
      reads attrs.Values
    {
      map n | n in attrs :: (attrs[n].base, attrs[n].multiplier)
    }

    /** `player.attrs[n].value` at the player's current level. */
    ghost function Stat(n: AttrName): real
      reads this`level, attrs.Values
      requires Valid()
    {
      ValueAt(Lists(), n, level)
    }

    /** The player's numbers as they stand. */
    function Current(): Body
      reads this
    {
      Body(x, y, meleeDirection, meleeTick, level, experience, nextLevelExperience,
        health, lastDamagedTick, lastPickupTick)
    }

    /** The state `createPlayer()` produces. */
    ghost predicate Initial()
      reads this, attrs.Values
    {
      && x == 0.0 && y == 0.0 && level == 0 && experience == 0.0 && nextLevelExperience == 5.0
      && health == 100.0 && meleeTick == 0.0 && lastDamagedTick == 0.0 && lastPickupTick == 0.0
      && meleeDirection == 0.0 && upgrades == []
      && forall n: AttrName :: n in Lists() && Lists()[n] == StartingLists(n)
    }

    /** `createPlayer()`. */
    constructor ()
      ensures Valid() && Initial() && forall n: AttrName :: fresh(attrs[n])
    {
      var created := StartingAttributes();
      attrs := created;
      x, y := 0.0, 0.0;
      level := 0;
      experience := 0.0;
      nextLevelExperience := 5.0;
      this.health := 100.0;
      meleeTick, lastDamagedTick, lastPickupTick := 0.0, 0.0, 0.0;
      meleeDirection := 0.0;
      upgrades := [];
      new;
      forall n: AttrName ensures attrs[n].name == n && attrs[n].Valid() && attrs[n].Finite() && fresh(attrs[n]) {
        assert Starting(attrs[n], n);
      }
    }

    /** Reading `player.attrs[n].value`: refreshes only that attribute's memo. */
    method ReadAttr(n: AttrName) returns (v: real)
      requires Valid()
      modifies attrs[n]
      ensures Valid() && Lists() == old(Lists())
      ensures v == Stat(n)
    {
      var num := attrs[n].Value(level);
      v := num.r;
    }

    /** `player.meleeTick = player.attrs.meleeTimeout.value`. */
    method RestartMelee()
      requires Valid()
      modifies this`meleeTick, attrs[MeleeTimeout]
      ensures Valid() && Lists() == old(Lists())
      ensures meleeTick == Stat(MeleeTimeout)
    {
      meleeTick := ReadAttr(MeleeTimeout);
    }

    /** The level-up's bookkeeping in `playerTick`: one level more, the
        threshold paid from the experience and raised by 10. */
    method Promote()
      modifies this`level, this`experience, this`nextLevelExperience
      ensures level == old(level) + 1 && Lists() == old(Lists())
      ensures experience == old(experience) - old(nextLevelExperience)
      ensures nextLevelExperience == old(nextLevelExperience) + 10.0
    {
      level := level + 1;
      experience := experience - nextLevelExperience;
      nextLevelExperience := nextLevelExperience + 10.0;
    }

    /** The movement and aim of `playerTick`: the new position and melee
        direction. */
    method Place(x': real, y': real, direction: real)
      modifies this`x, this`y, this`meleeDirection
      ensures x == x' && y == y' && meleeDirection == direction && Lists() == old(Lists())
    {
      x, y, meleeDirection := x', y', direction;
    }

    /** `player.health += amount`; the attributes stay as they are. */
    method Heal(amount: real)
      modifies this`health
      ensures health == old(health) + amount && Lists() == old(Lists())
    {
      health := health + amount;
    }

    /** The end of `playerTick`: both flash timers and the health after
        regeneration. */
    method Settle(lastDamaged: real, lastPickup: real, health': real)
      modifies this`lastDamagedTick, this`lastPickupTick, this`health
      ensures lastDamagedTick == lastDamaged && lastPickupTick == lastPickup && health == health'
      ensures Lists() == old(Lists())
    {
      lastDamagedTick, lastPickupTick, health := lastDamaged, lastPickup, health';
    }

    /** What `applyPlayerMeleeAttack` reads first: the values of
        `meleeAngle`, `meleeDistance` and `meleeDamage`, in that order. */
    method MeleeStats() returns (angle: real, reach: real, damage: real)
      requires Valid()
      modifies attrs[MeleeAngle], attrs[MeleeDistance], attrs[MeleeDamage]
      ensures Valid() && Lists() == old(Lists())
      ensures angle == Stat(MeleeAngle) && reach == Stat(MeleeDistance) && damage == Stat(MeleeDamage)
    {
      angle := ReadAttr(MeleeAngle);
      reach := ReadAttr(MeleeDistance);
      damage := ReadAttr(MeleeDamage);
    }

    /** What the regeneration of `playerTick` reads: the values of `health`
        and `healthRegen`. */
    method RegenStats() returns (maxHealth: real, regen: real)
      requires Valid()
      modifies attrs[Health], attrs[HealthRegen]
      ensures Valid() && Lists() == old(Lists())
      ensures maxHealth == Stat(Health) && regen == Stat(HealthRegen)
    {
      maxHealth := ReadAttr(Health);
      regen := ReadAttr(HealthRegen);
    }

    /** What the upgrade filter reads of the player: `health`, and the values
        of the `health` and `meleeDamage` attributes at the current level. */
    method View() returns (v: PlayerView)
      requires Valid()
      modifies attrs[Health], attrs[MeleeDamage]
      ensures Valid() && Lists() == old(Lists())
      ensures v == PlayerView(health, Stat(Health), Stat(MeleeDamage), upgrades)
    {
      var maxHealth := ReadAttr(Health);
      var meleeDamage := ReadAttr(MeleeDamage);
      v := PlayerView(health, maxHealth, meleeDamage, upgrades);
    }

    /** `upgrade.apply(player)` for the catalog entry `i`: pushes a contributor,
        heals, or both; nothing else about the player changes. */
    method ApplyUpgrade(i: nat)
      requires Valid() && i < |Upgrades|
      modifies this`health, attrs.Values
      ensures Valid()
      ensures Lists() == EffectOnLists(old(Lists()), Upgrades[i].effect)
      ensures health == old(health) + EffectOnHealth(Upgrades[i].effect)
    {
      CatalogEffects(i);
      match Upgrades[i].effect
      case PushContributor(a, kind, c) =>
        PushOnto(a, kind, c);
      case Heal(amount) =>
        health := health + amount;
      case RaiseMaxHealth(inc, heal) =>
        PushOnto(Health, Base, AddConst(inc));
        health := health + heal;
    }

    /** Taking the offer `i` when an upgrade is picked: `apply(player)`, then
        `player.upgrades.push(i)`. */
    method TakeUpgrade(i: nat)
      requires Valid() && i < |Upgrades|
      modifies this`health, this`upgrades, attrs.Values
      ensures Valid() && Current() == old(Current()).(health := health)
      ensures Lists() == EffectOnLists(old(Lists()), Upgrades[i].effect)
      ensures health == old(health) + EffectOnHealth(Upgrades[i].effect)
      ensures upgrades == old(upgrades) + [i]
    {
      ApplyUpgrade(i);
      upgrades := upgrades + [i];
    }

    /** `player.attrs[a].push(kind, c)`: only that attribute's list grows, and
        the attribute stays a number at every level. */
    method PushOnto(a: AttrName, kind: ListKind, c: Contributor)
      requires Valid() && !c.FromPlayerType?
      modifies attrs[a]
      ensures Valid()
      ensures Lists() == old(Lists())[a := Pushed(old(Lists())[a], kind, c)]
    {
      ghost var before := Lists();
      attrs[a].Push(kind, c);
      ghost var after := before[a := Pushed(before[a], kind, c)];
      forall n | n in attrs ensures Lists()[n] == after[n] {
        if n != a {
          assert attrs[n].name != attrs[a].name;
        }
      }
      assert Lists() == after;
    }
  }
}
