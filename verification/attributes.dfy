/** Character attributes (`createAttribute`): a value is the left fold of the
    "base" contributors starting at 0, times the left fold of the "multiplier"
    contributors starting at 1, memoised until a list or the player's level
    changes. */
module Attributes {
  import opened Host

  /** A JavaScript number as the folds see it: a finite value, or NaN, which is
      what arithmetic on a missing table entry (`undefined`) produces. */
  datatype Num = Fin(r: real) | NaN

  function Plus(a: Num, b: Num): Num {
    if a.Fin? && b.Fin? then Fin(a.r + b.r) else NaN
  }

  function Times(a: Num, b: Num): Num {
    if a.Fin? && b.Fin? then Fin(a.r * b.r) else NaN
  }

  /** The attributes every player has (`player.attrs`). */
  datatype AttrName =
    | Speed
    | Health
    | HealthRegen
    | MeleeAngle
    | MeleeDistance
    | MeleeDamage
    | MeleeTimeout
    | PickupDistance

  /** The entry of the only player type (`playerTypes[0]`) for an attribute.
      That type has no `healthRegen` entry, so the entry reads as NaN. */
  function PlayerTypeEntry(name: AttrName): Num {
    match name
    case Speed => Fin(25.0)
    case Health => Fin(100.0)
    case HealthRegen => NaN
    case MeleeAngle => Fin(Pi / 4.0)
    case MeleeDistance => Fin(80.0)
    case MeleeDamage => Fin(8.0)
    case MeleeTimeout => Fin(0.5)
    case PickupDistance => Fin(50.0)
  }

  /** The contributor functions the program builds, each a step of a fold from
      the accumulator so far to the next one. */
  datatype Contributor =
    | FromPlayerType  // the first base contributor: adds the player type's entry
    | AddConst(c: real)  // `baseAttr`: adds a constant
    | MulConst(c: real)  // `multiplyAttr`: multiplies by a constant
    | PerLevel(k: real)  // `baseIncreaseWithLevel`: adds `level * k`
    | Override(v: real)  // `baseValue`: ignores the accumulator

  /** Which of an attribute's two lists `push` extends. */
  datatype ListKind = Base | Multiplier

  function Apply(c: Contributor, name: AttrName, level: nat, acc: Num): Num {
    match c
    case FromPlayerType => Plus(acc, PlayerTypeEntry(name))
    case AddConst(k) => Plus(acc, Fin(k))
    case MulConst(k) => Times(acc, Fin(k))
    case PerLevel(k) => Plus(acc, Fin(level as real * k))
    case Override(v) => Fin(v)
  }

  /** `cs.reduce((acc, fn) => fn(player, acc, attribute), acc)`. */
  function Fold(cs: seq<Contributor>, name: AttrName, level: nat, acc: Num): Num
    decreases |cs|
  {
    if |cs| == 0 then acc else Fold(cs[1..], name, level, Apply(cs[0], name, level, acc))
  }

  /** The value the getter computes from the two lists at a level. */
  function Compute(name: AttrName, base: seq<Contributor>, multiplier: seq<Contributor>, level: nat): Num {
    Times(Fold(base, name, level, Fin(0.0)), Fold(multiplier, name, level, Fin(1.0)))
  }

  /** Appending a contributor applies it last. */
  lemma {:induction false} FoldSnoc(cs: seq<Contributor>, c: Contributor, name: AttrName, level: nat, acc: Num)
    ensures Fold(cs + [c], name, level, acc) == Apply(c, name, level, Fold(cs, name, level, acc))
    decreases |cs|
  {
    if |cs| != 0 {
      assert (cs + [c])[1..] == cs[1..] + [c];
      FoldSnoc(cs[1..], c, name, level, Apply(cs[0], name, level, acc));
    }
  }

  /** Folding a concatenation folds the first part, then the second from there. */
  lemma {:induction false} FoldConcat(a: seq<Contributor>, b: seq<Contributor>, name: AttrName, level: nat, acc: Num)
    ensures Fold(a + b, name, level, acc) == Fold(b, name, level, Fold(a, name, level, acc))
    decreases |a|
  {
    if |a| != 0 {
      assert (a + b)[1..] == a[1..] + b;
      FoldConcat(a[1..], b, name, level, Apply(a[0], name, level, acc));
    } else {
      assert a + b == b;
    }
  }

  /** A `baseValue` contributor discards everything folded before it: whatever
      precedes it (a NaN from a missing player-type entry included), the fold
      restarts from its constant. */
  lemma OverrideDiscards(pre: seq<Contributor>, v: real, post: seq<Contributor>, name: AttrName, level: nat, acc: Num)
    ensures Fold(pre + [Override(v)] + post, name, level, acc) == Fold(post, name, level, Fin(v))
  {
    FoldConcat(pre + [Override(v)], post, name, level, acc);
    FoldSnoc(pre, Override(v), name, level, acc);
  }

  /** Pushing `baseAttr(attr, c)`'s contributor adds `c` to the base sum, so the
      value grows by `c` times the multiplier product; pushing
      `multiplyAttr(attr, k)`'s contributor scales the value by `k`. */
  lemma PushEffect(name: AttrName, base: seq<Contributor>, multiplier: seq<Contributor>, level: nat, b: real, m: real, c: real)
    requires Fold(base, name, level, Fin(0.0)) == Fin(b)
    requires Fold(multiplier, name, level, Fin(1.0)) == Fin(m)
    ensures Compute(name, base, multiplier, level) == Fin(b * m)
    ensures Compute(name, base + [AddConst(c)], multiplier, level) == Fin(b * m + c * m)
    ensures Compute(name, base, multiplier + [MulConst(c)], level) == Fin(b * m * c)
  {
    FoldSnoc(base, AddConst(c), name, level, Fin(0.0));
    FoldSnoc(multiplier, MulConst(c), name, level, Fin(1.0));
    assert (b + c) * m == b * m + c * m;
    assert b * (m * c) == b * m * c;
  }

  /** The extra base contributors `createPlayer` gives each attribute (the
      player-type contributor is put in front by `createAttribute`). */
  function StartingBase(name: AttrName): seq<Contributor> {
    match name
    case Speed => [PerLevel(0.2)]
    case Health => [PerLevel(10.0)]
    case HealthRegen => [Override(0.1)]
    case MeleeDamage => [PerLevel(0.5)]
    case _ => []
  }

  /** The value of each attribute of a fresh player at a level: the player
      type's entry plus the per-level growth; health regeneration is 0.1 at
      every level, since `baseValue` discards the NaN before it. */
  lemma StartingValues(name: AttrName, level: nat)
    ensures Compute(name, [FromPlayerType] + StartingBase(name), [], level) == Fin(
      match name
      case Speed => 25.0 + level as real * 0.2
      case Health => 100.0 + level as real * 10.0
      case HealthRegen => 0.1
      case MeleeAngle => Pi / 4.0
      case MeleeDistance => 80.0
      case MeleeDamage => 8.0 + level as real * 0.5
      case MeleeTimeout => 0.5
      case PickupDistance => 50.0)
  {
    FoldSnoc([], FromPlayerType, name, level, Fin(0.0));
    assert [] + [FromPlayerType] == [FromPlayerType];
    if StartingBase(name) != [] {
      FoldSnoc([FromPlayerType], StartingBase(name)[0], name, level, Fin(0.0));
    }
  }

  datatype Option<T> = None | Some(value: T)

  /** The memo `$cached`: the lists and level a value was computed for.
      Lists only ever grow, so their lengths act as a generation count. */
  datatype Cache = Cache(base: seq<Contributor>, multiplier: seq<Contributor>, playerLevel: nat, value: Num)

  class Attribute {
    const name: AttrName
    var base: seq<Contributor>
    var multiplier: seq<Contributor>
    var cached: Option<Cache>

    /** A memo always holds the value of the lists and level it records, and
        records lists no longer than the current ones. */
    ghost predicate Valid()
      reads this
    {
      cached.Some? ==>
        && cached.value.value == Compute(name, cached.value.base, cached.value.multiplier, cached.value.playerLevel)
        && |cached.value.base| <= |base| && |cached.value.multiplier| <= |multiplier|
    }

    /** No level makes the value NaN. */
    ghost predicate Finite()
      reads this
    {
      forall level: nat :: Compute(name, base, multiplier, level).Fin?
    }

    /** The memo may be returned as it is: both lists and the level are the
        ones it was computed for. */
    predicate Hit(level: nat)
      reads this
    {
      cached.Some? && cached.value.base == base && cached.value.multiplier == multiplier
      && cached.value.playerLevel == level
    }

    /** `createAttribute(attribute, base, multiplier)`. */
    constructor (name: AttrName, base: seq<Contributor>, multiplier: seq<Contributor>)
      ensures Valid()
      ensures this.name == name && this.base == [FromPlayerType] + base && this.multiplier == multiplier
      ensures cached == None
    {
      this.name := name;
      this.base := [FromPlayerType] + base;
      this.multiplier := multiplier;
      cached := None;
    }

    /** `push(type, fn)`: installs a new list with `fn` appended, leaving the
        other list alone; no memo matches the new list. */
    method Push(kind: ListKind, c: Contributor)
      requires Valid()
      modifies this
      ensures Valid() && cached == old(cached)
      ensures kind == Base ==> base == old(base) + [c] && multiplier == old(multiplier)
      ensures kind == Multiplier ==> multiplier == old(multiplier) + [c] && base == old(base)
      ensures forall level: nat :: !Hit(level)
      ensures old(Finite()) && (c.AddConst? || c.MulConst? || c.PerLevel? || c.Override?) ==> Finite()
    {
      if kind == Base {
        base := base + [c];
      } else {
        multiplier := multiplier + [c];
      }
      forall level: nat
        ensures old(Compute(name, base, multiplier, level)).Fin? && !c.FromPlayerType?
          ==> Compute(name, base, multiplier, level).Fin?
      {
        FoldSnoc(old(base), c, name, level, Fin(0.0));
        FoldSnoc(old(multiplier), c, name, level, Fin(1.0));
      }
    }

    /** The `value` getter: the memo when it matches the current lists and
        level, otherwise the folds, which then become the memo. */
    method Value(level: nat) returns (v: Num)
      requires Valid()
      modifies this`cached
      ensures Valid()
      ensures v == Compute(name, base, multiplier, level)
      ensures old(Hit(level)) ==> cached == old(cached)
      ensures Hit(level) && cached.value.value == v
    {
      if cached.Some? && cached.value.base == base && cached.value.multiplier == multiplier
        && cached.value.playerLevel == level
      {
        return cached.value.value;
      }
      v := Times(Fold(base, name, level, Fin(0.0)), Fold(multiplier, name, level, Fin(1.0)));
      cached := Some(Cache(base, multiplier, level, v));
    }
  }
}
