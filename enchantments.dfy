/**
 * Six enchantment types (server/item/enchantment): their maximum levels,
 * enchanting-cost ranges, mutual compatibility and the items they apply to.
 */
module Enchantments {

  /**
   * Enchantment types. The first six are modelled; BlastProtection and
   * ProjectileProtection appear only as arguments of the compatibility
   * rules, and OtherType stands for every other enchantment type.
   */
  datatype Kind =
    | Protection
    | FireProtection
    | Thorns
    | Mending
    | Infinity
    | Flame
    | BlastProtection
    | ProjectileProtection
    | OtherType(name: string)

  predicate Modelled(k: Kind) {
    k.Protection? || k.FireProtection? || k.Thorns? || k.Mending? || k.Infinity? || k.Flame?
  }

  /** The item interfaces the rules test for: item.Armour, item.Durable and item.Bow. */
  datatype ItemTraits = ItemTraits(armour: bool, durable: bool, bow: bool)

  const Second: int := 1_000_000_000

  /** The properties a damage source reports (world.DamageSource). */
  datatype DamageSource = DamageSource(reducedByResistance: bool, reducedByArmour: bool, fire: bool)

  /** Thorns' damage source: reduced by resistance, not by armour, and not fire. */
  function ThornsDamageSource(): (d: DamageSource)
    ensures d.reducedByResistance && !d.reducedByArmour && !d.fire
  {
    DamageSource(true, false, false)
  }

  /**
   * Whether an enchantment is a treasure enchantment. Of the six, only
   * Mending has a Treasure method, and it answers true.
   */
  function Treasure(k: Kind): (t: bool)
    requires Modelled(k)
    ensures t <==> k.Mending?
  {
    match k
    case Mending => true
    case _ => false
  }

  /** Infinity's ConsumesArrows: a bow with Infinity keeps its arrows. */
  function ConsumesArrows(k: Kind): (c: bool)
    requires k.Infinity?
    ensures !c
  {
    false
  }

  /** Flame's burn duration in nanoseconds: a hundred seconds at any level. */
  function FlameBurnDuration(level: int): (d: int)
    ensures d == 100 * Second
  {
    100 * Second
  }

  /** The enchantment's name, as each type's Name method returns it. */
  function Name(k: Kind): (s: string)
    requires Modelled(k)
    ensures s != [] && 'A' <= s[0] <= 'Z'
  {
    match k
    case Protection => "Protection"
    case FireProtection => "Fire Protection"
    case Thorns => "Thorns"
    case Mending => "Mending"
    case Infinity => "Infinity"
    case Flame => "Flame"
  }

  /** No two of the six enchantments share a name. */
  lemma NamesAreDistinct(a: Kind, b: Kind)
    requires Modelled(a) && Modelled(b)
    ensures Name(a) == Name(b) <==> a == b
  {
  }

  function MaxLevel(k: Kind): (n: int)
    requires Modelled(k)
    ensures k.Protection? || k.FireProtection? ==> n == 4
    ensures k.Thorns? ==> n == 3
    ensures k.Mending? || k.Infinity? || k.Flame? ==> n == 1
  {
    match k
    case Protection => 4
    case FireProtection => 4
    case Thorns => 3
    case _ => 1
  }

  /** The (minimum, maximum) enchanting cost of a level. */
  function Cost(k: Kind, level: int): (r: (int, int))
    requires Modelled(k)
    ensures k.Protection? ==> r.0 == 1 + (level - 1) * 11 && r.1 - r.0 == 11
    ensures k.FireProtection? ==> r.0 == 10 + (level - 1) * 8 && r.1 - r.0 == 8
    ensures k.Thorns? ==> r.0 == 10 + 20 * (level - 1) && r.1 - r.0 == 50
    ensures k.Mending? ==> r.0 == 25 * level && r.1 - r.0 == 50
    ensures k.Infinity? || k.Flame? ==> r == (20, 50)
  {
    match k
    case Protection => var min := 1 + (level - 1) * 11; (min, min + 11)
    case FireProtection => var min := 10 + (level - 1) * 8; (min, min + 8)
    case Thorns => var min := 10 + 20 * (level - 1); (min, min + 50)
    case Mending => var min := level * 25; (min, min + 50)
    case _ => (20, 50)
  }

  /** CompatibleWithEnchantment. */
  function CompatibleWithEnchantment(k: Kind, t: Kind): (ok: bool)
    requires Modelled(k)
    ensures k.Protection? ==> (!ok <==> t.BlastProtection? || t.FireProtection? || t.ProjectileProtection?)
    ensures k.FireProtection? ==> (!ok <==> t.BlastProtection? || t.ProjectileProtection? || t.Protection?)
    ensures k.Mending? ==> (!ok <==> t.Infinity?)
    ensures k.Infinity? ==> (!ok <==> t.Mending?)
    ensures k.Thorns? || k.Flame? ==> ok
  {
    match k
    case Protection => !t.BlastProtection? && !t.FireProtection? && !t.ProjectileProtection?
    case FireProtection => !t.BlastProtection? && !t.ProjectileProtection? && !t.Protection?
    case Mending => !t.Infinity?
    case Infinity => !t.Mending?
    case _ => true
  }

  /** CompatibleWithItem. */
  function CompatibleWithItem(k: Kind, i: ItemTraits): (ok: bool)
    requires Modelled(k)
    ensures k.Protection? || k.FireProtection? || k.Thorns? ==> (ok <==> i.armour)
    ensures k.Mending? ==> (ok <==> i.durable)
    ensures k.Infinity? || k.Flame? ==> (ok <==> i.bow)
  {
    match k
    case Mending => i.durable
    case Infinity => i.bow
    case Flame => i.bow
    case _ => i.armour
  }

  /** Among the modelled types, incompatibility is declared on both sides. */
  lemma IncompatibilityIsSymmetric(k: Kind, t: Kind)
    requires Modelled(k) && Modelled(t)
    ensures CompatibleWithEnchantment(k, t) == CompatibleWithEnchantment(t, k)
  {
  }

  /** No modelled type is incompatible with itself. */
  lemma CompatibleWithItself(k: Kind)
    requires Modelled(k)
    ensures CompatibleWithEnchantment(k, k)
  {
  }

  /**
   * For the protection enchantments the cost ranges of consecutive levels
   * meet end to start (a half-open range ends where the next begins).
   */
  lemma CostRangesAreContiguous(k: Kind, level: int)
    requires k.Protection? || k.FireProtection?
    ensures Cost(k, level).1 == Cost(k, level + 1).0
  {
  }

  /** For every levelled type the minimum cost strictly increases with the level. */
  lemma MinimumCostIncreases(k: Kind, level: int)
    requires k.Protection? || k.FireProtection? || k.Thorns? || k.Mending?
    ensures Cost(k, level).0 < Cost(k, level + 1).0
  {
  }

  /** Thorns' ranges overlap instead: level l's maximum lies above level l+1's minimum. */
  lemma ThornsRangesOverlap(level: int)
    ensures Cost(Thorns, level + 1).0 < Cost(Thorns, level).1
  {
  }

  /** Every level from 1 to the maximum has a non-empty cost range. */
  lemma CostRangesNonEmpty(k: Kind, level: int)
    requires Modelled(k) && 1 <= level <= MaxLevel(k)
    ensures 0 < Cost(k, level).0 < Cost(k, level).1
  {
  }
}
