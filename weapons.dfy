/**
 * The five weapon classes (Axe, Bow, Knife, Staff, Sword) as one datatype.
 * Weapons are plain records: construction validates nothing, and `equals`
 * compares the class and every field.
 */
module Weapons {
  import opened Hashing

  datatype Weapon =
    | Axe(name: string, damage: int, weight: int)
    | Bow(name: string, damage: int, weight: int)
    | Knife(name: string, damage: int, weight: int)
    | Staff(name: string, damage: int, weight: int, magicDamage: int)
    | Sword(name: string, damage: int, weight: int)

  /** The Kotlin class of a weapon, as `this::class` contributes it to the hash. */
  function ClassName(w: Weapon): string
  {
    match w
    case Axe(_, _, _) => "Axe"
    case Bow(_, _, _) => "Bow"
    case Knife(_, _, _) => "Knife"
    case Staff(_, _, _, _) => "Staff"
    case Sword(_, _, _) => "Sword"
  }

  /** The arguments of each weapon's `hashCode`. */
  function HashOf(w: Weapon): (h: HashInput)
    ensures h.className == ClassName(w) && h.name == w.name
    ensures |h.fields| >= 2 && h.fields[0] == w.damage && h.fields[1] == w.weight
    ensures w.Staff? <==> |h.fields| == 3
    ensures w.Staff? ==> h.fields[2] == w.magicDamage
  {
    match w
    case Staff(n, d, wt, md) => HashInput(ClassName(w), n, [d, wt, md])
    case _ => HashInput(ClassName(w), w.name, [w.damage, w.weight])
  }

  /**
   * Each weapon's `equals`: the other object has the same class, the same
   * hash code, and the same name, damage and weight (and magic damage for a
   * staff).
   */
  predicate Equals(a: Weapon, b: Weapon)
    ensures a == b ==> Equals(a, b)
    ensures Equals(a, b) ==> HashOf(a) == HashOf(b)
  {
    && ClassName(a) == ClassName(b)
    && HashOf(a) == HashOf(b)
    && a.name == b.name && a.damage == b.damage && a.weight == b.weight
    && (a.Staff? ==> a.magicDamage == b.magicDamage)
  }

  /** The hand-written `equals` coincides with structural equality of the records. */
  lemma EqualsIsStructural(a: Weapon, b: Weapon)
    ensures Equals(a, b) <==> a == b
  {
  }

  /** Two weapons of different classes are never equal, whatever their fields. */
  lemma EqualsIsClassSensitive(a: Weapon, b: Weapon)
    requires ClassName(a) != ClassName(b)
    ensures !Equals(a, b)
    ensures a.name == b.name && a.damage == b.damage && a.weight == b.weight ==> a != b
  {
  }

  /** Equal weapons hash alike: the hash arguments are among the compared fields. */
  lemma EqualsImpliesSameHash(a: Weapon, b: Weapon)
    requires Equals(a, b)
    ensures HashOf(a) == HashOf(b)
  {
  }

  /** Two staffs are equal exactly when name, damage, weight and magic damage agree. */
  lemma StaffEquality(a: Weapon, b: Weapon)
    requires a.Staff? && b.Staff?
    ensures Equals(a, b) <==>
      a.name == b.name && a.damage == b.damage && a.weight == b.weight && a.magicDamage == b.magicDamage
  {
  }

  /** Two axes, bows, knives or swords of the same class are equal exactly when name, damage and weight agree. */
  lemma PlainWeaponEquality(a: Weapon, b: Weapon)
    requires !a.Staff? && ClassName(a) == ClassName(b)
    ensures Equals(a, b) <==> a.name == b.name && a.damage == b.damage && a.weight == b.weight
  {
  }
}
