/**
 * Which player class may hold which weapon. In the Kotlin code this is double
 * dispatch: `character.equip(weapon)` calls `weapon.equipToX(character)`, which
 * either assigns the weapon or throws `UnableToEquipException`.
 */
module EquipMatrix {
  import opened Weapons

  datatype PlayerClass = Engineer | Knight | Thief | BlackMage | WhiteMage {
    /** Black and white mages carry mana points. */
    predicate IsMage() { this == BlackMage || this == WhiteMage }
  }

  /** The weapon-side rows: each weapon file's `equipToX` methods that assign rather than throw. */
  predicate CanEquip(w: Weapon, role: PlayerClass)
    ensures CanEquip(w, role) && w.Staff? ==> role.IsMage()
    ensures CanEquip(w, role) && role.IsMage() ==> w.Staff? || w.Knife?
  {
    match w
    case Axe(_, _, _) => role == Engineer || role == Knight
    case Bow(_, _, _) => role == Thief || role == Engineer
    case Knife(_, _, _) => role == BlackMage || role == Knight || role == Thief
    case Staff(_, _, _, _) => role == WhiteMage || role == BlackMage
    case Sword(_, _, _) => role == Knight || role == Thief
  }

  /** The class-side columns: what each class's documentation and tests say it can hold. */
  predicate Wields(role: PlayerClass, w: Weapon)
    ensures Wields(role, w) && w.Staff? ==> role.IsMage()
    ensures Wields(role, w) && role.IsMage() ==> w.Staff? || w.Knife?
  {
    match role
    case Engineer => w.Axe? || w.Bow?
    case Knight => w.Sword? || w.Axe? || w.Knife?
    case Thief => w.Sword? || w.Knife? || w.Bow?
    case BlackMage => w.Knife? || w.Staff?
    case WhiteMage => w.Staff?
  }

  /** The weapon-side dispatch and the class-side table agree on all 25 pairs. */
  lemma DispatchMatchesClassTable(w: Weapon, role: PlayerClass)
    ensures CanEquip(w, role) <==> Wields(role, w)
  {
  }

  /** Equipability depends on the weapon's class only, never on its stats. */
  lemma EquipIgnoresStats(a: Weapon, b: Weapon, role: PlayerClass)
    requires ClassName(a) == ClassName(b)
    ensures CanEquip(a, role) <==> CanEquip(b, role)
  {
  }

  /** Axe: Engineer and Knight accept it; BlackMage, WhiteMage and Thief refuse it. */
  lemma AxeRow(n: string, d: int, wt: int, role: PlayerClass)
    ensures CanEquip(Axe(n, d, wt), role) <==> role in {Engineer, Knight}
  {
  }

  /** Bow: Thief and Engineer accept it; Knight, BlackMage and WhiteMage refuse it. */
  lemma BowRow(n: string, d: int, wt: int, role: PlayerClass)
    ensures CanEquip(Bow(n, d, wt), role) <==> role in {Thief, Engineer}
  {
  }

  /** Knife: BlackMage, Knight and Thief accept it; WhiteMage and Engineer refuse it. */
  lemma KnifeRow(n: string, d: int, wt: int, role: PlayerClass)
    ensures CanEquip(Knife(n, d, wt), role) <==> role in {BlackMage, Knight, Thief}
  {
  }

  /** Staff: WhiteMage and BlackMage accept it; Engineer, Knight and Thief refuse it. */
  lemma StaffRow(n: string, d: int, wt: int, md: int, role: PlayerClass)
    ensures CanEquip(Staff(n, d, wt, md), role) <==> role in {WhiteMage, BlackMage}
  {
  }

  /** Sword: Knight and Thief accept it; BlackMage, Engineer and WhiteMage refuse it. */
  lemma SwordRow(n: string, d: int, wt: int, role: PlayerClass)
    ensures CanEquip(Sword(n, d, wt), role) <==> role in {Knight, Thief}
  {
  }
}
