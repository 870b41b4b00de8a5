/**
 * Game characters: enemies and the five player classes. The Kotlin hierarchy
 * (AbstractCharacter, AbstractPlayerCharacter, AbstractMagicPlayerCharacter
 * and the concrete classes) becomes one class with a class tag; the stats a
 * class does not have are unused there.
 */
module Characters {
  import opened Wrappers
  import opened KotlinInt
  import opened StatGuard
  import opened Hashing
  import opened Weapons
  import opened EquipMatrix
  import opened Scheduling

  datatype CharacterClass = Enemy | Player(role: PlayerClass)

  /** `UnableToEquipException`. */
  datatype EquipError = UnableToEquip(role: PlayerClass, weapon: Weapon)

  /** `waitTurn` on a player character whose `lateinit` weapon was never set. */
  datatype TurnError = WeaponNotInitialized

  /**
   * Constructor arguments. `maxMp` is read only for the two mage classes;
   * an enemy's `attack` is stored unchecked.
   */
  datatype Stats =
    | EnemyStats(name: string, weight: int, maxHp: int, defense: int, attack: int)
    | PlayerStats(role: PlayerClass, name: string, maxHp: int, defense: int, maxMp: int)
  {
    function Class(): CharacterClass
    {
      if EnemyStats? then Enemy else Player(role)
    }

    predicate HasMp()
    {
      PlayerStats? && role.IsMage()
    }

    /** Every bound the constructors enforce. */
    predicate InBounds()
    {
      && maxHp >= 1 && defense >= 0
      && (EnemyStats? ==> weight >= 1)
      && (HasMp() ==> maxMp >= 0)
    }
  }

  /**
   * The `Require` checks of a constructor, in property initialisation order:
   * the base class's `maxHp` and `defense`, then the subclass's `weight` or
   * `maxMp`.
   */
  function Checks(s: Stats): (r: seq<Result<int, StatError>>)
    ensures |r| == if s.EnemyStats? || s.HasMp() then 3 else 2
    ensures (forall i :: 0 <= i < |r| ==> r[i].Success?) <==> s.InBounds()
    ensures r[0].Failure? ==> r[0].error.stat == "Max Hp"
    ensures r[1].Failure? ==> r[1].error.stat == "Defense"
  {
    var base := [AtLeast(s.maxHp, "Max Hp", 1), AtLeast(s.defense, "Defense", 0)];
    var own := if s.EnemyStats? then [AtLeast(s.weight, "Weight", 1)]
               else if s.HasMp() then [AtLeast(s.maxMp, "Max MP", 0)]
               else [];
    assert (base + own)[0] == base[0] && (base + own)[1] == base[1];
    assert |own| == 1 ==> (base + own)[2] == own[0];
    assert s.InBounds() <==> base[0].Success? && base[1].Success? && (|own| == 1 ==> own[0].Success?);
    base + own
  }

  /** Whether construction succeeds, and if not, which stat is reported. */
  function CheckStats(s: Stats): (r: Outcome<StatError>)
    ensures r.Pass? <==> s.InBounds()
    ensures s.maxHp < 1 ==> r == Fail(InvalidStatValue("Max Hp", s.maxHp))
    ensures s.maxHp >= 1 && s.defense < 0 ==> r == Fail(InvalidStatValue("Defense", s.defense))
    ensures s.maxHp >= 1 && s.defense >= 0 && s.EnemyStats? && s.weight < 1
            ==> r == Fail(InvalidStatValue("Weight", s.weight))
    ensures s.maxHp >= 1 && s.defense >= 0 && s.HasMp() && s.maxMp < 0
            ==> r == Fail(InvalidStatValue("Max MP", s.maxMp))
  {
    var checks := Checks(s);
    var r := FirstViolation(checks);
    assert checks[0].Success? <==> s.maxHp >= 1;
    assert checks[1].Success? <==> s.defense >= 0;
    assert s.EnemyStats? ==> |checks| == 3 && (checks[2].Success? <==> s.weight >= 1);
    assert s.HasMp() ==> |checks| == 3 && (checks[2].Success? <==> s.maxMp >= 0);
    assert !s.EnemyStats? && !s.HasMp() ==> |checks| == 2;
    r
  }

  /**
   * The turns queue shared by all characters of a game: `entries` is the
   * `LinkedBlockingQueue` and `armed` the timers scheduled by `waitTurn`
   * that have not fired yet.
   */
  class TurnsQueue {
    var entries: seq<Character>
    var armed: seq<Timer<Character>>

    /** Every pending timer belongs to a character that enqueues itself here. */
    predicate Valid()
      reads this
    {
      forall t :: t in armed ==> t.owner.turnsQueue == this
    }

    constructor ()
      ensures Valid() && entries == [] && armed == []
    {
      entries := [];
      armed := [];
    }

    /**
     * Lets every pending timer fire, smaller delay first; each fired timer
     * runs its owner's `addToQueue`.
     */
    method FireAll()
      requires Valid()
      modifies this
      ensures Valid()
      ensures armed == []
      ensures entries == old(entries) + Owners(FiringOrder(old(armed)))
    {
      var order := FiringOrder(armed);
      forall t | t in order
        ensures t.owner.turnsQueue == this
      {
        FiredWereArmed(armed, t);
      }
      var i := 0;
      while i < |order|
        invariant 0 <= i <= |order|
        invariant armed == old(armed)
        invariant entries == old(entries) + Owners(order[..i])
      {
        var t := order[i];
        assert t in order;
        t.owner.AddToQueue();
        assert order[..i + 1] == order[..i] + [t];
        OwnersSnoc(order[..i], t);
        i := i + 1;
      }
      assert order[..i] == order;
      armed := [];
    }

    /**
     * `BlockingQueue.remove(character)`: removes the first entry that the
     * character's `equals` matches, and tells whether there was one.
     */
    method Remove(c: Character) returns (removed: bool)
      modifies this`entries
      ensures removed <==> exists j :: 0 <= j < |old(entries)| && c.Equals(old(entries)[j])
      ensures entries == RemoveFirstEqual(old(entries), c)
    {
      removed := FirstEqual(entries, c).Some?;
      entries := RemoveFirstEqual(entries, c);
    }
  }

  class Character {
    const cls: CharacterClass
    const name: string
    const maxHp: int
    const defense: int
    const weight: int
    const attack: int
    const maxMp: int
    const turnsQueue: TurnsQueue
    var currentHp: int
    var currentMp: int
    var equippedWeapon: Option<Weapon>

    predicate HasMp()
    {
      cls.Player? && cls.role.IsMage()
    }

    /** The bounds every constructor and setter keeps. */
    predicate Valid()
      reads this
    {
      && maxHp >= 1 && 0 <= currentHp <= maxHp
      && defense >= 0
      && (cls.Enemy? ==> weight >= 1 && equippedWeapon.None?)
      && (HasMp() ==> 0 <= maxMp && 0 <= currentMp <= maxMp)
      && (equippedWeapon.Some? ==> cls.Player? && CanEquip(equippedWeapon.value, cls.role))
    }

    /** A character built from stats that pass every check: full HP and MP, no weapon yet. */
    constructor (s: Stats, q: TurnsQueue)
      requires CheckStats(s).Pass?
      ensures Valid()
      ensures cls == s.Class() && name == s.name && maxHp == s.maxHp && defense == s.defense
      ensures s.EnemyStats? ==> weight == s.weight && attack == s.attack
      ensures s.HasMp() ==> maxMp == s.maxMp
      ensures currentHp == maxHp && currentMp == maxMp
      ensures equippedWeapon == None
      ensures turnsQueue == q
    {
      cls := s.Class();
      name := s.name;
      maxHp := s.maxHp;
      defense := s.defense;
      weight := if s.EnemyStats? then s.weight else 0;
      attack := if s.EnemyStats? then s.attack else 0;
      maxMp := if s.HasMp() then s.maxMp else 0;
      turnsQueue := q;
      currentHp := s.maxHp;
      currentMp := if s.HasMp() then s.maxMp else 0;
      equippedWeapon := None;
    }

    /** Construction, failing with the first stat whose `Require` fails. */
    static method New(s: Stats, q: TurnsQueue) returns (r: Result<Character, StatError>)
      ensures r.Success? <==> s.InBounds()
      ensures r.Failure? ==> Fail(r.error) == CheckStats(s)
      ensures r.Success? ==> fresh(r.value) && r.value.Valid() && r.value.turnsQueue == q
      ensures r.Success? ==> r.value.cls == s.Class() && r.value.name == s.name
      ensures r.Success? ==> r.value.maxHp == s.maxHp && r.value.defense == s.defense
      ensures r.Success? && s.EnemyStats? ==> r.value.weight == s.weight && r.value.attack == s.attack
      ensures r.Success? && s.HasMp() ==> r.value.maxMp == s.maxMp
      ensures r.Success? ==> r.value.currentHp == s.maxHp && r.value.equippedWeapon == None
      ensures r.Success? && s.HasMp() ==> r.value.currentMp == s.maxMp
    {
      var check := CheckStats(s);
      if check.Fail? {
        return Failure(check.error);
      }
      var c := new Character(s, q);
      return Success(c);
    }

    /** The `currentHp` setter: `Require.Stat(value, "Current Hp") inRange 0..maxHp`. */
    method SetCurrentHp(value: int) returns (o: Outcome<StatError>)
      requires Valid()
      modifies this`currentHp
      ensures Valid()
      ensures o.Pass? <==> 0 <= value <= maxHp
      ensures o.Fail? ==> o.error == InvalidStatValue("Current Hp", value)
      ensures currentHp == if o.Pass? then value else old(currentHp)
      ensures currentMp == old(currentMp) && equippedWeapon == old(equippedWeapon)
    {
      var checked := InRange(value, "Current Hp", 0, maxHp);
      if checked.Failure? {
        return Fail(checked.error);
      }
      currentHp := checked.value;
      return Pass;
    }

    /** The mages' `currentMp` setter: `Require.Stat(value, "Current MP") inRange 0..maxMp`. */
    method SetCurrentMp(value: int) returns (o: Outcome<StatError>)
      requires Valid() && HasMp()
      modifies this`currentMp
      ensures Valid()
      ensures o.Pass? <==> 0 <= value <= maxMp
      ensures o.Fail? ==> o.error == InvalidStatValue("Current MP", value)
      ensures currentMp == if o.Pass? then value else old(currentMp)
      ensures currentHp == old(currentHp) && equippedWeapon == old(equippedWeapon)
    {
      var checked := InRange(value, "Current MP", 0, maxMp);
      if checked.Failure? {
        return Fail(checked.error);
      }
      currentMp := checked.value;
      return Pass;
    }

    /**
     * `equip(weapon)`, dispatched to `weapon.equipToX(this)`: the weapon is
     * assigned when the pair is compatible; otherwise `UnableToEquipException`
     * is thrown before any assignment.
     */
    method Equip(w: Weapon) returns (o: Outcome<EquipError>)
      requires Valid() && cls.Player?
      modifies this`equippedWeapon
      ensures Valid()
      ensures o.Pass? <==> CanEquip(w, cls.role)
      ensures o.Fail? ==> o.error == UnableToEquip(cls.role, w)
      ensures equippedWeapon == if o.Pass? then Some(w) else old(equippedWeapon)
      ensures currentHp == old(currentHp) && currentMp == old(currentMp)
    {
      if !CanEquip(w, cls.role) {
        return Fail(UnableToEquip(cls.role, w));
      }
      equippedWeapon := Some(w);
      return Pass;
    }

    /** The weight that sets the turn delay: the enemy's own, or its weapon's for a player. */
    function CarriedWeight(): (g: int)
      reads this
      requires Valid() && (cls.Enemy? || equippedWeapon.Some?)
      ensures cls.Enemy? ==> g >= 1 && g == weight
      ensures cls.Player? ==> g == equippedWeapon.value.weight
    {
      if cls.Enemy? then weight else equippedWeapon.value.weight
    }

    /** `(weight / 10).toLong()` seconds, with Kotlin's truncating division. */
    function TurnDelay(): (d: int)
      reads this
      requires Valid() && (cls.Enemy? || equippedWeapon.Some?)
      ensures CarriedWeight() >= 0 ==> 0 <= d && 10 * d <= CarriedWeight() < 10 * d + 10
      ensures CarriedWeight() < 0 ==> d <= 0 && 10 * d - 10 < CarriedWeight() <= 10 * d
      ensures cls.Enemy? ==> d >= 0
    {
      Div10(CarriedWeight())
    }

    /** `waitTurn`: schedules this character's `addToQueue` after its turn delay. */
    method WaitTurn() returns (o: Outcome<TurnError>)
      requires Valid() && turnsQueue.Valid()
      modifies turnsQueue`armed
      ensures turnsQueue.Valid()
      ensures o.Fail? <==> cls.Player? && equippedWeapon.None?
      ensures o.Pass? ==> turnsQueue.armed == old(turnsQueue.armed) + [Timer(this, TurnDelay())]
      ensures o.Fail? ==> turnsQueue.armed == old(turnsQueue.armed)
    {
      if cls.Player? && equippedWeapon.None? {
        return Fail(WeaponNotInitialized);
      }
      turnsQueue.armed := turnsQueue.armed + [Timer(this, TurnDelay())];
      return Pass;
    }

    /** `addToQueue`: puts this character at the tail of the turns queue. */
    method AddToQueue()
      modifies turnsQueue`entries
      ensures turnsQueue.entries == old(turnsQueue.entries) + [this]
    {
      turnsQueue.entries := turnsQueue.entries + [this];
    }

    /**
     * The arguments of each class's `hashCode`. The white mage's hash leaves
     * out `currentHp` and `currentMp`, which its `equals` compares.
     */
    function HashOf(): (h: HashInput)
      reads this
      ensures h.name == name && maxHp in h.fields && defense in h.fields
      ensures cls.Enemy? ==> weight in h.fields && attack in h.fields
      ensures HasMp() ==> maxMp in h.fields
      ensures cls.Player? && cls.role != WhiteMage ==> currentHp in h.fields
    {
      match cls
      case Enemy => HashInput("Enemy", name, [weight, maxHp, defense, attack])
      case Player(Engineer) => HashInput("Engineer", name, [maxHp, currentHp, defense])
      case Player(Knight) => HashInput("Knight", name, [maxHp, currentHp, defense])
      case Player(Thief) => HashInput("Thief", name, [maxHp, currentHp, defense])
      case Player(BlackMage) => HashInput("BlackMage", name, [maxHp, maxMp, currentHp, currentMp, defense])
      case Player(WhiteMage) => HashInput("WhiteMage", name, [maxHp, maxMp, defense])
    }

    /** The fields each class's `equals` compares after the class and hash checks. */
    predicate SameFields(other: Character)
      reads this, other
    {
      && name == other.name && maxHp == other.maxHp && defense == other.defense
      && (cls.Enemy? ==> weight == other.weight && attack == other.attack)
      && (cls.Player? ==> currentHp == other.currentHp)
      && (HasMp() ==> maxMp == other.maxMp && currentMp == other.currentMp)
    }

    /** `equals`: identity, then same class, then same hash, then the compared fields. */
    predicate Equals(other: Character)
      reads this, other
      ensures this == other ==> Equals(other)
      ensures Equals(other) ==> HashOf() == other.HashOf()
      ensures Equals(other) && this != other ==> cls == other.cls && name == other.name && maxHp == other.maxHp
    {
      || this == other
      || (cls == other.cls && HashOf() == other.HashOf() && SameFields(other))
    }
  }

  /** A character that carries more weight never gets a shorter turn delay. */
  lemma HeavierWaitsNoLess(a: Character, b: Character)
    requires a.Valid() && (a.cls.Enemy? || a.equippedWeapon.Some?)
    requires b.Valid() && (b.cls.Enemy? || b.equippedWeapon.Some?)
    requires a.CarriedWeight() <= b.CarriedWeight()
    ensures a.TurnDelay() <= b.TurnDelay()
  {
    Div10Monotone(a.CarriedWeight(), b.CarriedWeight());
  }

  /** Two enemies are equal exactly when name, weight, maxHp, defense and attack agree; currentHp is ignored. */
  lemma EnemyEquality(a: Character, b: Character)
    requires a.cls == Enemy && b.cls == Enemy
    ensures a.Equals(b) <==>
      a.name == b.name && a.weight == b.weight && a.maxHp == b.maxHp && a.defense == b.defense && a.attack == b.attack
  {
  }

  /**
   * Two engineers, two knights or two thieves are equal exactly when name,
   * maxHp, currentHp and defense agree; the equipped weapon is ignored.
   */
  lemma FighterEquality(a: Character, b: Character)
    requires a.cls == b.cls && a.cls in {Player(Engineer), Player(Knight), Player(Thief)}
    ensures a.Equals(b) <==>
      a.name == b.name && a.maxHp == b.maxHp && a.currentHp == b.currentHp && a.defense == b.defense
  {
  }

  /**
   * Two black mages, or two white mages, are equal exactly when name, maxHp,
   * currentHp, maxMp, currentMp and defense agree.
   */
  lemma MageEquality(a: Character, b: Character)
    requires a.cls == b.cls && a.HasMp()
    ensures a.Equals(b) <==>
      && a.name == b.name && a.maxHp == b.maxHp && a.currentHp == b.currentHp
      && a.maxMp == b.maxMp && a.currentMp == b.currentMp && a.defense == b.defense
  {
  }

  /** A character never equals one of another class. */
  lemma NeverEqualsOtherClass(a: Character, b: Character)
    requires a.cls != b.cls
    ensures !a.Equals(b) && !b.Equals(a)
  {
  }

  /** Equal characters hash alike: each hash reads only fields that `equals` compares. */
  lemma EqualsImpliesSameHash(a: Character, b: Character)
    requires a.Equals(b)
    ensures a.HashOf() == b.HashOf()
  {
  }

  /** `equals` is symmetric on characters. */
  lemma EqualsIsSymmetric(a: Character, b: Character)
    ensures a.Equals(b) <==> b.Equals(a)
  {
  }

  /** The position of the first queue entry that `c.equals` matches, if any. */
  function FirstEqual(q: seq<Character>, c: Character): (r: Option<nat>)
    reads c, q
    ensures r.None? <==> forall j :: 0 <= j < |q| ==> !c.Equals(q[j])
    ensures r.Some? ==> r.value < |q| && c.Equals(q[r.value])
    ensures r.Some? ==> forall j :: 0 <= j < r.value ==> !c.Equals(q[j])
  {
    if q == [] then None
    else if c.Equals(q[0]) then Some(0)
    else
      var rest := FirstEqual(q[1..], c);
      assert forall j :: 1 <= j < |q| ==> q[j] == q[1..][j - 1];
      if rest.None? then None else Some(rest.value + 1)
  }

  /** The queue after `remove(c)`: without its first entry equal to `c`, if there is one. */
  function RemoveFirstEqual(q: seq<Character>, c: Character): (r: seq<Character>)
    reads c, q
    ensures (forall j :: 0 <= j < |q| ==> !c.Equals(q[j])) ==> r == q
    ensures (exists j :: 0 <= j < |q| && c.Equals(q[j])) ==>
      exists k :: 0 <= k < |q| && c.Equals(q[k]) && (forall j :: 0 <= j < k ==> !c.Equals(q[j]))
                  && r == q[..k] + q[k + 1..]
  {
    match FirstEqual(q, c)
    case None => q
    case Some(k) => q[..k] + q[k + 1..]
  }

  /** Removing a present character takes out exactly one entry and keeps the others in order. */
  lemma RemoveTakesOne(q: seq<Character>, c: Character)
    requires exists j :: 0 <= j < |q| && c.Equals(q[j])
    ensures |RemoveFirstEqual(q, c)| == |q| - 1
    ensures multiset(RemoveFirstEqual(q, c)) < multiset(q)
  {
    var k := FirstEqual(q, c).value;
    assert q == q[..k] + [q[k]] + q[k + 1..];
    assert multiset(q) == multiset(q[..k] + q[k + 1..]) + multiset{q[k]};
  }

  /**
   * The inherited `AbstractPlayerCharacter.equip` as written: Knight,
   * BlackMage and WhiteMage do not override it, so it assigns any weapon.
   * Engineer and Thief (whose source file is not shown) dispatch to the
   * weapon.
   */
  function EquipAsWritten(role: PlayerClass, w: Weapon): (r: Result<Option<Weapon>, EquipError>)
    ensures role in {Knight, BlackMage, WhiteMage} ==> r == Success(Some(w))
    ensures role in {Engineer, Thief} ==> (r.Success? <==> CanEquip(w, role))
    ensures r.Success? ==> r.value == Some(w)
    ensures r.Failure? ==> r.error == UnableToEquip(role, w)
  {
    if role in {Engineer, Thief} && !CanEquip(w, role) then Failure(UnableToEquip(role, w))
    else Success(Some(w))
  }

  /** A knight holds a staff when the inherited `equip` is used, though the staff refuses knights. */
  lemma KnightTakesStaffAsWritten(n: string, d: int, wt: int, md: int)
    ensures EquipAsWritten(Knight, Staff(n, d, wt, md)) == Success(Some(Staff(n, d, wt, md)))
    ensures !CanEquip(Staff(n, d, wt, md), Knight)
  {
  }

  /** On every pair the corrected dispatch accepts, the inherited `equip` agrees with it. */
  lemma EquipAsWrittenAgreesOnAccepted(role: PlayerClass, w: Weapon)
    requires CanEquip(w, role)
    ensures EquipAsWritten(role, w) == Success(Some(w))
  {
  }
}
