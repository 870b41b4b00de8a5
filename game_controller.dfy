/**
 * `GameController`: factories that sanitise invalid stats and fall back to a
 * standard weapon, weapon changes that swallow refusals, the two bounded
 * counters, the `startGame` gate and `update`.
 */
module Game {
  import opened Wrappers
  import opened KotlinInt
  import opened StatGuard
  import opened Weapons
  import opened EquipMatrix
  import opened Scheduling
  import opened Characters

  const PLAYER_CHARACTER_NUM: int := 4
  const ENEMIES_MAX: int := 8
  const STANDARD_NUM_VALUE: int := 50

  /** `toPositiveNum`: 1 for zero, the absolute value otherwise (with Kotlin's `abs`). */
  function ToPositiveNum(v: Int32): (r: Int32)
    ensures v == 0 ==> r == 1
    ensures v > 0 ==> r == v
    ensures v != INT_MIN ==> r >= 1 && (r == v || r == -v || v == 0)
    ensures v == INT_MIN ==> r == INT_MIN
  {
    if v == 0 then 1 else Abs(v)
  }

  /** The weapon a factory equips when the given one is refused: a bow, knife, sword or staff with all stats 50. */
  function StandardWeapon(role: PlayerClass): (w: Weapon)
    ensures CanEquip(w, role)
    ensures w.damage == STANDARD_NUM_VALUE && w.weight == STANDARD_NUM_VALUE
    ensures w.Staff? ==> w.magicDamage == STANDARD_NUM_VALUE
    ensures role == Engineer ==> w == Bow("Standard bow", STANDARD_NUM_VALUE, STANDARD_NUM_VALUE)
    ensures role == Thief ==> w == Knife("Standard knife", STANDARD_NUM_VALUE, STANDARD_NUM_VALUE)
    ensures role == Knight ==> w == Sword("Standard sword", STANDARD_NUM_VALUE, STANDARD_NUM_VALUE)
    ensures role.IsMage() ==>
              w == Staff("Standard staff", STANDARD_NUM_VALUE, STANDARD_NUM_VALUE, STANDARD_NUM_VALUE)
  {
    match role
    case Engineer => Bow("Standard bow", STANDARD_NUM_VALUE, STANDARD_NUM_VALUE)
    case Thief => Knife("Standard knife", STANDARD_NUM_VALUE, STANDARD_NUM_VALUE)
    case Knight => Sword("Standard sword", STANDARD_NUM_VALUE, STANDARD_NUM_VALUE)
    case BlackMage => Staff("Standard staff", STANDARD_NUM_VALUE, STANDARD_NUM_VALUE, STANDARD_NUM_VALUE)
    case WhiteMage => Staff("Standard staff", STANDARD_NUM_VALUE, STANDARD_NUM_VALUE, STANDARD_NUM_VALUE)
  }

  /** The weapon a factory leaves equipped: the given one if the class accepts it, else the standard one. */
  function WeaponToEquip(role: PlayerClass, w: Weapon): (r: Weapon)
    ensures CanEquip(r, role)
    ensures r == w <==> CanEquip(w, role)
    ensures !CanEquip(w, role) ==> r == StandardWeapon(role)
  {
    if CanEquip(w, role) then w else StandardWeapon(role)
  }

  /**
   * The weapon a factory leaves equipped when it calls the inherited `equip`
   * as written: Knight, BlackMage and WhiteMage keep whatever they are given,
   * so their fallback to the standard weapon is never reached.
   */
  function WeaponToEquipAsWritten(role: PlayerClass, w: Weapon): (r: Weapon)
    ensures role in {Knight, BlackMage, WhiteMage} ==> r == w
    ensures role in {Engineer, Thief} ==> r == WeaponToEquip(role, w)
  {
    match EquipAsWritten(role, w)
    case Success(_) => w
    case Failure(_) => StandardWeapon(role)
  }

  /** As written, `createKnight` keeps a bow where the corrected factory falls back to the standard sword. */
  lemma KnightFactoryKeepsBowAsWritten(n: string, d: int, wt: int)
    ensures WeaponToEquipAsWritten(Knight, Bow(n, d, wt)) == Bow(n, d, wt)
    ensures WeaponToEquip(Knight, Bow(n, d, wt)) == Sword("Standard sword", STANDARD_NUM_VALUE, STANDARD_NUM_VALUE)
  {
  }

  /** The stats `createEnemy` retries with: every stat sanitised, valid or not. */
  function SanitizedEnemy(name: string, weight: Int32, maxHp: Int32, defense: Int32, attack: Int32): (s: Stats)
    ensures s.EnemyStats? && s.name == name
    ensures s.InBounds() <==> weight != INT_MIN && maxHp != INT_MIN && defense != INT_MIN
    ensures attack != INT_MIN ==> s.attack >= 1
    ensures maxHp > 0 ==> s.maxHp == maxHp
    ensures defense >= 0 ==> s.defense == defense
  {
    EnemyStats(name, ToPositiveNum(weight), ToPositiveNum(maxHp), Abs(defense), ToPositiveNum(attack))
  }

  /**
   * The stats of the enemy `createEnemy` builds: the given ones when they are
   * valid, else the sanitised ones. The retry fails again only when a checked
   * stat is `Int.MIN_VALUE`, whose absolute value is still negative.
   */
  function EnemyToBuild(name: string, weight: Int32, maxHp: Int32, defense: Int32, attack: Int32): (r: Result<Stats, StatError>)
    ensures r.Success? ==> r.value.EnemyStats? && r.value.InBounds() && r.value.name == name
    ensures EnemyStats(name, weight, maxHp, defense, attack).InBounds()
            ==> r == Success(EnemyStats(name, weight, maxHp, defense, attack))
    ensures r.Failure? <==>
              !EnemyStats(name, weight, maxHp, defense, attack).InBounds()
              && (weight == INT_MIN || maxHp == INT_MIN || defense == INT_MIN)
    ensures r.Failure? ==> Fail(r.error) == CheckStats(SanitizedEnemy(name, weight, maxHp, defense, attack))
    ensures r.Success? && r.value != EnemyStats(name, weight, maxHp, defense, attack) ==>
              r.value.attack >= 1 || attack == INT_MIN
    ensures !EnemyStats(name, weight, maxHp, defense, attack).InBounds() && r.Success? ==>
              && r.value.weight == ToPositiveNum(weight) && r.value.maxHp == ToPositiveNum(maxHp)
              && r.value.defense == Abs(defense) && r.value.attack == ToPositiveNum(attack)
  {
    var raw := EnemyStats(name, weight, maxHp, defense, attack);
    if raw.InBounds() then Success(raw)
    else
      var fallback := SanitizedEnemy(name, weight, maxHp, defense, attack);
      match CheckStats(fallback)
      case Pass => Success(fallback)
      case Fail(e) => Failure(e)
  }

  /** The stats the player factories retry with; `maxMp` matters for mages only. */
  function SanitizedPlayer(role: PlayerClass, name: string, maxHp: Int32, defense: Int32, maxMp: Int32): (s: Stats)
    ensures s.PlayerStats? && s.role == role && s.name == name
    ensures s.InBounds() <==> maxHp != INT_MIN && defense != INT_MIN && (role.IsMage() ==> maxMp != INT_MIN)
    ensures maxHp > 0 ==> s.maxHp == maxHp
    ensures defense >= 0 ==> s.defense == defense
  {
    PlayerStats(role, name, ToPositiveNum(maxHp), Abs(defense), Abs(maxMp))
  }

  /**
   * The stats of the character `create<Class>` builds: the given ones when
   * valid, else the sanitised ones, failing only on `Int.MIN_VALUE`.
   */
  function PlayerToBuild(role: PlayerClass, name: string, maxHp: Int32, defense: Int32, maxMp: Int32): (r: Result<Stats, StatError>)
    ensures r.Success? ==> r.value.PlayerStats? && r.value.role == role && r.value.InBounds() && r.value.name == name
    ensures PlayerStats(role, name, maxHp, defense, maxMp).InBounds()
            ==> r == Success(PlayerStats(role, name, maxHp, defense, maxMp))
    ensures r.Failure? <==>
              !PlayerStats(role, name, maxHp, defense, maxMp).InBounds()
              && (maxHp == INT_MIN || defense == INT_MIN || (role.IsMage() && maxMp == INT_MIN))
    ensures r.Failure? ==> Fail(r.error) == CheckStats(SanitizedPlayer(role, name, maxHp, defense, maxMp))
    ensures !PlayerStats(role, name, maxHp, defense, maxMp).InBounds() && r.Success? ==>
              && r.value.maxHp == ToPositiveNum(maxHp) && r.value.defense == Abs(defense)
              && r.value.maxMp == Abs(maxMp)
  {
    var raw := PlayerStats(role, name, maxHp, defense, maxMp);
    if raw.InBounds() then Success(raw)
    else
      var fallback := SanitizedPlayer(role, name, maxHp, defense, maxMp);
      match CheckStats(fallback)
      case Pass => Success(fallback)
      case Fail(e) => Failure(e)
  }

  /** The turn timer `waitTurn` arms for each character, in list order. */
  function Timers(cs: seq<Character>): (r: seq<Timer<Character>>)
    reads cs
    requires forall c :: c in cs ==> c.Valid() && (c.cls.Enemy? || c.equippedWeapon.Some?)
    ensures |r| == |cs|
    ensures forall i :: 0 <= i < |cs| ==> r[i].owner == cs[i] && r[i].delay == cs[i].TurnDelay()
  {
    if cs == [] then []
    else
      var prefix := cs[..|cs| - 1];
      Timers(prefix) + [Timer(cs[|cs| - 1], cs[|cs| - 1].TurnDelay())]
  }

  /** Whether `c` was built from the stats `s`. */
  predicate BuiltFrom(c: Character, s: Stats)
    reads c
  {
    && c.cls == s.Class() && c.name == s.name && c.maxHp == s.maxHp && c.defense == s.defense
    && (s.EnemyStats? ==> c.weight == s.weight && c.attack == s.attack)
    && (s.HasMp() ==> c.maxMp == s.maxMp)
  }

  class GameController {
    const turnsQueue: TurnsQueue
    var playerCharacters: seq<Character>
    var enemyCharacters: seq<Character>
    var activeEnemiesCounter: int
    var activePlayerCharactersCounter: int

    /**
     * The counters stay in their ranges, and every listed character is valid,
     * shares the controller's queue, and (for players) holds a weapon.
     */
    predicate Valid()
      reads this, turnsQueue, playerCharacters, enemyCharacters
    {
      && 0 <= activeEnemiesCounter <= ENEMIES_MAX
      && 0 <= activePlayerCharactersCounter <= PLAYER_CHARACTER_NUM
      && turnsQueue.Valid()
      && (forall c :: c in enemyCharacters ==> c.Valid() && c.turnsQueue == turnsQueue && c.cls.Enemy?)
      && (forall c :: c in playerCharacters ==>
            c.Valid() && c.turnsQueue == turnsQueue && c.cls.Player? && c.equippedWeapon.Some?)
    }

    constructor ()
      ensures Valid() && fresh(turnsQueue)
      ensures turnsQueue.entries == [] && turnsQueue.armed == []
      ensures playerCharacters == [] && enemyCharacters == []
      ensures activeEnemiesCounter == 0 && activePlayerCharactersCounter == 0
    {
      turnsQueue := new TurnsQueue();
      playerCharacters := [];
      enemyCharacters := [];
      activeEnemiesCounter := 0;
      activePlayerCharactersCounter := 0;
    }

    /** The private setter of `activeEnemiesCounter`: `inRange 0..ENEMIES_MAX`. */
    method SetActiveEnemiesCounter(value: int) returns (o: Outcome<StatError>)
      requires Valid()
      modifies this`activeEnemiesCounter
      ensures Valid()
      ensures o.Pass? <==> 0 <= value <= ENEMIES_MAX
      ensures o.Fail? ==> o.error == InvalidStatValue("Active Enemies Counter", value)
      ensures activeEnemiesCounter == if o.Pass? then value else old(activeEnemiesCounter)
    {
      var checked := InRange(value, "Active Enemies Counter", 0, ENEMIES_MAX);
      if checked.Failure? {
        return Fail(checked.error);
      }
      activeEnemiesCounter := checked.value;
      return Pass;
    }

    /** The private setter of `activePlayerCharactersCounter`: `inRange 0..PLAYER_CHARACTER_NUM`. */
    method SetActivePlayerCharactersCounter(value: int) returns (o: Outcome<StatError>)
      requires Valid()
      modifies this`activePlayerCharactersCounter
      ensures Valid()
      ensures o.Pass? <==> 0 <= value <= PLAYER_CHARACTER_NUM
      ensures o.Fail? ==> o.error == InvalidStatValue("Active PlayerCharacters Counter", value)
      ensures activePlayerCharactersCounter == if o.Pass? then value else old(activePlayerCharactersCounter)
    {
      var checked := InRange(value, "Active PlayerCharacters Counter", 0, PLAYER_CHARACTER_NUM);
      if checked.Failure? {
        return Fail(checked.error);
      }
      activePlayerCharactersCounter := checked.value;
      return Pass;
    }

    /** `createEnemy`: try the given stats; if a `Require` fails, retry with sanitised ones. */
    method CreateEnemy(name: string, weight: Int32, maxHp: Int32, defense: Int32, attack: Int32)
      returns (r: Result<Character, StatError>)
      requires Valid()
      ensures r.Success? <==> EnemyToBuild(name, weight, maxHp, defense, attack).Success?
      ensures r.Failure? ==> r.error == EnemyToBuild(name, weight, maxHp, defense, attack).error
      ensures r.Success? ==> fresh(r.value) && r.value.Valid() && r.value.turnsQueue == turnsQueue
      ensures r.Success? ==> BuiltFrom(r.value, EnemyToBuild(name, weight, maxHp, defense, attack).value)
      ensures EnemyStats(name, weight, maxHp, defense, attack).InBounds() ==>
                r.Success? && BuiltFrom(r.value, EnemyStats(name, weight, maxHp, defense, attack))
      ensures !EnemyStats(name, weight, maxHp, defense, attack).InBounds() && r.Success? ==>
                BuiltFrom(r.value, SanitizedEnemy(name, weight, maxHp, defense, attack))
      ensures r.Success? ==> r.value.currentHp == r.value.maxHp
    {
      var raw := EnemyStats(name, weight, maxHp, defense, attack);
      r := Character.New(raw, turnsQueue);
      if r.Failure? {
        r := Character.New(SanitizedEnemy(name, weight, maxHp, defense, attack), turnsQueue);
      }
    }

    /**
     * `createEngineer`, `createThief`, `createKnight`, `createBlackMage` and
     * `createWhiteMage`: build with sanitising fallback, then equip the given
     * weapon or, if the class refuses it, the class's standard weapon.
     * `maxMp` is an argument of the two mage factories only.
     */
    method CreatePlayerCharacter(role: PlayerClass, name: string, maxHp: Int32, defense: Int32, maxMp: Int32, weapon: Weapon)
      returns (r: Result<Character, StatError>)
      requires Valid()
      ensures r.Success? <==> PlayerToBuild(role, name, maxHp, defense, maxMp).Success?
      ensures r.Failure? ==> r.error == PlayerToBuild(role, name, maxHp, defense, maxMp).error
      ensures r.Success? ==> fresh(r.value) && r.value.Valid() && r.value.turnsQueue == turnsQueue
      ensures r.Success? ==> BuiltFrom(r.value, PlayerToBuild(role, name, maxHp, defense, maxMp).value)
      ensures PlayerStats(role, name, maxHp, defense, maxMp).InBounds() ==>
                r.Success? && BuiltFrom(r.value, PlayerStats(role, name, maxHp, defense, maxMp))
      ensures !PlayerStats(role, name, maxHp, defense, maxMp).InBounds() && r.Success? ==>
                BuiltFrom(r.value, SanitizedPlayer(role, name, maxHp, defense, maxMp))
      ensures r.Success? ==> r.value.currentHp == r.value.maxHp
      ensures r.Success? && r.value.HasMp() ==> r.value.currentMp == r.value.maxMp
      ensures r.Success? ==> r.value.equippedWeapon == Some(WeaponToEquip(role, weapon))
    {
      var raw := PlayerStats(role, name, maxHp, defense, maxMp);
      r := Character.New(raw, turnsQueue);
      if r.Failure? {
        r := Character.New(SanitizedPlayer(role, name, maxHp, defense, maxMp), turnsQueue);
        if r.Failure? {
          return;
        }
      }
      var c := r.value;
      var equipped := c.Equip(weapon);
      if equipped.Fail? {
        equipped := c.Equip(StandardWeapon(role));
      }
    }

    /** `changeWeapon`: equip if the class accepts the weapon; a refusal is swallowed. */
    method ChangeWeapon(c: Character, weapon: Weapon)
      requires c.Valid() && c.cls.Player?
      modifies c`equippedWeapon
      ensures c.Valid()
      ensures c.equippedWeapon == if CanEquip(weapon, c.cls.role) then Some(weapon) else old(c.equippedWeapon)
    {
      var _ := c.Equip(weapon);
    }

    /**
     * `startGame`: only with exactly `PLAYER_CHARACTER_NUM` active player
     * characters, arm every enemy's timer and then every player character's.
     */
    method StartGame()
      requires Valid()
      modifies turnsQueue`armed
      ensures Valid()
      ensures activePlayerCharactersCounter != PLAYER_CHARACTER_NUM ==> turnsQueue.armed == old(turnsQueue.armed)
      ensures activePlayerCharactersCounter == PLAYER_CHARACTER_NUM ==>
                turnsQueue.armed == old(turnsQueue.armed) + Timers(enemyCharacters) + Timers(playerCharacters)
    {
      if activePlayerCharactersCounter != PLAYER_CHARACTER_NUM {
        return;
      }
      ArmAll(enemyCharacters);
      ArmAll(playerCharacters);
    }

    /** One `for` loop of `startGame`: `waitTurn` on every character of a list, in order. */
    method ArmAll(cs: seq<Character>)
      requires turnsQueue.Valid()
      requires forall c :: c in cs ==> c.Valid() && c.turnsQueue == turnsQueue && (c.cls.Enemy? || c.equippedWeapon.Some?)
      modifies turnsQueue`armed
      ensures turnsQueue.Valid()
      ensures turnsQueue.armed == old(turnsQueue.armed) + Timers(cs)
    {
      var i := 0;
      while i < |cs|
        invariant 0 <= i <= |cs|
        invariant turnsQueue.Valid()
        invariant turnsQueue.armed == old(turnsQueue.armed) + Timers(cs[..i])
      {
        var o := cs[i].WaitTurn();
        assert cs[..i + 1][..i] == cs[..i];
        i := i + 1;
      }
      assert cs[..i] == cs;
    }

    /** `update`: removes the first queue entry equal to the character, if any. */
    method Update(c: Character)
      modifies turnsQueue`entries
      ensures turnsQueue.entries == RemoveFirstEqual(old(turnsQueue.entries), c)
    {
      var _ := turnsQueue.Remove(c);
    }
  }
}
