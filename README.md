# Final Reality: a Dafny model of the character, weapon and controller core

"Final Reality" is a small turn-based combat game written in Kotlin. This project models its core and proves properties of that model:

- **Stat guard.** `Require.Stat(value, name) atLeast k` and `inRange a..b` either return the value or throw `InvalidStatValueException`.
- **Characters.** Enemies, engineers, knights, thieves, black mages and white mages. Their stats are validated when they are built. Their `currentHp` and `currentMp` setters check the new value. Each class has its own hand-written `equals` and `hashCode`.
- **Weapons.** Axes, bows, knives, staffs and swords are unvalidated records with class-sensitive equality.
- **Equip matrix.** This is the double dispatch `character.equip(weapon)` → `weapon.equipToX(character)`. Each pair either assigns the weapon or throws `UnableToEquipException`.
- **Turn queue.** Each `waitTurn` arms a timer of `weight / 10` seconds: the enemy's own weight, or the weight of a player character's weapon. When the timer fires, `addToQueue` appends the character to the shared queue.
- **`GameController`.**
  - `toPositiveNum`.
  - The factories, which retry with sanitised stats and fall back to a standard weapon.
  - `changeWeapon`, which swallows refusals.
  - The two bounded counters.
  - The `startGame` gate.
  - `update`, which removes one queue entry equal to a character.

Modules:

| file | module | what it holds |
|---|---|---|
| `wrappers.dfy` | `Wrappers` | `Option`, `Result` and `Outcome` (no-value success or error), standing in for thrown exceptions |
| `kotlin_int.dfy` | `KotlinInt` | Kotlin's 32-bit `Int`, `abs` (where `abs(Int.MIN_VALUE)` stays negative) and truncating division by 10 |
| `stat_guard.dfy` | `StatGuard` | `atLeast`, `inRange`, and the first failing check of a constructor |
| `hashing.dfy` | `Hashing` | the argument list of `Objects.hash`, which the model keeps in place of the hash code |
| `weapons.dfy` | `Weapons` | the weapon datatype, its `equals` and its hash arguments |
| `equip_matrix.dfy` | `EquipMatrix` | player classes and the 5×5 equip matrix |
| `scheduling.dfy` | `Scheduling` | armed timers and the order in which they fire |
| `characters.dfy` | `Characters` | the `Character` and `TurnsQueue` classes, equality, queue removal, and the inherited `equip` as written |
| `game_controller.dfy` | `Game` | `toPositiveNum`, the factories, the counters, `startGame` and `update` |

Characters are one class with a class tag (`Enemy` or `Player(role)`) instead of the Kotlin class hierarchy. The constant stats a class does not have are unused for that class.

The concurrent part of the turn queue is modelled sequentially:
- `TurnsQueue.armed` holds the timers that `waitTurn` scheduled.
- `TurnsQueue.FireAll` lets all of them fire, shortest wait first.
- Timers with equal waits fire in arming order (`Scheduling.FiringOrderIsStable`).

A negative delay counts as zero, as a scheduled executor treats it.

In the source, neither the factories nor anything else adds characters to `playerCharacters` or `enemyCharacters`, and nothing calls the counters' private setters. So `startGame` never passes its gate. The model keeps the lists, the setters and the gate as written.

## Model

Source paths are relative to the repository root.

| member | source | states |
|---|---|---|
| `KotlinInt.Abs` | src/main/kotlin/cl/uchile/dcc/finalreality/GameController.kt:31 | Kotlin's `abs` on a 32-bit `Int`: the magnitude, non-negative, for every value except `Int.MIN_VALUE`, which it returns unchanged (negative) |
| `KotlinInt.Div10` | src/main/kotlin/cl/uchile/dcc/finalreality/model/character/Enemy.kt:63 | Kotlin's `weight / 10` truncates: for a non-negative dividend the quotient q satisfies 10q ≤ a < 10q + 10; for a negative one it rounds toward zero |
| `StatGuard.AtLeast` | src/test/kotlin/cl/uchile/dcc/finalreality/exceptions/RequireTest.kt:16-51 | `atLeast` succeeds exactly when least ≤ value (so value == least is accepted) and then hands back the value unchanged; otherwise it fails with that stat's name and the rejected value |
| `StatGuard.InRange` | src/test/kotlin/cl/uchile/dcc/finalreality/exceptions/RequireTest.kt:53-99 | `inRange` succeeds exactly when start ≤ value ≤ end (inclusive at both ends), returning the value; below the start or above the end it fails with the stat and value |
| `StatGuard.FirstViolation` | src/main/kotlin/cl/uchile/dcc/finalreality/model/character/AbstractCharacter.kt:36-41 | a constructor's sequence of checks passes exactly when every check passes; otherwise it fails with the error of the first failing check, since the first throw aborts construction |
| `Weapons.HashOf` | src/main/kotlin/cl/uchile/dcc/finalreality/model/weapons/Staff.kt:44 | a weapon's hash arguments are its class, name, damage and weight, plus magic damage exactly for a staff |
| `Weapons.Equals` | src/main/kotlin/cl/uchile/dcc/finalreality/model/weapons/Axe.kt:30-38 | each weapon's `equals` (class, then hash, then fields) is reflexive on equal values and implies equal hash arguments |
| `Weapons.EqualsIsStructural` | src/main/kotlin/cl/uchile/dcc/finalreality/model/weapons/Axe.kt:30-38 | the hand-written `equals` (class, hash, then fields) holds exactly when the two weapons are the same value |
| `Weapons.EqualsIsClassSensitive` | src/main/kotlin/cl/uchile/dcc/finalreality/model/weapons/Bow.kt:31-39 | weapons of different classes are never equal, even when name, damage and weight coincide |
| `Weapons.EqualsImpliesSameHash` | src/main/kotlin/cl/uchile/dcc/finalreality/model/weapons/Axe.kt:40 | equal weapons have the same hash arguments, so the same hash code |
| `Weapons.StaffEquality` | src/main/kotlin/cl/uchile/dcc/finalreality/model/weapons/Staff.kt:33-42 | two staffs are equal iff name, damage, weight and magic damage all agree |
| `Weapons.PlainWeaponEquality` | src/main/kotlin/cl/uchile/dcc/finalreality/model/weapons/Knife.kt:31-39 | two axes, bows, knives or swords of one class are equal iff name, damage and weight agree |
| `EquipMatrix.CanEquip` | src/main/kotlin/cl/uchile/dcc/finalreality/model/weapons/Axe.kt:48-66 | the weapon-side `equipToX` rows (each weapon file's five `equipToX`, Axe shown): only mages accept a staff, and a mage accepts nothing but a staff or a knife |
| `EquipMatrix.Wields` | src/main/kotlin/cl/uchile/dcc/finalreality/model/character/player/Knight.kt:15-16 | the class-side table of what each class wields, with the same mage and staff restrictions |
| `EquipMatrix.DispatchMatchesClassTable` | src/main/kotlin/cl/uchile/dcc/finalreality/model/character/player/Knight.kt:15-16 | the weapon-side `equipToX` rows and the class-side list of what each class wields agree on all 25 pairs, in both directions |
| `EquipMatrix.EquipIgnoresStats` | src/main/kotlin/cl/uchile/dcc/finalreality/model/weapons/Sword.kt:49-68 | whether a class accepts a weapon depends on the weapon's class alone, never on its name or stats |
| `EquipMatrix.AxeRow` | src/main/kotlin/cl/uchile/dcc/finalreality/model/weapons/Axe.kt:48-66 | an axe is accepted by Engineer and Knight and refused by every other class |
| `EquipMatrix.BowRow` | src/main/kotlin/cl/uchile/dcc/finalreality/model/weapons/Bow.kt:49-68 | a bow is accepted by Thief and Engineer and refused by Knight, BlackMage and WhiteMage |
| `EquipMatrix.KnifeRow` | src/main/kotlin/cl/uchile/dcc/finalreality/model/weapons/Knife.kt:49-68 | a knife is accepted by BlackMage, Knight and Thief and refused by WhiteMage and Engineer |
| `EquipMatrix.StaffRow` | src/main/kotlin/cl/uchile/dcc/finalreality/model/weapons/Staff.kt:53-73 | a staff is accepted by WhiteMage and BlackMage and refused by Engineer, Knight and Thief |
| `EquipMatrix.SwordRow` | src/main/kotlin/cl/uchile/dcc/finalreality/model/weapons/Sword.kt:49-68 | a sword is accepted by Knight and Thief and refused by BlackMage, Engineer and WhiteMage |
| `Scheduling.Wait` | src/main/kotlin/cl/uchile/dcc/finalreality/model/character/Enemy.kt:59-66 | the wait of a scheduled command is never negative; it is zero exactly when the delay is not positive, and the delay itself otherwise |
| `Scheduling.Insert` | src/test/kotlin/cl/uchile/dcc/finalreality/model/character/EnemyTest.kt:132-144 | arming one more timer adds exactly that timer (a permutation of old plus new) and keeps the pending timers in firing order |
| `Scheduling.FiringOrder` | src/test/kotlin/cl/uchile/dcc/finalreality/model/character/EnemyTest.kt:132-144 | the armed timers fire as a permutation of themselves, sorted by wait |
| `Scheduling.ArmedOwnersEnqueued` | src/test/kotlin/cl/uchile/dcc/finalreality/model/character/player/AbstractPlayerCharacterTest.kt:79-109 | once all timers have fired, the owner of every armed timer is in the queue |
| `Scheduling.InsertIsStable` | src/test/kotlin/cl/uchile/dcc/finalreality/model/character/EnemyTest.kt:132-144 | arming a timer into a sorted schedule places it after every pending timer with the same wait and leaves their order alone |
| `Scheduling.FiringOrderIsStable` | src/test/kotlin/cl/uchile/dcc/finalreality/model/character/EnemyTest.kt:132-144 | for every wait, the timers with that wait fire in the order they were armed |
| `Scheduling.SoonerFiresFirst` | src/test/kotlin/cl/uchile/dcc/finalreality/model/character/EnemyTest.kt:132-144 | a timer with a strictly smaller wait fires strictly before one with a larger wait |
| `Scheduling.LightEnemyPolledFirst` | src/test/kotlin/cl/uchile/dcc/finalreality/model/character/EnemyTest.kt:132-144 | enemies of weight 70 and 1, armed in that order, reach the queue in the order light, heavy |
| `Characters.Checks` | src/main/kotlin/cl/uchile/dcc/finalreality/model/character/AbstractCharacter.kt:36-41 | the constructor's `Require` checks in initialisation order, maxHp then defense, then weight for an enemy or maxMp for a mage: all pass exactly when the stats are in bounds |
| `Characters.CheckStats` | src/main/kotlin/cl/uchile/dcc/finalreality/model/character/AbstractCharacter.kt:36-41 | construction succeeds iff maxHp ≥ 1, defense ≥ 0, weight ≥ 1 (enemies) and maxMp ≥ 0 (mages); a failure names maxHp first, then defense, then weight or maxMp, with the offending value |
| `Characters.TurnsQueue.constructor` | src/main/kotlin/cl/uchile/dcc/finalreality/GameController.kt:52 | a new turns queue has no entries and no armed timers |
| `Characters.TurnsQueue.FireAll` | src/main/kotlin/cl/uchile/dcc/finalreality/model/character/AbstractCharacter.kt:44-47 | when every armed timer fires, each runs its owner's `addToQueue`: the queue gains the owners in firing order after its old entries, and no timer stays armed |
| `Characters.TurnsQueue.Remove` | src/main/kotlin/cl/uchile/dcc/finalreality/GameController.kt:301 | `remove` reports whether some entry equals the character, and removes the first such entry |
| `Characters.Character.constructor` | src/main/kotlin/cl/uchile/dcc/finalreality/model/character/AbstractCharacter.kt:28-41 | a character built from valid stats keeps them, starts with currentHp == maxHp and currentMp == maxMp and no weapon, and satisfies every bound |
| `Characters.Character.New` | src/main/kotlin/cl/uchile/dcc/finalreality/model/character/Enemy.kt:25-33 | construction succeeds iff the stats are in bounds, and otherwise fails with the first failing stat; `attack` is stored as given |
| `Characters.Character.SetCurrentHp` | src/main/kotlin/cl/uchile/dcc/finalreality/model/character/AbstractCharacter.kt:37-40 | setting currentHp to v succeeds iff 0 ≤ v ≤ maxHp and then reads back v; otherwise it fails with "Current Hp" and keeps the old value; MP and weapon are untouched |
| `Characters.Character.SetCurrentMp` | src/main/kotlin/cl/uchile/dcc/finalreality/model/character/player/AbstractMagicPlayerCharacter.kt:16-19 | setting a mage's currentMp to v succeeds iff 0 ≤ v ≤ maxMp (only 0 when maxMp is 0) and reads back v; otherwise it fails with "Current MP" and keeps the old value; HP and weapon are untouched |
| `Characters.Character.Equip` | src/main/kotlin/cl/uchile/dcc/finalreality/model/character/player/Engineer.kt:66-68 | equipping succeeds iff the weapon accepts the class, and then the weapon replaces any previous one; a refusal changes nothing; HP and MP are untouched |
| `Characters.Character.CarriedWeight` | src/main/kotlin/cl/uchile/dcc/finalreality/model/character/player/AbstractPlayerCharacter.kt:43 | the weight `waitTurn` reads: the enemy's own weight (at least 1), or the equipped weapon's weight for a player |
| `Characters.Character.TurnDelay` | src/main/kotlin/cl/uchile/dcc/finalreality/model/character/player/AbstractPlayerCharacter.kt:39-46 | the turn delay is the carried weight (the enemy's, or its weapon's for a player) divided by 10 with truncation; an enemy's delay is never negative |
| `Characters.Character.WaitTurn` | src/main/kotlin/cl/uchile/dcc/finalreality/model/character/Enemy.kt:59-66 | `waitTurn` arms exactly one timer of this character with its turn delay; a player character with no weapon fails and arms nothing |
| `Characters.Character.AddToQueue` | src/main/kotlin/cl/uchile/dcc/finalreality/model/character/AbstractCharacter.kt:44-47 | `addToQueue` appends exactly this character at the tail of the queue, leaving the earlier entries as they were |
| `Characters.HeavierWaitsNoLess` | src/main/kotlin/cl/uchile/dcc/finalreality/model/character/Enemy.kt:59-66 | a character carrying more weight never gets a shorter turn delay |
| `Characters.Character.HashOf` | src/main/kotlin/cl/uchile/dcc/finalreality/model/character/player/Knight.kt:54 | each class's hash arguments include the name, maxHp and defense; an enemy's also include weight and attack, a mage's maxMp, and every player's but the white mage's currentHp |
| `Characters.Character.Equals` | src/main/kotlin/cl/uchile/dcc/finalreality/model/character/Enemy.kt:36-46 | each class's `equals`: a character equals itself, and equal characters share class, name, maxHp and hash arguments |
| `Characters.EnemyEquality` | src/main/kotlin/cl/uchile/dcc/finalreality/model/character/Enemy.kt:36-46 | two enemies are equal iff name, weight, maxHp, defense and attack agree; currentHp is ignored |
| `Characters.FighterEquality` | src/main/kotlin/cl/uchile/dcc/finalreality/model/character/player/Engineer.kt:45-54 | two engineers, two knights or two thieves are equal iff name, maxHp, currentHp and defense agree; the weapon is ignored |
| `Characters.MageEquality` | src/main/kotlin/cl/uchile/dcc/finalreality/model/character/player/mages/BlackMage.kt:48-59 | two black mages, or two white mages, are equal iff name, maxHp, currentHp, maxMp, currentMp and defense agree |
| `Characters.NeverEqualsOtherClass` | src/main/kotlin/cl/uchile/dcc/finalreality/model/character/player/Knight.kt:43-52 | a character is never equal to one of another class, in either direction |
| `Characters.EqualsImpliesSameHash` | src/main/kotlin/cl/uchile/dcc/finalreality/model/character/player/WhiteMage.kt:61 | equal characters have the same hash arguments, including white mages, whose hash reads a subset of the compared fields |
| `Characters.EqualsIsSymmetric` | src/main/kotlin/cl/uchile/dcc/finalreality/model/character/player/WhiteMage.kt:48-59 | character `equals` is symmetric |
| `Characters.FirstEqual` | src/main/kotlin/cl/uchile/dcc/finalreality/GameController.kt:300-302 | finds the first queue position whose entry the character equals, or reports that none does |
| `Characters.RemoveFirstEqual` | src/main/kotlin/cl/uchile/dcc/finalreality/GameController.kt:300-302 | removal leaves the queue as it was when no entry equals the character; otherwise it deletes exactly the first equal entry, keeping the rest in order |
| `Characters.RemoveTakesOne` | src/main/kotlin/cl/uchile/dcc/finalreality/GameController.kt:300-302 | removing a present character shortens the queue by one and leaves a strict sub-multiset |
| `Characters.EquipAsWritten` | src/main/kotlin/cl/uchile/dcc/finalreality/model/character/player/AbstractPlayerCharacter.kt:35-37 | the inherited `equip` as written assigns any weapon to Knight, BlackMage and WhiteMage; Engineer and Thief dispatch to the weapon; a success holds the given weapon and a refusal names the class and weapon |
| `Characters.KnightTakesStaffAsWritten` | src/main/kotlin/cl/uchile/dcc/finalreality/model/character/player/Knight.kt:37-63 | as written, a knight is given a staff that the staff's own row refuses |
| `Game.WeaponToEquipAsWritten` | src/main/kotlin/cl/uchile/dcc/finalreality/GameController.kt:187-261 | with the inherited `equip` as written, `createKnight`, `createBlackMage` and `createWhiteMage` keep whatever weapon they are given; only the engineer and thief factories fall back to a standard weapon |
| `Game.KnightFactoryKeepsBowAsWritten` | src/main/kotlin/cl/uchile/dcc/finalreality/GameController.kt:187-198 | as written, `createKnight` with a bow keeps the bow, where the corrected factory equips the standard sword |
| `Characters.EquipAsWrittenAgreesOnAccepted` | src/main/kotlin/cl/uchile/dcc/finalreality/model/character/player/AbstractPlayerCharacter.kt:35-37 | on every pair the matrix accepts, the code as written and the corrected `equip` agree |
| `Game.ToPositiveNum` | src/main/kotlin/cl/uchile/dcc/finalreality/GameController.kt:30-32 | 1 for 0, the identity on positives, the magnitude of negatives, so at least 1, except that `Int.MIN_VALUE` stays `Int.MIN_VALUE` |
| `Game.StandardWeapon` | src/main/kotlin/cl/uchile/dcc/finalreality/GameController.kt:35-40 | the standard weapon is "Standard bow" for an engineer, "Standard knife" for a thief, "Standard sword" for a knight and "Standard staff" (magic damage 50) for both mages, each with damage and weight 50, and the class accepts it |
| `Game.WeaponToEquip` | src/main/kotlin/cl/uchile/dcc/finalreality/GameController.kt:135-140 | a factory leaves a weapon the class accepts equipped: the given weapon exactly when the class accepts it, and otherwise that class's standard weapon |
| `Game.SanitizedEnemy` | src/main/kotlin/cl/uchile/dcc/finalreality/GameController.kt:106-112 | the `createEnemy` retry arguments: the name is kept, positive maxHp and non-negative defense are kept, attack becomes at least 1, and the result is in bounds exactly when no checked stat is `Int.MIN_VALUE` |
| `Game.SanitizedPlayer` | src/main/kotlin/cl/uchile/dcc/finalreality/GameController.kt:129-134 | the player factories' retry arguments: class and name kept, positive maxHp and non-negative defense kept, in bounds exactly when maxHp, defense and a mage's maxMp are not `Int.MIN_VALUE` |
| `Game.EnemyToBuild` | src/main/kotlin/cl/uchile/dcc/finalreality/GameController.kt:106-112 | valid stats are kept exactly; otherwise the retry uses `toPositiveNum` of weight, maxHp and attack and `abs` of defense, and the result is in bounds; the retry fails only when weight, maxHp or defense is `Int.MIN_VALUE`, with the error the retry raises |
| `Game.PlayerToBuild` | src/main/kotlin/cl/uchile/dcc/finalreality/GameController.kt:129-134 | valid stats are kept exactly; otherwise the retry uses `toPositiveNum` of maxHp and `abs` of defense and maxMp, and the result is in bounds; the retry fails only on `Int.MIN_VALUE` |
| `Game.Timers` | src/main/kotlin/cl/uchile/dcc/finalreality/GameController.kt:280-285 | one timer per listed character, in list order, each with that character's turn delay |
| `Game.GameController.constructor` | src/main/kotlin/cl/uchile/dcc/finalreality/GameController.kt:52-62 | a new controller has an empty queue, empty character lists and both counters at 0 |
| `Game.GameController.SetActiveEnemiesCounter` | src/main/kotlin/cl/uchile/dcc/finalreality/GameController.kt:55-58 | the enemies counter accepts exactly 0..8; a rejected value fails with that stat and leaves the counter unchanged |
| `Game.GameController.SetActivePlayerCharactersCounter` | src/main/kotlin/cl/uchile/dcc/finalreality/GameController.kt:59-62 | the player counter accepts exactly 0..4; a rejected value fails with that stat and leaves the counter unchanged |
| `Game.GameController.CreateEnemy` | src/main/kotlin/cl/uchile/dcc/finalreality/GameController.kt:106-112 | `createEnemy` returns a fresh, valid enemy on the controller's queue, at full HP, built from the given stats when they are valid and from the sanitised ones otherwise (as `EnemyToBuild` chooses), or fails exactly when `EnemyToBuild` does |
| `Game.GameController.CreatePlayerCharacter` | src/main/kotlin/cl/uchile/dcc/finalreality/GameController.kt:129-261 | every `create<Class>` factory returns a fresh, valid character on the controller's queue, at full HP and (for a mage) full MP, built from the given stats when they are valid and from the sanitised ones otherwise (as `PlayerToBuild` chooses), holding the given weapon if the class accepts it and the class's standard weapon otherwise |
| `Game.GameController.ChangeWeapon` | src/main/kotlin/cl/uchile/dcc/finalreality/GameController.kt:266-272 | `changeWeapon` replaces the weapon when the class accepts it and otherwise leaves it unchanged, with no error escaping |
| `Game.GameController.StartGame` | src/main/kotlin/cl/uchile/dcc/finalreality/GameController.kt:278-287 | with fewer or more than 4 active player characters nothing is armed; with exactly 4, one timer per enemy and then one per player character is armed, in list order |
| `Game.GameController.ArmAll` | src/main/kotlin/cl/uchile/dcc/finalreality/GameController.kt:280-282 | a `for` loop of `waitTurn` arms exactly the timers of the listed characters, in order |
| `Game.GameController.Update` | src/main/kotlin/cl/uchile/dcc/finalreality/GameController.kt:300-302 | `update` removes the first queue entry equal to the character, or nothing when none is |

## Left out

- Executors, threads and blocking are not modelled. `ScheduledExecutorService`, the fresh executor per `waitTurn`, `shutdown`, sleeping and `LinkedBlockingQueue` blocking are concurrency plumbing. The model keeps only the delay and a sequence-valued queue. "All armed timers fire" is one sequential step, `TurnsQueue.FireAll`.
- Timers with equal waits fire in arming order in the model (`Scheduling.FiringOrderIsStable`). In the source their order depends on thread scheduling.
- `addToQueue` also calls `shutdown()` on the base class's `lateinit` executor, which that class never initialises. That call, and anything it throws inside the scheduled task, is not modelled.
- `attack` (`GameController.kt:297-299`) is not modelled. It calls `attackCharacter`, and neither that nor `receiveAttack` has an implementation in the repository.
- `toString` formats are not modelled.
- Exception message texts are not modelled. A stat failure keeps the stat's name and the rejected value. An equip refusal keeps the class and the weapon.
- Concrete hash codes are not modelled. `Objects.hash` is a library call, so the model keeps its argument list. The tests claiming that different objects have different hash codes are not provable.
- `Main.kt` is not modelled. It is a console demonstration.
- `createAxe`, `createSword`, `createStaff`, `createBow` and `createKnife` are the weapon constructors themselves (the `Weapon` datatype's constructors).
- `Thief.kt` is not part of this model. Assumptions taken from `ThiefTest.kt`:
  - Thieves compare and hash like knights.
  - Thieves accept exactly the weapons whose `equipToThief` assigns.
- `AbstractMagicPlayerCharacter.equals` is not modelled. Both mage classes override it.
- Several places where the source would not compile as shown are not modelled:
  - `Weapon` (`Weapon.kt:12-18`) declares only `giveWeight()`. So `weapon.equipToEngineer(this)` (`Engineer.kt:67`) does not resolve, and every `override fun equipToX` in the weapon files (e.g. `Axe.kt:48-66`) overrides nothing.
  - `override val damage` and `override val weight` (`AbstractWeapon.kt:20-21`) and `override val magicDamage` (`AbstractMagicWeapon.kt:23`) override nothing, as neither `Weapon` nor `MagicWeapon` declares them.
  - No weapon class implements `giveWeight()`, which `waitTurn` reads (`AbstractPlayerCharacter.kt:43`).
  - Each `equipToX` assigns `equippedWeapon` on a parameter typed `PlayerCharacter`, which declares no `equippedWeapon` (`PlayerCharacter.kt:18-27`). `AbstractPlayerCharacter` also exposes it only as a read-only property (`AbstractPlayerCharacter.kt:32-33`).
  - `AbstractCharacter` (`AbstractCharacter.kt:35`) declares `scheduledExecutor`, and `Enemy` (`Enemy.kt:34`) and `AbstractPlayerCharacter` (`AbstractPlayerCharacter.kt:31`) declare their own.
  - `WhiteMage.kt` declares package `...character.player` (line 8), but `GameController.kt:13` imports `...character.player.mages.WhiteMage`.

  The model takes the evident meaning of each. `Weapon` declares the five `equipToX` members and the corrected `Characters.Character.Equip` dispatches to them (`EquipMatrix.CanEquip`). Each weapon has `damage`, `weight` and, for a staff, `magicDamage`. `giveWeight()` returns the weapon's weight. `equipToX` assigns the character's weapon. There is one executor per `waitTurn`. `WhiteMage` is the class the controller imports.
- Game.GameController.CreatePlayerCharacter: stands for the five `create<Class>` factories. Its `maxMp` argument is read only when the class is a mage, as only the mage factories take one. It uses the corrected `equip` (`Characters.Character.Equip`). As written, `createKnight`, `createBlackMage` and `createWhiteMage` never reach their standard-weapon fallback (`GameController.kt:195-197`, `226-228`, `257-259`) and keep any weapon they are given; `Game.WeaponToEquipAsWritten` models that behaviour.
- Game.GameController.ChangeWeapon: uses the corrected `equip`. As written, `changeWeapon` on a knight, black mage or white mage replaces the weapon with any weapon, including one the weapon's own row refuses (`Characters.EquipAsWritten`).
- Game.GameController.StartGame: requires (through `Valid`) every listed player character to hold a weapon. With an unarmed one, the source would throw `UninitializedPropertyAccessException` halfway through the loop. The source never fills these lists, so no input reaches that case.
- Kotlin `Int` bounds are modelled only where they change behaviour: the controller's `abs` and `toPositiveNum`. Character and weapon stats are unbounded integers, because no arithmetic on them can overflow (the only operation is truncating division by 10).

## Findings

| source | as written | input that shows it | evidently intended | confidence | as-written member | corrected member |
|---|---|---|---|---|---|---|
| src/main/kotlin/cl/uchile/dcc/finalreality/model/character/player/Knight.kt:37-63 | Knight, BlackMage and WhiteMage do not override `equip`. The inherited `AbstractPlayerCharacter.equip` (lines 35-37) assigns any weapon and never consults the weapon's `equipToX`. | A `Knight` equipping any `Staff`: the knight holds the staff. Consequences: `createKnight(…, bow)` keeps the bow, so its `standardSword` fallback (`GameController.kt:195-197`) is dead code (`Game.KnightFactoryKeepsBowAsWritten`); `createBlackMage` and `createWhiteMage` likewise never fall back to the standard staff; `changeWeapon(knight, staff)` replaces the knight's weapon. | Refuse with `UnableToEquipException`, as `Staff.equipToKnight` does and `KnightTest.kt:193-205` expects; likewise bows for knights and every refused pair for the mages. | not executed | `Characters.EquipAsWritten` (shown by `Characters.KnightTakesStaffAsWritten`) | `Characters.Character.Equip` |
