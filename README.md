# TPS_Project gameplay bookkeeping in Dafny

This project models the integer and enum bookkeeping under the engine calls of
the TPS_Project third-person shooter (Unreal Engine, C++):

- the player's combat state machine (Unoccupied, FireTimerInProgress,
  Reloading, DeadEye) and its carried-ammunition ledger (`AmmoMap`), with
  firing, automatic re-fire, reloading, ammunition pickups, DeadEye and aiming;
- the player's and the enemy's health, clamped at zero, and their `Die`;
- the player's seven interpolation slots and the choice of the least-occupied
  one, and the overlapped-item counter with its trace flag;
- the item lifecycle (Pickup, EquipInterping, PickedUp, Equipped, Falling), the
  per-state presentation flags, the rarity stars and the fly-to-hand flag;
- the weapon's magazine and its throw / settle cycle;
- the enemy's hit-reaction gate and health-bar timer.

Objects whose fields the game updates in place are classes:
`Items.Item`, `Weapons.Weapon`, `Ammunition.Ammo`,
`PlayerCharacters.PlayerCharacter` and `Enemies.Enemy`. `AWeapon` and `AAmmo`
derive from `AItem` in the game; here they hold their `Item` as a constant
field. The combat and health logic is also written as functions on values
(`Combat.CombatView`, `Damage.Vitals`). The combat and health methods of
`PlayerCharacter` and `Enemy` are specified as equal to such a function
applied to the old state. The other methods state their new fields directly.
The properties are then proved as lemmas over the functions: the ledger is
never negative, a reload conserves rounds, the magazine stays within capacity, the slot chosen is the
first argmin, and the counter agrees with its flag.

Engine timers are explicit callback methods: `AutoFireReset`,
`FinishReloading`, `FinishInterping`, `StopFalling` and `ResetHitReactTimer`.
A pending timer is an `Option<real>` field holding its duration. The random
hit-reaction time is a parameter whose range the caller must respect. The
hand sockets, the spawned left-hand copy, and the placement and scale produced
by the interpolation maths are also parameters.

Several guards in the game are weaker than the accesses they protect. Those
accesses become preconditions:

- `IncrementInterpLocItemCount` and `GetInterpLocation` let the index equal to
  the slot count through.
- `WeaponHasAmmo` and `FireWeapon` only bail out when both weapons are null,
  then read the right-hand one.
- `PickupAmmo`, `DropWeapon` and `SwapWeapon` read the weapons without a
  check.

`Ammo.h` declares no ammunition kind for `AAmmo`. The `ammoType` field of
`Ammunition.Ammo` comes from the `Ammo->GetAmmoType()` calls in
`PlayerCharacter.cpp`.

`PlayerCharacter.h` declares no DeadEye combat state and no health, death or
DeadEye fields, but `PlayerCharacter.cpp` uses all of them. The model follows
the `.cpp` file.

## Model

| member | source | states |
|---|---|---|
| `Shared.WrapInt8` | Source/TPS_Project/PlayerCharacter.h:292 | the result is an int8, congruent to the input modulo 256, and equal to it when the input already fits |
| `Items.ItemProperties` | Source/TPS_Project/Item.cpp:127-197 | per state: Equipped and EquipInterping hide the widget and disable all collision and physics; Falling simulates with gravity and blocks only WorldStatic; Pickup makes the sphere overlap (query only) and the box block visibility; PickedUp changes nothing |
| `Items.ItemPropertiesIdempotent` | Source/TPS_Project/Item.cpp:127-197 | applying a state's bundle twice equals applying it once |
| `Items.OverlapOnlyInPickup` | Source/TPS_Project/Item.cpp:131-194 | for every state with a case, the area sphere can be overlapped iff the state is Pickup |
| `Items.StarCount` | Source/TPS_Project/Item.cpp:97-124 | a rarity lights 1 to 5 stars: its rank in the enum plus one |
| `Items.StarsFollowRarity` | Source/TPS_Project/Item.h:10-20 | star counts follow the declared rarity order, in both directions |
| `Items.StarsAfter` | Source/TPS_Project/Item.cpp:90-125 | SetActiveStars' result: six entries appended, and an entry is set iff it was set before or its index is in 1..StarCount |
| `Items.FreshStarsShowRarity` | Source/TPS_Project/Item.cpp:90-125 | on an empty array: six entries, entry 0 unset, entries 1..k set exactly, k = rank + 1 |
| `Items.StarsAccumulate` | Source/TPS_Project/Item.cpp:92-95 | a second call appends six more entries and keeps the first six |
| `Items.Item.constructor` | Source/TPS_Project/Item.cpp:12-36 | a new item is "Default", count 0, Common, Pickup, not interping, curve time 0.7, start location and yaw offset zero, box blocking visibility |
| `Items.Item.BeginPlay` | Source/TPS_Project/Item.cpp:47-57 | hides the widget and sets the stars as StarsAfter says |
| `Items.Item.SetActiveStars` | Source/TPS_Project/Item.cpp:90-125 | the append loop and the per-rarity assignments produce StarsAfter of the old array |
| `Items.Item.SetItemState` | Source/TPS_Project/Item.cpp:269-273 | the state becomes the argument and the presentation becomes that state's bundle; nothing else is modified |
| `Items.Item.StartItemCurve` | Source/TPS_Project/Item.cpp:275-293 | from any state: stores the character and the start location, interpolates, enters EquipInterping with its bundle, starts the ZCurveTime timer, and turns the item to the camera's yaw plus the initial offset, keeping its location |
| `Items.Item.FinishInterping` | Source/TPS_Project/Item.cpp:199-208 | stops interpolating, restores scale 1, leaves the item state alone, and hands back the stored character (null: nobody to give the item to) |
| `Items.Item.ItemInterp` | Source/TPS_Project/Item.cpp:210-258 | a no-op unless interpolating; placement and scale change only with a character and a Z curve (scale also needs the scale curve) |
| `Items.Item.Destroy` | Source/TPS_Project/PlayerCharacter.cpp:870 | the actor is marked destroyed |
| `Weapons.Fired` | Source/TPS_Project/PlayerCharacter.cpp:279 | one shot takes exactly one round from a non-empty magazine and keeps capacity and kind |
| `Weapons.Weapon.constructor` | Source/TPS_Project/Weapon.cpp:6-11 | a new weapon is not falling, with throw time 0.7 and no pending throw timer |
| `Weapons.Weapon.Mag` | Source/TPS_Project/Weapon.h:71-78 | the magazine view reads the Ammo, MagazineCapacity and AmmoType fields unchanged |
| `Weapons.Weapon.DecreaseAmmo` | Source/TPS_Project/Weapon.h:74-75 | a non-empty magazine loses exactly one round; only Ammo may change |
| `Weapons.Weapon.ReloadAmmo` | Source/TPS_Project/Weapon.h:82 | adds the amount, which the caller keeps within the capacity; only Ammo may change |
| `Weapons.Weapon.SetMovingClip` | Source/TPS_Project/Weapon.h:84 | sets bMovingClip and nothing else |
| `Weapons.Weapon.ThrowWeapon` | Source/TPS_Project/Weapon.cpp:25-43 | sets bFalling and schedules StopFalling after ThrowWeaponTime; the item state is not touched |
| `Weapons.Weapon.StopFalling` | Source/TPS_Project/Weapon.cpp:45-49 | clears bFalling and the timer and puts the item back in Pickup with the Pickup bundle |
| `Weapons.Weapon.Tick` | Source/TPS_Project/Weapon.cpp:13-23 | first runs the item's tick, so a weapon flying to the hand is placed and scaled as Item.ItemInterp says; then the mesh is levelled iff the state is Falling and bFalling holds; the item state never changes |
| `Weapons.DropAndSettle` | Source/TPS_Project/Weapon.cpp:45-49 | an equipped weapon that is dropped and then settles goes Equipped, Falling, Pickup, ending with the Pickup bundle over the Falling one |
| `Ammunition.Ammo.constructor` | Source/TPS_Project/Ammo.h:18 | an ammunition pickup is an item with a kind of rounds (the kind is the one `GetAmmoType` returns in PlayerCharacter.cpp, which Ammo.h does not declare) |
| `Combat.FireWeapon` | Source/TPS_Project/PlayerCharacter.cpp:268-283 | unless Unoccupied with a round in the right-hand magazine nothing changes; otherwise exactly one round is spent and the state becomes FireTimerInProgress (bShouldFire) |
| `Combat.ReloadWeapon` | Source/TPS_Project/PlayerCharacter.cpp:787-806 | Reloading is entered iff the state is Unoccupied, a right-hand weapon exists and its kind is carried; otherwise nothing changes |
| `Combat.AutoFireReset` | Source/TPS_Project/PlayerCharacter.cpp:492-508 | the resulting state and magazine: re-fire only with rounds and the button held, reload only with an empty magazine and rounds carried, Unoccupied otherwise; the ledger is untouched |
| `Combat.FireButtonPressed` | Source/TPS_Project/PlayerCharacter.cpp:469-475 | the trigger is held, then FireWeapon runs |
| `Combat.FireButtonReleased` | Source/TPS_Project/PlayerCharacter.cpp:477-480 | only the trigger flag is cleared |
| `Combat.ReloadTransfer` | Source/TPS_Project/PlayerCharacter.cpp:994-1010 | the rounds moved never exceed those carried nor overfill the magazine, and either all carried rounds move or the magazine ends full |
| `Combat.FinishReloading` | Source/TPS_Project/PlayerCharacter.cpp:979-1013 | always Unoccupied; with a ledger entry, magazine plus ledger is conserved, the entry stays non-negative, the magazine is within capacity and ends full or drains the entry, other entries untouched; without one nothing else changes |
| `Combat.InitializeAmmoMap` | Source/TPS_Project/PlayerCharacter.cpp:657-661 | both kinds get their starting amounts, overwriting, and no other key appears |
| `Combat.PickupAmmo` | Source/TPS_Project/PlayerCharacter.cpp:847-871 | adds the count only to an existing entry of its kind, creates no key and touches no other entry; Reloading is entered only for a matching empty magazine from Unoccupied with rounds now carried |
| `Combat.PerformDeadEye` | Source/TPS_Project/PlayerCharacter.cpp:286-303 | flips the DeadEye flag; entering sets DeadEye and dilation 0.1, leaving sets Unoccupied and 1.0; nothing else changes |
| `Combat.AimingButtonPressed` | Source/TPS_Project/PlayerCharacter.cpp:365-371 | aiming starts unless Reloading; nothing else changes |
| `Combat.AimingButtonReleased` | Source/TPS_Project/PlayerCharacter.cpp:373-376 | aiming always stops; nothing else changes |
| `Combat.DeadEyeRoundTrip` | Source/TPS_Project/PlayerCharacter.cpp:286-303 | two toggles from outside DeadEye end Unoccupied at dilation 1.0 with everything else restored |
| `Combat.Step` | Source/TPS_Project/PlayerCharacter.cpp:963-974 | no input unequips the weapon or changes its capacity or kind, the ledger's keys, or bShouldFire |
| `Combat.Run` | Source/TPS_Project/PlayerCharacter.cpp:963-974 | framing only: over any sequence of inputs the weapon stays equipped with the same capacity and kind, and the ledger keys and bShouldFire stay; the ammunition invariant over runs is `Combat.RunKeepsAmmoBounds` |
| `Combat.FinishReloadingKeepsAmmoBounds` | Source/TPS_Project/PlayerCharacter.cpp:979-1013 | a reload keeps the magazine within capacity and the ledger non-negative, and conserves the rounds of the weapon's kind |
| `Combat.PickupAmmoKeepsAmmoBounds` | Source/TPS_Project/PlayerCharacter.cpp:847-871 | a non-negative pickup keeps the ledger non-negative and adds at most its own count to the rounds of the weapon's kind |
| `Combat.StepKeepsAmmoBounds` | Source/TPS_Project/PlayerCharacter.cpp:979-1013 | one input keeps 0 <= magazine <= capacity and the ledger non-negative, and adds no rounds beyond those picked up |
| `Combat.RunKeepsAmmoBounds` | Source/TPS_Project/PlayerCharacter.cpp:979-1013 | over any input sequence with non-negative pickups: magazine within capacity, ledger non-negative, rounds at most the initial ones plus those picked up |
| `Combat.ActionsStartFromUnoccupied` | Source/TPS_Project/PlayerCharacter.h:332-334 | a round leaves the magazine, or Reloading is entered, only from Unoccupied or from the auto-fire timer's reset |
| `Combat.ReloadScenario` | Source/TPS_Project/PlayerCharacter.cpp:994-1010 | 50 carried into a 15-round magazine holding 3: magazine 15, 38 carried, Unoccupied |
| `Combat.EmptyLedgerReloadScenario` | Source/TPS_Project/PlayerCharacter.cpp:808-821 | with zero rounds carried a reload request changes nothing |
| `Damage.DamagedHealth` | Source/TPS_Project/PlayerCharacter.cpp:137-151 | health after a hit is never negative, is zero iff the hit is lethal, is reduced by the damage otherwise, and never grows on a non-negative hit |
| `Damage.PlayerDie` | Source/TPS_Project/PlayerCharacter.cpp:155-166 | a no-op once dead; otherwise dead, and the death body runs once more |
| `Damage.EnemyDie` | Source/TPS_Project/Enemy.cpp:60-65 | always dead and the death body runs again |
| `Damage.PlayerHit` | Source/TPS_Project/PlayerCharacter.cpp:135-153 | health as DamagedHealth; dead iff already dead or the hit is lethal; a death runs only on a lethal hit while alive |
| `Damage.EnemyHit` | Source/TPS_Project/Enemy.cpp:118-130 | health as DamagedHealth; a death runs on every lethal hit |
| `Damage.PlayerDiesOnce` | Source/TPS_Project/PlayerCharacter.cpp:155-166 | over any hits the player's death runs at most once, death is permanent, and health stays between 0 and its start for non-negative hits |
| `Damage.EnemyDiesTwice` | Source/TPS_Project/Enemy.cpp:60-65 | hits of 15 then 5 on a 10-health enemy run Die twice |
| `Damage.PlayerDiesOnceExample` | Source/TPS_Project/PlayerCharacter.cpp:155-166 | the same hits on the player run its death once |
| `InterpSlots.InitialSlots` | Source/TPS_Project/PlayerCharacter.cpp:873-895 | seven slots, all counts zero, the weapon component first and InterpComponent1..6 after |
| `InterpSlots.FirstLowestUnique` | Source/TPS_Project/PlayerCharacter.cpp:898-912 | the first lowest slot is unique, so the selection is determined |
| `InterpSlots.FirstLowestExample` | Source/TPS_Project/PlayerCharacter.cpp:898-912 | counts [_,3,1,1,2] select slot 2 |
| `InterpSlots.Incremented` | Source/TPS_Project/PlayerCharacter.cpp:914-922 | only the given slot changes, by the amount, keeping its component; the length is kept |
| `InterpSlots.IncrementThenDecrement` | Source/TPS_Project/PlayerCharacter.cpp:914-922 | +1 then -1 on a slot restores all slots |
| `Overlap.OverlapStepAsWritten` | Source/TPS_Project/PlayerCharacter.cpp:1020-1032 | the code as written: a non-positive sum clears count and flag; otherwise the flag is set and the stored int8 is the sum modulo 256 |
| `Overlap.OverlapWrapBreaksFlag` | Source/TPS_Project/PlayerCharacter.cpp:1020-1032 | at count 127 one more overlap stores -128 with tracing on |
| `Overlap.OverlapStep` | Source/TPS_Project/PlayerCharacter.cpp:1020-1032 | the count is never negative, the flag holds iff it is positive, and it moves by the amount unless clamped at zero |
| `Overlap.AsWrittenAgreesInRange` | Source/TPS_Project/PlayerCharacter.cpp:1020-1032 | the code as written and the intended step agree whenever the sum fits an int8 |
| `Overlap.OverlapsCountExactly` | Source/TPS_Project/Item.cpp:66-88 | over begin/end overlap events with no unmatched end, the count is begins minus ends and tracing is on iff that is positive |
| `PlayerCharacters.PlayerCharacter.constructor` | Source/TPS_Project/PlayerCharacter.cpp:28-77 | the defaults: not aiming, bShouldFire, not tracing, count 0, starting ammo 85 and 120, health 100 of 100, not dead, not in DeadEye |
| `PlayerCharacters.PlayerCharacter.WeaponHasAmmo` | Source/TPS_Project/PlayerCharacter.cpp:663-668 | true iff the right-hand weapon exists and holds a round; needs no left-hand weapon without a right-hand one |
| `PlayerCharacters.PlayerCharacter.AmmoTypeCarried` | Source/TPS_Project/PlayerCharacter.cpp:808-821 | true iff the right-hand weapon exists and the ledger has its kind with a count above zero |
| `PlayerCharacters.PlayerCharacter.FireWeapon` | Source/TPS_Project/PlayerCharacter.cpp:268-283 | the new combat state is Combat.FireWeapon of the old one; of the held weapon only its Ammo may change |
| `PlayerCharacters.PlayerCharacter.StartFireTimer` | Source/TPS_Project/PlayerCharacter.cpp:482-490 | FireTimerInProgress is entered iff bShouldFire |
| `PlayerCharacters.PlayerCharacter.AutoFireReset` | Source/TPS_Project/PlayerCharacter.cpp:492-508 | the new combat state is Combat.AutoFireReset of the old one; of the held weapon only its Ammo may change |
| `PlayerCharacters.PlayerCharacter.FireButtonPressed` | Source/TPS_Project/PlayerCharacter.cpp:469-475 | the new combat state is Combat.FireButtonPressed of the old one; of the held weapon only its Ammo may change |
| `PlayerCharacters.PlayerCharacter.FireButtonReleased` | Source/TPS_Project/PlayerCharacter.cpp:477-480 | only the trigger flag is cleared |
| `PlayerCharacters.PlayerCharacter.ReloadWeapon` | Source/TPS_Project/PlayerCharacter.cpp:787-806 | the new combat state is Combat.ReloadWeapon of the old one |
| `PlayerCharacters.PlayerCharacter.FinishReloading` | Source/TPS_Project/PlayerCharacter.cpp:979-1013 | the new combat state, magazine and ledger are Combat.FinishReloading of the old ones; of the held weapon only its Ammo may change |
| `PlayerCharacters.PlayerCharacter.InitializeAmmoMap` | Source/TPS_Project/PlayerCharacter.cpp:657-661 | the ledger is Combat.InitializeAmmoMap of the old one with the starting amounts |
| `PlayerCharacters.PlayerCharacter.PickupAmmo` | Source/TPS_Project/PlayerCharacter.cpp:847-871 | the new combat state is Combat.PickupAmmo with the pickup's kind and count, and the pickup is destroyed |
| `PlayerCharacters.PlayerCharacter.PerformDeadEye` | Source/TPS_Project/PlayerCharacter.cpp:286-303 | the new combat state is Combat.PerformDeadEye of the old one |
| `PlayerCharacters.PlayerCharacter.AimingButtonPressed` | Source/TPS_Project/PlayerCharacter.cpp:365-371 | aiming starts unless Reloading |
| `PlayerCharacters.PlayerCharacter.AimingButtonReleased` | Source/TPS_Project/PlayerCharacter.cpp:373-376 | aiming stops |
| `PlayerCharacters.PlayerCharacter.TakeDamage` | Source/TPS_Project/PlayerCharacter.cpp:135-153 | returns the damage given; the health fields become Damage.PlayerHit of the old ones |
| `PlayerCharacters.PlayerCharacter.Die` | Source/TPS_Project/PlayerCharacter.cpp:155-166 | the health fields become Damage.PlayerDie of the old ones |
| `PlayerCharacters.PlayerCharacter.InitializeInterpLocations` | Source/TPS_Project/PlayerCharacter.cpp:873-895 | appends the seven initial slots |
| `PlayerCharacters.PlayerCharacter.GetInterpLocationIndex` | Source/TPS_Project/PlayerCharacter.cpp:898-912 | the index returned is the first slot from 1 on with the lowest count, or 1 when there is no such slot; never 0 |
| `PlayerCharacters.PlayerCharacter.IncrementInterpLocItemCount` | Source/TPS_Project/PlayerCharacter.cpp:914-922 | amounts outside [-1, 1] and indices past the end change nothing; otherwise only the given slot moves by the amount; the index equal to the length is excluded by the precondition |
| `PlayerCharacters.PlayerCharacter.GetInterpLocation` | Source/TPS_Project/PlayerCharacter.cpp:1066-1073 | a valid index returns its slot, an index past the end a default empty slot; the index equal to the length is excluded by the precondition |
| `PlayerCharacters.PlayerCharacter.IncrementOverlappedItemCount` | Source/TPS_Project/PlayerCharacter.cpp:1020-1032 | count and flag become Overlap.OverlapStep of the old ones: never negative, flag iff positive; the count is not wrapped to int8 (see Findings) |
| `PlayerCharacters.PlayerCharacter.EquipWeapon` | Source/TPS_Project/PlayerCharacter.cpp:591-619 | with both sockets and a left-hand copy, the weapon goes to the right hand and the copy to the left, both Equipped with the Equipped bundle; otherwise the hands are unchanged; of the two items only state and presentation may change |
| `PlayerCharacters.PlayerCharacter.DropWeapon` | Source/TPS_Project/PlayerCharacter.cpp:622-634 | the right-hand weapon is Falling with the Falling bundle and thrown; the left-hand copy is destroyed; neither hand is cleared |
| `PlayerCharacters.PlayerCharacter.SwapWeapon` | Source/TPS_Project/PlayerCharacter.cpp:649-655 | the old right weapon is Falling with the Falling bundle and its throw timer pending, the old left copy is destroyed, the new weapon and its copy are held and Equipped with the Equipped bundle, and both traced items are cleared; only the items' state and presentation may change |
| `ItemOverlap.OnSphereOverlap` | Source/TPS_Project/Item.cpp:66-76 | a player entering the sphere has its count stepped by +1 with the intended (unwrapped) step; only the count and the flag may change; other actors change nothing |
| `ItemOverlap.OnSphereEndOverlap` | Source/TPS_Project/Item.cpp:78-88 | a player leaving the sphere has its count stepped by -1, clamped at zero; only the count and the flag may change; other actors change nothing |
| `Enemies.Enemy.constructor` | Source/TPS_Project/Enemy.cpp:15-25 | health 100 of 100, bar shown for 4 s, can hit-react, reaction time range [0.5, 3.0] |
| `Enemies.Enemy.BeginPlay` | Source/TPS_Project/Enemy.cpp:29-32 | the enemy starts alive |
| `Enemies.Enemy.ShowHealthBar` | Source/TPS_Project/Enemy.cpp:54-58 | the single health-bar timer is re-set to the display time, replacing any pending one |
| `Enemies.Enemy.Die` | Source/TPS_Project/Enemy.cpp:60-65 | no guard: dead, one more death, destroyed |
| `Enemies.Enemy.PlayHitMontage` | Source/TPS_Project/Enemy.cpp:67-82 | reacts only when allowed; the gate ends closed, and a reset is scheduled only by a call that found it open |
| `Enemies.Enemy.ResetHitReactTimer` | Source/TPS_Project/Enemy.cpp:84-87 | the gate reopens and nothing else changes but the spent timer |
| `Enemies.Enemy.BulletHit` | Source/TPS_Project/Enemy.cpp:103-116 | the health bar timer is re-set and a hit reaction is attempted |
| `Enemies.Enemy.TakeDamage` | Source/TPS_Project/Enemy.cpp:118-130 | returns the damage given; the health fields become Damage.EnemyHit of the old ones; a lethal hit destroys the enemy |

## Left out

- Traces and aim geometry are not modelled: crosshair and item traces, beam end points, bullet spawning and the damage it applies. These are engine collision queries and vector maths.
- Camera zoom, look rates, crosshair spread and movement are not modelled, nor the location, rotation and scale curves of `ItemInterp` or the impulse of `ThrowWeapon`. These are floating-point interpolation. The interpolation's result enters as a parameter.
- Animation montages, sounds, particles, widgets and the HUD are not modelled, nor `FinishDeath`, `GrabClip`, `PlayGunfireAnim` and `PlayFireSound`. They are presentation only.
- The blackboard update in the player's `TakeDamage` is not modelled, nor the behaviour-tree start in the enemy's `BeginPlay`. They call foreign AI code.
- Grabber.cpp and Explosive.cpp are not part of this model.
- Elapsed time is not modelled. A timer is a pending `Option<real>` duration, and its callback is a method called explicitly. The player's `AutoFireTimer` and `CrosshairShootTimer` are not stored; `AutoFireReset` is simply callable.
- `Weapons.Weapon.DecreaseAmmo`: the bodies of `DecreaseAmmo` and `ReloadAmmo` are not part of the weapon source. The contract says nothing about an empty magazine. `ReloadAmmo` only adds, and its precondition is the bound its one caller keeps.
- `GetPickupItem` is not modelled as a dispatch over casts, and neither is `SelectButtonPressed`. Callers use `SwapWeapon` or `PickupAmmo` directly, and `Item.FinishInterping` returns the character that would receive the item.
- The int32 ledger entries and the ammunition counts are unbounded integers. Overflow of a ledger entry after very large pickups is not modelled. Slot counts are required to stay within int32, because signed overflow is undefined behaviour in C++.
- `HideHealthBar` is a Blueprint event and is not modelled. Health-bar visibility is not part of the state.
- The `_MAX` sentinels of the enums are not values of the model.
- `Enemies.Enemy.BulletHit`: the hit result, the sound and the particle effect are dropped.
- In `PlayerCharacter.cpp`, `AutoFireReset` and `FinishReloading` set the combat state without looking at DeadEye. They can leave the state Unoccupied while the DeadEye flag is still set. The model keeps this behaviour (see the `Combat.FinishReloading` contract).
- `PlayerCharacters.PlayerCharacter.IncrementOverlappedItemCount`: uses the corrected `Overlap.OverlapStep`. At count 127 and amount +1 the model stores 128, where the int8 field of the game stores -128 (see Findings).
- `ItemOverlap.OnSphereOverlap`: goes through the corrected step, so the 128th overlapping sphere gives count 128 here, not the game's -128.
- `ItemOverlap.OnSphereEndOverlap`: goes through the corrected step; it agrees with the game whenever the count stays within int8.
- Health and damage are `real` rather than 32-bit floats. The lethal test `Health - DamageAmount <= 0` and the clamp behave the same for finite values, but rounding of the subtraction and NaN or infinite damage are not modelled.

## Findings

| source | as written | input that shows it | evidently intended | confidence | as-written member | corrected member |
|---|---|---|---|---|---|---|
| Source/TPS_Project/PlayerCharacter.cpp:1022-1030 | the guard adds in `int`, but `OverlappedItemCount += Amount` stores into an `int8`, which wraps | count 127, amount +1 (a 128th overlapping item) stores -128 with `bShouldTraceForItems` true | the count stays non-negative and the flag holds iff the count is positive | not executed | `Overlap.OverlapWrapBreaksFlag` | `Overlap.OverlapStep` |
