// APlayerCharacter: the combat state, the ammunition ledger, health, the
// interpolation slots and the overlap counter, updated in place. Every
// method is specified against the functions of the Combat, Damage,
// InterpSlots and Overlap modules, where the properties are proved.
module PlayerCharacters {
  import opened Shared
  import opened Items
  import opened Weapons
  import opened Ammunition
  import opened Combat
  import Damage
  import opened InterpSlots
  import Overlap

  class PlayerCharacter {
    /** Fire or reload only when Unoccupied. Zero-initialised: Unoccupied. */
    var combatState: CombatState
    var bAiming: bool
    var bFireButtonPressed: bool
    /** Starts true; no operation of the model clears it. */
    var bShouldFire: bool
    var bIsDeadEye: bool
    /** The global time dilation PerformDeadEye sets. */
    var timeDilation: real
    var health: real
    var maxHealth: real
    var bIsDeath: bool
    /** How many times Die's body (the death montage) has run. */
    var deathMontagesPlayed: nat
    var bShouldTraceForItems: bool
    var overlappedItemCount: int
    var weaponR: Weapon?
    var weaponL: Weapon?
    var traceHitItem: Item?
    var traceHitItemLastFrame: Item?
    /** Carried rounds per ammunition kind. */
    var ammoMap: map<AmmoType, int>
    var starting9mmAmmo: int
    var startingARAmmo: int
    var interpLocations: seq<InterpLocation>

    /** APlayerCharacter's constructor defaults. */
    constructor ()
      ensures combatState == Unoccupied && !bAiming && !bFireButtonPressed && bShouldFire
      ensures !bIsDeadEye && timeDilation == 1.0
      ensures health == 100.0 && maxHealth == 100.0 && !bIsDeath && deathMontagesPlayed == 0
      ensures !bShouldTraceForItems && overlappedItemCount == 0
      ensures weaponR == null && weaponL == null && traceHitItem == null && traceHitItemLastFrame == null
      ensures ammoMap == map[] && starting9mmAmmo == 85 && startingARAmmo == 120
      ensures interpLocations == []
    {
      combatState := Unoccupied;
      bAiming := false;
      bFireButtonPressed := false;
      bShouldFire := true;
      bIsDeadEye := false;
      timeDilation := 1.0;
      health := 100.0;
      maxHealth := 100.0;
      bIsDeath := false;
      deathMontagesPlayed := 0;
      bShouldTraceForItems := false;
      overlappedItemCount := 0;
      weaponR := null;
      weaponL := null;
      traceHitItem := null;
      traceHitItemLastFrame := null;
      ammoMap := map[];
      starting9mmAmmo := 85;
      startingARAmmo := 120;
      interpLocations := [];
    }

    /** The combat fields as a value. */
    function View(): CombatView
      reads this, weaponR
    {
      CombatView(combatState, bFireButtonPressed, bShouldFire, bIsDeadEye, timeDilation, bAiming,
                 if weaponR == null then None else Some(weaponR.Mag()), ammoMap)
    }

    /** The health fields as a value. */
    function Vitals(): Damage.Vitals
      reads this
    {
      Damage.Vitals(health, bIsDeath, deathMontagesPlayed)
    }

    /** The weapon checks only bail out when both weapons are missing and
        then read the right-hand one, so a left-hand weapon alone must not
        reach them. */
    predicate RightWeaponReadable()
      reads this
    {
      weaponL != null ==> weaponR != null
    }

    /** WeaponHasAmmo: the right-hand magazine holds a round. */
    function WeaponHasAmmo(): (has: bool)
      reads this, weaponR
      requires RightWeaponReadable()
      ensures has <==> weaponR != null && weaponR.ammo > 0
      ensures has <==> Combat.WeaponHasAmmo(View())
    {
      if weaponR == null && weaponL == null then false
      else weaponR.ammo > 0
    }

    /** AmmoTypeCarried: the ledger has an entry for the right-hand weapon's
        kind, holding more than zero rounds. */
    function AmmoTypeCarried(): (carried: bool)
      reads this, weaponR
      ensures carried <==> weaponR != null && weaponR.ammoType in ammoMap && ammoMap[weaponR.ammoType] > 0
      ensures carried <==> Combat.AmmoTypeCarried(View())
    {
      if weaponR == null then false
      else if weaponR.ammoType in ammoMap then ammoMap[weaponR.ammoType] > 0
      else false
    }

    method FireWeapon()
      requires combatState == Unoccupied ==> RightWeaponReadable()
      modifies this`combatState, (if weaponR != null then {weaponR} else {})`ammo
      ensures View() == Combat.FireWeapon(old(View()))
    {
      if weaponR == null && weaponL == null { return; }
      if combatState != Unoccupied { return; }
      if WeaponHasAmmo() {
        weaponR.DecreaseAmmo();
        StartFireTimer();
      }
    }

    method StartFireTimer()
      modifies this`combatState
      ensures View() == Combat.StartFireTimer(old(View()))
    {
      if bShouldFire {
        combatState := FireTimerInProgress;
      }
    }

    /** The AutoFireTimer callback. */
    method AutoFireReset()
      requires RightWeaponReadable()
      modifies this`combatState, (if weaponR != null then {weaponR} else {})`ammo
      ensures View() == Combat.AutoFireReset(old(View()))
    {
      combatState := Unoccupied;
      if WeaponHasAmmo() {
        if bFireButtonPressed {
          FireWeapon();
        }
      } else {
        ReloadWeapon();
      }
    }

    method FireButtonPressed()
      requires combatState == Unoccupied ==> RightWeaponReadable()
      modifies this`bFireButtonPressed, this`combatState
      modifies (if weaponR != null then {weaponR} else {})`ammo
      ensures View() == Combat.FireButtonPressed(old(View()))
    {
      bFireButtonPressed := true;
      FireWeapon();
    }

    method FireButtonReleased()
      modifies this`bFireButtonPressed
      ensures View() == Combat.FireButtonReleased(old(View()))
    {
      bFireButtonPressed := false;
    }

    method ReloadWeapon()
      modifies this`combatState
      ensures View() == Combat.ReloadWeapon(old(View()))
    {
      if combatState != Unoccupied { return; }
      if weaponR == null { return; }
      if AmmoTypeCarried() {
        combatState := Reloading;
      }
    }

    /** The reload animation's notify. */
    method FinishReloading()
      modifies this`combatState, this`ammoMap, (if weaponR != null then {weaponR} else {})`ammo
      ensures View() == Combat.FinishReloading(old(View()))
    {
      combatState := Unoccupied;
      if weaponR == null { return; }
      var ammoType := weaponR.ammoType;
      if ammoType in ammoMap {
        var carriedAmmo := ammoMap[ammoType];
        var magEmptySpace := weaponR.magazineCapacity - weaponR.ammo;
        if magEmptySpace > carriedAmmo {
          weaponR.ReloadAmmo(carriedAmmo);
          carriedAmmo := 0;
          ammoMap := ammoMap[ammoType := carriedAmmo];
        } else {
          weaponR.ReloadAmmo(magEmptySpace);
          carriedAmmo := carriedAmmo - magEmptySpace;
          ammoMap := ammoMap[ammoType := carriedAmmo];
        }
      }
    }

    method InitializeAmmoMap()
      modifies this`ammoMap
      ensures ammoMap == Combat.InitializeAmmoMap(old(ammoMap), starting9mmAmmo, startingARAmmo)
    {
      ammoMap := ammoMap[NineMm := starting9mmAmmo];
      ammoMap := ammoMap[AssaultRifle := startingARAmmo];
    }

    /** PickupAmmo: merge the pickup into the ledger, reload an empty
        matching magazine, and destroy the pickup. The right-hand weapon is
        read without a check. */
    method PickupAmmo(ammo: Ammo)
      requires weaponR != null
      modifies this`ammoMap, this`combatState, ammo.item`destroyed
      ensures View() == Combat.PickupAmmo(old(View()), ammo.ammoType, ammo.item.itemCount)
      ensures ammo.item.destroyed
    {
      if ammo.ammoType in ammoMap {
        var ammoCount := ammoMap[ammo.ammoType];
        ammoCount := ammoCount + ammo.item.itemCount;
        ammoMap := ammoMap[ammo.ammoType := ammoCount];
      }
      if weaponR.ammoType == ammo.ammoType {
        if weaponR.ammo == 0 {
          ReloadWeapon();
        }
      }
      ammo.item.Destroy();
    }

    method PerformDeadEye()
      modifies this`combatState, this`timeDilation, this`bIsDeadEye
      ensures View() == Combat.PerformDeadEye(old(View()))
    {
      if !bIsDeadEye {
        combatState := DeadEye;
        timeDilation := 0.1;
        bIsDeadEye := true;
      } else {
        combatState := Unoccupied;
        timeDilation := 1.0;
        bIsDeadEye := false;
      }
    }

    method AimingButtonPressed()
      modifies this`bAiming
      ensures View() == Combat.AimingButtonPressed(old(View()))
    {
      if combatState != Reloading {
        bAiming := true;
      }
    }

    method AimingButtonReleased()
      modifies this`bAiming
      ensures View() == Combat.AimingButtonReleased(old(View()))
    {
      bAiming := false;
    }

    /** TakeDamage: returns the damage it was given. */
    method TakeDamage(damageAmount: real) returns (taken: real)
      modifies this`health, this`bIsDeath, this`deathMontagesPlayed
      ensures taken == damageAmount
      ensures Vitals() == Damage.PlayerHit(old(Vitals()), damageAmount)
    {
      if health - damageAmount <= 0.0 {
        health := 0.0;
        Die();
      } else {
        health := health - damageAmount;
      }
      taken := damageAmount;
    }

    method Die()
      modifies this`bIsDeath, this`deathMontagesPlayed
      ensures Vitals() == Damage.PlayerDie(old(Vitals()))
    {
      if bIsDeath { return; }
      bIsDeath := true;
      deathMontagesPlayed := deathMontagesPlayed + 1;
    }

    /** InitializeInterpLocations appends the seven slots. */
    method InitializeInterpLocations()
      modifies this`interpLocations
      ensures interpLocations == old(interpLocations) + InitialSlots()
    {
      interpLocations := interpLocations + [InterpLocation(WeaponInterpComponent, 0)];
      interpLocations := interpLocations + [InterpLocation(InterpComponent(1), 0)];
      interpLocations := interpLocations + [InterpLocation(InterpComponent(2), 0)];
      interpLocations := interpLocations + [InterpLocation(InterpComponent(3), 0)];
      interpLocations := interpLocations + [InterpLocation(InterpComponent(4), 0)];
      interpLocations := interpLocations + [InterpLocation(InterpComponent(5), 0)];
      interpLocations := interpLocations + [InterpLocation(InterpComponent(6), 0)];
    }

    /** GetInterpLocationindex: a scan from slot 1 keeping the first
        strictly smaller count, starting from INT_MAX. */
    method GetInterpLocationIndex() returns (lowestIndex: int)
      requires CountsAreInt32(interpLocations)
      ensures IsFirstLowest(interpLocations, lowestIndex)
    {
      lowestIndex := 1;
      var lowestCount := INT32_MAX;
      var i := 1;
      while i < |interpLocations|
        invariant i == 1 || 1 <= i <= |interpLocations|
        invariant i == 1 ==> lowestCount == INT32_MAX
        invariant 1 <= lowestIndex && (lowestIndex < i || lowestIndex == 1)
        invariant lowestIndex < i ==> lowestCount == interpLocations[lowestIndex].itemCount
        invariant forall j :: 1 <= j < i ==> lowestCount <= interpLocations[j].itemCount
        invariant forall j :: 1 <= j < lowestIndex ==> lowestCount < interpLocations[j].itemCount
      {
        if interpLocations[i].itemCount < lowestCount {
          lowestIndex := i;
          lowestCount := interpLocations[i].itemCount;
        }
        i := i + 1;
      }
    }

    /** IncrementInterpLocItemCount: amounts outside [-1, 1] are ignored;
        otherwise the guard only rejects indices past the end, so the index
        equal to the slot count, and negative indices, must not be passed.
        Counts are int32 and must not overflow. */
    method IncrementInterpLocItemCount(index: int, amount: int)
      requires -1 <= amount <= 1 && index <= |interpLocations| ==>
        0 <= index < |interpLocations| && IsInt32(interpLocations[index].itemCount + amount)
      modifies this`interpLocations
      ensures -1 <= amount <= 1 && index <= |old(interpLocations)| ==>
        interpLocations == Incremented(old(interpLocations), index, amount)
      ensures amount < -1 || 1 < amount || |old(interpLocations)| < index ==>
        interpLocations == old(interpLocations)
    {
      if amount < -1 || amount > 1 { return; }
      if |interpLocations| >= index {
        interpLocations := interpLocations[index := interpLocations[index].(itemCount := interpLocations[index].itemCount + amount)];
      }
    }

    /** GetInterpLocation: the guard lets the index equal to the slot count
        through, so that index (and negative ones) must not be passed; past
        the end a default slot with no component and no items comes back. */
    function GetInterpLocation(index: int): (loc: InterpLocation)
      reads this
      requires index <= |interpLocations| ==> 0 <= index < |interpLocations|
      ensures index < |interpLocations| ==> loc == interpLocations[index]
      ensures |interpLocations| < index ==> loc == InterpLocation(NoComponent, 0)
    {
      if index <= |interpLocations| then interpLocations[index]
      else InterpLocation(NoComponent, 0)
    }

    /** IncrementOverlappedItemCount, following the intended step: the count
        is not stored back into an int8, so it does not wrap at 127 (see
        Overlap.OverlapStepAsWritten for the code as written). */
    method IncrementOverlappedItemCount(amount: int)
      requires IsInt8(amount)
      modifies this`overlappedItemCount, this`bShouldTraceForItems
      ensures Overlap.OverlapState(overlappedItemCount, bShouldTraceForItems)
           == Overlap.OverlapStep(Overlap.OverlapState(old(overlappedItemCount), old(bShouldTraceForItems)), amount)
    {
      if overlappedItemCount + amount <= 0 {
        overlappedItemCount := 0;
        bShouldTraceForItems := false;
      } else {
        overlappedItemCount := overlappedItemCount + amount;
        bShouldTraceForItems := true;
      }
    }

    /** EquipWeapon: with both hand sockets found and a left-hand copy
        spawned (`spawnedL`, null when either fails), hold the weapon in the
        right hand and the copy in the left, both Equipped. Otherwise nothing
        changes. */
    method EquipWeapon(toEquip: Weapon?, spawnedL: Weapon?)
      requires toEquip != null && spawnedL != null ==> toEquip.item != spawnedL.item
      modifies this`weaponR, this`weaponL
      modifies (if toEquip != null && spawnedL != null then {toEquip.item, spawnedL.item} else {})`itemState
      modifies (if toEquip != null && spawnedL != null then {toEquip.item, spawnedL.item} else {})`presentation
      ensures toEquip != null && spawnedL != null ==>
        && weaponR == toEquip && weaponL == spawnedL
        && toEquip.item.itemState == Equipped && spawnedL.item.itemState == Equipped
        && toEquip.item.presentation == ItemProperties(Equipped, old(toEquip.item.presentation))
        && spawnedL.item.presentation == ItemProperties(Equipped, old(spawnedL.item.presentation))
      ensures toEquip == null || spawnedL == null ==> weaponR == old(weaponR) && weaponL == old(weaponL)
    {
      if toEquip != null && spawnedL != null {
        weaponR := toEquip;
        weaponL := spawnedL;
        weaponR.item.SetItemState(Equipped);
        weaponL.item.SetItemState(Equipped);
      }
    }

    /** DropWeapon: throw the right-hand weapon (Falling, then the throw
        timer) and destroy the left-hand copy. Both are read without a
        check, and neither hand is cleared. */
    method DropWeapon()
      requires weaponR != null && weaponL != null
      modifies weaponR`bFalling, weaponR`throwTimer, weaponR.item`itemState, weaponR.item`presentation
      modifies weaponL.item`destroyed
      ensures weaponR.item.itemState == Falling
      ensures weaponR.item.presentation == ItemProperties(Falling, old(weaponR.item.presentation))
      ensures weaponR.bFalling && weaponR.throwTimer == Some(weaponR.throwWeaponTime)
      ensures weaponL.item.destroyed
    {
      weaponR.item.SetItemState(Falling);
      weaponR.ThrowWeapon();
      weaponL.item.Destroy();
    }

    /** SwapWeapon: drop the held pair, equip the new weapon, and forget the
        traced items. The new weapon and its copy are other actors than the
        weapon thrown. */
    method SwapWeapon(toSwap: Weapon?, spawnedL: Weapon?)
      requires weaponR != null && weaponL != null
      requires toSwap != null && spawnedL != null ==>
        && toSwap.item != spawnedL.item
        && toSwap.item !in {weaponR.item, weaponL.item} && spawnedL.item !in {weaponR.item, weaponL.item}
      modifies this`weaponR, this`weaponL, this`traceHitItem, this`traceHitItemLastFrame
      modifies weaponR`bFalling, weaponR`throwTimer, weaponR.item`itemState, weaponR.item`presentation
      modifies weaponL.item`destroyed
      modifies (if toSwap != null && spawnedL != null then {toSwap.item, spawnedL.item} else {})`itemState
      modifies (if toSwap != null && spawnedL != null then {toSwap.item, spawnedL.item} else {})`presentation
      ensures old(weaponR).item.itemState == Falling && old(weaponR).bFalling
      ensures old(weaponR).item.presentation == ItemProperties(Falling, old(weaponR.item.presentation))
      ensures old(weaponR).throwTimer == Some(old(weaponR).throwWeaponTime)
      ensures old(weaponL).item.destroyed
      ensures toSwap != null && spawnedL != null ==>
        && weaponR == toSwap && weaponL == spawnedL
        && toSwap.item.itemState == Equipped && spawnedL.item.itemState == Equipped
        && toSwap.item.presentation == ItemProperties(Equipped, old(toSwap.item.presentation))
        && spawnedL.item.presentation == ItemProperties(Equipped, old(spawnedL.item.presentation))
      ensures toSwap == null || spawnedL == null ==> weaponR == old(weaponR) && weaponL == old(weaponL)
      ensures traceHitItem == null && traceHitItemLastFrame == null
    {
      DropWeapon();
      EquipWeapon(toSwap, spawnedL);
      traceHitItem := null;
      traceHitItemLastFrame := null;
    }
  }
}
