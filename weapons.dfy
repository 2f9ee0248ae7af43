// AWeapon: an item with a magazine. The magazine bookkeeping, the throw /
// settle cycle of a dropped weapon and the guard of its per-tick update.
module Weapons {
  import opened Shared
  import opened Items

  /** EWeaponType (the MAX sentinel is not a type). */
  datatype WeaponType = Pistols | SubmachineGun

  /** The part of a weapon the combat logic reads and writes: rounds in the
      magazine, its capacity and the ammunition it takes. */
  datatype Magazine = Magazine(ammo: int, capacity: int, ammoType: AmmoType)

  /** Firing takes exactly one round out of a non-empty magazine and keeps
      the capacity and the ammunition kind. */
  function Fired(m: Magazine): (r: Magazine)
    requires m.ammo > 0
    ensures r.ammo + 1 == m.ammo && 0 <= r.ammo < m.ammo
    ensures r.capacity == m.capacity && r.ammoType == m.ammoType
  {
    m.(ammo := m.ammo - 1)
  }

  class Weapon {
    /** The AItem part of the weapon. */
    const item: Item
    var throwWeaponTime: real
    var bFalling: bool
    /** The pending ThrowWeaponTimer, with its duration. */
    var throwTimer: Option<real>
    var ammo: int
    var magazineCapacity: int
    var weaponType: WeaponType
    var ammoType: AmmoType
    var reloadMontageSection: string
    var bMovingClip: bool
    var clipBoneName: string

    /** AWeapon's constructor; the magazine and type fields are the values
        the weapon's blueprint gives them. */
    constructor (base: Item, rounds: int, capacity: int, kind: WeaponType, ammunition: AmmoType,
                 section: string, clipBone: string)
      ensures item == base
      ensures throwWeaponTime == 0.7 && !bFalling && throwTimer == None
      ensures ammo == rounds && magazineCapacity == capacity && weaponType == kind
      ensures ammoType == ammunition && reloadMontageSection == section
      ensures clipBoneName == clipBone && !bMovingClip
    {
      item := base;
      throwWeaponTime := 0.7;
      bFalling := false;
      throwTimer := None;
      ammo := rounds;
      magazineCapacity := capacity;
      weaponType := kind;
      ammoType := ammunition;
      reloadMontageSection := section;
      bMovingClip := false;
      clipBoneName := clipBone;
    }

    /** The magazine as the combat logic sees it (GetAmmo,
        GetMagazineCapacity, GetAmmoType). */
    function Mag(): (m: Magazine)
      reads this
      ensures m.ammo == ammo && m.capacity == magazineCapacity && m.ammoType == ammoType
    {
      Magazine(ammo, magazineCapacity, ammoType)
    }

    /** DecreaseAmmo: one round less in a non-empty magazine. Nothing is
        promised for an empty magazine. */
    method DecreaseAmmo()
      modifies this`ammo
      ensures old(ammo) > 0 ==> ammo == old(ammo) - 1
    {
      if ammo - 1 <= 0 {
        ammo := 0;
      } else {
        ammo := ammo - 1;
      }
    }

    /** ReloadAmmo: the caller must not overfill the magazine. */
    method ReloadAmmo(amount: int)
      requires ammo + amount <= magazineCapacity
      modifies this`ammo
      ensures ammo == old(ammo) + amount
      ensures ammo <= magazineCapacity
    {
      ammo := ammo + amount;
    }

    method SetMovingClip(move: bool)
      modifies this`bMovingClip
      ensures bMovingClip == move
    {
      bMovingClip := move;
    }

    /** ThrowWeapon: mark the weapon as falling and schedule StopFalling. The
        item state is not touched (the caller has already set Falling). */
    method ThrowWeapon()
      modifies this`bFalling, this`throwTimer
      ensures bFalling && throwTimer == Some(throwWeaponTime)
    {
      bFalling := true;
      throwTimer := Some(throwWeaponTime);
    }

    /** StopFalling, the ThrowWeaponTimer callback: the weapon can be picked
        up again. */
    method StopFalling()
      modifies this`bFalling, this`throwTimer, item`itemState, item`presentation
      ensures !bFalling && throwTimer == None
      ensures item.itemState == Pickup
      ensures item.presentation == ItemProperties(Pickup, old(item.presentation))
    {
      bFalling := false;
      throwTimer := None;
      item.SetItemState(Pickup);
    }

    /** Tick: first the item's own tick, which moves a weapon flying to the
        hand (the placement and scale the curves produce are inputs); then
        reports whether the mesh is levelled (pitch and roll dropped) this
        frame, which happens only while the weapon is falling after a throw.
        The item state is not changed. */
    method Tick(computed: Placement, curveScale: real) returns (levelled: bool)
      modifies item`placement, item`scale
      ensures levelled <==> item.itemState == Falling && bFalling
      ensures item.placement ==
        (if item.bInterping && item.character != null && item.hasZCurve then computed else old(item.placement))
      ensures item.scale ==
        (if item.bInterping && item.character != null && item.hasZCurve && item.hasScaleCurve
         then curveScale else old(item.scale))
    {
      item.ItemInterp(computed, curveScale);
      levelled := false;
      if item.itemState == Falling && bFalling {
        levelled := true;
      }
    }
  }

  /** A dropped weapon goes Equipped -> Falling -> Pickup: DropWeapon sets
      Falling and throws, and the throw timer's StopFalling sets Pickup. */
  method DropAndSettle(w: Weapon)
    requires w.item.itemState == Equipped
    modifies w`bFalling, w`throwTimer, w.item`itemState, w.item`presentation
    ensures w.item.itemState == Pickup && !w.bFalling && w.throwTimer == None
    ensures w.item.presentation ==
      ItemProperties(Pickup, ItemProperties(Falling, old(w.item.presentation)))
  {
    w.item.SetItemState(Falling);
    w.ThrowWeapon();
    assert w.item.itemState == Falling && w.bFalling;
    w.StopFalling();
  }
}
