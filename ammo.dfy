// AAmmo: an item whose item count is a number of rounds of one ammunition
// kind. The player merges it into its ledger on pickup.
module Ammunition {
  import opened Shared
  import opened Items

  class Ammo {
    /** The AItem part of the pickup; its itemCount is the number of rounds. */
    const item: Item
    /** The kind of rounds the pickup holds (GetAmmoType). */
    var ammoType: AmmoType

    constructor (base: Item, kind: AmmoType)
      ensures item == base && ammoType == kind
    {
      item := base;
      ammoType := kind;
    }
  }
}
