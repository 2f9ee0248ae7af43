// The player's interpolation slots: the scene components in front of the
// camera that picked-up items fly to, each with the number of items
// currently heading there.
module InterpSlots {
  import opened Shared

  /** The scene component a slot points at; NoComponent is the null pointer
      a default-constructed slot holds. */
  datatype SceneComponent = NoComponent | WeaponInterpComponent | InterpComponent(k: nat)

  /** FInterpLocation: a scene component and the number of items
      interpolating to it. */
  datatype InterpLocation = InterpLocation(component: SceneComponent, itemCount: int)

  /** The seven slots InitializeInterpLocations appends: the weapon slot
      first, then InterpComponent1..6, all empty. */
  function InitialSlots(): (s: seq<InterpLocation>)
    ensures |s| == 7
    ensures forall i :: 0 <= i < |s| ==> s[i].itemCount == 0
    ensures s[0].component == WeaponInterpComponent
    ensures forall i :: 1 <= i < |s| ==> s[i].component == InterpComponent(i)
  {
    [InterpLocation(WeaponInterpComponent, 0),
     InterpLocation(InterpComponent(1), 0),
     InterpLocation(InterpComponent(2), 0),
     InterpLocation(InterpComponent(3), 0),
     InterpLocation(InterpComponent(4), 0),
     InterpLocation(InterpComponent(5), 0),
     InterpLocation(InterpComponent(6), 0)]
  }

  /** Every slot count fits the int32 the source stores it in. */
  predicate CountsAreInt32(slots: seq<InterpLocation>)
  {
    forall i :: 0 <= i < |slots| ==> IsInt32(slots[i].itemCount)
  }

  /** `index` is the first slot at or after 1 with the smallest count, or 1
      when there is no slot after the weapon slot. Slot 0 is never chosen. */
  predicate IsFirstLowest(slots: seq<InterpLocation>, index: int)
  {
    if |slots| <= 1 then index == 1
    else
      && 1 <= index < |slots|
      && (forall j :: 1 <= j < |slots| ==> slots[index].itemCount <= slots[j].itemCount)
      && (forall j :: 1 <= j < index ==> slots[index].itemCount < slots[j].itemCount)
  }

  /** At most one index is the first lowest. */
  lemma FirstLowestUnique(slots: seq<InterpLocation>, a: int, b: int)
    requires IsFirstLowest(slots, a) && IsFirstLowest(slots, b)
    ensures a == b
  {
    if |slots| > 1 {
      assert slots[a].itemCount == slots[b].itemCount;
    }
  }

  /** With counts [_, 3, 1, 1, 2] the second slot is chosen. */
  lemma FirstLowestExample()
    ensures IsFirstLowest([InterpLocation(WeaponInterpComponent, 0),
                           InterpLocation(InterpComponent(1), 3),
                           InterpLocation(InterpComponent(2), 1),
                           InterpLocation(InterpComponent(3), 1),
                           InterpLocation(InterpComponent(4), 2)], 2)
  {
  }

  /** The slot sequence after IncrementInterpLocItemCount(index, amount)
      when the guards let the update through: only slot `index` changes, by
      `amount`, and it keeps its component. */
  function Incremented(slots: seq<InterpLocation>, index: int, amount: int): (r: seq<InterpLocation>)
    requires 0 <= index < |slots|
    ensures |r| == |slots|
    ensures r[index].itemCount == slots[index].itemCount + amount
    ensures r[index].component == slots[index].component
    ensures forall j :: 0 <= j < |slots| && j != index ==> r[j] == slots[j]
  {
    slots[index := slots[index].(itemCount := slots[index].itemCount + amount)]
  }

  /** An increment followed by a decrement of the same slot restores the
      slots, as a pickup that starts and ends its flight does. */
  lemma IncrementThenDecrement(slots: seq<InterpLocation>, index: int)
    requires 0 <= index < |slots|
    ensures Incremented(Incremented(slots, index, 1), index, -1) == slots
  {
    var r := Incremented(Incremented(slots, index, 1), index, -1);
    assert forall j :: 0 <= j < |slots| ==> r[j] == slots[j];
  }
}
