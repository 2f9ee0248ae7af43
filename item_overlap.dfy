// AItem's area-sphere handlers: a begin overlap counts the item in for the
// player that entered its sphere, an end overlap counts it out. Other actors
// are ignored.
module ItemOverlap {
  import opened PlayerCharacters
  import Overlap

  /** The actor an overlap event reports: none, the player, or any other
      actor (the cast to APlayerCharacter fails). */
  datatype Actor = NoActor | PlayerActor(player: PlayerCharacter) | OtherActor

  /** OnSphereOverlap: the player's count goes up by one. */
  method OnSphereOverlap(other: Actor)
    modifies (if other.PlayerActor? then {other.player} else {})`overlappedItemCount
    modifies (if other.PlayerActor? then {other.player} else {})`bShouldTraceForItems
    ensures other.PlayerActor? ==>
      var p := other.player;
      Overlap.OverlapState(p.overlappedItemCount, p.bShouldTraceForItems)
        == Overlap.OverlapStep(Overlap.OverlapState(old(p.overlappedItemCount), old(p.bShouldTraceForItems)), 1)
  {
    if other.PlayerActor? {
      other.player.IncrementOverlappedItemCount(1);
    }
  }

  /** OnSphereEndOverlap: the player's count goes down by one, clamped at
      zero. */
  method OnSphereEndOverlap(other: Actor)
    modifies (if other.PlayerActor? then {other.player} else {})`overlappedItemCount
    modifies (if other.PlayerActor? then {other.player} else {})`bShouldTraceForItems
    ensures other.PlayerActor? ==>
      var p := other.player;
      Overlap.OverlapState(p.overlappedItemCount, p.bShouldTraceForItems)
        == Overlap.OverlapStep(Overlap.OverlapState(old(p.overlappedItemCount), old(p.bShouldTraceForItems)), -1)
  {
    if other.PlayerActor? {
      other.player.IncrementOverlappedItemCount(-1);
    }
  }
}
