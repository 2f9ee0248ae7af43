// AItem: the pickup-able actor shared by weapons and ammunition. Its
// lifecycle state, the presentation flags each state applies, the rarity
// stars and the fly-to-hand interpolation flag.
module Items {
  import opened Shared

  /** EItemRarity, declared in rising order. */
  datatype ItemRarity = Damaged | Common | Uncommon | Rare | Legendary

  /** EItemState: the five real states (the MAX sentinel is not a state). */
  datatype ItemState = Pickup | EquipInterping | PickedUp | Equipped | Falling

  /** ECollisionEnabled values the item's components are switched between. */
  datatype CollisionEnabled = NoCollision | QueryOnly | QueryAndPhysics

  datatype Channel = Visibility | WorldStatic

  /** A component's collision responses: all channels ignored, all overlapped,
      or all ignored except one channel that blocks. */
  datatype Response = IgnoreAll | OverlapAll | BlockOnly(channel: Channel)

  /** The presentation layer SetItemProperties writes to: the pickup widget,
      the item mesh, the area sphere and the collision box. */
  datatype Presentation = Presentation(
    widgetVisible: bool,
    meshPhysics: bool,
    meshGravity: bool,
    meshVisible: bool,
    meshResponse: Response,
    meshCollision: CollisionEnabled,
    sphereResponse: Response,
    sphereCollision: CollisionEnabled,
    boxResponse: Response,
    boxCollision: CollisionEnabled)

  /** Actor location and yaw, written only by the interpolation. */
  datatype Placement = Placement(x: real, y: real, z: real, yaw: real)

  /** Nothing on the item collides or simulates, and the mesh stays visible. */
  predicate Inert(q: Presentation)
  {
    && !q.meshPhysics && !q.meshGravity && q.meshVisible
    && q.meshResponse == IgnoreAll && q.meshCollision == NoCollision
    && q.sphereResponse == IgnoreAll && q.sphereCollision == NoCollision
    && q.boxResponse == IgnoreAll && q.boxCollision == NoCollision
  }

  /** SetItemProperties: the flag bundle each state applies to the presentation
      it finds. A state without a case (PickedUp) leaves every flag as it was;
      Pickup and Falling leave the widget, and Falling the mesh visibility. */
  function ItemProperties(state: ItemState, p: Presentation): (q: Presentation)
    ensures state == PickedUp ==> q == p
    ensures state == Equipped || state == EquipInterping ==> !q.widgetVisible && Inert(q)
    ensures state == Falling ==>
      && q.meshPhysics && q.meshGravity && q.meshVisible == p.meshVisible
      && q.meshResponse == BlockOnly(WorldStatic) && q.meshCollision == QueryAndPhysics
      && q.sphereCollision == NoCollision && q.boxCollision == NoCollision
    ensures state == Pickup ==>
      && !q.meshPhysics && !q.meshGravity && q.meshVisible && q.meshCollision == NoCollision
      && q.sphereResponse == OverlapAll && q.sphereCollision == QueryOnly
      && q.boxResponse == BlockOnly(Visibility) && q.boxCollision == QueryAndPhysics
    ensures state == Pickup || state == Falling ==> q.widgetVisible == p.widgetVisible
  {
    match state
    case Pickup =>
      p.(meshPhysics := false, meshGravity := false, meshVisible := true,
         meshResponse := IgnoreAll, meshCollision := NoCollision,
         sphereResponse := OverlapAll, sphereCollision := QueryOnly,
         boxResponse := BlockOnly(Visibility), boxCollision := QueryAndPhysics)
    case Equipped =>
      p.(widgetVisible := false,
         meshPhysics := false, meshGravity := false, meshVisible := true,
         meshResponse := IgnoreAll, meshCollision := NoCollision,
         sphereResponse := IgnoreAll, sphereCollision := NoCollision,
         boxResponse := IgnoreAll, boxCollision := NoCollision)
    case Falling =>
      p.(meshCollision := QueryAndPhysics, meshPhysics := true, meshGravity := true,
         meshResponse := BlockOnly(WorldStatic),
         sphereResponse := IgnoreAll, sphereCollision := NoCollision,
         boxResponse := IgnoreAll, boxCollision := NoCollision)
    case EquipInterping =>
      p.(widgetVisible := false,
         meshPhysics := false, meshGravity := false, meshVisible := true,
         meshResponse := IgnoreAll, meshCollision := NoCollision,
         sphereResponse := IgnoreAll, sphereCollision := NoCollision,
         boxResponse := IgnoreAll, boxCollision := NoCollision)
    case PickedUp => p
  }

  /** Applying a state's bundle twice is the same as applying it once. */
  lemma ItemPropertiesIdempotent(state: ItemState, p: Presentation)
    ensures ItemProperties(state, ItemProperties(state, p)) == ItemProperties(state, p)
  {
  }

  /** The player can only start overlapping an item (its area sphere reacts)
      once the item has been put in the Pickup state, and every state but
      PickedUp decides that flag on its own. */
  lemma OverlapOnlyInPickup(state: ItemState, p: Presentation)
    requires state != PickedUp
    ensures ItemProperties(state, p).sphereCollision != NoCollision <==> state == Pickup
  {
  }

  /** Position of a rarity in the declared order Damaged < ... < Legendary. */
  function Rank(r: ItemRarity): nat
  {
    match r
    case Damaged => 0
    case Common => 1
    case Uncommon => 2
    case Rare => 3
    case Legendary => 4
  }

  /** Number of stars SetActiveStars switches on for a rarity. */
  function StarCount(r: ItemRarity): (k: nat)
    ensures 1 <= k <= 5
    ensures k == Rank(r) + 1
  {
    match r
    case Damaged => 1
    case Common => 2
    case Uncommon => 3
    case Rare => 4
    case Legendary => 5
  }

  /** Rarer items never show fewer stars. */
  lemma StarsFollowRarity(a: ItemRarity, b: ItemRarity)
    ensures Rank(a) <= Rank(b) <==> StarCount(a) <= StarCount(b)
  {
  }

  /** The star array after SetActiveStars: six unset entries appended, then
      entries 1..StarCount(r) of the whole array set. */
  function StarsAfter(stars: seq<bool>, r: ItemRarity): (s: seq<bool>)
    ensures |s| == |stars| + 6
    ensures forall i :: 0 <= i < |stars| ==> s[i] == (stars[i] || 1 <= i <= StarCount(r))
    ensures forall i :: |stars| <= i < |s| ==> s[i] == (1 <= i <= StarCount(r))
  {
    var grown := stars + [false, false, false, false, false, false];
    seq(|grown|, i requires 0 <= i < |grown| => grown[i] || 1 <= i <= StarCount(r))
  }

  /** On an item whose star array is still empty, SetActiveStars yields six
      entries: entry 0 unset and exactly entries 1..k set, k growing with rarity. */
  lemma FreshStarsShowRarity(r: ItemRarity)
    ensures |StarsAfter([], r)| == 6
    ensures !StarsAfter([], r)[0]
    ensures forall i :: 1 <= i < 6 ==> (StarsAfter([], r)[i] <==> i <= Rank(r) + 1)
  {
  }

  /** A second call appends again instead of resetting the array. */
  lemma StarsAccumulate(r: ItemRarity)
    ensures |StarsAfter(StarsAfter([], r), r)| == 12
    ensures StarsAfter(StarsAfter([], r), r)[..6] == StarsAfter([], r)
  {
  }

  class Item {
    var itemName: string
    /** For an ammunition pickup, the rounds it adds to the ledger. */
    var itemCount: int
    var itemRarity: ItemRarity
    var activeStars: seq<bool>
    var itemState: ItemState
    var presentation: Presentation
    /** True while the item flies towards the character. */
    var bInterping: bool
    /** The character that picked the item up; compared only by identity. */
    var character: object?
    /** Duration of the interpolation curve and of ItemInterpTimer. */
    var zCurveTime: real
    /** The pending ItemInterpTimer, with its duration. */
    var interpTimer: Option<real>
    var placement: Placement
    /** Where the item was when its flight began (only x, y, z are read). */
    var interpStart: Placement
    /** Yaw added to the camera's yaw when the flight begins. */
    var interpInitialYawOffset: real
    /** Uniform actor scale. */
    var scale: real
    var hasZCurve: bool
    var hasScaleCurve: bool
    /** Set by AActor::Destroy. */
    var destroyed: bool

    /** AItem's constructor. Only the collision box's trace response is set
        here; the other flags keep the engine's component defaults. */
    constructor (engineDefaults: Presentation, zCurve: bool, scaleCurve: bool, at: Placement)
      ensures itemName == "Default" && itemCount == 0 && itemRarity == Common
      ensures itemState == Pickup && !bInterping && zCurveTime == 0.7
      ensures character == null && interpTimer == None && activeStars == []
      ensures presentation == engineDefaults.(boxResponse := BlockOnly(Visibility))
      ensures hasZCurve == zCurve && hasScaleCurve == scaleCurve
      ensures placement == at && scale == 1.0 && !destroyed
      ensures interpStart == Placement(0.0, 0.0, 0.0, 0.0) && interpInitialYawOffset == 0.0
    {
      itemName := "Default";
      itemCount := 0;
      itemRarity := Common;
      activeStars := [];
      itemState := Pickup;
      presentation := engineDefaults.(boxResponse := BlockOnly(Visibility));
      bInterping := false;
      character := null;
      zCurveTime := 0.7;
      interpTimer := None;
      placement := at;
      interpStart := Placement(0.0, 0.0, 0.0, 0.0);
      interpInitialYawOffset := 0.0;
      scale := 1.0;
      hasZCurve := zCurve;
      hasScaleCurve := scaleCurve;
      destroyed := false;
    }

    /** BeginPlay: hide the pickup widget and fill in the rarity stars. */
    method BeginPlay()
      modifies this`presentation, this`activeStars
      ensures presentation == old(presentation).(widgetVisible := false)
      ensures activeStars == StarsAfter(old(activeStars), itemRarity)
    {
      presentation := presentation.(widgetVisible := false);
      SetActiveStars();
    }

    method SetActiveStars()
      modifies this`activeStars
      ensures activeStars == StarsAfter(old(activeStars), itemRarity)
    {
      for i := 0 to 6
        invariant activeStars == old(activeStars) + seq(i, _ => false)
      {
        activeStars := activeStars + [false];
      }
      ghost var grown := activeStars;
      match itemRarity
      case Damaged =>
        activeStars := activeStars[1 := true];
      case Common =>
        activeStars := activeStars[1 := true][2 := true];
      case Uncommon =>
        activeStars := activeStars[1 := true][2 := true][3 := true];
      case Rare =>
        activeStars := activeStars[1 := true][2 := true][3 := true][4 := true];
      case Legendary =>
        activeStars := activeStars[1 := true][2 := true][3 := true][4 := true][5 := true];
      assert |activeStars| == |grown|;
      assert forall i :: 0 <= i < |grown| ==>
        activeStars[i] == (grown[i] || 1 <= i <= StarCount(itemRarity));
    }

    /** SetItemState: the only mutator of the state; it applies the state's
        flag bundle and changes nothing else. */
    method SetItemState(state: ItemState)
      modifies this`itemState, this`presentation
      ensures itemState == state
      ensures presentation == ItemProperties(state, old(presentation))
    {
      itemState := state;
      presentation := ItemProperties(state, presentation);
    }

    /** StartItemCurve: remember the character and where the flight starts,
        start interpolating and enter EquipInterping whatever the previous
        state was; then turn the item to the camera's yaw (an input) plus the
        initial yaw offset. */
    method StartItemCurve(player: object, cameraYaw: real)
      modifies this`character, this`interpStart, this`bInterping, this`itemState, this`presentation
      modifies this`interpTimer, this`placement
      ensures character == player && bInterping
      ensures interpStart == old(placement)
      ensures itemState == EquipInterping
      ensures presentation == ItemProperties(EquipInterping, old(presentation))
      ensures interpTimer == Some(zCurveTime)
      ensures placement == old(placement).(yaw := cameraYaw + interpInitialYawOffset)
    {
      character := player;
      interpStart := placement;
      bInterping := true;
      SetItemState(EquipInterping);
      interpTimer := Some(zCurveTime);
      placement := placement.(yaw := cameraYaw + interpInitialYawOffset);
    }

    /** FinishInterping, the ItemInterpTimer callback: stop interpolating and
        restore the scale. The item state is left alone; the character to hand
        the item to (GetPickupItem) is returned, none when there is none. */
    method FinishInterping() returns (pickupBy: object?)
      modifies this`bInterping, this`scale, this`interpTimer
      ensures !bInterping && scale == 1.0 && interpTimer == None
      ensures pickupBy == character
    {
      interpTimer := None;
      bInterping := false;
      pickupBy := character;
      scale := 1.0;
    }

    /** ItemInterp, once per tick: nothing happens unless the item is
        interpolating towards a character along a Z curve. The placement and
        scale the float maths produces are inputs. */
    method ItemInterp(computed: Placement, curveScale: real)
      modifies this`placement, this`scale
      ensures !old(bInterping) ==> placement == old(placement) && scale == old(scale)
      ensures placement == (if bInterping && character != null && hasZCurve then computed else old(placement))
      ensures scale == (if bInterping && character != null && hasZCurve && hasScaleCurve then curveScale else old(scale))
    {
      if !bInterping { return; }
      if character != null && hasZCurve {
        placement := computed;
        if hasScaleCurve {
          scale := curveScale;
        }
      }
    }

    /** AActor::Destroy, as far as this model sees it. */
    method Destroy()
      modifies this`destroyed
      ensures destroyed
    {
      destroyed := true;
    }
  }
}
