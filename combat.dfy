// The player's combat state machine and ammunition ledger, as functions on
// a value: the combat state, the input flags, the right-hand weapon's
// magazine and the carried-ammo map. The PlayerCharacter class is specified
// by these functions; the properties of the bookkeeping are proved here.
module Combat {
  import opened Shared
  import opened Weapons

  /** ECombatState, with the DeadEye state the character's code uses. */
  datatype CombatState = Unoccupied | FireTimerInProgress | Reloading | DeadEye

  /** The part of APlayerCharacter the combat functions read and write.
      `weapon` is the right-hand weapon's magazine, None when no weapon is
      equipped; `ledger` is AmmoMap; `timeDilation` is the global time
      dilation PerformDeadEye sets. */
  datatype CombatView = CombatView(
    state: CombatState,
    firePressed: bool,
    shouldFire: bool,
    deadEye: bool,
    timeDilation: real,
    aiming: bool,
    weapon: Option<Magazine>,
    ledger: map<AmmoType, int>)

  /** WeaponHasAmmo, for a view that has no left-hand-only weapon. */
  predicate WeaponHasAmmo(c: CombatView)
  {
    c.weapon.Some? && c.weapon.value.ammo > 0
  }

  /** AmmoTypeCarried: the ledger holds rounds of the weapon's ammunition. */
  predicate AmmoTypeCarried(c: CombatView)
  {
    && c.weapon.Some?
    && c.weapon.value.ammoType in c.ledger
    && c.ledger[c.weapon.value.ammoType] > 0
  }

  /** The gate of FireWeapon. */
  predicate CanFire(c: CombatView)
  {
    c.state == Unoccupied && WeaponHasAmmo(c)
  }

  /** The gate of ReloadWeapon. */
  predicate CanReload(c: CombatView)
  {
    c.state == Unoccupied && AmmoTypeCarried(c)
  }

  /** StartFireTimer: only bShouldFire guards entering FireTimerInProgress. */
  function StartFireTimer(c: CombatView): CombatView
  {
    if c.shouldFire then c.(state := FireTimerInProgress) else c
  }

  /** FireWeapon: nothing happens unless the state is Unoccupied and the
      right-hand magazine holds a round; then exactly one round is spent and
      the fire timer starts. */
  function FireWeapon(c: CombatView): (r: CombatView)
    ensures CanFire(c) ==>
      && r.weapon == Some(Fired(c.weapon.value))
      && r.state == (if c.shouldFire then FireTimerInProgress else Unoccupied)
      && r == c.(weapon := r.weapon, state := r.state)
    ensures !CanFire(c) ==> r == c
  {
    if c.weapon.None? then c
    else if c.state != Unoccupied then c
    else if WeaponHasAmmo(c) then StartFireTimer(c.(weapon := Some(Fired(c.weapon.value))))
    else c
  }

  /** ReloadWeapon: enter Reloading only from Unoccupied, with a weapon, and
      with rounds of its kind in the ledger; otherwise nothing changes. */
  function ReloadWeapon(c: CombatView): (r: CombatView)
    ensures CanReload(c) ==> r == c.(state := Reloading)
    ensures !CanReload(c) ==> r == c
  {
    if c.state != Unoccupied then c
    else if c.weapon.None? then c
    else if AmmoTypeCarried(c) then c.(state := Reloading)
    else c
  }

  /** AutoFireReset, the fire timer's callback: back to Unoccupied, then fire
      again while the button is held and rounds remain, or reload an empty
      magazine. */
  function AutoFireReset(c: CombatView): (r: CombatView)
    ensures r.state ==
      if WeaponHasAmmo(c) && c.firePressed && c.shouldFire then FireTimerInProgress
      else if !WeaponHasAmmo(c) && AmmoTypeCarried(c) then Reloading
      else Unoccupied
    ensures r.weapon == (if WeaponHasAmmo(c) && c.firePressed then Some(Fired(c.weapon.value)) else c.weapon)
    ensures r == c.(state := r.state, weapon := r.weapon)
  {
    var u := c.(state := Unoccupied);
    if WeaponHasAmmo(u) then
      if u.firePressed then FireWeapon(u) else u
    else
      ReloadWeapon(u)
  }

  /** FireButtonPressed: hold the trigger, then try to fire. */
  function FireButtonPressed(c: CombatView): (r: CombatView)
    ensures r.firePressed
    ensures r == FireWeapon(c.(firePressed := true))
  {
    FireWeapon(c.(firePressed := true))
  }

  function FireButtonReleased(c: CombatView): (r: CombatView)
    ensures r == c.(firePressed := false)
  {
    c.(firePressed := false)
  }

  /** The rounds moved from the ledger into the magazine when a reload
      completes: the smaller of the magazine's empty space and the rounds
      carried. */
  function ReloadTransfer(capacity: int, ammo: int, carried: int): (t: int)
    ensures t <= carried && ammo + t <= capacity
    ensures t == carried || ammo + t == capacity
  {
    var magEmptySpace := capacity - ammo;
    if magEmptySpace > carried then carried else magEmptySpace
  }

  /** The ledger holds an entry for the right-hand weapon's ammunition. */
  predicate LedgerHasWeaponType(c: CombatView)
  {
    c.weapon.Some? && c.weapon.value.ammoType in c.ledger
  }

  /** FinishReloading, the reload animation's notify: always back to
      Unoccupied; when the ledger has an entry for the weapon's ammunition,
      move ReloadTransfer rounds into the magazine. The rounds held in the
      magazine and the ledger together are unchanged, the ledger entry cannot
      go negative and the magazine cannot pass its capacity. */
  function FinishReloading(c: CombatView): (r: CombatView)
    ensures r.state == Unoccupied
    ensures r == c.(state := Unoccupied, weapon := r.weapon, ledger := r.ledger)
    ensures r.weapon.Some? == c.weapon.Some? && r.ledger.Keys == c.ledger.Keys
    ensures !LedgerHasWeaponType(c) ==> r.weapon == c.weapon && r.ledger == c.ledger
    ensures LedgerHasWeaponType(c) ==>
      var m, m' := c.weapon.value, r.weapon.value;
      && m'.capacity == m.capacity && m'.ammoType == m.ammoType
      && m'.ammo + r.ledger[m.ammoType] == m.ammo + c.ledger[m.ammoType]
      && r.ledger[m.ammoType] >= 0
      && m'.ammo <= m.capacity
      && (m'.ammo == m.capacity || r.ledger[m.ammoType] == 0)
      && (m.ammo <= m.capacity && c.ledger[m.ammoType] >= 0 ==> m'.ammo >= m.ammo)
      && forall k :: k in c.ledger && k != m.ammoType ==> r.ledger[k] == c.ledger[k]
  {
    var u := c.(state := Unoccupied);
    if u.weapon.None? then u
    else
      var m := u.weapon.value;
      if m.ammoType in u.ledger then
        var carried := u.ledger[m.ammoType];
        var t := ReloadTransfer(m.capacity, m.ammo, carried);
        u.(weapon := Some(m.(ammo := m.ammo + t)), ledger := u.ledger[m.ammoType := carried - t])
      else u
  }

  /** InitializeAmmoMap: seed (or overwrite) the 9mm and AR entries. */
  function InitializeAmmoMap(ledger: map<AmmoType, int>, starting9mm: int, startingAR: int): (r: map<AmmoType, int>)
    ensures NineMm in r && AssaultRifle in r
    ensures r[NineMm] == starting9mm && r[AssaultRifle] == startingAR
    ensures r.Keys == ledger.Keys + {NineMm, AssaultRifle}
  {
    ledger[NineMm := starting9mm][AssaultRifle := startingAR]
  }

  /** PickupAmmo: add the pickup's rounds to the ledger entry of its kind,
      only when that entry exists (no entry is created and no other entry is
      touched); then reload when the pickup matches an empty right-hand
      magazine. The right-hand weapon must exist. */
  function PickupAmmo(c: CombatView, kind: AmmoType, count: int): (r: CombatView)
    requires c.weapon.Some?
    ensures r.ledger.Keys == c.ledger.Keys
    ensures kind in c.ledger ==> r.ledger[kind] == c.ledger[kind] + count
    ensures forall k :: k in c.ledger && k != kind ==> r.ledger[k] == c.ledger[k]
    ensures r == c.(ledger := r.ledger, state := r.state)
    ensures r.state ==
      if && kind == c.weapon.value.ammoType && c.weapon.value.ammo == 0
         && c.state == Unoccupied && kind in c.ledger && c.ledger[kind] + count > 0
      then Reloading else c.state
  {
    var ledger := if kind in c.ledger then c.ledger[kind := c.ledger[kind] + count] else c.ledger;
    var u := c.(ledger := ledger);
    if c.weapon.value.ammoType == kind && c.weapon.value.ammo == 0 then ReloadWeapon(u) else u
  }

  /** PerformDeadEye: toggle DeadEye. Entering sets the DeadEye state and
      slows time to 0.1; leaving sets Unoccupied and restores time 1.0. */
  function PerformDeadEye(c: CombatView): (r: CombatView)
    ensures r.deadEye == !c.deadEye
    ensures r.state == (if c.deadEye then Unoccupied else DeadEye)
    ensures r.timeDilation == (if c.deadEye then 1.0 else 0.1)
    ensures r == c.(deadEye := r.deadEye, state := r.state, timeDilation := r.timeDilation)
  {
    if !c.deadEye then
      c.(state := DeadEye, timeDilation := 0.1, deadEye := true)
    else
      c.(state := Unoccupied, timeDilation := 1.0, deadEye := false)
  }

  /** AimingButtonPressed: ignored while reloading. */
  function AimingButtonPressed(c: CombatView): (r: CombatView)
    ensures r.aiming <==> c.aiming || c.state != Reloading
    ensures r == c.(aiming := r.aiming)
  {
    if c.state != Reloading then c.(aiming := true) else c
  }

  /** AimingButtonReleased: always stops aiming. */
  function AimingButtonReleased(c: CombatView): (r: CombatView)
    ensures !r.aiming && r == c.(aiming := false)
  {
    c.(aiming := false)
  }

  /** Two DeadEye toggles from outside DeadEye end Unoccupied at normal speed
      with the DeadEye flag clear, whatever state the first toggle found. */
  lemma DeadEyeRoundTrip(c: CombatView)
    requires !c.deadEye
    ensures PerformDeadEye(PerformDeadEye(c)) == c.(state := Unoccupied, timeDilation := 1.0)
  {
  }

  /** The inputs that drive the combat functions: button events, the timer
      and animation callbacks, and ammunition pickups. */
  datatype Input =
    | FirePressed
    | FireReleased
    | FireTimerExpired
    | ReloadPressed
    | ReloadFinished
    | DeadEyeToggled
    | AimPressed
    | AimReleased
    | AmmoPickedUp(kind: AmmoType, count: int)

  function Step(c: CombatView, i: Input): (r: CombatView)
    requires c.weapon.Some?
    ensures r.weapon.Some?
    ensures r.weapon.value.capacity == c.weapon.value.capacity
    ensures r.weapon.value.ammoType == c.weapon.value.ammoType
    ensures r.ledger.Keys == c.ledger.Keys && r.shouldFire == c.shouldFire
  {
    match i
    case FirePressed => FireButtonPressed(c)
    case FireReleased => FireButtonReleased(c)
    case FireTimerExpired => AutoFireReset(c)
    case ReloadPressed => ReloadWeapon(c)
    case ReloadFinished => FinishReloading(c)
    case DeadEyeToggled => PerformDeadEye(c)
    case AimPressed => AimingButtonPressed(c)
    case AimReleased => AimingButtonReleased(c)
    case AmmoPickedUp(kind, count) => PickupAmmo(c, kind, count)
  }

  /** The view after a sequence of inputs. The weapon stays equipped with the
      same magazine capacity and ammunition kind throughout. */
  function Run(c: CombatView, inputs: seq<Input>): (r: CombatView)
    requires c.weapon.Some?
    ensures r.weapon.Some?
    ensures r.weapon.value.capacity == c.weapon.value.capacity
    ensures r.weapon.value.ammoType == c.weapon.value.ammoType
    ensures r.ledger.Keys == c.ledger.Keys && r.shouldFire == c.shouldFire
    decreases |inputs|
  {
    if inputs == [] then c else Run(Step(c, inputs[0]), inputs[1..])
  }

  predicate MagazineInBounds(c: CombatView)
  {
    c.weapon.Some? ==> 0 <= c.weapon.value.ammo <= c.weapon.value.capacity
  }

  predicate LedgerNonNegative(c: CombatView)
  {
    forall k :: k in c.ledger ==> c.ledger[k] >= 0
  }

  /** Rounds of the right-hand weapon's kind held in its magazine and in the
      ledger together. */
  function Rounds(c: CombatView): int
    requires c.weapon.Some?
  {
    var m := c.weapon.value;
    m.ammo + (if m.ammoType in c.ledger then c.ledger[m.ammoType] else 0)
  }

  /** Rounds of one kind brought in by the pickups of an input sequence. */
  function PickedUp(inputs: seq<Input>, kind: AmmoType): int
  {
    if inputs == [] then 0
    else
      var here := if inputs[0].AmmoPickedUp? && inputs[0].kind == kind then inputs[0].count else 0;
      here + PickedUp(inputs[1..], kind)
  }

  predicate PickupsNonNegative(inputs: seq<Input>)
  {
    forall i :: 0 <= i < |inputs| && inputs[i].AmmoPickedUp? ==> inputs[i].count >= 0
  }

  /** Reloading moves rounds from the ledger into the magazine without
      leaving the bounds or creating rounds. */
  lemma FinishReloadingKeepsAmmoBounds(c: CombatView)
    requires c.weapon.Some? && MagazineInBounds(c) && LedgerNonNegative(c)
    ensures MagazineInBounds(FinishReloading(c)) && LedgerNonNegative(FinishReloading(c))
    ensures Rounds(FinishReloading(c)) == Rounds(c)
  {
    var r := FinishReloading(c);
    if LedgerHasWeaponType(c) {
      forall k | k in r.ledger ensures r.ledger[k] >= 0 {
        if k != c.weapon.value.ammoType { assert r.ledger[k] == c.ledger[k]; }
      }
    }
  }

  /** A non-negative pickup keeps the ledger non-negative and adds at most
      its own count to the rounds of the weapon's kind. */
  lemma PickupAmmoKeepsAmmoBounds(c: CombatView, kind: AmmoType, count: int)
    requires c.weapon.Some? && MagazineInBounds(c) && LedgerNonNegative(c) && count >= 0
    ensures MagazineInBounds(PickupAmmo(c, kind, count)) && LedgerNonNegative(PickupAmmo(c, kind, count))
    ensures Rounds(PickupAmmo(c, kind, count)) <= Rounds(c) + (if kind == c.weapon.value.ammoType then count else 0)
  {
    var r := PickupAmmo(c, kind, count);
    forall k | k in r.ledger ensures r.ledger[k] >= 0 {
      if k != kind { assert r.ledger[k] == c.ledger[k]; }
    }
  }

  /** One input keeps the magazine within its capacity and the ledger
      non-negative, and creates no rounds beyond those picked up. */
  lemma StepKeepsAmmoBounds(c: CombatView, i: Input)
    requires c.weapon.Some? && MagazineInBounds(c) && LedgerNonNegative(c)
    requires i.AmmoPickedUp? ==> i.count >= 0
    ensures MagazineInBounds(Step(c, i)) && LedgerNonNegative(Step(c, i))
    ensures Rounds(Step(c, i)) <= Rounds(c) + PickedUp([i], c.weapon.value.ammoType)
  {
    var kind := c.weapon.value.ammoType;
    assert PickedUp([i], kind) == (if i.AmmoPickedUp? && i.kind == kind then i.count else 0) + PickedUp([], kind);
    match i
    case ReloadFinished =>
      FinishReloadingKeepsAmmoBounds(c);
    case AmmoPickedUp(kind', count) =>
      PickupAmmoKeepsAmmoBounds(c, kind', count);
    case FirePressed =>
    case FireReleased =>
    case FireTimerExpired =>
    case ReloadPressed =>
    case DeadEyeToggled =>
    case AimPressed =>
    case AimReleased =>
  }

  /** Over any sequence of inputs the magazine stays within its capacity, the
      ledger stays non-negative, and the rounds of the weapon's kind never
      exceed what was held at the start plus what was picked up: firing and
      reloading create no ammunition. */
  lemma {:induction false} RunKeepsAmmoBounds(c: CombatView, inputs: seq<Input>)
    requires c.weapon.Some? && MagazineInBounds(c) && LedgerNonNegative(c)
    requires PickupsNonNegative(inputs)
    ensures MagazineInBounds(Run(c, inputs)) && LedgerNonNegative(Run(c, inputs))
    ensures Rounds(Run(c, inputs)) <= Rounds(c) + PickedUp(inputs, c.weapon.value.ammoType)
    decreases |inputs|
  {
    if inputs != [] {
      var kind := c.weapon.value.ammoType;
      var c' := Step(c, inputs[0]);
      StepKeepsAmmoBounds(c, inputs[0]);
      assert PickupsNonNegative(inputs[1..]) by {
        forall j | 0 <= j < |inputs[1..]| && inputs[1..][j].AmmoPickedUp?
          ensures inputs[1..][j].count >= 0
        {
          assert inputs[1..][j] == inputs[j + 1];
        }
      }
      RunKeepsAmmoBounds(c', inputs[1..]);
      assert PickedUp([inputs[0]], kind) + PickedUp(inputs[1..], kind) == PickedUp(inputs, kind);
    }
  }

  /** Firing and reloading start only from Unoccupied: a round leaves the
      magazine, or Reloading is entered, only on an input that found the
      state Unoccupied, or on the auto-fire timer, which resets the state to
      Unoccupied before it fires or reloads. */
  lemma ActionsStartFromUnoccupied(c: CombatView, i: Input)
    requires c.weapon.Some? && MagazineInBounds(c) && LedgerNonNegative(c)
    ensures Step(c, i).weapon.value.ammo < c.weapon.value.ammo ==>
      (c.state == Unoccupied && i == FirePressed) || i == FireTimerExpired
    ensures Step(c, i).state == Reloading && c.state != Reloading ==>
      (c.state == Unoccupied && (i == ReloadPressed || i.AmmoPickedUp?)) || i == FireTimerExpired
  {
  }

  /** A reload with 50 rounds carried into a 15-round magazine holding 3
      fills the magazine and leaves 38 carried. */
  lemma ReloadScenario()
    ensures
      var c := CombatView(Unoccupied, false, true, false, 1.0, false,
                          Some(Magazine(3, 15, NineMm)), map[NineMm := 50]);
      var r := Run(c, [ReloadPressed, ReloadFinished]);
      r.weapon.value.ammo == 15 && r.ledger[NineMm] == 38 && r.state == Unoccupied
  {
  }

  /** With no rounds carried, a reload request on an empty magazine is
      dropped and the state stays Unoccupied. */
  lemma EmptyLedgerReloadScenario()
    ensures
      var c := CombatView(Unoccupied, false, true, false, 1.0, false,
                          Some(Magazine(0, 15, NineMm)), map[NineMm := 0]);
      ReloadWeapon(c) == c
  {
  }
}
