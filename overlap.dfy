// The player's count of item area spheres it stands in, and the flag that
// switches the per-tick item trace on while the count is positive.
module Overlap {
  import opened Shared

  /** A count and the trace flag derived from it. */
  datatype OverlapState = OverlapState(count: int, shouldTrace: bool)

  /** IncrementOverlappedItemCount as written: the guard adds in int, but the
      store goes back into the int8 field and wraps. */
  function OverlapStepAsWritten(s: OverlapState, amount: int): (r: OverlapState)
    requires IsInt8(s.count) && IsInt8(amount)
    ensures IsInt8(r.count)
    ensures s.count + amount <= 0 ==> r == OverlapState(0, false)
    ensures s.count + amount > 0 ==> r.shouldTrace && (r.count - (s.count + amount)) % 256 == 0
  {
    if s.count + amount <= 0 then OverlapState(0, false)
    else OverlapState(WrapInt8(s.count + amount), true)
  }

  /** The 128th overlapping item wraps the count to -128 while tracing
      stays on: the count no longer agrees with the flag. */
  lemma OverlapWrapBreaksFlag()
    ensures OverlapStepAsWritten(OverlapState(127, true), 1) == OverlapState(-128, true)
  {
  }

  /** IncrementOverlappedItemCount as intended: clamp at zero and keep the
      flag equal to "count is positive". The count is not wrapped. */
  function OverlapStep(s: OverlapState, amount: int): (r: OverlapState)
    ensures r.count >= 0
    ensures r.shouldTrace <==> r.count > 0
    ensures s.count + amount > 0 ==> r.count == s.count + amount
    ensures s.count + amount <= 0 ==> r.count == 0
  {
    if s.count + amount <= 0 then OverlapState(0, false)
    else OverlapState(s.count + amount, true)
  }

  /** The two agree whenever the sum fits an int8. */
  lemma AsWrittenAgreesInRange(s: OverlapState, amount: int)
    requires IsInt8(s.count) && IsInt8(amount) && s.count + amount <= INT8_MAX
    ensures OverlapStepAsWritten(s, amount) == OverlapStep(s, amount)
  {
  }

  /** The state after a sequence of begin (true) and end (false) overlaps,
      from the initial zero count. */
  function Overlaps(events: seq<bool>): OverlapState
  {
    if events == [] then OverlapState(0, false)
    else OverlapStep(Overlaps(events[..|events| - 1]), if events[|events| - 1] then 1 else -1)
  }

  /** Begins minus ends. */
  function Net(events: seq<bool>): int
  {
    if events == [] then 0
    else Net(events[..|events| - 1]) + (if events[|events| - 1] then 1 else -1)
  }

  /** No prefix has more ends than begins. */
  predicate Balanced(events: seq<bool>)
  {
    forall k :: 0 <= k <= |events| ==> Net(events[..k]) >= 0
  }

  /** While no end overlap arrives without a matching begin, the count is
      exactly the number of spheres the player is inside, and tracing is on
      exactly when that number is positive. */
  lemma {:induction false} OverlapsCountExactly(events: seq<bool>)
    requires Balanced(events)
    ensures Overlaps(events).count == Net(events)
    ensures Overlaps(events).shouldTrace <==> Net(events) > 0
    decreases |events|
  {
    if events != [] {
      var init := events[..|events| - 1];
      assert Balanced(init) by {
        forall k | 0 <= k <= |init| ensures Net(init[..k]) >= 0 {
          assert init[..k] == events[..k];
        }
      }
      OverlapsCountExactly(init);
      assert events[..|events|] == events;
    }
  }
}
