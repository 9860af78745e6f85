// The per-line outbound slot: src/limits/store.ts keeps the last slot given to
// each line for ever, the script of src/limits/redis-store.ts keeps it in a key
// that expires.  Times are milliseconds.
module Pacing {

  function Max(a: real, b: real): real {
    if a >= b then a else b
  }

  // One request for a slot.
  datatype Acquire = Acquire(now: real, interval: real)

  function NextSlot(last: real, call: Acquire): real {
    Max(call.now, last + call.interval)
  }

  function LastOf(slots: seq<real>): real {
    if slots == [] then 0.0 else slots[|slots| - 1]
  }

  // The slots one line gives out; a line that gave none starts from zero.
  function Slots(calls: seq<Acquire>): (slots: seq<real>)
    ensures |slots| == |calls|
  {
    if calls == [] then []
    else
      var before := Slots(calls[..|calls| - 1]);
      before + [NextSlot(LastOf(before), calls[|calls| - 1])]
  }

  // What the line's i-th call finds: the time before, or zero.
  function Before(times: seq<real>, i: nat): real
    requires i <= |times|
  {
    if i == 0 then 0.0 else times[i - 1]
  }

  lemma {:induction false} SlotAt(calls: seq<Acquire>, i: nat)
    requires i < |calls|
    ensures Slots(calls)[i] == NextSlot(Before(Slots(calls), i), calls[i])
  {
    if i < |calls| - 1 {
      var before := calls[..|calls| - 1];
      SlotAt(before, i);
      assert before[i] == calls[i];
    }
  }

  // --- what the slots guarantee ------------------------------------------

  ghost predicate Paced(calls: seq<Acquire>, interval: real) {
    forall i :: 0 <= i < |calls| ==> calls[i].interval == interval
  }

  // The length of n intervals.
  function Span(n: int, interval: real): real {
    n as real * interval
  }

  lemma SpanGrows(interval: real)
    requires interval >= 0.0
    ensures Span(0, interval) == 0.0
    ensures forall n :: Span(n + 1, interval) == Span(n, interval) + interval
    ensures forall m, n :: m <= n ==> Span(m, interval) <= Span(n, interval)
  {
    forall m: int, n: int | m <= n ensures Span(m, interval) <= Span(n, interval) {
      assert n as real * interval == m as real * interval + (n - m) as real * interval;
    }
  }

  // Any two slots of a line are at least as many intervals apart as there were
  // calls between them, whatever the clock did.
  lemma {:induction false} SlotsAreSpaced(calls: seq<Acquire>, interval: real, i: nat, j: nat)
    requires Paced(calls, interval) && interval >= 0.0 && i <= j < |calls|
    ensures Slots(calls)[j] >= Slots(calls)[i] + Span(j - i, interval)
  {
    hide Span;
    SpanGrows(interval);
    if i < j {
      SlotsAreSpaced(calls, interval, i, j - 1);
      SlotAt(calls, j);
      assert Span(j - 1 - i + 1, interval) == Span(j - 1 - i, interval) + interval;
    }
  }

  // How many of the slots fall in the second that begins at `from`.
  function InWindow(slots: seq<real>, from: real): nat {
    if slots == [] then 0
    else InWindow(slots[..|slots| - 1], from) + (if from <= slots[|slots| - 1] < from + 1000.0 then 1 else 0)
  }

  lemma InWindowNext(slots: seq<real>, n: nat, from: real)
    requires 0 < n <= |slots|
    ensures InWindow(slots[..n], from) == InWindow(slots[..n - 1], from) + (if from <= slots[n - 1] < from + 1000.0 then 1 else 0)
  {
    assert slots[..n][..n - 1] == slots[..n - 1];
  }

  // The slots inside a window push the last of them on, one interval each.
  lemma {:induction false} WindowFills(calls: seq<Acquire>, interval: real, n: nat, from: real)
    requires Paced(calls, interval) && interval > 0.0 && n <= |calls| && InWindow(Slots(calls)[..n], from) > 0
    ensures n > 0
    ensures var spread := Span(InWindow(Slots(calls)[..n], from) - 1, interval);
            from + spread <= Slots(calls)[n - 1] && spread < 1000.0
  {
    hide Span, InWindow, Slots;
    SpanGrows(interval);
    assert n > 0 by { if n == 0 { NothingInWindow(Slots(calls)[..n], from); } }
    InWindowNext(Slots(calls), n, from);
    var before := InWindow(Slots(calls)[..n - 1], from);
    if before > 0 {
      WindowFills(calls, interval, n - 1, from);
      SlotAt(calls, n - 1);
      assert Span(before - 1 + 1, interval) == Span(before - 1, interval) + interval;
    }
  }

  lemma NothingInWindow(slots: seq<real>, from: real)
    ensures slots == [] ==> InWindow(slots, from) == 0
  {
  }

  // No second holds more slots than there are whole intervals in it, rounded up.
  lemma WindowBound(calls: seq<Acquire>, interval: real, most: nat, from: real)
    requires Paced(calls, interval) && interval > 0.0 && Span(most, interval) >= 1000.0
    ensures InWindow(Slots(calls), from) <= most
  {
    hide Span, InWindow, Slots;
    SpanGrows(interval);
    assert Slots(calls)[..|calls|] == Slots(calls);
    if InWindow(Slots(calls), from) > 0 { WindowFills(calls, interval, |calls|, from); }
  }

  // A time for every call, no earlier than the call and an interval after the
  // time before.
  ghost predicate Respects(calls: seq<Acquire>, times: seq<real>) {
    && |times| == |calls|
    && forall i :: 0 <= i < |calls| ==>
         calls[i].now <= times[i] && Before(times, i) + calls[i].interval <= times[i]
  }

  // The slots respect the calls, and are the earliest times that do.
  lemma {:induction false} SlotsAreEarliest(calls: seq<Acquire>, times: seq<real>, i: nat)
    requires Respects(calls, times) && i < |calls|
    ensures Slots(calls)[i] <= times[i]
  {
    hide Slots;
    SlotAt(calls, i);
    assert calls[i].now <= times[i] && Before(times, i) + calls[i].interval <= times[i];
    if i > 0 { SlotsAreEarliest(calls, times, i - 1); }
  }

  lemma SlotsRespectTheCalls(calls: seq<Acquire>)
    ensures Respects(calls, Slots(calls))
  {
    forall i | 0 <= i < |calls|
      ensures calls[i].now <= Slots(calls)[i] && Before(Slots(calls), i) + calls[i].interval <= Slots(calls)[i]
    {
      SlotAt(calls, i);
    }
  }

  // The k-th of several calls made at one moment on an idle line waits exactly
  // k intervals.
  lemma {:induction false} SimultaneousCallsQueueUp(calls: seq<Acquire>, first: nat, interval: real, k: nat)
    requires Paced(calls, interval) && interval >= 0.0 && first + k < |calls|
    requires forall j :: first <= j <= first + k ==> calls[j].now == calls[first].now
    requires Before(Slots(calls), first) + interval <= calls[first].now
    ensures Slots(calls)[first + k] == calls[first].now + Span(k, interval)
  {
    hide Span, Slots;
    SpanGrows(interval);
    SlotAt(calls, first + k);
    if k > 0 {
      SimultaneousCallsQueueUp(calls, first, interval, k - 1);
      assert Span(k - 1 + 1, interval) == Span(k - 1, interval) + interval;
      assert Span(0, interval) <= Span(k - 1, interval);
    }
  }

  // --- the two rates -----------------------------------------------------

  // src/limits/store.ts divides the second exactly,
  function Interval(perSecond: nat): real
    requires perSecond > 0
  {
    1000.0 / perSecond as real
  }

  // src/limits/redis-store.ts in whole milliseconds.
  function WholeInterval(perSecond: nat): nat
    requires perSecond > 0
  {
    if 1000 / perSecond < 1 then 1 else 1000 / perSecond
  }

  lemma RateIsKept(calls: seq<Acquire>, perSecond: nat, from: real)
    requires perSecond > 0 && Paced(calls, Interval(perSecond))
    ensures InWindow(Slots(calls), from) <= perSecond
  {
    assert Span(perSecond, Interval(perSecond)) == 1000.0;
    WindowBound(calls, Interval(perSecond), perSecond, from);
  }

  ghost predicate KeepsRate(perSecond: nat, interval: real) {
    forall calls, from :: Paced(calls, interval) ==> InWindow(Slots(calls), from) <= perSecond
  }

  function Burst(now: real, interval: real, n: nat): seq<Acquire> {
    seq(n, _ => Acquire(now, interval))
  }

  // Rounded down, the interval keeps the rate exactly when nothing was lost.
  lemma WholeIntervalKeepsRateWhen(perSecond: nat)
    requires perSecond > 0
    ensures KeepsRate(perSecond, WholeInterval(perSecond) as real) <==> perSecond * WholeInterval(perSecond) >= 1000
  {
    var whole := WholeInterval(perSecond);
    var interval := whole as real;
    assert Span(perSecond, interval) == (perSecond * whole) as real;
    if perSecond * whole >= 1000 {
      forall calls, from | Paced(calls, interval) ensures InWindow(Slots(calls), from) <= perSecond {
        WindowBound(calls, interval, perSecond, from);
      }
    } else {
      BurstBreaksRate(perSecond, interval, interval);
    }
  }

  // A burst at any moment past the first interval shows it.
  lemma BurstBreaksRate(perSecond: nat, interval: real, now: real)
    requires 0.0 < interval <= now && Span(perSecond, interval) < 1000.0
    ensures var calls := Burst(now, interval, perSecond + 1);
            Paced(calls, interval) && InWindow(Slots(calls), now) == perSecond + 1
  {
    var calls := Burst(now, interval, perSecond + 1);
    BurstFillsWindow(perSecond, interval, now, perSecond + 1);
    assert Slots(calls)[..perSecond + 1] == Slots(calls);
  }

  lemma {:induction false} BurstFillsWindow(perSecond: nat, interval: real, now: real, n: nat)
    requires 0.0 < interval <= now && Span(perSecond, interval) < 1000.0 && n <= perSecond + 1
    ensures InWindow(Slots(Burst(now, interval, perSecond + 1))[..n], now) == n
  {
    hide Span, InWindow, Slots;
    SpanGrows(interval);
    var calls := Burst(now, interval, perSecond + 1);
    NothingInWindow(Slots(calls)[..0], now);
    if n > 0 {
      BurstFillsWindow(perSecond, interval, now, n - 1);
      InWindowNext(Slots(calls), n, now);
      SimultaneousCallsQueueUp(calls, 0, interval, n - 1);
      assert Span(0, interval) <= Span(n - 1, interval) <= Span(perSecond, interval);
    }
  }

  // At any time of day four of four simultaneous sends at three a second fall
  // into one second.
  lemma ThreeBecomeFour(now: real)
    requires now >= 333.0
    ensures !KeepsRate(3, WholeInterval(3) as real)
    ensures var calls := Burst(now, WholeInterval(3) as real, 4);
            Paced(calls, WholeInterval(3) as real) && InWindow(Slots(calls), now) == 4
  {
    WholeIntervalKeepsRateWhen(3);
    BurstBreaksRate(3, 333.0, now);
  }
}
