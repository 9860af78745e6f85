// The slot script of src/limits/redis-store.ts.  It remembers a line's last
// slot in a key that expires; the key may be gone at any call made once its
// lifetime is over.
module RedisPacing {
  import opened Wrappers
  import opened Pacing

  datatype Kept = Kept(slot: real, until: real)

  // A call of the script, and whether it found the key expired.
  datatype Visit = Visit(call: Acquire, expired: bool)

  function Lifetime(interval: real): real {
    Max(1000.0, interval * 4.0)
  }

  function Script(kept: Option<Kept>, v: Visit): Kept {
    var last := if kept.Some? && !v.expired then kept.value.slot else 0.0;
    Kept(NextSlot(last, v.call), v.call.now + Lifetime(v.call.interval))
  }

  // What the key holds after a sequence of calls.
  function Held(visits: seq<Visit>): Option<Kept> {
    if visits == [] then None else Some(Script(Held(visits[..|visits| - 1]), visits[|visits| - 1]))
  }

  function Calls(visits: seq<Visit>): seq<Acquire> {
    seq(|visits|, i requires 0 <= i < |visits| => visits[i].call)
  }

  // The slot given to the i-th call.
  function Given(visits: seq<Visit>, i: nat): real
    requires i < |visits|
  {
    Held(visits[..i + 1]).value.slot
  }

  // A clock that is past its first interval, and a key that lives at least as
  // long as it was told to.
  ghost predicate Lawful(visits: seq<Visit>, interval: real) {
    && interval > 0.0
    && (forall i :: 0 <= i < |visits| ==> visits[i].call.interval == interval <= visits[i].call.now)
    && (forall i :: 0 <= i < |visits| && visits[i].expired ==>
          i > 0 && visits[i].call.now >= visits[i - 1].call.now + Lifetime(interval))
  }

  class SlotKey {
    var stored: Option<Kept>
    ghost var visits: seq<Visit>

    ghost predicate Valid()
      reads this
    {
      stored == Held(visits)
    }

    constructor ()
      ensures Valid() && visits == []
    {
      stored, visits := None, [];
    }

    method Acquire(now: real, interval: real, expired: bool) returns (delay: real)
      requires Valid()
      modifies this
      ensures Valid() && visits == old(visits) + [Visit(Pacing.Acquire(now, interval), expired)]
      ensures delay == stored.value.slot - now >= 0.0
    {
      var last := 0.0;
      if stored.Some? && !expired { last := stored.value.slot; }
      var nextAvailable := last + interval;
      var slot := nextAvailable;
      if now > nextAvailable { slot := now; }
      var ttl := interval * 4.0;
      if ttl < 1000.0 { ttl := 1000.0; }
      stored := Some(Kept(slot, now + ttl));
      delay := slot - now;
      if delay < 0.0 { delay := 0.0; }
      visits := visits + [Visit(Pacing.Acquire(now, interval), expired)];
      assert visits[..|visits| - 1] == old(visits);
    }
  }

  // --- the key against the slot that is kept for ever --------------------

  // The waits handed out so far leave the key alive for as long as it matters.
  ghost predicate WaitsFit(visits: seq<Visit>, interval: real) {
    forall i :: 0 <= i < |visits| ==>
      Wait(visits, i) <= Lifetime(interval) - interval
  }

  ghost predicate Unnoticed(visits: seq<Visit>) {
    forall i :: 0 <= i < |visits| ==> Agrees(visits, i)
  }

  ghost predicate Agrees(visits: seq<Visit>, i: nat)
    requires i < |visits|
  {
    Given(visits, i) == Slots(Calls(visits))[i]
  }

  // How long the i-th call waits.
  function Wait(visits: seq<Visit>, i: nat): real
    requires i < |visits|
  {
    Slots(Calls(visits))[i] - visits[i].call.now
  }

  lemma SlotsOfPrefix(calls: seq<Acquire>, n: nat)
    requires n <= |calls|
    ensures Slots(calls[..n]) == Slots(calls)[..n]
  {
    if n < |calls| {
      var shorter := calls[..|calls| - 1];
      SlotsOfPrefix(shorter, n);
      assert shorter[..n] == calls[..n];
    } else {
      assert calls[..n] == calls;
    }
  }

  lemma GivenNext(visits: seq<Visit>, i: nat)
    requires i < |visits|
    ensures Given(visits, i) == Script(Held(visits[..i]), visits[i]).slot
    ensures i == 0 ==> Held(visits[..i]) == None
    ensures i > 0 ==> Held(visits[..i]).Some? && Held(visits[..i]).value.slot == Given(visits, i - 1)
  {
    assert visits[..i + 1][..i] == visits[..i];
  }

  // At one call the two agree, if they agreed at the one before and its wait
  // left the key alive long enough.
  lemma CallAgrees(visits: seq<Visit>, interval: real, i: nat)
    requires Lawful(visits, interval) && i < |visits|
    requires i > 0 ==> Agrees(visits, i - 1) && Wait(visits, i - 1) <= Lifetime(interval) - interval
    ensures Agrees(visits, i)
  {
    hide Slots, Held, Given, Lifetime;
    GivenNext(visits, i);
    SlotAt(Calls(visits), i);
    assert visits[i].call.interval == interval <= visits[i].call.now;
  }

  // As long as no wait exceeds what the lifetime allows for, expiry goes
  // unnoticed.
  lemma ExpiryGoesUnnoticed(visits: seq<Visit>, interval: real)
    requires Lawful(visits, interval) && WaitsFit(visits, interval)
    ensures Unnoticed(visits)
  {
    forall i | 0 <= i < |visits| ensures Agrees(visits, i) { AgreesUpTo(visits, interval, i); }
  }

  lemma {:induction false} AgreesUpTo(visits: seq<Visit>, interval: real, i: nat)
    requires Lawful(visits, interval) && WaitsFit(visits, interval) && i < |visits|
    ensures Agrees(visits, i)
  {
    hide Agrees, Wait, Lifetime;
    if i > 0 { AgreesUpTo(visits, interval, i - 1); }
    CallAgrees(visits, interval, i);
  }

  // What a further call is given.
  lemma Extended(visits: seq<Visit>, v: Visit)
    ensures forall i :: 0 <= i < |visits| ==>
              Given(visits + [v], i) == Given(visits, i) && Slots(Calls(visits + [v]))[i] == Slots(Calls(visits))[i]
  {
    var longer := visits + [v];
    assert Calls(longer)[..|visits|] == Calls(visits);
    SlotsOfPrefix(Calls(longer), |visits|);
    forall i | 0 <= i < |visits|
      ensures Given(longer, i) == Given(visits, i) && Slots(Calls(longer))[i] == Slots(Calls(visits))[i]
    {
      assert longer[..i + 1] == visits[..i + 1];
    }
  }

  // The next call is given the right slot, whenever it comes and whether or not
  // the key has expired, exactly when the last wait fits the lifetime.
  lemma NextCallAgreesExactlyWhen(visits: seq<Visit>, interval: real)
    requires Lawful(visits, interval) && Unnoticed(visits) && visits != []
    ensures (forall v :: Lawful(visits + [v], interval) ==> Agrees(visits + [v], |visits|)) <==>
            Wait(visits, |visits| - 1) <= Lifetime(interval) - interval
  {
    hide Slots, Held, Given, Lifetime, Lawful;
    var n := |visits|;
    assert Agrees(visits, n - 1);
    if Wait(visits, n - 1) <= Lifetime(interval) - interval {
      forall v | Lawful(visits + [v], interval) ensures Agrees(visits + [v], n) {
        Extended(visits, v);
        CallAgrees(visits + [v], interval, n);
      }
    } else {
      var v := Visit(Acquire(visits[n - 1].call.now + Lifetime(interval), interval), true);
      LateCallIsLawful(visits, interval, v);
      Extended(visits, v);
      LateCallIsGivenNow(visits, v);
      SlotAt(Calls(visits + [v]), n);
    }
  }

  lemma LateCallIsLawful(visits: seq<Visit>, interval: real, v: Visit)
    requires Lawful(visits, interval) && visits != []
    requires v == Visit(Acquire(visits[|visits| - 1].call.now + Lifetime(interval), interval), true)
    ensures Lawful(visits + [v], interval) && interval <= v.call.now
  {
  }

  lemma LateCallIsGivenNow(visits: seq<Visit>, v: Visit)
    requires v.expired && v.call.interval <= v.call.now
    ensures Given(visits + [v], |visits|) == v.call.now
  {
    GivenNext(visits + [v], |visits|);
  }

  // --- how long a burst the lifetime bears -------------------------------

  // n calls made at one moment on a key that is not there.
  function Rush(now: real, interval: real, n: nat): seq<Visit> {
    seq(n, _ => Visit(Acquire(now, interval), false))
  }

  lemma RushWaits(now: real, interval: real, n: nat, k: nat)
    requires 0.0 < interval <= now && k < n
    ensures Wait(Rush(now, interval, n), k) == Span(k, interval)
  {
    SimultaneousCallsQueueUp(Calls(Rush(now, interval, n)), 0, interval, k);
  }

  lemma RushFitsWhen(now: real, interval: real, n: nat)
    requires 0.0 < interval <= now && n > 0
    ensures WaitsFit(Rush(now, interval, n), interval) <==> Span(n, interval) <= Lifetime(interval)
  {
    hide Span, Lifetime, Wait;
    var visits := Rush(now, interval, n);
    SpanGrows(interval);
    assert Span(n - 1 + 1, interval) == Span(n - 1, interval) + interval;
    forall k | 0 <= k < n ensures Wait(visits, k) == Span(k, interval) <= Span(n - 1, interval) {
      RushWaits(now, interval, n, k);
    }
    assert Wait(visits, n - 1) == Span(n - 1, interval);
  }

  // At one send a second a fifth simultaneous call is one too many: the sixth
  // call, made when the key is gone, is given the slot the fifth one has.
  lemma SixthCallSharesASlot(now: real)
    requires now >= 1000.0
    ensures var visits := Rush(now, 1000.0, 5) + [Visit(Acquire(now + 4000.0, 1000.0), true)];
            Lawful(visits, 1000.0) && Given(visits, 5) == Given(visits, 4)
  {
    var rush := Rush(now, 1000.0, 5);
    var v := Visit(Acquire(now + 4000.0, 1000.0), true);
    LateCallIsLawful(rush, 1000.0, v);
    LateCallIsGivenNow(rush, v);
    Extended(rush, v);
    RushWaits(now, 1000.0, 5, 4);
    FifthAgrees(now);
  }

  lemma FifthAgrees(now: real)
    requires now >= 1000.0
    ensures Agrees(Rush(now, 1000.0, 5), 4)
  {
    var four, five := Rush(now, 1000.0, 4), Rush(now, 1000.0, 5);
    RushFitsWhen(now, 1000.0, 4);
    ExpiryGoesUnnoticed(four, 1000.0);
    assert four + [five[4]] == five;
    Extended(four, five[4]);
    assert Agrees(four, 3);
    RushWaits(now, 1000.0, 5, 3);
    CallAgrees(five, 1000.0, 4);
  }
}
