// src/limits/store.ts and src/limits/tracker.ts as objects: the tables of slots,
// bucket counters and distinct callers that one process keeps, and the tracker
// that announces thresholds.  Buckets carry an expiry time, which never comes
// before the bucket's own second, hour or day is over.
module LimitStore {
  import opened Wrappers
  import Pacing
  import opened LimitLog

  datatype BucketKey = BucketKey(line: Line, bucket: int)
  datatype Bucket = Bucket(value: nat, expiresAt: int)
  datatype Numbers = Numbers(values: set<Phone>, expiresAt: int)

  type Table = map<BucketKey, Bucket>

  // --- a table against the log -------------------------------------------

  function CounterAt(p: Period, followUpsOnly: bool, key: BucketKey): Counter {
    Counter(key.line, p, key.bucket, followUpsOnly)
  }

  // The bucket counts its entries and outlives its period.
  ghost predicate BucketOk(table: Table, p: Period, followUpsOnly: bool, log: seq<Entry>, key: BucketKey) {
    && (key in table <==> Total(CounterAt(p, followUpsOnly, key), log) > 0)
    && (key in table ==>
          && table[key].value == Total(CounterAt(p, followUpsOnly, key), log)
          && Outlives(table[key].expiresAt, p, key.bucket))
  }

  ghost predicate Outlives(expiresAt: int, p: Period, bucket: int) {
    forall at :: BucketOf(p, at) == bucket ==> at < expiresAt
  }

  ghost predicate TableOk(table: Table, p: Period, followUpsOnly: bool, log: seq<Entry>) {
    forall key {:trigger BucketOk(table, p, followUpsOnly, log, key)} :: BucketOk(table, p, followUpsOnly, log, key)
  }

  ghost predicate NumbersOk(table: map<BucketKey, Numbers>, log: seq<Entry>, key: BucketKey) {
    && (key in table <==> Callers(key.line, key.bucket, log) != {})
    && (key in table ==>
          table[key].values == Callers(key.line, key.bucket, log) && Outlives(table[key].expiresAt, Day, key.bucket))
  }

  ghost predicate CallersOk(table: map<BucketKey, Numbers>, log: seq<Entry>) {
    forall key {:trigger NumbersOk(table, log, key)} :: NumbersOk(table, log, key)
  }

  // A bucket opened at any moment of its period outlives the period.
  lemma ExpiryOutlives(p: Period, now: int)
    ensures Outlives(now + Length(p), p, BucketOf(p, now))
  {
    forall at | BucketOf(p, at) == BucketOf(p, now) ensures at < now + Length(p) {
      var size := Length(p);
      assert size * (at / size) <= at < size * (at / size) + size;
      assert size * (now / size) <= now;
    }
  }

  // Slots of every line follow from the calls made for it.
  ghost predicate SlotsOk(slots: map<Line, real>, acquired: map<Line, seq<Pacing.Acquire>>, line: Line) {
    && (line in slots <==> line in acquired)
    && (line in slots ==> acquired[line] != [] && slots[line] == Pacing.LastOf(Pacing.Slots(acquired[line])))
  }

  ghost predicate PacingOk(slots: map<Line, real>, acquired: map<Line, seq<Pacing.Acquire>>) {
    forall line {:trigger SlotsOk(slots, acquired, line)} :: SlotsOk(slots, acquired, line)
  }

  // --- the operations on one table ---------------------------------------

  method BumpBucket(table: Table, key: BucketKey, expiresAt: int, now: int, ghost p: Period, ghost followUpsOnly: bool,
                    ghost log: seq<Entry>, ghost e: Entry)
    returns (bumped: Table, value: nat)
    requires TableOk(table, p, followUpsOnly, log)
    requires Counts(CounterAt(p, followUpsOnly, key), e)
    requires expiresAt == now + Length(p) && BucketOf(p, now) == key.bucket
    ensures TableOk(bumped, p, followUpsOnly, log + [e])
    ensures value == Total(CounterAt(p, followUpsOnly, key), log + [e])
  {
    hide Total, Counts, Outlives, TableOk, BucketOf;
    BucketIsOk(table, p, followUpsOnly, log, key, now);
    var bucket := Bucket(0, expiresAt);
    if key in table && table[key].expiresAt > now { bucket := table[key]; }
    value := bucket.value + 1;
    bumped := table[key := Bucket(value, bucket.expiresAt)];
    ExpiryOutlives(p, now);
    TotalNext(CounterAt(p, followUpsOnly, key), log, e);
    BumpKeeps(table, bumped, p, followUpsOnly, log, e, key);
  }

  lemma BucketIsOk(table: Table, p: Period, followUpsOnly: bool, log: seq<Entry>, key: BucketKey, now: int)
    requires TableOk(table, p, followUpsOnly, log)
    ensures BucketOk(table, p, followUpsOnly, log, key)
    ensures key in table && BucketOf(p, now) == key.bucket ==> table[key].expiresAt > now
  {
    assert BucketOk(table, p, followUpsOnly, log, key);
  }

  lemma BumpKeeps(table: Table, bumped: Table, p: Period, followUpsOnly: bool, log: seq<Entry>, e: Entry, key: BucketKey)
    requires TableOk(table, p, followUpsOnly, log) && Counts(CounterAt(p, followUpsOnly, key), e)
    requires BucketOk(bumped, p, followUpsOnly, log + [e], key)
    requires key in bumped && bumped == table[key := bumped[key]]
    ensures TableOk(bumped, p, followUpsOnly, log + [e])
  {
    hide Total, Outlives;
    forall other ensures BucketOk(bumped, p, followUpsOnly, log + [e], other) {
      assert BucketOk(table, p, followUpsOnly, log, other);
      TotalNext(CounterAt(p, followUpsOnly, other), log, e);
    }
  }

  // Entries that are no business of a table leave it right.
  lemma OthersKeep(table: Table, p: Period, followUpsOnly: bool, log: seq<Entry>, e: Entry)
    requires TableOk(table, p, followUpsOnly, log)
    requires e.Heard? || (followUpsOnly && !e.followUp)
    ensures TableOk(table, p, followUpsOnly, log + [e])
  {
    hide Total, Outlives;
    forall key ensures BucketOk(table, p, followUpsOnly, log + [e], key) {
      assert BucketOk(table, p, followUpsOnly, log, key);
      TotalNext(CounterAt(p, followUpsOnly, key), log, e);
    }
  }

  lemma SendsKeepCallers(table: map<BucketKey, Numbers>, log: seq<Entry>, e: Entry)
    requires CallersOk(table, log) && e.Sent?
    ensures CallersOk(table, log + [e])
  {
    hide Callers, Outlives;
    forall key ensures NumbersOk(table, log + [e], key) {
      assert NumbersOk(table, log, key);
      CallersNext(key.line, key.bucket, log, e);
    }
  }

  method PeekBucket(table: Table, key: BucketKey, now: int, ghost p: Period, ghost followUpsOnly: bool, ghost log: seq<Entry>)
    returns (value: nat)
    requires TableOk(table, p, followUpsOnly, log) && BucketOf(p, now) == key.bucket
    ensures value == Total(CounterAt(p, followUpsOnly, key), log)
  {
    BucketIsOk(table, p, followUpsOnly, log, key, now);
    if key !in table || table[key].expiresAt <= now { return 0; }
    return table[key].value;
  }

  method AddNumber(table: map<BucketKey, Numbers>, key: BucketKey, phone: Phone, now: int, ghost log: seq<Entry>)
    returns (added: map<BucketKey, Numbers>, distinct: nat, first: bool)
    requires CallersOk(table, log) && key.bucket == BucketOf(Day, now)
    ensures CallersOk(added, log + [Heard(key.line, phone, now)])
    ensures first <==> phone !in Callers(key.line, key.bucket, log)
    ensures distinct == |Callers(key.line, key.bucket, log + [Heard(key.line, phone, now)])|
  {
    hide Callers, BucketOf;
    ghost var e := Heard(key.line, phone, now);
    assert NumbersOk(table, log, key);
    ExpiryOutlives(Day, now);
    var numbers := Numbers({}, now + 86400 * 1000);
    if key in table && table[key].expiresAt > now { numbers := table[key]; }
    first := phone !in numbers.values;
    if first { numbers := numbers.(values := numbers.values + {phone}); }
    added := table[key := numbers];
    distinct := |numbers.values|;
    CallersNext(key.line, key.bucket, log, e);
    assert numbers.values == Callers(key.line, key.bucket, log + [e]);
    AddKeeps(table, added, log, e, key);
  }

  lemma AddKeeps(table: map<BucketKey, Numbers>, added: map<BucketKey, Numbers>, log: seq<Entry>, e: Entry, key: BucketKey)
    requires CallersOk(table, log) && NumbersOk(added, log + [e], key)
    requires e.Heard? && e.line == key.line && BucketOf(Day, e.at) == key.bucket
    requires key in added && added == table[key := added[key]]
    ensures CallersOk(added, log + [e])
  {
    hide Callers, Outlives;
    forall other ensures NumbersOk(added, log + [e], other) {
      assert NumbersOk(table, log, other);
      CallersNext(other.line, other.bucket, log, e);
    }
  }

  datatype OutboundCounts = OutboundCounts(second: nat, hour: nat, day: nat, followUps: nat)

  function CountsAt(line: Line, now: int, log: seq<Entry>): OutboundCounts {
    OutboundCounts(Total(At(line, Second, now), log), Total(At(line, Hour, now), log), Total(At(line, Day, now), log),
                   Total(At(line, Day, now).(followUpsOnly := true), log))
  }

  // --- the store ---------------------------------------------------------

  class LimitCounterStore {
    var slots: map<Line, real>
    var seconds: Table
    var hours: Table
    var days: Table
    var followUps: Table
    var inbound: map<BucketKey, Numbers>
    ghost var log: seq<Entry>
    ghost var acquired: map<Line, seq<Pacing.Acquire>>

    ghost predicate Valid()
      reads this
    {
      && TableOk(seconds, Second, false, log) && TableOk(hours, Hour, false, log) && TableOk(days, Day, false, log)
      && TableOk(followUps, Day, true, log) && CallersOk(inbound, log)
      && PacingOk(slots, acquired)
    }

    constructor ()
      ensures Valid() && log == [] && acquired == map[]
    {
      slots, seconds, hours, days, followUps, inbound := map[], map[], map[], map[], map[], map[];
      log, acquired := [], map[];
    }

    // The line's slots go on as Pacing.Slots; no other line is touched.
    method AcquireOutboundSlot(line: Line, now: int, perSecond: int) returns (delay: real)
      requires Valid()
      modifies this`slots, this`acquired
      ensures Valid()
      ensures perSecond <= 0 ==> delay == 0.0 && slots == old(slots) && acquired == old(acquired)
      ensures perSecond > 0 ==>
                && var call := Pacing.Acquire(now as real, Pacing.Interval(perSecond));
                && acquired == old(acquired)[line := (if line in old(acquired) then old(acquired)[line] else []) + [call]]
                && delay == Pacing.LastOf(Pacing.Slots(acquired[line])) - now as real >= 0.0
    {
      if perSecond <= 0 { return 0.0; }
      assert SlotsOk(slots, acquired, line);
      var interval := 1000.0 / perSecond as real;
      var last := if line in slots then slots[line] else 0.0;
      var slot := Pacing.Max(now as real, last + interval);
      ghost var before := if line in acquired then acquired[line] else [];
      ghost var calls := before + [Pacing.Acquire(now as real, interval)];
      assert calls[..|calls| - 1] == before;
      SlotsFollow(slots, acquired, line, slot, calls);
      slots := slots[line := slot];
      acquired := acquired[line := calls];
      delay := Pacing.Max(0.0, slot - now as real);
    }

    method RecordOutbound(line: Line, withinReplyWindow: bool, now: int) returns (counts: OutboundCounts)
      requires Valid()
      modifies this
      ensures Valid() && acquired == old(acquired) && log == old(log) + [Sent(line, now, !withinReplyWindow)]
      ensures counts == CountsAt(line, now, log)
    {
      hide TableOk, CallersOk, Total, PacingOk;
      ghost var e := Sent(line, now, !withinReplyWindow);
      var day := BucketKey(line, BucketOf(Day, now));
      var second, hour, today, followUp;
      seconds, second := BumpBucket(seconds, BucketKey(line, BucketOf(Second, now)), now + 1000, now, Second, false, log, e);
      hours, hour := BumpBucket(hours, BucketKey(line, BucketOf(Hour, now)), now + 3600 * 1000, now, Hour, false, log, e);
      days, today := BumpBucket(days, day, now + 86400 * 1000, now, Day, false, log, e);
      if withinReplyWindow {
        OthersKeep(followUps, Day, true, log, e);
        followUp := PeekBucket(followUps, day, now, Day, true, log + [e]);
      } else {
        followUps, followUp := BumpBucket(followUps, day, now + 86400 * 1000, now, Day, true, log, e);
      }
      SendsKeepCallers(inbound, log, e);
      log := log + [e];
      counts := OutboundCounts(second, hour, today, followUp);
    }

    method RecordInbound(line: Line, phone: Phone, now: int) returns (distinct: nat, first: bool)
      requires Valid()
      modifies this
      ensures Valid() && acquired == old(acquired) && log == old(log) + [Heard(line, phone, now)]
      ensures first <==> phone !in Callers(line, BucketOf(Day, now), old(log))
      ensures distinct == |Callers(line, BucketOf(Day, now), log)|
    {
      hide TableOk, CallersOk, Callers, PacingOk;
      ghost var e := Heard(line, phone, now);
      inbound, distinct, first := AddNumber(inbound, BucketKey(line, BucketOf(Day, now)), phone, now, log);
      OthersKeep(seconds, Second, false, log, e);
      OthersKeep(hours, Hour, false, log, e);
      OthersKeep(days, Day, false, log, e);
      OthersKeep(followUps, Day, true, log, e);
      log := log + [e];
    }

    // At any moment the counters show what the log says of that moment.
    method Snapshot(line: Line, now: int) returns (counts: OutboundCounts, contacts: nat)
      requires Valid()
      ensures counts == CountsAt(line, now, log)
      ensures contacts == |Callers(line, BucketOf(Day, now), log)|
    {
      hide TableOk, Total;
      var day := BucketKey(line, BucketOf(Day, now));
      assert NumbersOk(inbound, log, day);
      contacts := if day in inbound && inbound[day].expiresAt > now then |inbound[day].values| else 0;
      var second := PeekBucket(seconds, BucketKey(line, BucketOf(Second, now)), now, Second, false, log);
      var hour := PeekBucket(hours, BucketKey(line, BucketOf(Hour, now)), now, Hour, false, log);
      var today := PeekBucket(days, day, now, Day, false, log);
      var followUp := PeekBucket(followUps, day, now, Day, true, log);
      counts := OutboundCounts(second, hour, today, followUp);
    }
  }

  lemma SlotsFollow(slots: map<Line, real>, acquired: map<Line, seq<Pacing.Acquire>>, line: Line, slot: real,
                    calls: seq<Pacing.Acquire>)
    requires PacingOk(slots, acquired) && calls != [] && slot == Pacing.LastOf(Pacing.Slots(calls))
    ensures PacingOk(slots[line := slot], acquired[line := calls])
  {
    var slots', acquired' := slots[line := slot], acquired[line := calls];
    forall other ensures SlotsOk(slots', acquired', other) {
      assert SlotsOk(slots, acquired, other);
    }
  }

  // --- the tracker -------------------------------------------------------

  // When a conversation last heard from its contact.
  datatype LastInbound = Never | Unreadable | LastAt(at: int)

  // A send is a follow-up when no message came in within the window before it.
  predicate WithinWindow(last: LastInbound, sentAt: int, windowHours: int) {
    match last
    case Never => false
    case _ => windowHours <= 0 || (last.LastAt? && 0 <= sentAt - last.at <= windowHours * 3600 * 1000)
  }

  // Nobody wrote in the last windowHours hours, up to and with the moment of the
  // send; without a window, nobody ever wrote.
  predicate FollowsUp(last: LastInbound, sentAt: int, windowHours: int) {
    if windowHours > 0 then !(last.LastAt? && last.at <= sentAt <= last.at + windowHours * Length(Hour))
    else last == Never
  }

  lemma FollowUpExactlyWhen(last: LastInbound, sentAt: int, windowHours: int)
    ensures !WithinWindow(last, sentAt, windowHours) <==> FollowsUp(last, sentAt, windowHours)
  {
    assert windowHours * 3600 * 1000 == windowHours * 3600000;
  }

  // The window is closed: its last millisecond is in, the next one is not, and
  // neither is a message that is yet to come or whose time cannot be read.
  lemma WindowEdges(at: int, windowHours: int)
    requires windowHours > 0
    ensures WithinWindow(LastAt(at), at, windowHours) && WithinWindow(LastAt(at), at + windowHours * Length(Hour), windowHours)
    ensures !WithinWindow(LastAt(at), at + windowHours * Length(Hour) + 1, windowHours)
    ensures !WithinWindow(LastAt(at), at - 1, windowHours) && !WithinWindow(Unreadable, at, windowHours)
    ensures WithinWindow(Unreadable, at, 0) && !WithinWindow(Never, at, 0)
  {
    assert windowHours * 3600 * 1000 == windowHours * 3600000;
  }

  class LimitTracker {
    const limits: Limits
    const windowHours: int
    const store: LimitCounterStore
    var crossings: seq<Crossing>

    // Everything announced so far is what the log calls for.
    ghost predicate Valid()
      reads this, store
    {
      store.Valid() && crossings == Crossings(limits, store.log)
    }

    constructor (limits: Limits, windowHours: int, store: LimitCounterStore)
      requires store.Valid() && store.log == []
      ensures Valid() && this.limits == limits && this.windowHours == windowHours && this.store == store
    {
      this.limits, this.windowHours, this.store := limits, windowHours, store;
      crossings := [];
    }

    // Announce the thresholds a gauge has just reached.
    method Check(g: Gauge, line: Line, at: int, reading: int, ghost e: Entry)
      requires store.Valid() && store.log != [] && e == store.log[|store.log| - 1] && e.line == line && e.at == at
      requires Moves(g, store.log[..|store.log| - 1], e) && reading == Reading(g, line, BucketOf(PeriodOf(g), at), store.log)
      modifies this`crossings
      ensures crossings == old(crossings) + Alarms(limits, store.log[..|store.log| - 1], e, g)
    {
      hide Moves, Reading, BucketOf, Threshold;
      assert store.log[..|store.log| - 1] + [e] == store.log;
      if reading == Threshold(limits, g, Warn) { crossings := crossings + [Crossing(g, Warn, line, at)]; }
      if reading == Threshold(limits, g, Limit) { crossings := crossings + [Crossing(g, Limit, line, at)]; }
    }

    method RecordOutbound(line: Line, last: LastInbound, sentAt: int)
      requires Valid()
      modifies this, store
      ensures Valid() && store.log == old(store.log) + [Sent(line, sentAt, FollowsUp(last, sentAt, windowHours))]
    {
      hide Alarms, Crossings, Total, Callers, BucketOf, WithinWindow, FollowsUp, TableOk, CallersOk, PacingOk;
      FollowUpExactlyWhen(last, sentAt, windowHours);
      var withinReplyWindow := WithinWindow(last, sentAt, windowHours);
      ghost var before, e := store.log, Sent(line, sentAt, !withinReplyWindow);
      var counts := store.RecordOutbound(line, withinReplyWindow, sentAt);
      assert store.log[..|store.log| - 1] == before;
      CrossingsNext(limits, before, e);
      Check(OutboundHour, line, sentAt, counts.hour, e);
      Check(OutboundDay, line, sentAt, counts.day, e);
      if !withinReplyWindow { Check(FollowUp, line, sentAt, counts.followUps, e); }
      StillGauges(limits, before, e);
    }

    method RecordInbound(line: Line, phone: Phone, receivedAt: int)
      requires Valid()
      modifies this, store
      ensures Valid() && store.log == old(store.log) + [Heard(line, phone, receivedAt)]
    {
      hide Alarms, Crossings, Total, Callers, BucketOf, TableOk, CallersOk, PacingOk;
      ghost var before, e := store.log, Heard(line, phone, receivedAt);
      var distinct, first := store.RecordInbound(line, phone, receivedAt);
      assert store.log[..|store.log| - 1] == before;
      CrossingsNext(limits, before, e);
      if first { Check(InboundDistinct, line, receivedAt, distinct, e); }
      StillGauges(limits, before, e);
    }
  }

  lemma StillGauges(cfg: Limits, log: seq<Entry>, e: Entry)
    ensures forall g {:trigger Alarms(cfg, log, e, g)} :: !Moves(g, log, e) ==> Alarms(cfg, log, e, g) == []
  {
  }

  lemma CrossingsNext(cfg: Limits, log: seq<Entry>, e: Entry)
    ensures Crossings(cfg, log + [e]) == Crossings(cfg, log) + Announced(cfg, log, e)
  {
    assert (log + [e])[..|log|] == log;
  }
}
