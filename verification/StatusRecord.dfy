// src/status/tracker.ts: the per-message record of status callbacks.
module StatusRecords {
  import opened Wrappers
  import opened StatusTracker

  // A field that may be missing, null or a truth value.
  datatype Flag = Absent | Null | Flag(value: bool)

  // Details are the error message, detail and reason taken together.
  datatype Update = Update(
    handle: string, status: Status, errorCode: Option<string>, details: Option<string>, downgraded: Flag,
    service: Option<string>)

  datatype Event = Event(update: Update, downgraded: Flag, receivedAt: int)

  datatype StatusRecord = StatusRecord(
    handle: string,
    history: seq<Status>,
    events: seq<Event>,
    terminalStatus: Option<Status>,
    errorCode: Option<string>,
    details: Option<string>,
    errorCategory: Option<ErrorCategory>,
    downgraded: Flag,
    service: Option<string>,
    lastService: Option<string>,
    lastUpdatedAt: Option<int>)

  function CreateStatusRecord(handle: string): StatusRecord {
    StatusRecord(handle, [], [], None, None, None, None, Absent, None, None, None)
  }

  predicate Terminal(s: Status) {
    s == DELIVERED || s == DECLINED || s == ERROR
  }

  predicate Given(s: Option<string>) {
    s.Some? && s.value != ""
  }

  function ApplyStatusUpdate(existing: Option<StatusRecord>, u: Update, now: int): StatusRecord {
    var r := existing.GetOr(CreateStatusRecord(u.handle));
    var failed := u.status == ERROR;
    r.(history :=
         if r.history != [] && r.history[|r.history| - 1] == u.status then r.history else r.history + [u.status],
       events := r.events + [Event(u, if u.downgraded == Absent then Null else u.downgraded, now)],
       terminalStatus := if Terminal(u.status) then Some(u.status) else r.terminalStatus,
       errorCode := if failed then u.errorCode else r.errorCode,
       details := if failed then u.details else r.details,
       errorCategory := if failed then Some(ClassifyErrorCode(u.errorCode)) else r.errorCategory,
       downgraded :=
         if u.downgraded == Flag(true) then Flag(true)
         else if r.downgraded == Absent then u.downgraded
         else r.downgraded,
       service := if Given(u.service) && r.service == None then u.service else r.service,
       lastService := if Given(u.service) then u.service else r.lastService,
       lastUpdatedAt := Some(now))
  }

  // A callback with the time it was received.
  datatype Callback = Callback(update: Update, at: int)

  // The record after a sequence of callbacks for one message.
  function Record(callbacks: seq<Callback>): Option<StatusRecord> {
    if callbacks == [] then None
    else
      var n := |callbacks| - 1;
      Some(ApplyStatusUpdate(Record(callbacks[..n]), callbacks[n].update, callbacks[n].at))
  }

  class InMemoryStatusStore {
    var records: map<string, StatusRecord>
    ghost var received: map<string, seq<Callback>>

    // Each message's record is the fold of the callbacks received for it.
    ghost predicate Valid()
      reads this
    {
      && records.Keys == received.Keys
      && forall h :: h in records ==> Some(records[h]) == Record(received[h])
    }

    constructor ()
      ensures Valid() && received == map[]
    {
      records, received := map[], map[];
    }

    method Apply(update: Update, now: int) returns (next: StatusRecord)
      requires Valid()
      modifies this
      ensures Valid()
      ensures received == old(received)[update.handle :=
                (if update.handle in old(received) then old(received)[update.handle] else []) + [Callback(update, now)]]
      ensures update.handle in records && records[update.handle] == next
    {
      ghost var before := if update.handle in received then received[update.handle] else [];
      ghost var all := before + [Callback(update, now)];
      assert all[..|all| - 1] == before;
      next := ApplyStatusUpdate(if update.handle in records then Some(records[update.handle]) else None, update, now);
      records := records[update.handle := next];
      received := received[update.handle := all];
    }
  }

  // --- what the record says about the callbacks --------------------------

  function Statuses(callbacks: seq<Callback>): seq<Status> {
    seq(|callbacks|, i requires 0 <= i < |callbacks| => callbacks[i].update.status)
  }

  // A sequence with each run of equal statuses cut to its first.
  function Collapse(s: seq<Status>): seq<Status> {
    if |s| <= 1 then s
    else if s[0] == s[1] then Collapse(s[1..])
    else [s[0]] + Collapse(s[1..])
  }

  lemma {:induction false} CollapseNext(s: seq<Status>, e: Status)
    ensures s != [] ==> Collapse(s) != [] && Collapse(s)[|Collapse(s)| - 1] == s[|s| - 1]
    ensures Collapse(s + [e]) == if s != [] && s[|s| - 1] == e then Collapse(s) else Collapse(s) + [e]
  {
    if |s| > 1 {
      CollapseNext(s[1..], e);
      assert (s + [e])[1..] == s[1..] + [e];
    } else if |s| == 1 {
      assert (s + [e])[1..] == [e];
    }
  }

  lemma CollapseNothing()
    ensures Collapse([]) == []
  {
  }

  // What a callback may have to say.
  datatype Mark = IsTerminal | IsFailure | NamesService | SaysDowngrade | Downgrades

  predicate Has(m: Mark, u: Update) {
    match m
    case IsTerminal => u.status in {DELIVERED, DECLINED, ERROR}
    case IsFailure => u.status == ERROR
    case NamesService => u.service.Some? && |u.service.value| > 0
    case SaysDowngrade => u.downgraded != Absent
    case Downgrades => u.downgraded == Flag(true)
  }

  // The callbacks of a range that carry no such mark.
  ghost predicate Without(callbacks: seq<Callback>, m: Mark, from: nat, to: nat)
    requires to <= |callbacks|
  {
    forall j :: from <= j < to ==> !Has(m, callbacks[j].update)
  }

  // Every callback is kept, in order, and the history is their statuses with
  // adjacent repeats cut.
  lemma {:induction false} NothingIsDropped(callbacks: seq<Callback>)
    requires callbacks != []
    ensures var r := Record(callbacks).value;
            && |r.events| == |callbacks|
            && (forall i :: 0 <= i < |callbacks| ==>
                  && r.events[i].update == callbacks[i].update && r.events[i].receivedAt == callbacks[i].at
                  && r.events[i].downgraded == (match callbacks[i].update.downgraded case Absent => Null case d => d))
            && r.history == Collapse(Statuses(callbacks))
            && r.handle == callbacks[0].update.handle && r.lastUpdatedAt == Some(callbacks[|callbacks| - 1].at)
  {
    var n := |callbacks| - 1;
    hide ClassifyErrorCode, Collapse;
    if n > 0 {
      NothingIsDropped(callbacks[..n]);
      assert Statuses(callbacks) == Statuses(callbacks[..n]) + [callbacks[n].update.status];
      CollapseNext(Statuses(callbacks[..n]), callbacks[n].update.status);
    } else {
      assert Statuses(callbacks) == [] + [callbacks[0].update.status];
      CollapseNext([], callbacks[0].update.status);
      assert Collapse([]) == [] by { CollapseNothing(); }
    }
  }

  // What no callback said, the record does not say.
  lemma {:induction false} WhatNobodySaid(callbacks: seq<Callback>, m: Mark)
    requires callbacks != [] && Without(callbacks, m, 0, |callbacks|)
    ensures var r := Record(callbacks).value;
            match m
            case IsTerminal => r.terminalStatus == None
            case IsFailure => r.errorCode == None && r.details == None && r.errorCategory == None
            case NamesService => r.service == None && r.lastService == None
            case SaysDowngrade => r.downgraded == Absent
            case Downgrades => r.downgraded != Flag(true)
  {
    var n := |callbacks| - 1;
    hide ClassifyErrorCode;
    assert !Has(m, callbacks[n].update);
    if n > 0 { WhatNobodySaid(callbacks[..n], m); }
  }

  // The last callback that has a say decides the terminal status, the error and
  // the latest service.
  lemma {:induction false} TheLastSays(callbacks: seq<Callback>, m: Mark, i: nat)
    requires i < |callbacks| && Has(m, callbacks[i].update) && Without(callbacks, m, i + 1, |callbacks|)
    ensures var r, u := Record(callbacks).value, callbacks[i].update;
            match m
            case IsTerminal => r.terminalStatus == Some(u.status)
            case IsFailure =>
              r.errorCode == u.errorCode && r.details == u.details && r.errorCategory == Some(ClassifyErrorCode(u.errorCode))
            case NamesService => r.lastService == u.service
            case _ => true
  {
    var n := |callbacks| - 1;
    hide ClassifyErrorCode;
    if i < n {
      assert !Has(m, callbacks[n].update);
      TheLastSays(callbacks[..n], m, i);
    }
  }

  // The first callback that names a service, or says anything of a downgrade,
  // is heard; only a downgrade itself overrides it.
  lemma {:induction false} TheFirstSays(callbacks: seq<Callback>, m: Mark, i: nat)
    requires i < |callbacks| && Has(m, callbacks[i].update) && Without(callbacks, m, 0, i)
    ensures var r, u := Record(callbacks).value, callbacks[i].update;
            match m
            case NamesService => r.service == u.service
            case SaysDowngrade => r.downgraded != Absent
                                  && (Without(callbacks, Downgrades, 0, |callbacks|) ==> r.downgraded == u.downgraded)
            case _ => true
  {
    var n := |callbacks| - 1;
    hide ClassifyErrorCode;
    if i < n {
      TheFirstSays(callbacks[..n], m, i);
      if Without(callbacks, Downgrades, 0, |callbacks|) { assert !Has(Downgrades, callbacks[n].update); }
    } else if n > 0 {
      WhatNobodySaid(callbacks[..n], m);
      if Without(callbacks, Downgrades, 0, |callbacks|) { assert !Has(Downgrades, callbacks[n].update); }
    }
  }

  // A downgrade, once reported, sticks.
  lemma {:induction false} DowngradeSticks(callbacks: seq<Callback>, i: nat)
    requires i < |callbacks| && Has(Downgrades, callbacks[i].update)
    ensures Record(callbacks).value.downgraded == Flag(true)
  {
    var n := |callbacks| - 1;
    hide ClassifyErrorCode;
    if i < n { DowngradeSticks(callbacks[..n], i); }
  }

  lemma DowngradedExactlyWhen(callbacks: seq<Callback>)
    requires callbacks != []
    ensures Record(callbacks).value.downgraded == Flag(true) <==>
            exists i :: 0 <= i < |callbacks| && Has(Downgrades, callbacks[i].update)
  {
    hide Record, Has;
    if i :| 0 <= i < |callbacks| && Has(Downgrades, callbacks[i].update) {
      DowngradeSticks(callbacks, i);
    } else {
      WhatNobodySaid(callbacks, Downgrades);
    }
  }

  // A callback delivered again changes nothing but the event log and its time.
  lemma RepeatsAreNoise(existing: Option<StatusRecord>, u: Update, now: int, later: int)
    ensures var once := ApplyStatusUpdate(existing, u, now);
            var twice := ApplyStatusUpdate(Some(once), u, later);
            twice == once.(events := once.events + [once.events[|once.events| - 1].(receivedAt := later)],
                           lastUpdatedAt := Some(later))
  {
  }
}
