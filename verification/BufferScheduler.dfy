// InMemoryBufferScheduler of src/conversation/scheduler.ts: one debounced timer
// per conversation, and the ledger of its bufferJobsTotal counter.
module BufferScheduler {
  import opened Wrappers

  type Key = string
  type TraceId = string

  // What the scheduler was asked for, newest last.
  datatype Request = Request(key: Key, trace: Option<TraceId>)

  // The trace id a conversation was last scheduled with.
  function LastTrace(requests: seq<Request>, key: Key): Option<TraceId> {
    if requests == [] then None
    else if requests[|requests| - 1].key == key then requests[|requests| - 1].trace
    else LastTrace(requests[..|requests| - 1], key)
  }

  lemma LastTraceNext(requests: seq<Request>, r: Request, key: Key)
    ensures LastTrace(requests + [r], key) == if r.key == key then r.trace else LastTrace(requests, key)
  {
    assert (requests + [r])[..|requests|] == requests;
  }

  function Known(pending: map<Key, TraceId>, key: Key): Option<TraceId> {
    if key in pending then Some(pending[key]) else None
  }

  ghost predicate TracesOk(timers: set<Key>, pending: map<Key, TraceId>, requests: seq<Request>) {
    forall key :: key in timers ==> Known(pending, key) == LastTrace(requests, key)
  }

  // A request for one conversation leaves the others' trace ids right.
  lemma TracesNext(timers: set<Key>, pending: map<Key, TraceId>, requests: seq<Request>, r: Request,
                   timers': set<Key>, pending': map<Key, TraceId>)
    requires TracesOk(timers, pending, requests) && timers' <= timers + {r.key}
    requires r.key in timers' ==> Known(pending', r.key) == r.trace
    requires pending' - {r.key} == pending - {r.key}
    ensures TracesOk(timers', pending', requests + [r])
  {
    forall key | key in timers' ensures Known(pending', key) == LastTrace(requests + [r], key) {
      LastTraceNext(requests, r, key);
      if key != r.key {
        assert Known(pending', key) == Known(pending' - {r.key}, key) == Known(pending - {r.key}, key);
      }
    }
  }

  // An empty trace id is none.
  function Usable(trace: Option<TraceId>): Option<TraceId> {
    if trace == Some("") then None else trace
  }

  class InMemoryBufferScheduler {
    var timers: set<Key>
    var pendingTraceIds: map<Key, TraceId>
    var handlerSet: bool
    var scheduled: nat
    var fired: nat
    var cancelled: nat
    ghost var closed: nat                 // timers a close has dropped
    ghost var requests: seq<Request>
    ghost var calls: seq<Request>         // the handler's calls

    // Every job that was scheduled has fired, was cancelled, was dropped by a
    // close, or is still pending; a pending one carries the trace id it was last
    // scheduled with.
    ghost predicate Valid()
      reads this
    {
      && scheduled == fired + cancelled + closed + |timers|
      && fired == |calls| && scheduled == |requests|
      && pendingTraceIds.Keys <= timers && TracesOk(timers, pendingTraceIds, requests)
    }

    constructor ()
      ensures Valid() && timers == {} && calls == [] && requests == [] && !handlerSet
    {
      timers, pendingTraceIds, handlerSet := {}, map[], false;
      scheduled, fired, cancelled := 0, 0, 0;
      closed, requests, calls := 0, [], [];
    }

    method SetHandler()
      requires Valid()
      modifies this`handlerSet
      ensures Valid() && handlerSet
    {
      handlerSet := true;
    }

    // A positive delay leaves one timer for the conversation, whatever it had
    // before; any other delay calls the handler at once.
    method Schedule(key: Key, delayMs: int, trace: Option<TraceId>) returns (ok: bool)
      requires Valid()
      modifies this
      ensures Valid() && handlerSet == old(handlerSet) && ok == handlerSet && closed == old(closed)
      ensures timers == if ok && delayMs > 0 then old(timers) + {key} else old(timers) - {key}
      ensures var kept := if trace.Some? && |trace.value| > 0 then trace else None;
              && requests == (if ok then old(requests) + [Request(key, kept)] else old(requests))
              && calls == (if ok && delayMs <= 0 then old(calls) + [Request(key, kept)] else old(calls))
    {
      hide LastTrace, TracesOk;
      Cancel(key);
      if !handlerSet { return false; }
      if delayMs <= 0 {
        RunNow(key, Usable(trace));
      } else {
        Arm(key, Usable(trace));
      }
      return true;
    }

    method RunNow(key: Key, trace: Option<TraceId>)
      requires Valid() && key !in timers
      modifies this`scheduled, this`fired, this`requests, this`calls
      ensures Valid() && requests == old(requests) + [Request(key, trace)] && calls == old(calls) + [Request(key, trace)]
    {
      TracesNext(timers, pendingTraceIds, requests, Request(key, trace), timers, pendingTraceIds);
      scheduled, fired := scheduled + 1, fired + 1;
      requests, calls := requests + [Request(key, trace)], calls + [Request(key, trace)];
    }

    method Arm(key: Key, trace: Option<TraceId>)
      requires Valid() && key !in timers
      modifies this`timers, this`pendingTraceIds, this`scheduled, this`requests
      ensures Valid() && timers == old(timers) + {key} && requests == old(requests) + [Request(key, trace)]
    {
      hide LastTrace, TracesOk;
      ghost var pending := pendingTraceIds;
      if trace.Some? { pendingTraceIds := pendingTraceIds[key := trace.value]; }
      assert pendingTraceIds - {key} == pending - {key};
      TracesNext(timers, pending, requests, Request(key, trace), timers + {key}, pendingTraceIds);
      timers := timers + {key};
      scheduled := scheduled + 1;
      requests := requests + [Request(key, trace)];
    }

    // The timer comes due: the handler is called once, for the last request.
    method Fire(key: Key)
      requires Valid() && key in timers
      modifies this
      ensures Valid() && timers == old(timers) - {key} && handlerSet == old(handlerSet)
      ensures requests == old(requests) && calls == old(calls) + [Request(key, LastTrace(requests, key))]
    {
      calls := calls + [Request(key, Known(pendingTraceIds, key))];
      timers := timers - {key};
      pendingTraceIds := pendingTraceIds - {key};
      fired := fired + 1;
    }

    method Cancel(key: Key)
      requires Valid()
      modifies this`timers, this`pendingTraceIds, this`cancelled
      ensures Valid() && timers == old(timers) - {key} && key !in pendingTraceIds
      ensures cancelled == old(cancelled) + if key in old(timers) then 1 else 0
    {
      if key in timers { cancelled := cancelled + 1; }
      timers := timers - {key};
      pendingTraceIds := pendingTraceIds - {key};
    }

    method Close()
      requires Valid()
      modifies this
      ensures Valid() && timers == {} && calls == old(calls) && requests == old(requests)
    {
      closed := closed + |timers|;
      timers, pendingTraceIds := {}, map[];
    }
  }
}
