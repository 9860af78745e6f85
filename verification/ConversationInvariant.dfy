// What every step of the agent keeps.  InOrder says it of every conversation
// but the one a step is working on; that one is Quiet meanwhile: no timer, no
// pending call and no handle belongs to it.
module ConversationInvariant {
  import opened Wrappers
  import opened StatusTracker
  import opened ErrorClass
  import opened ConversationTypes
  import opened History
  import opened ConversationModel

  // --- turns -------------------------------------------------------------

  // Every chat request of a turn properly extends the ones before it.
  ghost predicate Growing(requests: seq<seq<Inbound>>) {
    forall i, j :: 0 <= i < j < |requests| ==> requests[i] < requests[j]
  }

  function Last<T>(s: seq<T>): T
    requires s != []
  {
    s[|s| - 1]
  }

  // Every request is for an action of the reply; a reaction is aimed at the
  // message it was pinned to when the reply to this batch was queued.
  ghost predicate AimsAt(log: seq<Outbound>, reply: seq<QueuedAction>, handles: seq<Handle>) {
    forall i :: 0 <= i < |log| && log[i].Sent? ==>
      log[i].position < |reply| && log[i].target == Aim(reply[log[i].position], handles)
  }

  function Aim(a: QueuedAction, handles: seq<Handle>): Option<Handle> {
    if a.kind == Reaction then PinTarget(a, handles).target else None
  }

  ghost predicate Requested(cfg: Config, t: Turn) {
    && t.requests != [] && Growing(t.requests) && |t.requests| <= cfg.maxReprocessAttempts + 1
    && Last(t.requests) != [] && Last(t.requests) <= t.accepted
  }

  // The reply a turn acts on answers all its messages, unless the reprocess
  // budget is spent.
  ghost predicate AnswersAll(cfg: Config, t: Turn) {
    t.requests != [] && (Last(t.requests) == t.accepted || |t.requests| == cfg.maxReprocessAttempts + 1)
  }

  // A turn that is over.
  ghost predicate Closed(cfg: Config, t: Turn) {
    && Requested(cfg, t) && Cursor(t.log) == Some(|t.reply|)
    && match t.outcome
       case Waiting => false
       case ChatFailed => t.reply == [] && t.log == []
       case Answered => AnswersAll(cfg, t) && AimsAt(t.log, t.reply, Handles(Last(t.requests)))
  }

  ghost predicate NoQueue(r: Record) {
    r.queue == [] && r.index == 0 && r.handle == None
  }

  ghost predicate IdleTurn(cfg: Config, r: Record, h: History) {
    && NoQueue(r) && r.inboundBuffer == [] && r.lateArrivals == [] && r.reprocessCount == 0
    && (h.turn == NoTurn || Closed(cfg, h.turn))
  }

  // No queue yet and no outcome.
  ghost predicate Collecting(r: Record, t: Turn) {
    && NoQueue(r) && r.inboundBuffer != []
    && t.accepted == r.inboundBuffer + r.lateArrivals
    && r.lastInboundHandles == Handles(t.accepted)
    && t.outcome == Waiting && t.reply == [] && t.log == []
  }

  ghost predicate BufferingTurn(cfg: Config, r: Record, t: Turn) {
    && Collecting(r, t) && r.lateArrivals == []
    && |t.requests| == r.reprocessCount <= cfg.maxReprocessAttempts
    && Growing(t.requests) && (t.requests != [] ==> Last(t.requests) < t.accepted)
  }

  ghost predicate ProcessingTurn(cfg: Config, r: Record, t: Turn) {
    && Collecting(r, t) && Requested(cfg, t)
    && |t.requests| == r.reprocessCount + 1
    && Last(t.requests) == r.inboundBuffer
  }

  // The queue is the reply, action by action and in order, with reactions
  // pinned to the batch.
  ghost predicate QueueOk(r: Record, stamp: int, reply: seq<QueuedAction>) {
    && |r.queue| == |reply|
    && forall i :: 0 <= i < |r.queue| ==>
         && r.queue[i].id == ItemId(stamp, i)
         && r.queue[i].action.kind != Silence
         && r.queue[i].action == PinTarget(reply[i], r.lastInboundHandles)
  }

  ghost predicate SendingTurn(cfg: Config, r: Record, h: History) {
    && r.state == Sending
    && r.inboundBuffer == [] && r.lateArrivals == [] && r.reprocessCount == 0
    && r.index <= |r.queue| && QueueOk(r, h.stamp, h.turn.reply)
    && Requested(cfg, h.turn) && h.turn.outcome == Answered && AnswersAll(cfg, h.turn)
    && r.lastInboundHandles == Handles(Last(h.turn.requests))
    && |h.turn.reply| == |r.queue| && Cursor(h.turn.log) == Some(r.index)
    && AimsAt(h.turn.log, h.turn.reply, r.lastInboundHandles)
  }

  ghost predicate TurnOk(cfg: Config, r: Record, h: History) {
    && (forall i :: 0 <= i < |h.past| ==> Closed(cfg, h.past[i]))
    && match r.state
       case Idle => IdleTurn(cfg, r, h)
       case Buffering => BufferingTurn(cfg, r, h.turn)
       case Processing => ProcessingTurn(cfg, r, h.turn)
       case Sending => SendingTurn(cfg, r, h) && r.index < |r.queue|
  }

  // --- tables ------------------------------------------------------------

  // A stored mapping names the conversation that waits for that handle, and
  // the position it waits at.
  ghost predicate Aligned(w: World, h: Handle) {
    && h in w.mapping
    && var s := w.mapping[h];
    && s.key in w.records && w.records[s.key].state == Sending
    && w.records[s.key].handle == Some(h) && w.records[s.key].index == s.position
    && h in w.delivery && w.delivery[h] == s.key && h in w.issued
  }

  // A delivery timeout belongs to a stored mapping.
  ghost predicate DeliveryOk(w: World, h: Handle) {
    h in w.delivery && h in w.mapping && w.mapping[h].key == w.delivery[h]
  }

  // The record waits for the retry described by e.
  ghost predicate Awaits(r: Record, e: Expected) {
    Matches(r, e) && r.handle == None
  }

  ghost predicate RetryOk(w: World, k: Key) {
    k in w.retry && k in w.records && Awaits(w.records[k], w.retry[k])
  }

  ghost predicate StallOk(w: World, l: Line) {
    && l in w.stalls
    && var s := w.stalls[l];
    && s.key.line == l && s.key in w.records && Awaits(w.records[s.key], s.expected) && s.key !in w.retry
  }

  ghost predicate ConversationOk(cfg: Config, w: World, k: Key) {
    && k in w.records
    && var r := w.records[k];
    && TurnOk(cfg, r, HistoryOf(w, k))
    && (r.state == Buffering <==> k in w.buffer)
    && (r.state == Processing <==> k in w.chats)
    && (k in w.chats ==> w.chats[k].handle == None)
    && (r.state == Sending && r.handle.Some? ==> r.handle.value in w.mapping && w.mapping[r.handle.value].key == k)
  }

  ghost predicate Known(cfg: Config, w: World) {
    && w.buffer <= w.records.Keys && w.chats.Keys <= w.records.Keys && w.history.Keys <= w.records.Keys
    && w.mapping.Keys <= w.issued && (w.stalls.Keys != {} ==> cfg.stallScheduler)
  }

  ghost predicate Deliveries(w: World) {
    forall h {:trigger DeliveryOk(w, h)} :: h in w.delivery ==> DeliveryOk(w, h)
  }

  ghost predicate InOrder(cfg: Config, w: World, busy: Option<Key>) {
    && Known(cfg, w)
    && (forall k {:trigger ConversationOk(cfg, w, k)} :: k in w.records && busy != Some(k) ==> ConversationOk(cfg, w, k))
    && (forall h {:trigger Aligned(w, h)} :: h in w.mapping && busy != Some(w.mapping[h].key) ==> Aligned(w, h))
    && Deliveries(w)
    && (forall k {:trigger RetryOk(w, k)} :: k in w.retry && busy != Some(k) ==> RetryOk(w, k))
    && (forall l {:trigger StallOk(w, l)} :: l in w.stalls && busy != Some(w.stalls[l].key) ==> StallOk(w, l))
  }

  // No timer, call or handle of this conversation is left.
  ghost predicate Quiet(w: World, k: Key) {
    && k in w.records
    && k !in w.buffer && k !in w.chats && k !in w.retry
    && (forall h :: h in w.mapping ==> w.mapping[h].key != k)
    && (forall l :: l in w.stalls ==> w.stalls[l].key != k)
  }

  ghost predicate Inv(cfg: Config, w: World) {
    InOrder(cfg, w, None)
  }

  // Sendblue never returns a handle twice.
  ghost predicate Fresh(w: World, results: Results) {
    forall p: nat :: results(p).Returned? && results(p).handle.Some? ==> results(p).handle.value !in w.issued
  }

  ghost predicate TurnsClosed(cfg: Config, h: History) {
    forall i :: 0 <= i < |h.past| ==> Closed(cfg, h.past[i])
  }

  // Between two operations of a step on conversation k.
  ghost predicate Busy(cfg: Config, w: World, k: Key) {
    InOrder(cfg, w, Some(k)) && Quiet(w, k)
  }

  // The conversation a step is sending for.
  ghost predicate Ready(cfg: Config, w: World, k: Key, r: Record) {
    && Busy(cfg, w, k)
    && TurnsClosed(cfg, HistoryOf(w, k))
    && SendingTurn(cfg, r, HistoryOf(w, k))
  }

  // --- what a step on one conversation leaves alone ----------------------

  ghost predicate Same<K, V>(m: map<K, V>, m': map<K, V>, k: K) {
    (k in m <==> k in m') && (k in m ==> m[k] == m'[k])
  }

  ghost predicate SameConversation(w: World, w': World, o: Key) {
    && Same(w.records, w'.records, o) && Same(w.history, w'.history, o) && Same(w.chats, w'.chats, o)
    && Same(w.retry, w'.retry, o) && (o in w.buffer <==> o in w'.buffer)
  }

  ghost predicate SameHandle(w: World, w': World, h: Handle, k: Key) {
    && (h in w.mapping && w.mapping[h].key != k ==> h in w'.mapping && w'.mapping[h] == w.mapping[h])
    && (h in w'.mapping && w'.mapping[h].key != k ==> h in w.mapping && w'.mapping[h] == w.mapping[h])
    && (h in w.delivery && w.delivery[h] != k ==> h in w'.delivery && w'.delivery[h] == w.delivery[h])
  }

  // Stall timers of this conversation's line may be gone; no other one is new.
  ghost predicate SameLine(w: World, w': World, l: Line, k: Key) {
    && (l in w'.stalls && w'.stalls[l].key != k ==> l in w.stalls && w'.stalls[l] == w.stalls[l])
    && (l != k.line ==> Same(w.stalls, w'.stalls, l) && Same(w.stallCount, w'.stallCount, l))
  }

  // The two worlds differ only in what belongs to conversation k, and in its
  // line's stall timer when that is gone.
  ghost predicate Agree(w: World, w': World, k: Key) {
    && (forall o {:trigger SameConversation(w, w', o)} :: o != k ==> SameConversation(w, w', o))
    && (forall h {:trigger SameHandle(w, w', h, k)} :: SameHandle(w, w', h, k))
    && (forall l {:trigger SameLine(w, w', l, k)} :: SameLine(w, w', l, k))
    && w.issued <= w'.issued
  }

  lemma Frame(cfg: Config, w: World, w': World, k: Key)
    requires InOrder(cfg, w, Some(k)) && Agree(w, w', k) && Known(cfg, w') && Deliveries(w')
    ensures InOrder(cfg, w', Some(k))
  {
    hide TurnOk, Matches, Deliveries;
    forall o | o in w'.records && o != k ensures ConversationOk(cfg, w', o) {
      assert SameConversation(w, w', o) && ConversationOk(cfg, w, o);
      if w.records[o].handle.Some? { assert SameHandle(w, w', w.records[o].handle.value, k); }
    }
    forall h | h in w'.mapping && w'.mapping[h].key != k ensures Aligned(w', h) {
      assert SameHandle(w, w', h, k) && Aligned(w, h) && SameConversation(w, w', w.mapping[h].key);
    }
    forall o | o in w'.retry && o != k ensures RetryOk(w', o) {
      assert SameConversation(w, w', o) && RetryOk(w, o);
    }
    forall l | l in w'.stalls && w'.stalls[l].key != k ensures StallOk(w', l) {
      assert SameLine(w, w', l, k) && StallOk(w, l) && SameConversation(w, w', w.stalls[l].key);
    }
  }

  // --- operations that keep a conversation busy --------------------------

  lemma PersistKeepsBusy(cfg: Config, w: World, k: Key, r: Record)
    requires Busy(cfg, w, k)
    ensures Busy(cfg, Persist(w, k, r), k)
  {
    hide TurnOk, Matches, ConversationOk, Aligned, RetryOk, StallOk;
    var w' := Persist(w, k, r);
    forall h | h in w'.delivery ensures DeliveryOk(w', h) { assert DeliveryOk(w, h); }
    Frame(cfg, w, w', k);
  }

  lemma RememberKeepsBusy(cfg: Config, w: World, k: Key, h: History)
    requires Busy(cfg, w, k)
    ensures Busy(cfg, Remember(w, k, h), k)
  {
    hide TurnOk, Matches, ConversationOk, Aligned, RetryOk, StallOk;
    var w' := Remember(w, k, h);
    forall h | h in w'.delivery ensures DeliveryOk(w', h) { assert DeliveryOk(w, h); }
    Frame(cfg, w, w', k);
  }

  lemma ClearStallKeepsBusy(cfg: Config, w: World, k: Key)
    requires Busy(cfg, w, k)
    ensures Busy(cfg, ClearStall(cfg, w, k.line), k)
  {
    hide TurnOk, Matches, ConversationOk, Aligned, RetryOk, StallOk;
    var w' := ClearStall(cfg, w, k.line);
    forall h | h in w'.delivery ensures DeliveryOk(w', h) { assert DeliveryOk(w, h); }
    Frame(cfg, w, w', k);
  }

  lemma RefuseStallKeepsBusy(cfg: Config, w: World, k: Key)
    requires Busy(cfg, w, k)
    ensures Busy(cfg, RefuseStall(cfg, w, k.line), k)
  {
    hide TurnOk, Matches, ConversationOk, Aligned, RetryOk, StallOk;
    var w' := RefuseStall(cfg, w, k.line);
    forall h | h in w'.delivery ensures DeliveryOk(w', h) { assert DeliveryOk(w, h); }
    Frame(cfg, w, w', k);
  }

  // --- operations that hand the conversation over to what wakes it -------

  lemma Settle(cfg: Config, w: World, k: Key)
    requires InOrder(cfg, w, Some(k)) && ConversationOk(cfg, w, k)
    requires forall h :: h in w.mapping && w.mapping[h].key == k ==> Aligned(w, h)
    requires k in w.retry ==> RetryOk(w, k)
    requires forall l :: l in w.stalls && w.stalls[l].key == k ==> StallOk(w, l)
    ensures Inv(cfg, w)
  {
    hide ConversationOk, Aligned, RetryOk, StallOk, DeliveryOk, Known;
  }

  lemma IdleRestores(cfg: Config, w: World, k: Key)
    requires Busy(cfg, w, k) && w.records[k].state == Idle
    requires TurnOk(cfg, w.records[k], HistoryOf(w, k))
    ensures Inv(cfg, w)
  {
    hide TurnOk, Matches;
    Settle(cfg, w, k);
  }

  lemma AwaitAgrees(w: World, k: Key, r: Record, h: Handle)
    requires r.index < |r.queue| && h !in w.mapping && h !in w.delivery
    ensures Agree(w, AwaitStatus(w, k, r, h), k)
  {
  }

  lemma AwaitRestores(cfg: Config, w: World, k: Key, r: Record, h: Handle)
    requires Busy(cfg, w, k) && r.index < |r.queue| && r.state == Sending && h !in w.issued
    requires TurnOk(cfg, SentRecord(r, Some(h)), HistoryOf(w, k))
    ensures Inv(cfg, AwaitStatus(w, k, r, h))
  {
    hide TurnOk, Matches, Agree;
    var w' := AwaitStatus(w, k, r, h);
    assert h !in w.mapping && (h in w.delivery ==> DeliveryOk(w, h));
    AwaitAgrees(w, k, r, h);
    forall h' | h' in w'.delivery ensures DeliveryOk(w', h') {
      if h' != h { assert DeliveryOk(w, h'); }
    }
    Frame(cfg, w, w', k);
    Settle(cfg, w', k);
  }

  lemma RetryAgrees(w: World, k: Key, r: Record, attempts: nat)
    requires r.index < |r.queue|
    ensures Agree(w, ArmRetry(w, k, r, attempts), k)
  {
  }

  lemma RetryRestores(cfg: Config, w: World, k: Key, r: Record, attempts: nat)
    requires Busy(cfg, w, k) && r.index < |r.queue| && r.state == Sending
    requires TurnOk(cfg, RetryRecord(r, attempts), HistoryOf(w, k))
    ensures Inv(cfg, ArmRetry(w, k, r, attempts))
  {
    hide TurnOk, Agree;
    var w' := ArmRetry(w, k, r, attempts);
    RetryAgrees(w, k, r, attempts);
    forall h | h in w'.delivery ensures DeliveryOk(w', h) { assert DeliveryOk(w, h); }
    Frame(cfg, w, w', k);
    Settle(cfg, w', k);
  }

  lemma StallRestores(cfg: Config, w: World, k: Key)
    requires Busy(cfg, w, k) && w.records[k].index < |w.records[k].queue|
    requires w.records[k].state == Sending && w.records[k].handle == None
    requires TurnOk(cfg, w.records[k], HistoryOf(w, k)) && cfg.stallScheduler
    ensures Inv(cfg, ArmStall(w, k, Current(w.records[k])))
  {
    hide TurnOk;
    var w' := ArmStall(w, k, Current(w.records[k]));
    forall h | h in w'.delivery ensures DeliveryOk(w', h) { assert DeliveryOk(w, h); }
    Frame(cfg, w, w', k);
    Settle(cfg, w', k);
  }

  // --- sending -----------------------------------------------------------

  lemma SkipKeepsTurn(cfg: Config, r: Record, h: History)
    requires SendingTurn(cfg, r, h) && r.index < |r.queue|
    ensures SendingTurn(cfg, SkipRecord(r), Log(h, Ended(r.index, Skipped)))
  {
    hide Growing, AimsAt, QueueOk, Cursor;
    var e := Ended(r.index, Skipped);
    ItemUpdateKeepsTurn(cfg, r, Current(r).(skipped := true), None, h);
    CursorAfter(h.turn.log, e);
    EndKeepsAims(h.turn.log, h.turn.reply, r.lastInboundHandles, e);
    QueueReads(WithCurrent(r, Current(r).(skipped := true)).(handle := None), SkipRecord(r), h.stamp, h.turn.reply);
  }

  lemma EndKeepsAims(log: seq<Outbound>, reply: seq<QueuedAction>, handles: seq<Handle>, e: Outbound)
    requires AimsAt(log, reply, handles) && e.Ended?
    ensures AimsAt(log + [e], reply, handles)
  {
    hide Aim;
  }

  lemma QueueReads(r: Record, r': Record, stamp: int, reply: seq<QueuedAction>)
    requires QueueOk(r, stamp, reply) && r'.queue == r.queue && r'.lastInboundHandles == r.lastInboundHandles
    ensures QueueOk(r', stamp, reply)
  {
    hide PinTarget;
  }

  lemma SkipKeepsReady(cfg: Config, w: World, k: Key, r: Record)
    requires Ready(cfg, w, k, r) && r.index < |r.queue|
    ensures Ready(cfg, Skip(w, k, r), k, SkipRecord(r))
  {
    hide Busy, TurnsClosed, SendingTurn, Log, SkipRecord;
    var h := HistoryOf(w, k);
    var e := Ended(r.index, Skipped);
    PersistKeepsBusy(cfg, w, k, SkipRecord(r));
    RememberKeepsBusy(cfg, Persist(w, k, SkipRecord(r)), k, Log(h, e));
    SkipKeepsTurn(cfg, r, h);
    LogKeepsPast(cfg, h, e);
  }

  lemma AdvanceKeepsReady(cfg: Config, w: World, k: Key, r: Record, ending: Ending)
    requires Ready(cfg, w, k, r) && r.index < |r.queue|
    ensures Ready(cfg, Advance(cfg, w, k, r, ending), k, AdvanceRecord(r))
  {
    hide Busy, Closed;
    var h := HistoryOf(w, k);
    ClearStallKeepsBusy(cfg, w, k);
    var w1 := ClearStall(cfg, w, k.line);
    RememberKeepsBusy(cfg, w1, k, Log(h, Ended(r.index, ending)));
    PersistKeepsBusy(cfg, Remember(w1, k, Log(h, Ended(r.index, ending))), k, AdvanceRecord(r));
    CursorAfter(h.turn.log, Ended(r.index, ending));
  }

  // A queued reaction is handed to the client with the target it was pinned to.
  lemma PinnedIsHanded(r: Record, a: QueuedAction)
    requires r.lastInboundHandles != [] && a.kind == Reaction
    ensures ResolveInboundTarget(r, PinTarget(a, r.lastInboundHandles)) == Aim(a, r.lastInboundHandles)
  {
  }

  lemma AttemptIsAimed(cfg: Config, r: Record, h: History, answer: SendResult)
    requires SendingTurn(cfg, r, h) && r.index < |r.queue|
    ensures r.index < |h.turn.reply| && Attempt(r, answer).target == Aim(h.turn.reply[r.index], r.lastInboundHandles)
  {
    hide ResolveInboundTarget, AimsAt, AnswersAll, Growing, Cursor;
    assert Current(r).action == PinTarget(h.turn.reply[r.index], r.lastInboundHandles);
    if Current(r).action.kind == Reaction { PinnedIsHanded(r, h.turn.reply[r.index]); }
  }

  lemma LogKeepsPast(cfg: Config, h: History, e: Outbound)
    requires TurnsClosed(cfg, h)
    ensures TurnsClosed(cfg, Log(h, e))
  {
  }

  lemma LogKeepsSending(cfg: Config, r: Record, h: History, e: Outbound)
    requires SendingTurn(cfg, r, h) && r.index < |r.queue| && e.Sent? && e == Attempt(r, e.answer)
    ensures SendingTurn(cfg, r, Log(h, e))
  {
    hide QueueOk, ResolveInboundTarget;
    AttemptIsAimed(cfg, r, h, e.answer);
    CursorAfter(h.turn.log, e);
  }

  lemma AttemptKeepsReady(cfg: Config, w: World, k: Key, r: Record, answer: SendResult)
    requires Ready(cfg, w, k, r) && r.index < |r.queue|
    ensures Ready(cfg, Attempted(w, k, r, answer), k, r)
  {
    hide Busy, TurnsClosed, ResolveInboundTarget, SendingTurn, Log;
    var h := HistoryOf(w, k);
    var e := Attempt(r, answer);
    RememberKeepsBusy(cfg, w, k, Log(h, e));
    LogKeepsSending(cfg, r, h, e);
    LogKeepsPast(cfg, h, e);
  }

  lemma ClearAbsent(w: World, h: Handle)
    requires h !in w.mapping && h !in w.delivery
    ensures ClearHandle(w, h) == w
  {
    assert w.mapping - {h} == w.mapping && w.delivery - {h} == w.delivery;
  }

  lemma ToIdleHasLittleToClear(cfg: Config, w: World, k: Key, r: Record)
    requires k !in w.retry
    requires r.handle.Some? ==> r.handle.value !in w.mapping && r.handle.value !in w.delivery
    ensures ToIdle(cfg, w, k, r) == Persist(ClearStall(cfg, w, k.line), k, ToIdleRecord(r))
  {
    assert w.retry - {k} == w.retry;
    if r.handle.Some? { ClearAbsent(ClearStall(cfg, w, k.line), r.handle.value); }
  }

  lemma IdleTurnOk(cfg: Config, r: Record, h: History)
    requires TurnsClosed(cfg, h) && Closed(cfg, h.turn)
    ensures TurnOk(cfg, ToIdleRecord(r), h)
  {
    hide Closed;
  }

  lemma ToIdleRestores(cfg: Config, w: World, k: Key, r: Record)
    requires Busy(cfg, w, k) && (r.handle.Some? ==> r.handle.value !in w.mapping && r.handle.value !in w.delivery)
    requires TurnsClosed(cfg, HistoryOf(w, k)) && Closed(cfg, HistoryOf(w, k).turn)
    ensures Inv(cfg, ToIdle(cfg, w, k, r))
  {
    hide Closed, InOrder, TurnOk, TurnsClosed, ToIdle;
    ToIdleHasLittleToClear(cfg, w, k, r);
    IdleTurnOk(cfg, r, HistoryOf(w, k));
    ClearStallKeepsBusy(cfg, w, k);
    var w2 := ClearStall(cfg, w, k.line);
    PersistKeepsBusy(cfg, w2, k, ToIdleRecord(r));
    IdleRestores(cfg, Persist(w2, k, ToIdleRecord(r)), k);
  }

  // What a send writes on its queue item does not disturb the turn.
  lemma ItemUpdateKeepsTurn(cfg: Config, r: Record, item: Item, handle: Option<Handle>, h: History)
    requires SendingTurn(cfg, r, h) && r.index < |r.queue|
    requires item.id == Current(r).id && item.action == Current(r).action
    ensures SendingTurn(cfg, WithCurrent(r, item).(handle := handle), h)
  {
    hide Requested, AnswersAll, AimsAt;
  }

  lemma SendingTurnOk(cfg: Config, r: Record, h: History)
    requires TurnsClosed(cfg, h) && SendingTurn(cfg, r, h) && r.index < |r.queue|
    ensures TurnOk(cfg, r, h)
  {
    hide Closed;
  }

  lemma ExhaustedTurnClosed(cfg: Config, r: Record, h: History)
    requires SendingTurn(cfg, r, h) && r.index == |r.queue|
    ensures Closed(cfg, h.turn)
  {
    hide QueueOk;
  }

  lemma {:induction false} SendFromRestores(cfg: Config, w: World, k: Key, r: Record, results: Results)
    requires Ready(cfg, w, k, r) && w.records[k] == r && r.handle == None && Fresh(w, results)
    ensures Inv(cfg, SendFrom(cfg, w, k, r, results))
    decreases |r.queue| - r.index
  {
    hide Busy, SendingTurn, TurnOk, TurnsClosed, InOrder, Closed, Unsendable, Skip, Attempted, Advance, ArmStall, ArmRetry, AwaitStatus, RefuseStall;
    SendingSoFar(cfg, w, k, r);
    var h := HistoryOf(w, k);
    if r.index >= |r.queue| {
      ExhaustedTurnClosed(cfg, r, h);
      ToIdleRestores(cfg, w, k, r);
    } else if Unsendable(cfg, k, r, Current(r).action) {
      SkipOn(cfg, w, k, r, results);
    } else {
      var w1 := Attempted(w, k, r, results(r.index));
      AttemptKeepsReady(cfg, w, k, r, results(r.index));
      AttemptChanges(w, k, r, results(r.index));
      match Judge(cfg, Current(r), results(r.index)) {
        case InFlight(h1) =>
          ItemUpdateKeepsTurn(cfg, r, Current(r).(messageHandle := Some(h1)), Some(h1), HistoryOf(w1, k));
          SendingTurnOk(cfg, SentRecord(r, Some(h1)), HistoryOf(w1, k));
          AwaitRestores(cfg, w1, k, r, h1);
        case Fired =>
          var sent := SentRecord(r, None);
          ItemUpdateKeepsTurn(cfg, r, Current(r).(messageHandle := None), None, HistoryOf(w1, k));
          AdvanceKeepsReady(cfg, w1, k, sent, Unconfirmed);
          AdvanceChanges(cfg, w1, k, sent, Unconfirmed);
          SendFromRestores(cfg, Advance(cfg, w1, k, sent, Unconfirmed), k, AdvanceRecord(sent), results);
        case Retry(attempts) =>
          ItemUpdateKeepsTurn(cfg, r, Current(r).(retryCount := attempts, messageHandle := None), None, HistoryOf(w1, k));
          SendingTurnOk(cfg, RetryRecord(r, attempts), HistoryOf(w1, k));
          RetryRestores(cfg, w1, k, r, attempts);
        case TryStall =>
          if CanStall(cfg, w1, k.line) {
            SendingTurnOk(cfg, r, HistoryOf(w1, k));
            StallRestores(cfg, w1, k);
          } else {
            RefuseStallKeepsBusy(cfg, w1, k);
            RefuseChanges(cfg, w1, k);
            SkipOn(cfg, RefuseStall(cfg, w1, k.line), k, r, results);
          }
        case GiveUp => SkipOn(cfg, w1, k, r, results);
      }
    }
  }

  lemma SkipOn(cfg: Config, w: World, k: Key, r: Record, results: Results)
    requires Ready(cfg, w, k, r) && w.records[k] == r && r.index < |r.queue| && Fresh(w, results)
    ensures Inv(cfg, SendFrom(cfg, Skip(w, k, r), k, SkipRecord(r), results))
    decreases |r.queue| - r.index, 0
  {
    hide Busy, SendingTurn, InOrder, SendFrom;
    SkipKeepsReady(cfg, w, k, r);
    SendFromRestores(cfg, Skip(w, k, r), k, SkipRecord(r), results);
  }

  // The parts of the world each operation leaves alone, read off its body.

  lemma SendingSoFar(cfg: Config, w: World, k: Key, r: Record)
    requires Ready(cfg, w, k, r)
    ensures k in w.records && r.state == Sending && r.index <= |r.queue|
  {
  }

  lemma AttemptChanges(w: World, k: Key, r: Record, answer: SendResult)
    requires r.index < |r.queue|
    ensures Attempted(w, k, r, answer).records == w.records && Attempted(w, k, r, answer).issued == w.issued
  {
  }

  lemma AdvanceChanges(cfg: Config, w: World, k: Key, r: Record, ending: Ending)
    ensures Advance(cfg, w, k, r, ending).records == w.records[k := AdvanceRecord(r)]
    ensures Advance(cfg, w, k, r, ending).issued == w.issued
  {
  }

  lemma RefuseChanges(cfg: Config, w: World, k: Key)
    ensures RefuseStall(cfg, w, k.line) == w.(stallCount := RefuseStall(cfg, w, k.line).stallCount)
  {
  }
}
