// What every run says about turns: delivery order, the account of inbound
// messages, the meaning of a callback, and where reactions are aimed.
module ConversationTurns {
  import opened Wrappers
  import opened StatusTracker
  import opened ErrorClass
  import opened ConversationTypes
  import opened History
  import opened ConversationModel
  import opened ConversationInvariant
  import opened ConversationSteps
  import opened ConversationEffects
  import opened ConversationRuns

  // --- order of delivery -------------------------------------------------

  // Positions 0 to n - 1 each ended once, in order, and nothing was sent for a
  // position before all earlier ones had ended, or after it had ended itself.
  ghost predicate DeliveredInOrder(log: seq<Outbound>, n: nat) {
    && (forall i, j :: 0 <= i < j < |log| ==> log[i].position <= log[j].position)
    && (forall i, j :: 0 <= i < j < |log| && log[i].Ended? ==> log[i].position < log[j].position)
    && (forall p: nat {:trigger EndedBefore(log, p, |log|)} :: p < n ==> EndedBefore(log, p, |log|))
    && (forall j: nat, p: nat {:trigger EndedBefore(log, p, j)} ::
          j < |log| && log[j].Sent? && p < log[j].position ==> EndedBefore(log, p, j))
  }

  ghost predicate EndedBefore(log: seq<Outbound>, p: nat, j: nat) {
    exists at: nat :: at < j && EndsOnceAt(log, p, at)
  }

  lemma CursorMeansOrder(log: seq<Outbound>, n: nat)
    requires Cursor(log) == Some(n)
    ensures DeliveredInOrder(log, n)
  {
    forall i, j | 0 <= i < j < |log|
      ensures log[i].position <= log[j].position
      ensures log[i].Ended? ==> log[i].position < log[j].position
    {
      LogIsOrdered(log, i, j);
    }
    forall p: nat | p < n ensures EndedBefore(log, p, |log|) { var at := EndedOnce(log, p); }
    forall j: nat, p: nat | j < |log| && log[j].Sent? && p < log[j].position ensures EndedBefore(log, p, j) {
      var at := SentAfterEarlierEnded(log, j, p);
    }
  }

  // --- the account of inbound messages -----------------------------------

  // Each chat request carried the first messages of the turn, in arrival order,
  // every request more than the one before; the reply acted on answers them all
  // unless the reprocess budget was spent or the call failed.
  ghost predicate Accounted(cfg: Config, t: Turn) {
    && 0 < |t.requests| <= cfg.maxReprocessAttempts + 1
    && (forall i :: 0 <= i < |t.requests| ==> t.requests[i] <= t.accepted)
    && (forall i, j :: 0 <= i < j < |t.requests| ==> t.requests[i] < t.requests[j])
    && (Last(t.requests) != t.accepted ==> t.outcome == ChatFailed || |t.requests| == cfg.maxReprocessAttempts + 1)
    && t.outcome != Waiting
  }

  lemma ClosedIsAccounted(cfg: Config, t: Turn)
    requires Closed(cfg, t)
    ensures Accounted(cfg, t) && DeliveredInOrder(t.log, |t.reply|)
  {
    CursorMeansOrder(t.log, |t.reply|);
    forall i | 0 <= i < |t.requests| ensures t.requests[i] <= t.accepted {
      assert i < |t.requests| - 1 ==> t.requests[i] < Last(t.requests);
    }
  }

  // Every turn that is over, in every run.
  lemma TurnsOfEveryRun(cfg: Config, es: seq<Event>, k: Key, i: nat)
    requires AllowedRun(cfg, Empty, es) && k in Run(cfg, Empty, es).records
    requires i < |HistoryOf(Run(cfg, Empty, es), k).past|
    ensures var t := HistoryOf(Run(cfg, Empty, es), k).past[i];
            Accounted(cfg, t) && DeliveredInOrder(t.log, |t.reply|)
  {
    hide Inv, TurnOk, Closed, Accounted, DeliveredInOrder;
    var w := Run(cfg, Empty, es);
    EmptyInv(cfg);
    RunKeeps(cfg, Empty, es);
    Own(cfg, w, k);
    ConversationFacts(cfg, w, k);
    TurnsOver(cfg, w.records[k], HistoryOf(w, k));
    assert TurnsClosed(cfg, HistoryOf(w, k));
    ClosedIsAccounted(cfg, HistoryOf(w, k).past[i]);
  }

  // The turn that is under way.
  lemma CurrentTurnOfEveryRun(cfg: Config, es: seq<Event>, k: Key)
    requires AllowedRun(cfg, Empty, es) && k in Run(cfg, Empty, es).records
    ensures var w := Run(cfg, Empty, es);
            var r, t := w.records[k], HistoryOf(w, k).turn;
            match r.state
            case Idle => t.accepted == [] || (Accounted(cfg, t) && DeliveredInOrder(t.log, |t.reply|))
            case Buffering =>
              && t.accepted == r.inboundBuffer && r.lateArrivals == []
              && r.lastInboundHandles == Handles(t.accepted) && |t.requests| <= cfg.maxReprocessAttempts
            case Processing =>
              && t.accepted == r.inboundBuffer + r.lateArrivals && r.lastInboundHandles == Handles(t.accepted)
              && 0 < |t.requests| <= cfg.maxReprocessAttempts + 1 && Last(t.requests) == r.inboundBuffer
            case Sending =>
              && Accounted(cfg, t) && DeliveredInOrder(t.log, r.index) && |t.reply| == |r.queue|
              && r.lastInboundHandles == Handles(Last(t.requests))
  {
    hide Inv, Accounted, DeliveredInOrder, TurnOk;
    var w := Run(cfg, Empty, es);
    EmptyInv(cfg);
    RunKeeps(cfg, Empty, es);
    Own(cfg, w, k);
    ConversationFacts(cfg, w, k);
    CurrentTurn(cfg, w.records[k], HistoryOf(w, k));
  }

  lemma CurrentTurn(cfg: Config, r: Record, h: History)
    requires TurnOk(cfg, r, h)
    ensures var t := h.turn;
            match r.state
            case Idle => t.accepted == [] || (Accounted(cfg, t) && DeliveredInOrder(t.log, |t.reply|))
            case Buffering =>
              && t.accepted == r.inboundBuffer && r.lateArrivals == []
              && r.lastInboundHandles == Handles(t.accepted) && |t.requests| <= cfg.maxReprocessAttempts
            case Processing =>
              && t.accepted == r.inboundBuffer + r.lateArrivals && r.lastInboundHandles == Handles(t.accepted)
              && 0 < |t.requests| <= cfg.maxReprocessAttempts + 1 && Last(t.requests) == r.inboundBuffer
            case Sending =>
              && Accounted(cfg, t) && DeliveredInOrder(t.log, r.index) && |t.reply| == |r.queue|
              && r.lastInboundHandles == Handles(Last(t.requests))
  {
    hide DeliveredInOrder, AimsAt, QueueOk;
    match r.state {
      case Idle => if h.turn != NoTurn { ClosedIsAccounted(cfg, h.turn); }
      case Buffering => assert r.inboundBuffer + [] == r.inboundBuffer;
      case Processing =>
      case Sending =>
        CursorMeansOrder(h.turn.log, r.index);
        forall i | 0 <= i < |h.turn.requests| ensures h.turn.requests[i] <= h.turn.accepted {
          assert i < |h.turn.requests| - 1 ==> h.turn.requests[i] < Last(h.turn.requests);
        }
    }
  }

  // --- callbacks ---------------------------------------------------------

  // A mapping exists exactly while its handle is in flight, and points at the
  // position in flight; every other callback changes nothing.
  lemma CallbacksAlign(cfg: Config, w: World, c: Callback, results: Results)
    requires Inv(cfg, w)
    ensures c.handle in w.mapping <==>
              exists k :: k in w.records && w.records[k].state == Sending && w.records[k].handle == Some(c.handle)
    ensures c.handle in w.mapping ==>
              && w.mapping[c.handle].key in w.records
              && var r := w.records[w.mapping[c.handle].key];
                 r.state == Sending && r.handle == Some(c.handle) && r.index == w.mapping[c.handle].position
    ensures c.handle !in w.mapping ==> StatusCallback(cfg, w, c, results) == w
  {
    hide Inv, TurnOk, SendFrom, FailedStatus;
    if c.handle in w.mapping { MappingIsKnown(cfg, w, c.handle); }
    forall k | k in w.records && w.records[k].state == Sending && w.records[k].handle == Some(c.handle)
      ensures c.handle in w.mapping
    {
      Own(cfg, w, k);
      ConversationFacts(cfg, w, k);
    }
  }

  // A handle that is no longer in flight stays out of every table for good.
  lemma {:induction false} RetiredHandlesStayRetired(cfg: Config, w: World, es: seq<Event>, c: Callback, results: Results)
    requires Inv(cfg, w) && AllowedRun(cfg, w, es)
    requires c.handle in w.issued && c.handle !in w.mapping
    ensures var w' := Run(cfg, w, es);
            c.handle !in w'.mapping && StatusCallback(cfg, w', c, results) == w'
    decreases |es|
  {
    hide Inv, Step, Allowed, Agree, Stranded;
    if es != [] {
      StepKeeps(cfg, w, es[0]);
      StepWithin(cfg, w, es[0]);
      RetiredHandlesStayRetired(cfg, Step(cfg, w, es[0]), es[1..], c, results);
    }
  }

  lemma AdvanceQueueLogs(cfg: Config, w: World, k: Key, r: Record, h: Handle, ending: Ending, results: Results)
    requires Tables(ClearHandle(w, h)) && Fresh(w, results) && r.index < |r.queue|
    ensures var w' := AdvanceQueue(cfg, w, k, r, h, ending, results);
            LogGrows(Log(HistoryOf(w, k), Ended(r.index, ending)), HistoryOf(w', k))
  {
    hide SendFrom, Reaches, LogGrows, Fresh;
    var w1 := Advance(cfg, ClearHandle(w, h), k, r, ending);
    assert HistoryOf(w1, k) == Log(HistoryOf(w, k), Ended(r.index, ending));
    OneAdvanceReaches(cfg, ClearHandle(w, h), k, r, ending);
    AdvanceChanges(cfg, ClearHandle(w, h), k, r, ending);
    assert Fresh(w1, results) by { FreshStays(w, w1, results); }
    SendFromMoves(cfg, w1, k, AdvanceRecord(r), results);
  }

  lemma FreshStays(w: World, w': World, results: Results)
    requires Fresh(w, results) && w'.issued == w.issued
    ensures Fresh(w', results)
  {
  }

  // What a callback for the position in flight means for its turn: the
  // channel's success status confirms it and lets the next positions be sent; a
  // failure ends it and everything behind it if it is final, and otherwise leaves
  // the turn to a retry or a stall; any other status changes the channel only.
  lemma CallbackMeaning(cfg: Config, w: World, c: Callback, results: Results)
    requires Inv(cfg, w) && Fresh(w, results) && c.handle in w.mapping
    ensures var k := w.mapping[c.handle].key;
            && k in w.records
            && var r := ApplyChannel(w.records[k], ChannelFromStatus(c, w.records[k].channel), c.downgraded);
            var h, w' := HistoryOf(w, k), StatusCallback(cfg, w, c, results);
            && (c.status == SuccessStatus(r) ==> LogGrows(Log(h, Ended(r.index, Confirmed)), HistoryOf(w', k)))
            && (c.status in {ERROR, DECLINED} ==>
                  AbortedOrWaiting(w, w', k, r, FailureIsFinal(cfg, w, k, r, c), ClassifyStatusErrorCode(c.errorCode)))
            && (c.status !in {ERROR, DECLINED, SuccessStatus(r)} ==> w' == Persist(w, k, r))
  {
    hide Inv, SendFrom, LogGrows, AdvanceQueue, FailedStatus, TurnOk, EndRest, Fresh, FailureIsFinal, AbortedOrWaiting;
    var k := w.mapping[c.handle].key;
    MappingIsKnown(cfg, w, c.handle);
    Own(cfg, w, k);
    ConversationFacts(cfg, w, k);
    TurnsOver(cfg, w.records[k], HistoryOf(w, k));
    KeepsTables(cfg, w);
    var r := ApplyChannel(w.records[k], ChannelFromStatus(c, w.records[k].channel), c.downgraded);
    SendsSuccess(r);
    if c.status == ERROR || c.status == DECLINED {
      FailureMeaning(cfg, w, k, r, c);
    } else if c.status == SuccessStatus(r) {
      DeliveryIsMapped(cfg, w, c.handle);
      AdvanceQueueLogs(cfg, w, k, r, c.handle, Confirmed, results);
    }
  }

  lemma SendsSuccess(r: Record)
    ensures SuccessStatus(r) !in {ERROR, DECLINED}
  {
  }

  // The callback is about a message that went out as an SMS: it says so, or
  // leaves standing what the conversation knew.
  predicate OverSms(r: Record, c: Callback) {
    var channel := if c.service == UnknownChannel then r.channel else c.service;
    c.downgraded || channel == Sms || (r.smsDowngraded && channel != IMessage)
  }

  ghost predicate Confirms(w: World, w': World, k: Key)
    requires k in w.records
  {
    LogGrows(Log(HistoryOf(w, k), Ended(w.records[k].index, Confirmed)), HistoryOf(w', k))
  }

  // SENT confirms exactly the messages that went out as an SMS, DELIVERED
  // exactly the others.
  lemma SuccessByChannel(cfg: Config, w: World, c: Callback, results: Results)
    requires Inv(cfg, w) && Fresh(w, results) && c.handle in w.mapping
    ensures var k, w' := w.mapping[c.handle].key, StatusCallback(cfg, w, c, results);
            && k in w.records
            && (c.status == SENT ==> (Confirms(w, w', k) <==> OverSms(w.records[k], c)))
            && (c.status == DELIVERED ==> (Confirms(w, w', k) <==> !OverSms(w.records[k], c)))
  {
    hide Inv, StatusCallback, Fresh;
    CallbackMeaning(cfg, w, c, results);
    var k := w.mapping[c.handle].key;
    var r := ApplyChannel(w.records[k], ChannelFromStatus(c, w.records[k].channel), c.downgraded);
    assert HistoryOf(Persist(w, k, r), k) == HistoryOf(w, k);
    assert SuccessStatus(r) == if OverSms(w.records[k], c) then SENT else DELIVERED;
    assert !LogGrows(Log(HistoryOf(w, k), Ended(r.index, Confirmed)), HistoryOf(w, k));
  }

  lemma DeliveryIsMapped(cfg: Config, w: World, h: Handle)
    requires Inv(cfg, w)
    ensures Tables(ClearHandle(w, h))
  {
    hide Inv;
    KeepsTables(cfg, w);
  }

  // A failed callback leaves no way to send the position again: nothing tracks
  // limits, the error is final, the transient attempts are spent, or the line
  // cannot be stalled (once more).
  predicate FailureIsFinal(cfg: Config, w: World, k: Key, r: Record, c: Callback) {
    || !cfg.limitTracker || r.index >= |r.queue|
    || match ClassifyStatusErrorCode(c.errorCode)
       case Permanent => true
       case Transient => Current(r).retryCount + 1 > cfg.transientRetryMaxAttempts
       case SmsLimited => !cfg.stallScheduler || StallAttempts(w, k.line) + 1 > cfg.smsLimitMaxAttempts
  }

  // Everything from the position on is aborted; or the turn is left alone and
  // waits: for a retry of this item that counts one attempt more, with the line
  // left as it was, or for the line, in the same attempt.
  ghost predicate AbortedOrWaiting(w: World, w': World, k: Key, r: Record, aborted: bool, c: Classification) {
    && k in w'.records && (w'.records[k].state == Idle <==> aborted)
    && if aborted then HistoryOf(w', k) == EndRest(HistoryOf(w, k), r.index, Aborted)
       else
         && HistoryOf(w', k) == HistoryOf(w, k) && r.index < |r.queue|
         && w'.records[k].index == r.index && w'.records[k].handle == None
         && (if c == Transient then
               && k in w'.retry && w'.retry[k] == Expected(Current(r).id, Current(r).retryCount + 1)
               && w'.stalls == w.stalls && w'.stallCount == w.stallCount
             else
               && HoldsStall(w', k) && w'.stalls[k.line].expected == Expected(Current(r).id, Current(r).retryCount)
               && StallAttempts(w', k.line) == StallAttempts(w, k.line) + 1 && w'.retry == w.retry)
  }

  // It aborts if and only if it is final.
  lemma FailureMeaning(cfg: Config, w: World, k: Key, r: Record, c: Callback)
    requires k in w.records && r.state == Sending
    ensures AbortedOrWaiting(w, FailedStatus(cfg, w, k, r, c), k, r, FailureIsFinal(cfg, w, k, r, c),
                             ClassifyStatusErrorCode(c.errorCode))
  {
    hide AbortQueue, EndRest, ClassifyStatusErrorCode, ArmRetry, ArmStall, ClearHandle, AbortedOrWaiting;
    var category := ClassifyStatusErrorCode(c.errorCode);
    var w1 := ClearHandle(w, c.handle);
    AbortMeaning(cfg, w, w, k, r, c.handle, category);
    if cfg.limitTracker && category != Permanent && r.index < |r.queue| {
      ClearKeepsHistory(w, c.handle);
      if category == Transient {
        RetryMeaning(w, w1, k, r, Current(r).retryCount + 1);
        AbortMeaning(cfg, w, w1, k, r, c.handle, category);
      } else {
        var r1 := WithCurrent(r, Current(r).(messageHandle := None)).(handle := None);
        StallMeaning(w, w1, k, r);
        AbortMeaning(cfg, w, RefuseStall(cfg, Persist(w1, k, r1), k.line), k, r1, c.handle, category);
        AbortsAt(w, FailedStatus(cfg, w, k, r, c), k, r, r1, category);
      }
    }
  }

  lemma ClearKeepsHistory(w: World, h: Handle)
    ensures ClearHandle(w, h) == w.(delivery := ClearHandle(w, h).delivery, mapping := ClearHandle(w, h).mapping)
  {
  }

  lemma AbortMeaning(cfg: Config, w: World, w1: World, k: Key, r: Record, h: Handle, c: Classification)
    requires w1.history == w.history
    ensures AbortedOrWaiting(w, AbortQueue(cfg, w1, k, r, h), k, r, true, c)
  {
    hide EndRest;
  }

  // The handle the record forgot first has no part in it.
  lemma AbortsAt(w: World, w': World, k: Key, r: Record, r1: Record, c: Classification)
    requires r1.index == r.index
    ensures AbortedOrWaiting(w, w', k, r1, true, c) ==> AbortedOrWaiting(w, w', k, r, true, c)
  {
    hide EndRest;
  }

  lemma RetryMeaning(w: World, w1: World, k: Key, r: Record, attempts: nat)
    requires r.index < |r.queue| && r.state == Sending && attempts == Current(r).retryCount + 1
    requires w1 == w.(delivery := w1.delivery, mapping := w1.mapping)
    ensures AbortedOrWaiting(w, ArmRetry(w1, k, r, attempts), k, r, false, Transient)
  {
  }

  lemma StallMeaning(w: World, w1: World, k: Key, r: Record)
    requires r.index < |r.queue| && r.state == Sending && w1 == w.(delivery := w1.delivery, mapping := w1.mapping)
    ensures var r1 := WithCurrent(r, Current(r).(messageHandle := None)).(handle := None);
            AbortedOrWaiting(w, ArmStall(Persist(w1, k, r1), k, Current(r1)), k, r, false, SmsLimited)
  {
  }

  // --- timeouts ----------------------------------------------------------

  // A delivery timeout ends the position in flight, and only that one before
  // anything else is sent.
  lemma TimeoutMeaning(cfg: Config, w: World, h: Handle, results: Results)
    requires Inv(cfg, w) && Fresh(w, results) && h in w.delivery
    ensures var k := w.delivery[h];
            && k in w.records && w.records[k].handle == Some(h)
            && LogGrows(Log(HistoryOf(w, k), Ended(w.records[k].index, TimedOut)),
                        HistoryOf(DeliveryTimeout(cfg, w, h, results), k))
  {
    hide Inv, LogGrows, AdvanceQueue, DeliveryTimeout, TurnOk;
    TimeoutAdvances(cfg, w, h, results);
    var k := w.delivery[h];
    Own(cfg, w, k);
    ConversationFacts(cfg, w, k);
    TurnsOver(cfg, w.records[k], HistoryOf(w, k));
    DeliveryIsMapped(cfg, w, h);
    AdvanceQueueLogs(cfg, w, k, w.records[k], h, TimedOut, results);
  }

  // --- interruption ------------------------------------------------------

  // A text of an action in a few words: what it says, else what it shows, else
  // how it reacts, else what it is; cut to a length, with three dots where it was
  // longer.
  predicate Summarises(text: string, a: QueuedAction, maxLength: nat) {
    if Says(a.content) then CutTo(text, a.content.value, maxLength)
    else if Says(a.mediaUrl) then CutTo(text, "media:" + a.mediaUrl.value, maxLength)
    else if Says(a.reaction) then CutTo(text, "reaction:" + a.reaction.value, maxLength)
    else CutTo(text, KindName(a.kind), maxLength)
  }

  predicate Says(s: Option<string>) {
    s.Some? && |s.value| > 0
  }

  function KindName(kind: Kind): string {
    match kind case Message => "message" case Media => "media" case Reply => "reply" case Reaction => "reaction" case Silence => "silence"
  }

  predicate CutTo(text: string, full: string, maxLength: nat) {
    if |full| > maxLength then |text| == maxLength + 3 && text[..maxLength] <= full && text[maxLength..] == "..."
    else text == full
  }

  lemma SummaryMeaning(a: QueuedAction, maxLength: nat)
    ensures Summarises(Truncate(Summary(a), maxLength), a, maxLength)
  {
  }

  // What an interruption leaves behind.
  ghost predicate Interrupted(cfg: Config, r: Record, h: History, m: Inbound, r': Record, h': History) {
    && r'.inboundBuffer == [m] && r'.queue == [] && r'.handle == None && r'.delivered == r.delivered
    && r.index + |r'.cancelled| == |r.queue|
    && (forall i :: 0 <= i < |r'.cancelled| ==>
          Summarises(r'.cancelled[i], r.queue[r.index + i].action, cfg.cancelledMaxLength))
    && h'.past == h.past + [EndRest(h, r.index, Cancelled).turn]
    && h'.turn.accepted == [m]
  }

  // A message that arrives while a queue is sent ends the rest of the queue as
  // cancelled, keeps the summaries of exactly that rest, and opens a new turn
  // with itself as the only message.
  lemma InterruptCancelsTheRest(cfg: Config, w: World, k: Key, m: Inbound, channel: Channel, downgraded: bool,
                                now: int, delayMs: int)
    requires Inv(cfg, w) && k in w.records && w.records[k].state == Sending && !ClaimHolds(w, m.handle, now)
    ensures var w' := Receive(cfg, w, k, m, channel, downgraded, Accepted, now, delayMs);
            k in w'.records && Interrupted(cfg, w.records[k], HistoryOf(w, k), m, w'.records[k], HistoryOf(w', k))
  {
    hide Inv, TurnOk, Interrupted, Interrupt;
    Own(cfg, w, k);
    ConversationFacts(cfg, w, k);
    TurnsOver(cfg, w.records[k], HistoryOf(w, k));
    EndRestKeepsMessages(cfg, w.records[k], HistoryOf(w, k));
    var w1 := Claim(cfg, w, m.handle, now);
    InterruptMeaning(cfg, w1, k, ApplyChannel(w.records[k], channel, downgraded), m, delayMs);
    SameButChannel(cfg, w.records[k], channel, downgraded, m, Interrupt(cfg, w1, k, ApplyChannel(w.records[k], channel, downgraded), m, delayMs), k, HistoryOf(w, k));
  }

  lemma SameButChannel(cfg: Config, r: Record, channel: Channel, downgraded: bool, m: Inbound, w': World, k: Key, h: History)
    requires k in w'.records && Interrupted(cfg, ApplyChannel(r, channel, downgraded), h, m, w'.records[k], HistoryOf(w', k))
    ensures Interrupted(cfg, r, h, m, w'.records[k], HistoryOf(w', k))
  {
    hide EndRest, Summarises;
  }

  lemma InterruptMeaning(cfg: Config, w: World, k: Key, r: Record, m: Inbound, delayMs: int)
    requires r.index <= |r.queue| && EndRest(HistoryOf(w, k), r.index, Cancelled).turn.accepted != []
    requires EndRest(HistoryOf(w, k), r.index, Cancelled).past == HistoryOf(w, k).past
    ensures var w' := Interrupt(cfg, w, k, r, m, delayMs);
            k in w'.records && Interrupted(cfg, r, HistoryOf(w, k), m, w'.records[k], HistoryOf(w', k))
  {
    hide Schedule, EndRest, ClearStall, ClearCurrent, Summary, Truncate, Summarises;
    var w1 := ClearCurrent(ClearStall(cfg, ClearRetry(w, k), k.line), r);
    var r1 := OpenBuffer(r, m).(cancelled := CancelledSummaries(cfg, r));
    var h1 := Begin(EndRest(HistoryOf(w, k), r.index, Cancelled), m);
    forall i | r.index <= i < |r.queue|
      ensures Summarises(Truncate(Summary(r.queue[i].action), cfg.cancelledMaxLength), r.queue[i].action, cfg.cancelledMaxLength)
    {
      SummaryMeaning(r.queue[i].action, cfg.cancelledMaxLength);
    }
    ScheduleKeepsTheRest(Remember(Persist(w1, k, r1), k, h1), k, delayMs);
  }

  lemma EndRestKeepsMessages(cfg: Config, r: Record, h: History)
    requires SendingTurn(cfg, r, h)
    ensures EndRest(h, r.index, Cancelled).past == h.past && EndRest(h, r.index, Cancelled).turn.accepted != []
  {
    EndRestReachesSize(h, r.index, Cancelled);
  }

  lemma ScheduleKeepsTheRest(w: World, k: Key, delayMs: int)
    requires k in w.records && k in w.history
    ensures var w' := Schedule(w, k, delayMs);
            && k in w'.records && w'.records[k] == w.records[k].(state := w'.records[k].state)
            && HistoryOf(w', k).past == HistoryOf(w, k).past
            && HistoryOf(w', k).turn.accepted == HistoryOf(w, k).turn.accepted
  {
    hide ProcessBuffer;
    if delayMs <= 0 { ProcessKeepsTheRest(w.(buffer := w.buffer - {k}), k); }
  }

  lemma ProcessKeepsTheRest(w: World, k: Key)
    requires k in w.records && k in w.history
    ensures var w' := ProcessBuffer(w, k);
            && k in w'.records && w'.records[k] == w.records[k].(state := w'.records[k].state)
            && HistoryOf(w', k).past == HistoryOf(w, k).past
            && HistoryOf(w', k).turn.accepted == HistoryOf(w, k).turn.accepted
  {
  }

  // --- reactions ---------------------------------------------------------

  // The message a reaction is to be aimed at: the one it asks for when that is
  // one of the batch, the batch's last one otherwise.
  predicate RightTarget(a: QueuedAction, handles: seq<Handle>, target: Option<Handle>) {
    && handles != [] && target.Some?
    && (if a.target.Some? && a.target.value != "" && a.target.value in handles then target == a.target
        else target.value == handles[|handles| - 1])
  }

  // While a conversation sends, its queue is the reply it acts on: as many
  // items, in order, each the reply's action, but for the targets of reactions,
  // which are right for the batch the reply answered.
  ghost predicate QueueIsReply(queue: seq<Item>, reply: seq<QueuedAction>, handles: seq<Handle>) {
    && |queue| == |reply|
    && forall i :: 0 <= i < |queue| ==>
         && queue[i].action == reply[i].(target := queue[i].action.target)
         && (if reply[i].kind == Reaction then RightTarget(reply[i], handles, queue[i].action.target)
             else queue[i].action.target == reply[i].target)
  }

  lemma QueueOfEveryRun(cfg: Config, es: seq<Event>, k: Key)
    requires AllowedRun(cfg, Empty, es) && k in Run(cfg, Empty, es).records
    requires Run(cfg, Empty, es).records[k].state == Sending
    ensures var w := Run(cfg, Empty, es);
            var t := HistoryOf(w, k).turn;
            t.requests != [] && QueueIsReply(w.records[k].queue, t.reply, Handles(Last(t.requests)))
  {
    hide Inv, TurnOk;
    var w := Run(cfg, Empty, es);
    EmptyInv(cfg);
    RunKeeps(cfg, Empty, es);
    Own(cfg, w, k);
    ConversationFacts(cfg, w, k);
    TurnsOver(cfg, w.records[k], HistoryOf(w, k));
  }

  // Every request of a turn is for one of the reply's actions, and what is
  // handed to the client with a reaction is its right target.
  ghost predicate RightlyAimed(t: Turn) {
    forall i :: 0 <= i < |t.log| && t.log[i].Sent? ==>
      && t.requests != [] && t.log[i].position < |t.reply|
      && var a := t.reply[t.log[i].position];
         if a.kind == Reaction then RightTarget(a, Handles(Last(t.requests)), t.log[i].target)
         else t.log[i].target == None
  }

  lemma AimsAreRight(t: Turn)
    requires t.requests != [] && Last(t.requests) != [] && AimsAt(t.log, t.reply, Handles(Last(t.requests)))
    ensures RightlyAimed(t)
  {
  }

  // In every turn of every run, over or under way.
  lemma ReactionTargets(cfg: Config, es: seq<Event>, k: Key, t: Turn)
    requires AllowedRun(cfg, Empty, es) && k in Run(cfg, Empty, es).records
    requires var h := HistoryOf(Run(cfg, Empty, es), k); t in h.past || t == h.turn
    ensures RightlyAimed(t)
  {
    hide Inv, TurnOk, Closed, RightlyAimed;
    var w := Run(cfg, Empty, es);
    EmptyInv(cfg);
    RunKeeps(cfg, Empty, es);
    Own(cfg, w, k);
    ConversationFacts(cfg, w, k);
    TurnsOver(cfg, w.records[k], HistoryOf(w, k));
    if t in HistoryOf(w, k).past { ClosedIsAimed(cfg, t); } else { CurrentIsAimed(cfg, w.records[k], HistoryOf(w, k)); }
  }

  lemma ClosedIsAimed(cfg: Config, t: Turn)
    requires Closed(cfg, t)
    ensures RightlyAimed(t)
  {
    hide RightlyAimed;
    if t.outcome == Answered {
      AimsAreRight(t);
    } else {
      NoLogIsAimed(t);
    }
  }

  lemma CurrentIsAimed(cfg: Config, r: Record, h: History)
    requires TurnOk(cfg, r, h)
    ensures RightlyAimed(h.turn)
  {
    hide RightlyAimed, QueueOk;
    match r.state {
      case Idle => if h.turn == NoTurn { NoLogIsAimed(h.turn); } else { ClosedIsAimed(cfg, h.turn); }
      case Sending => AimsAreRight(h.turn);
      case _ => NoLogIsAimed(h.turn);
    }
  }

  lemma NoLogIsAimed(t: Turn)
    requires t.log == []
    ensures RightlyAimed(t)
  {
  }
}
