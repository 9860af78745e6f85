// What a step does to the stall timer and the stall counter of its line, read
// off the state before the step and the results it will meet; and, from that,
// exactly which steps strand a conversation.
module ConversationStalls {
  import opened Wrappers
  import opened StatusTracker
  import opened ErrorClass
  import opened ConversationTypes
  import opened History
  import opened ConversationModel
  import opened ConversationInvariant
  import opened ConversationSteps
  import opened ConversationEffects
  import opened ConversationRuns
  import opened ConversationLines
  import opened ConversationTurns

  // Whether the line's timer has been cancelled or replaced, and the counter.
  datatype LineState = LineState(taken: bool, count: nat)

  function Cleared(cfg: Config, s: LineState): LineState {
    LineState(s.taken || cfg.stallScheduler, if cfg.limitTracker then 0 else s.count)
  }

  // Sending from the i-th position on.  A position that waits for a callback or
  // a transient retry ends it and leaves the line alone; one that needs no
  // waiting, and the end of the queue, clear the line; an SMS limit arms the
  // timer while the counter allows, and resets the counter when it does not.
  function SendLine(cfg: Config, k: Key, r: Record, i: nat, results: Results, s: LineState): LineState
    decreases |r.queue| - i
  {
    if i >= |r.queue| then Cleared(cfg, s)
    else if Unsendable(cfg, k, r, r.queue[i].action) then SendLine(cfg, k, r, i + 1, results, s)
    else
      match Judge(cfg, r.queue[i], results(i))
      case InFlight(_) => s
      case Retry(_) => s
      case Fired => SendLine(cfg, k, r, i + 1, results, Cleared(cfg, s))
      case TryStall =>
        if cfg.stallScheduler && s.count + 1 <= cfg.smsLimitMaxAttempts then LineState(true, s.count + 1)
        else SendLine(cfg, k, r, i + 1, results, if cfg.stallScheduler then s.(count := 0) else s)
      case GiveUp => SendLine(cfg, k, r, i + 1, results, s)
  }

  function CallbackLine(cfg: Config, w: World, k: Key, r: Record, c: Callback, results: Results, s: LineState): LineState {
    if c.status == ERROR || c.status == DECLINED then
      if FailureIsFinal(cfg, w, k, r, c) then Cleared(cfg, s)
      else if ClassifyStatusErrorCode(c.errorCode) == SmsLimited then LineState(true, s.count + 1)
      else s
    else if c.status == SuccessStatus(r) then SendLine(cfg, k, r, r.index + 1, results, Cleared(cfg, s))
    else s
  }

  // The whole step, for the line of the conversation it concerns.
  function StepLine(cfg: Config, w: World, e: Event): LineState {
    match e
    case Receives(k, m, _, _, gate, now, _) =>
      var s := LineState(false, StallAttempts(w, k.line));
      if gate == Accepted && !ClaimHolds(w, m.handle, now) && k in w.records && w.records[k].state == Sending
      then Cleared(cfg, s) else s
    case BufferFires(k) => LineState(false, StallAttempts(w, k.line))
    case ChatReturns(k, reply, now, _, results) =>
      var s := LineState(false, StallAttempts(w, k.line));
      if k !in w.chats || (reply.Replied? && k !in w.records) then s
      else if reply.Failed? then Cleared(cfg, s)
      else if w.records[k].lateArrivals != [] && w.records[k].reprocessCount < cfg.maxReprocessAttempts then s
      else if reply.actions == [] then Cleared(cfg, s)
      else SendLine(cfg, k, StartSending(w.records[k], reply.actions, now), 0, results, s)
    case StatusArrives(c, results) =>
      if c.handle !in w.mapping then LineState(false, 0)
      else
        var k := w.mapping[c.handle].key;
        var s := LineState(false, StallAttempts(w, k.line));
        if k !in w.records || w.records[k].state != Sending then s
        else
          var r := ApplyChannel(w.records[k], ChannelFromStatus(c, w.records[k].channel), c.downgraded);
          CallbackLine(cfg, w, k, r, c, results, s)
    case TimeoutFires(h, results) =>
      if h !in w.delivery then LineState(false, 0)
      else
        var k := w.delivery[h];
        var s := LineState(false, StallAttempts(w, k.line));
        if k !in w.records then s else SendLine(cfg, k, w.records[k], w.records[k].index + 1, results, Cleared(cfg, s))
    case RetryFires(k, results) =>
      var s := LineState(false, StallAttempts(w, k.line));
      if k !in w.retry || k !in w.records then s else SendLine(cfg, k, w.records[k], w.records[k].index, results, s)
    case StallFires(l, results) =>
      if l !in w.stalls then LineState(false, 0)
      else
        var k := w.stalls[l].key;
        var s := LineState(true, StallAttempts(w, k.line));
        if k !in w.records then s else SendLine(cfg, k, w.records[k], w.records[k].index, results, s)
  }

  // --- the state is right ------------------------------------------------

  // From w0 to w the line of conversation k has come to state s.
  ghost predicate OnLine(w0: World, w: World, k: Key, s: LineState) {
    && StallAttempts(w, k.line) == s.count
    && (if s.taken then LineFree(w, k) else Same(w0.stalls, w.stalls, k.line))
  }

  ghost predicate SameStalls(w: World, w': World) {
    w'.stalls == w.stalls && w'.stallCount == w.stallCount
  }

  lemma LineStays(w0: World, w: World, w': World, k: Key, s: LineState)
    requires OnLine(w0, w, k, s) && SameStalls(w, w')
    ensures OnLine(w0, w', k, s)
  {
  }

  lemma LineClears(cfg: Config, w0: World, w: World, w': World, k: Key, s: LineState)
    requires OnLine(w0, w, k, s) && SameStalls(ClearStall(cfg, w, k.line), w')
    ensures OnLine(w0, w', k, Cleared(cfg, s))
  {
  }

  lemma LineArms(cfg: Config, w0: World, w: World, k: Key, item: Item, s: LineState)
    requires OnLine(w0, w, k, s)
    ensures OnLine(w0, ArmStall(w, k, item), k, LineState(true, s.count + 1))
    ensures OnLine(w0, RefuseStall(cfg, w, k.line), k, if cfg.stallScheduler then s.(count := 0) else s)
    ensures CanStall(cfg, w, k.line) <==> cfg.stallScheduler && s.count + 1 <= cfg.smsLimitMaxAttempts
  {
  }

  // The operations of a step, as far as the line is concerned.
  lemma LittleStays(cfg: Config, w: World, k: Key, r: Record, answer: SendResult)
    requires r.index < |r.queue|
    ensures SameStalls(w, Skip(w, k, r)) && SameStalls(w, Attempted(w, k, r, answer))
  {
  }

  lemma WaitingStays(w: World, k: Key, r: Record, attempts: nat, h: Handle)
    requires r.index < |r.queue|
    ensures SameStalls(w, AwaitStatus(w, k, r, h)) && SameStalls(w, ArmRetry(w, k, r, attempts))
  {
  }

  lemma AdvanceClears(cfg: Config, w: World, k: Key, r: Record, ending: Ending)
    ensures SameStalls(ClearStall(cfg, w, k.line), Advance(cfg, w, k, r, ending))
  {
  }

  lemma IdleClears(cfg: Config, w: World, k: Key, r: Record)
    ensures SameStalls(ClearStall(cfg, w, k.line), ToIdle(cfg, w, k, r))
  {
  }

  // r is r0 as far as the positions from i on are concerned.
  ghost predicate From(r: Record, r0: Record, i: nat) {
    && r.index == i && |r.queue| == |r0.queue|
    && (forall j :: i <= j < |r0.queue| ==> r.queue[j] == r0.queue[j])
    && r.channel == r0.channel && r.smsDowngraded == r0.smsDowngraded && r.lastInboundHandles == r0.lastInboundHandles
  }

  lemma FromNext(r: Record, r0: Record, i: nat)
    requires From(r, r0, i) && i < |r0.queue|
    ensures From(SkipRecord(r), r0, i + 1) && From(AdvanceRecord(SentRecord(r, None)), r0, i + 1)
    ensures AdvanceRecord(SentRecord(r, None)).handle == None && SkipRecord(r).handle == None
  {
  }

  lemma FromAlike(cfg: Config, k: Key, r: Record, r0: Record, i: nat, a: QueuedAction)
    requires From(r, r0, i)
    ensures Unsendable(cfg, k, r, a) == Unsendable(cfg, k, r0, a)
    ensures i < |r0.queue| ==> Current(r) == r0.queue[i]
  {
  }

  lemma {:induction false} SendLineIsRight(cfg: Config, w0: World, w: World, k: Key, r: Record, r0: Record, i: nat,
                                           results: Results, s: LineState)
    requires OnLine(w0, w, k, s) && From(r, r0, i)
    ensures OnLine(w0, SendFrom(cfg, w, k, r, results), k, SendLine(cfg, k, r0, i, results, s))
    decreases |r0.queue| - i, 1
  {
    hide OnLine, From, Unsendable, Skip, SkipRecord, Attempted, AfterAttempt, ToIdle, Judge;
    FromFacts(r, r0, i);
    if i >= |r0.queue| {
      IdleClears(cfg, w, k, r);
      LineClears(cfg, w0, w, ToIdle(cfg, w, k, r), k, s);
    } else {
      FromAlike(cfg, k, r, r0, i, r0.queue[i].action);
      FromNext(r, r0, i);
      LittleStays(cfg, w, k, r, results(r.index));
      if Unsendable(cfg, k, r, Current(r).action) {
        LineStays(w0, w, Skip(w, k, r), k, s);
        SendLineIsRight(cfg, w0, Skip(w, k, r), k, SkipRecord(r), r0, i + 1, results, s);
      } else {
        LineStays(w0, w, Attempted(w, k, r, results(r.index)), k, s);
        AfterLineIsRight(cfg, w0, Attempted(w, k, r, results(r.index)), k, r, r0, i, results, s);
      }
    }
  }

  lemma FromFacts(r: Record, r0: Record, i: nat)
    requires From(r, r0, i)
    ensures r.index == i && |r.queue| == |r0.queue|
  {
  }

  lemma {:induction false} AfterLineIsRight(cfg: Config, w0: World, w: World, k: Key, r: Record, r0: Record, i: nat,
                                            results: Results, s: LineState)
    requires OnLine(w0, w, k, s) && From(r, r0, i) && i < |r0.queue| && r.index < |r.queue|
    requires !Unsendable(cfg, k, r0, r0.queue[i].action)
    ensures OnLine(w0, AfterAttempt(cfg, w, k, r, results), k, SendLine(cfg, k, r0, i, results, s))
    decreases |r0.queue| - i, 0
  {
    hide OnLine, From, Unsendable, Skip, SkipRecord, SendFrom, Judge, Advance, AdvanceRecord, ArmStall, ArmRetry, AwaitStatus,
         RefuseStall, CanStall, SentRecord;
    FromAlike(cfg, k, r, r0, i, r0.queue[i].action);
    FromFacts(r, r0, i);
    FromNext(r, r0, i);
    LittleStays(cfg, w, k, r, results(r.index));
    LineArms(cfg, w0, w, k, Current(r), s);
    match Judge(cfg, Current(r), results(i)) {
      case InFlight(h) =>
        WaitingStays(w, k, r, 0, h);
        LineStays(w0, w, AwaitStatus(w, k, r, h), k, s);
      case Retry(attempts) =>
        WaitingStays(w, k, r, attempts, "");
        LineStays(w0, w, ArmRetry(w, k, r, attempts), k, s);
      case Fired =>
        var sent := SentRecord(r, None);
        var w1 := Advance(cfg, w, k, sent, Unconfirmed);
        AdvanceClears(cfg, w, k, sent, Unconfirmed);
        LineClears(cfg, w0, w, w1, k, s);
        SendLineIsRight(cfg, w0, w1, k, AdvanceRecord(sent), r0, i + 1, results, Cleared(cfg, s));
      case TryStall =>
        var w1 := RefuseStall(cfg, w, k.line);
        var s1 := if cfg.stallScheduler then s.(count := 0) else s;
        LittleStays(cfg, w1, k, r, results(r.index));
        LineStays(w0, w1, Skip(w1, k, r), k, s1);
        SendLineIsRight(cfg, w0, Skip(w1, k, r), k, SkipRecord(r), r0, i + 1, results, s1);
      case GiveUp =>
        LineStays(w0, w, Skip(w, k, r), k, s);
        SendLineIsRight(cfg, w0, Skip(w, k, r), k, SkipRecord(r), r0, i + 1, results, s);
    }
  }

  // --- every event -------------------------------------------------------

  lemma StartsOnLine(w: World, k: Key)
    ensures OnLine(w, w, k, LineState(false, StallAttempts(w, k.line)))
  {
  }

  lemma ProcessStays(w: World, k: Key)
    ensures SameStalls(w, ProcessBuffer(w, k))
  {
  }

  lemma ScheduleStays(w: World, k: Key, delayMs: int)
    ensures SameStalls(w, Schedule(w, k, delayMs))
  {
    hide ProcessBuffer;
    ProcessStays(w.(buffer := w.buffer - {k}), k);
  }

  lemma AdvanceQueueLine(cfg: Config, w0: World, w: World, k: Key, r: Record, h: Handle, ending: Ending, results: Results,
                         s: LineState)
    requires OnLine(w0, w, k, s)
    ensures OnLine(w0, AdvanceQueue(cfg, w, k, r, h, ending, results), k,
                   SendLine(cfg, k, r, r.index + 1, results, Cleared(cfg, s)))
  {
    hide OnLine, SendFrom, Advance, Cleared;
    var w1 := ClearHandle(w, h);
    LineStays(w0, w, w1, k, s);
    AdvanceClears(cfg, w1, k, r, ending);
    LineClears(cfg, w0, w1, Advance(cfg, w1, k, r, ending), k, s);
    SendLineIsRight(cfg, w0, Advance(cfg, w1, k, r, ending), k, AdvanceRecord(r), r, r.index + 1, results, Cleared(cfg, s));
  }

  lemma AbortLine(cfg: Config, w0: World, w: World, k: Key, r: Record, h: Handle, s: LineState)
    requires OnLine(w0, w, k, s)
    ensures OnLine(w0, AbortQueue(cfg, w, k, r, h), k, Cleared(cfg, s))
  {
    hide OnLine, ToIdle, EndRest, Cleared;
    var w1 := Remember(ClearHandle(w, h), k, EndRest(HistoryOf(w, k), r.index, Aborted));
    LineStays(w0, w, w1, k, s);
    IdleClears(cfg, w1, k, r);
    LineClears(cfg, w0, w1, ToIdle(cfg, w1, k, r), k, s);
  }

  lemma FailedLine(cfg: Config, w: World, k: Key, r: Record, c: Callback, s: LineState)
    requires OnLine(w, w, k, s)
    ensures OnLine(w, FailedStatus(cfg, w, k, r, c), k,
                   if FailureIsFinal(cfg, w, k, r, c) then Cleared(cfg, s)
                   else if ClassifyStatusErrorCode(c.errorCode) == SmsLimited then LineState(true, s.count + 1)
                   else s)
  {
    hide OnLine, AbortQueue, ClassifyStatusErrorCode, ArmRetry, ArmStall, RefuseStall;
    var w1 := ClearHandle(w, c.handle);
    LineStays(w, w, w1, k, s);
    AbortLine(cfg, w, w, k, r, c.handle, s);
    AbortLine(cfg, w, w1, k, r, c.handle, s);
    if r.index < |r.queue| {
      WaitingStays(w1, k, r, Current(r).retryCount + 1, c.handle);
      LineStays(w, w1, ArmRetry(w1, k, r, Current(r).retryCount + 1), k, s);
      var r1 := WithCurrent(r, Current(r).(messageHandle := None)).(handle := None);
      var w2 := Persist(w1, k, r1);
      LineStays(w, w1, w2, k, s);
      LineArms(cfg, w, w2, k, Current(r1), s);
      var s1 := if cfg.stallScheduler then s.(count := 0) else s;
      AbortLine(cfg, w, RefuseStall(cfg, w2, k.line), k, r1, c.handle, s1);
    }
  }

  lemma StatusLine(cfg: Config, w: World, c: Callback, results: Results)
    requires c.handle in w.mapping
    ensures OnLine(w, StatusCallback(cfg, w, c, results), w.mapping[c.handle].key, StepLine(cfg, w, StatusArrives(c, results)))
  {
    hide OnLine, FailedStatus, AdvanceQueue, FailureIsFinal, SendLine, Cleared, ClassifyStatusErrorCode;
    var k := w.mapping[c.handle].key;
    var s := LineState(false, StallAttempts(w, k.line));
    StartsOnLine(w, k);
    if k in w.records && w.records[k].state == Sending {
      var r := ApplyChannel(w.records[k], ChannelFromStatus(c, w.records[k].channel), c.downgraded);
      FailedLine(cfg, w, k, r, c, s);
      AdvanceQueueLine(cfg, w, w, k, r, c.handle, Confirmed, results, s);
      LineStays(w, w, Persist(w, k, r), k, s);
    }
  }

  lemma ReceiveLine(cfg: Config, w: World, k: Key, m: Inbound, channel: Channel, downgraded: bool, gate: Gate,
                    now: int, delayMs: int)
    ensures OnLine(w, Receive(cfg, w, k, m, channel, downgraded, gate, now, delayMs), k,
                   StepLine(cfg, w, Receives(k, m, channel, downgraded, gate, now, delayMs)))
  {
    hide OnLine, AcceptInbound, PassedOver, Cleared;
    var s := LineState(false, StallAttempts(w, k.line));
    StartsOnLine(w, k);
    if !ClaimHolds(w, m.handle, now) {
      var w1 := Claim(cfg, w, m.handle, now);
      LineStays(w, w, w1, k, s);
      if gate == Accepted {
        AcceptLine(cfg, w, w1, k, ApplyChannel(KnownOrIdle(w1, k), channel, downgraded), m, delayMs, s);
      } else {
        LineStays(w, w1, Persist(w1, k, PassedOver(w1, k, channel, downgraded, gate)), k, s);
      }
    }
  }

  lemma AcceptLine(cfg: Config, w0: World, w: World, k: Key, r: Record, m: Inbound, delayMs: int, s: LineState)
    requires OnLine(w0, w, k, s)
    ensures OnLine(w0, AcceptInbound(cfg, w, k, r, m, delayMs), k, if r.state == Sending then Cleared(cfg, s) else s)
  {
    hide OnLine, Cleared, Schedule, HistoryOf, Begin, Accept, EndRest, CancelledSummaries, ClearStall;
    var h := HistoryOf(w, k);
    match r.state {
      case Idle =>
        RewriteLine(w0, w, k, OpenBuffer(r, m).(delivered := [], cancelled := [], reprocessCount := 0), Begin(h, m), delayMs, s);
      case Buffering => RewriteLine(w0, w, k, BufferMore(r, m), Accept(h, m), delayMs, s);
      case Processing => RewriteLine(w0, w, k, ArriveLate(r, m), Accept(h, m), delayMs, s);
      case Sending =>
        var w1 := ClearCurrent(ClearStall(cfg, ClearRetry(w, k), k.line), r);
        StoppedLine(cfg, w0, w, k, r, s);
        RewriteLine(w0, w1, k, OpenBuffer(r, m).(cancelled := CancelledSummaries(cfg, r)), Begin(EndRest(h, r.index, Cancelled), m),
                    delayMs, Cleared(cfg, s));
    }
  }

  lemma StoppedLine(cfg: Config, w0: World, w: World, k: Key, r: Record, s: LineState)
    requires OnLine(w0, w, k, s)
    ensures OnLine(w0, ClearCurrent(ClearStall(cfg, ClearRetry(w, k), k.line), r), k, Cleared(cfg, s))
  {
    hide OnLine, Cleared;
    LineClears(cfg, w0, w, ClearCurrent(ClearStall(cfg, ClearRetry(w, k), k.line), r), k, s);
  }

  lemma RewriteLine(w0: World, w: World, k: Key, r: Record, h: History, delayMs: int, s: LineState)
    requires OnLine(w0, w, k, s)
    ensures OnLine(w0, Remember(Persist(w, k, r), k, h), k, s)
    ensures OnLine(w0, Schedule(Remember(Persist(w, k, r), k, h), k, delayMs), k, s)
  {
    hide OnLine, Schedule;
    var w1 := Remember(Persist(w, k, r), k, h);
    ScheduleStays(w1, k, delayMs);
    LineStays(w0, w, w1, k, s);
    LineStays(w0, w1, Schedule(w1, k, delayMs), k, s);
  }

  lemma IdleLine(cfg: Config, w0: World, w: World, k: Key, h: History, r: Record, s: LineState)
    requires OnLine(w0, w, k, s)
    ensures OnLine(w0, ToIdle(cfg, Remember(w, k, h), k, r), k, Cleared(cfg, s))
  {
    hide OnLine, ToIdle, Cleared;
    LineStays(w0, w, Remember(w, k, h), k, s);
    IdleClears(cfg, Remember(w, k, h), k, r);
    LineClears(cfg, w0, Remember(w, k, h), ToIdle(cfg, Remember(w, k, h), k, r), k, s);
  }

  lemma ReplyLine(cfg: Config, w: World, k: Key, reply: ChatResult, now: int, delayMs: int, results: Results)
    requires k in w.chats
    ensures OnLine(w, ChatReply(cfg, w, k, reply, now, delayMs, results), k,
                   StepLine(cfg, w, ChatReturns(k, reply, now, delayMs, results)))
  {
    hide OnLine, ToIdle, TakeReply, Cleared, SendLine, StartSending;
    var s := LineState(false, StallAttempts(w, k.line));
    var w1 := w.(chats := w.chats - {k});
    StartsOnLine(w, k);
    LineStays(w, w, w1, k, s);
    IdleLine(cfg, w, w1, k, Fail(HistoryOf(w1, k)), w.chats[k], s);
    if reply.Replied? && k in w.records { TakeLine(cfg, w, w1, k, reply.actions, now, delayMs, results, s); }
  }

  lemma TakeLine(cfg: Config, w0: World, w: World, k: Key, actions: seq<QueuedAction>, now: int, delayMs: int,
                 results: Results, s: LineState)
    requires OnLine(w0, w, k, s) && k in w.records
    ensures OnLine(w0, TakeReply(cfg, w, k, actions, now, delayMs, results), k,
                   if w.records[k].lateArrivals != [] && w.records[k].reprocessCount < cfg.maxReprocessAttempts then s
                   else if actions == [] then Cleared(cfg, s)
                   else SendLine(cfg, k, StartSending(w.records[k], actions, now), 0, results, s))
  {
    hide OnLine, ToIdle, Cleared, SendLine, Schedule, SendFrom, Reprocess, StartSending, HistoryOf, Persist, Remember, Answer;
    var latest, h := w.records[k], HistoryOf(w, k);
    if latest.lateArrivals != [] && latest.reprocessCount < cfg.maxReprocessAttempts {
      RebufferLine(w0, w, k, Reprocess(latest), delayMs, s);
    } else if actions == [] {
      IdleLine(cfg, w0, w, k, Answer(h, h.stamp, []), latest, s);
    } else {
      var r := StartSending(latest, actions, now);
      var w1 := Remember(Persist(w, k, r), k, Answer(h, now, actions));
      RewriteLine(w0, w, k, r, Answer(h, now, actions), 0, s);
      StartsAtZero(latest, actions, now);
      SendLineIsRight(cfg, w0, w1, k, r, r, 0, results, s);
    }
  }

  lemma RebufferLine(w0: World, w: World, k: Key, r: Record, delayMs: int, s: LineState)
    requires OnLine(w0, w, k, s)
    ensures OnLine(w0, Schedule(Persist(w, k, r), k, delayMs), k, s)
  {
    hide OnLine, Schedule;
    var w1 := Persist(w, k, r);
    LineStays(w0, w, w1, k, s);
    ScheduleStays(w1, k, delayMs);
    LineStays(w0, w1, Schedule(w1, k, delayMs), k, s);
  }

  lemma StartsAtZero(r: Record, actions: seq<QueuedAction>, now: int)
    ensures From(StartSending(r, actions, now), StartSending(r, actions, now), 0)
  {
  }

  lemma RetryLine(cfg: Config, w: World, k: Key, results: Results)
    requires Inv(cfg, w) && k in w.retry
    ensures OnLine(w, RetryTimer(cfg, w, k, results), k, StepLine(cfg, w, RetryFires(k, results)))
  {
    hide Inv, OnLine, SendFrom, SendLine;
    var s := LineState(false, StallAttempts(w, k.line));
    ReleaseRetry(cfg, w, k);
    StartsOnLine(w, k);
    LineStays(w, w, ClearRetry(w, k), k, s);
    SendLineIsRight(cfg, w, ClearRetry(w, k), k, w.records[k], w.records[k], w.records[k].index, results, s);
  }

  lemma StallLine(cfg: Config, w: World, l: Line, results: Results)
    requires Inv(cfg, w) && l in w.stalls
    ensures w.stalls[l].key.line == l
    ensures OnLine(w, StallTimer(cfg, w, l, results), w.stalls[l].key, StepLine(cfg, w, StallFires(l, results)))
  {
    hide Inv, OnLine, SendFrom, SendLine, Awaits;
    StallIsKnown(cfg, w, l);
    var k := w.stalls[l].key;
    var w1 := w.(stalls := w.stalls - {l});
    StallMatches(cfg, w, l);
    assert OnLine(w, w1, k, LineState(true, StallAttempts(w, k.line))) by { TimerGone(w, l); }
    SendLineIsRight(cfg, w, w1, k, w.records[k], w.records[k], w.records[k].index, results,
                    LineState(true, StallAttempts(w, k.line)));
  }

  lemma StallMatches(cfg: Config, w: World, l: Line)
    requires Inv(cfg, w) && l in w.stalls
    ensures w.stalls[l].key in w.records && Matches(w.records[w.stalls[l].key], w.stalls[l].expected)
  {
    hide ConversationOk;
    assert StallOk(w, l);
  }

  lemma TimerGone(w: World, l: Line)
    requires l in w.stalls && w.stalls[l].key.line == l
    ensures OnLine(w, w.(stalls := w.stalls - {l}), w.stalls[l].key, LineState(true, StallAttempts(w, l)))
  {
  }

  // What the step does to its line is what could be read off before it.
  lemma StepLineIsRight(cfg: Config, w: World, e: Event)
    requires Inv(cfg, w) && Allowed(w, e) && Actor(w, e).Some?
    ensures OnLine(w, Step(cfg, w, e), Actor(w, e).value, StepLine(cfg, w, e))
  {
    hide Inv, OnLine, Receive, ProcessBuffer, ChatReply, StatusCallback, AdvanceQueue, DeliveryTimeout, RetryTimer, StallTimer,
         SendLine, Fresh, NoSilence, CallbackLine, Cleared;
    match e {
      case Receives(k, m, channel, downgraded, gate, now, delayMs) => ReceiveLine(cfg, w, k, m, channel, downgraded, gate, now, delayMs);
      case BufferFires(k) =>
        var w1 := w.(buffer := w.buffer - {k});
        StartsOnLine(w, k);
        LineStays(w, w, w1, k, LineState(false, StallAttempts(w, k.line)));
        ProcessStays(w1, k);
        LineStays(w, w1, ProcessBuffer(w1, k), k, LineState(false, StallAttempts(w, k.line)));
      case ChatReturns(k, reply, now, delayMs, results) => ReplyLine(cfg, w, k, reply, now, delayMs, results);
      case StatusArrives(c, results) => StatusLine(cfg, w, c, results);
      case TimeoutFires(h, results) =>
        TimeoutAdvances(cfg, w, h, results);
        StartsOnLine(w, w.delivery[h]);
        AdvanceQueueLine(cfg, w, w, w.delivery[h], w.records[w.delivery[h]], h, TimedOut, results,
                         LineState(false, StallAttempts(w, w.delivery[h].line)));
      case RetryFires(k, results) => RetryLine(cfg, w, k, results);
      case StallFires(l, results) => StallLine(cfg, w, l, results);
    }
  }

  // --- which steps strand ------------------------------------------------

  // The step takes the line's stall timer from another conversation.
  predicate TakesForeignTimer(cfg: Config, w: World, e: Event) {
    Actor(w, e).Some? && ForeignStall(w, Actor(w, e).value) && StepLine(cfg, w, e).taken
  }

  // Any step strands a conversation if and only if it does.
  lemma StrandsOnlyByTaking(cfg: Config, w: World, e: Event)
    requires Inv(cfg, w) && Allowed(w, e) && NoneStranded(w)
    ensures NoneStranded(Step(cfg, w, e)) <==> !TakesForeignTimer(cfg, w, e)
  {
    hide Inv, Step, Allowed, NoneStranded, Actor, StepLine;
    StepWithin(cfg, w, e);
    if Actor(w, e).Some? {
      StrandsExactlyWhen(cfg, w, e);
      StepLineIsRight(cfg, w, e);
    }
  }

  // The steps that take the timer whatever their sends meet: a timeout, an
  // interruption, a failed chat call, a silent reply, a confirmation, a final
  // failure, and every other SMS-limit callback, which arms it anew.
  predicate ClearsLine(cfg: Config, w: World, e: Event) {
    match e
    case TimeoutFires(h, _) => h in w.delivery
    case Receives(k, m, _, _, gate, now, _) =>
      gate == Accepted && !ClaimHolds(w, m.handle, now) && k in w.records && w.records[k].state == Sending
    case ChatReturns(k, reply, _, _, _) =>
      && k in w.chats && k in w.records
      && (|| reply.Failed?
          || (reply.actions == []
              && (w.records[k].lateArrivals == [] || w.records[k].reprocessCount >= cfg.maxReprocessAttempts)))
    case StatusArrives(c, _) =>
      && c.handle in w.mapping && w.mapping[c.handle].key in w.records
      && var k := w.mapping[c.handle].key;
      && w.records[k].state == Sending
      && var r := ApplyChannel(w.records[k], ChannelFromStatus(c, w.records[k].channel), c.downgraded);
      && (|| c.status == SuccessStatus(r)
          || (c.status in {ERROR, DECLINED}
              && (FailureIsFinal(cfg, w, k, r, c) || ClassifyStatusErrorCode(c.errorCode) == SmsLimited)))
    case _ => false
  }

  // For these steps it is enough to know who holds the timer.
  lemma ClearingStrandsExactlyWhen(cfg: Config, w: World, e: Event)
    requires Inv(cfg, w) && Allowed(w, e) && NoneStranded(w) && ClearsLine(cfg, w, e)
    ensures NoneStranded(Step(cfg, w, e)) <==> !(Actor(w, e).Some? && ForeignStall(w, Actor(w, e).value))
  {
    hide Inv, Step, Allowed, NoneStranded, StepLine, ClearsLine;
    StrandsOnlyByTaking(cfg, w, e);
    if Actor(w, e).Some? && ForeignStall(w, Actor(w, e).value) {
      StallsNeedScheduler(cfg, w, Actor(w, e).value.line);
      ClearingTakes(cfg, w, e);
    }
  }

  lemma ClearingTakes(cfg: Config, w: World, e: Event)
    requires Inv(cfg, w) && ClearsLine(cfg, w, e) && cfg.stallScheduler
    ensures StepLine(cfg, w, e).taken
  {
    hide Inv, SendLine, FailureIsFinal, ClassifyStatusErrorCode;
    match e {
      case TimeoutFires(h, results) =>
        TimeoutAdvances(cfg, w, h, results);
        var k := w.delivery[h];
        StaysTaken(cfg, k, w.records[k], w.records[k].index + 1, results, Cleared(cfg, LineState(false, StallAttempts(w, k.line))));
      case StatusArrives(c, results) =>
        var k := w.mapping[c.handle].key;
        var r := ApplyChannel(w.records[k], ChannelFromStatus(c, w.records[k].channel), c.downgraded);
        StaysTaken(cfg, k, r, r.index + 1, results, Cleared(cfg, LineState(false, StallAttempts(w, k.line))));
      case _ =>
    }
  }

  lemma {:induction false} StaysTaken(cfg: Config, k: Key, r: Record, i: nat, results: Results, s: LineState)
    requires s.taken
    ensures SendLine(cfg, k, r, i, results, s).taken
    decreases |r.queue| - i
  {
    hide Unsendable, Judge;
    if i < |r.queue| {
      StaysTaken(cfg, k, r, i + 1, results, s);
      StaysTaken(cfg, k, r, i + 1, results, Cleared(cfg, s));
      StaysTaken(cfg, k, r, i + 1, results, s.(count := 0));
    }
  }

  ghost predicate NeverStranded(cfg: Config, w: World, es: seq<Event>)
    decreases |es|
  {
    NoneStranded(w) && (es != [] ==> NeverStranded(cfg, Step(cfg, w, es[0]), es[1..]))
  }

  predicate NoTimerTaken(cfg: Config, w: World, es: seq<Event>)
    decreases |es|
  {
    es != [] ==> !TakesForeignTimer(cfg, w, es[0]) && NoTimerTaken(cfg, Step(cfg, w, es[0]), es[1..])
  }

  // And a run leaves nobody stranded at any time if and only if none of its
  // steps takes the timer from another conversation.
  lemma {:induction false} NeverStrandedExactlyWhen(cfg: Config, w: World, es: seq<Event>)
    requires Inv(cfg, w) && AllowedRun(cfg, w, es) && NoneStranded(w)
    ensures NeverStranded(cfg, w, es) <==> NoTimerTaken(cfg, w, es)
    decreases |es|
  {
    hide Inv, Step, Allowed, NoneStranded, TakesForeignTimer;
    if es != [] {
      StepKeeps(cfg, w, es[0]);
      StrandsOnlyByTaking(cfg, w, es[0]);
      if NoneStranded(Step(cfg, w, es[0])) {
        NeverStrandedExactlyWhen(cfg, Step(cfg, w, es[0]), es[1..]);
      } else {
        StrandedNow(cfg, Step(cfg, w, es[0]), es[1..]);
      }
    }
  }

  lemma StrandedNow(cfg: Config, w: World, es: seq<Event>)
    requires !NoneStranded(w)
    ensures !NeverStranded(cfg, w, es)
  {
  }
}
