// No inbound message is lost or counted twice: over a whole run the turns of a
// conversation hold exactly the messages it accepted, in order, and every chat
// request carries all the messages its turn had accepted when it was made.
module ConversationMessages {
  import opened Wrappers
  import opened StatusTracker
  import opened ErrorClass
  import opened ConversationTypes
  import opened History
  import opened ConversationModel
  import opened ConversationInvariant
  import opened ConversationSteps
  import opened ConversationEffects
  import opened ConversationRuns
  import opened ConversationRetries

  // The messages and the requests of a sequence of turns, and of a whole history.
  function Joined(turns: seq<Turn>): seq<Inbound> {
    if turns == [] then [] else Joined(turns[..|turns| - 1]) + turns[|turns| - 1].accepted
  }

  function AllAccepted(h: History): seq<Inbound> {
    Joined(h.past) + h.turn.accepted
  }

  function JoinedRequests(turns: seq<Turn>): seq<seq<Inbound>> {
    if turns == [] then [] else JoinedRequests(turns[..|turns| - 1]) + turns[|turns| - 1].requests
  }

  function AllRequests(h: History): seq<seq<Inbound>> {
    JoinedRequests(h.past) + h.turn.requests
  }

  // The message an event has this conversation accept, if any.
  function Accepts(w: World, e: Event, k: Key): seq<Inbound> {
    match e
    case Receives(k', m, _, _, gate, now, _) =>
      if k' == k && gate == Accepted && !ClaimHolds(w, m.handle, now) then [m] else []
    case _ => []
  }

  function Arrivals(cfg: Config, w: World, es: seq<Event>, k: Key): seq<Inbound>
    decreases |es|
  {
    if es == [] then [] else Accepts(w, es[0], k) + Arrivals(cfg, Step(cfg, w, es[0]), es[1..], k)
  }

  lemma BeginAdds(h: History, m: Inbound)
    ensures AllAccepted(Begin(h, m)) == AllAccepted(h) + [m]
    ensures (h.turn.accepted == [] ==> h.turn.requests == []) ==> AllRequests(Begin(h, m)) == AllRequests(h)
  {
    if h.turn.accepted != [] {
      assert (h.past + [h.turn])[..|h.past|] == h.past;
    }
  }

  // --- what leaves the messages alone ------------------------------------

  ghost predicate SameMessages(h: History, h': History) {
    h'.past == h.past && h'.turn.accepted == h.turn.accepted
  }

  // Neither a message nor a request is added.
  ghost predicate Quietly(h: History, h': History) {
    SameMessages(h, h') && h'.turn.requests == h.turn.requests
  }

  ghost predicate Keeps(w: World, w': World, k: Key) {
    Quietly(HistoryOf(w, k), HistoryOf(w', k))
  }

  // At most one request is added, and it carries everything accepted so far.
  ghost predicate MayAsk(h: History, h': History) {
    && SameMessages(h, h')
    && (h'.turn.requests == h.turn.requests || h'.turn.requests == h.turn.requests + [h'.turn.accepted])
  }

  // A conversation that collects messages holds all its turn accepted.
  ghost predicate Whole(w: World, k: Key) {
    k in w.records && w.records[k].state == Buffering ==> w.records[k].inboundBuffer == HistoryOf(w, k).turn.accepted
  }

  lemma KeepsTrans(w: World, w1: World, w2: World, k: Key)
    requires Keeps(w, w1, k) && Keeps(w1, w2, k)
    ensures Keeps(w, w2, k)
  {
  }

  lemma KeepsWhen(w: World, w': World, k: Key, h: History)
    requires w'.history == w.history[k := h] && Quietly(HistoryOf(w, k), h)
    ensures Keeps(w, w', k)
  {
  }

  lemma {:induction false} EndRestKeeps(h: History, from: nat, ending: Ending)
    ensures Quietly(h, EndRest(h, from, ending))
    decreases |h.turn.reply| - from
  {
    if from < |h.turn.reply| { EndRestKeeps(Log(h, Ended(from, ending)), from + 1, ending); }
  }

  lemma LittleKeeps(cfg: Config, w: World, k: Key, r: Record, ending: Ending)
    ensures r.index < |r.queue| ==> Keeps(w, Skip(w, k, r), k)
    ensures Keeps(w, Advance(cfg, w, k, r, ending), k)
    ensures SkipRecordMovesOn(r) && AdvanceRecord(r).index == r.index + 1 && |AdvanceRecord(r).queue| == |r.queue|
  {
    hide Attempt;
  }

  lemma RequestKeeps(w: World, k: Key, r: Record, answer: SendResult)
    requires r.index < |r.queue|
    ensures Keeps(w, Attempted(w, k, r, answer), k)
  {
    hide Attempt;
  }

  predicate SkipRecordMovesOn(r: Record) {
    r.index < |r.queue| ==> SkipRecord(r).index == r.index + 1 && |SkipRecord(r).queue| == |r.queue|
  }

  lemma ProcessAsks(w: World, k: Key)
    requires Whole(w, k)
    ensures MayAsk(HistoryOf(w, k), HistoryOf(ProcessBuffer(w, k), k))
  {
  }

  lemma ScheduleAsks(w: World, k: Key, delayMs: int)
    requires Whole(w, k)
    ensures MayAsk(HistoryOf(w, k), HistoryOf(Schedule(w, k, delayMs), k))
  {
    hide ProcessBuffer;
    ProcessAsks(w.(buffer := w.buffer - {k}), k);
  }

  lemma {:induction false} SendFromKeeps(cfg: Config, w: World, k: Key, r: Record, results: Results)
    ensures Keeps(w, SendFrom(cfg, w, k, r, results), k)
    decreases if r.index < |r.queue| then |r.queue| - r.index else 0, 1
  {
    hide Unsendable, Attempted, Skip, SkipRecord, AfterAttempt, ToIdle, Advance, AdvanceRecord, Keeps;
    LittleKeeps(cfg, w, k, r, Unconfirmed);
    if r.index >= |r.queue| {
      ToIdleKeeps(cfg, w, k, r);
    } else if Unsendable(cfg, k, r, Current(r).action) {
      SendFromKeeps(cfg, Skip(w, k, r), k, SkipRecord(r), results);
      KeepsTrans(w, Skip(w, k, r), SendFrom(cfg, w, k, r, results), k);
    } else {
      var w1 := Attempted(w, k, r, results(r.index));
      RequestKeeps(w, k, r, results(r.index));
      AttemptKeeps(cfg, w1, k, r, results);
      KeepsTrans(w, w1, SendFrom(cfg, w, k, r, results), k);
    }
  }

  lemma {:induction false} AttemptKeeps(cfg: Config, w: World, k: Key, r: Record, results: Results)
    requires r.index < |r.queue|
    ensures Keeps(w, AfterAttempt(cfg, w, k, r, results), k)
    decreases |r.queue| - r.index, 0
  {
    hide SendFrom, Skip, SkipRecord, Advance, AdvanceRecord, ClassifyError, CanStall, Keeps, ArmStall, ArmRetry, AwaitStatus, RefuseStall;
    var w' := AfterAttempt(cfg, w, k, r, results);
    WaitingKeeps(cfg, w, k, r);
    LittleKeeps(cfg, w, k, r, Unconfirmed);
    match Judge(cfg, Current(r), results(r.index)) {
      case Fired =>
        var sent := SentRecord(r, None);
        LittleKeeps(cfg, w, k, sent, Unconfirmed);
        SendFromKeeps(cfg, Advance(cfg, w, k, sent, Unconfirmed), k, AdvanceRecord(sent), results);
        KeepsTrans(w, Advance(cfg, w, k, sent, Unconfirmed), w', k);
      case TryStall =>
        var w1 := RefuseStall(cfg, w, k.line);
        LittleKeeps(cfg, w1, k, r, Unconfirmed);
        SendFromKeeps(cfg, Skip(w1, k, r), k, SkipRecord(r), results);
        KeepsTrans(w, w1, Skip(w1, k, r), k);
        KeepsTrans(w, Skip(w1, k, r), SendFrom(cfg, Skip(w1, k, r), k, SkipRecord(r), results), k);
      case GiveUp =>
        SendFromKeeps(cfg, Skip(w, k, r), k, SkipRecord(r), results);
        KeepsTrans(w, Skip(w, k, r), w', k);
      case _ =>
    }
  }

  lemma WaitingKeeps(cfg: Config, w: World, k: Key, r: Record)
    requires r.index < |r.queue|
    ensures forall h {:trigger AwaitStatus(w, k, r, h)} :: Keeps(w, AwaitStatus(w, k, r, h), k)
    ensures forall attempts {:trigger ArmRetry(w, k, r, attempts)} :: Keeps(w, ArmRetry(w, k, r, attempts), k)
    ensures Keeps(w, ArmStall(w, k, Current(r)), k) && Keeps(w, RefuseStall(cfg, w, k.line), k)
  {
    hide Keeps, AwaitStatus, ArmRetry, ArmStall, RefuseStall, HistoryOf;
    forall h ensures Keeps(w, AwaitStatus(w, k, r, h), k) {
      ArmFacts(w, k, r, 0, h);
      SameHistoryKeeps(w, AwaitStatus(w, k, r, h), k);
    }
    forall attempts ensures Keeps(w, ArmRetry(w, k, r, attempts), k) {
      ArmFacts(w, k, r, attempts, "");
      SameHistoryKeeps(w, ArmRetry(w, k, r, attempts), k);
    }
    ArmFacts(w, k, r, 0, "");
    SameHistoryKeeps(w, ArmStall(w, k, Current(r)), k);
    RefuseChanges(cfg, w, k);
    SameHistoryKeeps(w, RefuseStall(cfg, w, k.line), k);
  }

  lemma ToIdleKeeps(cfg: Config, w: World, k: Key, r: Record)
    ensures Keeps(w, ToIdle(cfg, w, k, r), k)
  {
    hide Keeps;
    IdleForward(cfg, w, k, r);
    SameHistoryKeeps(w, ToIdle(cfg, w, k, r), k);
  }

  lemma SameHistoryKeeps(w: World, w': World, k: Key)
    requires w'.history == w.history
    ensures Keeps(w, w', k)
  {
  }

  lemma AdvanceQueueKeeps(cfg: Config, w: World, k: Key, r: Record, h: Handle, ending: Ending, results: Results)
    ensures Keeps(w, AdvanceQueue(cfg, w, k, r, h, ending, results), k)
  {
    hide SendFrom, Advance, AdvanceRecord, Keeps;
    var w1 := ClearHandle(w, h);
    SameHistoryKeeps(w, w1, k);
    LittleKeeps(cfg, w1, k, r, ending);
    KeepsTrans(w, w1, Advance(cfg, w1, k, r, ending), k);
    SendFromKeeps(cfg, Advance(cfg, w1, k, r, ending), k, AdvanceRecord(r), results);
    KeepsTrans(w, Advance(cfg, w1, k, r, ending), AdvanceQueue(cfg, w, k, r, h, ending, results), k);
  }

  lemma AbortKeeps(cfg: Config, w: World, w1: World, k: Key, r: Record, h: Handle)
    requires w1.history == w.history
    ensures Keeps(w, AbortQueue(cfg, w1, k, r, h), k)
  {
    hide ToIdle, EndRest;
    var w2 := Remember(ClearHandle(w1, h), k, EndRest(HistoryOf(w1, k), r.index, Aborted));
    EndRestKeeps(HistoryOf(w1, k), r.index, Aborted);
    IdleForward(cfg, w2, k, r);
  }

  lemma FailedKeeps(cfg: Config, w: World, k: Key, r: Record, c: Callback)
    ensures Keeps(w, FailedStatus(cfg, w, k, r, c), k)
  {
    hide AbortQueue, ClassifyStatusErrorCode, ArmRetry, ArmStall, CanStall, RefuseStall, Keeps;
    var w1 := ClearHandle(w, c.handle);
    SameHistoryKeeps(w, w1, k);
    AbortKeeps(cfg, w, w, k, r, c.handle);
    AbortKeeps(cfg, w, w1, k, r, c.handle);
    if r.index < |r.queue| {
      WaitingKeeps(cfg, w1, k, r);
      KeepsTrans(w, w1, ArmRetry(w1, k, r, r.queue[r.index].retryCount + 1), k);
      var r1 := WithCurrent(r, Current(r).(messageHandle := None)).(handle := None);
      var w2 := Persist(w1, k, r1);
      SameHistoryKeeps(w, w2, k);
      WaitingKeeps(cfg, w2, k, r1);
      KeepsTrans(w, w2, ArmStall(w2, k, Current(r1)), k);
      assert RefuseStall(cfg, w2, k.line).history == w.history by { RefuseChanges(cfg, w2, k); }
      AbortKeeps(cfg, w, RefuseStall(cfg, w2, k.line), k, r1, c.handle);
    }
  }

  lemma StatusMessages(cfg: Config, w: World, c: Callback, results: Results, k: Key)
    requires c.handle in w.mapping && w.mapping[c.handle].key == k
    ensures Keeps(w, StatusCallback(cfg, w, c, results), k)
  {
    hide FailedStatus, AdvanceQueue, Keeps;
    SameHistoryKeeps(w, w, k);
    if k in w.records {
      var r := ApplyChannel(w.records[k], ChannelFromStatus(c, w.records[k].channel), c.downgraded);
      FailedKeeps(cfg, w, k, r, c);
      AdvanceQueueKeeps(cfg, w, k, r, c.handle, Confirmed, results);
      SameHistoryKeeps(w, Persist(w, k, r), k);
    }
  }

  lemma TimeoutMessages(cfg: Config, w: World, h: Handle, results: Results, k: Key)
    requires h in w.delivery && w.delivery[h] == k
    ensures Keeps(w, DeliveryTimeout(cfg, w, h, results), k)
  {
    hide AdvanceQueue, Keeps;
    var w1 := w.(delivery := w.delivery - {h});
    SameHistoryKeeps(w, w1, k);
    if k in w.records {
      AdvanceQueueKeeps(cfg, w1, k, w.records[k], h, TimedOut, results);
      KeepsTrans(w, w1, AdvanceQueue(cfg, w1, k, w.records[k], h, TimedOut, results), k);
    }
  }

  lemma RetryMessages(cfg: Config, w: World, w1: World, k: Key, e: Expected, results: Results)
    requires w1.history == w.history
    ensures Keeps(w, RunRetry(cfg, w1, k, e, results), k)
  {
    hide SendFrom, Keeps;
    SameHistoryKeeps(w, w1, k);
    if k in w1.records {
      SendFromKeeps(cfg, w1, k, w1.records[k], results);
      KeepsTrans(w, w1, SendFrom(cfg, w1, k, w1.records[k], results), k);
    }
  }

  lemma ReplyMessages(cfg: Config, w: World, k: Key, reply: ChatResult, now: int, delayMs: int, results: Results)
    requires k in w.records ==> w.records[k].inboundBuffer + w.records[k].lateArrivals == HistoryOf(w, k).turn.accepted
    ensures MayAsk(HistoryOf(w, k), HistoryOf(ChatReply(cfg, w, k, reply, now, delayMs, results), k))
  {
    hide SendFrom, ToIdle, Schedule, StartSending, Keeps;
    QuietMayAsk(w, w, k);
    if k in w.chats {
      var w1 := w.(chats := w.chats - {k});
      var h := HistoryOf(w1, k);
      SameHistoryKeeps(w, w1, k);
      QuietMayAsk(w, w1, k);
      match reply {
        case Failed =>
          OutcomeKeeps(cfg, w, w1, k, Fail(h), w.chats[k]);
          QuietMayAsk(w, ChatReply(cfg, w, k, reply, now, delayMs, results), k);
        case Replied(actions) =>
          if k in w1.records { TakeMessages(cfg, w1, k, actions, now, delayMs, results); }
      }
    }
  }

  lemma QuietMayAsk(w: World, w': World, k: Key)
    ensures Keeps(w, w', k) || w' == w ==> MayAsk(HistoryOf(w, k), HistoryOf(w', k))
  {
  }

  lemma TakeMessages(cfg: Config, w: World, k: Key, actions: seq<QueuedAction>, now: int, delayMs: int, results: Results)
    requires k in w.records
    requires w.records[k].inboundBuffer + w.records[k].lateArrivals == HistoryOf(w, k).turn.accepted
    ensures MayAsk(HistoryOf(w, k), HistoryOf(TakeReply(cfg, w, k, actions, now, delayMs, results), k))
  {
    hide SendFrom, ToIdle, Schedule, StartSending, Keeps, MayAsk, Reprocess, HistoryOf, Quietly, Persist, Remember;
    var latest, h := w.records[k], HistoryOf(w, k);
    QuietMayAsk(w, TakeReply(cfg, w, k, actions, now, delayMs, results), k);
    if latest.lateArrivals != [] && latest.reprocessCount < cfg.maxReprocessAttempts {
      ReprocessAsks(w, k, delayMs);
    } else if actions == [] {
      AnswersQuietly(h, h.stamp, []);
      OutcomeKeeps(cfg, w, w, k, Answer(h, h.stamp, []), latest);
    } else {
      var r := StartSending(latest, actions, now);
      var w1 := Remember(Persist(w, k, r), k, Answer(h, now, actions));
      StartKeeps(w, k, r, now, actions);
      SendFromKeeps(cfg, w1, k, r, results);
      KeepsTrans(w, w1, SendFrom(cfg, w1, k, r, results), k);
    }
  }

  lemma AnswersQuietly(h: History, stamp: int, actions: seq<QueuedAction>)
    ensures Quietly(h, Answer(h, stamp, actions))
  {
  }

  lemma StartKeeps(w: World, k: Key, r: Record, now: int, actions: seq<QueuedAction>)
    ensures Keeps(w, Remember(Persist(w, k, r), k, Answer(HistoryOf(w, k), now, actions)), k)
  {
  }

  lemma ReprocessAsks(w: World, k: Key, delayMs: int)
    requires k in w.records
    requires w.records[k].inboundBuffer + w.records[k].lateArrivals == HistoryOf(w, k).turn.accepted
    ensures MayAsk(HistoryOf(w, k), HistoryOf(Schedule(Persist(w, k, Reprocess(w.records[k])), k, delayMs), k))
  {
    hide Schedule;
    ScheduleAsks(Persist(w, k, Reprocess(w.records[k])), k, delayMs);
  }

  lemma OutcomeKeeps(cfg: Config, w: World, w1: World, k: Key, h: History, r: Record)
    requires w1.history == w.history && Quietly(HistoryOf(w, k), h)
    ensures Keeps(w, ToIdle(cfg, Remember(w1, k, h), k, r), k)
  {
    hide ToIdle;
    var w2 := Remember(w1, k, h);
    KeepsWhen(w, w2, k, h);
    ToIdleKeeps(cfg, w2, k, r);
  }

  // --- what adds one -----------------------------------------------------

  // One message more, and at most one request, which carries all that the turn
  // has accepted by then.
  ghost predicate Takes(h: History, h': History, messages: seq<Inbound>) {
    && AllAccepted(h') == AllAccepted(h) + messages
    && (|| AllRequests(h') == AllRequests(h)
        || (AllRequests(h') == AllRequests(h) + [h'.turn.accepted]
            && h'.turn.requests != [] && Last(h'.turn.requests) == h'.turn.accepted))
  }

  lemma TakesWhen(h: History, h1: History, h': History, m: Inbound)
    requires AllAccepted(h1) == AllAccepted(h) + [m] && AllRequests(h1) == AllRequests(h) && MayAsk(h1, h')
    ensures Takes(h, h', [m])
  {
    hide Joined, JoinedRequests;
  }

  lemma AcceptTakes(cfg: Config, w: World, k: Key, r: Record, m: Inbound, delayMs: int)
    requires HistoryOf(w, k).turn.accepted == [] ==> HistoryOf(w, k).turn.requests == []
    requires r.state == Buffering ==> r.inboundBuffer == HistoryOf(w, k).turn.accepted
    ensures Takes(HistoryOf(w, k), HistoryOf(AcceptInbound(cfg, w, k, r, m, delayMs), k), [m])
  {
    hide Schedule, EndRest, CancelledSummaries, ClearStall, ClearCurrent, Joined, JoinedRequests, Takes, MayAsk;
    var h, h' := HistoryOf(w, k), HistoryOf(AcceptInbound(cfg, w, k, r, m, delayMs), k);
    BeginAdds(h, m);
    match r.state {
      case Idle =>
        RebufferAsks(w, k, OpenBuffer(r, m).(delivered := [], cancelled := [], reprocessCount := 0), Begin(h, m), delayMs);
        TakesWhen(h, Begin(h, m), h', m);
      case Buffering =>
        RebufferAsks(w, k, BufferMore(r, m), Accept(h, m), delayMs);
        TakesWhen(h, Accept(h, m), h', m);
      case Processing =>
        LateMayAsk(Accept(h, m));
        TakesWhen(h, Accept(h, m), h', m);
      case Sending =>
        EndRestKeeps(h, r.index, Cancelled);
        BeginAdds(EndRest(h, r.index, Cancelled), m);
        RebufferAsks(ClearCurrent(ClearStall(cfg, ClearRetry(w, k), k.line), r), k,
                     OpenBuffer(r, m).(cancelled := CancelledSummaries(cfg, r)), Begin(EndRest(h, r.index, Cancelled), m), delayMs);
        TakesWhen(h, Begin(EndRest(h, r.index, Cancelled), m), h', m);
    }
  }

  lemma LateMayAsk(h: History)
    ensures MayAsk(h, h)
  {
  }

  lemma RebufferAsks(w: World, k: Key, r: Record, h: History, delayMs: int)
    requires r.inboundBuffer == h.turn.accepted
    ensures MayAsk(h, HistoryOf(Schedule(Remember(Persist(w, k, r), k, h), k, delayMs), k))
  {
    hide Schedule;
    ScheduleAsks(Remember(Persist(w, k, r), k, h), k, delayMs);
  }

  // What the invariant says of the messages at hand.
  lemma TurnHoldsMessages(cfg: Config, w: World, k: Key)
    requires Inv(cfg, w)
    ensures var t := HistoryOf(w, k).turn;
            && (t.accepted == [] ==> t.requests == [])
            && (k in w.records && w.records[k].state == Buffering ==> w.records[k].inboundBuffer == t.accepted)
            && (k in w.records && w.records[k].state == Processing ==>
                  w.records[k].inboundBuffer + w.records[k].lateArrivals == t.accepted)
  {
    hide Inv, TurnOk;
    if k in w.records {
      Own(cfg, w, k);
      ConversationFacts(cfg, w, k);
      RecordHoldsMessages(cfg, w.records[k], HistoryOf(w, k));
    } else {
      NothingUnknown(cfg, w, k);
    }
  }

  lemma RecordHoldsMessages(cfg: Config, r: Record, h: History)
    requires TurnOk(cfg, r, h)
    ensures h.turn.accepted == [] ==> h.turn.requests == []
    ensures r.state == Buffering ==> r.inboundBuffer == h.turn.accepted
    ensures r.state == Processing ==> r.inboundBuffer + r.lateArrivals == h.turn.accepted
  {
    hide Growing, AimsAt, QueueOk, Cursor;
    if r.state == Buffering { assert r.inboundBuffer + [] == r.inboundBuffer; }
  }

  lemma ReceiveTakes(cfg: Config, w: World, k: Key, m: Inbound, channel: Channel, downgraded: bool, gate: Gate,
                     now: int, delayMs: int)
    requires Inv(cfg, w)
    ensures Takes(HistoryOf(w, k), HistoryOf(Receive(cfg, w, k, m, channel, downgraded, gate, now, delayMs), k),
                  if gate == Accepted && !ClaimHolds(w, m.handle, now) then [m] else [])
  {
    hide Inv, AcceptInbound, PassedOver, Takes;
    TurnHoldsMessages(cfg, w, k);
    if !ClaimHolds(w, m.handle, now) && gate == Accepted {
      var w1 := Claim(cfg, w, m.handle, now);
      AcceptTakes(cfg, w1, k, ApplyChannel(KnownOrIdle(w1, k), channel, downgraded), m, delayMs);
    } else {
      NothingTaken(HistoryOf(w, k));
    }
  }

  lemma NothingTaken(h: History)
    ensures Takes(h, h, [])
  {
  }

  // --- every step, every run ---------------------------------------------

  lemma StepMessages(cfg: Config, w: World, e: Event, k: Key)
    requires Inv(cfg, w) && Allowed(w, e)
    ensures Takes(HistoryOf(w, k), HistoryOf(Step(cfg, w, e), k), Accepts(w, e, k))
  {
    hide Inv, Receive, ProcessBuffer, ChatReply, StatusCallback, DeliveryTimeout, RunRetry, Within, Fresh, NoSilence, Takes, MayAsk,
         Keeps;
    StepWithin(cfg, w, e);
    TurnHoldsMessages(cfg, w, k);
    NothingTaken(HistoryOf(w, k));
    var w' := Step(cfg, w, e);
    if Actor(w, e) == Some(k) {
      match e {
        case Receives(_, m, channel, downgraded, gate, now, delayMs) => ReceiveTakes(cfg, w, k, m, channel, downgraded, gate, now, delayMs);
        case BufferFires(_) =>
          ProcessAsks(w.(buffer := w.buffer - {k}), k);
          AskedOnly(w, w', k);
        case ChatReturns(_, reply, now, delayMs, results) =>
          PendingIsProcessing(cfg, w, k);
          ReplyMessages(cfg, w, k, reply, now, delayMs, results);
          AskedOnly(w, w', k);
        case StatusArrives(c, results) =>
          StatusMessages(cfg, w, c, results, k);
          QuietMayAsk(w, w', k);
          AskedOnly(w, w', k);
        case TimeoutFires(h, results) =>
          TimeoutMessages(cfg, w, h, results, k);
          QuietMayAsk(w, w', k);
          AskedOnly(w, w', k);
        case RetryFires(_, results) =>
          RetryMessages(cfg, w, ClearRetry(w, k), k, w.retry[k], results);
          QuietMayAsk(w, w', k);
          AskedOnly(w, w', k);
        case StallFires(l, results) =>
          RetryMessages(cfg, w, w.(stalls := w.stalls - {l}), k, w.stalls[l].expected, results);
          QuietMayAsk(w, w', k);
          AskedOnly(w, w', k);
      }
    } else if Actor(w, e).Some? {
      NotMine(w, w', Actor(w, e).value, k);
    }
  }

  lemma PendingIsProcessing(cfg: Config, w: World, k: Key)
    requires Inv(cfg, w) && k in w.chats
    ensures k in w.records ==> w.records[k].state == Processing
  {
    hide Inv, TurnOk;
    if k in w.records { Timers(cfg, w, k); }
  }

  lemma AskedOnly(w: World, w': World, k: Key)
    requires MayAsk(HistoryOf(w, k), HistoryOf(w', k))
    ensures Takes(HistoryOf(w, k), HistoryOf(w', k), [])
  {
    hide Joined, JoinedRequests;
  }

  lemma NotMine(w: World, w': World, k: Key, o: Key)
    requires Within(w, w', k) && o != k
    ensures HistoryOf(w', o) == HistoryOf(w, o)
  {
    assert SameConversation(w, w', o);
  }

  // Over any run, each message a conversation accepted belongs to exactly one of
  // its turns, and together the turns hold them in the order they arrived.
  lemma {:induction false} MessagesAreConserved(cfg: Config, w: World, es: seq<Event>, k: Key)
    requires Inv(cfg, w) && AllowedRun(cfg, w, es)
    ensures AllAccepted(HistoryOf(Run(cfg, w, es), k)) == AllAccepted(HistoryOf(w, k)) + Arrivals(cfg, w, es, k)
    decreases |es|
  {
    hide Inv, Step, Allowed, AllAccepted, AllRequests, Accepts;
    if es != [] {
      StepKeeps(cfg, w, es[0]);
      StepMessages(cfg, w, es[0], k);
      MessagesAreConserved(cfg, Step(cfg, w, es[0]), es[1..], k);
    }
  }

  // What a conversation had accepted in its turn at each moment of a run at
  // which it asked the chat.
  ghost function AcceptedWhenAsked(cfg: Config, w: World, es: seq<Event>, k: Key): seq<seq<Inbound>>
    decreases |es|
  {
    if es == [] then []
    else
      var w' := Step(cfg, w, es[0]);
      (if |AllRequests(HistoryOf(w', k))| > |AllRequests(HistoryOf(w, k))| then [HistoryOf(w', k).turn.accepted] else [])
      + AcceptedWhenAsked(cfg, w', es[1..], k)
  }

  // Over any run, whether the buffer timer fires, a message is scheduled at once
  // or a reply is put off, each chat request is the whole of what the turn had
  // accepted when it was made.
  lemma {:induction false} RequestsCarryEverything(cfg: Config, w: World, es: seq<Event>, k: Key)
    requires Inv(cfg, w) && AllowedRun(cfg, w, es)
    ensures AllRequests(HistoryOf(Run(cfg, w, es), k)) == AllRequests(HistoryOf(w, k)) + AcceptedWhenAsked(cfg, w, es, k)
    decreases |es|
  {
    hide Inv, Step, Allowed, AllAccepted, AllRequests, Accepts;
    if es != [] {
      StepKeeps(cfg, w, es[0]);
      StepMessages(cfg, w, es[0], k);
      RequestsCarryEverything(cfg, Step(cfg, w, es[0]), es[1..], k);
    }
  }
}
