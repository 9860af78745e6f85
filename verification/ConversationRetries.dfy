// Retries: a stale one does nothing, and no item is sent too often.
module ConversationRetries {
  import opened Wrappers
  import opened StatusTracker
  import opened ErrorClass
  import opened ConversationTypes
  import opened History
  import opened ConversationModel
  import opened ConversationInvariant
  import opened ConversationSteps
  import opened ConversationEffects
  import opened ConversationRuns

  // --- stale retries -----------------------------------------------------

  // The conversation has moved past the item with this id: its queue went on,
  // ended, or was replaced by a later turn's.
  ghost predicate Behind(w: World, k: Key, id: ItemId) {
    && k in w.records
    && var stamp := HistoryOf(w, k).stamp;
    && (id.stamp < stamp
        || (id.stamp == stamp && (w.records[k].state != Sending || id.position < w.records[k].index)))
  }

  // Nothing goes back: the stamp grows, or the queue only moves on or ends.
  ghost predicate Forward(w: World, w': World, k: Key) {
    && k in w.records && k in w'.records
    && var s, s' := HistoryOf(w, k).stamp, HistoryOf(w', k).stamp;
    && (s < s' || (s == s' && (w'.records[k].state == Sending ==>
                                 w.records[k].state == Sending && w.records[k].index <= w'.records[k].index)))
  }

  lemma SkipFacts(w: World, k: Key, r: Record)
    requires r.index < |r.queue|
    ensures Skip(w, k, r).records == w.records[k := SkipRecord(r)]
    ensures HistoryOf(Skip(w, k, r), k).stamp == HistoryOf(w, k).stamp
    ensures SkipRecord(r).state == r.state && SkipRecord(r).index == r.index + 1 && |SkipRecord(r).queue| == |r.queue|
  {
  }

  lemma AttemptFacts(w: World, k: Key, r: Record, answer: SendResult)
    requires r.index < |r.queue|
    ensures Attempted(w, k, r, answer).records == w.records
    ensures HistoryOf(Attempted(w, k, r, answer), k).stamp == HistoryOf(w, k).stamp
  {
    hide Attempt;
  }

  lemma AdvanceFacts(cfg: Config, w: World, k: Key, r: Record, ending: Ending)
    ensures Advance(cfg, w, k, r, ending).records == w.records[k := AdvanceRecord(r)]
    ensures HistoryOf(Advance(cfg, w, k, r, ending), k).stamp == HistoryOf(w, k).stamp
    ensures AdvanceRecord(r).state == r.state && AdvanceRecord(r).index == r.index + 1
    ensures |AdvanceRecord(r).queue| == |r.queue|
  {
  }

  lemma ArmFacts(w: World, k: Key, r: Record, attempts: nat, h: Handle)
    requires r.index < |r.queue|
    ensures ArmRetry(w, k, r, attempts).records == w.records[k := RetryRecord(r, attempts)]
    ensures ArmRetry(w, k, r, attempts).history == w.history && RetryRecord(r, attempts).index == r.index
    ensures AwaitStatus(w, k, r, h).records == w.records[k := SentRecord(r, Some(h))]
    ensures AwaitStatus(w, k, r, h).history == w.history && SentRecord(r, Some(h)).index == r.index
    ensures ArmStall(w, k, Current(r)).records == w.records && ArmStall(w, k, Current(r)).history == w.history
  {
  }

  ghost predicate MovesOn(w: World, w': World, k: Key, from: nat) {
    && k in w'.records && HistoryOf(w', k).stamp == HistoryOf(w, k).stamp
    && (w'.records[k].state == Sending ==> from <= w'.records[k].index)
  }

  lemma {:induction false} SendFromForward(cfg: Config, w: World, k: Key, r: Record, results: Results)
    requires k in w.records && w.records[k] == r && r.state == Sending
    ensures MovesOn(w, SendFrom(cfg, w, k, r, results), k, r.index)
    decreases |r.queue| - r.index, 1
  {
    hide Unsendable, AfterAttempt, ToIdle, Skip, SkipRecord, Attempted, HistoryOf;
    if r.index >= |r.queue| {
      IdleForward(cfg, w, k, r);
      HistoryIs(w, ToIdle(cfg, w, k, r), k);
    } else {
      SkipFacts(w, k, r);
      AttemptFacts(w, k, r, results(r.index));
      if Unsendable(cfg, k, r, Current(r).action) {
        SendFromForward(cfg, Skip(w, k, r), k, SkipRecord(r), results);
      } else {
        AttemptForward(cfg, Attempted(w, k, r, results(r.index)), k, r, results);
      }
    }
  }

  lemma {:induction false} AttemptForward(cfg: Config, w: World, k: Key, r: Record, results: Results)
    requires k in w.records && w.records[k] == r && r.state == Sending && r.index < |r.queue|
    ensures MovesOn(w, AfterAttempt(cfg, w, k, r, results), k, r.index)
    decreases |r.queue| - r.index, 0
  {
    hide SendFrom, CanStall, ClassifyError, Skip, SkipRecord, Advance, AdvanceRecord, ArmRetry, ArmStall, AwaitStatus, RetryRecord, HistoryOf, RefuseStall;
    SkipFacts(w, k, r);
    match Judge(cfg, Current(r), results(r.index)) {
      case InFlight(h) => ArmFacts(w, k, r, 0, h); HistoryIs(w, AwaitStatus(w, k, r, h), k);
      case Fired =>
        var sent := SentRecord(r, None);
        AdvanceFacts(cfg, w, k, sent, Unconfirmed);
        SendFromForward(cfg, Advance(cfg, w, k, sent, Unconfirmed), k, AdvanceRecord(sent), results);
      case Retry(attempts) => ArmFacts(w, k, r, attempts, ""); HistoryIs(w, ArmRetry(w, k, r, attempts), k);
      case TryStall =>
        if CanStall(cfg, w, k.line) {
          ArmFacts(w, k, r, 0, "");
          HistoryIs(w, ArmStall(w, k, Current(r)), k);
        } else {
          var w1 := RefuseStall(cfg, w, k.line);
          RefuseChanges(cfg, w, k);
          HistoryIs(w, w1, k);
          SkipFacts(w1, k, r);
          SendFromForward(cfg, Skip(w1, k, r), k, SkipRecord(r), results);
        }
      case GiveUp => SendFromForward(cfg, Skip(w, k, r), k, SkipRecord(r), results);
    }
  }

  lemma HistoryIs(w: World, w': World, k: Key)
    requires w'.history == w.history
    ensures HistoryOf(w', k) == HistoryOf(w, k)
  {
  }

  lemma IdleForward(cfg: Config, w: World, k: Key, r: Record)
    ensures var w' := ToIdle(cfg, w, k, r);
            k in w'.records && w'.records[k].state == Idle && w'.history == w.history
  {
  }

  lemma ScheduleForward(w: World, k: Key, delayMs: int)
    requires k in w.records && w.records[k].state == Buffering
    ensures var w' := Schedule(w, k, delayMs);
            k in w'.records && w'.records[k].state != Sending && HistoryOf(w', k).stamp == HistoryOf(w, k).stamp
  {
    hide ProcessBuffer, HistoryOf;
    HistoryIs(w, w.(buffer := w.buffer - {k}), k);
    HistoryIs(w, w.(buffer := w.buffer + {k}), k);
    if delayMs <= 0 { ProcessForward(w.(buffer := w.buffer - {k}), k); }
  }

  lemma ProcessForward(w: World, k: Key)
    requires k in w.records
    ensures var w' := ProcessBuffer(w, k);
            && k in w'.records && HistoryOf(w', k).stamp == HistoryOf(w, k).stamp
            && (w'.records[k].state == Sending ==> w'.records[k] == w.records[k])
            && (w.records[k].state == Buffering ==> w'.records[k].state != Sending)
  {
    if w.records[k].state == Buffering {
      if w.records[k].inboundBuffer != [] {
        assert ProcessBuffer(w, k).records == w.records[k := w.records[k].(state := Processing)];
      }
    } else {
      assert ProcessBuffer(w, k) == w;
    }
  }

  lemma RebufferForward(w: World, k: Key, r: Record, h: History, delayMs: int)
    requires r.state == Buffering
    ensures var w' := Schedule(Remember(Persist(w, k, r), k, h), k, delayMs);
            k in w'.records && w'.records[k].state != Sending && HistoryOf(w', k).stamp == h.stamp
  {
    hide Schedule;
    ScheduleForward(Remember(Persist(w, k, r), k, h), k, delayMs);
  }

  lemma {:induction false} EndRestKeepsStamp(h: History, from: nat, ending: Ending)
    ensures EndRest(h, from, ending).stamp == h.stamp
    decreases |h.turn.reply| - from
  {
    if from < |h.turn.reply| { EndRestKeepsStamp(Log(h, Ended(from, ending)), from + 1, ending); }
  }

  lemma AcceptForward(cfg: Config, w: World, k: Key, r: Record, m: Inbound, delayMs: int)
    ensures var w' := AcceptInbound(cfg, w, k, r, m, delayMs);
            k in w'.records && w'.records[k].state != Sending && HistoryOf(w', k).stamp == HistoryOf(w, k).stamp
  {
    hide Schedule, EndRest, ClearStall, ClearCurrent, CancelledSummaries;
    var h := HistoryOf(w, k);
    match r.state {
      case Idle =>
        RebufferForward(w, k, OpenBuffer(r, m).(delivered := [], cancelled := [], reprocessCount := 0), Begin(h, m), delayMs);
      case Buffering => RebufferForward(w, k, BufferMore(r, m), Accept(h, m), delayMs);
      case Processing =>
      case Sending =>
        var w1 := ClearCurrent(ClearStall(cfg, ClearRetry(w, k), k.line), r);
        EndRestKeepsStamp(h, r.index, Cancelled);
        RebufferForward(w1, k, OpenBuffer(r, m).(cancelled := CancelledSummaries(cfg, r)), Begin(EndRest(h, r.index, Cancelled), m), delayMs);
    }
  }

  lemma ReceiveForward(cfg: Config, w: World, k: Key, m: Inbound, channel: Channel, downgraded: bool, gate: Gate,
                       now: int, delayMs: int)
    requires k in w.records
    ensures Forward(w, Receive(cfg, w, k, m, channel, downgraded, gate, now, delayMs), k)
  {
    hide AcceptInbound, PassedOver;
    if !ClaimHolds(w, m.handle, now) {
      var w1 := Claim(cfg, w, m.handle, now);
      PassedOverIs(w1, k, channel, downgraded, gate);
      AcceptForward(cfg, w1, k, ApplyChannel(w.records[k], channel, downgraded), m, delayMs);
    }
  }

  lemma GoneIdle(cfg: Config, w: World, k: Key, h: History, r: Record)
    ensures var w' := ToIdle(cfg, Remember(w, k, h), k, r);
            k in w'.records && w'.records[k].state == Idle && HistoryOf(w', k) == h
  {
    hide ToIdle;
    IdleForward(cfg, Remember(w, k, h), k, r);
  }

  lemma ReplyForward(cfg: Config, w: World, k: Key, reply: ChatResult, now: int, delayMs: int, results: Results)
    requires k in w.records && HistoryOf(w, k).stamp < now && k in w.chats
    ensures Forward(w, ChatReply(cfg, w, k, reply, now, delayMs, results), k)
  {
    hide SendFrom, ToIdle, Schedule, Reprocess, Remember, HistoryOf, StartSending, Persist;
    var w1 := w.(chats := w.chats - {k});
    var h, latest := HistoryOf(w, k), w.records[k];
    HistoryIs(w, w1, k);
    match reply {
      case Failed => GoneIdle(cfg, w1, k, Fail(h), w.chats[k]);
      case Replied(actions) =>
        if latest.lateArrivals != [] && latest.reprocessCount < cfg.maxReprocessAttempts {
          ReprocessForward(w1, k, delayMs);
        } else if actions == [] {
          GoneIdle(cfg, w1, k, Answer(h, h.stamp, []), latest);
        } else {
          StartsSending(latest, actions, now);
          StartForward(cfg, w1, k, StartSending(latest, actions, now), Answer(h, now, actions), results);
        }
    }
  }

  lemma StartsSending(r: Record, actions: seq<QueuedAction>, now: int)
    ensures StartSending(r, actions, now).state == Sending
  {
  }

  lemma ReprocessForward(w: World, k: Key, delayMs: int)
    requires k in w.records
    ensures var w' := Schedule(Persist(w, k, Reprocess(w.records[k])), k, delayMs);
            k in w'.records && w'.records[k].state != Sending && HistoryOf(w', k).stamp == HistoryOf(w, k).stamp
  {
    hide Schedule;
    ScheduleForward(Persist(w, k, Reprocess(w.records[k])), k, delayMs);
  }

  lemma StartForward(cfg: Config, w: World, k: Key, r: Record, h: History, results: Results)
    requires r.state == Sending
    ensures var w' := SendFrom(cfg, Remember(Persist(w, k, r), k, h), k, r, results);
            k in w'.records && HistoryOf(w', k).stamp == h.stamp
  {
    hide SendFrom;
    SendFromForward(cfg, Remember(Persist(w, k, r), k, h), k, r, results);
  }

  lemma AdvanceForward(cfg: Config, w: World, k: Key, r: Record, h: Handle, ending: Ending, results: Results)
    requires r.state == Sending
    ensures var w' := AdvanceQueue(cfg, w, k, r, h, ending, results);
            && k in w'.records && HistoryOf(w', k).stamp == HistoryOf(w, k).stamp
            && (w'.records[k].state == Sending ==> r.index < w'.records[k].index)
  {
    hide SendFrom;
    SendFromForward(cfg, Advance(cfg, ClearHandle(w, h), k, r, ending), k, AdvanceRecord(r), results);
  }

  lemma AbortForward(cfg: Config, w: World, k: Key, r: Record, h: Handle)
    ensures var w' := AbortQueue(cfg, w, k, r, h);
            k in w'.records && HistoryOf(w', k).stamp == HistoryOf(w, k).stamp && w'.records[k].state == Idle
  {
    hide ToIdle, EndRest;
    EndRestKeepsStamp(HistoryOf(w, k), r.index, Aborted);
    IdleForward(cfg, Remember(ClearHandle(w, h), k, EndRest(HistoryOf(w, k), r.index, Aborted)), k, r);
  }

  // The conversation keeps its stamp, and its position if it still sends.
  ghost predicate Stays(w: World, w': World, k: Key, at: nat) {
    && k in w'.records && HistoryOf(w', k).stamp == HistoryOf(w, k).stamp
    && (w'.records[k].state == Sending ==> at == w'.records[k].index)
  }

  lemma FailedForward(cfg: Config, w: World, k: Key, r: Record, c: Callback)
    requires k in w.records
    ensures Stays(w, FailedStatus(cfg, w, k, r, c), k, r.index)
  {
    hide AbortQueue, ClassifyStatusErrorCode, ArmRetry, Stays;
    var category := ClassifyStatusErrorCode(c.errorCode);
    var w1 := ClearHandle(w, c.handle);
    AbortStays(cfg, w, w, k, r, c.handle);
    AbortStays(cfg, w, w1, k, r, c.handle);
    if cfg.limitTracker && category != Permanent && r.index < |r.queue| {
      RearmStays(w, w1, k, r, r.queue[r.index].retryCount + 1);
      RestallStays(cfg, w, w1, k, r, c.handle);
    }
  }

  lemma AbortStays(cfg: Config, w: World, w1: World, k: Key, r: Record, h: Handle)
    requires w1.history == w.history
    ensures Stays(w, AbortQueue(cfg, w1, k, r, h), k, r.index)
  {
    hide AbortQueue;
    AbortForward(cfg, w1, k, r, h);
  }

  lemma RearmStays(w: World, w1: World, k: Key, r: Record, attempts: nat)
    requires w1.history == w.history && r.index < |r.queue|
    ensures Stays(w, ArmRetry(w1, k, r, attempts), k, r.index)
  {
  }

  lemma RestallStays(cfg: Config, w: World, w1: World, k: Key, r: Record, h: Handle)
    requires w1.history == w.history && r.index < |r.queue|
    ensures var r1 := WithCurrent(r, Current(r).(messageHandle := None)).(handle := None);
            var w2 := Persist(w1, k, r1);
            && Stays(w, ArmStall(w2, k, Current(r1)), k, r.index)
            && Stays(w, AbortQueue(cfg, RefuseStall(cfg, w2, k.line), k, r1, h), k, r.index)
  {
    hide AbortQueue;
    var r1 := WithCurrent(r, Current(r).(messageHandle := None)).(handle := None);
    AbortStays(cfg, w, RefuseStall(cfg, Persist(w1, k, r1), k.line), k, r1, h);
  }

  lemma StatusForward(cfg: Config, w: World, c: Callback, results: Results)
    requires c.handle in w.mapping && w.mapping[c.handle].key in w.records
    ensures Forward(w, StatusCallback(cfg, w, c, results), w.mapping[c.handle].key)
  {
    hide FailedStatus, AdvanceQueue;
    var k := w.mapping[c.handle].key;
    if w.records[k].state == Sending {
      var r := ApplyChannel(w.records[k], ChannelFromStatus(c, w.records[k].channel), c.downgraded);
      FailedForward(cfg, w, k, r, c);
      AdvanceForward(cfg, w, k, r, c.handle, Confirmed, results);
    }
  }

  lemma TimeoutForward(cfg: Config, w: World, h: Handle, results: Results)
    requires Inv(cfg, w) && h in w.delivery && w.delivery[h] in w.records
    ensures Forward(w, DeliveryTimeout(cfg, w, h, results), w.delivery[h])
  {
    hide Inv, DeliveryTimeout, AdvanceQueue;
    TimeoutAdvances(cfg, w, h, results);
    AdvanceForward(cfg, w, w.delivery[h], w.records[w.delivery[h]], h, TimedOut, results);
  }

  lemma RetryForward(cfg: Config, w: World, k: Key, results: Results)
    requires Inv(cfg, w) && k in w.retry && k in w.records
    ensures Forward(w, RetryTimer(cfg, w, k, results), k)
  {
    hide Inv, SendFrom;
    ReleaseRetry(cfg, w, k);
    SendFromForward(cfg, ClearRetry(w, k), k, w.records[k], results);
  }

  lemma StallForward(cfg: Config, w: World, l: Line, results: Results)
    requires Inv(cfg, w) && l in w.stalls && w.stalls[l].key in w.records
    ensures Forward(w, StallTimer(cfg, w, l, results), w.stalls[l].key)
  {
    hide Inv, SendFrom;
    ReleaseStall(cfg, w, l);
    var k := w.stalls[l].key;
    SendFromForward(cfg, w.(stalls := w.stalls - {l}), k, w.records[k], results);
  }

  lemma BufferForward(w: World, k: Key)
    requires k in w.records
    ensures Forward(w, BufferTimer(w, k), k)
  {
    hide ProcessBuffer;
    if k in w.buffer { ProcessForward(w.(buffer := w.buffer - {k}), k); }
  }

  lemma StepForward(cfg: Config, w: World, e: Event, k: Key)
    requires Inv(cfg, w) && Allowed(w, e) && k in w.records
    ensures Forward(w, Step(cfg, w, e), k)
  {
    hide Inv, Receive, BufferTimer, ChatReply, StatusCallback, DeliveryTimeout, RetryTimer, StallTimer, Within, Forward, Fresh, NoSilence, HistoryOf;
    StepWithin(cfg, w, e);
    if Actor(w, e) == Some(k) {
      match e {
        case Receives(k, m, channel, downgraded, gate, now, delayMs) => ReceiveForward(cfg, w, k, m, channel, downgraded, gate, now, delayMs);
        case BufferFires(k) => BufferForward(w, k);
        case ChatReturns(k, reply, now, delayMs, results) => ReplyForward(cfg, w, k, reply, now, delayMs, results);
        case StatusArrives(c, results) => StatusForward(cfg, w, c, results);
        case TimeoutFires(h, results) => TimeoutForward(cfg, w, h, results);
        case RetryFires(k, results) => RetryForward(cfg, w, k, results);
        case StallFires(l, results) => StallForward(cfg, w, l, results);
      }
    } else if Actor(w, e).Some? {
      OthersStay(w, Step(cfg, w, e), Actor(w, e).value, k);
      ForwardSelf(w, Step(cfg, w, e), k);
    } else {
      ForwardSelf(w, w, k);
    }
  }

  lemma ForwardSelf(w: World, w': World, k: Key)
    requires k in w.records && k in w'.records && w'.records[k] == w.records[k] && HistoryOf(w', k) == HistoryOf(w, k)
    ensures Forward(w, w', k)
  {
  }

  lemma OthersStay(w: World, w': World, k: Key, o: Key)
    requires Within(w, w', k) && o != k && o in w.records
    ensures o in w'.records && w'.records[o] == w.records[o] && HistoryOf(w', o) == HistoryOf(w, o)
  {
    assert SameConversation(w, w', o);
  }

  lemma {:induction false} RunForward(cfg: Config, w: World, es: seq<Event>, k: Key, id: ItemId)
    requires Inv(cfg, w) && AllowedRun(cfg, w, es) && Behind(w, k, id)
    ensures Behind(Run(cfg, w, es), k, id)
    decreases |es|
  {
    hide Inv, Step, Allowed;
    if es != [] {
      StepKeeps(cfg, w, es[0]);
      StepForward(cfg, w, es[0], k);
      RunForward(cfg, Step(cfg, w, es[0]), es[1..], k, id);
    }
  }

  // The item now being sent is the one its queue position says.
  lemma CurrentId(cfg: Config, w: World, k: Key)
    requires Inv(cfg, w) && k in w.records && w.records[k].state == Sending
    ensures var r := w.records[k];
            r.index < |r.queue| && Current(r).id == ItemId(HistoryOf(w, k).stamp, r.index)
  {
    hide Inv, TurnOk;
    Own(cfg, w, k);
    ConversationFacts(cfg, w, k);
    TurnsOver(cfg, w.records[k], HistoryOf(w, k));
  }

  lemma BehindIsInert(cfg: Config, w: World, k: Key, e: Expected, results: Results)
    requires Inv(cfg, w) && Behind(w, k, e.id)
    ensures RunRetry(cfg, w, k, e, results) == w
  {
    hide Inv, SendFrom;
    if w.records[k].state == Sending { CurrentId(cfg, w, k); }
  }

  // A retry or stall timer captured for the item being sent, in this process or
  // recovered by another: once any run has taken the conversation past that
  // item (by an advance, an interruption or a new turn), firing it changes
  // nothing, then and ever after.
  lemma StaleRetriesAreInert(cfg: Config, w0: World, es: seq<Event>, later: seq<Event>, k: Key, e: Expected, results: Results)
    requires Inv(cfg, w0) && AllowedRun(cfg, w0, es)
    requires k in w0.records && w0.records[k].state == Sending && w0.records[k].index < |w0.records[k].queue|
    requires e.id == Current(w0.records[k]).id
    requires AllowedRun(cfg, Run(cfg, w0, es), later)
    ensures var w := Run(cfg, w0, es);
            || (&& k in w.records && w.records[k].state == Sending && w.records[k].index == w0.records[k].index
                && HistoryOf(w, k).stamp == HistoryOf(w0, k).stamp)
            || RunRetry(cfg, Run(cfg, w, later), k, e, results) == Run(cfg, w, later)
  {
    hide Inv, RunRetry;
    var w := Run(cfg, w0, es);
    CurrentId(cfg, w0, k);
    RunKeeps(cfg, w0, es);
    RunMovesOn(cfg, w0, es, k);
    if Behind(w, k, e.id) {
      RunForward(cfg, w, later, k, e.id);
      RunKeeps(cfg, w, later);
      BehindIsInert(cfg, Run(cfg, w, later), k, e, results);
    }
  }

  lemma {:induction false} RunMovesOn(cfg: Config, w: World, es: seq<Event>, k: Key)
    requires Inv(cfg, w) && AllowedRun(cfg, w, es) && k in w.records
    ensures Forward(w, Run(cfg, w, es), k)
    decreases |es|
  {
    hide Inv, Step, Allowed;
    if es != [] {
      StepKeeps(cfg, w, es[0]);
      StepForward(cfg, w, es[0], k);
      RunMovesOn(cfg, Step(cfg, w, es[0]), es[1..], k);
    }
  }

  // --- redelivered webhooks ----------------------------------------------

  // A message whose handle was claimed until some time is ignored whenever it is
  // delivered again before that time, however long the run in between.
  lemma {:induction false} RedeliveriesAreIgnored(cfg: Config, w: World, es: seq<Event>, e: Event)
    requires Inv(cfg, w) && AllowedRun(cfg, w, es) && e.Receives? && ClaimHolds(w, e.message.handle, e.now)
    ensures Step(cfg, Run(cfg, w, es), e) == Run(cfg, w, es)
    decreases |es|
  {
    hide Inv, Allowed, AcceptInbound;
    if es != [] {
      StepKeeps(cfg, w, es[0]);
      ClaimStays(cfg, w, es[0], e.message.handle, e.now);
      RedeliveriesAreIgnored(cfg, Step(cfg, w, es[0]), es[1..], e);
    }
  }

  lemma ClaimStays(cfg: Config, w: World, e: Event, h: Handle, now: int)
    requires Inv(cfg, w) && Allowed(w, e) && ClaimHolds(w, h, now)
    ensures ClaimHolds(Step(cfg, w, e), h, now)
  {
    hide Inv, Step, Agree, Stranded, NewHandles;
    StepWithin(cfg, w, e);
  }

  // Accepting a message claims its handle for the whole dedupe period.
  lemma ReceivingClaims(cfg: Config, w: World, e: Event)
    requires Inv(cfg, w) && Allowed(w, e) && e.Receives? && !ClaimHolds(w, e.message.handle, e.now)
    ensures var w' := Step(cfg, w, e);
            forall later :: later < e.now + cfg.dedupeTtlMs ==> ClaimHolds(w', e.message.handle, later)
  {
    hide Inv, Receive, Agree, NewHandles, Within;
    ReceiveWithin(cfg, w, e.key, e.message, e.channel, e.downgraded, e.gate, e.now, e.delayMs);
  }
}
