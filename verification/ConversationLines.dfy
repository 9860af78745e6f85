// Conversations that share a line, and the SMS-limit stall timer they share
// with it: when a conversation can be left with nothing to wait for.
module ConversationLines {
  import opened Wrappers
  import opened StatusTracker
  import opened ErrorClass
  import opened ConversationTypes
  import opened History
  import opened ConversationModel
  import opened ConversationInvariant
  import opened ConversationSteps
  import opened ConversationEffects
  import opened ConversationRuns

  lemma StallsNeedScheduler(cfg: Config, w: World, line: Line)
    requires Inv(cfg, w) && line in w.stalls
    ensures cfg.stallScheduler
  {
    hide ConversationOk;
  }

  // No other conversation holds the stall timer of this line.
  predicate LineFree(w: World, k: Key) {
    k.line in w.stalls ==> w.stalls[k.line].key == k
  }

  // --- one conversation per line -----------------------------------------

  // Each line serves one conversation.
  ghost predicate Owned(w: World, owner: map<Line, Key>) {
    forall k :: k in w.records ==> k.line in owner && owner[k.line] == k
  }

  ghost predicate OwnedRun(es: seq<Event>, owner: map<Line, Key>) {
    forall i :: 0 <= i < |es| && es[i].Receives? ==> es[i].key.line in owner && owner[es[i].key.line] == es[i].key
  }

  // Of the events of a run only a received message creates a record.
  lemma RecordsAreReceived(cfg: Config, w: World, e: Event)
    requires Inv(cfg, w) && Allowed(w, e)
    ensures Step(cfg, w, e).records.Keys <= w.records.Keys + (if e.Receives? then {e.key} else {})
  {
    hide Inv, Step, Allowed;
    var w' := Step(cfg, w, e);
    StepWithin(cfg, w, e);
    if Actor(w, e).Some? {
      var k := Actor(w, e).value;
      forall o | o in w'.records && o !in w.records ensures e.Receives? && o == e.key {
        assert o != k ==> SameConversation(w, w', o);
        ActorIsKnown(cfg, w, e);
      }
    }
  }

  lemma ActorIsKnown(cfg: Config, w: World, e: Event)
    requires Inv(cfg, w) && Actor(w, e).Some?
    ensures Actor(w, e).value in w.records || (e.Receives? && e.key == Actor(w, e).value)
  {
    hide Inv, TurnOk;
    if Actor(w, e).value !in w.records {
      NothingUnknown(cfg, w, Actor(w, e).value);
      DeliveriesAreMapped(cfg, w);
    }
  }

  lemma DeliveriesAreMapped(cfg: Config, w: World)
    requires Inv(cfg, w)
    ensures forall h :: h in w.delivery ==> h in w.mapping && w.mapping[h].key == w.delivery[h]
  {
    hide Inv;
    Basics(cfg, w);
    forall h | h in w.delivery ensures h in w.mapping && w.mapping[h].key == w.delivery[h] { assert DeliveryOk(w, h); }
  }

  lemma OwnedIsFree(cfg: Config, w: World, k: Key, owner: map<Line, Key>)
    requires Inv(cfg, w) && Owned(w, owner) && (k in w.records || (k.line in owner && owner[k.line] == k))
    ensures !ForeignStall(w, k)
  {
    hide Inv;
    if k.line in w.stalls { StallIsKnown(cfg, w, k.line); }
  }

  lemma {:induction false} OwnedRunUndisturbed(cfg: Config, w: World, es: seq<Event>, owner: map<Line, Key>)
    requires Inv(cfg, w) && AllowedRun(cfg, w, es) && Owned(w, owner) && OwnedRun(es, owner)
    ensures Undisturbed(cfg, w, es) && Owned(Run(cfg, w, es), owner)
    decreases |es|
  {
    hide Inv, Step, Allowed;
    if es != [] {
      var e, w' := es[0], Step(cfg, w, es[0]);
      StepKeeps(cfg, w, e);
      RecordsAreReceived(cfg, w, e);
      assert Owned(w', owner);
      if Actor(w, e).Some? && ForeignStall(w, Actor(w, e).value) {
        ActorIsKnown(cfg, w, e);
        OwnedIsFree(cfg, w, Actor(w, e).value, owner);
      }
      forall i | 0 <= i < |es[1..]| && es[1..][i].Receives?
        ensures es[1..][i].key.line in owner && owner[es[1..][i].key.line] == es[1..][i].key
      {
        assert es[1..][i] == es[i + 1];
      }
      OwnedRunUndisturbed(cfg, w', es[1..], owner);
    }
  }

  // With one conversation per line, in every state of every run each
  // conversation that is not idle has exactly one thing to wait for.
  lemma OneWakePerConversation(cfg: Config, es: seq<Event>, owner: map<Line, Key>, k: Key)
    requires AllowedRun(cfg, Empty, es) && OwnedRun(es, owner)
    requires k in Run(cfg, Empty, es).records
    ensures var w := Run(cfg, Empty, es);
            WaitsProperly(w, k) && |Wakes(w, k)| == if w.records[k].state == Idle then 0 else 1
  {
    hide Inv, WaitsProperly;
    EmptyInv(cfg);
    RunKeeps(cfg, Empty, es);
    OwnedRunUndisturbed(cfg, Empty, es, owner);
    NeverStrandedUndisturbed(cfg, Empty, es);
    OneWake(cfg, Run(cfg, Empty, es), k);
  }

  // --- no SMS-limit errors -----------------------------------------------

  ghost predicate NoSmsResults(results: Results) {
    forall p: nat :: results(p).Threw? ==> ClassifyError(results(p).error) != SmsLimited
  }

  ghost predicate NoSmsLimit(e: Event) {
    match e
    case ChatReturns(_, _, _, _, results) => NoSmsResults(results)
    case StatusArrives(c, results) => NoSmsResults(results) && ClassifyStatusErrorCode(c.errorCode) != SmsLimited
    case TimeoutFires(_, results) => NoSmsResults(results)
    case RetryFires(_, results) => NoSmsResults(results)
    case StallFires(_, results) => NoSmsResults(results)
    case _ => true
  }

  ghost predicate NoStalls(w: World) {
    w.stalls == map[]
  }

  lemma SkipTouchesNoStall(w: World, k: Key, r: Record, answer: SendResult)
    requires r.index < |r.queue| && NoStalls(w)
    ensures NoStalls(Skip(w, k, r)) && NoStalls(Attempted(w, k, r, answer))
    ensures |SkipRecord(r).queue| == |r.queue| && SkipRecord(r).index == r.index + 1
  {
  }

  lemma AdvanceTouchesNoStall(cfg: Config, w: World, k: Key, r: Record, ending: Ending)
    requires NoStalls(w)
    ensures NoStalls(Advance(cfg, w, k, r, ending))
    ensures |AdvanceRecord(r).queue| == |r.queue| && AdvanceRecord(r).index == r.index + 1
  {
  }

  lemma ToIdleTouchesNoStall(cfg: Config, w: World, k: Key, r: Record)
    requires NoStalls(w)
    ensures NoStalls(ToIdle(cfg, w, k, r))
  {
  }

  lemma ScheduleTouchesNoStall(w: World, k: Key, delayMs: int)
    ensures Schedule(w, k, delayMs).stalls == w.stalls
  {
    hide ProcessBuffer;
    ProcessTouchesNoStall(w.(buffer := w.buffer - {k}), k);
  }

  lemma ProcessTouchesNoStall(w: World, k: Key)
    ensures ProcessBuffer(w, k).stalls == w.stalls
  {
  }

  lemma {:induction false} SendFromArmsNoStall(cfg: Config, w: World, k: Key, r: Record, results: Results)
    requires NoStalls(w) && NoSmsResults(results)
    ensures NoStalls(SendFrom(cfg, w, k, r, results))
    decreases |r.queue| - r.index, 1
  {
    hide Unsendable, Attempted, Skip, SkipRecord, AfterAttempt, ToIdle, NoStalls, NoSmsResults;
    if r.index >= |r.queue| {
      ToIdleTouchesNoStall(cfg, w, k, r);
    } else {
      SkipTouchesNoStall(w, k, r, results(r.index));
      if Unsendable(cfg, k, r, Current(r).action) {
        SendFromArmsNoStall(cfg, Skip(w, k, r), k, SkipRecord(r), results);
      } else {
        AttemptArmsNoStall(cfg, Attempted(w, k, r, results(r.index)), k, r, results);
      }
    }
  }

  lemma {:induction false} AttemptArmsNoStall(cfg: Config, w: World, k: Key, r: Record, results: Results)
    requires NoStalls(w) && NoSmsResults(results) && r.index < |r.queue|
    ensures NoStalls(AfterAttempt(cfg, w, k, r, results))
    decreases |r.queue| - r.index, 0
  {
    hide SendFrom, Skip, SkipRecord, Advance, AdvanceRecord, ClassifyError;
    match Judge(cfg, Current(r), results(r.index)) {
      case Fired =>
        var sent := SentRecord(r, None);
        AdvanceTouchesNoStall(cfg, w, k, sent, Unconfirmed);
        SendFromArmsNoStall(cfg, Advance(cfg, w, k, sent, Unconfirmed), k, AdvanceRecord(sent), results);
      case GiveUp =>
        SkipTouchesNoStall(w, k, r, results(r.index));
        SendFromArmsNoStall(cfg, Skip(w, k, r), k, SkipRecord(r), results);
      case _ =>
    }
  }

  lemma ReceiveArmsNoStall(cfg: Config, w: World, k: Key, m: Inbound, channel: Channel, downgraded: bool, gate: Gate,
                           now: int, delayMs: int)
    requires NoStalls(w)
    ensures NoStalls(Receive(cfg, w, k, m, channel, downgraded, gate, now, delayMs))
  {
    hide AcceptInbound, PassedOver;
    if !ClaimHolds(w, m.handle, now) && gate == Accepted {
      var w1 := Claim(cfg, w, m.handle, now);
      var r := ApplyChannel(KnownOrIdle(w1, k), channel, downgraded);
      AcceptArmsNoStall(cfg, w1, k, r, m, delayMs);
    }
  }

  lemma AcceptArmsNoStall(cfg: Config, w: World, k: Key, r: Record, m: Inbound, delayMs: int)
    requires NoStalls(w)
    ensures NoStalls(AcceptInbound(cfg, w, k, r, m, delayMs))
  {
    hide Schedule, Interrupt, HistoryOf, Begin, Accept, NoStalls;
    var h := HistoryOf(w, k);
    match r.state {
      case Idle =>
        var r1 := OpenBuffer(r, m).(delivered := [], cancelled := [], reprocessCount := 0);
        RewriteTouchesNoStall(w, k, r1, Begin(h, m), delayMs);
      case Buffering => RewriteTouchesNoStall(w, k, BufferMore(r, m), Accept(h, m), delayMs);
      case Processing => RewriteTouchesNoStall(w, k, ArriveLate(r, m), Accept(h, m), delayMs);
      case Sending => InterruptArmsNoStall(cfg, w, k, r, m, delayMs);
    }
  }

  lemma RewriteTouchesNoStall(w: World, k: Key, r: Record, h: History, delayMs: int)
    requires NoStalls(w)
    ensures NoStalls(Remember(Persist(w, k, r), k, h))
    ensures NoStalls(Schedule(Remember(Persist(w, k, r), k, h), k, delayMs))
  {
    hide Schedule;
    ScheduleTouchesNoStall(Remember(Persist(w, k, r), k, h), k, delayMs);
  }

  lemma InterruptArmsNoStall(cfg: Config, w: World, k: Key, r: Record, m: Inbound, delayMs: int)
    requires NoStalls(w)
    ensures NoStalls(Interrupt(cfg, w, k, r, m, delayMs))
  {
    hide Schedule, EndRest, HistoryOf, Begin;
    var w1 := ClearCurrent(ClearStall(cfg, ClearRetry(w, k), k.line), r);
    var r1 := OpenBuffer(r, m).(cancelled := CancelledSummaries(cfg, r));
    ScheduleTouchesNoStall(Remember(Persist(w1, k, r1), k, Begin(EndRest(HistoryOf(w, k), r.index, Cancelled), m)), k, delayMs);
  }

  lemma ReplyArmsNoStall(cfg: Config, w: World, k: Key, reply: ChatResult, now: int, delayMs: int, results: Results)
    requires NoStalls(w) && NoSmsResults(results)
    ensures NoStalls(ChatReply(cfg, w, k, reply, now, delayMs, results))
  {
    hide SendFrom, NoSmsResults, Schedule, ToIdle;
    if k in w.chats {
      var w1 := w.(chats := w.chats - {k});
      var h := HistoryOf(w1, k);
      if reply.Failed? {
        ToIdleTouchesNoStall(cfg, Remember(w1, k, Fail(h)), k, w.chats[k]);
      } else if k in w.records {
        var latest := w.records[k];
        ScheduleTouchesNoStall(Persist(w1, k, Reprocess(latest)), k, delayMs);
        ToIdleTouchesNoStall(cfg, Remember(w1, k, Answer(h, h.stamp, [])), k, latest);
        var r := StartSending(latest, reply.actions, now);
        SendFromArmsNoStall(cfg, Remember(Persist(w1, k, r), k, Answer(h, now, reply.actions)), k, r, results);
      }
    }
  }

  lemma StepArmsNoStall(cfg: Config, w: World, e: Event)
    requires NoStalls(w) && NoSmsLimit(e)
    ensures NoStalls(Step(cfg, w, e))
  {
    hide Receive, ChatReply, StatusCallback, DeliveryTimeout, RetryTimer, NoSmsResults, ClassifyStatusErrorCode;
    match e {
      case Receives(k, m, channel, downgraded, gate, now, delayMs) =>
        ReceiveArmsNoStall(cfg, w, k, m, channel, downgraded, gate, now, delayMs);
      case BufferFires(_) =>
      case ChatReturns(k, reply, now, delayMs, results) => ReplyArmsNoStall(cfg, w, k, reply, now, delayMs, results);
      case StatusArrives(c, results) => StatusArmsNoStall(cfg, w, c, results);
      case TimeoutFires(h, results) => TimeoutArmsNoStall(cfg, w, h, results);
      case RetryFires(k, results) => RetryArmsNoStall(cfg, w, k, results);
      case StallFires(_, _) =>
    }
  }

  lemma TimeoutArmsNoStall(cfg: Config, w: World, h: Handle, results: Results)
    requires NoStalls(w) && NoSmsResults(results)
    ensures NoStalls(DeliveryTimeout(cfg, w, h, results))
  {
    hide AdvanceQueue, NoSmsResults;
    if h in w.delivery && w.delivery[h] in w.records {
      var k := w.delivery[h];
      AdvanceArmsNoStall(cfg, w.(delivery := w.delivery - {h}), k, w.records[k], h, TimedOut, results);
    }
  }

  lemma RetryArmsNoStall(cfg: Config, w: World, k: Key, results: Results)
    requires NoStalls(w) && NoSmsResults(results)
    ensures NoStalls(RetryTimer(cfg, w, k, results))
  {
    hide SendFrom, NoSmsResults;
    if k in w.records { SendFromArmsNoStall(cfg, ClearRetry(w, k), k, w.records[k], results); }
  }

  lemma AdvanceArmsNoStall(cfg: Config, w: World, k: Key, r: Record, h: Handle, ending: Ending, results: Results)
    requires NoStalls(w) && NoSmsResults(results)
    ensures NoStalls(AdvanceQueue(cfg, w, k, r, h, ending, results))
  {
    hide SendFrom, Advance, AdvanceRecord, NoSmsResults;
    AdvanceTouchesNoStall(cfg, ClearHandle(w, h), k, r, ending);
    SendFromArmsNoStall(cfg, Advance(cfg, ClearHandle(w, h), k, r, ending), k, AdvanceRecord(r), results);
  }

  lemma AbortArmsNoStall(cfg: Config, w: World, k: Key, r: Record, h: Handle)
    requires NoStalls(w)
    ensures NoStalls(AbortQueue(cfg, w, k, r, h))
  {
    hide ToIdle, EndRest;
    ToIdleTouchesNoStall(cfg, Remember(ClearHandle(w, h), k, EndRest(HistoryOf(w, k), r.index, Aborted)), k, r);
  }

  lemma StatusArmsNoStall(cfg: Config, w: World, c: Callback, results: Results)
    requires NoStalls(w) && NoSmsResults(results) && ClassifyStatusErrorCode(c.errorCode) != SmsLimited
    ensures NoStalls(StatusCallback(cfg, w, c, results))
  {
    hide AbortQueue, AdvanceQueue, ClassifyStatusErrorCode, NoSmsResults;
    if c.handle in w.mapping && w.mapping[c.handle].key in w.records {
      var k := w.mapping[c.handle].key;
      var r := ApplyChannel(w.records[k], ChannelFromStatus(c, w.records[k].channel), c.downgraded);
      AdvanceArmsNoStall(cfg, w, k, r, c.handle, Confirmed, results);
      AbortArmsNoStall(cfg, w, k, r, c.handle);
      AbortArmsNoStall(cfg, ClearHandle(w, c.handle), k, r, c.handle);
    }
  }

  lemma {:induction false} NoSmsRunUndisturbed(cfg: Config, w: World, es: seq<Event>)
    requires NoStalls(w) && forall i :: 0 <= i < |es| ==> NoSmsLimit(es[i])
    ensures Undisturbed(cfg, w, es)
    decreases |es|
  {
    hide Step, NoSmsLimit, Actor;
    if es != [] {
      StepArmsNoStall(cfg, w, es[0]);
      forall i | 0 <= i < |es[1..]| ensures NoSmsLimit(es[1..][i]) { assert es[1..][i] == es[i + 1]; }
      NoSmsRunUndisturbed(cfg, Step(cfg, w, es[0]), es[1..]);
    }
  }

  // Without SMS-limit errors the same holds for any number of conversations on
  // any lines.
  lemma OneWakeWithoutSmsLimit(cfg: Config, es: seq<Event>, k: Key)
    requires AllowedRun(cfg, Empty, es) && forall i :: 0 <= i < |es| ==> NoSmsLimit(es[i])
    requires k in Run(cfg, Empty, es).records
    ensures var w := Run(cfg, Empty, es);
            WaitsProperly(w, k) && |Wakes(w, k)| == if w.records[k].state == Idle then 0 else 1
  {
    hide Inv, WaitsProperly, NoSmsLimit;
    EmptyInv(cfg);
    RunKeeps(cfg, Empty, es);
    NoSmsRunUndisturbed(cfg, Empty, es);
    NeverStrandedUndisturbed(cfg, Empty, es);
    OneWake(cfg, Run(cfg, Empty, es), k);
  }
}
