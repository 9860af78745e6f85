// How far a step reaches: it changes one conversation and its line's stall
// timer, maps no handle that was ever issued before, and leaves the
// conversation it worked on with something to wait for.
module ConversationEffects {
  import opened Wrappers
  import opened StatusTracker
  import opened ErrorClass
  import opened ConversationTypes
  import opened History
  import opened ConversationModel
  import opened ConversationInvariant
  import opened ConversationSteps

  ghost predicate NewHandles(w: World, w': World) {
    && w.issued <= w'.issued
    && forall h :: h in w'.mapping && h !in w.mapping ==> h !in w.issued
  }

  // What sending on its own writes to the log: requests, skipped items, and
  // items that were sent without a handle to wait for.
  predicate Ordinary(e: Outbound) {
    e.Sent? || e.ending == Skipped || e.ending == Unconfirmed
  }

  ghost predicate LogGrows(h: History, h': History) {
    && h' == h.(turn := h.turn.(log := h'.turn.log))
    && h.turn.log <= h'.turn.log
    && forall i :: |h.turn.log| <= i < |h'.turn.log| ==> Ordinary(h'.turn.log[i])
  }

  // Claims on inbound handles are only ever extended.
  ghost predicate ClaimsGrow(w: World, w': World) {
    forall h :: h in w.claims ==> h in w'.claims && w.claims[h] <= w'.claims[h]
  }

  ghost predicate Reaches(w: World, w': World, k: Key) {
    Agree(w, w', k) && NewHandles(w, w') && ClaimsGrow(w, w')
  }

  ghost predicate Moves(w: World, w': World, k: Key) {
    Reaches(w, w', k) && LogGrows(HistoryOf(w, k), HistoryOf(w', k))
  }

  // A sending conversation that nothing will wake.
  ghost predicate Stranded(w: World, k: Key) {
    && k in w.records && w.records[k].state == Sending && w.records[k].handle == None
    && k !in w.retry && !HoldsStall(w, k)
  }

  predicate HoldsStall(w: World, k: Key) {
    k.line in w.stalls && w.stalls[k.line].key == k
  }

  ghost predicate Tables(w: World) {
    w.mapping.Keys <= w.issued && w.delivery.Keys <= w.mapping.Keys
  }

  lemma AgreeTrans(w: World, w1: World, w2: World, k: Key)
    requires Agree(w, w1, k) && Agree(w1, w2, k)
    ensures Agree(w, w2, k)
  {
    forall o | o != k ensures SameConversation(w, w2, o) {
      assert SameConversation(w, w1, o) && SameConversation(w1, w2, o);
    }
    forall h ensures SameHandle(w, w2, h, k) { assert SameHandle(w, w1, h, k) && SameHandle(w1, w2, h, k); }
    forall l ensures SameLine(w, w2, l, k) { assert SameLine(w, w1, l, k) && SameLine(w1, w2, l, k); }
  }

  lemma LogGrowsTrans(h: History, h1: History, h2: History)
    requires LogGrows(h, h1) && LogGrows(h1, h2)
    ensures LogGrows(h, h2)
  {
  }

  lemma ReachesTrans(w: World, w1: World, w2: World, k: Key)
    requires Reaches(w, w1, k) && Reaches(w1, w2, k)
    ensures Reaches(w, w2, k)
  {
    hide Agree;
    AgreeTrans(w, w1, w2, k);
  }

  lemma MovesTrans(w: World, w1: World, w2: World, k: Key)
    requires Moves(w, w1, k) && Moves(w1, w2, k)
    ensures Moves(w, w2, k)
  {
    hide Reaches, LogGrows;
    ReachesTrans(w, w1, w2, k);
    LogGrowsTrans(HistoryOf(w, k), HistoryOf(w1, k), HistoryOf(w2, k));
  }

  lemma PersistMoves(w: World, k: Key, r: Record)
    ensures Moves(w, Persist(w, k, r), k)
  {
  }

  lemma RememberMoves(w: World, k: Key, h: History)
    requires LogGrows(HistoryOf(w, k), h)
    ensures Moves(w, Remember(w, k, h), k)
  {
    hide LogGrows;
  }

  lemma ClearStallMoves(cfg: Config, w: World, k: Key)
    ensures Moves(w, ClearStall(cfg, w, k.line), k)
  {
  }

  lemma SkipMoves(w: World, k: Key, r: Record)
    requires r.index < |r.queue|
    ensures Moves(w, Skip(w, k, r), k)
    ensures Skip(w, k, r) == w.(records := w.records[k := SkipRecord(r)], history := Skip(w, k, r).history)
  {
    hide Moves;
    var h := Log(HistoryOf(w, k), Ended(r.index, Skipped));
    PersistMoves(w, k, SkipRecord(r));
    RememberMoves(Persist(w, k, SkipRecord(r)), k, h);
    MovesTrans(w, Persist(w, k, SkipRecord(r)), Skip(w, k, r), k);
  }

  lemma AdvanceMoves(cfg: Config, w: World, k: Key, r: Record)
    requires r.index < |r.queue|
    ensures Moves(w, Advance(cfg, w, k, r, Unconfirmed), k)
  {
    hide Moves;
    var h := Log(HistoryOf(w, k), Ended(r.index, Unconfirmed));
    var w1 := ClearStall(cfg, w, k.line);
    ClearStallMoves(cfg, w, k);
    RememberMoves(w1, k, h);
    MovesTrans(w, w1, Remember(w1, k, h), k);
    PersistMoves(Remember(w1, k, h), k, AdvanceRecord(r));
    MovesTrans(w, Remember(w1, k, h), Advance(cfg, w, k, r, Unconfirmed), k);
  }

  lemma AttemptMoves(w: World, k: Key, r: Record, answer: SendResult)
    requires r.index < |r.queue|
    ensures Moves(w, Attempted(w, k, r, answer), k)
    ensures Attempted(w, k, r, answer) == w.(history := Attempted(w, k, r, answer).history)
  {
    hide Moves, Attempt;
    AttemptIsSent(r, answer);
    RememberMoves(w, k, Log(HistoryOf(w, k), Attempt(r, answer)));
  }

  lemma AttemptIsSent(r: Record, answer: SendResult)
    requires r.index < |r.queue|
    ensures Attempt(r, answer).Sent? && Attempt(r, answer).position == r.index
  {
  }

  lemma AwaitMoves(w: World, k: Key, r: Record, h: Handle)
    requires r.index < |r.queue| && Tables(w) && h !in w.issued
    ensures Moves(w, AwaitStatus(w, k, r, h), k) && !Stranded(AwaitStatus(w, k, r, h), k)
  {
    AwaitAgrees(w, k, r, h);
  }

  lemma RetryMoves(w: World, k: Key, r: Record, attempts: nat)
    requires r.index < |r.queue|
    ensures Moves(w, ArmRetry(w, k, r, attempts), k) && !Stranded(ArmRetry(w, k, r, attempts), k)
  {
    hide Agree, RetryRecord;
    RetryAgrees(w, k, r, attempts);
  }

  lemma StallMoves(w: World, k: Key, item: Item)
    ensures Moves(w, ArmStall(w, k, item), k) && !Stranded(ArmStall(w, k, item), k)
  {
  }

  lemma RefuseMoves(cfg: Config, w: World, k: Key)
    ensures Moves(w, RefuseStall(cfg, w, k.line), k)
  {
  }

  lemma ToIdleMoves(cfg: Config, w: World, k: Key, r: Record)
    requires r.handle == None
    ensures Moves(w, ToIdle(cfg, w, k, r), k)
    ensures !Stranded(ToIdle(cfg, w, k, r), k)
  {
    hide Moves;
    var w1 := ClearRetry(w, k);
    var w2 := ClearStall(cfg, w1, k.line);
    ClearRetryMoves(w, k);
    ClearStallMoves(cfg, w1, k);
    MovesTrans(w, w1, w2, k);
    PersistMoves(w2, k, ToIdleRecord(r));
    MovesTrans(w, w2, Persist(w2, k, ToIdleRecord(r)), k);
  }

  lemma ClearRetryMoves(w: World, k: Key)
    ensures Moves(w, ClearRetry(w, k), k)
  {
  }

  lemma SkipLeavesNoHandle(r: Record)
    ensures r.index < |r.queue| ==>
              SkipRecord(r).handle == None && SkipRecord(r).index == r.index + 1 && |SkipRecord(r).queue| == |r.queue|
  {
  }

  lemma AdvanceLeavesNoHandle(r: Record)
    requires r.index < |r.queue|
    ensures var next := AdvanceRecord(SentRecord(r, None));
            next.handle == None && next.index == r.index + 1 && |next.queue| == |r.queue|
  {
  }

  lemma {:induction false} SendFromMoves(cfg: Config, w: World, k: Key, r: Record, results: Results)
    requires Tables(w) && Fresh(w, results) && r.handle == None
    ensures Moves(w, SendFrom(cfg, w, k, r, results), k)
    ensures k in w.records && w.records[k] == r ==> !Stranded(SendFrom(cfg, w, k, r, results), k)
    decreases |r.queue| - r.index, 2
  {
    hide Moves, Unsendable, ToIdle, Stranded, Skip, Attempted, AfterAttempt, SkipRecord, Tables, Fresh, HistoryOf;
    SkipLeavesNoHandle(r);
    if r.index >= |r.queue| {
      ToIdleMoves(cfg, w, k, r);
    } else if Unsendable(cfg, k, r, Current(r).action) {
      SkipOnMoves(cfg, w, k, r, results);
    } else {
      var w1 := Attempted(w, k, r, results(r.index));
      AttemptMoves(w, k, r, results(r.index));
      TablesAlike(w, w1, results);
      SendOneMoves(cfg, w1, k, r, results);
      MovesTrans(w, w1, SendFrom(cfg, w, k, r, results), k);
    }
  }

  lemma TablesAlike(w: World, w': World, results: Results)
    requires Tables(w) && Fresh(w, results)
    requires w'.mapping == w.mapping && w'.delivery == w.delivery && w'.issued == w.issued
    ensures Tables(w') && Fresh(w', results)
  {
  }

  // After the request for the current item was made.
  lemma {:induction false} SendOneMoves(cfg: Config, w: World, k: Key, r: Record, results: Results)
    requires Tables(w) && Fresh(w, results) && r.handle == None && r.index < |r.queue|
    ensures var w' := AfterAttempt(cfg, w, k, r, results);
            Moves(w, w', k) && (k in w.records && w.records[k] == r ==> !Stranded(w', k))
    decreases |r.queue| - r.index, 1
  {
    hide Moves, SendFrom, CanStall, Skip, Advance, RefuseStall, Stranded, ArmStall, ArmRetry, AwaitStatus, ClassifyError, AdvanceRecord;
    AdvanceLeavesNoHandle(r);
    var w' := AfterAttempt(cfg, w, k, r, results);
    match Judge(cfg, Current(r), results(r.index)) {
      case InFlight(h) => AwaitMoves(w, k, r, h);
      case Fired =>
        var sent := SentRecord(r, None);
        AdvanceMoves(cfg, w, k, sent);
        AdvanceChanges(cfg, w, k, sent, Unconfirmed);
        TablesStay(cfg, w, k, sent);
        SendFromMoves(cfg, Advance(cfg, w, k, sent, Unconfirmed), k, AdvanceRecord(sent), results);
        MovesTrans(w, Advance(cfg, w, k, sent, Unconfirmed), w', k);
      case Retry(attempts) => RetryMoves(w, k, r, attempts);
      case TryStall =>
        if CanStall(cfg, w, k.line) {
          StallMoves(w, k, Current(r));
        } else {
          var w1 := RefuseStall(cfg, w, k.line);
          RefuseMoves(cfg, w, k);
          RefuseChanges(cfg, w, k);
          SkipOnMoves(cfg, w1, k, r, results);
          MovesTrans(w, w1, w', k);
        }
      case GiveUp => SkipOnMoves(cfg, w, k, r, results);
    }
  }

  lemma {:induction false} SkipOnMoves(cfg: Config, w: World, k: Key, r: Record, results: Results)
    requires Tables(w) && Fresh(w, results) && r.index < |r.queue|
    ensures var w' := SendFrom(cfg, Skip(w, k, r), k, SkipRecord(r), results);
            Moves(w, w', k) && !Stranded(w', k)
    decreases |r.queue| - r.index, 0
  {
    hide Moves, SendFrom;
    SkipMoves(w, k, r);
    SendFromMoves(cfg, Skip(w, k, r), k, SkipRecord(r), results);
    MovesTrans(w, Skip(w, k, r), SendFrom(cfg, Skip(w, k, r), k, SkipRecord(r), results), k);
  }

  lemma TablesStay(cfg: Config, w: World, k: Key, r: Record)
    requires Tables(w)
    ensures Tables(Advance(cfg, w, k, r, Unconfirmed))
  {
  }

  // --- the handlers ------------------------------------------------------

  lemma RememberReaches(w: World, k: Key, h: History)
    ensures Reaches(w, Remember(w, k, h), k)
  {
  }

  // A handle is the conversation's own, or nobody's.
  ghost predicate OwnHandle(w: World, k: Key, h: Handle) {
    && (h in w.mapping ==> w.mapping[h].key == k)
    && (h in w.delivery ==> w.delivery[h] == k)
  }

  lemma ClearHandleReaches(w: World, k: Key, h: Handle)
    requires OwnHandle(w, k, h)
    ensures Reaches(w, ClearHandle(w, h), k)
  {
  }

  lemma ClearCurrentReaches(w: World, k: Key, r: Record)
    requires r.handle.Some? ==> OwnHandle(w, k, r.handle.value)
    ensures Reaches(w, ClearCurrent(w, r), k)
  {
    hide Reaches;
    if r.handle.Some? { ClearHandleReaches(w, k, r.handle.value); } else { ReachesSelf(w, k); }
  }

  lemma ReachesSelf(w: World, k: Key)
    ensures Reaches(w, w, k)
  {
  }

  lemma ClearRetryReaches(w: World, k: Key)
    ensures Reaches(w, ClearRetry(w, k), k)
  {
  }

  lemma StopTimersReaches(cfg: Config, w: World, k: Key, r: Record)
    requires r.handle.Some? ==> OwnHandle(w, k, r.handle.value)
    ensures Reaches(w, ClearCurrent(ClearStall(cfg, ClearRetry(w, k), k.line), r), k)
  {
    hide Reaches, ClearCurrent;
    var w1 := ClearRetry(w, k);
    ClearRetryReaches(w, k);
    ClearStallMoves(cfg, w1, k);
    ReachesTrans(w, w1, ClearStall(cfg, w1, k.line), k);
    ClearCurrentReaches(ClearStall(cfg, w1, k.line), k, r);
    ReachesTrans(w, ClearStall(cfg, w1, k.line), ClearCurrent(ClearStall(cfg, w1, k.line), r), k);
  }

  lemma GoIdleReaches(cfg: Config, w: World, k: Key, r: Record)
    requires r.handle.Some? ==> OwnHandle(w, k, r.handle.value)
    ensures Reaches(w, ToIdle(cfg, w, k, r), k)
    ensures !Stranded(ToIdle(cfg, w, k, r), k)
  {
    hide Reaches;
    var w1 := ClearCurrent(ClearStall(cfg, ClearRetry(w, k), k.line), r);
    StopTimersReaches(cfg, w, k, r);
    PersistMoves(w1, k, ToIdleRecord(r));
    ReachesTrans(w, w1, ToIdle(cfg, w, k, r), k);
  }

  lemma ProcessBufferReaches(w: World, k: Key)
    ensures Reaches(w, ProcessBuffer(w, k), k)
    ensures k in w.records && w.records[k].state == Buffering ==> !Stranded(ProcessBuffer(w, k), k)
  {
    hide Reaches;
    ReachesSelf(w, k);
    if k in w.records && w.records[k].state == Buffering && w.records[k].inboundBuffer != [] {
      var r := w.records[k].(state := Processing);
      var w1 := Persist(w, k, r);
      var w2 := w1.(chats := w1.chats[k := r]);
      PersistMoves(w, k, r);
      PendingReaches(w1, k, r);
      ReachesTrans(w, w1, w2, k);
      RememberReaches(w2, k, Request(HistoryOf(w1, k), r.inboundBuffer));
      ReachesTrans(w, w2, ProcessBuffer(w, k), k);
    }
  }

  lemma PendingReaches(w: World, k: Key, r: Record)
    ensures Reaches(w, w.(chats := w.chats[k := r]), k)
  {
  }

  lemma ScheduleReaches(w: World, k: Key, delayMs: int)
    ensures Reaches(w, Schedule(w, k, delayMs), k)
    ensures k in w.records && w.records[k].state == Buffering ==> !Stranded(Schedule(w, k, delayMs), k)
  {
    hide Reaches, ProcessBuffer;
    var w1 := w.(buffer := w.buffer - {k});
    BufferReaches(w, w1, k);
    ProcessBufferReaches(w1, k);
    ReachesTrans(w, w1, ProcessBuffer(w1, k), k);
    BufferReaches(w, w.(buffer := w.buffer + {k}), k);
  }

  lemma BufferReaches(w: World, w': World, k: Key)
    requires w' == w.(buffer := w'.buffer)
    requires w'.buffer == w.buffer - {k} || w'.buffer == w.buffer + {k}
    ensures Reaches(w, w', k)
  {
  }

  // Writing a buffering record and scheduling it.
  lemma RebufferReaches(w: World, k: Key, r: Record, h: History, delayMs: int)
    requires r.state == Buffering
    ensures var w' := Schedule(Remember(Persist(w, k, r), k, h), k, delayMs);
            Reaches(w, w', k) && !Stranded(w', k)
  {
    hide Reaches, Schedule, Stranded;
    var w1 := Persist(w, k, r);
    PersistMoves(w, k, r);
    RememberReaches(w1, k, h);
    ReachesTrans(w, w1, Remember(w1, k, h), k);
    ScheduleReaches(Remember(w1, k, h), k, delayMs);
    ReachesTrans(w, Remember(w1, k, h), Schedule(Remember(w1, k, h), k, delayMs), k);
  }

  lemma OwnsCurrent(cfg: Config, w: World, k: Key)
    requires Inv(cfg, w) && k in w.records && w.records[k].handle.Some?
    ensures OwnHandle(w, k, w.records[k].handle.value)
  {
    hide TurnOk, Inv;
    Own(cfg, w, k);
    ConversationFacts(cfg, w, k);
  }

  lemma AcceptReaches(cfg: Config, w: World, k: Key, r: Record, message: Inbound, delayMs: int)
    requires Inv(cfg, w)
    requires k in w.records ==> r == w.records[k].(channel := r.channel, smsDowngraded := r.smsDowngraded)
    requires k !in w.records ==> r.state == Idle
    ensures Reaches(w, AcceptInbound(cfg, w, k, r, message, delayMs), k)
    ensures !Stranded(AcceptInbound(cfg, w, k, r, message, delayMs), k)
  {
    hide Reaches, Schedule, Inv;
    match r.state {
      case Idle =>
        RebufferReaches(w, k, OpenBuffer(r, message).(delivered := [], cancelled := [], reprocessCount := 0),
                        Begin(HistoryOf(w, k), message), delayMs);
      case Buffering =>
        RebufferReaches(w, k, BufferMore(r, message), Accept(HistoryOf(w, k), message), delayMs);
      case Processing =>
        PersistMoves(w, k, ArriveLate(r, message));
        var w1 := Persist(w, k, ArriveLate(r, message));
        RememberReaches(w1, k, Accept(HistoryOf(w, k), message));
        ReachesTrans(w, w1, Remember(w1, k, Accept(HistoryOf(w, k), message)), k);
      case Sending => InterruptReaches(cfg, w, k, r, message, delayMs);
    }
  }

  lemma InterruptReaches(cfg: Config, w: World, k: Key, r: Record, message: Inbound, delayMs: int)
    requires Inv(cfg, w) && k in w.records && r.handle == w.records[k].handle
    ensures Reaches(w, Interrupt(cfg, w, k, r, message, delayMs), k)
    ensures !Stranded(Interrupt(cfg, w, k, r, message, delayMs), k)
  {
    hide Reaches, Schedule, Inv, EndRest, Stranded, ClearStall, ClearCurrent;
    var w1 := ClearCurrent(ClearStall(cfg, ClearRetry(w, k), k.line), r);
    if r.handle.Some? { OwnsCurrent(cfg, w, k); }
    StopTimersReaches(cfg, w, k, r);
    var h := Begin(EndRest(HistoryOf(w, k), r.index, Cancelled), message);
    RebufferReaches(w1, k, OpenBuffer(r, message).(cancelled := CancelledSummaries(cfg, r)), h, delayMs);
    ReachesTrans(w, w1, Interrupt(cfg, w, k, r, message, delayMs), k);
  }

  // A step on k that leaves k with something to wait for, if it had.
  ghost predicate Within(w: World, w': World, k: Key) {
    Reaches(w, w', k) && (Stranded(w', k) ==> Stranded(w, k))
  }

  lemma PassedOverReaches(w: World, k: Key, channel: Channel, downgraded: bool, gate: Gate)
    ensures var w' := Persist(w, k, PassedOver(w, k, channel, downgraded, gate));
            Reaches(w, w', k) && (Stranded(w', k) ==> Stranded(w, k))
  {
    hide Reaches, PassedOver;
    PassedOverIs(w, k, channel, downgraded, gate);
    PersistMoves(w, k, PassedOver(w, k, channel, downgraded, gate));
  }

  lemma ReceiveWithin(cfg: Config, w: World, k: Key, message: Inbound, channel: Channel, downgraded: bool, gate: Gate,
                      now: int, delayMs: int)
    requires Inv(cfg, w)
    ensures Within(w, Receive(cfg, w, k, message, channel, downgraded, gate, now, delayMs), k)
    ensures !ClaimHolds(w, message.handle, now) ==>
              Reaches(Claim(cfg, w, message.handle, now), Receive(cfg, w, k, message, channel, downgraded, gate, now, delayMs), k)
  {
    hide Reaches, Inv, AcceptInbound, PassedOver, ApplyChannel;
    ReachesSelf(w, k);
    if !ClaimHolds(w, message.handle, now) {
      var w1 := Claim(cfg, w, message.handle, now);
      var w' := Receive(cfg, w, k, message, channel, downgraded, gate, now, delayMs);
      ClaimKeeps(cfg, w, w1.claims);
      ClaimReaches(w, w1.claims, k);
      if gate == Accepted {
        var r0 := KnownOrIdle(w1, k);
        ChannelOnly(r0, channel, downgraded);
        AcceptReaches(cfg, w1, k, ApplyChannel(r0, channel, downgraded), message, delayMs);
      } else {
        PassedOverReaches(w1, k, channel, downgraded, gate);
      }
      ReachesTrans(w, w1, w', k);
    }
  }

  lemma ClaimReaches(w: World, claims: map<Handle, int>, k: Key)
    requires ClaimsGrow(w, w.(claims := claims))
    ensures Reaches(w, w.(claims := claims), k)
  {
  }

  lemma BufferTimerWithin(w: World, k: Key)
    ensures Within(w, BufferTimer(w, k), k)
  {
    hide Reaches;
    ReachesSelf(w, k);
    if k in w.buffer {
      var w1 := w.(buffer := w.buffer - {k});
      BufferReaches(w, w1, k);
      ProcessBufferReaches(w1, k);
      ReachesTrans(w, w1, BufferTimer(w, k), k);
    }
  }

  lemma KeepsTables(cfg: Config, w: World)
    requires Inv(cfg, w)
    ensures Tables(w)
  {
    hide ConversationOk;
    forall h | h in w.delivery ensures h in w.mapping { assert DeliveryOk(w, h); }
  }

  lemma ChatReplyWithin(cfg: Config, w: World, k: Key, reply: ChatResult, now: int, delayMs: int, results: Results)
    requires Inv(cfg, w) && Fresh(w, results)
    ensures Within(w, ChatReply(cfg, w, k, reply, now, delayMs, results), k)
  {
    hide Reaches, Inv, SendFrom, ToIdle, Schedule, Stranded;
    ReachesSelf(w, k);
    if k in w.chats {
      ReleaseChat(cfg, w, k);
      Own(cfg, w, k);
      ConversationFacts(cfg, w, k);
      KeepsTables(cfg, w);
      var w1 := w.(chats := w.chats - {k});
      var w' := ChatReply(cfg, w, k, reply, now, delayMs, results);
      ChatsReaches(w, k);
      assert w1.chats[k := w.chats[k]] == w.chats;
      ReplyReaches(cfg, w1, k, reply, w.chats[k], now, delayMs, results);
      ReachesTrans(w, w1, w', k);
    }
  }

  lemma ChatsReaches(w: World, k: Key)
    ensures Reaches(w, w.(chats := w.chats - {k}), k)
  {
  }

  // After the pending call was taken off.
  lemma ReplyReaches(cfg: Config, w: World, k: Key, reply: ChatResult, snapshot: Record, now: int, delayMs: int, results: Results)
    requires Tables(w) && Fresh(w, results) && k in w.records && k !in w.chats
    requires snapshot.handle == None && w.records[k].handle == None
    ensures var w' := ChatReply(cfg, w.(chats := w.chats[k := snapshot]), k, reply, now, delayMs, results);
            Reaches(w, w', k) && !Stranded(w', k)
  {
    hide Reaches, SendFrom, ToIdle, Schedule, Stranded;
    assert w.(chats := w.chats[k := snapshot]).chats - {k} == w.chats;
    var h := HistoryOf(w, k);
    match reply {
      case Failed =>
        RememberReaches(w, k, Fail(h));
        GoIdleReaches(cfg, Remember(w, k, Fail(h)), k, snapshot);
        ReachesTrans(w, Remember(w, k, Fail(h)), ToIdle(cfg, Remember(w, k, Fail(h)), k, snapshot), k);
      case Replied(actions) =>
        var latest := w.records[k];
        if latest.lateArrivals != [] && latest.reprocessCount < cfg.maxReprocessAttempts {
          var w1 := Persist(w, k, Reprocess(latest));
          PersistMoves(w, k, Reprocess(latest));
          ScheduleReaches(w1, k, delayMs);
          ReachesTrans(w, w1, Schedule(w1, k, delayMs), k);
        } else if actions == [] {
          var w1 := Remember(w, k, Answer(h, h.stamp, []));
          RememberReaches(w, k, Answer(h, h.stamp, []));
          GoIdleReaches(cfg, w1, k, latest);
          ReachesTrans(w, w1, ToIdle(cfg, w1, k, latest), k);
        } else {
          var r := StartSending(latest, actions, now);
          StartReaches(cfg, w, k, r, Answer(h, now, actions), results);
        }
    }
  }

  lemma StartReaches(cfg: Config, w: World, k: Key, r: Record, h: History, results: Results)
    requires Tables(w) && Fresh(w, results) && r.handle == None
    ensures var w' := SendFrom(cfg, Remember(Persist(w, k, r), k, h), k, r, results);
            Reaches(w, w', k) && !Stranded(w', k)
  {
    hide Reaches, SendFrom, Stranded;
    var w1 := Persist(w, k, r);
    var w2 := Remember(w1, k, h);
    PersistMoves(w, k, r);
    RememberReaches(w1, k, h);
    ReachesTrans(w, w1, w2, k);
    SendFromMoves(cfg, w2, k, r, results);
    ReachesTrans(w, w2, SendFrom(cfg, w2, k, r, results), k);
  }

  lemma AbortReaches(cfg: Config, w: World, k: Key, r: Record, h: Handle)
    requires OwnHandle(w, k, h) && (r.handle == None || r.handle == Some(h))
    ensures Reaches(w, AbortQueue(cfg, w, k, r, h), k) && !Stranded(AbortQueue(cfg, w, k, r, h), k)
  {
    hide Reaches, ToIdle, EndRest, Stranded;
    var w1 := ClearHandle(w, h);
    var w2 := Remember(w1, k, EndRest(HistoryOf(w, k), r.index, Aborted));
    ClearHandleReaches(w, k, h);
    RememberReaches(w1, k, EndRest(HistoryOf(w, k), r.index, Aborted));
    ReachesTrans(w, w1, w2, k);
    GoIdleReaches(cfg, w2, k, r);
    ReachesTrans(w, w2, ToIdle(cfg, w2, k, r), k);
  }

  lemma AdvanceQueueReaches(cfg: Config, w: World, k: Key, r: Record, h: Handle, ending: Ending, results: Results)
    requires OwnHandle(w, k, h) && Tables(ClearHandle(w, h)) && Fresh(w, results)
    ensures Reaches(w, AdvanceQueue(cfg, w, k, r, h, ending, results), k)
    ensures !Stranded(AdvanceQueue(cfg, w, k, r, h, ending, results), k)
  {
    hide Reaches, SendFrom, Stranded, Advance;
    var w1 := ClearHandle(w, h);
    var w2 := Advance(cfg, w1, k, r, ending);
    ClearHandleReaches(w, k, h);
    OneAdvanceReaches(cfg, w1, k, r, ending);
    ReachesTrans(w, w1, w2, k);
    AdvanceChanges(cfg, w1, k, r, ending);
    SendFromMoves(cfg, w2, k, AdvanceRecord(r), results);
    ReachesTrans(w, w2, SendFrom(cfg, w2, k, AdvanceRecord(r), results), k);
  }

  lemma OneAdvanceReaches(cfg: Config, w: World, k: Key, r: Record, ending: Ending)
    ensures Reaches(w, Advance(cfg, w, k, r, ending), k)
    ensures Tables(w) ==> Tables(Advance(cfg, w, k, r, ending))
  {
    hide Reaches;
    var w1 := ClearStall(cfg, w, k.line);
    var w' := Advance(cfg, w, k, r, ending);
    var w2 := Remember(w1, k, HistoryOf(w', k));
    ClearStallMoves(cfg, w, k);
    RememberReaches(w1, k, HistoryOf(w', k));
    ReachesTrans(w, w1, w2, k);
    PersistMoves(w2, k, AdvanceRecord(r));
    ReachesTrans(w, w2, w', k);
  }

  lemma FailedStatusReaches(cfg: Config, w: World, k: Key, r: Record, c: Callback)
    requires OwnHandle(w, k, c.handle) && r.handle == Some(c.handle)
    ensures Reaches(w, FailedStatus(cfg, w, k, r, c), k) && !Stranded(FailedStatus(cfg, w, k, r, c), k)
  {
    hide Reaches, AbortQueue, Stranded, CanStall, ClassifyStatusErrorCode, ArmStall, ArmRetry, RefuseStall;
    var category := ClassifyStatusErrorCode(c.errorCode);
    var w' := FailedStatus(cfg, w, k, r, c);
    if !cfg.limitTracker || category == Permanent || r.index >= |r.queue| {
      AbortReaches(cfg, w, k, r, c.handle);
    } else {
      var w1 := ClearHandle(w, c.handle);
      ClearHandleReaches(w, k, c.handle);
      match Route(cfg, Current(r), category) {
        case Retry(attempts) => RetryMoves(w1, k, r, attempts);
        case TryStall =>
          var r1 := WithCurrent(r, Current(r).(messageHandle := None)).(handle := None);
          var w2 := Persist(w1, k, r1);
          PersistMoves(w1, k, r1);
          if CanStall(cfg, w2, k.line) {
            StallMoves(w2, k, Current(r1));
          } else {
            RefuseMoves(cfg, w2, k);
            RefuseChanges(cfg, w2, k);
            var w3 := RefuseStall(cfg, w2, k.line);
            AbortReaches(cfg, w3, k, r1, c.handle);
            ReachesTrans(w2, w3, w', k);
          }
          ReachesTrans(w1, w2, w', k);
        case _ => AbortReaches(cfg, w1, k, r, c.handle);
      }
      ReachesTrans(w, w1, w', k);
    }
  }

  lemma StatusWithin(cfg: Config, w: World, c: Callback, results: Results)
    requires Inv(cfg, w) && Fresh(w, results) && c.handle in w.mapping
    ensures Within(w, StatusCallback(cfg, w, c, results), w.mapping[c.handle].key)
  {
    hide Reaches, Inv, FailedStatus, AdvanceQueue, TurnOk;
    var k := w.mapping[c.handle].key;
    MappingIsKnown(cfg, w, c.handle);
    OwnsCurrent(cfg, w, k);
    KeepsTables(cfg, w);
    var r := ApplyChannel(w.records[k], ChannelFromStatus(c, w.records[k].channel), c.downgraded);
    if c.status == ERROR || c.status == DECLINED {
      FailedStatusReaches(cfg, w, k, r, c);
    } else if c.status == SuccessStatus(r) {
      AdvanceQueueReaches(cfg, w, k, r, c.handle, Confirmed, results);
    } else {
      PersistMoves(w, k, r);
    }
  }

  lemma TimeoutWithin(cfg: Config, w: World, h: Handle, results: Results)
    requires Inv(cfg, w) && Fresh(w, results) && h in w.delivery
    ensures Within(w, DeliveryTimeout(cfg, w, h, results), w.delivery[h])
  {
    hide Reaches, Inv, SendFrom, Advance, TurnOk, Stranded;
    TimeoutAdvances(cfg, w, h, results);
    var k := w.delivery[h];
    OwnsCurrent(cfg, w, k);
    KeepsTables(cfg, w);
    AdvanceQueueReaches(cfg, w, k, w.records[k], h, TimedOut, results);
  }

  // An armed delivery timeout always finds its handle in flight.
  lemma TimeoutAdvances(cfg: Config, w: World, h: Handle, results: Results)
    requires Inv(cfg, w) && h in w.delivery
    ensures var k := w.delivery[h];
            && h in w.mapping && w.mapping[h].key == k
            && k in w.records && w.records[k].handle == Some(h) && w.records[k].state == Sending
            && DeliveryTimeout(cfg, w, h, results) == AdvanceQueue(cfg, w, k, w.records[k], h, TimedOut, results)
  {
    hide Inv, SendFrom, Advance, TurnOk;
    Basics(cfg, w);
    assert DeliveryOk(w, h);
    MappingIsKnown(cfg, w, h);
    var w1 := w.(delivery := w.delivery - {h});
    assert w1.delivery - {h} == w1.delivery;
  }

  lemma RetryWithin(cfg: Config, w: World, k: Key, results: Results)
    requires Inv(cfg, w) && Fresh(w, results) && k in w.retry
    ensures Within(w, RetryTimer(cfg, w, k, results), k)
  {
    hide Reaches, Inv, SendFrom, TurnOk, Stranded;
    ReleaseRetry(cfg, w, k);
    KeepsTables(cfg, w);
    var w1 := ClearRetry(w, k);
    ClearRetryReaches(w, k);
    SendFromMoves(cfg, w1, k, w1.records[k], results);
    ReachesTrans(w, w1, RetryTimer(cfg, w, k, results), k);
  }

  lemma StallWithin(cfg: Config, w: World, line: Line, results: Results)
    requires Inv(cfg, w) && Fresh(w, results) && line in w.stalls
    ensures Within(w, StallTimer(cfg, w, line, results), w.stalls[line].key)
  {
    hide Reaches, Inv, SendFrom, TurnOk, Stranded;
    var k := w.stalls[line].key;
    ReleaseStall(cfg, w, line);
    StallIsKnown(cfg, w, line);
    KeepsTables(cfg, w);
    var w1 := w.(stalls := w.stalls - {line});
    StallReaches(w, k);
    SendFromMoves(cfg, w1, k, w1.records[k], results);
    ReachesTrans(w, w1, StallTimer(cfg, w, line, results), k);
  }

  lemma StallReaches(w: World, k: Key)
    ensures Reaches(w, w.(stalls := w.stalls - {k.line}), k)
  {
  }
}
