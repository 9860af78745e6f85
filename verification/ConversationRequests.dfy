// What becomes of one request: which positions are requested at all, what a
// returned handle and every class of failure lead to, on the way out and in a
// callback.
module ConversationRequests {
  import opened Wrappers
  import opened Text
  import opened StatusTracker
  import opened ErrorClass
  import opened ConversationTypes
  import opened History
  import opened ConversationModel
  import opened ConversationInvariant
  import opened ConversationSteps
  import opened ConversationEffects
  import opened ConversationRuns
  import opened ConversationAccount
  import opened ConversationTurns

  // --- which positions are requested -------------------------------------

  // A position is skipped unasked exactly when nothing can be sent for it, or it
  // is a reaction and the conversation is not on iMessage or there is nothing to
  // react to; any other is requested first of all.
  lemma PositionMeaning(cfg: Config, w: World, k: Key, r: Record, results: Results)
    requires Tables(w) && Fresh(w, results) && r.handle == None && r.index < |r.queue|
    ensures var a, h, h' := Current(r).action, HistoryOf(w, k), HistoryOf(SendFrom(cfg, w, k, r, results), k);
            if Hopeless(cfg, k, a)
               || (a.kind == Reaction
                   && (r.channel != IMessage || r.smsDowngraded || ResolveInboundTarget(r, a) in {None, Some("")}))
            then LogGrows(Log(h, Ended(r.index, Skipped)), h')
            else LogGrows(Log(h, Attempt(r, results(r.index))), h')
  {
    hide Unsendable, Hopeless, SendFrom, LogGrows, Reaches, Fresh, Tables, Attempt, AfterAttempt, ResolveInboundTarget;
    UnsendableExactlyWhen(cfg, k, r, Current(r).action);
    if Unsendable(cfg, k, r, Current(r).action) {
      SkipMoves(w, k, r);
      SkippedIs(w, k, r);
      assert SendFrom(cfg, w, k, r, results) == SendFrom(cfg, Skip(w, k, r), k, SkipRecord(r), results) by {
        SkipsOnce(cfg, w, k, r, results);
      }
      TablesAlike(w, Skip(w, k, r), results);
      SendFromMoves(cfg, Skip(w, k, r), k, SkipRecord(r), results);
    } else {
      SendsOnce(cfg, w, k, r, results);
      AttemptedIs(w, k, r, results(r.index));
      TablesAlike(w, Attempted(w, k, r, results(r.index)), results);
      SendOneMoves(cfg, Attempted(w, k, r, results(r.index)), k, r, results);
    }
  }

  lemma SkipsOnce(cfg: Config, w: World, k: Key, r: Record, results: Results)
    requires r.index < |r.queue| && Unsendable(cfg, k, r, Current(r).action)
    ensures SendFrom(cfg, w, k, r, results) == SendFrom(cfg, Skip(w, k, r), k, SkipRecord(r), results)
  {
    hide Skip, SkipRecord;
  }

  lemma SkippedIs(w: World, k: Key, r: Record)
    requires r.index < |r.queue|
    ensures HistoryOf(Skip(w, k, r), k) == Log(HistoryOf(w, k), Ended(r.index, Skipped))
    ensures Skip(w, k, r).mapping == w.mapping && Skip(w, k, r).delivery == w.delivery && Skip(w, k, r).issued == w.issued
    ensures SkipRecord(r).handle == None
  {
  }

  // --- requests that return ----------------------------------------------

  // The position is in flight under this handle: its callback will find it, and
  // a timeout will stand in for a callback that never comes.
  ghost predicate InFlightAt(w: World, k: Key, r: Record, h: Handle)
    requires r.index < |r.queue|
  {
    && k in w.records && w.records[k].state == r.state
    && w.records[k].handle == Some(h) && w.records[k].index == r.index
    && h in w.mapping && w.mapping[h] == Slot(k, r.index) && h in w.delivery && w.delivery[h] == k
  }

  // A returned handle is waited for, whatever was sent, unless it was a reaction;
  // with nothing to wait for the position ends at once and the next one is sent.
  lemma RequestMeaning(cfg: Config, w: World, k: Key, r: Record, results: Results)
    requires Tables(w) && Fresh(w, results) && r.handle == None && r.index < |r.queue|
    requires !Unsendable(cfg, k, r, Current(r).action) && results(r.index).Returned?
    ensures var h, w' := results(r.index).handle, SendFrom(cfg, w, k, r, results);
            var asked := Log(HistoryOf(w, k), Attempt(r, results(r.index)));
            if Current(r).action.kind != Reaction && h.Some? && h.value != "" then
              InFlightAt(w', k, r, h.value) && HistoryOf(w', k) == asked
            else LogGrows(Log(asked, Ended(r.index, Unconfirmed)), HistoryOf(w', k))
  {
    hide Unsendable, SendFrom, LogGrows, Fresh, Tables, AwaitStatus, Attempted, Attempt, Reaches, Advance;
    var answer := results(r.index);
    var w1 := Attempted(w, k, r, answer);
    AttemptedIs(w, k, r, answer);
    SendsOnce(cfg, w, k, r, results);
    WaitedIs(Current(r).action, answer);
    if Waited(Current(r).action, answer) {
      AwaitIs(w1, k, r, answer.handle.value);
    } else {
      var sent := SentRecord(r, None);
      FiredIs(cfg, w, w1, k, sent);
      TablesAlike(w, Advance(cfg, w1, k, sent, Unconfirmed), results);
      SendFromMoves(cfg, Advance(cfg, w1, k, sent, Unconfirmed), k, AdvanceRecord(sent), results);
    }
  }

  lemma AwaitIs(w: World, k: Key, r: Record, h: Handle)
    requires r.index < |r.queue|
    ensures InFlightAt(AwaitStatus(w, k, r, h), k, r, h) && HistoryOf(AwaitStatus(w, k, r, h), k) == HistoryOf(w, k)
  {
  }

  lemma FiredIs(cfg: Config, w: World, w1: World, k: Key, r: Record)
    requires r.index < |r.queue| && w1 == w.(history := w1.history)
    ensures var w' := Advance(cfg, w1, k, r, Unconfirmed);
            && HistoryOf(w', k) == Log(HistoryOf(w1, k), Ended(r.index, Unconfirmed))
            && w'.mapping == w.mapping && w'.delivery == w.delivery && w'.issued == w.issued
    ensures AdvanceRecord(r).handle == None
  {
  }

  // --- requests that fail ------------------------------------------------

  // The same for the failure of the request itself.
  predicate RequestIsFinal(cfg: Config, w: World, k: Key, r: Record, error: SendError)
    requires r.index < |r.queue|
  {
    || !cfg.limitTracker
    || match ClassifyError(error)
       case Permanent => true
       case Transient => Current(r).retryCount + 1 > cfg.transientRetryMaxAttempts
       case SmsLimited => !cfg.stallScheduler || StallAttempts(w, k.line) + 1 > cfg.smsLimitMaxAttempts
  }

  // A request that fails for good ends its position as skipped, whatever the
  // kind of the action, and the next positions are sent; any other failure
  // leaves the position to its retry or its line's stall.
  lemma RequestFailureMeaning(cfg: Config, w: World, k: Key, r: Record, results: Results)
    requires Tables(w) && Fresh(w, results) && r.handle == None && r.index < |r.queue|
    requires !Unsendable(cfg, k, r, Current(r).action) && results(r.index).Threw?
    ensures var error, w' := results(r.index).error, SendFrom(cfg, w, k, r, results);
            var asked := Log(HistoryOf(w, k), Attempt(r, results(r.index)));
            if RequestIsFinal(cfg, w, k, r, error) then LogGrows(Log(asked, Ended(r.index, Skipped)), HistoryOf(w', k))
            else
              && HistoryOf(w', k) == asked
              && (if ClassifyError(error) == Transient then
                    && k in w'.retry && w'.retry[k] == Expected(Current(r).id, Current(r).retryCount + 1)
                    && w'.stalls == w.stalls && w'.stallCount == w.stallCount
                  else
                    && HoldsStall(w', k) && w'.stalls[k.line].expected == Expected(Current(r).id, Current(r).retryCount)
                    && StallAttempts(w', k.line) == StallAttempts(w, k.line) + 1 && w'.retry == w.retry)
  {
    hide Unsendable, SendFrom, LogGrows, Fresh, Tables, ArmRetry, ArmStall, Attempted, Skip, SkipRecord, RefuseStall, ClassifyError;
    var w1 := Attempted(w, k, r, results(r.index));
    AttemptedIs(w, k, r, results(r.index));
    assert SendFrom(cfg, w, k, r, results) == AfterAttempt(cfg, w1, k, r, results) by { SendsOnce(cfg, w, k, r, results); }
    if RequestIsFinal(cfg, w, k, r, results(r.index).error) {
      var w2 := if Judge(cfg, Current(r), results(r.index)) == TryStall then RefuseStall(cfg, w1, k.line) else w1;
      RefuseChanges(cfg, w1, k);
      SkippedLogs(cfg, w, w2, k, r, results);
    } else {
      WaitingIs(w1, k, r, Current(r).retryCount + 1);
    }
  }

  // So a spent transient budget has two ends: the request's own failure skips the
  // one position, a failed callback aborts the queue.
  lemma SpentBudgetEndsTwoWays(cfg: Config, w: World, k: Key, r: Record, results: Results, c: Callback)
    requires Tables(w) && Fresh(w, results) && k in w.records && r.state == Sending && r.handle == None
    requires r.index < |r.queue| && !Unsendable(cfg, k, r, Current(r).action) && results(r.index).Threw?
    requires ClassifyError(results(r.index).error) == Transient && ClassifyStatusErrorCode(c.errorCode) == Transient
    requires Current(r).retryCount >= cfg.transientRetryMaxAttempts
    ensures LogGrows(Log(Log(HistoryOf(w, k), Attempt(r, results(r.index))), Ended(r.index, Skipped)), HistoryOf(SendFrom(cfg, w, k, r, results), k))
    ensures HistoryOf(FailedStatus(cfg, w, k, r, c), k) == EndRest(HistoryOf(w, k), r.index, Aborted)
  {
    hide SendFrom, FailedStatus, LogGrows, EndRest, Unsendable, Fresh, Tables;
    RequestFailureMeaning(cfg, w, k, r, results);
    FailureMeaning(cfg, w, k, r, c);
  }

  // And a reaction whose request fails for the moment is sent again like any
  // other action.
  lemma ReactionsAreRetried(cfg: Config, w: World, k: Key, r: Record, results: Results)
    requires Tables(w) && Fresh(w, results) && r.handle == None && r.index < |r.queue|
    requires Current(r).action.kind == Reaction && !Unsendable(cfg, k, r, Current(r).action) && results(r.index).Threw?
    requires cfg.limitTracker && ClassifyError(results(r.index).error) == Transient
    ensures var w' := SendFrom(cfg, w, k, r, results);
            (k in w'.retry && w'.retry[k] == Expected(Current(r).id, Current(r).retryCount + 1)
             && HistoryOf(w', k) == Log(HistoryOf(w, k), Attempt(r, results(r.index))))
            || Current(r).retryCount >= cfg.transientRetryMaxAttempts
  {
    hide SendFrom, LogGrows, Unsendable, Fresh, Tables;
    RequestFailureMeaning(cfg, w, k, r, results);
  }

  lemma SendsOnce(cfg: Config, w: World, k: Key, r: Record, results: Results)
    requires r.index < |r.queue| && !Unsendable(cfg, k, r, Current(r).action)
    ensures SendFrom(cfg, w, k, r, results) == AfterAttempt(cfg, Attempted(w, k, r, results(r.index)), k, r, results)
  {
    hide AfterAttempt, Attempted;
  }

  lemma AttemptedIs(w: World, k: Key, r: Record, answer: SendResult)
    requires r.index < |r.queue|
    ensures Attempted(w, k, r, answer) == w.(history := w.history[k := Log(HistoryOf(w, k), Attempt(r, answer))])
    ensures HistoryOf(Attempted(w, k, r, answer), k) == Log(HistoryOf(w, k), Attempt(r, answer))
  {
    hide Attempt;
  }

  lemma WaitingIs(w: World, k: Key, r: Record, attempts: nat)
    requires r.index < |r.queue|
    ensures var w' := ArmRetry(w, k, r, attempts);
            && HistoryOf(w', k) == HistoryOf(w, k) && k in w'.retry && w'.retry[k] == Expected(Current(r).id, attempts)
            && w'.stalls == w.stalls && w'.stallCount == w.stallCount
    ensures var w' := ArmStall(w, k, Current(r));
            && HistoryOf(w', k) == HistoryOf(w, k) && HoldsStall(w', k)
            && w'.stalls[k.line].expected == Expected(Current(r).id, Current(r).retryCount)
            && StallAttempts(w', k.line) == StallAttempts(w, k.line) + 1 && w'.retry == w.retry
  {
  }

  lemma SkippedLogs(cfg: Config, w: World, w1: World, k: Key, r: Record, results: Results)
    requires r.index < |r.queue| && Tables(w) && Fresh(w, results) && r.handle == None
    requires w1 == w.(history := w1.history, stallCount := w1.stallCount)
    requires HistoryOf(w1, k) == Log(HistoryOf(w, k), Attempt(r, results(r.index)))
    ensures LogGrows(Log(Log(HistoryOf(w, k), Attempt(r, results(r.index))), Ended(r.index, Skipped)),
                     HistoryOf(SendFrom(cfg, Skip(w1, k, r), k, SkipRecord(r), results), k))
  {
    hide SendFrom, LogGrows, Reaches, Attempt;
    SendFromMoves(cfg, Skip(w1, k, r), k, SkipRecord(r), results);
  }

  // --- by error code -----------------------------------------------------

  // A callback that fails with one of the codes that pass by themselves has the
  // item sent again while attempts are left, and leaves the line alone.
  lemma PassingCodesAreRetried(cfg: Config, w: World, c: Callback, results: Results)
    requires Inv(cfg, w) && Fresh(w, results) && c.handle in w.mapping && c.status in {ERROR, DECLINED}
    requires cfg.limitTracker && c.errorCode.Some? && c.errorCode.value in RETRIED
    ensures var k, w' := w.mapping[c.handle].key, StatusCallback(cfg, w, c, results);
            && k in w.records && w.records[k].index < |w.records[k].queue|
            && var item := Current(w.records[k]);
            if item.retryCount < cfg.transientRetryMaxAttempts then
              && k in w'.retry && w'.retry[k] == Expected(item.id, item.retryCount + 1)
              && w'.stalls == w.stalls && w'.stallCount == w.stallCount && HistoryOf(w', k) == HistoryOf(w, k)
            else HistoryOf(w', k) == EndRest(HistoryOf(w, k), w.records[k].index, Aborted)
  {
    hide Inv, StatusCallback, Fresh, LogGrows, ClassifyStatusErrorCode, EndRest, HistoryOf;
    CallbackMeaning(cfg, w, c, results);
    CodeClassExactlyWhen(c.errorCode);
    CurrentIsKnown(cfg, w, c.handle);
    SendsSuccess(w.records[w.mapping[c.handle].key]);
  }

  lemma CurrentIsKnown(cfg: Config, w: World, h: Handle)
    requires Inv(cfg, w) && h in w.mapping
    ensures var k := w.mapping[h].key; k in w.records && w.records[k].state == Sending && w.records[k].index < |w.records[k].queue|
  {
    hide Inv, TurnOk;
    MappingIsKnown(cfg, w, h);
    Timers(cfg, w, w.mapping[h].key);
  }

  // Only SMS_LIMIT_REACHED stalls the line, while stalls are left.
  lemma SmsLimitStallsTheLine(cfg: Config, w: World, c: Callback, results: Results)
    requires Inv(cfg, w) && Fresh(w, results) && c.handle in w.mapping && c.status in {ERROR, DECLINED}
    requires cfg.limitTracker && c.errorCode == Some("SMS_LIMIT_REACHED")
    ensures var k, w' := w.mapping[c.handle].key, StatusCallback(cfg, w, c, results);
            && k in w.records && w.records[k].index < |w.records[k].queue|
            && var item := Current(w.records[k]);
            if cfg.stallScheduler && StallAttempts(w, k.line) < cfg.smsLimitMaxAttempts then
              && HoldsStall(w', k) && w'.stalls[k.line].expected == Expected(item.id, item.retryCount)
              && StallAttempts(w', k.line) == StallAttempts(w, k.line) + 1 && w'.retry == w.retry
              && HistoryOf(w', k) == HistoryOf(w, k)
            else HistoryOf(w', k) == EndRest(HistoryOf(w, k), w.records[k].index, Aborted)
  {
    hide Inv, StatusCallback, Fresh, LogGrows, ClassifyStatusErrorCode, EndRest, HistoryOf;
    CallbackMeaning(cfg, w, c, results);
    CodeClassExactlyWhen(c.errorCode);
    CurrentIsKnown(cfg, w, c.handle);
    SendsSuccess(w.records[w.mapping[c.handle].key]);
  }

  // In particular a rate limit of the plan, 5509, in either way it is reported:
  // an attempt more, and nothing for the line.
  lemma RateLimitIsRetried(cfg: Config, w: World, k: Key, r: Record, results: Results, status: int, c: Callback)
    requires Inv(cfg, w) && Fresh(w, results) && cfg.limitTracker
    requires r.handle == None && r.index < |r.queue| && Current(r).retryCount < cfg.transientRetryMaxAttempts
    requires !Unsendable(cfg, k, r, Current(r).action) && results(r.index) == Threw(ApiError(status, Some("5509")))
    requires c.handle in w.mapping && w.mapping[c.handle].key in w.records && c.status == ERROR && c.errorCode == Some("5509")
    ensures var w' := SendFrom(cfg, w, k, r, results);
            && k in w'.retry && w'.retry[k] == Expected(Current(r).id, Current(r).retryCount + 1)
            && w'.stalls == w.stalls && w'.stallCount == w.stallCount
    ensures var o, w' := w.mapping[c.handle].key, StatusCallback(cfg, w, c, results);
            && w.records[o].index < |w.records[o].queue|
            && (Current(w.records[o]).retryCount < cfg.transientRetryMaxAttempts ==>
                  && o in w'.retry
                  && w'.retry[o] == Expected(Current(w.records[o]).id, Current(w.records[o]).retryCount + 1)
                  && w'.stalls == w.stalls && w'.stallCount == w.stallCount)
  {
    hide Inv, StatusCallback, Fresh, LogGrows, EndRest, HistoryOf, SendFrom, Tables, Unsendable, ClassifyError;
    KeepsTables(cfg, w);
    ErrorClassExactlyWhen(results(r.index).error);
    RequestFailureMeaning(cfg, w, k, r, results);
    PassingCodesAreRetried(cfg, w, c, results);
  }

  // --- what reactions are aimed at ---------------------------------------

  predicate Member(asked: Option<string>, handles: seq<Handle>) {
    asked.Some? && |asked.value| > 0 && asked.value in handles
  }

  predicate NamesElsewhere(asked: Option<string>) {
    asked.Some? && ("alias:" <= asked.value || "content:" <= asked.value)
  }

  // A reaction is sent to a message of the last batch or not at all: to the one
  // it asks for, by itself or behind "handle:", if there is such a one; to none
  // if it asks by alias or content; to the last one otherwise.
  lemma TargetMeaning(r: Record, a: QueuedAction)
    ensures var target, handles := ResolveInboundTarget(r, a), r.lastInboundHandles;
            var asked := if a.target.Some? then a.target else a.replyTo;
            && (target.Some? ==> target.value in handles)
            && (target.None? <==> handles == [] || (!Member(asked, handles) && NamesElsewhere(asked)))
            && (Member(asked, handles) ==> target == asked)
            && (!Member(asked, handles) && !NamesElsewhere(asked) && handles != [] ==>
                  if asked.Some? && "handle:" <= asked.value && Trim(asked.value[7..]) in handles
                  then target == Some(Trim(asked.value[7..]))
                  else target == Some(handles[|handles| - 1]))
  {
    hide Trim;
    assert "alias:" != "" && "content:" != "" && "handle:" != "";
  }

  // In every reachable sending state the pinned target is the one that is
  // resolved, so a reaction is skipped exactly off iMessage, without a client
  // that can react, or when its message came without a handle.
  lemma ReactionIsRequestedExactlyWhen(cfg: Config, w: World, k: Key)
    requires Inv(cfg, w) && k in w.records && w.records[k].state == Sending
    requires w.records[k].index < |w.records[k].queue| && Current(w.records[k]).action.kind == Reaction
    ensures var r := w.records[k];
            && Current(r).action.target.Some? && Current(r).action.target.value in r.lastInboundHandles
            && (!Unsendable(cfg, k, r, Current(r).action) <==>
                  cfg.canReact && r.channel == IMessage && !r.smsDowngraded && Current(r).action.target.value != "")
  {
    hide Inv, TurnOk, ResolveInboundTarget, SendingTurn;
    var r := w.records[k];
    Own(cfg, w, k);
    ConversationFacts(cfg, w, k);
    TurnsOver(cfg, r, HistoryOf(w, k));
    PinResolves(cfg, r, HistoryOf(w, k));
    UnsendableExactlyWhen(cfg, k, r, Current(r).action);
  }

  lemma PinResolves(cfg: Config, r: Record, h: History)
    requires SendingTurn(cfg, r, h) && r.index < |r.queue| && Current(r).action.kind == Reaction
    ensures var a := Current(r).action;
            ResolveInboundTarget(r, a) == a.target && a.target.Some? && a.target.value in r.lastInboundHandles
  {
    hide ResolveInboundTarget, AimsAt, AnswersAll, Growing, Cursor;
    var a := h.turn.reply[r.index];
    assert Current(r).action == PinTarget(a, r.lastInboundHandles);
    PinnedIsHanded(r, a);
  }

  // --- timers ------------------------------------------------------------

  // A message accepted while the buffer is open joins it behind the others; the
  // timer begins anew, or all of them are put to the chat at once.
  lemma BufferingMeaning(cfg: Config, w: World, k: Key, m: Inbound, channel: Channel, downgraded: bool, now: int, delayMs: int)
    requires !ClaimHolds(w, m.handle, now) && k in w.records && w.records[k].state == Buffering
    ensures var w' := Receive(cfg, w, k, m, channel, downgraded, Accepted, now, delayMs);
            && k in w'.records
            && var r, r' := w.records[k], w'.records[k];
            && r' == r.(state := if delayMs <= 0 then Processing else Buffering, inboundBuffer := r.inboundBuffer + [m],
                        lastInboundHandles := r.lastInboundHandles + [m.handle],
                        channel := r'.channel, smsDowngraded := r'.smsDowngraded)
            && (k in w'.buffer <==> delayMs > 0)
            && (delayMs <= 0 ==> k in w'.chats && w'.chats[k] == r')
  {
    hide Schedule, HistoryOf;
    var w1 := Claim(cfg, w, m.handle, now);
    var r := ApplyChannel(w.records[k], channel, downgraded);
    OpenedIs(w1, k, BufferMore(r, m), Accept(HistoryOf(w1, k), m), delayMs);
  }

  // A timeout whose handle is no longer the current one only uses up its timer.
  lemma StaleTimeoutsAreInert(cfg: Config, w: World, h: Handle, results: Results)
    requires h in w.delivery && w.delivery[h] in w.records ==> w.records[w.delivery[h]].handle != Some(h)
    ensures DeliveryTimeout(cfg, w, h, results) == w.(delivery := w.delivery - {h})
  {
    hide AdvanceQueue;
    if h !in w.delivery { assert w.delivery - {h} == w.delivery; }
  }
}
