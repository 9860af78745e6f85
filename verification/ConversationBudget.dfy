// How often an item can be sent.  As long as every step leaves the other
// conversations of its line covered by the line's counter, transient retries
// and SMS-limit stalls may interleave in any way and through either path, and
// an item is sent at most once plus both budgets.
module ConversationBudget {
  import opened Wrappers
  import opened StatusTracker
  import opened ErrorClass
  import opened ConversationTypes
  import opened History
  import opened ConversationModel
  import opened ConversationInvariant
  import opened ConversationSteps
  import opened ConversationEffects
  import opened ConversationRuns
  import opened ConversationLines
  import opened ConversationStalls

  // Requests made for one position, and altogether.
  function Count(log: seq<Outbound>, position: nat): nat {
    if log == [] then 0
    else
      var e := log[|log| - 1];
      Count(log[..|log| - 1], position) + if e.Sent? && e.position == position then 1 else 0
  }

  function Total(log: seq<Outbound>): nat {
    if log == [] then 0 else Total(log[..|log| - 1]) + if log[|log| - 1].Sent? then 1 else 0
  }

  function MaxSends(cfg: Config): nat {
    1 + cfg.transientRetryMaxAttempts + cfg.smsLimitMaxAttempts
  }

  ghost predicate LogBudget(cfg: Config, t: Turn) {
    && (forall p: nat :: Count(t.log, p) <= MaxSends(cfg))
    && (forall i :: 0 <= i < |t.log| ==> t.log[i].position < |t.reply|)
  }

  ghost predicate LogsBudget(cfg: Config, h: History) {
    LogBudget(cfg, h.turn) && forall i :: 0 <= i < |h.past| ==> LogBudget(cfg, h.past[i])
  }

  // The current item has been sent once for every retry and stall it was
  // granted, and once more if it is in flight.
  ghost predicate ItemBudget(cfg: Config, r: Record, log: seq<Outbound>, stalls: nat) {
    && (forall i :: 0 <= i < |r.queue| ==> r.queue[i].retryCount <= cfg.transientRetryMaxAttempts)
    && (r.index < |r.queue| ==>
          Count(log, r.index) <= Current(r).retryCount + stalls + if r.handle.Some? then 1 else 0)
  }

  ghost predicate BudgetOk(cfg: Config, w: World, k: Key) {
    && k in w.records && LogsBudget(cfg, HistoryOf(w, k)) && StallAttempts(w, k.line) <= cfg.smsLimitMaxAttempts
    && (w.records[k].state == Sending ==>
          ItemBudget(cfg, w.records[k], HistoryOf(w, k).turn.log, StallAttempts(w, k.line)))
  }

  // --- counting ----------------------------------------------------------

  lemma CountAfter(log: seq<Outbound>, e: Outbound, p: nat)
    ensures Count(log + [e], p) == Count(log, p) + if e.Sent? && e.position == p then 1 else 0
  {
    assert (log + [e])[..|log|] == log;
  }

  lemma {:induction false} NothingCounted(log: seq<Outbound>, p: nat)
    requires forall i :: 0 <= i < |log| ==> log[i].position < p
    ensures Count(log, p) == 0
  {
    if log != [] { NothingCounted(log[..|log| - 1], p); }
  }

  lemma NothingAhead(log: seq<Outbound>, at: nat)
    requires Cursor(log) == Some(at)
    ensures forall i :: 0 <= i < |log| ==> log[i].position <= at
  {
    forall i | 0 <= i < |log| ensures log[i].position <= at { CursorPrefix(log, i); }
  }

  lemma EndKeepsBudget(cfg: Config, t: Turn, e: Outbound)
    requires LogBudget(cfg, t) && e.Ended? && e.position < |t.reply|
    ensures LogBudget(cfg, t.(log := t.log + [e]))
    ensures Cursor(t.log) == Some(e.position) ==> Count(t.log + [e], e.position + 1) == 0
  {
    hide Count, MaxSends, Cursor;
    forall p: nat ensures Count(t.log + [e], p) <= MaxSends(cfg) { CountAfter(t.log, e, p); }
    if Cursor(t.log) == Some(e.position) {
      NothingAhead(t.log, e.position);
      NothingCounted(t.log + [e], e.position + 1);
    }
  }

  lemma SendKeepsBudget(cfg: Config, t: Turn, e: Outbound)
    requires LogBudget(cfg, t) && e.Sent? && e.position < |t.reply|
    requires Count(t.log, e.position) < MaxSends(cfg)
    ensures LogBudget(cfg, t.(log := t.log + [e]))
    ensures Count(t.log + [e], e.position) == Count(t.log, e.position) + 1
  {
    hide Count, MaxSends;
    forall p: nat ensures Count(t.log + [e], p) <= MaxSends(cfg) { CountAfter(t.log, e, p); }
    CountAfter(t.log, e, e.position);
  }

  lemma {:induction false} EndRestKeepsBudget(cfg: Config, h: History, from: nat, ending: Ending)
    requires LogsBudget(cfg, h)
    ensures LogsBudget(cfg, EndRest(h, from, ending))
    decreases |h.turn.reply| - from
  {
    if from < |h.turn.reply| {
      EndKeepsBudget(cfg, h.turn, Ended(from, ending));
      EndRestKeepsBudget(cfg, Log(h, Ended(from, ending)), from + 1, ending);
    }
  }

  // A turn makes at most as many requests as its size times the bound.
  lemma {:induction false} TotalIsBounded(cfg: Config, log: seq<Outbound>, size: nat)
    requires forall p: nat :: Count(log, p) <= MaxSends(cfg)
    requires forall i :: 0 <= i < |log| ==> log[i].position < size
    ensures Total(log) <= size * MaxSends(cfg)
  {
    TotalIsSum(log, size);
    SumIsBounded(cfg, log, size);
  }

  function Sum(log: seq<Outbound>, n: nat): nat {
    if n == 0 then 0 else Sum(log, n - 1) + Count(log, n - 1)
  }

  lemma {:induction false} SumAfter(log: seq<Outbound>, e: Outbound, n: nat)
    ensures Sum(log + [e], n) == Sum(log, n) + if e.Sent? && e.position < n then 1 else 0
  {
    if n > 0 {
      SumAfter(log, e, n - 1);
      CountAfter(log, e, n - 1);
    }
  }

  lemma {:induction false} SumOfNothing(n: nat)
    ensures Sum([], n) == 0
  {
    if n > 0 { SumOfNothing(n - 1); }
  }

  lemma {:induction false} TotalIsSum(log: seq<Outbound>, n: nat)
    requires forall i :: 0 <= i < |log| ==> log[i].position < n
    ensures Total(log) == Sum(log, n)
  {
    if log == [] {
      SumOfNothing(n);
    } else {
      var shorter := log[..|log| - 1];
      TotalIsSum(shorter, n);
      SumAfter(shorter, log[|log| - 1], n);
      assert shorter + [log[|log| - 1]] == log;
    }
  }

  lemma {:induction false} SumIsBounded(cfg: Config, log: seq<Outbound>, n: nat)
    requires forall p: nat :: Count(log, p) <= MaxSends(cfg)
    ensures Sum(log, n) <= n * MaxSends(cfg)
  {
    if n > 0 { SumIsBounded(cfg, log, n - 1); }
  }

  // --- sending -----------------------------------------------------------

  // About to send the current item.
  ghost predicate Poised(cfg: Config, w: World, k: Key, r: Record) {
    && k in w.records && w.records[k] == r && r.state == Sending && r.handle == None
    && var h := HistoryOf(w, k);
    && LogsBudget(cfg, h) && StallAttempts(w, k.line) <= cfg.smsLimitMaxAttempts
    && |h.turn.reply| == |r.queue| && r.index <= |r.queue| && Cursor(h.turn.log) == Some(r.index)
    && ItemBudget(cfg, r, h.turn.log, StallAttempts(w, k.line))
  }

  // The request was made and its answer is to be acted on.
  ghost predicate Attempting(cfg: Config, w: World, k: Key, r: Record) {
    && k in w.records && w.records[k] == r && r.state == Sending && r.handle == None
    && var h := HistoryOf(w, k);
    && LogsBudget(cfg, h) && StallAttempts(w, k.line) <= cfg.smsLimitMaxAttempts
    && |h.turn.reply| == |r.queue| && r.index < |r.queue| && Cursor(h.turn.log) == Some(r.index)
    && ItemBudget(cfg, r.(handle := Some("")), h.turn.log, StallAttempts(w, k.line))
  }

  lemma SkipPoises(cfg: Config, w: World, k: Key, r: Record)
    requires Attempting(cfg, w, k, r) || (Poised(cfg, w, k, r) && r.index < |r.queue|)
    ensures Poised(cfg, Skip(w, k, r), k, SkipRecord(r))
  {
    hide LogBudget;
    var h := HistoryOf(w, k);
    EndKeepsBudget(cfg, h.turn, Ended(r.index, Skipped));
    CursorAfter(h.turn.log, Ended(r.index, Skipped));
  }

  lemma AdvancePoises(cfg: Config, w: World, k: Key, r: Record, ending: Ending)
    requires k in w.records && r.state == Sending && r.index < |r.queue|
    requires var h := HistoryOf(w, k);
             && LogsBudget(cfg, h) && StallAttempts(w, k.line) <= cfg.smsLimitMaxAttempts
             && |h.turn.reply| == |r.queue| && Cursor(h.turn.log) == Some(r.index)
    requires forall i :: 0 <= i < |r.queue| ==> r.queue[i].retryCount <= cfg.transientRetryMaxAttempts
    ensures Poised(cfg, Advance(cfg, w, k, r, ending), k, AdvanceRecord(r))
  {
    hide LogBudget;
    var h := HistoryOf(w, k);
    EndKeepsBudget(cfg, h.turn, Ended(r.index, ending));
    CursorAfter(h.turn.log, Ended(r.index, ending));
  }

  lemma AttemptCounts(cfg: Config, w: World, k: Key, r: Record, answer: SendResult)
    requires Poised(cfg, w, k, r) && r.index < |r.queue|
    ensures Attempting(cfg, Attempted(w, k, r, answer), k, r)
  {
    hide LogBudget, Attempt;
    var h := HistoryOf(w, k);
    AttemptIsSent(r, answer);
    SendKeepsBudget(cfg, h.turn, Attempt(r, answer));
    CursorAfter(h.turn.log, Attempt(r, answer));
  }

  lemma StallsShrink(cfg: Config, w: World, k: Key)
    ensures StallAttempts(ClearStall(cfg, w, k.line), k.line) <= StallAttempts(w, k.line)
  {
  }

  lemma ToIdleIs(cfg: Config, w: World, k: Key, r: Record)
    ensures var w' := ToIdle(cfg, w, k, r);
            && w'.records == w.records[k := ToIdleRecord(r)] && w'.history == w.history
            && w'.stallCount == ClearStall(cfg, w, k.line).stallCount
  {
  }

  lemma IdleBudget(cfg: Config, w: World, k: Key, r: Record)
    requires LogsBudget(cfg, HistoryOf(w, k)) && StallAttempts(w, k.line) <= cfg.smsLimitMaxAttempts
    ensures BudgetOk(cfg, ToIdle(cfg, w, k, r), k)
  {
    hide LogsBudget, ToIdle, ClearStall;
    ToIdleIs(cfg, w, k, r);
    StallsShrink(cfg, w, k);
  }

  lemma {:induction false} SendFromBudget(cfg: Config, w: World, k: Key, r: Record, results: Results)
    requires Poised(cfg, w, k, r)
    ensures BudgetOk(cfg, SendFrom(cfg, w, k, r, results), k)
    decreases |r.queue| - r.index, 1
  {
    hide Poised, BudgetOk, Attempting, Unsendable, AfterAttempt, ToIdle, Skip, SkipRecord, Attempted;
    if r.index >= |r.queue| {
      PoisedFacts(cfg, w, k, r);
      IdleBudget(cfg, w, k, r);
    } else if Unsendable(cfg, k, r, Current(r).action) {
      SkipPoises(cfg, w, k, r);
      SkipGoesOn(r);
      SendFromBudget(cfg, Skip(w, k, r), k, SkipRecord(r), results);
    } else {
      AttemptCounts(cfg, w, k, r, results(r.index));
      AttemptBudget(cfg, Attempted(w, k, r, results(r.index)), k, r, results);
    }
  }

  lemma PoisedFacts(cfg: Config, w: World, k: Key, r: Record)
    requires Poised(cfg, w, k, r)
    ensures LogsBudget(cfg, HistoryOf(w, k)) && StallAttempts(w, k.line) <= cfg.smsLimitMaxAttempts
  {
  }

  lemma SkipGoesOn(r: Record)
    requires r.index < |r.queue|
    ensures SkipRecord(r).index == r.index + 1 && |SkipRecord(r).queue| == |r.queue|
  {
  }

  lemma AwaitBudget(cfg: Config, w: World, k: Key, r: Record, h: Handle)
    requires Attempting(cfg, w, k, r)
    ensures BudgetOk(cfg, AwaitStatus(w, k, r, h), k)
  {
    hide LogsBudget;
  }

  lemma RetryBudget(cfg: Config, w: World, k: Key, r: Record, attempts: nat)
    requires Attempting(cfg, w, k, r) && attempts == Current(r).retryCount + 1 <= cfg.transientRetryMaxAttempts
    ensures BudgetOk(cfg, ArmRetry(w, k, r, attempts), k)
  {
    hide LogsBudget;
  }

  lemma StallBudget(cfg: Config, w: World, k: Key, r: Record)
    requires Attempting(cfg, w, k, r) && !StallExhausted(cfg, w, k.line)
    ensures BudgetOk(cfg, ArmStall(w, k, Current(r)), k)
  {
    hide LogsBudget;
  }

  lemma RefusingKeepsAttempting(cfg: Config, w: World, k: Key, r: Record)
    requires Attempting(cfg, w, k, r)
    ensures Poised(cfg, Skip(RefuseStall(cfg, w, k.line), k, r), k, SkipRecord(r))
  {
    hide LogBudget;
    var h := HistoryOf(w, k);
    EndKeepsBudget(cfg, h.turn, Ended(r.index, Skipped));
    CursorAfter(h.turn.log, Ended(r.index, Skipped));
  }

  lemma {:induction false} AttemptBudget(cfg: Config, w: World, k: Key, r: Record, results: Results)
    requires r.index < |r.queue| && Attempting(cfg, w, k, r)
    ensures BudgetOk(cfg, AfterAttempt(cfg, w, k, r, results), k)
    decreases |r.queue| - r.index, 0
  {
    hide Poised, BudgetOk, Attempting, SendFrom, Skip, SkipRecord, Advance, AdvanceRecord, ArmRetry, ArmStall, AwaitStatus, RefuseStall, ClassifyError;
    SkipGoesOn(r);
    match Judge(cfg, Current(r), results(r.index)) {
      case InFlight(h) => AwaitBudget(cfg, w, k, r, h);
      case Fired =>
        var sent := SentRecord(r, None);
        AttemptAdvances(cfg, w, k, r);
        AdvanceLeavesNoHandle(r);
        SendFromBudget(cfg, Advance(cfg, w, k, sent, Unconfirmed), k, AdvanceRecord(sent), results);
      case Retry(attempts) => RetryBudget(cfg, w, k, r, attempts);
      case TryStall =>
        if CanStall(cfg, w, k.line) {
          StallBudget(cfg, w, k, r);
        } else {
          RefusingKeepsAttempting(cfg, w, k, r);
          SendFromBudget(cfg, Skip(RefuseStall(cfg, w, k.line), k, r), k, SkipRecord(r), results);
        }
      case GiveUp =>
        SkipPoises(cfg, w, k, r);
        SendFromBudget(cfg, Skip(w, k, r), k, SkipRecord(r), results);
    }
  }

  lemma AttemptAdvances(cfg: Config, w: World, k: Key, r: Record)
    requires Attempting(cfg, w, k, r)
    ensures Poised(cfg, Advance(cfg, w, k, SentRecord(r, None), Unconfirmed), k, AdvanceRecord(SentRecord(r, None)))
  {
    hide LogsBudget, Poised, Advance;
    AdvancePoises(cfg, w, k, SentRecord(r, None), Unconfirmed);
  }

  // --- the handlers ------------------------------------------------------

  // Neither the log nor the line's counter is touched by buffering.
  lemma ProcessIs(w: World, k: Key)
    requires k in w.records
    ensures var w' := ProcessBuffer(w, k);
            && k in w'.records && w'.stallCount == w.stallCount
            && (w.records[k].state == Buffering ==> w'.records[k].state != Sending)
            && HistoryOf(w', k).past == HistoryOf(w, k).past
            && HistoryOf(w', k).turn == HistoryOf(w, k).turn.(requests := HistoryOf(w', k).turn.requests)
  {
    var r := w.records[k];
    if r.state != Buffering || r.inboundBuffer == [] { assert ProcessBuffer(w, k) == w; }
  }

  lemma ProcessBudget(cfg: Config, w: World, k: Key)
    requires k in w.records && w.records[k].state == Buffering
    requires LogsBudget(cfg, HistoryOf(w, k)) && StallAttempts(w, k.line) <= cfg.smsLimitMaxAttempts
    ensures BudgetOk(cfg, ProcessBuffer(w, k), k)
  {
    hide ProcessBuffer, HistoryOf;
    ProcessIs(w, k);
  }

  lemma ScheduleBudget(cfg: Config, w: World, k: Key, delayMs: int)
    requires k in w.records && w.records[k].state == Buffering
    requires LogsBudget(cfg, HistoryOf(w, k)) && StallAttempts(w, k.line) <= cfg.smsLimitMaxAttempts
    ensures BudgetOk(cfg, Schedule(w, k, delayMs), k)
  {
    hide ProcessBuffer, LogsBudget;
    if delayMs <= 0 { ProcessBudget(cfg, w.(buffer := w.buffer - {k}), k); }
  }

  lemma RebufferBudget(cfg: Config, w: World, k: Key, r: Record, h: History, delayMs: int)
    requires r.state == Buffering && LogsBudget(cfg, h) && StallAttempts(w, k.line) <= cfg.smsLimitMaxAttempts
    ensures BudgetOk(cfg, Schedule(Remember(Persist(w, k, r), k, h), k, delayMs), k)
  {
    hide Schedule, LogsBudget, BudgetOk;
    ScheduleBudget(cfg, Remember(Persist(w, k, r), k, h), k, delayMs);
  }

  lemma BeginBudget(cfg: Config, h: History, m: Inbound)
    requires LogsBudget(cfg, h)
    ensures LogsBudget(cfg, Begin(h, m)) && LogsBudget(cfg, Accept(h, m))
  {
  }

  lemma AcceptBudget(cfg: Config, w: World, k: Key, r: Record, m: Inbound, delayMs: int)
    requires LogsBudget(cfg, HistoryOf(w, k)) && StallAttempts(w, k.line) <= cfg.smsLimitMaxAttempts
    ensures BudgetOk(cfg, AcceptInbound(cfg, w, k, r, m, delayMs), k)
  {
    hide Schedule, LogsBudget, BudgetOk, Interrupt, Begin, Accept, StallAttempts;
    var h := HistoryOf(w, k);
    BeginBudget(cfg, h, m);
    match r.state {
      case Idle =>
        RebufferBudget(cfg, w, k, OpenBuffer(r, m).(delivered := [], cancelled := [], reprocessCount := 0), Begin(h, m), delayMs);
      case Buffering => RebufferBudget(cfg, w, k, BufferMore(r, m), Accept(h, m), delayMs);
      case Processing => LateBudget(cfg, w, k, ArriveLate(r, m), Accept(h, m));
      case Sending => InterruptBudget(cfg, w, k, r, m, delayMs);
    }
  }

  lemma LateBudget(cfg: Config, w: World, k: Key, r: Record, h: History)
    requires r.state == Processing && LogsBudget(cfg, h) && StallAttempts(w, k.line) <= cfg.smsLimitMaxAttempts
    ensures BudgetOk(cfg, Remember(Persist(w, k, r), k, h), k)
  {
    hide LogsBudget;
  }

  lemma StoppedStalls(cfg: Config, w: World, k: Key, r: Record)
    ensures StallAttempts(ClearCurrent(ClearStall(cfg, ClearRetry(w, k), k.line), r), k.line) <= StallAttempts(w, k.line)
  {
  }

  lemma InterruptBudget(cfg: Config, w: World, k: Key, r: Record, m: Inbound, delayMs: int)
    requires LogsBudget(cfg, HistoryOf(w, k)) && StallAttempts(w, k.line) <= cfg.smsLimitMaxAttempts
    ensures BudgetOk(cfg, Interrupt(cfg, w, k, r, m, delayMs), k)
  {
    hide Schedule, LogsBudget, BudgetOk, Begin, EndRest, ClearStall, ClearCurrent, StallAttempts, CancelledSummaries;
    var h := EndRest(HistoryOf(w, k), r.index, Cancelled);
    EndRestKeepsBudget(cfg, HistoryOf(w, k), r.index, Cancelled);
    BeginBudget(cfg, h, m);
    StoppedStalls(cfg, w, k, r);
    var w1 := ClearCurrent(ClearStall(cfg, ClearRetry(w, k), k.line), r);
    RebufferBudget(cfg, w1, k, OpenBuffer(r, m).(cancelled := CancelledSummaries(cfg, r)), Begin(h, m), delayMs);
  }

  // The new record differs from the old one in its channel only.
  lemma PassedOverBudget(cfg: Config, w: World, k: Key, r: Record)
    requires k in w.records ==> BudgetOk(cfg, w, k) && r == w.records[k].(channel := r.channel, smsDowngraded := r.smsDowngraded)
    requires k !in w.records ==> k !in w.history && r.state == Idle && StallAttempts(w, k.line) <= cfg.smsLimitMaxAttempts
    ensures BudgetOk(cfg, Persist(w, k, r), k)
  {
  }

  lemma ReceiveBudget(cfg: Config, w: World, k: Key, m: Inbound, channel: Channel, downgraded: bool, gate: Gate,
                      now: int, delayMs: int)
    requires Inv(cfg, w) && StallAttempts(w, k.line) <= cfg.smsLimitMaxAttempts && (k in w.records ==> BudgetOk(cfg, w, k))
    ensures var w' := Receive(cfg, w, k, m, channel, downgraded, gate, now, delayMs);
            StallAttempts(w', k.line) <= cfg.smsLimitMaxAttempts && (k in w'.records ==> BudgetOk(cfg, w', k))
  {
    hide Inv, AcceptInbound, PassedOver, LogsBudget, ItemBudget;
    if !ClaimHolds(w, m.handle, now) {
      var w1 := Claim(cfg, w, m.handle, now);
      if k !in w.records { NothingUnknown(cfg, w, k); NoLogBudget(cfg); }
      if gate == Accepted {
        AcceptBudget(cfg, w1, k, ApplyChannel(KnownOrIdle(w1, k), channel, downgraded), m, delayMs);
      } else {
        PassedOverIs(w1, k, channel, downgraded, gate);
        PassedOverBudget(cfg, w1, k, PassedOver(w1, k, channel, downgraded, gate));
      }
    }
  }

  lemma NoLogBudget(cfg: Config)
    ensures LogsBudget(cfg, NoHistory())
  {
  }

  lemma OutcomeBudget(cfg: Config, h: History, stamp: int, actions: seq<QueuedAction>)
    requires LogsBudget(cfg, h) && h.turn.log == []
    ensures LogsBudget(cfg, Fail(h)) && LogsBudget(cfg, Answer(h, stamp, actions))
  {
  }

  lemma ReplyBudget(cfg: Config, w: World, k: Key, reply: ChatResult, now: int, delayMs: int, results: Results)
    requires Inv(cfg, w) && k in w.chats && BudgetOk(cfg, w, k) && (reply.Replied? ==> NoSilence(reply.actions))
    ensures BudgetOk(cfg, ChatReply(cfg, w, k, reply, now, delayMs, results), k)
  {
    hide Inv, SendFrom, ToIdle, Schedule, LogsBudget, BudgetOk, TurnOk, ItemBudget, NoSilence, Reprocess, StartSending;
    ReleaseChat(cfg, w, k);
    Own(cfg, w, k);
    ConversationFacts(cfg, w, k);
    BudgetFacts(cfg, w, k);
    ProcessingHasNoLog(cfg, w.records[k], HistoryOf(w, k));
    var w1 := w.(chats := w.chats - {k});
    var h, latest := HistoryOf(w, k), w.records[k];
    match reply {
      case Failed =>
        OutcomeBudget(cfg, h, now, []);
        GoneIdleBudget(cfg, w1, k, Fail(h), w.chats[k]);
      case Replied(actions) =>
        if latest.lateArrivals != [] && latest.reprocessCount < cfg.maxReprocessAttempts {
          ReprocessBudget(cfg, w1, k, delayMs);
        } else if actions == [] {
          OutcomeBudget(cfg, h, h.stamp, []);
          GoneIdleBudget(cfg, w1, k, Answer(h, h.stamp, []), latest);
        } else {
          StartBudget(cfg, w1, k, actions, now, results);
        }
    }
  }

  lemma BudgetFacts(cfg: Config, w: World, k: Key)
    requires BudgetOk(cfg, w, k)
    ensures k in w.records && LogsBudget(cfg, HistoryOf(w, k)) && StallAttempts(w, k.line) <= cfg.smsLimitMaxAttempts
    ensures w.records[k].state == Sending ==> ItemBudget(cfg, w.records[k], HistoryOf(w, k).turn.log, StallAttempts(w, k.line))
  {
  }

  lemma ProcessingHasNoLog(cfg: Config, r: Record, h: History)
    requires TurnOk(cfg, r, h) && r.state == Processing
    ensures h.turn.log == []
  {
  }

  lemma GoneIdleBudget(cfg: Config, w: World, k: Key, h: History, r: Record)
    requires LogsBudget(cfg, h) && StallAttempts(w, k.line) <= cfg.smsLimitMaxAttempts
    ensures BudgetOk(cfg, ToIdle(cfg, Remember(w, k, h), k, r), k)
  {
    hide LogsBudget, ToIdle, BudgetOk;
    IdleBudget(cfg, Remember(w, k, h), k, r);
  }

  lemma ReprocessBudget(cfg: Config, w: World, k: Key, delayMs: int)
    requires k in w.records && LogsBudget(cfg, HistoryOf(w, k)) && StallAttempts(w, k.line) <= cfg.smsLimitMaxAttempts
    ensures BudgetOk(cfg, Schedule(Persist(w, k, Reprocess(w.records[k])), k, delayMs), k)
  {
    hide LogsBudget, Schedule, BudgetOk;
    ScheduleBudget(cfg, Persist(w, k, Reprocess(w.records[k])), k, delayMs);
  }

  lemma StartBudget(cfg: Config, w: World, k: Key, actions: seq<QueuedAction>, now: int, results: Results)
    requires k in w.records && LogsBudget(cfg, HistoryOf(w, k)) && StallAttempts(w, k.line) <= cfg.smsLimitMaxAttempts
    requires HistoryOf(w, k).turn.log == []
    ensures var r := StartSending(w.records[k], actions, now);
            BudgetOk(cfg, SendFrom(cfg, Remember(Persist(w, k, r), k, Answer(HistoryOf(w, k), now, actions)), k, r, results), k)
  {
    hide LogsBudget, SendFrom, BudgetOk;
    OutcomeBudget(cfg, HistoryOf(w, k), now, actions);
    var r := StartSending(w.records[k], actions, now);
    SendFromBudget(cfg, Remember(Persist(w, k, r), k, Answer(HistoryOf(w, k), now, actions)), k, r, results);
  }

  // The conversation's item is in flight or waits, and its turn is as the
  // invariant says.
  ghost predicate Underway(cfg: Config, w: World, k: Key, r: Record) {
    && k in w.records && r.state == Sending && r.index < |r.queue|
    && var h := HistoryOf(w, k);
    && LogsBudget(cfg, h) && StallAttempts(w, k.line) <= cfg.smsLimitMaxAttempts
    && |h.turn.reply| == |r.queue| && Cursor(h.turn.log) == Some(r.index)
    && ItemBudget(cfg, r, h.turn.log, StallAttempts(w, k.line))
  }

  lemma AdvanceBudget(cfg: Config, w: World, k: Key, r: Record, h: Handle, ending: Ending, results: Results)
    requires Underway(cfg, w, k, r)
    ensures BudgetOk(cfg, AdvanceQueue(cfg, w, k, r, h, ending, results), k)
  {
    hide LogsBudget, SendFrom, BudgetOk, Advance, Poised;
    AdvancePoises(cfg, ClearHandle(w, h), k, r, ending);
    SendFromBudget(cfg, Advance(cfg, ClearHandle(w, h), k, r, ending), k, AdvanceRecord(r), results);
  }

  lemma AbortBudget(cfg: Config, w: World, k: Key, r: Record, h: Handle)
    requires LogsBudget(cfg, HistoryOf(w, k)) && StallAttempts(w, k.line) <= cfg.smsLimitMaxAttempts
    ensures BudgetOk(cfg, AbortQueue(cfg, w, k, r, h), k)
  {
    hide LogsBudget, ToIdle, BudgetOk, EndRest;
    EndRestKeepsBudget(cfg, HistoryOf(w, k), r.index, Aborted);
    GoneIdleBudget(cfg, ClearHandle(w, h), k, EndRest(HistoryOf(w, k), r.index, Aborted), r);
  }

  lemma RearmBudget(cfg: Config, w: World, k: Key, r: Record)
    requires Underway(cfg, w, k, r)
    ensures Current(r).retryCount + 1 <= cfg.transientRetryMaxAttempts ==>
              BudgetOk(cfg, ArmRetry(w, k, r, Current(r).retryCount + 1), k)
  {
    hide LogsBudget;
  }

  lemma RestallBudget(cfg: Config, w: World, k: Key, r: Record)
    requires Underway(cfg, w, k, r) && !StallExhausted(cfg, w, k.line)
    ensures var r1 := WithCurrent(r, Current(r).(messageHandle := None)).(handle := None);
            BudgetOk(cfg, ArmStall(Persist(w, k, r1), k, Current(r1)), k)
  {
    hide LogsBudget;
  }

  lemma RefusedBudget(cfg: Config, w: World, k: Key, r: Record, h: Handle)
    requires LogsBudget(cfg, HistoryOf(w, k)) && StallAttempts(w, k.line) <= cfg.smsLimitMaxAttempts
    ensures forall r1: Record :: BudgetOk(cfg, AbortQueue(cfg, RefuseStall(cfg, Persist(w, k, r1), k.line), k, r, h), k)
  {
    hide LogsBudget, AbortQueue, BudgetOk;
    forall r1: Record ensures BudgetOk(cfg, AbortQueue(cfg, RefuseStall(cfg, Persist(w, k, r1), k.line), k, r, h), k) {
      AbortBudget(cfg, RefuseStall(cfg, Persist(w, k, r1), k.line), k, r, h);
    }
  }

  lemma FailedBudget(cfg: Config, w: World, k: Key, r: Record, c: Callback)
    requires Underway(cfg, w, k, r)
    ensures BudgetOk(cfg, FailedStatus(cfg, w, k, r, c), k)
  {
    hide LogsBudget, AbortQueue, BudgetOk, Underway, ArmRetry, ArmStall, RefuseStall, ClassifyStatusErrorCode;
    UnderwayFacts(cfg, w, k, r, c.handle);
    var category := ClassifyStatusErrorCode(c.errorCode);
    var w1 := ClearHandle(w, c.handle);
    AbortBudget(cfg, w, k, r, c.handle);
    if cfg.limitTracker && category != Permanent {
      match Route(cfg, Current(r), category) {
        case Retry(_) => RearmBudget(cfg, w1, k, r);
        case TryStall =>
          var r1 := WithCurrent(r, Current(r).(messageHandle := None)).(handle := None);
          if CanStall(cfg, Persist(w1, k, r1), k.line) {
            RestallBudget(cfg, w1, k, r);
          } else {
            RefusedBudget(cfg, w1, k, r1, c.handle);
          }
        case _ => AbortBudget(cfg, w1, k, r, c.handle);
      }
    }
  }

  lemma UnderwayFacts(cfg: Config, w: World, k: Key, r: Record, h: Handle)
    requires Underway(cfg, w, k, r)
    ensures r.index < |r.queue| && LogsBudget(cfg, HistoryOf(w, k)) && StallAttempts(w, k.line) <= cfg.smsLimitMaxAttempts
    ensures var w1 := ClearHandle(w, h);
            Underway(cfg, w1, k, r) && HistoryOf(w1, k) == HistoryOf(w, k) && StallAttempts(w1, k.line) == StallAttempts(w, k.line)
  {
    hide LogsBudget, ItemBudget;
  }

  lemma IsUnderway(cfg: Config, w: World, k: Key, channel: Channel, downgraded: bool)
    requires Inv(cfg, w) && BudgetOk(cfg, w, k) && w.records[k].state == Sending
    ensures Underway(cfg, w, k, ApplyChannel(w.records[k], channel, downgraded))
    ensures Underway(cfg, w, k, w.records[k])
  {
    hide Inv, TurnOk, LogsBudget;
    Own(cfg, w, k);
    ConversationFacts(cfg, w, k);
    TurnsOver(cfg, w.records[k], HistoryOf(w, k));
  }

  lemma StatusBudget(cfg: Config, w: World, c: Callback, results: Results)
    requires Inv(cfg, w) && c.handle in w.mapping && BudgetOk(cfg, w, w.mapping[c.handle].key)
    ensures BudgetOk(cfg, StatusCallback(cfg, w, c, results), w.mapping[c.handle].key)
  {
    hide Inv, TurnOk, LogsBudget, Underway, FailedStatus, AdvanceQueue, BudgetOk, ApplyChannel;
    var k := w.mapping[c.handle].key;
    MappingIsKnown(cfg, w, c.handle);
    var channel := ChannelFromStatus(c, w.records[k].channel);
    IsUnderway(cfg, w, k, channel, c.downgraded);
    var r := ApplyChannel(w.records[k], channel, c.downgraded);
    ChannelOnly(w.records[k], channel, c.downgraded);
    if c.status == ERROR || c.status == DECLINED {
      FailedBudget(cfg, w, k, r, c);
    } else if c.status == SuccessStatus(r) {
      AdvanceBudget(cfg, w, k, r, c.handle, Confirmed, results);
    } else {
      PassedOverBudget(cfg, w, k, r);
    }
  }

  lemma TimeoutBudget(cfg: Config, w: World, h: Handle, results: Results)
    requires Inv(cfg, w) && h in w.delivery && BudgetOk(cfg, w, w.delivery[h])
    ensures BudgetOk(cfg, DeliveryTimeout(cfg, w, h, results), w.delivery[h])
  {
    hide Inv, TurnOk, LogsBudget, Underway, AdvanceQueue, DeliveryTimeout, BudgetOk;
    var k := w.delivery[h];
    TimeoutAdvances(cfg, w, h, results);
    IsUnderway(cfg, w, k, UnknownChannel, false);
    AdvanceBudget(cfg, w, k, w.records[k], h, TimedOut, results);
  }

  lemma WaitingIsPoised(cfg: Config, w: World, w': World, k: Key)
    requires k in w.records && Underway(cfg, w, k, w.records[k]) && w.records[k].handle == None
    requires w'.records == w.records && w'.history == w.history && w'.stallCount == w.stallCount
    ensures Poised(cfg, w', k, w.records[k])
  {
    hide LogsBudget;
  }

  lemma RetryTimerBudget(cfg: Config, w: World, k: Key, results: Results)
    requires Inv(cfg, w) && k in w.retry && BudgetOk(cfg, w, k)
    ensures BudgetOk(cfg, RetryTimer(cfg, w, k, results), k)
  {
    hide Inv, TurnOk, LogsBudget, Underway, SendFrom, BudgetOk, Poised;
    ReleaseRetry(cfg, w, k);
    IsUnderway(cfg, w, k, UnknownChannel, false);
    WaitingIsPoised(cfg, w, ClearRetry(w, k), k);
    SendFromBudget(cfg, ClearRetry(w, k), k, w.records[k], results);
  }

  lemma StallTimerBudget(cfg: Config, w: World, l: Line, results: Results)
    requires Inv(cfg, w) && l in w.stalls && BudgetOk(cfg, w, w.stalls[l].key)
    ensures BudgetOk(cfg, StallTimer(cfg, w, l, results), w.stalls[l].key)
  {
    hide Inv, TurnOk, LogsBudget, Underway, SendFrom, BudgetOk, Poised;
    ReleaseStall(cfg, w, l);
    var k := w.stalls[l].key;
    IsUnderway(cfg, w, k, UnknownChannel, false);
    var w1 := w.(stalls := w.stalls - {l});
    WaitingIsPoised(cfg, w, w1, k);
    SendFromBudget(cfg, w1, k, w.records[k], results);
  }

  lemma BufferTimerBudget(cfg: Config, w: World, k: Key)
    requires Inv(cfg, w) && k in w.buffer && BudgetOk(cfg, w, k)
    ensures BudgetOk(cfg, BufferTimer(w, k), k)
  {
    hide Inv, ProcessBuffer, LogsBudget, ItemBudget;
    ReleaseBuffer(cfg, w, k);
    ProcessBudget(cfg, w.(buffer := w.buffer - {k}), k);
  }

  // --- runs --------------------------------------------------------------

  ghost predicate Budgets(cfg: Config, w: World) {
    && (forall k :: k in w.records ==> BudgetOk(cfg, w, k))
    && (forall l :: StallAttempts(w, l) <= cfg.smsLimitMaxAttempts)
  }

  lemma ActorBudget(cfg: Config, w: World, e: Event)
    requires Inv(cfg, w) && Allowed(w, e) && Budgets(cfg, w) && Actor(w, e).Some?
    ensures var k, w' := Actor(w, e).value, Step(cfg, w, e);
            StallAttempts(w', k.line) <= cfg.smsLimitMaxAttempts && (k in w'.records ==> BudgetOk(cfg, w', k))
  {
    hide Inv, Receive, BufferTimer, ChatReply, StatusCallback, DeliveryTimeout, RetryTimer, StallTimer, LogsBudget, ItemBudget, Fresh, NoSilence;
    ActorIsKnown(cfg, w, e);
    assert StallAttempts(w, Actor(w, e).value.line) <= cfg.smsLimitMaxAttempts;
    match e {
      case Receives(k, m, channel, downgraded, gate, now, delayMs) => ReceiveBudget(cfg, w, k, m, channel, downgraded, gate, now, delayMs);
      case BufferFires(k) => BufferTimerBudget(cfg, w, k);
      case ChatReturns(k, reply, now, delayMs, results) => ReplyBudget(cfg, w, k, reply, now, delayMs, results);
      case StatusArrives(c, results) => StatusBudget(cfg, w, c, results);
      case TimeoutFires(h, results) => TimeoutBudget(cfg, w, h, results);
      case RetryFires(k, results) => RetryTimerBudget(cfg, w, k, results);
      case StallFires(l, results) => StallTimerBudget(cfg, w, l, results);
    }
  }

  // The requests made for the conversation's current item are covered by its
  // retries, the request in flight and n stalls of its line.
  predicate Covered(w: World, k: Key, n: nat)
    requires k in w.records
  {
    var r := w.records[k];
    r.state == Sending && r.index < |r.queue| ==>
      Count(HistoryOf(w, k).turn.log, r.index) <= Current(r).retryCount + n + if r.handle.Some? then 1 else 0
  }

  // What the step leaves on the line's counter still covers every other
  // conversation of the line.
  predicate OthersCovered(cfg: Config, w: World, e: Event) {
    Actor(w, e).Some? ==>
      forall o :: o in w.records && o != Actor(w, e).value && o.line == Actor(w, e).value.line ==>
        Covered(w, o, StepLine(cfg, w, e).count)
  }

  // A step keeps the budgets if and only if it does.
  lemma StepBudgetsExactlyWhen(cfg: Config, w: World, e: Event)
    requires Inv(cfg, w) && Allowed(w, e) && Budgets(cfg, w)
    ensures Budgets(cfg, Step(cfg, w, e)) <==> OthersCovered(cfg, w, e)
  {
    hide Inv, Step, Allowed, Actor, StepLine, Covered;
    StepWithin(cfg, w, e);
    if Actor(w, e).Some? {
      var k, w' := Actor(w, e).value, Step(cfg, w, e);
      ActorBudget(cfg, w, e);
      StepLineIsRight(cfg, w, e);
      forall o | o in w.records && o != k ensures BudgetOk(cfg, w', o) <==> (o.line == k.line ==> Covered(w, o, StepLine(cfg, w, e).count)) {
        OtherBudget(cfg, w, w', k, o, StepLine(cfg, w, e));
      }
      BudgetsMeans(cfg, w, w', k, StepLine(cfg, w, e).count);
    }
  }

  lemma BudgetsMeans(cfg: Config, w: World, w': World, k: Key, n: nat)
    requires Budgets(cfg, w) && Within(w, w', k) && StallAttempts(w', k.line) <= cfg.smsLimitMaxAttempts
    requires k in w'.records ==> BudgetOk(cfg, w', k)
    requires forall o :: o in w.records && o != k ==> (BudgetOk(cfg, w', o) <==> (o.line == k.line ==> Covered(w, o, n)))
    ensures Budgets(cfg, w') <==> forall o :: o in w.records && o != k && o.line == k.line ==> Covered(w, o, n)
  {
    hide BudgetOk, Covered;
    forall o | o != k ensures o in w.records <==> o in w'.records { assert SameConversation(w, w', o); }
    forall l ensures StallAttempts(w', l) <= cfg.smsLimitMaxAttempts {
      assert StallAttempts(w, l) <= cfg.smsLimitMaxAttempts;
      assert l != k.line ==> SameLine(w, w', l, k);
    }
    if Budgets(cfg, w') {
      forall o | o in w.records && o != k && o.line == k.line ensures Covered(w, o, n) { assert BudgetOk(cfg, w', o); }
    }
  }

  lemma OtherBudget(cfg: Config, w: World, w': World, k: Key, o: Key, s: LineState)
    requires Within(w, w', k) && Budgets(cfg, w) && o != k && o in w.records
    requires OnLine(w, w', k, s) && StallAttempts(w', k.line) <= cfg.smsLimitMaxAttempts
    ensures BudgetOk(cfg, w', o) <==> (o.line == k.line ==> Covered(w, o, s.count))
  {
    hide LogsBudget;
    assert SameConversation(w, w', o);
    assert SameLine(w, w', o.line, k);
    assert BudgetOk(cfg, w, o);
  }

  predicate CoveredRun(cfg: Config, w: World, es: seq<Event>)
    decreases |es|
  {
    es != [] ==> OthersCovered(cfg, w, es[0]) && CoveredRun(cfg, Step(cfg, w, es[0]), es[1..])
  }

  ghost predicate AlwaysBudgeted(cfg: Config, w: World, es: seq<Event>)
    decreases |es|
  {
    Budgets(cfg, w) && (es != [] ==> AlwaysBudgeted(cfg, Step(cfg, w, es[0]), es[1..]))
  }

  // A run keeps the budgets throughout if and only if every step of it does.
  lemma {:induction false} BudgetedExactlyWhen(cfg: Config, w: World, es: seq<Event>)
    requires Inv(cfg, w) && AllowedRun(cfg, w, es) && Budgets(cfg, w)
    ensures AlwaysBudgeted(cfg, w, es) <==> CoveredRun(cfg, w, es)
    decreases |es|
  {
    hide Inv, Step, Allowed, Budgets, OthersCovered;
    if es != [] {
      StepKeeps(cfg, w, es[0]);
      StepBudgetsExactlyWhen(cfg, w, es[0]);
      if Budgets(cfg, Step(cfg, w, es[0])) {
        BudgetedExactlyWhen(cfg, Step(cfg, w, es[0]), es[1..]);
      } else {
        OverspentNow(cfg, Step(cfg, w, es[0]), es[1..]);
      }
    }
  }

  lemma OverspentNow(cfg: Config, w: World, es: seq<Event>)
    requires !Budgets(cfg, w)
    ensures !AlwaysBudgeted(cfg, w, es)
  {
  }

  lemma {:induction false} RunBudgets(cfg: Config, w: World, es: seq<Event>)
    requires Inv(cfg, w) && AllowedRun(cfg, w, es) && Budgets(cfg, w) && CoveredRun(cfg, w, es)
    ensures Budgets(cfg, Run(cfg, w, es))
    decreases |es|
  {
    hide Inv, Step, Allowed, Budgets, OthersCovered;
    if es != [] {
      StepKeeps(cfg, w, es[0]);
      StepBudgetsExactlyWhen(cfg, w, es[0]);
      RunBudgets(cfg, Step(cfg, w, es[0]), es[1..]);
    }
  }

  lemma NothingSpent(cfg: Config)
    ensures Budgets(cfg, Empty)
  {
  }

  // In every run whose steps leave the other conversations of their line
  // covered, no item of any turn has been sent more often than once plus both
  // retry budgets, and no turn has made more requests than that many for each of
  // its items.
  lemma SendsAreBounded(cfg: Config, es: seq<Event>, k: Key, t: Turn)
    requires AllowedRun(cfg, Empty, es) && CoveredRun(cfg, Empty, es) && k in Run(cfg, Empty, es).records
    requires var h := HistoryOf(Run(cfg, Empty, es), k); t == h.turn || t in h.past
    ensures forall p: nat :: Count(t.log, p) <= 1 + cfg.transientRetryMaxAttempts + cfg.smsLimitMaxAttempts
    ensures Total(t.log) <= |t.reply| * (1 + cfg.transientRetryMaxAttempts + cfg.smsLimitMaxAttempts)
  {
    hide Inv, Step, Allowed, ItemBudget, Total, OthersCovered;
    EmptyInv(cfg);
    NothingSpent(cfg);
    RunBudgets(cfg, Empty, es);
    assert BudgetOk(cfg, Run(cfg, Empty, es), k);
    assert LogBudget(cfg, t);
    TotalIsBounded(cfg, t.log, |t.reply|);
  }

  // --- lines of one conversation -----------------------------------------

  lemma OwnedIsCovered(cfg: Config, w: World, e: Event, owner: map<Line, Key>)
    requires Inv(cfg, w) && Owned(w, owner) && OwnedRun([e], owner)
    ensures OthersCovered(cfg, w, e)
  {
    hide Inv, Actor, StepLine, Covered;
    assert [e][0] == e;
    if Actor(w, e).Some? { ActorIsKnown(cfg, w, e); }
  }

  lemma {:induction false} OwnedRunIsCovered(cfg: Config, w: World, es: seq<Event>, owner: map<Line, Key>)
    requires Inv(cfg, w) && AllowedRun(cfg, w, es) && Owned(w, owner) && OwnedRun(es, owner)
    ensures CoveredRun(cfg, w, es)
    decreases |es|
  {
    hide Inv, Step, Allowed, OthersCovered;
    if es != [] {
      var w' := Step(cfg, w, es[0]);
      assert OwnedRun([es[0]], owner) by { assert [es[0]][0] == es[0]; }
      OwnedIsCovered(cfg, w, es[0], owner);
      StepKeeps(cfg, w, es[0]);
      RecordsAreReceived(cfg, w, es[0]);
      forall i | 0 <= i < |es[1..]| && es[1..][i].Receives?
        ensures es[1..][i].key.line in owner && owner[es[1..][i].key.line] == es[1..][i].key
      {
        assert es[1..][i] == es[i + 1];
      }
      OwnedRunIsCovered(cfg, w', es[1..], owner);
    }
  }

  // With one conversation per line every run is such a run.
  lemma SendsAreBoundedPerLine(cfg: Config, es: seq<Event>, owner: map<Line, Key>, k: Key, t: Turn)
    requires AllowedRun(cfg, Empty, es) && OwnedRun(es, owner) && k in Run(cfg, Empty, es).records
    requires var h := HistoryOf(Run(cfg, Empty, es), k); t == h.turn || t in h.past
    ensures forall p: nat :: Count(t.log, p) <= 1 + cfg.transientRetryMaxAttempts + cfg.smsLimitMaxAttempts
    ensures Total(t.log) <= |t.reply| * (1 + cfg.transientRetryMaxAttempts + cfg.smsLimitMaxAttempts)
  {
    hide Step, Allowed, OthersCovered, Count, Total;
    EmptyInv(cfg);
    OwnedRunIsCovered(cfg, Empty, es, owner);
    SendsAreBounded(cfg, es, k, t);
  }
}
