// Without SMS-limit errors the line has no part in the retry budget: on any
// lines each item is sent at most once plus its transient attempts.
module TransientBudget {
  import opened Wrappers
  import opened StatusTracker
  import opened ErrorClass
  import opened ConversationTypes
  import opened History
  import opened ConversationModel
  import opened ConversationInvariant
  import opened ConversationSteps
  import opened ConversationRuns
  import opened ConversationLines
  import opened ConversationBudget

  // The same agent, allowed no stall at all.
  function Unstalled(cfg: Config): Config {
    cfg.(smsLimitMaxAttempts := 0)
  }

  // Without SMS-limit errors it does what the agent does.

  lemma LittleAlike(cfg: Config, w: World, k: Key, r: Record)
    ensures ToIdle(Unstalled(cfg), w, k, r) == ToIdle(cfg, w, k, r)
    ensures ClearStall(Unstalled(cfg), w, k.line) == ClearStall(cfg, w, k.line)
    ensures forall a :: Unsendable(Unstalled(cfg), k, r, a) == Unsendable(cfg, k, r, a)
    ensures forall ending :: Advance(Unstalled(cfg), w, k, r, ending) == Advance(cfg, w, k, r, ending)
  {
  }

  lemma JudgedAlike(cfg: Config, item: Item, result: SendResult)
    requires result.Threw? ==> ClassifyError(result.error) != SmsLimited
    ensures Judge(Unstalled(cfg), item, result) == Judge(cfg, item, result) != TryStall
  {
    hide ClassifyError;
  }

  lemma {:induction false} SendFromAlike(cfg: Config, w: World, k: Key, r: Record, results: Results)
    requires NoSmsResults(results)
    ensures SendFrom(Unstalled(cfg), w, k, r, results) == SendFrom(cfg, w, k, r, results)
    decreases if r.index < |r.queue| then |r.queue| - r.index else 0, 1
  {
    hide Unsendable, ToIdle, Advance, Attempted, Skip, AfterAttempt, NoSmsResults, Unstalled;
    LittleAlike(cfg, w, k, r);
    if r.index < |r.queue| {
      if Unsendable(cfg, k, r, Current(r).action) {
        SendFromAlike(cfg, Skip(w, k, r), k, SkipRecord(r), results);
      } else {
        AttemptAlike(cfg, Attempted(w, k, r, results(r.index)), k, r, results);
      }
    }
  }

  lemma {:induction false} AttemptAlike(cfg: Config, w: World, k: Key, r: Record, results: Results)
    requires NoSmsResults(results) && r.index < |r.queue|
    ensures AfterAttempt(Unstalled(cfg), w, k, r, results) == AfterAttempt(cfg, w, k, r, results)
    decreases |r.queue| - r.index, 0
  {
    hide SendFrom, Advance, Skip, Judge, ClassifyError, Unstalled;
    JudgedAlike(cfg, Current(r), results(r.index));
    match Judge(cfg, Current(r), results(r.index)) {
      case Fired =>
        var sent := SentRecord(r, None);
        LittleAlike(cfg, w, k, sent);
        SendFromAlike(cfg, Advance(cfg, w, k, sent, Unconfirmed), k, AdvanceRecord(sent), results);
      case GiveUp => SendFromAlike(cfg, Skip(w, k, r), k, SkipRecord(r), results);
      case _ =>
    }
  }

  lemma AdvanceQueueAlike(cfg: Config, w: World, k: Key, r: Record, h: Handle, ending: Ending, results: Results)
    requires NoSmsResults(results)
    ensures AdvanceQueue(Unstalled(cfg), w, k, r, h, ending, results) == AdvanceQueue(cfg, w, k, r, h, ending, results)
  {
    hide SendFrom, Advance, NoSmsResults, Unstalled;
    LittleAlike(cfg, ClearHandle(w, h), k, r);
    SendFromAlike(cfg, Advance(cfg, ClearHandle(w, h), k, r, ending), k, AdvanceRecord(r), results);
  }

  lemma FailedAlike(cfg: Config, w: World, k: Key, r: Record, c: Callback)
    requires ClassifyStatusErrorCode(c.errorCode) != SmsLimited
    ensures FailedStatus(Unstalled(cfg), w, k, r, c) == FailedStatus(cfg, w, k, r, c)
  {
    hide ToIdle, ClassifyStatusErrorCode, EndRest;
    var h := EndRest(HistoryOf(w, k), r.index, Aborted);
    LittleAlike(cfg, Remember(ClearHandle(w, c.handle), k, h), k, r);
    LittleAlike(cfg, Remember(ClearHandle(ClearHandle(w, c.handle), c.handle), k, h), k, r);
    assert HistoryOf(ClearHandle(w, c.handle), k) == HistoryOf(w, k);
  }

  lemma StatusAlike(cfg: Config, w: World, c: Callback, results: Results)
    requires NoSmsResults(results) && ClassifyStatusErrorCode(c.errorCode) != SmsLimited
    ensures StatusCallback(Unstalled(cfg), w, c, results) == StatusCallback(cfg, w, c, results)
  {
    hide FailedStatus, AdvanceQueue, NoSmsResults, ClassifyStatusErrorCode, Unstalled;
    if c.handle in w.mapping && w.mapping[c.handle].key in w.records {
      var k := w.mapping[c.handle].key;
      var r := ApplyChannel(w.records[k], ChannelFromStatus(c, w.records[k].channel), c.downgraded);
      FailedAlike(cfg, w, k, r, c);
      AdvanceQueueAlike(cfg, w, k, r, c.handle, Confirmed, results);
    }
  }

  lemma InterruptAlike(cfg: Config, w: World, k: Key, r: Record, m: Inbound, delayMs: int)
    ensures Interrupt(Unstalled(cfg), w, k, r, m, delayMs) == Interrupt(cfg, w, k, r, m, delayMs)
  {
    hide Schedule, EndRest, Begin;
    assert CancelledSummaries(Unstalled(cfg), r) == CancelledSummaries(cfg, r);
  }

  lemma ReceiveAlike(cfg: Config, w: World, k: Key, m: Inbound, channel: Channel, downgraded: bool, gate: Gate,
                     now: int, delayMs: int)
    ensures Receive(Unstalled(cfg), w, k, m, channel, downgraded, gate, now, delayMs) ==
            Receive(cfg, w, k, m, channel, downgraded, gate, now, delayMs)
  {
    hide Schedule, Interrupt, PassedOver, Begin, Accept;
    var w1 := Claim(cfg, w, m.handle, now);
    InterruptAlike(cfg, w1, k, ApplyChannel(KnownOrIdle(w1, k), channel, downgraded), m, delayMs);
  }

  lemma ReplyAlike(cfg: Config, w: World, k: Key, reply: ChatResult, now: int, delayMs: int, results: Results)
    requires NoSmsResults(results)
    ensures ChatReply(Unstalled(cfg), w, k, reply, now, delayMs, results) == ChatReply(cfg, w, k, reply, now, delayMs, results)
  {
    hide ToIdle, SendFrom, Schedule, StartSending, Reprocess, NoSmsResults, HistoryOf, Remember, Persist;
    if k in w.chats {
      var w1 := w.(chats := w.chats - {k});
      var h := HistoryOf(w1, k);
      LittleAlike(cfg, Remember(w1, k, Fail(h)), k, w.chats[k]);
      if reply.Replied? && k in w1.records {
        var latest := w1.records[k];
        LittleAlike(cfg, Remember(w1, k, Answer(h, h.stamp, [])), k, latest);
        var r := StartSending(latest, reply.actions, now);
        SendFromAlike(cfg, Remember(Persist(w1, k, r), k, Answer(h, now, reply.actions)), k, r, results);
      }
    }
  }

  lemma TimeoutAlike(cfg: Config, w: World, h: Handle, results: Results)
    requires NoSmsResults(results)
    ensures DeliveryTimeout(Unstalled(cfg), w, h, results) == DeliveryTimeout(cfg, w, h, results)
  {
    hide AdvanceQueue, NoSmsResults, Unstalled;
    if h in w.delivery {
      var k, w1 := w.delivery[h], w.(delivery := w.delivery - {h});
      if k in w1.records && w1.records[k].handle == Some(h) {
        AdvanceQueueAlike(cfg, w1, k, w1.records[k], h, TimedOut, results);
      }
    }
  }

  lemma RunRetryAlike(cfg: Config, w: World, k: Key, e: Expected, results: Results)
    requires NoSmsResults(results)
    ensures RunRetry(Unstalled(cfg), w, k, e, results) == RunRetry(cfg, w, k, e, results)
  {
    hide SendFrom, NoSmsResults, Unstalled;
    if k in w.records { SendFromAlike(cfg, w, k, w.records[k], results); }
  }

  lemma StepAlike(cfg: Config, w: World, e: Event)
    requires NoSmsLimit(e)
    ensures Step(Unstalled(cfg), w, e) == Step(cfg, w, e)
  {
    hide Receive, BufferTimer, ChatReply, StatusCallback, DeliveryTimeout, RunRetry, NoSmsResults, Unstalled, ClassifyStatusErrorCode;
    match e {
      case Receives(k, m, channel, downgraded, gate, now, delayMs) => ReceiveAlike(cfg, w, k, m, channel, downgraded, gate, now, delayMs);
      case BufferFires(_) =>
      case ChatReturns(k, reply, now, delayMs, results) => ReplyAlike(cfg, w, k, reply, now, delayMs, results);
      case StatusArrives(c, results) => StatusAlike(cfg, w, c, results);
      case TimeoutFires(h, results) => TimeoutAlike(cfg, w, h, results);
      case RetryFires(k, results) =>
        if k in w.retry { RunRetryAlike(cfg, ClearRetry(w, k), k, w.retry[k], results); }
      case StallFires(l, results) =>
        if l in w.stalls {
          RunRetryAlike(cfg, w.(stalls := w.stalls - {l}), w.stalls[l].key, w.stalls[l].expected, results);
        }
    }
  }

  lemma {:induction false} RunAlike(cfg: Config, w: World, es: seq<Event>)
    requires AllowedRun(cfg, w, es) && forall i :: 0 <= i < |es| ==> NoSmsLimit(es[i])
    ensures AllowedRun(Unstalled(cfg), w, es) && Run(Unstalled(cfg), w, es) == Run(cfg, w, es)
    decreases |es|
  {
    hide Step, Allowed, NoSmsLimit, Unstalled;
    if es != [] {
      StepAlike(cfg, w, es[0]);
      assert forall i :: 0 <= i < |es[1..]| ==> es[1..][i] == es[i + 1];
      RunAlike(cfg, Step(cfg, w, es[0]), es[1..]);
    }
  }

  // An agent that is allowed no stall owes nothing to any line.
  lemma {:induction false} UnstalledIsCovered(cfg: Config, w: World, es: seq<Event>)
    requires cfg.smsLimitMaxAttempts == 0 && Inv(cfg, w) && AllowedRun(cfg, w, es) && Budgets(cfg, w)
    ensures CoveredRun(cfg, w, es)
    decreases |es|
  {
    hide Inv, Step, Allowed, BudgetOk, OthersCovered;
    if es != [] {
      NothingOwed(cfg, w, es[0]);
      StepKeeps(cfg, w, es[0]);
      StepBudgetsExactlyWhen(cfg, w, es[0]);
      UnstalledIsCovered(cfg, Step(cfg, w, es[0]), es[1..]);
    }
  }

  lemma NothingOwed(cfg: Config, w: World, e: Event)
    requires cfg.smsLimitMaxAttempts == 0 && Budgets(cfg, w)
    ensures OthersCovered(cfg, w, e)
  {
    hide Actor, LogsBudget;
    forall o, n: nat | o in w.records ensures Covered(w, o, n) {
      assert BudgetOk(cfg, w, o) && StallAttempts(w, o.line) <= 0;
    }
  }

  // In every run without SMS-limit errors, however lines are shared.
  lemma SendsAreBoundedWithoutSmsLimit(cfg: Config, es: seq<Event>, k: Key, t: Turn)
    requires AllowedRun(cfg, Empty, es) && (forall i :: 0 <= i < |es| ==> NoSmsLimit(es[i]))
    requires k in Run(cfg, Empty, es).records
    requires var h := HistoryOf(Run(cfg, Empty, es), k); t == h.turn || t in h.past
    ensures forall p: nat :: Count(t.log, p) <= 1 + cfg.transientRetryMaxAttempts
    ensures Total(t.log) <= |t.reply| * (1 + cfg.transientRetryMaxAttempts)
  {
    hide Inv, Step, Allowed, NoSmsLimit, Budgets, CoveredRun, Count, Total;
    var unstalled := Unstalled(cfg);
    RunAlike(cfg, Empty, es);
    EmptyInv(unstalled);
    NothingSpent(unstalled);
    UnstalledIsCovered(unstalled, Empty, es);
    SendsAreBounded(unstalled, es, k, t);
  }
}
