// The agent itself: an object whose handlers update its tables and timers in
// place.  Each method is proved to move the agent's World exactly as the
// function of the same purpose in ConversationModel does, so that everything
// proved of runs holds of the agent.  Conversation records are values: the
// store hands out and takes in copies.
module ConversationAgents {
  import opened Wrappers
  import opened StatusTracker
  import opened ErrorClass
  import opened ConversationTypes
  import opened History
  import M = ConversationModel
  import opened ConversationInvariant
  import opened ConversationSteps
  import opened ConversationRuns

  class ConversationAgent {
    const cfg: M.Config
    var records: map<Key, Record>
    var claims: map<Handle, int>
    var mapping: map<Handle, M.Slot>
    var buffer: set<Key>
    var delivery: map<Handle, Key>
    var retry: map<Key, M.Expected>
    var stalls: map<Line, M.Stall>
    var stallCount: map<Line, nat>
    var chats: map<Key, Record>
    ghost var issued: set<Handle>
    ghost var history: map<Key, History>

    ghost function Model(): M.World
      reads this
    {
      M.World(records, claims, mapping, buffer, delivery, retry, stalls, stallCount, chats, issued, history)
    }

    ghost predicate Valid()
      reads this
    {
      Inv(cfg, Model())
    }

    constructor (cfg: M.Config)
      ensures this.cfg == cfg && Model() == M.Empty && Valid()
    {
      this.cfg := cfg;
      records, claims, mapping, buffer, delivery := map[], map[], map[], {}, map[];
      retry, stalls, stallCount, chats := map[], map[], map[], map[];
      issued, history := {}, map[];
      new;
      EmptyInv(cfg);
    }

    // --- tables and timers -----------------------------------------------

    method PersistRecord(k: Key, state: Record)
      modifies this`records
      ensures Model() == M.Persist(old(Model()), k, state)
    {
      records := records[k := state];
    }

    method ClearHandle(h: Handle)
      modifies this`delivery, this`mapping
      ensures Model() == M.ClearHandle(old(Model()), h)
    {
      delivery := delivery - {h};
      mapping := mapping - {h};
    }

    method ClearTransientRetry(k: Key)
      modifies this`retry
      ensures Model() == M.ClearRetry(old(Model()), k)
    {
      retry := retry - {k};
    }

    method ClearSmsLimitStall(line: Line)
      modifies this`stalls, this`stallCount
      ensures Model() == M.ClearStall(cfg, old(Model()), line)
    {
      if cfg.limitTracker { stallCount := stallCount - {line}; }
      if cfg.stallScheduler { stalls := stalls - {line}; }
    }

    ghost method Note(k: Key, h: History)
      modifies this`history
      ensures Model() == M.Remember(old(Model()), k, h)
    {
      history := history[k := h];
    }

    // --- buffering --------------------------------------------------------

    method StartChat(k: Key)
      modifies this`records, this`chats, this`history
      ensures Model() == M.ProcessBuffer(old(Model()), k)
    {
      if k !in records { return; }
      var state := records[k];
      if state.state != Buffering || state.inboundBuffer == [] { return; }
      state := state.(state := Processing);
      PersistRecord(k, state);
      chats := chats[k := state];
      Note(k, Request(M.HistoryOf(Model(), k), state.inboundBuffer));
    }

    method Schedule(k: Key, delayMs: int)
      modifies this`buffer, this`records, this`chats, this`history
      ensures Model() == M.Schedule(old(Model()), k, delayMs)
    {
      if delayMs <= 0 {
        buffer := buffer - {k};
        StartChat(k);
      } else {
        buffer := buffer + {k};
      }
    }

    // --- ending a turn ----------------------------------------------------

    method TransitionToIdle(k: Key, state: Record)
      modifies this
      ensures Model() == M.ToIdle(cfg, old(Model()), k, state)
    {
      ClearTransientRetry(k);
      ClearSmsLimitStall(k.line);
      match state.handle {
        case Some(h) => ClearHandle(h);
        case None =>
      }
      var idle := state.(state := Idle, inboundBuffer := [], lateArrivals := []);
      idle := idle.(queue := [], index := 0, handle := None, reprocessCount := 0);
      PersistRecord(k, idle);
    }

    method AbortQueue(k: Key, state: Record, h: Handle)
      modifies this
      ensures Model() == M.AbortQueue(cfg, old(Model()), k, state, h)
    {
      ghost var past := M.HistoryOf(Model(), k);
      ClearHandle(h);
      Note(k, EndRest(past, state.index, Aborted));
      TransitionToIdle(k, state);
    }

    // --- sending ----------------------------------------------------------

    // Send the current item; when it needs no waiting for, go on.
    method SendCurrentMessage(k: Key, state: Record, results: M.Results)
      modifies this
      ensures Model() == M.SendFrom(cfg, old(Model()), k, state, results)
      decreases if state.index < |state.queue| then |state.queue| - state.index else 0, 3
    {
      if state.index >= |state.queue| {
        TransitionToIdle(k, state);
        return;
      }
      var item := state.queue[state.index];
      if M.Unsendable(cfg, k, state, item.action) {
        SkipCurrentAction(k, state, results);
        return;
      }
      Note(k, Log(M.HistoryOf(Model(), k), M.Attempt(state, results(state.index))));
      AfterRequest(k, state, results);
    }

    // The request for the current item has been answered.
    method AfterRequest(k: Key, state: Record, results: M.Results)
      requires state.index < |state.queue|
      modifies this
      ensures Model() == M.AfterAttempt(cfg, old(Model()), k, state, results)
      decreases |state.queue| - state.index, 2
    {
      hide M.SendFrom, M.Advance, M.Skip, M.SkipRecord, M.AwaitStatus, M.ArmRetry, M.ArmStall;
      ghost var w := Model();
      match results(state.index) {
        case Threw(error) =>
          var handled := HandleSendError(k, state, error);
          if !handled { SkipCurrentAction(k, state, results); }
        case Returned(returned) =>
          // Reactions never get a status callback, so their handle is dropped.
          var item := state.queue[state.index];
          var h := if item.action.kind == Reaction || M.Falsy(returned) then None else returned;
          var sent := state.(queue := state.queue[state.index := item.(messageHandle := h)], handle := h);
          if h.Some? {
            StartWaiting(k, sent, h.value);
            AwaitsAlike(w, k, state, h.value);
          } else {
            PersistRecord(k, sent);
            AdvancesAlike(w, k, sent);
            AdvanceQueue(k, sent, None, Unconfirmed, results);
          }
      }
    }

    method StartWaiting(k: Key, sent: Record, h: Handle)
      requires sent.index < |sent.queue| && M.SentRecord(sent, Some(h)) == sent
      modifies this
      ensures Model() == M.AwaitStatus(old(Model()), k, sent, h)
    {
      mapping := mapping[h := M.Slot(k, sent.index)];
      delivery := delivery[h := k];
      issued := issued + {h};
      PersistRecord(k, sent);
    }

    lemma AwaitsAlike(w: M.World, k: Key, r: Record, h: Handle)
      requires r.index < |r.queue|
      ensures M.AwaitStatus(w, k, M.SentRecord(r, Some(h)), h) == M.AwaitStatus(w, k, r, h)
    {
      assert M.SentRecord(M.SentRecord(r, Some(h)), Some(h)) == M.SentRecord(r, Some(h));
    }

    lemma AdvancesAlike(w: M.World, k: Key, r: Record)
      ensures M.Advance(cfg, M.Persist(w, k, r), k, r, Unconfirmed) == M.Advance(cfg, w, k, r, Unconfirmed)
    {
      var next := M.AdvanceRecord(r);
      assert w.records[k := r][k := next] == w.records[k := next];
    }

    // Advance past the current item and send the next one.
    method AdvanceQueue(k: Key, state: Record, h: Option<Handle>, ghost ending: Ending, results: M.Results)
      modifies this
      ensures var w := match h case Some(handle) => M.ClearHandle(old(Model()), handle) case None => old(Model());
              Model() == M.SendFrom(cfg, M.Advance(cfg, w, k, state, ending), k, M.AdvanceRecord(state), results)
      decreases if state.index < |state.queue| then |state.queue| - state.index else 0,
                if state.index < |state.queue| then 1 else 4
    {
      hide M.SendFrom;
      match h {
        case Some(handle) => ClearHandle(handle);
        case None =>
      }
      ghost var w := Model();
      var next := state;
      if state.index < |state.queue| && !M.Falsy(state.queue[state.index].action.content) {
        next := next.(delivered := next.delivered + [state.queue[state.index].action.content.value]);
      }
      next := next.(index := next.index + 1, handle := None);
      assert next == M.AdvanceRecord(state);
      MoveOn(k, state, next, ending);
      assert Model() == M.Advance(cfg, w, k, state, ending);
      SendCurrentMessage(k, next, results);
    }

    // Store the record that has moved on; the line's stall is over.
    method MoveOn(k: Key, state: Record, next: Record, ghost ending: Ending)
      requires next == M.AdvanceRecord(state)
      modifies this
      ensures Model() == M.Advance(cfg, old(Model()), k, state, ending)
    {
      hide M.AdvanceRecord;
      ghost var past := M.HistoryOf(Model(), k);
      ClearSmsLimitStall(k.line);
      Note(k, if state.index < |state.queue| then Log(past, Ended(state.index, ending)) else past);
      PersistRecord(k, next);
    }

    method SkipCurrentAction(k: Key, state: Record, results: M.Results)
      requires state.index < |state.queue|
      modifies this
      ensures Model() == M.SendFrom(cfg, M.Skip(old(Model()), k, state), k, M.SkipRecord(state), results)
      decreases if state.index < |state.queue| then |state.queue| - state.index else 0, 1
    {
      hide M.SendFrom;
      ghost var past := M.HistoryOf(Model(), k);
      var next := state.(queue := state.queue[state.index := state.queue[state.index].(skipped := true)]);
      next := next.(index := next.index + 1, handle := None);
      PersistRecord(k, next);
      Note(k, Log(past, Ended(state.index, Skipped)));
      SendCurrentMessage(k, next, results);
    }

    // --- retries ----------------------------------------------------------

    // True when a retry or stall was scheduled and the item must not be skipped.
    method HandleSendError(k: Key, state: Record, error: SendError) returns (handled: bool)
      requires state.index < |state.queue|
      modifies this
      ensures var w := old(Model());
              match M.Judge(cfg, M.Current(state), Threw(error))
              case Retry(attempts) => handled && Model() == M.ArmRetry(w, k, state, attempts)
              case TryStall =>
                && handled == M.CanStall(cfg, w, k.line)
                && Model() == if handled then M.ArmStall(w, k, M.Current(state)) else M.RefuseStall(cfg, w, k.line)
              case _ => !handled && Model() == w
    {
      if !cfg.limitTracker { return false; }
      var category := ClassifyError(error);
      if category == Permanent { return false; }
      if category == SmsLimited {
        handled := ScheduleSmsLimitStall(k, state.queue[state.index]);
        return;
      }
      var attempts := state.queue[state.index].retryCount + 1;
      if attempts > cfg.transientRetryMaxAttempts { return false; }
      ScheduleTransientRetry(k, state, attempts);
      return true;
    }

    method ScheduleTransientRetry(k: Key, state: Record, attempts: nat)
      requires state.index < |state.queue|
      modifies this`records, this`retry
      ensures Model() == M.ArmRetry(old(Model()), k, state, attempts)
    {
      var item := state.queue[state.index].(retryCount := attempts, messageHandle := None);
      PersistRecord(k, state.(queue := state.queue[state.index := item], handle := None));
      ClearTransientRetry(k);
      retry := retry[k := M.Expected(item.id, attempts)];
      assert (old(retry) - {k})[k := M.Expected(item.id, attempts)] == old(retry)[k := M.Expected(item.id, attempts)];
    }

    method ScheduleSmsLimitStall(k: Key, item: Item) returns (armed: bool)
      requires cfg.limitTracker
      modifies this`stalls, this`stallCount
      ensures armed == M.CanStall(cfg, old(Model()), k.line)
      ensures Model() == if armed then M.ArmStall(old(Model()), k, item) else M.RefuseStall(cfg, old(Model()), k.line)
    {
      if !cfg.stallScheduler { return false; }
      var attempts := (if k.line in stallCount then stallCount[k.line] else 0) + 1;
      if attempts > cfg.smsLimitMaxAttempts {
        stallCount := stallCount - {k.line};
        return false;
      }
      stallCount := stallCount[k.line := attempts];
      stalls := stalls[k.line := M.Stall(k, M.Expected(item.id, item.retryCount))];
      return true;
    }

    method RunRetry(k: Key, expected: M.Expected, results: M.Results)
      modifies this
      ensures Model() == M.RunRetry(cfg, old(Model()), k, expected, results)
    {
      if k !in records { return; }
      var state := records[k];
      if state.state != Sending || state.index >= |state.queue| { return; }
      var item := state.queue[state.index];
      if item.id != expected.id || item.retryCount != expected.retryCount { return; }
      SendCurrentMessage(k, state, results);
    }

    // --- inbound messages -------------------------------------------------

    method HandleReceive(k: Key, message: Inbound, channel: Channel, downgraded: bool, gate: M.Gate, now: int, delayMs: int)
      requires Valid()
      modifies this
      ensures Model() == M.Receive(cfg, old(Model()), k, message, channel, downgraded, gate, now, delayMs) && Valid()
    {
      ReceiveKeeps(cfg, Model(), k, message, channel, downgraded, gate, now, delayMs);
      hide Inv, M.AcceptInbound, M.PassedOver;
      var claimed := ClaimInboundHandle(message.handle, now);
      if !claimed { return; }
      if gate == M.Accepted {
        var current := if k in records then records[k] else IdleRecord(UnknownChannel);
        AcceptMessage(k, ApplyChannel(current, channel, downgraded), message, delayMs);
      } else {
        PassOver(k, channel, downgraded, gate);
      }
    }

    // True for the first delivery: from then on the handle is refused until the
    // dedupe time is over, and no longer.
    method ClaimInboundHandle(h: Handle, now: int) returns (claimed: bool)
      modifies this`claims
      ensures claimed <==> !old(M.ClaimHolds(Model(), h, now))
      ensures Model() == if claimed then M.Claim(cfg, old(Model()), h, now) else old(Model())
      ensures claimed ==> forall later: int :: M.ClaimHolds(Model(), h, later) <==> later < now + cfg.dedupeTtlMs
      ensures forall other, at: int :: other != h ==> (M.ClaimHolds(Model(), other, at) <==> old(M.ClaimHolds(Model(), other, at)))
    {
      if h in claims && claims[h] > now { return false; }
      claims := claims[h := now + cfg.dedupeTtlMs];
      return true;
    }

    // The agent stays silent; it may still note the channel.
    method PassOver(k: Key, channel: Channel, downgraded: bool, gate: M.Gate)
      modifies this`records
      ensures Model() == M.Persist(old(Model()), k, M.PassedOver(old(Model()), k, channel, downgraded, gate))
    {
      var known := k in records;
      var state := if known then records[k] else IdleRecord(channel);
      if gate == M.NotInvoked || (known && k.Group?) { state := ApplyChannel(state, channel, downgraded); }
      PersistRecord(k, state);
    }

    method AcceptMessage(k: Key, state: Record, message: Inbound, delayMs: int)
      modifies this
      ensures Model() == M.AcceptInbound(cfg, old(Model()), k, state, message, delayMs)
    {
      ghost var past := M.HistoryOf(Model(), k);
      match state.state {
        case Idle =>
          PersistRecord(k, state.(state := Buffering, inboundBuffer := [message], lateArrivals := [],
                                  lastInboundHandles := [message.handle], queue := [], delivered := [], cancelled := [],
                                  index := 0, handle := None, reprocessCount := 0));
          Note(k, Begin(past, message));
          Schedule(k, delayMs);
        case Buffering =>
          PersistRecord(k, state.(inboundBuffer := state.inboundBuffer + [message],
                                  lastInboundHandles := state.lastInboundHandles + [message.handle]));
          Note(k, Accept(past, message));
          Schedule(k, delayMs);
        case Processing =>
          PersistRecord(k, state.(lateArrivals := state.lateArrivals + [message],
                                  lastInboundHandles := state.lastInboundHandles + [message.handle]));
          Note(k, Accept(past, message));
        case Sending =>
          InterruptSending(k, state, message, delayMs);
      }
    }

    method InterruptSending(k: Key, state: Record, message: Inbound, delayMs: int)
      modifies this
      ensures Model() == M.Interrupt(cfg, old(Model()), k, state, message, delayMs)
    {
      ghost var past := M.HistoryOf(Model(), k);
      ClearTransientRetry(k);
      ClearSmsLimitStall(k.line);
      match state.handle {
        case Some(h) => ClearHandle(h);
        case None =>
      }
      var next := state.(state := Buffering, inboundBuffer := [message], lateArrivals := [],
                         lastInboundHandles := [message.handle], cancelled := M.CancelledSummaries(cfg, state));
      next := next.(queue := [], index := 0, handle := None);
      PersistRecord(k, next);
      Note(k, Begin(EndRest(past, state.index, Cancelled), message));
      Schedule(k, delayMs);
    }

    method BufferTimerFires(k: Key)
      requires Valid()
      modifies this
      ensures Model() == M.BufferTimer(old(Model()), k) && Valid()
    {
      BufferTimerKeeps(cfg, Model(), k);
      hide Inv;
      if k !in buffer { return; }
      buffer := buffer - {k};
      StartChat(k);
    }

    // --- replies ----------------------------------------------------------

    // The pending chat call of a conversation comes back.
    method ChatCallReturns(k: Key, reply: M.ChatResult, now: int, delayMs: int, results: M.Results)
      requires Valid() && Fresh(Model(), results) && (reply.Replied? ==> NoSilence(reply.actions))
      modifies this
      ensures Model() == M.ChatReply(cfg, old(Model()), k, reply, now, delayMs, results) && Valid()
    {
      ChatReplyKeeps(cfg, Model(), k, reply, now, delayMs, results);
      hide Inv, M.TakeReply, M.ToIdle, Fresh, NoSilence;
      if k !in chats { return; }
      var snapshot := chats[k];
      chats := chats - {k};
      ghost var past := M.HistoryOf(Model(), k);
      match reply {
        case Failed =>
          Note(k, Fail(past));
          TransitionToIdle(k, snapshot);
        case Replied(actions) =>
          if k in records { TakeReply(k, actions, now, delayMs, results); }
      }
    }

    method TakeReply(k: Key, actions: seq<QueuedAction>, now: int, delayMs: int, results: M.Results)
      requires k in records
      modifies this
      ensures Model() == M.TakeReply(cfg, old(Model()), k, actions, now, delayMs, results)
    {
      hide M.SendFrom, M.ToIdle, M.StartSending, M.Schedule;
      var latest := records[k];
      ghost var past := M.HistoryOf(Model(), k);
      if latest.lateArrivals != [] && latest.reprocessCount < cfg.maxReprocessAttempts {
        PersistRecord(k, latest.(state := Buffering, inboundBuffer := latest.inboundBuffer + latest.lateArrivals,
                                 lateArrivals := [], reprocessCount := latest.reprocessCount + 1));
        Schedule(k, delayMs);
      } else if actions == [] {
        Note(k, Answer(past, past.stamp, []));
        TransitionToIdle(k, latest);
      } else {
        BeginSending(k, latest, actions, now, results);
      }
    }

    method BeginSending(k: Key, latest: Record, actions: seq<QueuedAction>, now: int, results: M.Results)
      modifies this
      ensures var w, r := old(Model()), M.StartSending(latest, actions, now);
              Model() == M.SendFrom(cfg, M.Remember(M.Persist(w, k, r), k, Answer(M.HistoryOf(w, k), now, actions)), k, r, results)
    {
      hide M.SendFrom;
      ghost var past := M.HistoryOf(Model(), k);
      var handles := Handles(latest.inboundBuffer);
      var state := latest.(state := Sending, lastInboundHandles := handles, queue := M.BuildQueue(actions, handles, now));
      state := state.(inboundBuffer := [], lateArrivals := [], index := 0, handle := None, reprocessCount := 0);
      PersistRecord(k, state);
      Note(k, Answer(past, now, actions));
      SendCurrentMessage(k, state, results);
    }

    // --- callbacks and timers ---------------------------------------------

    method HandleStatus(c: M.Callback, results: M.Results)
      requires Valid() && Fresh(Model(), results)
      modifies this
      ensures Model() == M.StatusCallback(cfg, old(Model()), c, results) && Valid()
    {
      StatusKeeps(cfg, Model(), c, results);
      hide Inv;
      if c.handle !in mapping { return; }
      var k := mapping[c.handle].key;
      if k !in records || records[k].state != Sending { return; }
      var state := ApplyChannel(records[k], M.ChannelFromStatus(c, records[k].channel), c.downgraded);
      if c.status == ERROR || c.status == DECLINED {
        var retried, latest := MaybeRetryFromStatus(k, state, c);
        if !retried { AbortQueue(k, latest, c.handle); }
      } else if c.status == SuccessStatus(state) {
        AdvanceQueue(k, state, Some(c.handle), Confirmed, results);
      } else {
        PersistRecord(k, state);
      }
    }

    // True when a retry or stall was scheduled; otherwise the queue is aborted.
    method MaybeRetryFromStatus(k: Key, state: Record, c: M.Callback) returns (retried: bool, latest: Record)
      modifies this
      ensures if retried then Model() == M.FailedStatus(cfg, old(Model()), k, state, c)
              else M.AbortQueue(cfg, Model(), k, latest, c.handle) == M.FailedStatus(cfg, old(Model()), k, state, c)
    {
      hide M.AbortQueue, M.ArmRetry, M.ArmStall, ClassifyStatusErrorCode;
      latest := state;
      if !cfg.limitTracker { return false, state; }
      var category := ClassifyStatusErrorCode(c.errorCode);
      if category == Permanent { return false, state; }
      AbortsAlike(Model(), k, state, c.handle);
      ClearHandle(c.handle);
      if state.index >= |state.queue| { return false, state; }
      if category == SmsLimited {
        retried, latest := StallFromStatus(k, state);
        return;
      }
      var attempts := state.queue[state.index].retryCount + 1;
      if attempts > cfg.transientRetryMaxAttempts { return false, state; }
      ScheduleTransientRetry(k, state, attempts);
      return true, state;
    }

    // The failed send is forgotten before its item waits for the line.
    method StallFromStatus(k: Key, state: Record) returns (armed: bool, latest: Record)
      requires state.index < |state.queue| && cfg.limitTracker
      modifies this
      ensures latest == M.WithCurrent(state, M.Current(state).(messageHandle := None)).(handle := None)
      ensures var w := M.Persist(old(Model()), k, latest);
              && armed == M.CanStall(cfg, w, k.line)
              && Model() == if armed then M.ArmStall(w, k, M.Current(latest)) else M.RefuseStall(cfg, w, k.line)
    {
      var item := state.queue[state.index].(messageHandle := None);
      latest := state.(queue := state.queue[state.index := item], handle := None);
      PersistRecord(k, latest);
      armed := ScheduleSmsLimitStall(k, item);
    }

    lemma AbortsAlike(w: M.World, k: Key, r: Record, h: Handle)
      ensures M.AbortQueue(cfg, M.ClearHandle(w, h), k, r, h) == M.AbortQueue(cfg, w, k, r, h)
    {
      ClearsOnce(w, h);
    }

    lemma ClearsOnce(w: M.World, h: Handle)
      ensures M.ClearHandle(M.ClearHandle(w, h), h) == M.ClearHandle(w, h)
    {
      assert (w.delivery - {h}) - {h} == w.delivery - {h};
      assert (w.mapping - {h}) - {h} == w.mapping - {h};
    }

    method DeliveryTimeoutFires(h: Handle, results: M.Results)
      requires Valid() && Fresh(Model(), results)
      modifies this
      ensures Model() == M.DeliveryTimeout(cfg, old(Model()), h, results) && Valid()
    {
      TimeoutKeeps(cfg, Model(), h, results);
      hide Inv, Fresh, M.AdvanceQueue;
      if h !in delivery { return; }
      var k := delivery[h];
      delivery := delivery - {h};
      HandleDeliveryTimeout(k, h, results);
    }

    method HandleDeliveryTimeout(k: Key, h: Handle, results: M.Results)
      modifies this
      ensures var w := old(Model());
              Model() == if k !in w.records || w.records[k].handle != Some(h) then w
                         else M.AdvanceQueue(cfg, w, k, w.records[k], h, TimedOut, results)
    {
      if k !in records || records[k].handle != Some(h) { return; }
      AdvanceQueue(k, records[k], Some(h), TimedOut, results);
    }

    method RetryTimerFires(k: Key, results: M.Results)
      requires Valid() && Fresh(Model(), results)
      modifies this
      ensures Model() == M.RetryTimer(cfg, old(Model()), k, results) && Valid()
    {
      RetryTimerKeeps(cfg, Model(), k, results);
      hide Inv;
      if k !in retry { return; }
      var expected := retry[k];
      ClearTransientRetry(k);
      RunRetry(k, expected, results);
    }

    method StallTimerFires(line: Line, results: M.Results)
      requires Valid() && Fresh(Model(), results)
      modifies this
      ensures Model() == M.StallTimer(cfg, old(Model()), line, results) && Valid()
    {
      StallTimerKeeps(cfg, Model(), line, results);
      hide Inv;
      if line !in stalls { return; }
      var stall := stalls[line];
      stalls := stalls - {line};
      RunRetry(stall.key, stall.expected, results);
    }
  }
}
