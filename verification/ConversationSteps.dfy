// Every handler keeps the invariant.  For each one: the conversation it works
// on is released from what woke it, its turn moves on, and it is handed over to
// the next thing that will wake it.
module ConversationSteps {
  import opened Wrappers
  import opened StatusTracker
  import opened ErrorClass
  import opened ConversationTypes
  import opened History
  import opened ConversationModel
  import opened ConversationInvariant

  // --- what happens to the turn ------------------------------------------

  lemma TurnIgnoresChannel(cfg: Config, r: Record, channel: Channel, downgraded: bool, h: History)
    requires TurnOk(cfg, r, h)
    ensures TurnOk(cfg, r.(channel := channel, smsDowngraded := downgraded), h)
  {
    hide Closed, Requested, AnswersAll, AimsAt;
  }

  lemma PastGrows(cfg: Config, h: History, message: Inbound)
    requires TurnsClosed(cfg, h) && (h.turn == NoTurn || Closed(cfg, h.turn))
    ensures TurnsClosed(cfg, Begin(h, message))
  {
  }

  lemma TurnOpens(cfg: Config, r: Record, h: History, message: Inbound)
    requires TurnsClosed(cfg, h) && (h.turn == NoTurn || Closed(cfg, h.turn))
    requires r.reprocessCount == 0
    ensures TurnOk(cfg, OpenBuffer(r, message), Begin(h, message))
  {
    PastGrows(cfg, h, message);
    assert Handles([message]) == [message.handle];
    assert [message] + [] == [message];
  }

  lemma TurnBuffers(cfg: Config, r: Record, h: History, message: Inbound)
    requires TurnOk(cfg, r, h) && r.state == Buffering
    ensures TurnOk(cfg, BufferMore(r, message), Accept(h, message))
  {
    hide Closed;
    var r1 := BufferMore(r, message);
    assert Handles(r.inboundBuffer + [message]) == Handles(r.inboundBuffer) + [message.handle];
    assert r.inboundBuffer + r.lateArrivals == r.inboundBuffer && r1.inboundBuffer + [] == r1.inboundBuffer;
  }

  lemma TurnArrivesLate(cfg: Config, r: Record, h: History, message: Inbound)
    requires TurnOk(cfg, r, h) && r.state == Processing
    ensures TurnOk(cfg, ArriveLate(r, message), Accept(h, message))
  {
    hide Closed;
    var all := r.inboundBuffer + r.lateArrivals;
    assert Handles(all + [message]) == Handles(all) + [message.handle];
    assert r.inboundBuffer + (r.lateArrivals + [message]) == all + [message];
  }

  lemma TurnAsks(cfg: Config, r: Record, h: History)
    requires TurnOk(cfg, r, h) && r.state == Buffering
    ensures TurnOk(cfg, r.(state := Processing), Request(h, r.inboundBuffer))
  {
    hide Closed;
    var t := h.turn;
    var t' := Request(h, r.inboundBuffer).turn;
    assert r.inboundBuffer + r.lateArrivals == r.inboundBuffer;
    forall i, j | 0 <= i < j < |t'.requests| ensures t'.requests[i] < t'.requests[j] {
      if j == |t.requests| && i < j - 1 {
        assert t.requests[i] < Last(t.requests) < r.inboundBuffer;
      }
    }
  }

  lemma TurnReprocesses(cfg: Config, r: Record, h: History)
    requires TurnOk(cfg, r, h) && r.state == Processing
    requires r.lateArrivals != [] && r.reprocessCount < cfg.maxReprocessAttempts
    ensures TurnOk(cfg, Reprocess(r), h)
  {
    hide Closed;
    var all := r.inboundBuffer + r.lateArrivals;
    assert all + [] == all;
  }

  lemma TurnFails(cfg: Config, r: Record, h: History)
    requires TurnOk(cfg, r, h) && r.state == Processing
    ensures Closed(cfg, Fail(h).turn) && TurnsClosed(cfg, Fail(h))
  {
  }

  lemma LateOnlyWhenSpent(cfg: Config, r: Record, t: Turn)
    requires ProcessingTurn(cfg, r, t)
    requires r.lateArrivals == [] || r.reprocessCount >= cfg.maxReprocessAttempts
    ensures AnswersAll(cfg, t)
  {
    assert r.inboundBuffer + [] == r.inboundBuffer;
  }

  lemma TurnIsSilent(cfg: Config, r: Record, h: History)
    requires TurnOk(cfg, r, h) && r.state == Processing
    requires r.lateArrivals == [] || r.reprocessCount >= cfg.maxReprocessAttempts
    ensures Closed(cfg, Answer(h, h.stamp, []).turn) && TurnsClosed(cfg, Answer(h, h.stamp, []))
  {
    LateOnlyWhenSpent(cfg, r, h.turn);
  }

  ghost predicate NoSilence(actions: seq<QueuedAction>) {
    forall i :: 0 <= i < |actions| ==> actions[i].kind != Silence
  }

  lemma TurnSends(cfg: Config, r: Record, h: History, actions: seq<QueuedAction>, now: int)
    requires TurnOk(cfg, r, h) && r.state == Processing && NoSilence(actions)
    requires r.lateArrivals == [] || r.reprocessCount >= cfg.maxReprocessAttempts
    ensures SendingTurn(cfg, StartSending(r, actions, now), Answer(h, now, actions))
    ensures TurnsClosed(cfg, Answer(h, now, actions))
  {
    hide Closed;
    LateOnlyWhenSpent(cfg, r, h.turn);
    QueueIsPinned(actions, Handles(r.inboundBuffer), now);
  }

  lemma QueueIsPinned(actions: seq<QueuedAction>, handles: seq<Handle>, now: int)
    requires NoSilence(actions) && handles != []
    ensures forall i :: 0 <= i < |actions| ==>
      && BuildQueue(actions, handles, now)[i].id == ItemId(now, i)
      && BuildQueue(actions, handles, now)[i].action.kind == actions[i].kind
      && BuildQueue(actions, handles, now)[i].action == PinTarget(actions[i], handles)
  {
  }

  lemma TurnEndsEarly(cfg: Config, r: Record, h: History, ending: Ending)
    requires SendingTurn(cfg, r, h) && TurnsClosed(cfg, h)
    requires ending.Cancelled? || ending.Aborted?
    ensures Closed(cfg, EndRest(h, r.index, ending).turn) && TurnsClosed(cfg, EndRest(h, r.index, ending))
  {
    hide QueueOk;
    EndRestReachesSize(h, r.index, ending);
    EndRestSendsNothing(h, r.index, ending);
  }

  lemma {:induction false} EndRestSendsNothing(h: History, from: nat, ending: Ending)
    ensures var log := EndRest(h, from, ending).turn.log;
            && h.turn.log <= log && forall i :: |h.turn.log| <= i < |log| ==> log[i].Ended?
    decreases |h.turn.reply| - from
  {
    if from < |h.turn.reply| {
      EndRestSendsNothing(Log(h, Ended(from, ending)), from + 1, ending);
    }
  }

  // --- releasing a conversation from what woke it ------------------------

  lemma Exempt(cfg: Config, w: World, k: Key)
    requires Inv(cfg, w)
    ensures InOrder(cfg, w, Some(k))
  {
    hide ConversationOk, Aligned, RetryOk, StallOk, DeliveryOk, Known, Deliveries;
  }

  // What the invariant says of the conversation at hand.
  lemma Own(cfg: Config, w: World, k: Key)
    requires Inv(cfg, w) && k in w.records
    ensures ConversationOk(cfg, w, k)
    ensures forall h :: h in w.mapping && w.mapping[h].key == k ==> w.records[k].handle == Some(h) && w.records[k].state == Sending
    ensures forall h :: h in w.delivery ==> h in w.mapping && w.mapping[h].key == w.delivery[h]
    ensures k in w.retry ==> Awaits(w.records[k], w.retry[k])
    ensures forall l :: l in w.stalls && w.stalls[l].key == k ==> l == k.line && Awaits(w.records[k], w.stalls[l].expected) && k !in w.retry
  {
    hide TurnOk, Awaits;
    assert ConversationOk(cfg, w, k);
    forall h | h in w.mapping && w.mapping[h].key == k ensures w.records[k].handle == Some(h) && w.records[k].state == Sending {
      assert Aligned(w, h);
    }
    forall h | h in w.delivery ensures h in w.mapping && w.mapping[h].key == w.delivery[h] { assert DeliveryOk(w, h); }
    if k in w.retry { assert RetryOk(w, k); }
    forall l | l in w.stalls && w.stalls[l].key == k
      ensures l == k.line && Awaits(w.records[k], w.stalls[l].expected) && k !in w.retry
    {
      assert StallOk(w, l);
    }
  }

  lemma Basics(cfg: Config, w: World)
    requires Inv(cfg, w)
    ensures Known(cfg, w) && Deliveries(w)
  {
  }

  lemma RetryIsKnown(cfg: Config, w: World, k: Key)
    requires Inv(cfg, w) && k in w.retry
    ensures k in w.records
  {
    assert RetryOk(w, k);
  }

  lemma StallIsKnown(cfg: Config, w: World, line: Line)
    requires Inv(cfg, w) && line in w.stalls
    ensures w.stalls[line].key in w.records && w.stalls[line].key.line == line
  {
    assert StallOk(w, line);
  }

  // Everything the conversation can be woken by is gone in w'.
  lemma Release(cfg: Config, w: World, w': World, k: Key)
    requires Inv(cfg, w) && Agree(w, w', k) && Quiet(w', k) && Known(cfg, w') && Deliveries(w')
    ensures Busy(cfg, w', k)
  {
    hide InOrder, Agree, Quiet, Known, Deliveries;
    Exempt(cfg, w, k);
    Frame(cfg, w, w', k);
  }

  lemma ReleaseHandle(cfg: Config, w: World, k: Key, h: Handle)
    requires Inv(cfg, w) && k in w.records && w.records[k].state == Sending && w.records[k].handle == Some(h)
    ensures Busy(cfg, ClearHandle(w, h), k)
  {
    hide TurnOk, ConversationOk, Inv;
    Own(cfg, w, k);
    var w' := ClearHandle(w, h);
    ConversationFacts(cfg, w, k);
    Basics(cfg, w);
    assert Deliveries(w') by { forall h | h in w'.delivery ensures DeliveryOk(w', h) { assert DeliveryOk(w, h); } }
    assert Quiet(w', k);
    Release(cfg, w, w', k);
  }

  lemma ConversationFacts(cfg: Config, w: World, k: Key)
    requires ConversationOk(cfg, w, k)
    ensures k in w.records
    ensures w.records[k].state == Buffering <==> k in w.buffer
    ensures w.records[k].state == Processing <==> k in w.chats
    ensures k in w.chats ==> w.chats[k].handle == None
    ensures w.records[k].state != Sending ==> w.records[k].handle == None
    ensures w.records[k].state == Sending && w.records[k].handle.Some? ==>
              w.records[k].handle.value in w.mapping && w.mapping[w.records[k].handle.value].key == k
    ensures TurnOk(cfg, w.records[k], HistoryOf(w, k))
  {
  }

  lemma ReleaseRetry(cfg: Config, w: World, k: Key)
    requires Inv(cfg, w) && k in w.retry
    ensures k in w.records && Awaits(w.records[k], w.retry[k])
    ensures Busy(cfg, ClearRetry(w, k), k)
  {
    hide TurnOk, ConversationOk, Inv;
    RetryIsKnown(cfg, w, k);
    Own(cfg, w, k);
    ConversationFacts(cfg, w, k);
    var w' := ClearRetry(w, k);
    Basics(cfg, w);
    assert Deliveries(w') by { forall h | h in w'.delivery ensures DeliveryOk(w', h) { assert DeliveryOk(w, h); } }
    assert Quiet(w', k);
    Release(cfg, w, w', k);
  }

  lemma ReleaseStall(cfg: Config, w: World, line: Line)
    requires Inv(cfg, w) && line in w.stalls
    ensures var k := w.stalls[line].key;
            && k in w.records && Awaits(w.records[k], w.stalls[line].expected)
            && Busy(cfg, w.(stalls := w.stalls - {line}), k)
  {
    hide TurnOk, ConversationOk, Inv;
    var k := w.stalls[line].key;
    StallIsKnown(cfg, w, line);
    Own(cfg, w, k);
    ConversationFacts(cfg, w, k);
    var w' := w.(stalls := w.stalls - {line});
    Basics(cfg, w);
    assert Deliveries(w') by { forall h | h in w'.delivery ensures DeliveryOk(w', h) { assert DeliveryOk(w, h); } }
    assert Quiet(w', k);
    Release(cfg, w, w', k);
  }

  lemma ReleaseChat(cfg: Config, w: World, k: Key)
    requires Inv(cfg, w) && k in w.chats
    ensures k in w.records && w.records[k].state == Processing && w.chats[k].handle == None
    ensures Busy(cfg, w.(chats := w.chats - {k}), k)
  {
    hide TurnOk, ConversationOk, Inv;
    Basics(cfg, w);
    Own(cfg, w, k);
    ConversationFacts(cfg, w, k);
    var w' := w.(chats := w.chats - {k});
    assert Deliveries(w') by { forall h | h in w'.delivery ensures DeliveryOk(w', h) { assert DeliveryOk(w, h); } }
    assert Quiet(w', k);
    Release(cfg, w, w', k);
  }

  lemma ReleaseBuffer(cfg: Config, w: World, k: Key)
    requires Inv(cfg, w) && k in w.buffer
    ensures k in w.records && w.records[k].state == Buffering
    ensures Busy(cfg, w.(buffer := w.buffer - {k}), k)
  {
    hide TurnOk, ConversationOk, Inv;
    Basics(cfg, w);
    Own(cfg, w, k);
    ConversationFacts(cfg, w, k);
    var w' := w.(buffer := w.buffer - {k});
    assert Deliveries(w') by { forall h | h in w'.delivery ensures DeliveryOk(w', h) { assert DeliveryOk(w, h); } }
    assert Quiet(w', k);
    Release(cfg, w, w', k);
  }

  // An idle conversation, or a new one, has nothing to be released from.
  lemma OpenBusy(cfg: Config, w: World, k: Key, r: Record)
    requires Inv(cfg, w) && (k in w.records ==> w.records[k].state == Idle)
    ensures Busy(cfg, Persist(w, k, r), k)
  {
    hide TurnOk, ConversationOk, Inv;
    Basics(cfg, w);
    var w' := Persist(w, k, r);
    assert Deliveries(w') by { forall h | h in w'.delivery ensures DeliveryOk(w', h) { assert DeliveryOk(w, h); } }
    if k in w.records {
      Own(cfg, w, k);
      ConversationFacts(cfg, w, k);
    } else {
      NothingUnknown(cfg, w, k);
    }
    assert Quiet(w', k);
    Release(cfg, w, w', k);
  }

  lemma NothingUnknown(cfg: Config, w: World, k: Key)
    requires Inv(cfg, w) && k !in w.records
    ensures k !in w.buffer && k !in w.chats && k !in w.retry && k !in w.history
    ensures forall h :: h in w.mapping ==> w.mapping[h].key != k
    ensures forall l :: l in w.stalls ==> w.stalls[l].key != k
  {
    hide ConversationOk;
    assert k in w.retry ==> RetryOk(w, k);
    forall h | h in w.mapping ensures w.mapping[h].key != k { assert Aligned(w, h); }
    forall l | l in w.stalls ensures w.stalls[l].key != k { assert StallOk(w, l); }
  }

  // A sending conversation waits for a handle, a retry or its line's stall; or
  // for nothing, when another conversation took the stall timer.
  lemma InterruptReleases(cfg: Config, w: World, k: Key, r: Record)
    requires Inv(cfg, w) && k in w.records && w.records[k].state == Sending && r.handle == w.records[k].handle
    ensures Busy(cfg, ClearCurrent(ClearStall(cfg, ClearRetry(w, k), k.line), r), k)
  {
    hide TurnOk, ConversationOk, Inv, Busy, Awaits;
    var w' := ClearCurrent(ClearStall(cfg, ClearRetry(w, k), k.line), r);
    Own(cfg, w, k);
    if r.handle.Some? {
      var h := r.handle.value;
      ReleaseHandle(cfg, w, k, h);
      ClearStallKeepsBusy(cfg, ClearHandle(w, h), k);
      NoRetryWithHandle(cfg, w, k);
      assert w.retry - {k} == w.retry;
      assert w' == ClearStall(cfg, ClearHandle(w, h), k.line);
    } else if k in w.retry {
      ReleaseRetry(cfg, w, k);
      ClearStallKeepsBusy(cfg, ClearRetry(w, k), k);
    } else {
      assert w.retry - {k} == w.retry;
      if k.line in w.stalls && w.stalls[k.line].key == k {
        Basics(cfg, w);
        ReleaseStall(cfg, w, k.line);
        var w1 := w.(stalls := w.stalls - {k.line});
        ClearStallKeepsBusy(cfg, w1, k);
        assert w1.stalls - {k.line} == w1.stalls;
        assert w' == ClearStall(cfg, w1, k.line);
      } else {
        StrandedIsQuiet(cfg, w, k);
        ClearStallKeepsBusy(cfg, w, k);
      }
    }
  }

  lemma NoRetryWithHandle(cfg: Config, w: World, k: Key)
    requires Inv(cfg, w) && k in w.records && w.records[k].handle.Some?
    ensures k !in w.retry
  {
    hide TurnOk, ConversationOk, Inv;
    Own(cfg, w, k);
  }

  lemma StrandedIsQuiet(cfg: Config, w: World, k: Key)
    requires Inv(cfg, w) && k in w.records && w.records[k].state == Sending && w.records[k].handle == None
    requires k !in w.retry && !(k.line in w.stalls && w.stalls[k.line].key == k)
    ensures Busy(cfg, w, k)
  {
    hide TurnOk, ConversationOk, Inv, InOrder;
    Own(cfg, w, k);
    ConversationFacts(cfg, w, k);
    Exempt(cfg, w, k);
  }

  // --- buffering ---------------------------------------------------------

  lemma BufferRestores(cfg: Config, w: World, k: Key)
    requires Busy(cfg, w, k) && w.records[k].state == Buffering
    requires TurnOk(cfg, w.records[k], HistoryOf(w, k))
    ensures Inv(cfg, w.(buffer := w.buffer + {k}))
  {
    hide TurnOk;
    var w' := w.(buffer := w.buffer + {k});
    assert w.records[k].handle == None by { BufferingHasNoHandle(cfg, w.records[k], HistoryOf(w, k)); }
    forall h | h in w'.delivery ensures DeliveryOk(w', h) { assert DeliveryOk(w, h); }
    Frame(cfg, w, w', k);
    Settle(cfg, w', k);
  }

  lemma BufferingHasNoHandle(cfg: Config, r: Record, h: History)
    requires TurnOk(cfg, r, h) && r.state != Sending
    ensures r.handle == None
    ensures r.state == Buffering ==> r.inboundBuffer != []
  {
  }

  lemma ChatRestores(cfg: Config, w: World, k: Key)
    requires k in w.records && Busy(cfg, w, k) && w.records[k].state == Buffering
    requires TurnOk(cfg, w.records[k], HistoryOf(w, k))
    ensures Inv(cfg, ProcessBuffer(w, k))
  {
    hide TurnOk, Busy;
    var r := w.records[k];
    var h := Request(HistoryOf(w, k), r.inboundBuffer);
    BufferingHasNoHandle(cfg, r, HistoryOf(w, k));
    TurnAsks(cfg, r, HistoryOf(w, k));
    var w1 := Persist(w, k, r.(state := Processing));
    PersistKeepsBusy(cfg, w, k, r.(state := Processing));
    RememberKeepsBusy(cfg, w1, k, h);
    var w2 := Remember(w1, k, h);
    PendingRestores(cfg, w2, k);
    assert ProcessBuffer(w, k) == w2.(chats := w2.chats[k := w2.records[k]]);
  }

  lemma PendingRestores(cfg: Config, w: World, k: Key)
    requires Busy(cfg, w, k) && w.records[k].state == Processing && w.records[k].handle == None
    requires TurnOk(cfg, w.records[k], HistoryOf(w, k))
    ensures Inv(cfg, w.(chats := w.chats[k := w.records[k]]))
  {
    hide TurnOk;
    var w' := w.(chats := w.chats[k := w.records[k]]);
    forall h | h in w'.delivery ensures DeliveryOk(w', h) { assert DeliveryOk(w, h); }
    Frame(cfg, w, w', k);
    Settle(cfg, w', k);
  }

  lemma ScheduleRestores(cfg: Config, w: World, k: Key, delayMs: int)
    requires Busy(cfg, w, k) && w.records[k].state == Buffering
    requires TurnOk(cfg, w.records[k], HistoryOf(w, k))
    ensures Inv(cfg, Schedule(w, k, delayMs))
  {
    hide TurnOk, Inv, InOrder, ProcessBuffer;
    if delayMs <= 0 {
      assert w.buffer - {k} == w.buffer;
      ChatRestores(cfg, w, k);
    } else {
      BufferRestores(cfg, w, k);
    }
  }

  // Scheduling replaces the timer that is there.
  lemma ScheduleDebounces(w: World, k: Key, delayMs: int)
    ensures Schedule(w, k, delayMs) == Schedule(w.(buffer := w.buffer - {k}), k, delayMs)
  {
    assert (w.buffer - {k}) + {k} == w.buffer + {k};
    assert (w.buffer - {k}) - {k} == w.buffer - {k};
  }

  // --- the handlers ------------------------------------------------------

  lemma ClaimKeeps(cfg: Config, w: World, claims: map<Handle, int>)
    requires Inv(cfg, w)
    ensures Inv(cfg, w.(claims := claims))
  {
    hide TurnOk, Matches;
    var w' := w.(claims := claims);
    forall k | k in w'.records ensures ConversationOk(cfg, w', k) { assert ConversationOk(cfg, w, k); }
    forall h | h in w'.mapping ensures Aligned(w', h) { assert Aligned(w, h); }
    forall h | h in w'.delivery ensures DeliveryOk(w', h) { assert DeliveryOk(w, h); }
    forall k | k in w'.retry ensures RetryOk(w', k) { assert RetryOk(w, k); }
    forall l | l in w'.stalls ensures StallOk(w', l) { assert StallOk(w, l); }
  }

  // Rewriting the record or its turn without touching what it waits for.
  lemma RewriteKeeps(cfg: Config, w: World, w': World, k: Key)
    requires Inv(cfg, w) && k in w.records && k in w'.records
    requires w' == w.(records := w.records[k := w'.records[k]], history := w'.history)
    requires w'.history == w.history || w'.history == w.history[k := HistoryOf(w', k)]
    requires var r, r' := w.records[k], w'.records[k];
             r'.state == r.state && r'.queue == r.queue && r'.index == r.index && r'.handle == r.handle
    requires TurnOk(cfg, w'.records[k], HistoryOf(w', k))
    ensures Inv(cfg, w')
  {
    hide TurnOk, ConversationOk, Inv, Aligned, RetryOk, StallOk;
    Basics(cfg, w);
    Exempt(cfg, w, k);
    Own(cfg, w, k);
    assert Deliveries(w') by { forall h | h in w'.delivery ensures DeliveryOk(w', h) { assert DeliveryOk(w, h); } }
    Frame(cfg, w, w', k);
    RewriteSettles(cfg, w, w', k);
  }

  lemma RewriteSettles(cfg: Config, w: World, w': World, k: Key)
    requires Inv(cfg, w) && k in w.records && k in w'.records && InOrder(cfg, w', Some(k))
    requires w' == w.(records := w.records[k := w'.records[k]], history := w'.history)
    requires var r, r' := w.records[k], w'.records[k];
             r'.state == r.state && r'.queue == r.queue && r'.index == r.index && r'.handle == r.handle
    requires TurnOk(cfg, w'.records[k], HistoryOf(w', k))
    ensures Inv(cfg, w')
  {
    hide TurnOk;
    assert ConversationOk(cfg, w, k);
    forall h | h in w'.mapping && w'.mapping[h].key == k ensures Aligned(w', h) { assert Aligned(w, h); }
    if k in w'.retry { assert RetryOk(w, k); }
    forall l | l in w'.stalls && w'.stalls[l].key == k ensures StallOk(w', l) { assert StallOk(w, l); }
    Settle(cfg, w', k);
  }

  lemma PassedOverKeeps(cfg: Config, w: World, k: Key, r: Record)
    requires Inv(cfg, w)
    requires k in w.records ==> r == w.records[k].(channel := r.channel, smsDowngraded := r.smsDowngraded)
    requires k !in w.records ==> r == IdleRecord(r.channel).(smsDowngraded := r.smsDowngraded)
    ensures Inv(cfg, Persist(w, k, r))
  {
    hide TurnOk, Inv, ConversationOk;
    if k in w.records {
      Own(cfg, w, k);
      ConversationFacts(cfg, w, k);
      TurnIgnoresChannel(cfg, w.records[k], r.channel, r.smsDowngraded, HistoryOf(w, k));
      RewriteKeeps(cfg, w, Persist(w, k, r), k);
    } else {
      NothingUnknown(cfg, w, k);
      OpenBusy(cfg, w, k, r);
      FreshTurnOk(cfg, r);
      IdleRestores(cfg, Persist(w, k, r), k);
    }
  }

  lemma FreshTurnOk(cfg: Config, r: Record)
    requires r == IdleRecord(r.channel).(smsDowngraded := r.smsDowngraded)
    ensures TurnOk(cfg, r, NoHistory())
  {
  }

  lemma TurnsOver(cfg: Config, r: Record, h: History)
    requires TurnOk(cfg, r, h)
    ensures TurnsClosed(cfg, h)
    ensures r.state == Idle ==> (h.turn == NoTurn || Closed(cfg, h.turn)) && r.reprocessCount == 0
    ensures r.state == Sending ==> SendingTurn(cfg, r, h) && r.index < |r.queue|
  {
  }

  // r is the stored record with the message's channel applied.
  lemma OpensKeeps(cfg: Config, w: World, k: Key, r: Record, message: Inbound, delayMs: int)
    requires Inv(cfg, w) && r.state == Idle && TurnOk(cfg, r, HistoryOf(w, k))
    requires k in w.records ==> w.records[k].state == Idle
    ensures Inv(cfg, AcceptInbound(cfg, w, k, r, message, delayMs))
  {
    hide TurnOk, Inv, ConversationOk, Busy, Closed, TurnsClosed, Schedule;
    var h := HistoryOf(w, k);
    TurnsOver(cfg, r, h);
    var r1 := OpenBuffer(r, message).(delivered := [], cancelled := [], reprocessCount := 0);
    TurnOpens(cfg, r.(delivered := [], cancelled := [], reprocessCount := 0), h, message);
    OpenBusy(cfg, w, k, r1);
    RememberKeepsBusy(cfg, Persist(w, k, r1), k, Begin(h, message));
    ScheduleRestores(cfg, Remember(Persist(w, k, r1), k, Begin(h, message)), k, delayMs);
  }

  lemma BuffersKeeps(cfg: Config, w: World, k: Key, r: Record, message: Inbound, delayMs: int)
    requires Inv(cfg, w) && r.state == Buffering && TurnOk(cfg, r, HistoryOf(w, k))
    requires k in w.records && r == w.records[k].(channel := r.channel, smsDowngraded := r.smsDowngraded)
    ensures Inv(cfg, AcceptInbound(cfg, w, k, r, message, delayMs))
  {
    hide TurnOk, Inv, ConversationOk, Busy;
    var r1, h1 := BufferMore(r, message), Accept(HistoryOf(w, k), message);
    TurnBuffers(cfg, r, HistoryOf(w, k), message);
    var w1 := Remember(Persist(w, k, r1), k, h1);
    RewriteKeeps(cfg, w, w1, k);
    Own(cfg, w1, k);
    ConversationFacts(cfg, w1, k);
    ReleaseBuffer(cfg, w1, k);
    ScheduleDebounces(w1, k, delayMs);
    ScheduleRestores(cfg, w1.(buffer := w1.buffer - {k}), k, delayMs);
  }

  lemma ArrivesLateKeeps(cfg: Config, w: World, k: Key, r: Record, message: Inbound, delayMs: int)
    requires Inv(cfg, w) && r.state == Processing && TurnOk(cfg, r, HistoryOf(w, k))
    requires k in w.records && r == w.records[k].(channel := r.channel, smsDowngraded := r.smsDowngraded)
    ensures Inv(cfg, AcceptInbound(cfg, w, k, r, message, delayMs))
  {
    hide TurnOk, Inv;
    TurnArrivesLate(cfg, r, HistoryOf(w, k), message);
    RewriteKeeps(cfg, w, Remember(Persist(w, k, ArriveLate(r, message)), k, Accept(HistoryOf(w, k), message)), k);
  }

  lemma InterruptKeeps(cfg: Config, w: World, k: Key, r: Record, message: Inbound, delayMs: int)
    requires Inv(cfg, w) && r.state == Sending && TurnOk(cfg, r, HistoryOf(w, k))
    requires k in w.records && r == w.records[k].(channel := r.channel, smsDowngraded := r.smsDowngraded)
    ensures Inv(cfg, AcceptInbound(cfg, w, k, r, message, delayMs))
  {
    hide TurnOk, Inv, ConversationOk, Busy, Closed, TurnsClosed, SendingTurn, Schedule, EndRest, ClearStall;
    var h := HistoryOf(w, k);
    TurnsOver(cfg, r, h);
    NoReprocessWhileSending(cfg, r, h);
    InterruptReleases(cfg, w, k, r);
    var w1 := ClearCurrent(ClearStall(cfg, ClearRetry(w, k), k.line), r);
    TurnEndsEarly(cfg, r, h, Cancelled);
    var h0 := EndRest(h, r.index, Cancelled);
    TurnOpens(cfg, r.(cancelled := CancelledSummaries(cfg, r)), h0, message);
    var r1 := OpenBuffer(r, message).(cancelled := CancelledSummaries(cfg, r));
    PersistKeepsBusy(cfg, w1, k, r1);
    RememberKeepsBusy(cfg, Persist(w1, k, r1), k, Begin(h0, message));
    ScheduleRestores(cfg, Remember(Persist(w1, k, r1), k, Begin(h0, message)), k, delayMs);
  }

  lemma NoReprocessWhileSending(cfg: Config, r: Record, h: History)
    requires SendingTurn(cfg, r, h)
    ensures r.reprocessCount == 0
  {
  }

  lemma ChannelOnly(r: Record, channel: Channel, downgraded: bool)
    ensures var r' := ApplyChannel(r, channel, downgraded); r' == r.(channel := r'.channel, smsDowngraded := r'.smsDowngraded)
  {
  }

  lemma PassedOverIs(w: World, k: Key, channel: Channel, downgraded: bool, gate: Gate)
    ensures var r := PassedOver(w, k, channel, downgraded, gate);
            && (k in w.records ==> r == w.records[k].(channel := r.channel, smsDowngraded := r.smsDowngraded))
            && (k !in w.records ==> r == IdleRecord(r.channel).(smsDowngraded := r.smsDowngraded))
  {
  }

  lemma AcceptKeeps(cfg: Config, w: World, k: Key, channel: Channel, downgraded: bool, message: Inbound, delayMs: int)
    requires Inv(cfg, w)
    ensures Inv(cfg, AcceptInbound(cfg, w, k, ApplyChannel(KnownOrIdle(w, k), channel, downgraded), message, delayMs))
  {
    hide TurnOk, Inv, ConversationOk, AcceptInbound, ApplyChannel;
    var r0 := KnownOrIdle(w, k);
    var r := ApplyChannel(r0, channel, downgraded);
    ChannelOnly(r0, channel, downgraded);
    if k in w.records {
      Own(cfg, w, k);
      ConversationFacts(cfg, w, k);
    } else {
      NothingUnknown(cfg, w, k);
      FreshTurnOk(cfg, r0);
    }
    TurnIgnoresChannel(cfg, r0, r.channel, r.smsDowngraded, HistoryOf(w, k));
    match r.state {
      case Idle => OpensKeeps(cfg, w, k, r, message, delayMs);
      case Buffering => BuffersKeeps(cfg, w, k, r, message, delayMs);
      case Processing => ArrivesLateKeeps(cfg, w, k, r, message, delayMs);
      case Sending => InterruptKeeps(cfg, w, k, r, message, delayMs);
    }
  }

  lemma ReceiveKeeps(cfg: Config, w: World, k: Key, message: Inbound, channel: Channel, downgraded: bool, gate: Gate,
                     now: int, delayMs: int)
    requires Inv(cfg, w)
    ensures Inv(cfg, Receive(cfg, w, k, message, channel, downgraded, gate, now, delayMs))
  {
    hide Inv, AcceptInbound, PassedOver, ApplyChannel;
    if !ClaimHolds(w, message.handle, now) {
      var w1 := Claim(cfg, w, message.handle, now);
      ClaimKeeps(cfg, w, w1.claims);
      if gate == Accepted {
        AcceptKeeps(cfg, w1, k, channel, downgraded, message, delayMs);
      } else {
        PassedOverIs(w1, k, channel, downgraded, gate);
        PassedOverKeeps(cfg, w1, k, PassedOver(w1, k, channel, downgraded, gate));
      }
    }
  }

  lemma BufferTimerKeeps(cfg: Config, w: World, k: Key)
    requires Inv(cfg, w)
    ensures Inv(cfg, BufferTimer(w, k))
  {
    hide TurnOk, Inv, ConversationOk, ProcessBuffer;
    if k in w.buffer {
      ReleaseBuffer(cfg, w, k);
      Own(cfg, w, k);
      ConversationFacts(cfg, w, k);
      ChatRestores(cfg, w.(buffer := w.buffer - {k}), k);
    }
  }

  // --- replies -----------------------------------------------------------

  lemma ChatFails(cfg: Config, w: World, k: Key)
    requires Inv(cfg, w) && k in w.chats
    ensures Inv(cfg, ToIdle(cfg, Remember(w.(chats := w.chats - {k}), k, Fail(HistoryOf(w, k))), k, w.chats[k]))
  {
    hide TurnOk, Inv, ConversationOk, ToIdle, Closed, TurnsClosed;
    ReleaseChat(cfg, w, k);
    Own(cfg, w, k);
    ConversationFacts(cfg, w, k);
    var w1 := w.(chats := w.chats - {k});
    TurnFails(cfg, w.records[k], HistoryOf(w, k));
    RememberKeepsBusy(cfg, w1, k, Fail(HistoryOf(w, k)));
    ToIdleRestores(cfg, Remember(w1, k, Fail(HistoryOf(w, k))), k, w.chats[k]);
  }

  lemma ReprocessKeeps(cfg: Config, w: World, k: Key, delayMs: int)
    requires k in w.records && Busy(cfg, w, k) && w.records[k].state == Processing && TurnOk(cfg, w.records[k], HistoryOf(w, k))
    requires w.records[k].lateArrivals != [] && w.records[k].reprocessCount < cfg.maxReprocessAttempts
    ensures Inv(cfg, Schedule(Persist(w, k, Reprocess(w.records[k])), k, delayMs))
  {
    hide TurnOk, Inv, Busy, Schedule;
    TurnReprocesses(cfg, w.records[k], HistoryOf(w, k));
    PersistKeepsBusy(cfg, w, k, Reprocess(w.records[k]));
    ScheduleRestores(cfg, Persist(w, k, Reprocess(w.records[k])), k, delayMs);
  }

  lemma SilentReplyKeeps(cfg: Config, w: World, k: Key)
    requires k in w.records && Busy(cfg, w, k) && w.records[k].state == Processing && TurnOk(cfg, w.records[k], HistoryOf(w, k))
    requires w.records[k].lateArrivals == [] || w.records[k].reprocessCount >= cfg.maxReprocessAttempts
    ensures var h := HistoryOf(w, k);
            Inv(cfg, ToIdle(cfg, Remember(w, k, Answer(h, h.stamp, [])), k, w.records[k]))
  {
    hide TurnOk, Inv, Busy, ToIdle, Closed, TurnsClosed;
    var h := HistoryOf(w, k);
    TurnIsSilent(cfg, w.records[k], h);
    RememberKeepsBusy(cfg, w, k, Answer(h, h.stamp, []));
    BufferingHasNoHandle(cfg, w.records[k], h);
    ToIdleRestores(cfg, Remember(w, k, Answer(h, h.stamp, [])), k, w.records[k]);
  }

  lemma ReplyKeeps(cfg: Config, w: World, k: Key, actions: seq<QueuedAction>, now: int, results: Results)
    requires k in w.records && Busy(cfg, w, k) && w.records[k].state == Processing && TurnOk(cfg, w.records[k], HistoryOf(w, k))
    requires w.records[k].lateArrivals == [] || w.records[k].reprocessCount >= cfg.maxReprocessAttempts
    requires NoSilence(actions) && Fresh(w, results)
    ensures var r := StartSending(w.records[k], actions, now);
            Inv(cfg, SendFrom(cfg, Remember(Persist(w, k, r), k, Answer(HistoryOf(w, k), now, actions)), k, r, results))
  {
    hide TurnOk, Inv, Busy, SendFrom, Closed, TurnsClosed, SendingTurn;
    var r := StartSending(w.records[k], actions, now);
    var h := Answer(HistoryOf(w, k), now, actions);
    TurnSends(cfg, w.records[k], HistoryOf(w, k), actions, now);
    PersistKeepsBusy(cfg, w, k, r);
    RememberKeepsBusy(cfg, Persist(w, k, r), k, h);
    SendFromRestores(cfg, Remember(Persist(w, k, r), k, h), k, r, results);
  }

  lemma ChatReplyKeeps(cfg: Config, w: World, k: Key, reply: ChatResult, now: int, delayMs: int, results: Results)
    requires Inv(cfg, w) && Fresh(w, results) && (reply.Replied? ==> NoSilence(reply.actions))
    ensures Inv(cfg, ChatReply(cfg, w, k, reply, now, delayMs, results))
  {
    hide TurnOk, Inv, ConversationOk, Busy, SendFrom, ToIdle, Schedule, NoSilence;
    if k in w.chats {
      if reply.Failed? {
        ChatFails(cfg, w, k);
      } else {
        ReleaseChat(cfg, w, k);
        Own(cfg, w, k);
        ConversationFacts(cfg, w, k);
        var w1 := w.(chats := w.chats - {k});
        var latest := w.records[k];
        if latest.lateArrivals != [] && latest.reprocessCount < cfg.maxReprocessAttempts {
          ReprocessKeeps(cfg, w1, k, delayMs);
        } else if reply.actions == [] {
          SilentReplyKeeps(cfg, w1, k);
        } else {
          ReplyKeeps(cfg, w1, k, reply.actions, now, results);
        }
      }
    }
  }

  // --- callbacks and timers ----------------------------------------------

  lemma AbortRestores(cfg: Config, w: World, k: Key, r: Record, h: Handle)
    requires k in w.records && Busy(cfg, ClearHandle(w, h), k)
    requires SendingTurn(cfg, r, HistoryOf(w, k)) && TurnsClosed(cfg, HistoryOf(w, k))
    requires r.handle == None || r.handle == Some(h)
    ensures Inv(cfg, AbortQueue(cfg, w, k, r, h))
  {
    hide TurnOk, Inv, Busy, ToIdle, Closed, TurnsClosed, SendingTurn, EndRest;
    var e := EndRest(HistoryOf(w, k), r.index, Aborted);
    TurnEndsEarly(cfg, r, HistoryOf(w, k), Aborted);
    RememberKeepsBusy(cfg, ClearHandle(w, h), k, e);
    ToIdleRestores(cfg, Remember(ClearHandle(w, h), k, e), k, r);
  }

  // Clearing a handle a second time finds nothing.
  lemma AbortAgain(cfg: Config, w: World, k: Key, r: Record, h: Handle)
    requires k in w.records && Busy(cfg, w, k) && h !in w.mapping && h !in w.delivery
    requires SendingTurn(cfg, r, HistoryOf(w, k)) && TurnsClosed(cfg, HistoryOf(w, k))
    requires r.handle == None || r.handle == Some(h)
    ensures Inv(cfg, AbortQueue(cfg, w, k, r, h))
  {
    hide TurnOk, Inv, Busy, TurnsClosed, SendingTurn, AbortQueue;
    ClearAbsent(w, h);
    AbortRestores(cfg, w, k, r, h);
  }

  lemma AdvanceQueueRestores(cfg: Config, w: World, k: Key, r: Record, h: Handle, ending: Ending, results: Results)
    requires k in w.records && Busy(cfg, ClearHandle(w, h), k) && Fresh(w, results)
    requires SendingTurn(cfg, r, HistoryOf(w, k)) && TurnsClosed(cfg, HistoryOf(w, k)) && r.index < |r.queue|
    ensures Inv(cfg, AdvanceQueue(cfg, w, k, r, h, ending, results))
  {
    hide TurnOk, Inv, Busy, TurnsClosed, SendingTurn, SendFrom, Advance;
    var w1 := ClearHandle(w, h);
    AdvanceKeepsReady(cfg, w1, k, r, ending);
    AdvanceChanges(cfg, w1, k, r, ending);
    SendFromRestores(cfg, Advance(cfg, w1, k, r, ending), k, AdvanceRecord(r), results);
  }

  lemma SmsLimitRestores(cfg: Config, w: World, k: Key, r: Record, h: Handle)
    requires k in w.records && Busy(cfg, w, k) && h !in w.mapping && h !in w.delivery
    requires SendingTurn(cfg, r, HistoryOf(w, k)) && TurnsClosed(cfg, HistoryOf(w, k)) && r.index < |r.queue|
    ensures var r1 := WithCurrent(r, Current(r).(messageHandle := None)).(handle := None);
            var w2 := Persist(w, k, r1);
            && (CanStall(cfg, w2, k.line) ==> Inv(cfg, ArmStall(w2, k, Current(r1))))
            && (!CanStall(cfg, w2, k.line) ==> Inv(cfg, AbortQueue(cfg, RefuseStall(cfg, w2, k.line), k, r1, h)))
  {
    hide TurnOk, Inv, Busy, TurnsClosed, SendingTurn, AbortQueue, ArmStall;
    var r1 := WithCurrent(r, Current(r).(messageHandle := None)).(handle := None);
    ItemUpdateKeepsTurn(cfg, r, Current(r).(messageHandle := None), None, HistoryOf(w, k));
    var w2 := Persist(w, k, r1);
    PersistKeepsBusy(cfg, w, k, r1);
    if CanStall(cfg, w2, k.line) {
      SendingTurnOk(cfg, r1, HistoryOf(w2, k));
      IsSending(cfg, r1, HistoryOf(w2, k));
      StallRestores(cfg, w2, k);
    } else {
      RefuseStallKeepsBusy(cfg, w2, k);
      AbortAgain(cfg, RefuseStall(cfg, w2, k.line), k, r1, h);
    }
  }

  lemma IsSending(cfg: Config, r: Record, h: History)
    requires SendingTurn(cfg, r, h)
    ensures r.state == Sending
  {
  }

  lemma FailedStatusRestores(cfg: Config, w: World, k: Key, r: Record, c: Callback)
    requires k in w.records && Busy(cfg, ClearHandle(w, c.handle), k)
    requires SendingTurn(cfg, r, HistoryOf(w, k)) && TurnsClosed(cfg, HistoryOf(w, k)) && r.index < |r.queue|
    requires r.handle == Some(c.handle)
    ensures Inv(cfg, FailedStatus(cfg, w, k, r, c))
  {
    hide TurnOk, Inv, Busy, TurnsClosed, SendingTurn, AbortQueue, ArmStall, ArmRetry, CanStall, ClassifyStatusErrorCode;
    var category := ClassifyStatusErrorCode(c.errorCode);
    var w1 := ClearHandle(w, c.handle);
    if !cfg.limitTracker || category == Permanent {
      AbortRestores(cfg, w, k, r, c.handle);
    } else {
      match Route(cfg, Current(r), category) {
        case Retry(attempts) =>
          ItemUpdateKeepsTurn(cfg, r, Current(r).(retryCount := attempts, messageHandle := None), None, HistoryOf(w1, k));
          SendingTurnOk(cfg, RetryRecord(r, attempts), HistoryOf(w1, k));
          IsSending(cfg, r, HistoryOf(w, k));
          RetryRestores(cfg, w1, k, r, attempts);
        case TryStall => SmsLimitRestores(cfg, w1, k, r, c.handle);
        case _ => AbortAgain(cfg, w1, k, r, c.handle);
      }
    }
  }

  lemma StatusKeeps(cfg: Config, w: World, c: Callback, results: Results)
    requires Inv(cfg, w) && Fresh(w, results)
    ensures Inv(cfg, StatusCallback(cfg, w, c, results))
  {
    hide TurnOk, Inv, ConversationOk, Busy, TurnsClosed, SendingTurn, FailedStatus, AdvanceQueue, ClearHandle;
    if c.handle in w.mapping {
      var k := w.mapping[c.handle].key;
      MappingIsKnown(cfg, w, c.handle);
      var r := ApplyChannel(w.records[k], ChannelFromStatus(c, w.records[k].channel), c.downgraded);
      Own(cfg, w, k);
      ConversationFacts(cfg, w, k);
      TurnIgnoresChannel(cfg, w.records[k], r.channel, r.smsDowngraded, HistoryOf(w, k));
      TurnsOver(cfg, r, HistoryOf(w, k));
      if c.status == ERROR || c.status == DECLINED {
        ReleaseHandle(cfg, w, k, c.handle);
        FailedStatusRestores(cfg, w, k, r, c);
      } else if c.status == SuccessStatus(r) {
        ReleaseHandle(cfg, w, k, c.handle);
        AdvanceQueueRestores(cfg, w, k, r, c.handle, Confirmed, results);
      } else {
        RewriteKeeps(cfg, w, Persist(w, k, r), k);
      }
    }
  }

  lemma MappingIsKnown(cfg: Config, w: World, h: Handle)
    requires Inv(cfg, w) && h in w.mapping
    ensures Aligned(w, h)
  {
    hide ConversationOk;
  }

  lemma TimeoutKeeps(cfg: Config, w: World, h: Handle, results: Results)
    requires Inv(cfg, w) && Fresh(w, results)
    ensures Inv(cfg, DeliveryTimeout(cfg, w, h, results))
  {
    hide TurnOk, Inv, ConversationOk, Busy, TurnsClosed, SendingTurn, SendFrom;
    if h in w.delivery {
      Basics(cfg, w);
      assert DeliveryOk(w, h);
      MappingIsKnown(cfg, w, h);
      var k := w.delivery[h];
      var w1 := w.(delivery := w.delivery - {h});
      assert ClearHandle(w1, h) == ClearHandle(w, h) by { assert w1.delivery - {h} == w1.delivery; }
      Own(cfg, w, k);
      ConversationFacts(cfg, w, k);
      TurnsOver(cfg, w.records[k], HistoryOf(w, k));
      ReleaseHandle(cfg, w, k, h);
      AdvanceQueueRestores(cfg, w1, k, w1.records[k], h, TimedOut, results);
    }
  }

  lemma RunRetryRestores(cfg: Config, w: World, k: Key, e: Expected, results: Results)
    requires k in w.records && Busy(cfg, w, k) && Fresh(w, results) && Awaits(w.records[k], e)
    requires TurnOk(cfg, w.records[k], HistoryOf(w, k))
    ensures Inv(cfg, RunRetry(cfg, w, k, e, results))
  {
    hide TurnOk, Inv, Busy, TurnsClosed, SendingTurn, SendFrom;
    TurnsOver(cfg, w.records[k], HistoryOf(w, k));
    SendFromRestores(cfg, w, k, w.records[k], results);
  }

  lemma RetryTimerKeeps(cfg: Config, w: World, k: Key, results: Results)
    requires Inv(cfg, w) && Fresh(w, results)
    ensures Inv(cfg, RetryTimer(cfg, w, k, results))
  {
    hide TurnOk, Inv, ConversationOk, Busy, RunRetry, Awaits;
    if k in w.retry {
      ReleaseRetry(cfg, w, k);
      Own(cfg, w, k);
      ConversationFacts(cfg, w, k);
      RunRetryRestores(cfg, ClearRetry(w, k), k, w.retry[k], results);
    }
  }

  lemma StallTimerKeeps(cfg: Config, w: World, line: Line, results: Results)
    requires Inv(cfg, w) && Fresh(w, results)
    ensures Inv(cfg, StallTimer(cfg, w, line, results))
  {
    hide TurnOk, Inv, ConversationOk, Busy, RunRetry, Awaits;
    if line in w.stalls {
      var k := w.stalls[line].key;
      ReleaseStall(cfg, w, line);
      Own(cfg, w, k);
      ConversationFacts(cfg, w, k);
      RunRetryRestores(cfg, w.(stalls := w.stalls - {line}), k, w.stalls[line].expected, results);
    }
  }
}
