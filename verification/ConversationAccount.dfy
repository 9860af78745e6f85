// What the history says of a conversation: how every request was answered and
// every position ended, what the queue's items note of it, and what the record
// lists as delivered and as cancelled.
module ConversationAccount {
  import opened Wrappers
  import opened Text
  import opened StatusTracker
  import opened ErrorClass
  import opened ConversationTypes
  import opened History
  import opened ConversationModel
  import opened ConversationInvariant
  import opened ConversationSteps
  import opened ConversationEffects
  import opened ConversationRuns

  // --- how positions end -------------------------------------------------

  // The request left something to wait for.  Reactions never get a callback, so
  // nothing is waited for after one.
  predicate Waited(a: QueuedAction, answer: SendResult) {
    answer.Returned? && answer.handle.Some? && answer.handle.value != "" && a.kind != Reaction
  }

  // A media address, or a text where the kind of the action has one.
  predicate HasSomethingToSend(a: QueuedAction) {
    || (a.mediaUrl.Some? && a.mediaUrl.value != "")
    || (a.kind in {Message, Reply} && a.content.Some? && !Blank(a.content.value))
  }

  // Nothing can ever be sent for the action in this conversation, whatever its
  // channel.
  predicate Hopeless(cfg: Config, k: Key, a: QueuedAction) {
    match a.kind
    case Silence => true
    case Reaction => !cfg.canReact
    case _ => (k.Group? && !cfg.canSendGroup) || !HasSomethingToSend(a)
  }

  // After this answer the same position may be requested again.
  predicate Repeatable(cfg: Config, a: QueuedAction, answer: SendResult) {
    Waited(a, answer) || (cfg.limitTracker && answer.Threw? && ClassifyError(answer.error) != Permanent)
  }

  // The answer to the request the position was left with, if there was one.
  function AnswerAt(before: Option<Outbound>, position: nat): Option<SendResult> {
    if before.Some? && before.value.Sent? && before.value.position == position then Some(before.value.answer) else None
  }

  predicate EndedAs(before: Option<Outbound>, ending: Ending) {
    before.Some? && before.value.Ended? && before.value.ending == ending
  }

  // What the log of a turn may say next.
  predicate MayFollow(cfg: Config, k: Key, reply: seq<QueuedAction>, before: Option<Outbound>, e: Outbound) {
    && e.position < |reply|
    && var a, answer := reply[e.position], AnswerAt(before, e.position);
    match e
    case Sent(_, _, _) => !Hopeless(cfg, k, a) && (answer.Some? ==> Repeatable(cfg, a, answer.value))
    case Ended(_, ending) =>
      match ending
      case Confirmed => answer.Some? && Waited(a, answer.value)
      case TimedOut => answer.Some? && Waited(a, answer.value)
      case Unconfirmed => answer.Some? && answer.value.Returned? && !Waited(a, answer.value)
      case Skipped => if answer.Some? then answer.value.Threw? else Hopeless(cfg, k, a) || a.kind == Reaction
      case Aborted => (answer.Some? && Waited(a, answer.value)) || EndedAs(before, Aborted)
      case Cancelled => answer.Some? || EndedAs(before, Cancelled)
  }

  function Before(log: seq<Outbound>, i: nat): Option<Outbound>
    requires i <= |log|
  {
    if i == 0 then None else Some(log[i - 1])
  }

  ghost predicate LogOk(cfg: Config, k: Key, t: Turn) {
    forall i: nat {:trigger Before(t.log, i)} :: i < |t.log| ==> MayFollow(cfg, k, t.reply, Before(t.log, i), t.log[i])
  }

  lemma LogNext(cfg: Config, k: Key, t: Turn, e: Outbound)
    requires LogOk(cfg, k, t) && MayFollow(cfg, k, t.reply, Before(t.log, |t.log|), e)
    ensures LogOk(cfg, k, t.(log := t.log + [e]))
  {
    hide MayFollow;
    var log := t.log + [e];
    forall i: nat | i < |log| ensures MayFollow(cfg, k, t.reply, Before(log, i), log[i]) {
      assert Before(log, i) == Before(t.log, i);
    }
  }

  // --- what is delivered and cancelled -----------------------------------

  // The contents a log delivered: those of the positions that were confirmed,
  // timed out, or sent without anything to wait for.
  function Contents(reply: seq<QueuedAction>, log: seq<Outbound>): seq<string> {
    if log == [] then []
    else
      var n := |log| - 1;
      Contents(reply, log[..n]) + Content(reply, log[n])
  }

  function Content(reply: seq<QueuedAction>, e: Outbound): seq<string> {
    if e.Ended? && e.ending in {Confirmed, TimedOut, Unconfirmed} && e.position < |reply|
       && reply[e.position].content.Some? && reply[e.position].content.value != ""
    then [reply[e.position].content.value]
    else []
  }

  function Cancellations(cfg: Config, reply: seq<QueuedAction>, log: seq<Outbound>): seq<string> {
    if log == [] then []
    else
      var n := |log| - 1;
      Cancellations(cfg, reply, log[..n]) + Cancellation(cfg, reply, log[n])
  }

  function Cancellation(cfg: Config, reply: seq<QueuedAction>, e: Outbound): seq<string> {
    if e.Ended? && e.ending == Cancelled && e.position < |reply|
    then [Truncate(Summary(reply[e.position]), cfg.cancelledMaxLength)]
    else []
  }

  predicate Cancels(e: Outbound) {
    e.Ended? && e.ending == Cancelled
  }

  // A turn that a message interrupted while it was sending; only then does the
  // next turn begin without the conversation going idle in between.
  ghost predicate WasInterrupted(t: Turn) {
    exists i :: 0 <= i < |t.log| && Cancels(t.log[i])
  }

  // What the turns since the conversation was last idle have delivered, the one
  // under way left out.
  ghost function DeliveredBefore(past: seq<Turn>): seq<string> {
    if past == [] || !WasInterrupted(Last(past)) then []
    else DeliveredBefore(past[..|past| - 1]) + Contents(Last(past).reply, Last(past).log)
  }

  ghost function AllDelivered(h: History): seq<string> {
    DeliveredBefore(h.past) + Contents(h.turn.reply, h.turn.log)
  }

  // What the turn before was interrupted in.
  ghost function CancelledBefore(cfg: Config, past: seq<Turn>): seq<string> {
    if past == [] then [] else Cancellations(cfg, Last(past).reply, Last(past).log)
  }

  lemma LogDelivers(cfg: Config, reply: seq<QueuedAction>, log: seq<Outbound>, e: Outbound)
    ensures Contents(reply, log + [e]) == Contents(reply, log) + Content(reply, e)
    ensures Cancellations(cfg, reply, log + [e]) == Cancellations(cfg, reply, log) + Cancellation(cfg, reply, e)
  {
    assert (log + [e])[..|log|] == log;
  }

  lemma {:induction false} NothingCancelled(cfg: Config, reply: seq<QueuedAction>, log: seq<Outbound>)
    requires forall i :: 0 <= i < |log| ==> !Cancels(log[i])
    ensures Cancellations(cfg, reply, log) == []
  {
    if log != [] { NothingCancelled(cfg, reply, log[..|log| - 1]); }
  }

  // --- the record against the history ------------------------------------

  // The queue is the reply, but for the targets of reactions.
  ghost predicate QueueSays(queue: seq<Item>, reply: seq<QueuedAction>) {
    && |queue| == |reply|
    && forall i :: 0 <= i < |queue| ==> queue[i].action == reply[i].(target := queue[i].action.target)
  }

  // What an item keeps of its end: it is marked exactly when it was skipped, and
  // has the handle of the request that was confirmed or timed out.
  predicate Notes(item: Item, before: Option<Outbound>, e: Outbound) {
    && (item.skipped <==> e.Ended? && e.ending == Skipped)
    && item.messageHandle ==
       match AnswerAt(before, e.position)
       case Some(Returned(h)) => if e.Ended? && e.ending in {Confirmed, TimedOut} then h else None
       case _ => None
  }

  // Items behind the position note how they ended, the one at the position has
  // the handle in flight, and the others are as they were queued.
  ghost predicate ItemsOk(r: Record, log: seq<Outbound>) {
    && (forall i: nat {:trigger Before(log, i)} :: i < |log| && log[i].Ended? && log[i].position < |r.queue| ==>
          Notes(r.queue[log[i].position], Before(log, i), log[i]))
    && (forall i :: 0 <= i < |log| && log[i].Ended? ==> log[i].position < r.index)
    && (r.index < |r.queue| ==> !r.queue[r.index].skipped && r.queue[r.index].messageHandle == r.handle)
    && (forall i :: r.index < i < |r.queue| ==> Untouched(r.queue[i]))
  }

  predicate Untouched(item: Item) {
    item.messageHandle == None && !item.skipped && item.retryCount == 0
  }

  // The account of a conversation that is not sending at the moment.
  ghost predicate Told(cfg: Config, k: Key, r: Record, h: History) {
    && r.delivered == AllDelivered(h) && r.cancelled == CancelledBefore(cfg, h.past)
    && (forall i :: 0 <= i < |h.past| ==> LogOk(cfg, k, h.past[i]))
    && LogOk(cfg, k, h.turn) && !WasInterrupted(h.turn)
    && (h.turn.accepted == [] ==> h.past == [])
  }

  ghost predicate Queued(cfg: Config, k: Key, r: Record, h: History) {
    Told(cfg, k, r, h) && QueueSays(r.queue, h.turn.reply) && ItemsOk(r, h.turn.log)
  }

  // The current position has been requested and answered so.
  ghost predicate Asked(r: Record, log: seq<Outbound>, answer: SendResult) {
    log != [] && Last(log).Sent? && Last(log).position == r.index && Last(log).answer == answer
  }

  // The current position was answered so, and is waited for or will be requested
  // again.
  ghost predicate Pending(cfg: Config, r: Record, log: seq<Outbound>) {
    && r.index < |r.queue| && log != [] && Last(log).Sent? && Last(log).position == r.index
    && var answer := Last(log).answer;
    match r.handle
    case Some(h) => Waited(Current(r).action, answer) && answer.handle == Some(h)
    case None => Repeatable(cfg, Current(r).action, answer)
  }

  // A request may be made for the current position: it was not made before, or
  // may be made again.
  ghost predicate MayAsk(cfg: Config, r: Record, log: seq<Outbound>) {
    r.index < |r.queue| && AnswerAt(Before(log, |log|), r.index).Some? ==> Pending(cfg, r, log)
  }

  ghost predicate Account(cfg: Config, k: Key, r: Record, h: History) {
    && Told(cfg, k, r, h)
    && (r.state == Sending ==> Queued(cfg, k, r, h) && Pending(cfg, r, h.turn.log))
  }

  // What a chat call holds is the record as it was when the request was made:
  // since then only late messages and the channel can have been added.
  predicate Snapshot(held: Record, r: Record) {
    r == held.(lateArrivals := r.lateArrivals, lastInboundHandles := r.lastInboundHandles, channel := r.channel,
               smsDowngraded := r.smsDowngraded)
  }

  ghost predicate AccountOk(cfg: Config, w: World, k: Key) {
    && k in w.records && Account(cfg, k, w.records[k], HistoryOf(w, k))
    && (k in w.chats ==> Snapshot(w.chats[k], w.records[k]))
  }

  // --- the operations of a step ------------------------------------------

  // Nothing is said of the history but its current log.
  lemma ToldNext(cfg: Config, k: Key, r: Record, h: History, e: Outbound, r': Record)
    requires Told(cfg, k, r, h) && MayFollow(cfg, k, h.turn.reply, Before(h.turn.log, |h.turn.log|), e) && !Cancels(e)
    requires r'.delivered == r.delivered + Content(h.turn.reply, e) && r'.cancelled == r.cancelled
    ensures Told(cfg, k, r', Log(h, e))
  {
    hide MayFollow, Content, Contents, LogOk, DeliveredBefore, CancelledBefore;
    LogNext(cfg, k, h.turn, e);
    LogDelivers(cfg, h.turn.reply, h.turn.log, e);
    var log := Log(h, e).turn.log;
    forall i | 0 <= i < |log| ensures !Cancels(log[i]) { assert i < |h.turn.log| ==> log[i] == h.turn.log[i]; }
  }

  // A request leaves the items as they are.
  lemma AskNotes(r: Record, log: seq<Outbound>, e: Outbound)
    requires ItemsOk(r, log) && e.Sent? && e.position == r.index
    ensures ItemsOk(r, log + [e])
  {
    hide Notes;
    var all := log + [e];
    forall i: nat | i < |all| && all[i].Ended? && all[i].position < |r.queue|
      ensures Notes(r.queue[all[i].position], Before(all, i), all[i])
    {
      assert Before(all, i) == Before(log, i) && all[i] == log[i];
    }
  }

  // An end is noted on the item, and the next one is at hand.
  lemma EndNotes(r: Record, log: seq<Outbound>, e: Outbound, item: Item, r': Record)
    requires ItemsOk(r, log) && e.Ended? && e.position == r.index < |r.queue|
    requires Notes(item, Before(log, |log|), e)
    requires r' == r.(queue := r.queue[r.index := item], index := r.index + 1, handle := None, delivered := r'.delivered)
    ensures ItemsOk(r', log + [e])
  {
    hide Notes;
    var all := log + [e];
    forall i: nat | i < |all| && all[i].Ended? && all[i].position < |r'.queue|
      ensures Notes(r'.queue[all[i].position], Before(all, i), all[i])
    {
      assert Before(all, i) == Before(log, i);
      if i < |log| { assert all[i] == log[i]; }
    }
  }

  // What keeps an action from being requested: nothing can be sent for it, or
  // it is a reaction and the conversation is not on iMessage, or there is no
  // message to react to.
  lemma UnsendableExactlyWhen(cfg: Config, k: Key, r: Record, a: QueuedAction)
    ensures Unsendable(cfg, k, r, a) <==>
            || Hopeless(cfg, k, a)
            || (a.kind == Reaction
                && (r.channel != IMessage || r.smsDowngraded || ResolveInboundTarget(r, a) in {None, Some("")}))
  {
    hide ResolveInboundTarget, Blank;
    Undecided(ResolveInboundTarget(r, a));
  }

  lemma Undecided(target: Option<Handle>)
    ensures Falsy(target) <==> target in {None, Some("")}
  {
  }

  // The request at the end of a log was for an action with something to send.
  lemma LastWasSendable(cfg: Config, k: Key, t: Turn)
    requires LogOk(cfg, k, t) && t.log != [] && Last(t.log).Sent?
    ensures Last(t.log).position < |t.reply| && !Hopeless(cfg, k, t.reply[Last(t.log).position])
  {
    hide Hopeless;
    assert MayFollow(cfg, k, t.reply, Before(t.log, |t.log| - 1), t.log[|t.log| - 1]);
  }

  // Only the target of a reaction tells an item's action from the reply's.
  lemma SaysAlike(cfg: Config, k: Key, a: QueuedAction, target: Option<string>, answer: SendResult)
    ensures Hopeless(cfg, k, a.(target := target)) == Hopeless(cfg, k, a)
    ensures Waited(a.(target := target), answer) == Waited(a, answer)
    ensures Repeatable(cfg, a.(target := target), answer) == Repeatable(cfg, a, answer)
    ensures Summary(a.(target := target)) == Summary(a)
  {
    hide Blank, ClassifyError;
  }

  lemma SkipFollows(cfg: Config, k: Key, r: Record, h: History)
    requires Queued(cfg, k, r, h) && r.handle == None && MayAsk(cfg, r, h.turn.log) && r.index < |r.queue|
    requires Unsendable(cfg, k, r, Current(r).action)
    ensures MayFollow(cfg, k, h.turn.reply, Before(h.turn.log, |h.turn.log|), Ended(r.index, Skipped))
  {
    hide Told, ItemsOk, Hopeless, Blank, ClassifyError, ResolveInboundTarget;
    var a, answer := h.turn.reply[r.index], AnswerAt(Before(h.turn.log, |h.turn.log|), r.index);
    UnsendableExactlyWhen(cfg, k, r, Current(r).action);
    if answer.Some? {
      LastWasSendable(cfg, k, h.turn) by { assert Told(cfg, k, r, h); ToldLogs(cfg, k, r, h); }
      SaysAlike(cfg, k, a, Current(r).action.target, answer.value);
    } else {
      SaysAlike(cfg, k, a, Current(r).action.target, Threw(NetworkError));
    }
  }

  lemma ToldLogs(cfg: Config, k: Key, r: Record, h: History)
    requires Told(cfg, k, r, h)
    ensures LogOk(cfg, k, h.turn) && !WasInterrupted(h.turn)
  {
  }

  // Skipping the current item.
  lemma SkipTells(cfg: Config, k: Key, r: Record, h: History)
    requires Queued(cfg, k, r, h) && r.handle == None && r.index < |r.queue|
    requires MayFollow(cfg, k, h.turn.reply, Before(h.turn.log, |h.turn.log|), Ended(r.index, Skipped))
    ensures Queued(cfg, k, SkipRecord(r), Log(h, Ended(r.index, Skipped)))
    ensures MayAsk(cfg, SkipRecord(r), Log(h, Ended(r.index, Skipped)).turn.log)
  {
    hide Told, ItemsOk, MayFollow;
    var e := Ended(r.index, Skipped);
    ToldNext(cfg, k, r, h, e, SkipRecord(r)) by { assert r.delivered + [] == r.delivered; }
    SkipNotes(r, h.turn.log);
  }

  lemma SkipNotes(r: Record, log: seq<Outbound>)
    requires ItemsOk(r, log) && r.handle == None && r.index < |r.queue|
    ensures ItemsOk(SkipRecord(r), log + [Ended(r.index, Skipped)])
  {
    EndNotes(r, log, Ended(r.index, Skipped), Current(r).(skipped := true), SkipRecord(r));
  }

  // Requesting it.
  lemma AskTells(cfg: Config, k: Key, r: Record, h: History, answer: SendResult)
    requires Queued(cfg, k, r, h) && r.handle == None && MayAsk(cfg, r, h.turn.log) && r.index < |r.queue|
    requires !Unsendable(cfg, k, r, Current(r).action)
    ensures Queued(cfg, k, r, Log(h, Attempt(r, answer))) && Asked(r, Log(h, Attempt(r, answer)).turn.log, answer)
  {
    hide Told, ItemsOk, ResolveInboundTarget, Hopeless, Blank, ClassifyError;
    var e := Attempt(r, answer);
    AskFollows(cfg, k, r, h, e);
    ToldNext(cfg, k, r, h, e, r) by { assert r.delivered + [] == r.delivered; }
    AskNotes(r, h.turn.log, e);
  }

  lemma AskFollows(cfg: Config, k: Key, r: Record, h: History, e: Outbound)
    requires QueueSays(r.queue, h.turn.reply) && r.handle == None && MayAsk(cfg, r, h.turn.log) && r.index < |r.queue|
    requires !Unsendable(cfg, k, r, Current(r).action) && e.Sent? && e.position == r.index
    ensures MayFollow(cfg, k, h.turn.reply, Before(h.turn.log, |h.turn.log|), e)
  {
    hide Hopeless, ResolveInboundTarget, Blank, ClassifyError, Repeatable;
    var a, asked := h.turn.reply[r.index], AnswerAt(Before(h.turn.log, |h.turn.log|), r.index);
    UnsendableExactlyWhen(cfg, k, r, Current(r).action);
    SaysAlike(cfg, k, a, Current(r).action.target, if asked.Some? then asked.value else Threw(NetworkError));
  }

  // Its position ends as delivered; r is the record the item's handle is noted in.
  lemma AdvanceTells(cfg: Config, k: Key, r: Record, h: History, ending: Ending)
    requires Queued(cfg, k, r, h) && r.index < |r.queue| && ending in {Confirmed, TimedOut, Unconfirmed}
    requires MayFollow(cfg, k, h.turn.reply, Before(h.turn.log, |h.turn.log|), Ended(r.index, ending))
    requires Notes(Current(r), Before(h.turn.log, |h.turn.log|), Ended(r.index, ending))
    ensures Queued(cfg, k, AdvanceRecord(r), Log(h, Ended(r.index, ending)))
    ensures MayAsk(cfg, AdvanceRecord(r), Log(h, Ended(r.index, ending)).turn.log)
  {
    hide Told, ItemsOk, MayFollow, Notes;
    var e := Ended(r.index, ending);
    ToldNext(cfg, k, r, h, e, AdvanceRecord(r)) by { assert r.delivered + [] == r.delivered; }
    assert r.queue[r.index := Current(r)] == r.queue;
    EndNotes(r, h.turn.log, e, Current(r), AdvanceRecord(r));
  }

  // What was asked for and returned without a handle to wait for.
  lemma FiredTells(cfg: Config, k: Key, r: Record, h: History, answer: SendResult)
    requires Queued(cfg, k, r, h) && r.handle == None && r.index < |r.queue| && Asked(r, h.turn.log, answer)
    requires answer.Returned? && !Waited(Current(r).action, answer)
    ensures var sent := SentRecord(r, None);
            && Queued(cfg, k, AdvanceRecord(sent), Log(h, Ended(r.index, Unconfirmed)))
            && MayAsk(cfg, AdvanceRecord(sent), Log(h, Ended(r.index, Unconfirmed)).turn.log)
  {
    hide Told, Hopeless, ClassifyError, ItemsOk;
    SaysAlike(cfg, k, h.turn.reply[r.index], Current(r).action.target, answer);
    var sent := SentRecord(r, None);
    assert sent == r by { SameItem(r, h.turn.log); }
    NotesNothing(r, h.turn.log);
    AdvanceTells(cfg, k, r, h, Unconfirmed);
  }

  lemma SameItem(r: Record, log: seq<Outbound>)
    requires ItemsOk(r, log) && r.handle == None && r.index < |r.queue|
    ensures SentRecord(r, None) == r
  {
  }

  lemma NotesNothing(r: Record, log: seq<Outbound>)
    requires ItemsOk(r, log) && r.handle == None && r.index < |r.queue|
    ensures Notes(Current(r), Before(log, |log|), Ended(r.index, Unconfirmed))
  {
  }

  // What was waited for: its callback or timeout came.
  lemma ConfirmedTells(cfg: Config, k: Key, r: Record, h: History, ending: Ending)
    requires Queued(cfg, k, r, h) && r.handle.Some? && Pending(cfg, r, h.turn.log) && ending in {Confirmed, TimedOut}
    ensures Queued(cfg, k, AdvanceRecord(r), Log(h, Ended(r.index, ending)))
    ensures MayAsk(cfg, AdvanceRecord(r), Log(h, Ended(r.index, ending)).turn.log)
  {
    hide Told, Hopeless, ClassifyError, ItemsOk;
    SaysAlike(cfg, k, h.turn.reply[r.index], Current(r).action.target, Last(h.turn.log).answer);
    NotesHandle(r, h.turn.log, ending);
    AdvanceTells(cfg, k, r, h, ending);
  }

  lemma NotesHandle(r: Record, log: seq<Outbound>, ending: Ending)
    requires ItemsOk(r, log) && r.index < |r.queue| && ending in {Confirmed, TimedOut}
    requires AnswerAt(Before(log, |log|), r.index) == Some(Returned(r.handle))
    ensures Notes(Current(r), Before(log, |log|), Ended(r.index, ending))
  {
  }

  // Another handle, or another attempt, on the current item.
  lemma ItemTells(cfg: Config, k: Key, r: Record, h: History, attempts: nat, handle: Option<Handle>)
    requires Queued(cfg, k, r, h) && r.index < |r.queue|
    ensures var r' := WithCurrent(r, Current(r).(retryCount := attempts, messageHandle := handle)).(handle := handle);
            Queued(cfg, k, r', h)
  {
    hide Contents, DeliveredBefore, CancelledBefore, LogOk, Notes;
  }

  lemma AwaitTells(cfg: Config, k: Key, r: Record, h: History, handle: Handle)
    requires Queued(cfg, k, r, h) && r.index < |r.queue| && Asked(r, h.turn.log, Returned(Some(handle)))
    requires Waited(Current(r).action, Returned(Some(handle)))
    ensures Account(cfg, k, SentRecord(r, Some(handle)), h)
  {
    hide Told, QueueSays, ItemsOk;
    ItemTells(cfg, k, r, h, Current(r).retryCount, Some(handle));
  }

  lemma RetryTells(cfg: Config, k: Key, r: Record, h: History, attempts: nat, answer: SendResult)
    requires Queued(cfg, k, r, h) && r.index < |r.queue| && Asked(r, h.turn.log, answer)
    requires Repeatable(cfg, Current(r).action, answer)
    ensures Account(cfg, k, RetryRecord(r, attempts), h)
  {
    hide Told, QueueSays, ItemsOk, ClassifyError;
    ItemTells(cfg, k, r, h, attempts, None);
  }

  // The failed item waits for its line.
  lemma StallTells(cfg: Config, k: Key, r: Record, h: History, answer: SendResult)
    requires Queued(cfg, k, r, h) && r.index < |r.queue| && Asked(r, h.turn.log, answer)
    requires Repeatable(cfg, Current(r).action, answer)
    ensures Account(cfg, k, WithCurrent(r, Current(r).(messageHandle := None)).(handle := None), h)
  {
    hide Told, QueueSays, ItemsOk, ClassifyError;
    ItemTells(cfg, k, r, h, Current(r).retryCount, None);
  }

  lemma IdleTells(cfg: Config, k: Key, r: Record, h: History)
    requires Told(cfg, k, r, h)
    ensures Account(cfg, k, ToIdleRecord(r), h)
  {
    hide Contents, DeliveredBefore, CancelledBefore, LogOk;
  }

  // --- sending -----------------------------------------------------------

  ghost predicate Poised(cfg: Config, w: World, k: Key, r: Record) {
    && k in w.records && w.records[k] == r && r.state == Sending && r.handle == None
    && Queued(cfg, k, r, HistoryOf(w, k)) && MayAsk(cfg, r, HistoryOf(w, k).turn.log)
  }

  // Where sending ends.
  ghost predicate Accounted(cfg: Config, w: World, k: Key) {
    k in w.records && w.records[k].state in {Idle, Sending} && Account(cfg, k, w.records[k], HistoryOf(w, k))
  }

  lemma SkipPoises(cfg: Config, w: World, k: Key, r: Record)
    requires k in w.records && r.state == Sending && r.handle == None && r.index < |r.queue|
    requires var h := HistoryOf(w, k);
             Queued(cfg, k, r, h) && MayFollow(cfg, k, h.turn.reply, Before(h.turn.log, |h.turn.log|), Ended(r.index, Skipped))
    ensures Poised(cfg, Skip(w, k, r), k, SkipRecord(r))
  {
    hide Queued, MayAsk, MayFollow;
    SkipTells(cfg, k, r, HistoryOf(w, k));
  }

  lemma {:induction false} SendFromAccounts(cfg: Config, w: World, k: Key, r: Record, results: Results)
    requires Poised(cfg, w, k, r)
    ensures Accounted(cfg, SendFrom(cfg, w, k, r, results), k)
    decreases if r.index < |r.queue| then |r.queue| - r.index else 0, 2
  {
    hide Queued, MayAsk, MayFollow, Unsendable, ToIdle, Skip, SkipRecord, Attempted, AfterAttempt, Account, HistoryOf;
    var h := HistoryOf(w, k);
    if r.index >= |r.queue| {
      GoesIdle(cfg, w, k, r);
      IdleTells(cfg, k, r, h) by { assert Queued(cfg, k, r, h); QueuedIsTold(cfg, k, r, h); }
    } else if Unsendable(cfg, k, r, Current(r).action) {
      SkipFollows(cfg, k, r, h);
      SkipPoises(cfg, w, k, r);
      OneFewer(r);
      SendFromAccounts(cfg, Skip(w, k, r), k, SkipRecord(r), results);
    } else {
      AskTells(cfg, k, r, h, results(r.index));
      RequestIsLogged(w, k, r, results(r.index));
      AnswerAccounts(cfg, Attempted(w, k, r, results(r.index)), k, r, results);
    }
  }

  lemma QueuedIsTold(cfg: Config, k: Key, r: Record, h: History)
    requires Queued(cfg, k, r, h)
    ensures Told(cfg, k, r, h)
  {
  }

  lemma OneFewer(r: Record)
    requires r.index < |r.queue|
    ensures |SkipRecord(r).queue| == |r.queue| && SkipRecord(r).index == r.index + 1
    ensures |AdvanceRecord(SentRecord(r, None)).queue| == |r.queue| && AdvanceRecord(SentRecord(r, None)).index == r.index + 1
  {
  }

  lemma RequestIsLogged(w: World, k: Key, r: Record, answer: SendResult)
    requires r.index < |r.queue|
    ensures var w' := Attempted(w, k, r, answer);
            w'.records == w.records && HistoryOf(w', k) == Log(HistoryOf(w, k), Attempt(r, answer))
  {
    hide Attempt;
  }

  lemma GoesIdle(cfg: Config, w: World, k: Key, r: Record)
    ensures var w' := ToIdle(cfg, w, k, r);
            k in w'.records && w'.records[k] == ToIdleRecord(r) && HistoryOf(w', k) == HistoryOf(w, k)
  {
  }

  // The request was made and answered.
  ghost predicate Answering(cfg: Config, w: World, k: Key, r: Record, answer: SendResult) {
    && k in w.records && w.records[k] == r && r.state == Sending && r.handle == None && r.index < |r.queue|
    && Queued(cfg, k, r, HistoryOf(w, k)) && Asked(r, HistoryOf(w, k).turn.log, answer)
  }

  lemma {:induction false} AnswerAccounts(cfg: Config, w: World, k: Key, r: Record, results: Results)
    requires r.index < |r.queue| && Answering(cfg, w, k, r, results(r.index))
    ensures Accounted(cfg, AfterAttempt(cfg, w, k, r, results), k)
    decreases |r.queue| - r.index, 1
  {
    hide Queued, MayAsk, Asked, SendFrom, Skip, SkipRecord, Advance, AdvanceRecord, SentRecord, RetryRecord, AwaitStatus, ArmRetry,
         ArmStall, RefuseStall, CanStall, Account, HistoryOf, ClassifyError;
    var h, answer := HistoryOf(w, k), results(r.index);
    OneFewer(r);
    match Judge(cfg, Current(r), answer) {
      case InFlight(handle) =>
        WaitedIs(Current(r).action, answer);
        AwaitTells(cfg, k, r, h, handle);
        ArmedIs(w, k, r, 0, handle);
      case Fired =>
        WaitedIs(Current(r).action, answer);
        FiredTells(cfg, k, r, h, answer);
        SentIs(r);
        AdvanceIs(cfg, w, k, SentRecord(r, None), Unconfirmed);
        SendFromAccounts(cfg, Advance(cfg, w, k, SentRecord(r, None), Unconfirmed), k, AdvanceRecord(SentRecord(r, None)), results);
      case Retry(attempts) =>
        RetryTells(cfg, k, r, h, attempts, answer);
        ArmedIs(w, k, r, attempts, "");
      case TryStall =>
        if CanStall(cfg, w, k.line) {
          StallTells(cfg, k, r, h, answer);
          NothingToForget(cfg, k, r, h);
          ArmedIs(w, k, r, 0, "");
        } else {
          SkipAccounts(cfg, w, RefuseStall(cfg, w, k.line), k, r, results) by { RefuseChanges(cfg, w, k); }
        }
      case GiveUp => SkipAccounts(cfg, w, w, k, r, results);
    }
  }

  // A failed request whose position is given up.
  lemma {:induction false} SkipAccounts(cfg: Config, w: World, w1: World, k: Key, r: Record, results: Results)
    requires r.index < |r.queue| && Answering(cfg, w, k, r, results(r.index)) && results(r.index).Threw?
    requires w1.records == w.records && w1.history == w.history
    ensures Accounted(cfg, SendFrom(cfg, Skip(w1, k, r), k, SkipRecord(r), results), k)
    decreases |r.queue| - r.index, 0
  {
    hide Account, SendFrom, Skip, SkipRecord, Told, QueueSays, ItemsOk, MayFollow, Asked;
    OneFewer(r);
    FailureFollows(r, HistoryOf(w, k), cfg, k, results(r.index));
    SkipPoises(cfg, w1, k, r);
    SendFromAccounts(cfg, Skip(w1, k, r), k, SkipRecord(r), results);
  }

  lemma FailureFollows(r: Record, h: History, cfg: Config, k: Key, answer: SendResult)
    requires QueueSays(r.queue, h.turn.reply) && r.index < |r.queue| && Asked(r, h.turn.log, answer) && answer.Threw?
    ensures MayFollow(cfg, k, h.turn.reply, Before(h.turn.log, |h.turn.log|), Ended(r.index, Skipped))
  {
  }

  lemma WaitedIs(a: QueuedAction, answer: SendResult)
    ensures answer.Returned? ==> (Waited(a, answer) <==> !(a.kind == Reaction || Falsy(answer.handle)))
  {
  }

  lemma SentIs(r: Record)
    requires r.index < |r.queue|
    ensures var sent := SentRecord(r, None); sent.index == r.index && |sent.queue| == |r.queue| && sent.state == r.state
  {
  }

  lemma ArmedIs(w: World, k: Key, r: Record, attempts: nat, h: Handle)
    requires r.index < |r.queue|
    ensures var w' := AwaitStatus(w, k, r, h);
            k in w'.records && w'.records[k] == SentRecord(r, Some(h)) && HistoryOf(w', k) == HistoryOf(w, k)
    ensures var w' := ArmRetry(w, k, r, attempts);
            k in w'.records && w'.records[k] == RetryRecord(r, attempts) && HistoryOf(w', k) == HistoryOf(w, k)
    ensures var w' := ArmStall(w, k, Current(r)); w'.records == w.records && HistoryOf(w', k) == HistoryOf(w, k)
    ensures SentRecord(r, Some(h)).state == RetryRecord(r, attempts).state == r.state
  {
  }

  lemma AdvanceIs(cfg: Config, w: World, k: Key, r: Record, ending: Ending)
    requires r.index < |r.queue|
    ensures var w' := Advance(cfg, w, k, r, ending);
            && w'.records == w.records[k := AdvanceRecord(r)] && HistoryOf(w', k) == Log(HistoryOf(w, k), Ended(r.index, ending))
    ensures AdvanceRecord(r).handle == None && AdvanceRecord(r).state == r.state
  {
  }

  lemma NothingToForget(cfg: Config, k: Key, r: Record, h: History)
    requires Queued(cfg, k, r, h) && r.handle == None && r.index < |r.queue|
    ensures WithCurrent(r, Current(r).(messageHandle := None)).(handle := None) == r
  {
  }

  // --- inbound messages and the buffer -----------------------------------

  // The account reads only this of a record and its history.
  lemma ToldReads(cfg: Config, k: Key, r: Record, h: History, r': Record, h': History)
    requires Told(cfg, k, r, h) && r'.delivered == r.delivered && r'.cancelled == r.cancelled
    requires h'.past == h.past && h'.turn.reply == h.turn.reply && h'.turn.log == h.turn.log
    requires h.turn.accepted != [] || h'.turn.accepted != [] ==> h'.turn.accepted != []
    ensures Told(cfg, k, r', h')
  {
    hide Contents, DeliveredBefore, CancelledBefore, MayFollow;
    forall i: nat | i < |h'.turn.log| ensures MayFollow(cfg, k, h'.turn.reply, Before(h'.turn.log, i), h'.turn.log[i]) {
      assert Before(h'.turn.log, i) == Before(h.turn.log, i);
    }
  }

  lemma ChannelTells(cfg: Config, k: Key, r: Record, h: History, channel: Channel, downgraded: bool)
    requires Account(cfg, k, r, h)
    ensures Account(cfg, k, ApplyChannel(r, channel, downgraded), h)
  {
    hide Told, QueueSays, Contents, MayFollow, Notes, ClassifyError;
    var r' := ApplyChannel(r, channel, downgraded);
    ToldReads(cfg, k, r, h, r', h);
    if r.state == Sending { ItemsRead(r, r', h.turn.log); }
  }

  lemma ItemsRead(r: Record, r': Record, log: seq<Outbound>)
    requires ItemsOk(r, log) && r'.queue == r.queue && r'.index == r.index && r'.handle == r.handle
    ensures ItemsOk(r', log)
  {
    hide Notes;
  }

  lemma NothingTold(cfg: Config, k: Key, r: Record)
    requires r == IdleRecord(r.channel).(smsDowngraded := r.smsDowngraded)
    ensures Account(cfg, k, r, NoHistory())
  {
  }

  // The turn before the one that begins.
  lemma BeginFollows(h: History, m: Inbound)
    requires h.turn.accepted == [] ==> h.past == []
    ensures var h' := Begin(h, m);
            && h'.turn.reply == [] && h'.turn.log == [] && h'.turn.accepted == [m]
            && (if h.turn.accepted == [] then h'.past == []
                else h'.past != [] && Last(h'.past) == h.turn && h'.past[..|h'.past| - 1] == h.past)
  {
  }

  // A conversation that was idle forgets what it delivered.
  lemma OpeningTells(cfg: Config, k: Key, r: Record, h: History, m: Inbound)
    requires Told(cfg, k, r, h)
    ensures Told(cfg, k, OpenBuffer(r, m).(delivered := [], cancelled := [], reprocessCount := 0), Begin(h, m))
  {
    hide LogOk, Begin, WasInterrupted, Contents, Cancellations;
    var h' := Begin(h, m);
    BeginFollows(h, m);
    NewTurn(cfg, k, h');
    NothingYet(cfg, []);
    if h'.past != [] {
      assert forall i :: 0 <= i < |h'.past| - 1 ==> h'.past[i] == h.past[i];
      UninterruptedCancelsNothing(cfg, h.turn);
    }
  }

  lemma UninterruptedCancelsNothing(cfg: Config, t: Turn)
    requires !WasInterrupted(t)
    ensures Cancellations(cfg, t.reply, t.log) == []
  {
    NothingCancelled(cfg, t.reply, t.log);
  }

  lemma NothingYet(cfg: Config, reply: seq<QueuedAction>)
    ensures Contents(reply, []) == [] && Cancellations(cfg, reply, []) == []
  {
  }

  lemma NewTurn(cfg: Config, k: Key, h: History)
    requires h.turn.log == []
    ensures LogOk(cfg, k, h.turn) && !WasInterrupted(h.turn)
  {
  }

  // The rest of the queue ends.
  lemma {:induction false} RestTells(cfg: Config, k: Key, h: History, from: nat, ending: Ending)
    requires LogOk(cfg, k, h.turn) && ending in {Aborted, Cancelled} && from <= |h.turn.reply|
    requires from < |h.turn.reply| ==> MayFollow(cfg, k, h.turn.reply, Before(h.turn.log, |h.turn.log|), Ended(from, ending))
    ensures var h' := EndRest(h, from, ending);
            && LogOk(cfg, k, h'.turn) && h' == h.(turn := h.turn.(log := h'.turn.log))
            && Contents(h'.turn.reply, h'.turn.log) == Contents(h.turn.reply, h.turn.log)
            && |h'.turn.log| == |h.turn.log| + (|h.turn.reply| - from) && h.turn.log <= h'.turn.log
            && (forall i :: |h.turn.log| <= i < |h'.turn.log| ==> h'.turn.log[i].Ended? && h'.turn.log[i].ending == ending)
            && Cancellations(cfg, h.turn.reply, h'.turn.log) ==
               Cancellations(cfg, h.turn.reply, h.turn.log) + (if ending == Cancelled then Rest(cfg, h.turn.reply, from) else [])
    decreases |h.turn.reply| - from
  {
    hide MayFollow, Contents, Cancellations, Summary;
    var a := h.turn.reply;
    if from < |a| {
      var e := Ended(from, ending);
      LogNext(cfg, k, h.turn, e);
      LogDelivers(cfg, a, h.turn.log, e);
      EndsGoOn(cfg, k, a, h.turn.log, from, ending);
      RestTells(cfg, k, Log(h, e), from + 1, ending);
      assert Contents(a, h.turn.log) + [] == Contents(a, h.turn.log);
      assert Cancellation(cfg, a, e) + Rest(cfg, a, from + 1) == Rest(cfg, a, from) || ending == Aborted;
      assert Log(h, e).turn.log[|h.turn.log|] == e;
    } else {
      assert Cancellations(cfg, a, h.turn.log) + [] == Cancellations(cfg, a, h.turn.log);
      assert Rest(cfg, a, from) == [];
    }
  }

  // The summaries of the reply's actions from a position on.
  function Rest(cfg: Config, reply: seq<QueuedAction>, from: nat): seq<string>
    requires from <= |reply|
  {
    seq(|reply| - from, i requires 0 <= i < |reply| - from => Truncate(Summary(reply[from + i]), cfg.cancelledMaxLength))
  }

  lemma EndsGoOn(cfg: Config, k: Key, reply: seq<QueuedAction>, log: seq<Outbound>, from: nat, ending: Ending)
    requires ending in {Aborted, Cancelled}
    ensures from + 1 < |reply| ==>
              var all := log + [Ended(from, ending)];
              MayFollow(cfg, k, reply, Before(all, |all|), Ended(from + 1, ending))
  {
  }

  // An interruption carries on what was delivered, and what it cancels.
  lemma InterruptTells(cfg: Config, k: Key, r: Record, h: History, m: Inbound)
    requires Queued(cfg, k, r, h) && Pending(cfg, r, h.turn.log) && h.turn.accepted != []
    ensures Told(cfg, k, OpenBuffer(r, m).(cancelled := CancelledSummaries(cfg, r)), Begin(EndRest(h, r.index, Cancelled), m))
  {
    hide LogOk, Begin, WasInterrupted, Contents, Cancellations, ItemsOk, Waited, Repeatable, EndRest, CancelledSummaries;
    var ended := EndRest(h, r.index, Cancelled);
    InterruptFollows(cfg, k, r, h);
    RestTells(cfg, k, h, r.index, Cancelled);
    BeginFollows(ended, m);
    var h' := Begin(ended, m);
    NewTurn(cfg, k, h');
    NothingYet(cfg, []);
    RestIsInterrupted(ended.turn, |h.turn.log|);
    UninterruptedCancelsNothing(cfg, h.turn);
    SummariesAreTheRest(cfg, r, h.turn.reply);
    assert [] + Rest(cfg, h.turn.reply, r.index) == Rest(cfg, h.turn.reply, r.index);
    assert forall i :: 0 <= i < |h'.past| - 1 ==> h'.past[i] == h.past[i];
  }

  lemma InterruptFollows(cfg: Config, k: Key, r: Record, h: History)
    requires QueueSays(r.queue, h.turn.reply) && Pending(cfg, r, h.turn.log)
    ensures MayFollow(cfg, k, h.turn.reply, Before(h.turn.log, |h.turn.log|), Ended(r.index, Cancelled))
  {
    hide ClassifyError;
  }

  lemma RestIsInterrupted(t: Turn, at: nat)
    requires at < |t.log| && t.log[at].Ended? && t.log[at].ending == Cancelled
    ensures WasInterrupted(t)
  {
    assert Cancels(t.log[at]);
  }

  lemma SummariesAreTheRest(cfg: Config, r: Record, reply: seq<QueuedAction>)
    requires QueueSays(r.queue, reply) && r.index <= |r.queue|
    ensures CancelledSummaries(cfg, r) == Rest(cfg, reply, r.index)
  {
    hide Summary, Truncate;
    var rest := r.queue[r.index..];
    forall i | 0 <= i < |rest| ensures Summary(rest[i].action) == Summary(reply[r.index + i]) {
      SaysAlike(cfg, Direct("", ""), reply[r.index + i], rest[i].action.target, Threw(NetworkError));
    }
  }

  lemma AbortTells(cfg: Config, k: Key, r: Record, h: History)
    requires Queued(cfg, k, r, h) && Pending(cfg, r, h.turn.log) && r.handle.Some?
    ensures Account(cfg, k, ToIdleRecord(r), EndRest(h, r.index, Aborted))
  {
    hide LogOk, Contents, Cancellations, ItemsOk, EndRest, DeliveredBefore, CancelledBefore;
    AbortFollows(cfg, k, r, h);
    RestTells(cfg, k, h, r.index, Aborted);
    StillUninterrupted(h.turn, EndRest(h, r.index, Aborted).turn);
  }

  lemma AbortFollows(cfg: Config, k: Key, r: Record, h: History)
    requires QueueSays(r.queue, h.turn.reply) && Pending(cfg, r, h.turn.log) && r.handle.Some?
    ensures MayFollow(cfg, k, h.turn.reply, Before(h.turn.log, |h.turn.log|), Ended(r.index, Aborted))
  {
    hide ClassifyError;
  }

  lemma StillUninterrupted(t: Turn, t': Turn)
    requires !WasInterrupted(t) && t.log <= t'.log
    requires forall i :: |t.log| <= i < |t'.log| ==> t'.log[i].Ended? && t'.log[i].ending != Cancelled
    ensures !WasInterrupted(t')
  {
    forall i | 0 <= i < |t'.log| ensures !Cancels(t'.log[i]) { assert i < |t.log| ==> t'.log[i] == t.log[i]; }
  }

  // --- the handlers ------------------------------------------------------

  lemma ProcessAccounts(cfg: Config, w: World, k: Key)
    requires k in w.records && w.records[k].state == Buffering && k !in w.chats
    requires Told(cfg, k, w.records[k], HistoryOf(w, k))
    ensures AccountOk(cfg, ProcessBuffer(w, k), k)
  {
    hide Told;
    var r, h := w.records[k], HistoryOf(w, k);
    ToldReads(cfg, k, r, h, r.(state := Processing), Request(h, r.inboundBuffer));
    if r.inboundBuffer == [] { assert ProcessBuffer(w, k) == w; }
  }

  lemma ScheduleAccounts(cfg: Config, w: World, k: Key, delayMs: int)
    requires k in w.records && w.records[k].state == Buffering && k !in w.chats
    requires Told(cfg, k, w.records[k], HistoryOf(w, k))
    ensures AccountOk(cfg, Schedule(w, k, delayMs), k)
  {
    hide Told, ProcessBuffer;
    if delayMs <= 0 { ProcessAccounts(cfg, w.(buffer := w.buffer - {k}), k); }
  }

  lemma RebufferAccounts(cfg: Config, w: World, k: Key, r: Record, h: History, delayMs: int)
    requires r.state == Buffering && k !in w.chats && Told(cfg, k, r, h)
    ensures AccountOk(cfg, Schedule(Remember(Persist(w, k, r), k, h), k, delayMs), k)
  {
    hide Told, Schedule;
    ScheduleAccounts(cfg, Remember(Persist(w, k, r), k, h), k, delayMs);
  }

  lemma AcceptAccounts(cfg: Config, w: World, k: Key, r: Record, m: Inbound, delayMs: int)
    requires Account(cfg, k, r, HistoryOf(w, k)) && (r.state != Idle ==> HistoryOf(w, k).turn.accepted != [])
    requires k in w.chats ==> r.state == Processing && Snapshot(w.chats[k], r)
    ensures AccountOk(cfg, AcceptInbound(cfg, w, k, r, m, delayMs), k)
  {
    hide Told, Schedule, EndRest, CancelledSummaries, ClearStall, ClearCurrent, QueueSays, ItemsOk, Pending;
    var h := HistoryOf(w, k);
    match r.state {
      case Idle =>
        OpeningTells(cfg, k, r, h, m);
        RebufferAccounts(cfg, w, k, OpenBuffer(r, m).(delivered := [], cancelled := [], reprocessCount := 0), Begin(h, m), delayMs);
      case Buffering =>
        ToldReads(cfg, k, r, h, BufferMore(r, m), Accept(h, m));
        RebufferAccounts(cfg, w, k, BufferMore(r, m), Accept(h, m), delayMs);
      case Processing =>
        ToldReads(cfg, k, r, h, ArriveLate(r, m), Accept(h, m));
      case Sending =>
        InterruptTells(cfg, k, r, h, m);
        ClearingKeepsChats(cfg, w, k, r);
        RebufferAccounts(cfg, ClearCurrent(ClearStall(cfg, ClearRetry(w, k), k.line), r), k,
                         OpenBuffer(r, m).(cancelled := CancelledSummaries(cfg, r)), Begin(EndRest(h, r.index, Cancelled), m), delayMs);
    }
  }

  lemma ClearingKeepsChats(cfg: Config, w: World, k: Key, r: Record)
    ensures ClearCurrent(ClearStall(cfg, ClearRetry(w, k), k.line), r).chats == w.chats
  {
  }

  // What the invariant says of a conversation's chat call and messages.
  lemma CallFacts(cfg: Config, w: World, k: Key)
    requires Inv(cfg, w)
    ensures k in w.chats ==> k in w.records && w.records[k].state == Processing
    ensures k !in w.records ==> HistoryOf(w, k) == NoHistory()
    ensures k in w.records && w.records[k].state != Idle ==> HistoryOf(w, k).turn.accepted != []
  {
    hide Inv, TurnOk;
    if k in w.records {
      Own(cfg, w, k);
      ConversationFacts(cfg, w, k);
      if w.records[k].state != Idle { MessagesAtHand(cfg, w.records[k], HistoryOf(w, k)); }
    } else {
      NothingUnknown(cfg, w, k);
    }
  }

  lemma MessagesAtHand(cfg: Config, r: Record, h: History)
    requires TurnOk(cfg, r, h) && r.state != Idle
    ensures h.turn.accepted != []
  {
    hide QueueOk, AimsAt, Cursor, Growing;
  }

  lemma ReceiveAccounts(cfg: Config, w: World, k: Key, m: Inbound, channel: Channel, downgraded: bool, gate: Gate,
                        now: int, delayMs: int)
    requires Inv(cfg, w) && (k in w.records ==> AccountOk(cfg, w, k))
    requires !ClaimHolds(w, m.handle, now) || k in w.records
    ensures AccountOk(cfg, Receive(cfg, w, k, m, channel, downgraded, gate, now, delayMs), k)
  {
    hide Inv, AcceptInbound, PassedOver, Account;
    CallFacts(cfg, w, k);
    if !ClaimHolds(w, m.handle, now) {
      var w1 := Claim(cfg, w, m.handle, now);
      var r := KnownOrIdle(w, k);
      if k !in w.records { NothingTold(cfg, k, r); }
      ChannelTells(cfg, k, r, HistoryOf(w, k), channel, downgraded);
      if gate == Accepted {
        AcceptAccounts(cfg, w1, k, ApplyChannel(r, channel, downgraded), m, delayMs);
      } else {
        PassOverAccounts(cfg, w1, k, channel, downgraded, gate);
      }
    }
  }

  lemma PassOverAccounts(cfg: Config, w: World, k: Key, channel: Channel, downgraded: bool, gate: Gate)
    requires if k in w.records then AccountOk(cfg, w, k) else HistoryOf(w, k) == NoHistory() && k !in w.chats
    ensures AccountOk(cfg, Persist(w, k, PassedOver(w, k, channel, downgraded, gate)), k)
  {
    hide Account;
    if k in w.records {
      ChannelTells(cfg, k, w.records[k], HistoryOf(w, k), channel, downgraded);
    } else {
      NothingTold(cfg, k, PassedOver(w, k, channel, downgraded, gate));
    }
  }

  lemma BufferTimerAccounts(cfg: Config, w: World, k: Key)
    requires Inv(cfg, w) && k in w.buffer && AccountOk(cfg, w, k)
    ensures AccountOk(cfg, BufferTimer(w, k), k)
  {
    hide Inv, Told, ProcessBuffer, TurnOk, Queued, Pending;
    CallFacts(cfg, w, k);
    ReleaseBuffer(cfg, w, k);
    ProcessAccounts(cfg, w.(buffer := w.buffer - {k}), k);
  }

  // --- replies -----------------------------------------------------------

  lemma StartPoises(cfg: Config, w: World, k: Key, r: Record, actions: seq<QueuedAction>, now: int)
    requires Told(cfg, k, r, HistoryOf(w, k)) && HistoryOf(w, k).turn.log == []
    ensures var r' := StartSending(r, actions, now);
            Poised(cfg, Remember(Persist(w, k, r'), k, Answer(HistoryOf(w, k), now, actions)), k, r')
  {
    hide Contents, Cancellations, CancelledBefore, DeliveredBefore, LogOk;
    var r', h := StartSending(r, actions, now), HistoryOf(w, k);
    NothingYet(cfg, actions);
    NothingYet(cfg, h.turn.reply);
    NewTurn(cfg, k, Answer(h, now, actions));
    QueueIsBuilt(actions, Handles(r.inboundBuffer), now);
  }

  lemma QueueIsBuilt(actions: seq<QueuedAction>, handles: seq<Handle>, now: int)
    ensures QueueSays(BuildQueue(actions, handles, now), actions)
    ensures forall i :: 0 <= i < |actions| ==> Untouched(BuildQueue(actions, handles, now)[i])
  {
  }

  lemma TakeReplyAccounts(cfg: Config, w: World, k: Key, actions: seq<QueuedAction>, now: int, delayMs: int, results: Results)
    requires k in w.records && Told(cfg, k, w.records[k], HistoryOf(w, k)) && k !in w.chats
    requires HistoryOf(w, k).turn.log == []
    ensures var w' := TakeReply(cfg, w, k, actions, now, delayMs, results);
            AccountOk(cfg, w', k) || Accounted(cfg, w', k)
  {
    hide Told, SendFrom, ToIdle, Schedule, StartSending, Account, Poised, AccountOk, Accounted, HistoryOf, Persist, Remember, Reprocess;
    var r, h := w.records[k], HistoryOf(w, k);
    if r.lateArrivals != [] && r.reprocessCount < cfg.maxReprocessAttempts {
      ReprocessAccounts(cfg, w, k, delayMs);
    } else if actions == [] {
      SilenceAccounts(cfg, w, k);
    } else {
      StartPoises(cfg, w, k, r, actions, now);
      var r' := StartSending(r, actions, now);
      SendFromAccounts(cfg, Remember(Persist(w, k, r'), k, Answer(h, now, actions)), k, r', results);
    }
  }

  lemma ReprocessAccounts(cfg: Config, w: World, k: Key, delayMs: int)
    requires k in w.records && Told(cfg, k, w.records[k], HistoryOf(w, k)) && k !in w.chats
    ensures AccountOk(cfg, Schedule(Persist(w, k, Reprocess(w.records[k])), k, delayMs), k)
  {
    hide Told, Schedule, AccountOk;
    ToldReads(cfg, k, w.records[k], HistoryOf(w, k), Reprocess(w.records[k]), HistoryOf(w, k));
    ScheduleAccounts(cfg, Persist(w, k, Reprocess(w.records[k])), k, delayMs);
  }

  lemma SilenceAccounts(cfg: Config, w: World, k: Key)
    requires k in w.records && Told(cfg, k, w.records[k], HistoryOf(w, k)) && HistoryOf(w, k).turn.log == []
    ensures var h := HistoryOf(w, k);
            Accounted(cfg, ToIdle(cfg, Remember(w, k, Answer(h, h.stamp, [])), k, w.records[k]), k)
  {
    hide Told, ToIdle, Account;
    var r, h := w.records[k], HistoryOf(w, k);
    var h' := Answer(h, h.stamp, []);
    SilenceTells(cfg, k, r, h);
    IdleTells(cfg, k, r, h');
    GoesIdle(cfg, Remember(w, k, h'), k, r);
  }

  lemma SilenceTells(cfg: Config, k: Key, r: Record, h: History)
    requires Told(cfg, k, r, h) && h.turn.log == []
    ensures Told(cfg, k, r, Answer(h, h.stamp, []))
  {
    hide DeliveredBefore, CancelledBefore, LogOk;
    NewTurn(cfg, k, Answer(h, h.stamp, []));
    NothingYet(cfg, h.turn.reply);
    NothingYet(cfg, []);
  }

  lemma ChatReplyAccounts(cfg: Config, w: World, k: Key, reply: ChatResult, now: int, delayMs: int, results: Results)
    requires Inv(cfg, w) && k in w.chats && AccountOk(cfg, w, k)
    ensures var w' := ChatReply(cfg, w, k, reply, now, delayMs, results);
            AccountOk(cfg, w', k) || Accounted(cfg, w', k)
  {
    hide Inv, TakeReply, ToIdle, Told, Queued, Pending, Schedule, TurnOk;
    CallFacts(cfg, w, k);
    Own(cfg, w, k);
    ConversationFacts(cfg, w, k);
    NothingSentYet(cfg, w.records[k], HistoryOf(w, k));
    var w1, r, h := w.(chats := w.chats - {k}), w.records[k], HistoryOf(w, k);
    match reply {
      case Failed =>
        ToldReads(cfg, k, r, h, w.chats[k], Fail(h));
        IdleTells(cfg, k, w.chats[k], Fail(h));
        GoesIdle(cfg, Remember(w1, k, Fail(h)), k, w.chats[k]);
      case Replied(actions) =>
        TakeReplyAccounts(cfg, w1, k, actions, now, delayMs, results);
    }
  }

  lemma NothingSentYet(cfg: Config, r: Record, h: History)
    requires TurnOk(cfg, r, h) && r.state == Processing
    ensures h.turn.log == []
  {
  }

  // --- callbacks and timers ----------------------------------------------

  lemma AdvanceQueueAccounts(cfg: Config, w: World, k: Key, r: Record, h: Handle, ending: Ending, results: Results)
    requires k in w.records && r.state == Sending && Account(cfg, k, r, HistoryOf(w, k))
    requires r.handle == Some(h) && ending in {Confirmed, TimedOut}
    ensures Accounted(cfg, AdvanceQueue(cfg, w, k, r, h, ending, results), k)
  {
    hide Told, QueueSays, ItemsOk, MayAsk, SendFrom, Advance, AdvanceRecord;
    var w1 := ClearHandle(w, h);
    ConfirmedTells(cfg, k, r, HistoryOf(w, k), ending);
    AdvanceIs(cfg, w1, k, r, ending);
    SendFromAccounts(cfg, Advance(cfg, w1, k, r, ending), k, AdvanceRecord(r), results);
  }

  lemma AbortAccounts(cfg: Config, w: World, w1: World, k: Key, r: Record, r1: Record, h: Handle)
    requires Account(cfg, k, r, HistoryOf(w, k)) && r.state == Sending && r.handle.Some?
    requires w1.history == w.history && ToIdleRecord(r1) == ToIdleRecord(r) && r1.index == r.index
    ensures Accounted(cfg, AbortQueue(cfg, w1, k, r1, h), k)
  {
    hide Told, QueueSays, ItemsOk, ToIdle, EndRest, Pending;
    var ended := EndRest(HistoryOf(w, k), r.index, Aborted);
    AbortTells(cfg, k, r, HistoryOf(w, k));
    GoesIdle(cfg, Remember(ClearHandle(w1, h), k, ended), k, r1);
  }

  lemma FailedAccounts(cfg: Config, w: World, k: Key, r: Record, c: Callback)
    requires k in w.records && Account(cfg, k, r, HistoryOf(w, k)) && r.state == Sending && r.handle == Some(c.handle)
    ensures Accounted(cfg, FailedStatus(cfg, w, k, r, c), k)
  {
    hide Account, Accounted, AbortQueue, ArmRetry, ArmStall, ClassifyStatusErrorCode, CanStall, RefuseStall, HistoryOf, ClearHandle;
    var w1 := ClearHandle(w, c.handle);
    ClearIs(w, c.handle);
    AbortAccounts(cfg, w, w, k, r, r, c.handle);
    AbortAccounts(cfg, w, w1, k, r, r, c.handle);
    if r.index < |r.queue| {
      RearmAccounts(cfg, w, w1, k, r, Current(r).retryCount + 1);
      RestallAccounts(cfg, w, w1, k, r, c.handle);
    }
  }

  lemma ClearIs(w: World, h: Handle)
    ensures ClearHandle(w, h) == w.(delivery := ClearHandle(w, h).delivery, mapping := ClearHandle(w, h).mapping)
  {
  }

  lemma RearmAccounts(cfg: Config, w: World, w1: World, k: Key, r: Record, attempts: nat)
    requires Account(cfg, k, r, HistoryOf(w, k)) && r.state == Sending && r.handle.Some? && r.index < |r.queue|
    requires w1.history == w.history
    ensures Accounted(cfg, ArmRetry(w1, k, r, attempts), k)
  {
    hide Told, QueueSays, ItemsOk, ArmRetry, RetryRecord;
    RetryTells(cfg, k, r, HistoryOf(w, k), attempts, Last(HistoryOf(w, k).turn.log).answer);
    ArmedIs(w1, k, r, attempts, "");
  }

  // The line may be stalled for the item, or not any more.
  lemma RestallAccounts(cfg: Config, w: World, w1: World, k: Key, r: Record, h: Handle)
    requires Account(cfg, k, r, HistoryOf(w, k)) && r.state == Sending && r.handle.Some? && r.index < |r.queue|
    requires w1.history == w.history
    ensures var r1 := WithCurrent(r, Current(r).(messageHandle := None)).(handle := None);
            var w2 := Persist(w1, k, r1);
            && Accounted(cfg, ArmStall(w2, k, Current(r1)), k)
            && Accounted(cfg, AbortQueue(cfg, RefuseStall(cfg, w2, k.line), k, r1, h), k)
  {
    hide Told, QueueSays, ItemsOk, AbortQueue, ArmStall, RefuseStall, ToIdleRecord;
    var r1 := WithCurrent(r, Current(r).(messageHandle := None)).(handle := None);
    var w2 := Persist(w1, k, r1);
    StallTells(cfg, k, r, HistoryOf(w, k), Last(HistoryOf(w, k).turn.log).answer);
    ArmedIs(w2, k, r1, 0, "");
    RefuseChanges(cfg, w2, k);
    IdleAlike(r);
    AbortAccounts(cfg, w, RefuseStall(cfg, w2, k.line), k, r, r1, h);
  }

  lemma IdleAlike(r: Record)
    requires r.index < |r.queue|
    ensures ToIdleRecord(WithCurrent(r, Current(r).(messageHandle := None)).(handle := None)) == ToIdleRecord(r)
  {
  }

  lemma StatusAccounts(cfg: Config, w: World, c: Callback, results: Results)
    requires Inv(cfg, w) && c.handle in w.mapping && AccountOk(cfg, w, w.mapping[c.handle].key)
    ensures var w', k := StatusCallback(cfg, w, c, results), w.mapping[c.handle].key;
            AccountOk(cfg, w', k) || Accounted(cfg, w', k)
  {
    hide Inv, FailedStatus, AdvanceQueue, Account;
    var k := w.mapping[c.handle].key;
    MappingIsKnown(cfg, w, c.handle);
    var channel := ChannelFromStatus(c, w.records[k].channel);
    var r := ApplyChannel(w.records[k], channel, c.downgraded);
    ChannelTells(cfg, k, w.records[k], HistoryOf(w, k), channel, c.downgraded);
    if c.status == ERROR || c.status == DECLINED {
      FailedAccounts(cfg, w, k, r, c);
    } else if c.status == SuccessStatus(r) {
      AdvanceQueueAccounts(cfg, w, k, r, c.handle, Confirmed, results);
    }
  }

  lemma TimeoutAccounts(cfg: Config, w: World, h: Handle, results: Results)
    requires Inv(cfg, w) && h in w.delivery && AccountOk(cfg, w, w.delivery[h])
    ensures Accounted(cfg, DeliveryTimeout(cfg, w, h, results), w.delivery[h])
  {
    hide Inv, AdvanceQueue, Account;
    var k := w.delivery[h];
    Basics(cfg, w);
    assert DeliveryOk(w, h);
    MappingIsKnown(cfg, w, h);
    AdvanceQueueAccounts(cfg, w.(delivery := w.delivery - {h}), k, w.records[k], h, TimedOut, results);
  }

  // What waits for a retry or the line may be requested again.
  lemma AwaitingPoises(cfg: Config, w: World, w1: World, k: Key, e: Expected)
    requires AccountOk(cfg, w, k) && Awaits(w.records[k], e) && w1.records == w.records && w1.history == w.history
    ensures Poised(cfg, w1, k, w.records[k])
  {
    hide Told, QueueSays, ItemsOk;
  }

  lemma RetryAccounts(cfg: Config, w: World, k: Key, results: Results)
    requires Inv(cfg, w) && k in w.retry && AccountOk(cfg, w, k)
    ensures Accounted(cfg, RetryTimer(cfg, w, k, results), k)
  {
    hide Inv, SendFrom, Account, Poised;
    Own(cfg, w, k);
    AwaitingPoises(cfg, w, ClearRetry(w, k), k, w.retry[k]);
    SendFromAccounts(cfg, ClearRetry(w, k), k, w.records[k], results);
  }

  lemma StallAccounts(cfg: Config, w: World, l: Line, results: Results)
    requires Inv(cfg, w) && l in w.stalls && AccountOk(cfg, w, w.stalls[l].key)
    ensures Accounted(cfg, StallTimer(cfg, w, l, results), w.stalls[l].key)
  {
    hide Inv, SendFrom, Account, Poised;
    var k := w.stalls[l].key;
    Own(cfg, w, k);
    AwaitingPoises(cfg, w, w.(stalls := w.stalls - {l}), k, w.stalls[l].expected);
    SendFromAccounts(cfg, w.(stalls := w.stalls - {l}), k, w.records[k], results);
  }

  // --- every step, every run ---------------------------------------------

  ghost predicate AllAccounted(cfg: Config, w: World) {
    forall k {:trigger AccountOk(cfg, w, k)} :: k in w.records ==> AccountOk(cfg, w, k)
  }

  lemma ActorAccounts(cfg: Config, w: World, e: Event)
    requires Inv(cfg, w) && Allowed(w, e) && AllAccounted(cfg, w) && Actor(w, e).Some? && Step(cfg, w, e) != w
    ensures var k, w' := Actor(w, e).value, Step(cfg, w, e);
            AccountOk(cfg, w', k) || Accounted(cfg, w', k)
  {
    hide Inv, Receive, BufferTimer, ChatReply, StatusCallback, DeliveryTimeout, RetryTimer, StallTimer, Fresh, NoSilence, Account,
         AccountOk, Accounted;
    var k := Actor(w, e).value;
    ActorIsKnown(cfg, w, e);
    match e {
      case Receives(_, m, channel, downgraded, gate, now, delayMs) =>
        NewClaim(cfg, w, e);
        ReceiveAccounts(cfg, w, k, m, channel, downgraded, gate, now, delayMs);
      case BufferFires(_) => BufferTimerAccounts(cfg, w, k);
      case ChatReturns(_, reply, now, delayMs, results) => ChatReplyAccounts(cfg, w, k, reply, now, delayMs, results);
      case StatusArrives(c, results) => StatusAccounts(cfg, w, c, results);
      case TimeoutFires(h, results) => TimeoutAccounts(cfg, w, h, results);
      case RetryFires(_, results) => RetryAccounts(cfg, w, k, results);
      case StallFires(l, results) => StallAccounts(cfg, w, l, results);
    }
  }

  lemma NewClaim(cfg: Config, w: World, e: Event)
    requires e.Receives? && Step(cfg, w, e) != w
    ensures !ClaimHolds(w, e.message.handle, e.now)
  {
    hide AcceptInbound, PassedOver;
  }

  lemma ActorIsKnown(cfg: Config, w: World, e: Event)
    requires Inv(cfg, w) && Actor(w, e).Some?
    ensures !e.Receives? ==> Actor(w, e).value in w.records
  {
    hide ConversationOk;
    match e {
      case StatusArrives(c, _) => MappingIsKnown(cfg, w, c.handle);
      case TimeoutFires(h, _) => assert DeliveryOk(w, h); MappingIsKnown(cfg, w, h);
      case RetryFires(k, _) => RetryIsKnown(cfg, w, k);
      case StallFires(l, _) => StallIsKnown(cfg, w, l);
      case _ =>
    }
  }

  lemma StepAccounts(cfg: Config, w: World, e: Event)
    requires Inv(cfg, w) && Allowed(w, e) && AllAccounted(cfg, w)
    ensures AllAccounted(cfg, Step(cfg, w, e))
  {
    hide Inv, Step, Allowed, Account, AccountOk, Actor, AllAccounted;
    var w' := Step(cfg, w, e);
    StepWithin(cfg, w, e);
    if w' != w {
      var k := Actor(w, e).value;
      StepKeeps(cfg, w, e);
      ActorAccounts(cfg, w, e);
      if Accounted(cfg, w', k) { SettledAccounts(cfg, w', k); }
      OthersAccount(cfg, w, w', k);
    }
  }

  // A conversation that idles or sends has no chat call.
  lemma SettledAccounts(cfg: Config, w: World, k: Key)
    requires Inv(cfg, w) && Accounted(cfg, w, k)
    ensures AccountOk(cfg, w, k)
  {
    hide Inv, Account;
    CallFacts(cfg, w, k);
  }

  lemma OthersAccount(cfg: Config, w: World, w': World, k: Key)
    requires AllAccounted(cfg, w) && Within(w, w', k) && AccountOk(cfg, w', k)
    ensures AllAccounted(cfg, w')
  {
    hide Account;
    forall o | o in w'.records ensures AccountOk(cfg, w', o) {
      if o != k { assert SameConversation(w, w', o) && AccountOk(cfg, w, o); }
    }
  }

  lemma {:induction false} RunAccounts(cfg: Config, w: World, es: seq<Event>)
    requires Inv(cfg, w) && AllowedRun(cfg, w, es) && AllAccounted(cfg, w)
    ensures AllAccounted(cfg, Run(cfg, w, es))
    decreases |es|
  {
    hide Inv, Step, Allowed, AllAccounted;
    if es != [] {
      StepKeeps(cfg, w, es[0]);
      StepAccounts(cfg, w, es[0]);
      RunAccounts(cfg, Step(cfg, w, es[0]), es[1..]);
    }
  }

  // --- what holds of every run -------------------------------------------

  lemma AccountOfEveryRun(cfg: Config, es: seq<Event>, k: Key)
    requires AllowedRun(cfg, Empty, es) && k in Run(cfg, Empty, es).records
    ensures AccountOk(cfg, Run(cfg, Empty, es), k) && Inv(cfg, Run(cfg, Empty, es))
  {
    hide Inv, AccountOk;
    EmptyInv(cfg);
    RunKeeps(cfg, Empty, es);
    RunAccounts(cfg, Empty, es);
  }

  // In every turn of every run, over or under way, each entry of the log may
  // follow the one before it.
  lemma EndingsOfEveryRun(cfg: Config, es: seq<Event>, k: Key, t: Turn, i: nat)
    requires AllowedRun(cfg, Empty, es) && k in Run(cfg, Empty, es).records
    requires var h := HistoryOf(Run(cfg, Empty, es), k); t in h.past || t == h.turn
    requires i < |t.log|
    ensures MayFollow(cfg, k, t.reply, Before(t.log, i), t.log[i])
  {
    hide MayFollow, Inv;
    AccountOfEveryRun(cfg, es, k);
    assert LogOk(cfg, k, t);
  }

  // So a position is passed over without waiting for its message only if it is a
  // reaction or its request returned no handle; and one that is confirmed or
  // times out is neither.
  lemma UnconfirmedExactlyWhen(cfg: Config, es: seq<Event>, k: Key, t: Turn, i: nat)
    requires AllowedRun(cfg, Empty, es) && k in Run(cfg, Empty, es).records
    requires var h := HistoryOf(Run(cfg, Empty, es), k); t in h.past || t == h.turn
    requires i < |t.log| && t.log[i].Ended? && t.log[i].ending in {Confirmed, TimedOut, Unconfirmed}
    ensures i > 0 && t.log[i - 1].Sent? && t.log[i - 1].position == t.log[i].position < |t.reply|
    ensures t.log[i - 1].answer.Returned?
    ensures t.log[i].ending == Unconfirmed <==>
              (t.reply[t.log[i].position].kind == Reaction
               || t.log[i - 1].answer.handle.None? || t.log[i - 1].answer.handle.value == "")
  {
    EndingsOfEveryRun(cfg, es, k, t, i);
  }

  // In every state, the record lists as delivered exactly what the turns since
  // the conversation was last idle have delivered, in order, and as cancelled
  // exactly what the turn before was interrupted in.
  lemma DeliveredOfEveryRun(cfg: Config, es: seq<Event>, k: Key)
    requires AllowedRun(cfg, Empty, es) && k in Run(cfg, Empty, es).records
    ensures var w := Run(cfg, Empty, es);
            && w.records[k].delivered == AllDelivered(HistoryOf(w, k))
            && w.records[k].cancelled == CancelledBefore(cfg, HistoryOf(w, k).past)
  {
    hide Inv, AllDelivered, CancelledBefore, LogOk, Queued, Pending;
    AccountOfEveryRun(cfg, es, k);
  }

  // While a conversation sends, each item of its queue notes how its position
  // ended, or has the handle in flight, or is as it was queued.
  lemma ItemsOfEveryRun(cfg: Config, es: seq<Event>, k: Key)
    requires AllowedRun(cfg, Empty, es) && k in Run(cfg, Empty, es).records
    requires Run(cfg, Empty, es).records[k].state == Sending
    ensures var w := Run(cfg, Empty, es); ItemsOk(w.records[k], HistoryOf(w, k).turn.log)
  {
    hide Inv, ItemsOk, Told, QueueSays, Pending;
    AccountOfEveryRun(cfg, es, k);
  }

  // --- a new conversation's turn -----------------------------------------

  // A message accepted by an idle conversation, or an unknown one, opens a buffer
  // that holds it alone and remembers nothing of what was sent before; it is put
  // to the chat at once or when its timer fires.
  lemma OpeningForgets(cfg: Config, w: World, k: Key, m: Inbound, channel: Channel, downgraded: bool, now: int, delayMs: int)
    requires !ClaimHolds(w, m.handle, now) && (k in w.records ==> w.records[k].state == Idle)
    ensures var w' := Receive(cfg, w, k, m, channel, downgraded, Accepted, now, delayMs);
            && k in w'.records
            && var r := w'.records[k];
            && r.delivered == [] && r.cancelled == [] && r.inboundBuffer == [m] && r.lateArrivals == []
            && r.lastInboundHandles == [m.handle] && r.queue == [] && r.reprocessCount == 0
            && r.state == (if delayMs <= 0 then Processing else Buffering)
            && (k in w'.buffer <==> delayMs > 0)
            && (delayMs <= 0 ==> k in w'.chats && w'.chats[k] == r)
  {
    var w1 := Claim(cfg, w, m.handle, now);
    var r := ApplyChannel(KnownOrIdle(w1, k), channel, downgraded);
    OpenedIs(w1, k, OpenBuffer(r, m).(delivered := [], cancelled := [], reprocessCount := 0), Begin(HistoryOf(w1, k), m), delayMs);
  }

  lemma OpenedIs(w: World, k: Key, r: Record, h: History, delayMs: int)
    requires r.state == Buffering && r.inboundBuffer != []
    ensures var w' := Schedule(Remember(Persist(w, k, r), k, h), k, delayMs);
            && k in w'.records && w'.records[k] == r.(state := if delayMs <= 0 then Processing else Buffering)
            && (k in w'.buffer <==> delayMs > 0) && (delayMs <= 0 ==> k in w'.chats && w'.chats[k] == w'.records[k])
  {
    hide ProcessBuffer;
    var w1 := Remember(Persist(w, k, r), k, h);
    if delayMs <= 0 { ProcessIs(w1.(buffer := w1.buffer - {k}), k, r); }
  }

  lemma ProcessIs(w: World, k: Key, r: Record)
    requires k in w.records && w.records[k] == r && r.state == Buffering && r.inboundBuffer != []
    ensures var w', r' := ProcessBuffer(w, k), r.(state := Processing);
            w'.records == w.records[k := r'] && w'.chats == w.chats[k := r'] && w'.buffer == w.buffer
  {
  }

  // --- a chat call that fails --------------------------------------------

  predicate AnswersCall(e: Event, k: Key) {
    e.ChatReturns? && e.key == k
  }

  lemma CallIsKept(cfg: Config, w: World, e: Event, k: Key)
    requires Inv(cfg, w) && Allowed(w, e) && k in w.chats && !AnswersCall(e, k)
    ensures var w' := Step(cfg, w, e); k in w'.chats && w'.chats[k] == w.chats[k]
  {
    hide Inv, Step, Allowed, Stranded, LogGrows, NewHandles;
    StepWithin(cfg, w, e);
    CallFacts(cfg, w, k);
    if Actor(w, e) == Some(k) {
      OnlyMessagesMeanwhile(cfg, w, e, k);
      LateKeepsCall(cfg, w, e, k);
    } else if Actor(w, e).Some? {
      assert SameConversation(w, Step(cfg, w, e), k);
    }
  }

  lemma OnlyMessagesMeanwhile(cfg: Config, w: World, e: Event, k: Key)
    requires Inv(cfg, w) && k in w.records && w.records[k].state == Processing && Actor(w, e) == Some(k) && !AnswersCall(e, k)
    ensures e.Receives?
  {
    hide Inv, TurnOk, ConversationOk;
    Own(cfg, w, k);
    ConversationFacts(cfg, w, k);
  }

  lemma LateKeepsCall(cfg: Config, w: World, e: Event, k: Key)
    requires e.Receives? && e.key == k && k in w.records && w.records[k].state == Processing
    ensures Step(cfg, w, e).chats == w.chats
  {
    hide PassedOver, AcceptInbound;
    var w1 := Claim(cfg, w, e.message.handle, e.now);
    LateIs(cfg, w1, k, ApplyChannel(w.records[k], e.channel, e.downgraded), e.message, e.delayMs);
  }

  lemma LateIs(cfg: Config, w: World, k: Key, r: Record, m: Inbound, delayMs: int)
    requires r.state == Processing
    ensures AcceptInbound(cfg, w, k, r, m, delayMs).chats == w.chats
  {
    hide Schedule, Interrupt;
  }

  ghost predicate Unanswered(es: seq<Event>, k: Key) {
    forall i :: 0 <= i < |es| ==> !AnswersCall(es[i], k)
  }

  lemma {:induction false} CallStays(cfg: Config, w: World, es: seq<Event>, k: Key)
    requires Inv(cfg, w) && AllowedRun(cfg, w, es) && k in w.chats && Unanswered(es, k)
    ensures var w' := Run(cfg, w, es); k in w'.chats && w'.chats[k] == w.chats[k] && Inv(cfg, w')
    decreases |es|
  {
    hide Inv, Step, Allowed, AnswersCall;
    if es != [] {
      StepKeeps(cfg, w, es[0]);
      CallIsKept(cfg, w, es[0], k);
      CallStays(cfg, Step(cfg, w, es[0]), es[1..], k);
    }
  }

  // However long a chat call takes and whatever happens meanwhile: when it
  // fails, the conversation is idle, and all it remembers (its channel, the
  // handles of its last messages, what it delivered and cancelled) is what it
  // remembered when the request was made.
  lemma FailureForgetsTheCall(cfg: Config, w: World, es: seq<Event>, k: Key, now: int, delayMs: int, results: Results)
    requires Inv(cfg, w) && k in w.records && w.records[k].state == Buffering && k in w.buffer
    requires var asked := Step(cfg, w, BufferFires(k)); AllowedRun(cfg, asked, es) && Unanswered(es, k)
    ensures var w' := Step(cfg, Run(cfg, Step(cfg, w, BufferFires(k)), es), ChatReturns(k, Failed, now, delayMs, results));
            && k in w'.records && k !in w'.chats
            && var r, r' := w.records[k], w'.records[k];
               r' == IdleRecord(r.channel).(smsDowngraded := r.smsDowngraded, lastInboundHandles := r.lastInboundHandles,
                                            delivered := r.delivered, cancelled := r.cancelled)
  {
    hide Inv, ToIdle, TurnOk;
    var w1 := Step(cfg, w, BufferFires(k));
    StepKeeps(cfg, w, BufferFires(k));
    CallIsMade(cfg, w, k);
    CallStays(cfg, w1, es, k);
    var w2 := Run(cfg, w1, es);
    var w3 := w2.(chats := w2.chats - {k});
    GoesIdle(cfg, Remember(w3, k, Fail(HistoryOf(w3, k))), k, w2.chats[k]);
    IdleKeepsChats(cfg, Remember(w3, k, Fail(HistoryOf(w3, k))), k, w2.chats[k]);
  }

  lemma CallIsMade(cfg: Config, w: World, k: Key)
    requires Inv(cfg, w) && k in w.records && w.records[k].state == Buffering && k in w.buffer
    ensures var w' := BufferTimer(w, k);
            && k in w'.chats && w'.chats[k] == w.records[k].(state := Processing)
            && w.records[k].queue == [] && w.records[k].index == 0
  {
    hide Inv, ConversationOk;
    Own(cfg, w, k);
    ConversationFacts(cfg, w, k);
  }

  lemma IdleKeepsChats(cfg: Config, w: World, k: Key, r: Record)
    ensures ToIdle(cfg, w, k, r).chats == w.chats
  {
  }
}
