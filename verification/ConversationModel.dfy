// src/conversation/agent.ts as a transition system.  A World is everything the
// agent, its store and its schedulers remember between two steps; each handler
// is a function from one World to the next.  What the environment decides (the
// result of a send, a chat reply, the clock, a delay) is an argument.
module ConversationModel {
  import opened Wrappers
  import opened Text
  import opened StatusTracker
  import opened ErrorClass
  import opened ConversationTypes
  import opened History

  datatype Config = Config(
    maxReprocessAttempts: nat,
    cancelledMaxLength: nat,
    limitTracker: bool,              // a limit tracker is configured
    stallScheduler: bool,            // an SMS-limit stall scheduler is configured
    transientRetryMaxAttempts: nat,
    smsLimitMaxAttempts: nat,
    dedupeTtlMs: nat,
    canReact: bool,                  // the client implements sendReaction
    canSendGroup: bool)              // the client implements sendGroupMessage

  datatype Slot = Slot(key: Key, position: nat)
  datatype Expected = Expected(id: ItemId, retryCount: nat)
  datatype Stall = Stall(key: Key, expected: Expected)

  datatype World = World(
    records: map<Key, Record>,
    claims: map<Handle, int>,        // inbound handle -> expiry of its claim
    mapping: map<Handle, Slot>,      // outbound handle -> queue position
    buffer: set<Key>,                // armed buffer timers
    delivery: map<Handle, Key>,      // armed delivery timeouts
    retry: map<Key, Expected>,       // armed transient-retry timers
    stalls: map<Line, Stall>,        // armed SMS-limit stall timers
    stallCount: map<Line, nat>,      // persisted stall attempts
    chats: map<Key, Record>,         // pending chat calls, with the snapshot each one holds
    issued: set<Handle>,             // every handle Sendblue has returned
    history: map<Key, History>)

  const Empty := World(map[], map[], map[], {}, map[], map[], map[], map[], map[], {}, map[])

  // The results a step will meet, by queue position: no step sends one position twice.
  type Results = nat -> SendResult

  function HistoryOf(w: World, k: Key): History {
    if k in w.history then w.history[k] else NoHistory()
  }

  function Remember(w: World, k: Key, h: History): World {
    w.(history := w.history[k := h])
  }

  function Persist(w: World, k: Key, r: Record): World {
    w.(records := w.records[k := r])
  }

  // --- timers and tables -------------------------------------------------

  function ClearHandle(w: World, h: Handle): World {
    w.(delivery := w.delivery - {h}, mapping := w.mapping - {h})
  }

  function ClearCurrent(w: World, r: Record): World {
    if r.handle.Some? then ClearHandle(w, r.handle.value) else w
  }

  function ClearRetry(w: World, k: Key): World {
    w.(retry := w.retry - {k})
  }

  function ClearStall(cfg: Config, w: World, line: Line): World {
    w.(stallCount := if cfg.limitTracker then w.stallCount - {line} else w.stallCount,
       stalls := if cfg.stallScheduler then w.stalls - {line} else w.stalls)
  }

  // --- buffering ---------------------------------------------------------

  // The buffer timer fires: the whole buffer becomes one chat request.
  function ProcessBuffer(w: World, k: Key): World {
    if k !in w.records || w.records[k].state != Buffering || w.records[k].inboundBuffer == [] then w
    else
      var r := w.records[k].(state := Processing);
      var w1 := Persist(w, k, r);
      Remember(w1.(chats := w1.chats[k := r]), k, Request(HistoryOf(w1, k), r.inboundBuffer))
  }

  // One debounced timer per key; a delay of zero fires at once.
  function Schedule(w: World, k: Key, delayMs: int): World {
    if delayMs <= 0 then ProcessBuffer(w.(buffer := w.buffer - {k}), k)
    else w.(buffer := w.buffer + {k})
  }

  // --- going idle --------------------------------------------------------

  function ToIdleRecord(r: Record): Record {
    r.(state := Idle, inboundBuffer := [], lateArrivals := [], queue := [], index := 0, handle := None,
       reprocessCount := 0)
  }

  function ToIdle(cfg: Config, w: World, k: Key, r: Record): World {
    Persist(ClearCurrent(ClearStall(cfg, ClearRetry(w, k), k.line), r), k, ToIdleRecord(r))
  }

  function AbortQueue(cfg: Config, w: World, k: Key, r: Record, h: Handle): World {
    var w1 := Remember(ClearHandle(w, h), k, EndRest(HistoryOf(w, k), r.index, Aborted));
    ToIdle(cfg, w1, k, r)
  }

  // --- sending -----------------------------------------------------------

  predicate Falsy(s: Option<string>) {
    s.None? || s.value == ""
  }

  // The inbound message a reaction is aimed at.  Alias and content targets are
  // looked up in the inbound buffer, which is empty while a queue is sent.
  function ResolveInboundTarget(r: Record, a: QueuedAction): Option<Handle> {
    var requested := if a.target.Some? then a.target else a.replyTo;
    var last := if r.lastInboundHandles == [] then None else Some(r.lastInboundHandles[|r.lastInboundHandles| - 1]);
    if Falsy(requested) then last
    else if requested.value in r.lastInboundHandles then requested
    else if "alias:" <= requested.value || "content:" <= requested.value then None
    else if "handle:" <= requested.value && Trim(requested.value[7..]) in r.lastInboundHandles then
      Some(Trim(requested.value[7..]))
    else last
  }

  // The action is skipped before any request is made.
  predicate Unsendable(cfg: Config, k: Key, r: Record, a: QueuedAction) {
    match a.kind
    case Silence => true
    case Reaction => !cfg.canReact || !SupportsRichActions(r) || Falsy(ResolveInboundTarget(r, a))
    case Media => Falsy(a.mediaUrl) || (k.Group? && !cfg.canSendGroup)
    case _ =>
      || ((a.content.None? || Blank(a.content.value)) && Falsy(a.mediaUrl))
      || (k.Group? && !cfg.canSendGroup)
  }

  datatype Verdict =
    | InFlight(handle: Handle)   // wait for a status callback
    | Fired                      // no handle to wait for: advance
    | Retry(attempts: nat)
    | TryStall
    | GiveUp                     // skip the action

  function Judge(cfg: Config, item: Item, result: SendResult): Verdict {
    match result
    case Returned(h) =>
      if item.action.kind == Reaction || Falsy(h) then Fired else InFlight(h.value)
    case Threw(error) =>
      if !cfg.limitTracker then GiveUp else Route(cfg, item, ClassifyError(error))
  }

  function Route(cfg: Config, item: Item, c: Classification): Verdict {
    match c
    case Permanent => GiveUp
    case SmsLimited => TryStall
    case Transient =>
      if item.retryCount + 1 > cfg.transientRetryMaxAttempts then GiveUp else Retry(item.retryCount + 1)
  }

  function StallAttempts(w: World, line: Line): nat {
    if line in w.stallCount then w.stallCount[line] else 0
  }

  predicate StallExhausted(cfg: Config, w: World, line: Line) {
    StallAttempts(w, line) + 1 > cfg.smsLimitMaxAttempts
  }

  predicate CanStall(cfg: Config, w: World, line: Line) {
    cfg.stallScheduler && !StallExhausted(cfg, w, line)
  }

  // Arm the line's stall timer, replacing whatever it held.
  function ArmStall(w: World, k: Key, item: Item): World {
    w.(stallCount := w.stallCount[k.line := StallAttempts(w, k.line) + 1],
       stalls := w.stalls[k.line := Stall(k, Expected(item.id, item.retryCount))])
  }

  // A stall that cannot be armed; an exhausted budget also clears the counter.
  function RefuseStall(cfg: Config, w: World, line: Line): World {
    if cfg.stallScheduler then w.(stallCount := w.stallCount - {line}) else w
  }

  function Current(r: Record): Item
    requires r.index < |r.queue|
  {
    r.queue[r.index]
  }

  function WithCurrent(r: Record, item: Item): Record
    requires r.index < |r.queue|
  {
    r.(queue := r.queue[r.index := item])
  }

  function RetryRecord(r: Record, attempts: nat): Record
    requires r.index < |r.queue|
  {
    WithCurrent(r, Current(r).(retryCount := attempts, messageHandle := None)).(handle := None)
  }

  function ArmRetry(w: World, k: Key, r: Record, attempts: nat): World
    requires r.index < |r.queue|
  {
    var w1 := Persist(w, k, RetryRecord(r, attempts));
    w1.(retry := w1.retry[k := Expected(Current(r).id, attempts)])
  }

  function SentRecord(r: Record, h: Option<Handle>): Record
    requires r.index < |r.queue|
  {
    WithCurrent(r, Current(r).(messageHandle := h)).(handle := h)
  }

  function AwaitStatus(w: World, k: Key, r: Record, h: Handle): World
    requires r.index < |r.queue|
  {
    var w1 := Persist(w, k, SentRecord(r, Some(h)));
    w1.(mapping := w1.mapping[h := Slot(k, r.index)], delivery := w1.delivery[h := k], issued := w1.issued + {h})
  }

  function SkipRecord(r: Record): Record
    requires r.index < |r.queue|
  {
    WithCurrent(r, Current(r).(skipped := true)).(index := r.index + 1, handle := None)
  }

  function Skip(w: World, k: Key, r: Record): World
    requires r.index < |r.queue|
  {
    Remember(Persist(w, k, SkipRecord(r)), k, Log(HistoryOf(w, k), Ended(r.index, Skipped)))
  }

  function AdvanceRecord(r: Record): Record {
    r.(delivered :=
         if r.index < |r.queue| && !Falsy(Current(r).action.content) then r.delivered + [Current(r).action.content.value]
         else r.delivered,
       index := r.index + 1, handle := None)
  }

  function Advance(cfg: Config, w: World, k: Key, r: Record, ending: Ending): World {
    var h := HistoryOf(w, k);
    var w1 := Remember(ClearStall(cfg, w, k.line), k, if r.index < |r.queue| then Log(h, Ended(r.index, ending)) else h);
    Persist(w1, k, AdvanceRecord(r))
  }

  // The request made for the current item, and what it was answered.
  function Attempt(r: Record, answer: SendResult): Outbound
    requires r.index < |r.queue|
  {
    var a := Current(r).action;
    Sent(r.index, if a.kind == Reaction then ResolveInboundTarget(r, a) else None, answer)
  }

  function Attempted(w: World, k: Key, r: Record, answer: SendResult): World
    requires r.index < |r.queue|
  {
    Remember(w, k, Log(HistoryOf(w, k), Attempt(r, answer)))
  }

  // Send from the current position on, until a request leaves something to wait
  // for or the queue is exhausted.
  function SendFrom(cfg: Config, w: World, k: Key, r: Record, results: Results): World
    decreases |r.queue| - r.index, 1
  {
    if r.index >= |r.queue| then ToIdle(cfg, w, k, r)
    else if Unsendable(cfg, k, r, Current(r).action) then
      SendFrom(cfg, Skip(w, k, r), k, SkipRecord(r), results)
    else
      AfterAttempt(cfg, Attempted(w, k, r, results(r.index)), k, r, results)
  }

  // What follows a request for the current item.
  function AfterAttempt(cfg: Config, w: World, k: Key, r: Record, results: Results): World
    requires r.index < |r.queue|
    decreases |r.queue| - r.index, 0
  {
    match Judge(cfg, Current(r), results(r.index))
    case InFlight(h) => AwaitStatus(w, k, r, h)
    case Fired =>
      var sent := SentRecord(r, None);
      SendFrom(cfg, Advance(cfg, w, k, sent, Unconfirmed), k, AdvanceRecord(sent), results)
    case Retry(attempts) => ArmRetry(w, k, r, attempts)
    case TryStall =>
      if CanStall(cfg, w, k.line) then ArmStall(w, k, Current(r))
      else SendFrom(cfg, Skip(RefuseStall(cfg, w, k.line), k, r), k, SkipRecord(r), results)
    case GiveUp => SendFrom(cfg, Skip(w, k, r), k, SkipRecord(r), results)
  }

  function AdvanceQueue(cfg: Config, w: World, k: Key, r: Record, h: Handle, ending: Ending, results: Results): World
  {
    SendFrom(cfg, Advance(cfg, ClearHandle(w, h), k, r, ending), k, AdvanceRecord(r), results)
  }

  // --- inbound messages --------------------------------------------------

  // The outcome of the group-invocation and authorisation checks.
  datatype Gate = Accepted | NotInvoked | Unauthorized

  predicate ClaimHolds(w: World, h: Handle, now: int) {
    h in w.claims && w.claims[h] > now
  }

  function Summary(a: QueuedAction): string {
    if !Falsy(a.content) then a.content.value
    else if !Falsy(a.mediaUrl) then "media:" + a.mediaUrl.value
    else if !Falsy(a.reaction) then "reaction:" + a.reaction.value
    else match a.kind case Message => "message" case Media => "media" case Reply => "reply" case Reaction => "reaction" case Silence => "silence"
  }

  function Truncate(s: string, maxLength: nat): string {
    if |s| <= maxLength then s else s[..maxLength] + "..."
  }

  function CancelledSummaries(cfg: Config, r: Record): seq<string> {
    if r.index > |r.queue| then []
    else
      var rest := r.queue[r.index..];
      seq(|rest|, i requires 0 <= i < |rest| => Truncate(Summary(rest[i].action), cfg.cancelledMaxLength))
  }

  function OpenBuffer(r: Record, message: Inbound): Record {
    r.(state := Buffering, inboundBuffer := [message], lateArrivals := [], lastInboundHandles := [message.handle],
       queue := [], index := 0, handle := None)
  }

  function BufferMore(r: Record, message: Inbound): Record {
    r.(inboundBuffer := r.inboundBuffer + [message], lastInboundHandles := r.lastInboundHandles + [message.handle])
  }

  function ArriveLate(r: Record, message: Inbound): Record {
    r.(lateArrivals := r.lateArrivals + [message], lastInboundHandles := r.lastInboundHandles + [message.handle])
  }

  function Interrupt(cfg: Config, w: World, k: Key, r: Record, message: Inbound, delayMs: int): World {
    var w1 := ClearCurrent(ClearStall(cfg, ClearRetry(w, k), k.line), r);
    var h := Begin(EndRest(HistoryOf(w, k), r.index, Cancelled), message);
    var r1 := OpenBuffer(r, message).(cancelled := CancelledSummaries(cfg, r));
    Schedule(Remember(Persist(w1, k, r1), k, h), k, delayMs)
  }

  function AcceptInbound(cfg: Config, w: World, k: Key, r: Record, message: Inbound, delayMs: int): World {
    var h := HistoryOf(w, k);
    match r.state
    case Idle =>
      var r1 := OpenBuffer(r, message).(delivered := [], cancelled := [], reprocessCount := 0);
      Schedule(Remember(Persist(w, k, r1), k, Begin(h, message)), k, delayMs)
    case Buffering =>
      Schedule(Remember(Persist(w, k, BufferMore(r, message)), k, Accept(h, message)), k, delayMs)
    case Processing =>
      Remember(Persist(w, k, ArriveLate(r, message)), k, Accept(h, message))
    case Sending => Interrupt(cfg, w, k, r, message, delayMs)
  }

  // A message the agent stays silent on leaves at most its channel behind.
  function PassedOver(w: World, k: Key, channel: Channel, downgraded: bool, gate: Gate): Record {
    if gate == NotInvoked then
      ApplyChannel(if k in w.records then w.records[k] else IdleRecord(channel), channel, downgraded)
    else if k !in w.records then IdleRecord(channel)
    else if k.Group? then ApplyChannel(w.records[k], channel, downgraded)
    else w.records[k]
  }

  function KnownOrIdle(w: World, k: Key): Record {
    if k in w.records then w.records[k] else IdleRecord(UnknownChannel)
  }

  function Claim(cfg: Config, w: World, h: Handle, now: int): World {
    w.(claims := w.claims[h := now + cfg.dedupeTtlMs])
  }

  function Receive(cfg: Config, w: World, k: Key, message: Inbound, channel: Channel, downgraded: bool, gate: Gate,
                   now: int, delayMs: int): World {
    if ClaimHolds(w, message.handle, now) then w
    else
      var w1 := Claim(cfg, w, message.handle, now);
      if gate == Accepted then
        AcceptInbound(cfg, w1, k, ApplyChannel(KnownOrIdle(w1, k), channel, downgraded), message, delayMs)
      else Persist(w1, k, PassedOver(w1, k, channel, downgraded, gate))
  }

  // --- chat replies ------------------------------------------------------

  datatype ChatResult = Failed | Replied(actions: seq<QueuedAction>)

  // A reaction is pinned to a message of the batch the reply answers.
  function PinTarget(a: QueuedAction, handles: seq<Handle>): QueuedAction {
    if a.kind != Reaction then a
    else if !Falsy(a.target) && a.target.value in handles then a
    else if handles == [] then a
    else a.(target := Some(handles[|handles| - 1]))
  }

  function BuildQueue(actions: seq<QueuedAction>, handles: seq<Handle>, stamp: int): seq<Item> {
    seq(|actions|, i requires 0 <= i < |actions| =>
      Item(ItemId(stamp, i), PinTarget(actions[i], handles), None, 0, false))
  }

  function Reprocess(r: Record): Record {
    r.(state := Buffering, inboundBuffer := r.inboundBuffer + r.lateArrivals, lateArrivals := [],
       reprocessCount := r.reprocessCount + 1)
  }

  function StartSending(r: Record, actions: seq<QueuedAction>, now: int): Record {
    var handles := Handles(r.inboundBuffer);
    r.(state := Sending, lastInboundHandles := handles, queue := BuildQueue(actions, handles, now),
       inboundBuffer := [], lateArrivals := [], index := 0, handle := None, reprocessCount := 0)
  }

  // The reply is acted on, unless messages came in meanwhile and may still be
  // put to the chat.
  function TakeReply(cfg: Config, w: World, k: Key, actions: seq<QueuedAction>, now: int, delayMs: int, results: Results): World
    requires k in w.records
  {
    var latest := w.records[k];
    var h := HistoryOf(w, k);
    if latest.lateArrivals != [] && latest.reprocessCount < cfg.maxReprocessAttempts then
      Schedule(Persist(w, k, Reprocess(latest)), k, delayMs)
    else if actions == [] then
      ToIdle(cfg, Remember(w, k, Answer(h, h.stamp, [])), k, latest)
    else
      var r := StartSending(latest, actions, now);
      SendFrom(cfg, Remember(Persist(w, k, r), k, Answer(h, now, actions)), k, r, results)
  }

  function ChatReply(cfg: Config, w: World, k: Key, reply: ChatResult, now: int, delayMs: int, results: Results): World {
    if k !in w.chats then w
    else
      var w1 := w.(chats := w.chats - {k});
      match reply
      // The failed call idles the snapshot it began with.
      case Failed => ToIdle(cfg, Remember(w1, k, Fail(HistoryOf(w1, k))), k, w.chats[k])
      case Replied(actions) =>
        if k !in w1.records then w1 else TakeReply(cfg, w1, k, actions, now, delayMs, results)
  }

  // --- status callbacks and timers ---------------------------------------

  datatype Callback = Callback(
    handle: Handle, status: Status, service: Channel, downgraded: bool, errorCode: Option<string>)

  function ChannelFromStatus(c: Callback, fallback: Channel): Channel {
    if c.downgraded then Sms
    else if c.service == UnknownChannel then fallback
    else c.service
  }

  // An ERROR or DECLINED callback for the current item.
  function FailedStatus(cfg: Config, w: World, k: Key, r: Record, c: Callback): World {
    var category := ClassifyStatusErrorCode(c.errorCode);
    if !cfg.limitTracker || category == Permanent || r.index >= |r.queue| then AbortQueue(cfg, w, k, r, c.handle)
    else
      var w1 := ClearHandle(w, c.handle);
      match Route(cfg, Current(r), category)
      case Retry(attempts) => ArmRetry(w1, k, r, attempts)
      case TryStall =>
        var r1 := WithCurrent(r, Current(r).(messageHandle := None)).(handle := None);
        var w2 := Persist(w1, k, r1);
        if CanStall(cfg, w2, k.line) then ArmStall(w2, k, Current(r1))
        else AbortQueue(cfg, RefuseStall(cfg, w2, k.line), k, r1, c.handle)
      case _ => AbortQueue(cfg, w1, k, r, c.handle)
  }

  function StatusCallback(cfg: Config, w: World, c: Callback, results: Results): World {
    if c.handle !in w.mapping then w
    else
      var k := w.mapping[c.handle].key;
      if k !in w.records || w.records[k].state != Sending then w
      else
        var r := ApplyChannel(w.records[k], ChannelFromStatus(c, w.records[k].channel), c.downgraded);
        if c.status == ERROR || c.status == DECLINED then FailedStatus(cfg, w, k, r, c)
        else if c.status == SuccessStatus(r) then AdvanceQueue(cfg, w, k, r, c.handle, Confirmed, results)
        else Persist(w, k, r)
  }

  function BufferTimer(w: World, k: Key): World {
    if k !in w.buffer then w else ProcessBuffer(w.(buffer := w.buffer - {k}), k)
  }

  function DeliveryTimeout(cfg: Config, w: World, h: Handle, results: Results): World {
    if h !in w.delivery then w
    else
      var k := w.delivery[h];
      var w1 := w.(delivery := w.delivery - {h});
      if k !in w1.records || w1.records[k].handle != Some(h) then w1
      else AdvanceQueue(cfg, w1, k, w1.records[k], h, TimedOut, results)
  }

  predicate Matches(r: Record, e: Expected) {
    r.state == Sending && r.index < |r.queue| && Current(r).id == e.id && Current(r).retryCount == e.retryCount
  }

  function RunRetry(cfg: Config, w: World, k: Key, e: Expected, results: Results): World {
    if k !in w.records || !Matches(w.records[k], e) then w
    else SendFrom(cfg, w, k, w.records[k], results)
  }

  function RetryTimer(cfg: Config, w: World, k: Key, results: Results): World {
    if k !in w.retry then w else RunRetry(cfg, ClearRetry(w, k), k, w.retry[k], results)
  }

  function StallTimer(cfg: Config, w: World, line: Line, results: Results): World {
    if line !in w.stalls then w
    else RunRetry(cfg, w.(stalls := w.stalls - {line}), w.stalls[line].key, w.stalls[line].expected, results)
  }
}
