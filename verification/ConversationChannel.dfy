// What a conversation knows of its channel: the last word anything it received
// had on it, over whole runs.
module ConversationChannel {
  import opened Wrappers
  import opened StatusTracker
  import opened ErrorClass
  import opened ConversationTypes
  import opened History
  import opened ConversationModel
  import opened ConversationInvariant
  import opened ConversationSteps
  import opened ConversationEffects
  import opened ConversationRuns
  import opened ConversationAccount

  // What a message or a callback says of the channel.
  datatype Word = Word(channel: Channel, downgraded: bool)

  // The last channel named; before that, the one known already.
  function LastNamed(words: seq<Word>, known: Channel): Channel {
    if words == [] then known
    else
      var n := |words| - 1;
      if words[n].channel != UnknownChannel then words[n].channel else LastNamed(words[..n], known)
  }

  // iMessage takes a downgrade back, SMS or the word itself makes one; the last
  // of these counts.
  function LastDowngrade(words: seq<Word>, known: bool): bool {
    if words == [] then known
    else
      var n := |words| - 1;
      if words[n].channel == IMessage then false
      else if words[n].channel == Sms || words[n].downgraded then true
      else LastDowngrade(words[..n], known)
  }

  ghost predicate Heard(r: Record, words: seq<Word>, r': Record) {
    r'.channel == LastNamed(words, r.channel) && r'.smsDowngraded == LastDowngrade(words, r.smsDowngraded)
  }

  // What an event says of this conversation's channel: a message answered or not
  // does, but not one to a single contact whose sender is not authorised; a
  // callback does while its message is in flight, and repeats the channel that is
  // known when it names none.
  function Words(w: World, e: Event, k: Key): seq<Word> {
    match e
    case Receives(k', m, channel, downgraded, gate, now, _) =>
      if k' != k || ClaimHolds(w, m.handle, now) || (gate == Unauthorized && k.Direct?) then []
      else [Word(channel, downgraded)]
    case StatusArrives(c, _) =>
      if c.handle !in w.mapping || w.mapping[c.handle].key != k || k !in w.records then []
      else if c.downgraded then [Word(Sms, true)]
      else [Word(if c.service == UnknownChannel then w.records[k].channel else c.service, false)]
    case _ => []
  }

  function AllWords(cfg: Config, w: World, es: seq<Event>, k: Key): seq<Word>
    decreases |es|
  {
    if es == [] then [] else Words(w, es[0], k) + AllWords(cfg, Step(cfg, w, es[0]), es[1..], k)
  }

  predicate FailsCall(e: Event, k: Key) {
    e.ChatReturns? && e.key == k && e.reply.Failed?
  }

  // --- one word after another --------------------------------------------

  lemma {:induction false} LastOfBoth(first: seq<Word>, second: seq<Word>, channel: Channel, downgraded: bool)
    ensures LastNamed(first + second, channel) == LastNamed(second, LastNamed(first, channel))
    ensures LastDowngrade(first + second, downgraded) == LastDowngrade(second, LastDowngrade(first, downgraded))
  {
    if second == [] {
      assert first + second == first;
    } else {
      LastOfBoth(first, second[..|second| - 1], channel, downgraded);
      assert (first + second)[..|first + second| - 1] == first + second[..|second| - 1];
    }
  }

  lemma HeardInTurn(r: Record, first: seq<Word>, r1: Record, second: seq<Word>, r2: Record)
    requires Heard(r, first, r1) && Heard(r1, second, r2)
    ensures Heard(r, first + second, r2)
  {
    LastOfBoth(first, second, r.channel, r.smsDowngraded);
  }

  lemma OneWord(r: Record, channel: Channel, downgraded: bool)
    ensures Heard(r, [Word(channel, downgraded)], ApplyChannel(r, channel, downgraded))
  {
    assert [Word(channel, downgraded)][..0] == [];
  }

  lemma NoWord(r: Record, r': Record)
    requires SameChannel(r, r')
    ensures Heard(r, [], r')
  {
  }

  // --- what leaves the channel alone -------------------------------------

  predicate SameChannel(r: Record, r': Record) {
    r'.channel == r.channel && r'.smsDowngraded == r.smsDowngraded
  }

  ghost predicate Silent(w: World, k: Key, r: Record) {
    k in w.records && SameChannel(r, w.records[k])
  }

  lemma {:induction false} SendFromIsSilent(cfg: Config, w: World, k: Key, r: Record, results: Results)
    requires k in w.records && w.records[k] == r
    ensures Silent(SendFrom(cfg, w, k, r, results), k, r)
    decreases if r.index < |r.queue| then |r.queue| - r.index else 0, 2
  {
    hide Unsendable, ToIdle, Skip, Attempted, AfterAttempt, HistoryOf;
    if r.index >= |r.queue| {
      GoesIdle(cfg, w, k, r);
    } else if Unsendable(cfg, k, r, Current(r).action) {
      SkipIsSilent(cfg, w, k, r, results);
    } else {
      RequestIsLogged(w, k, r, results(r.index));
      AnswerIsSilent(cfg, Attempted(w, k, r, results(r.index)), k, r, results);
    }
  }

  lemma {:induction false} SkipIsSilent(cfg: Config, w: World, k: Key, r: Record, results: Results)
    requires r.index < |r.queue|
    ensures Silent(SendFrom(cfg, Skip(w, k, r), k, SkipRecord(r), results), k, r)
    decreases |r.queue| - r.index, 0
  {
    hide SendFrom;
    SendFromIsSilent(cfg, Skip(w, k, r), k, SkipRecord(r), results);
  }

  lemma {:induction false} AnswerIsSilent(cfg: Config, w: World, k: Key, r: Record, results: Results)
    requires k in w.records && w.records[k] == r && r.index < |r.queue|
    ensures Silent(AfterAttempt(cfg, w, k, r, results), k, r)
    decreases |r.queue| - r.index, 1
  {
    hide SendFrom, Skip, SkipRecord, CanStall, ClassifyError, HistoryOf, RefuseStall, Advance, ArmStall, ArmRetry, AwaitStatus;
    match Judge(cfg, Current(r), results(r.index)) {
      case InFlight(h) => ArmedIs(w, k, r, 0, h);
      case Fired =>
        var sent := SentRecord(r, None);
        OneFewer(r);
        AdvanceIs(cfg, w, k, sent, Unconfirmed);
        SendFromIsSilent(cfg, Advance(cfg, w, k, sent, Unconfirmed), k, AdvanceRecord(sent), results);
      case Retry(attempts) => ArmedIs(w, k, r, attempts, "");
      case TryStall =>
        if CanStall(cfg, w, k.line) { ArmedIs(w, k, r, 0, ""); } else { SkipIsSilent(cfg, RefuseStall(cfg, w, k.line), k, r, results); }
      case GiveUp => SkipIsSilent(cfg, w, k, r, results);
    }
  }

  lemma AdvanceQueueIsSilent(cfg: Config, w: World, k: Key, r: Record, h: Handle, ending: Ending, results: Results)
    ensures Silent(AdvanceQueue(cfg, w, k, r, h, ending, results), k, r)
  {
    hide SendFrom;
    SendFromIsSilent(cfg, Advance(cfg, ClearHandle(w, h), k, r, ending), k, AdvanceRecord(r), results);
  }

  lemma ScheduleIsSilent(w: World, k: Key, delayMs: int)
    requires k in w.records
    ensures Silent(Schedule(w, k, delayMs), k, w.records[k])
  {
    hide ProcessBuffer;
    if delayMs <= 0 { ProcessIsSilent(w.(buffer := w.buffer - {k}), k); }
  }

  lemma ProcessIsSilent(w: World, k: Key)
    requires k in w.records
    ensures Silent(ProcessBuffer(w, k), k, w.records[k])
  {
    hide HistoryOf, Remember, Persist;
    var r := w.records[k];
    if r.state == Buffering && r.inboundBuffer != [] {
      ProcessIs(w, k, r);
    } else {
      assert ProcessBuffer(w, k) == w;
    }
  }

  lemma RebufferIsSilent(w: World, k: Key, r: Record, h: History, delayMs: int)
    ensures Silent(Schedule(Remember(Persist(w, k, r), k, h), k, delayMs), k, r)
  {
    hide Schedule;
    ScheduleIsSilent(Remember(Persist(w, k, r), k, h), k, delayMs);
  }

  lemma AcceptIsSilent(cfg: Config, w: World, k: Key, r: Record, m: Inbound, delayMs: int)
    ensures Silent(AcceptInbound(cfg, w, k, r, m, delayMs), k, r)
  {
    hide Schedule, EndRest, CancelledSummaries, ClearStall, ClearCurrent, Begin, Accept, HistoryOf;
    var h := HistoryOf(w, k);
    match r.state {
      case Idle => RebufferIsSilent(w, k, OpenBuffer(r, m).(delivered := [], cancelled := [], reprocessCount := 0), Begin(h, m), delayMs);
      case Buffering => RebufferIsSilent(w, k, BufferMore(r, m), Accept(h, m), delayMs);
      case Processing =>
      case Sending =>
        RebufferIsSilent(ClearCurrent(ClearStall(cfg, ClearRetry(w, k), k.line), r), k,
                         OpenBuffer(r, m).(cancelled := CancelledSummaries(cfg, r)), Begin(EndRest(h, r.index, Cancelled), m), delayMs);
    }
  }

  lemma FailedIsSilent(cfg: Config, w: World, k: Key, r: Record, c: Callback)
    ensures Silent(FailedStatus(cfg, w, k, r, c), k, r)
  {
    hide AbortQueue, ArmRetry, ArmStall, ClassifyStatusErrorCode, CanStall, RefuseStall, RetryRecord, HistoryOf;
    var w1 := ClearHandle(w, c.handle);
    AbortIsSilent(cfg, w, k, r, c.handle);
    AbortIsSilent(cfg, w1, k, r, c.handle);
    if r.index < |r.queue| {
      ArmedIs(w1, k, r, Current(r).retryCount + 1, "");
      RetryRecordIsSilent(r, Current(r).retryCount + 1);
      RestallIsSilent(cfg, w1, k, r, c.handle);
    }
  }

  lemma RetryRecordIsSilent(r: Record, attempts: nat)
    requires r.index < |r.queue|
    ensures SameChannel(r, RetryRecord(r, attempts))
  {
  }

  lemma RestallIsSilent(cfg: Config, w: World, k: Key, r: Record, h: Handle)
    requires r.index < |r.queue|
    ensures var r1 := WithCurrent(r, Current(r).(messageHandle := None)).(handle := None);
            var w1 := Persist(w, k, r1);
            && Silent(ArmStall(w1, k, Current(r1)), k, r)
            && Silent(AbortQueue(cfg, RefuseStall(cfg, w1, k.line), k, r1, h), k, r)
  {
    hide AbortQueue, ArmStall, RefuseStall, HistoryOf;
    var r1 := WithCurrent(r, Current(r).(messageHandle := None)).(handle := None);
    var w1 := Persist(w, k, r1);
    ArmedIs(w1, k, r1, 0, "");
    AbortIsSilent(cfg, RefuseStall(cfg, w1, k.line), k, r1, h);
  }

  lemma AbortIsSilent(cfg: Config, w: World, k: Key, r: Record, h: Handle)
    ensures Silent(AbortQueue(cfg, w, k, r, h), k, r)
  {
    hide ToIdle, EndRest;
    GoesIdle(cfg, Remember(ClearHandle(w, h), k, EndRest(HistoryOf(w, k), r.index, Aborted)), k, r);
  }

  lemma ReplyIsSilent(cfg: Config, w: World, k: Key, actions: seq<QueuedAction>, now: int, delayMs: int, results: Results)
    requires k in w.records
    ensures Silent(TakeReply(cfg, w, k, actions, now, delayMs, results), k, w.records[k])
  {
    hide SendFrom, ToIdle, Schedule, HistoryOf, Answer, StartSending, Reprocess, Persist, Remember, Silent;
    var r, h := w.records[k], HistoryOf(w, k);
    RewritingIsSilent(r, actions, now);
    if r.lateArrivals != [] && r.reprocessCount < cfg.maxReprocessAttempts {
      PutOffIsSilent(w, k, r, Reprocess(r), delayMs);
    } else if actions == [] {
      IdlingIsSilent(cfg, w, k, r, Answer(h, h.stamp, []));
    } else {
      StartIsSilent(cfg, w, k, r, StartSending(r, actions, now), Answer(h, now, actions), results);
    }
  }

  lemma PutOffIsSilent(w: World, k: Key, r: Record, r': Record, delayMs: int)
    requires SameChannel(r, r')
    ensures Silent(Schedule(Persist(w, k, r'), k, delayMs), k, r)
  {
    hide Schedule;
    ScheduleIsSilent(Persist(w, k, r'), k, delayMs);
  }

  lemma IdlingIsSilent(cfg: Config, w: World, k: Key, r: Record, h: History)
    ensures Silent(ToIdle(cfg, Remember(w, k, h), k, r), k, r)
  {
    hide ToIdle;
    GoesIdle(cfg, Remember(w, k, h), k, r);
  }

  lemma StartIsSilent(cfg: Config, w: World, k: Key, r: Record, r': Record, h: History, results: Results)
    requires SameChannel(r, r')
    ensures Silent(SendFrom(cfg, Remember(Persist(w, k, r'), k, h), k, r', results), k, r)
  {
    hide SendFrom;
    SendFromIsSilent(cfg, Remember(Persist(w, k, r'), k, h), k, r', results);
  }

  lemma RewritingIsSilent(r: Record, actions: seq<QueuedAction>, now: int)
    ensures SameChannel(r, Reprocess(r)) && SameChannel(r, StartSending(r, actions, now))
  {
  }

  lemma RetryIsSilent(cfg: Config, w: World, k: Key, e: Expected, results: Results)
    requires k in w.records
    ensures Silent(RunRetry(cfg, w, k, e, results), k, w.records[k])
  {
    hide SendFrom;
    SendFromIsSilent(cfg, w, k, w.records[k], results);
  }

  // --- every step, every run ---------------------------------------------

  lemma ReceiveHears(cfg: Config, w: World, e: Event)
    requires e.Receives? && e.key in w.records && (e.gate == NotInvoked ==> e.key.Group?)
    ensures var w' := Step(cfg, w, e); e.key in w'.records && Heard(w.records[e.key], Words(w, e, e.key), w'.records[e.key])
  {
    hide AcceptInbound, LastNamed, LastDowngrade;
    var k, r := e.key, w.records[e.key];
    NoWord(r, r);
    OneWord(r, e.channel, e.downgraded);
    if !ClaimHolds(w, e.message.handle, e.now) && e.gate == Accepted {
      AcceptIsSilent(cfg, Claim(cfg, w, e.message.handle, e.now), k, ApplyChannel(r, e.channel, e.downgraded), e.message, e.delayMs);
    }
  }

  lemma StatusHears(cfg: Config, w: World, e: Event)
    requires Inv(cfg, w) && e.StatusArrives? && e.callback.handle in w.mapping
    ensures var k, w' := w.mapping[e.callback.handle].key, Step(cfg, w, e);
            k in w.records && k in w'.records && Heard(w.records[k], Words(w, e, k), w'.records[k])
  {
    hide Inv, FailedStatus, AdvanceQueue, LastNamed, LastDowngrade;
    var c := e.callback;
    var k := w.mapping[c.handle].key;
    MappingIsKnown(cfg, w, c.handle);
    var channel := ChannelFromStatus(c, w.records[k].channel);
    var r := ApplyChannel(w.records[k], channel, c.downgraded);
    OneWord(w.records[k], channel, c.downgraded);
    FailedIsSilent(cfg, w, k, r, c);
    AdvanceQueueIsSilent(cfg, w, k, r, c.handle, Confirmed, e.results);
  }

  // What wakes a conversation up says nothing of its channel.
  lemma WakesAreSilent(cfg: Config, w: World, e: Event, k: Key)
    requires Inv(cfg, w) && Actor(w, e) == Some(k) && k in w.records && !e.Receives? && !e.StatusArrives? && !FailsCall(e, k)
    ensures Silent(Step(cfg, w, e), k, w.records[k])
  {
    hide Inv, AdvanceQueue, RunRetry, TakeReply, ProcessBuffer;
    match e {
      case BufferFires(_) => ProcessIsSilent(w.(buffer := w.buffer - {k}), k);
      case ChatReturns(_, reply, now, delayMs, results) =>
        ReplyIsSilent(cfg, w.(chats := w.chats - {k}), k, reply.actions, now, delayMs, results);
      case TimeoutFires(h, results) => AdvanceQueueIsSilent(cfg, w.(delivery := w.delivery - {h}), k, w.records[k], h, TimedOut, results);
      case RetryFires(_, results) => RetryIsSilent(cfg, ClearRetry(w, k), k, w.retry[k], results);
      case StallFires(l, results) => RetryIsSilent(cfg, w.(stalls := w.stalls - {l}), k, w.stalls[l].expected, results);
    }
  }

  lemma StepHears(cfg: Config, w: World, e: Event, k: Key)
    requires Inv(cfg, w) && Allowed(w, e) && k in w.records && !FailsCall(e, k)
    ensures var w' := Step(cfg, w, e); k in w'.records && Heard(w.records[k], Words(w, e, k), w'.records[k])
  {
    hide Inv, Step, Within, Heard, Fresh, NoSilence;
    StepWithin(cfg, w, e);
    NoWord(w.records[k], w.records[k]);
    if Actor(w, e) == Some(k) {
      if e.Receives? {
        ReceiveHears(cfg, w, e);
      } else if e.StatusArrives? {
        StatusHears(cfg, w, e);
      } else {
        WakesAreSilent(cfg, w, e, k);
        NoWord(w.records[k], Step(cfg, w, e).records[k]);
      }
    } else if Actor(w, e).Some? {
      NotSpokenTo(w, Step(cfg, w, e), Actor(w, e).value, k);
    }
  }

  lemma NotSpokenTo(w: World, w': World, k: Key, o: Key)
    requires Within(w, w', k) && o != k && o in w.records
    ensures o in w'.records && w'.records[o] == w.records[o]
  {
    assert SameConversation(w, w', o);
  }

  // As long as no chat call of the conversation fails, its channel is the last
  // one it heard of, and it counts as downgraded if the last word on that was
  // SMS or a downgrade, whatever else happened.  (A call that fails takes both
  // back to what they were when the request was made.)
  lemma {:induction false} ChannelIsTheLastHeard(cfg: Config, w: World, es: seq<Event>, k: Key)
    requires Inv(cfg, w) && AllowedRun(cfg, w, es) && k in w.records
    requires forall i :: 0 <= i < |es| ==> !FailsCall(es[i], k)
    ensures var w' := Run(cfg, w, es); k in w'.records && Heard(w.records[k], AllWords(cfg, w, es, k), w'.records[k])
    decreases |es|
  {
    hide Inv, Step, Allowed, Heard, Words, FailsCall;
    if es == [] {
      NoWord(w.records[k], w.records[k]);
    } else {
      var w1 := Step(cfg, w, es[0]);
      StepKeeps(cfg, w, es[0]);
      StepHears(cfg, w, es[0], k);
      ChannelIsTheLastHeard(cfg, w1, es[1..], k);
      HeardInTurn(w.records[k], Words(w, es[0], k), w1.records[k], AllWords(cfg, w1, es[1..], k), Run(cfg, w, es).records[k]);
    }
  }

  // A conversation that begins knows what its first message says; from a sender
  // who is not authorised it takes the channel and nothing of a downgrade.
  lemma FirstWord(cfg: Config, w: World, e: Event)
    requires e.Receives? && e.key !in w.records && !ClaimHolds(w, e.message.handle, e.now)
    ensures var w' := Step(cfg, w, e);
            && e.key in w'.records
            && var r := w'.records[e.key];
            && r.channel == e.channel
            && r.smsDowngraded == (e.gate != Unauthorized && e.channel != IMessage && (e.channel == Sms || e.downgraded))
            && (e.gate != Accepted ==> r == IdleRecord(r.channel).(smsDowngraded := r.smsDowngraded))
  {
    hide AcceptInbound, PassedOver;
    var w1 := Claim(cfg, w, e.message.handle, e.now);
    if e.gate == Accepted {
      AcceptIsSilent(cfg, w1, e.key, ApplyChannel(IdleRecord(UnknownChannel), e.channel, e.downgraded), e.message, e.delayMs);
    } else {
      PassedOverUnknown(w1, e.key, e.channel, e.downgraded, e.gate);
    }
  }

  lemma PassedOverUnknown(w: World, k: Key, channel: Channel, downgraded: bool, gate: Gate)
    requires k !in w.records && gate != Accepted
    ensures var r := PassedOver(w, k, channel, downgraded, gate);
            && r == IdleRecord(channel).(smsDowngraded := r.smsDowngraded)
            && r.smsDowngraded == (gate != Unauthorized && channel != IMessage && (channel == Sms || downgraded))
  {
  }

  // A message the agent stays silent on changes nothing of a conversation but
  // its channel, and no timer, queue or call of any.
  lemma SilenceMeaning(cfg: Config, w: World, e: Event)
    requires e.Receives? && e.gate != Accepted && e.key in w.records
    ensures var w' := Step(cfg, w, e);
            && e.key in w'.records
            && var r, r' := w.records[e.key], w'.records[e.key];
            && r' == r.(channel := r'.channel, smsDowngraded := r'.smsDowngraded)
            && w' == w.(claims := w'.claims, records := w.records[e.key := r'])
  {
    if ClaimHolds(w, e.message.handle, e.now) { assert w.records[e.key := w.records[e.key]] == w.records; }
  }
}
