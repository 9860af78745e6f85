// Runs of the agent, and what holds of every one of them.
module ConversationRuns {
  import opened Wrappers
  import opened StatusTracker
  import opened ErrorClass
  import opened ConversationTypes
  import opened History
  import opened ConversationModel
  import opened ConversationInvariant
  import opened ConversationSteps
  import opened ConversationEffects

  // Everything that can set the agent in motion.
  datatype Event =
    | Receives(key: Key, message: Inbound, channel: Channel, downgraded: bool, gate: Gate, now: int, delayMs: int)
    | BufferFires(key: Key)
    | ChatReturns(key: Key, reply: ChatResult, now: int, delayMs: int, results: Results)
    | StatusArrives(callback: Callback, results: Results)
    | TimeoutFires(handle: Handle, results: Results)
    | RetryFires(key: Key, results: Results)
    | StallFires(line: Line, results: Results)

  function Step(cfg: Config, w: World, e: Event): World {
    match e
    case Receives(k, m, channel, downgraded, gate, now, delayMs) => Receive(cfg, w, k, m, channel, downgraded, gate, now, delayMs)
    case BufferFires(k) => BufferTimer(w, k)
    case ChatReturns(k, reply, now, delayMs, results) => ChatReply(cfg, w, k, reply, now, delayMs, results)
    case StatusArrives(c, results) => StatusCallback(cfg, w, c, results)
    case TimeoutFires(h, results) => DeliveryTimeout(cfg, w, h, results)
    case RetryFires(k, results) => RetryTimer(cfg, w, k, results)
    case StallFires(l, results) => StallTimer(cfg, w, l, results)
  }

  // What is assumed of the environment: Sendblue never returns a handle twice,
  // replies are normalised, and the clock moves forward between the turns of a
  // conversation.
  ghost predicate Allowed(w: World, e: Event) {
    match e
    case Receives(k, _, _, _, gate, _, _) => gate == NotInvoked ==> k.Group?
    case BufferFires(_) => true
    case ChatReturns(k, reply, now, _, results) =>
      Fresh(w, results) && HistoryOf(w, k).stamp < now && (reply.Replied? ==> NoSilence(reply.actions))
    case StatusArrives(_, results) => Fresh(w, results)
    case TimeoutFires(_, results) => Fresh(w, results)
    case RetryFires(_, results) => Fresh(w, results)
    case StallFires(_, results) => Fresh(w, results)
  }

  function Run(cfg: Config, w: World, es: seq<Event>): World
    decreases |es|
  {
    if es == [] then w else Run(cfg, Step(cfg, w, es[0]), es[1..])
  }

  ghost predicate AllowedRun(cfg: Config, w: World, es: seq<Event>)
    decreases |es|
  {
    es != [] ==> Allowed(w, es[0]) && AllowedRun(cfg, Step(cfg, w, es[0]), es[1..])
  }

  // One run after another.
  lemma {:induction false} RunOn(cfg: Config, w: World, es: seq<Event>, more: seq<Event>)
    requires AllowedRun(cfg, w, es) && AllowedRun(cfg, Run(cfg, w, es), more)
    ensures AllowedRun(cfg, w, es + more) && Run(cfg, w, es + more) == Run(cfg, Run(cfg, w, es), more)
    decreases |es|
  {
    hide Step, Allowed;
    if es == [] {
      assert es + more == more;
    } else {
      RunOn(cfg, Step(cfg, w, es[0]), es[1..], more);
      assert (es + more)[1..] == es[1..] + more;
    }
  }

  // The conversation an event concerns; None when nothing is waiting for it.
  function Actor(w: World, e: Event): Option<Key> {
    match e
    case Receives(k, _, _, _, _, _, _) => Some(k)
    case BufferFires(k) => if k in w.buffer then Some(k) else None
    case ChatReturns(k, _, _, _, _) => if k in w.chats then Some(k) else None
    case StatusArrives(c, _) => if c.handle in w.mapping then Some(w.mapping[c.handle].key) else None
    case TimeoutFires(h, _) => if h in w.delivery then Some(w.delivery[h]) else None
    case RetryFires(k, _) => if k in w.retry then Some(k) else None
    case StallFires(l, _) => if l in w.stalls then Some(w.stalls[l].key) else None
  }

  lemma StepKeeps(cfg: Config, w: World, e: Event)
    requires Inv(cfg, w) && Allowed(w, e)
    ensures Inv(cfg, Step(cfg, w, e))
  {
    hide Inv, Receive, BufferTimer, ChatReply, StatusCallback, DeliveryTimeout, RetryTimer, StallTimer, Fresh, NoSilence;
    match e {
      case Receives(k, m, channel, downgraded, gate, now, delayMs) => ReceiveKeeps(cfg, w, k, m, channel, downgraded, gate, now, delayMs);
      case BufferFires(k) => BufferTimerKeeps(cfg, w, k);
      case ChatReturns(k, reply, now, delayMs, results) => ChatReplyKeeps(cfg, w, k, reply, now, delayMs, results);
      case StatusArrives(c, results) => StatusKeeps(cfg, w, c, results);
      case TimeoutFires(h, results) => TimeoutKeeps(cfg, w, h, results);
      case RetryFires(k, results) => RetryTimerKeeps(cfg, w, k, results);
      case StallFires(l, results) => StallTimerKeeps(cfg, w, l, results);
    }
  }

  lemma StepWithin(cfg: Config, w: World, e: Event)
    requires Inv(cfg, w) && Allowed(w, e)
    ensures Actor(w, e) == None ==> Step(cfg, w, e) == w
    ensures Actor(w, e).Some? ==> Within(w, Step(cfg, w, e), Actor(w, e).value)
  {
    hide Inv, Receive, ToIdle, Schedule, Fresh, Within, SendFrom, Advance, FailedStatus, RunRetry, ProcessBuffer, NoSilence;
    match e {
      case Receives(k, m, channel, downgraded, gate, now, delayMs) => ReceiveWithin(cfg, w, k, m, channel, downgraded, gate, now, delayMs);
      case BufferFires(k) => BufferTimerWithin(w, k);
      case ChatReturns(k, reply, now, delayMs, results) => ChatReplyWithin(cfg, w, k, reply, now, delayMs, results);
      case StatusArrives(c, results) => if c.handle in w.mapping { StatusWithin(cfg, w, c, results); }
      case TimeoutFires(h, results) => if h in w.delivery { TimeoutWithin(cfg, w, h, results); }
      case RetryFires(k, results) => if k in w.retry { RetryWithin(cfg, w, k, results); }
      case StallFires(l, results) => if l in w.stalls { StallWithin(cfg, w, l, results); }
    }
  }

  lemma EmptyInv(cfg: Config)
    ensures Inv(cfg, Empty)
  {
  }

  // The invariant holds throughout every run, whatever the number of
  // conversations and however errors fall.
  lemma {:induction false} RunKeeps(cfg: Config, w: World, es: seq<Event>)
    requires Inv(cfg, w) && AllowedRun(cfg, w, es)
    ensures Inv(cfg, Run(cfg, w, es))
    decreases |es|
  {
    hide Inv, Step, Allowed;
    if es != [] {
      StepKeeps(cfg, w, es[0]);
      RunKeeps(cfg, Step(cfg, w, es[0]), es[1..]);
    }
  }

  // --- exactly one wake-up -----------------------------------------------

  // The ways a conversation can be set in motion without a new message.
  datatype Wake =
    | BufferWake
    | ChatWake
    | DeliveryWake(handle: Handle)
    | RetryWake(expected: Expected)
    | StallWake(line: Line)

  ghost function DeliveryWakes(w: World, k: Key): set<Wake> {
    set h | h in w.delivery && w.delivery[h] == k :: DeliveryWake(h)
  }

  ghost function StallWakes(w: World, k: Key): set<Wake> {
    set l | l in w.stalls && w.stalls[l].key == k :: StallWake(l)
  }

  ghost function Wakes(w: World, k: Key): set<Wake> {
    (if k in w.buffer then {BufferWake} else {})
    + (if k in w.chats then {ChatWake} else {})
    + DeliveryWakes(w, k)
    + (if k in w.retry then {RetryWake(w.retry[k])} else {})
    + StallWakes(w, k)
  }

  function CurrentExpectation(r: Record): Expected
    requires r.index < |r.queue|
  {
    Expected(Current(r).id, Current(r).retryCount)
  }

  // What a conversation in this state waits for.
  ghost predicate WaitsProperly(w: World, k: Key)
    requires k in w.records
  {
    var r := w.records[k];
    match r.state
    case Idle => Wakes(w, k) == {}
    case Buffering => Wakes(w, k) == {BufferWake}
    case Processing => Wakes(w, k) == {ChatWake}
    case Sending =>
      && r.index < |r.queue|
      && match r.handle
         case Some(h) => Wakes(w, k) == {DeliveryWake(h)}
         case None =>
           || Wakes(w, k) == {RetryWake(CurrentExpectation(r))}
           || (Wakes(w, k) == {StallWake(k.line)} && w.stalls[k.line].expected == CurrentExpectation(r))
           || (Wakes(w, k) == {} && Stranded(w, k))
  }

  lemma DeliveryWakesAre(cfg: Config, w: World, k: Key)
    requires Inv(cfg, w) && k in w.records
    ensures DeliveryWakes(w, k) ==
            if w.records[k].state == Sending && w.records[k].handle.Some? then {DeliveryWake(w.records[k].handle.value)} else {}
  {
    hide Inv, TurnOk;
    Own(cfg, w, k);
    if w.records[k].state == Sending && w.records[k].handle.Some? { HandleIsTimed(cfg, w, k); }
  }

  lemma StallWakesAre(cfg: Config, w: World, k: Key)
    requires Inv(cfg, w) && k in w.records
    ensures StallWakes(w, k) == if HoldsStall(w, k) then {StallWake(k.line)} else {}
  {
    hide Inv, TurnOk;
    Own(cfg, w, k);
  }

  // The timers of a conversation, in terms of its record.
  lemma Timers(cfg: Config, w: World, k: Key)
    requires Inv(cfg, w) && k in w.records
    ensures var r := w.records[k];
            && (k in w.buffer <==> r.state == Buffering) && (k in w.chats <==> r.state == Processing)
            && (k in w.retry || HoldsStall(w, k) ==> r.state == Sending && r.handle == None && r.index < |r.queue|)
            && !(k in w.retry && HoldsStall(w, k))
            && (k in w.retry ==> w.retry[k] == CurrentExpectation(r))
            && (HoldsStall(w, k) ==> w.stalls[k.line].expected == CurrentExpectation(r))
            && (r.state == Sending ==> r.index < |r.queue|)
  {
    hide Inv, TurnOk, ConversationOk;
    Own(cfg, w, k);
    ConversationFacts(cfg, w, k);
    TurnsOver(cfg, w.records[k], HistoryOf(w, k));
  }

  // An idle conversation waits for nothing; every other one for exactly one
  // thing, the one its state calls for; unless it is stranded.
  lemma OneWake(cfg: Config, w: World, k: Key)
    requires Inv(cfg, w) && k in w.records
    ensures WaitsProperly(w, k)
    ensures |Wakes(w, k)| == if w.records[k].state == Idle || Stranded(w, k) then 0 else 1
  {
    hide Inv, DeliveryWakes, StallWakes, HoldsStall, CurrentExpectation;
    Timers(cfg, w, k);
    DeliveryWakesAre(cfg, w, k);
    StallWakesAre(cfg, w, k);
    var r := w.records[k];
    if r.state == Sending && r.handle == None {
      if k in w.retry {
        assert Wakes(w, k) == {RetryWake(w.retry[k])};
      } else if HoldsStall(w, k) {
        assert Wakes(w, k) == {StallWake(k.line)};
      }
    }
  }

  lemma HandleIsTimed(cfg: Config, w: World, k: Key)
    requires Inv(cfg, w) && k in w.records && w.records[k].state == Sending && w.records[k].handle.Some?
    ensures w.records[k].handle.value in w.delivery && w.delivery[w.records[k].handle.value] == k
  {
    hide Inv, TurnOk;
    Own(cfg, w, k);
    ConversationFacts(cfg, w, k);
    MappingIsKnown(cfg, w, w.records[k].handle.value);
  }

  ghost predicate NoneStranded(w: World) {
    forall k :: k in w.records ==> !Stranded(w, k)
  }

  // Another conversation of the acting one's line holds the line's stall timer.
  predicate ForeignStall(w: World, k: Key) {
    k.line in w.stalls && w.stalls[k.line].key != k
  }

  // A step strands a conversation exactly when it takes the line's stall timer
  // away from a conversation that holds it.
  lemma StrandsExactlyWhen(cfg: Config, w: World, e: Event)
    requires Inv(cfg, w) && Allowed(w, e) && NoneStranded(w) && Actor(w, e).Some?
    ensures var k, w' := Actor(w, e).value, Step(cfg, w, e);
            NoneStranded(w') <==> (ForeignStall(w, k) ==> Same(w.stalls, w'.stalls, k.line))
  {
    hide Inv, Step, Allowed, Actor;
    var k, w' := Actor(w, e).value, Step(cfg, w, e);
    StepWithin(cfg, w, e);
    if ForeignStall(w, k) && !Same(w.stalls, w'.stalls, k.line) {
      LosingTheStallStrands(cfg, w, w', k);
    } else {
      forall o | o in w'.records ensures !Stranded(w', o) {
        if o == k {
          assert Stranded(w', k) ==> Stranded(w, k);
        } else {
          assert SameConversation(w, w', o) && SameLine(w, w', o.line, k);
        }
      }
    }
  }

  lemma LosingTheStallStrands(cfg: Config, w: World, w': World, k: Key)
    requires Inv(cfg, w) && Agree(w, w', k)
    requires ForeignStall(w, k) && !Same(w.stalls, w'.stalls, k.line)
    ensures Stranded(w', w.stalls[k.line].key) && w.stalls[k.line].key in w'.records
  {
    hide Inv;
    var o := w.stalls[k.line].key;
    StallIsKnown(cfg, w, k.line);
    Own(cfg, w, o);
    assert SameConversation(w, w', o) && SameLine(w, w', o.line, k);
  }

  // Whatever happens, only a line shared with a stalled conversation is at risk.
  lemma {:induction false} NeverStrandedUndisturbed(cfg: Config, w: World, es: seq<Event>)
    requires Inv(cfg, w) && AllowedRun(cfg, w, es) && NoneStranded(w) && Undisturbed(cfg, w, es)
    ensures NoneStranded(Run(cfg, w, es))
    decreases |es|
  {
    hide Inv, Step, Allowed, Actor, NoneStranded;
    if es != [] {
      StepKeeps(cfg, w, es[0]);
      StepWithin(cfg, w, es[0]);
      if Actor(w, es[0]).Some? { StrandsExactlyWhen(cfg, w, es[0]); }
      NeverStrandedUndisturbed(cfg, Step(cfg, w, es[0]), es[1..]);
    }
  }

  // No event of the run concerns a conversation whose line another conversation
  // is stalled on.
  predicate Undisturbed(cfg: Config, w: World, es: seq<Event>)
    decreases |es|
  {
    es != [] ==>
      && (Actor(w, es[0]).Some? ==> !ForeignStall(w, Actor(w, es[0]).value))
      && Undisturbed(cfg, Step(cfg, w, es[0]), es[1..])
  }
}
