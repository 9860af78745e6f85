// A run that strands a conversation: two conversations share a line, the first
// is stalled by an SMS-limit error, and the second one's chat call fails.
module SharedLine {
  import opened Wrappers
  import opened ErrorClass
  import opened ConversationTypes
  import opened History
  import opened ConversationModel
  import opened ConversationInvariant
  import opened ConversationSteps
  import opened ConversationEffects
  import opened ConversationRuns

  const CFG := Config(2, 80, true, true, 3, 24, 1000, true, true)
  const ALICE := Direct("line", "alice")
  const BOB := Direct("line", "bob")
  const HELLO := QueuedAction(Message, Some("x"), None, None, None, None)

  function SmsLimitReached(p: nat): SendResult {
    Threw(ApiError(400, Some("SMS_LIMIT_REACHED")))
  }

  function Opening(k: Key, handle: Handle): seq<Event> {
    [Receives(k, Inbound(handle, "hi"), IMessage, false, Accepted, 1, 5), BufferFires(k)]
  }

  // The world in which k, new to it, waits for its first chat reply.
  function Asked(w: World, k: Key, handle: Handle): World {
    var m := Inbound(handle, "hi");
    var r := Record(Processing, IMessage, false, [m], [], [handle], [], [], [], 0, None, 0);
    w.(records := w.records[k := r], chats := w.chats[k := r],
       claims := w.claims[handle := 1001],
       history := w.history[k := History([], 0, Turn([m], [[m]], Waiting, [], []))])
  }

  // In between, its message is buffered.
  function Heard(w: World, k: Key, handle: Handle): World {
    var m := Inbound(handle, "hi");
    var r := Record(Buffering, IMessage, false, [m], [], [handle], [], [], [], 0, None, 0);
    w.(records := w.records[k := r], buffer := w.buffer + {k}, claims := w.claims[handle := 1001],
       history := w.history[k := History([], 0, NoTurn.(accepted := [m]))])
  }

  lemma OpeningIsHeard(w: World, k: Key, handle: Handle)
    requires k !in w.records && k !in w.history && handle !in w.claims
    ensures Step(CFG, w, Opening(k, handle)[0]) == Heard(w, k, handle)
  {
    var m := Inbound(handle, "hi");
    var r := IdleRecord(UnknownChannel).(channel := IMessage, smsDowngraded := false);
    var w1 := w.(claims := w.claims[handle := 1001]);
    assert Step(CFG, w, Opening(k, handle)[0]) == AcceptInbound(CFG, w1, k, r, m, 5);
  }

  lemma OpeningAsks(w: World, k: Key, handle: Handle)
    requires k !in w.buffer
    ensures Step(CFG, Heard(w, k, handle), Opening(k, handle)[1]) == Asked(w, k, handle)
  {
    hide ProcessBuffer;
    var w1 := Heard(w, k, handle);
    var w2 := w1.(buffer := w1.buffer - {k});
    assert w2.buffer == w.buffer;
    assert Step(CFG, w1, Opening(k, handle)[1]) == ProcessBuffer(w2, k);
    ProcessedIs(w2, k, w1.records[k]);
    AskedIs(w, k, handle);
  }

  lemma ProcessedIs(w: World, k: Key, r: Record)
    requires k in w.records && w.records[k] == r && r.state == Buffering && r.inboundBuffer != []
    ensures var r' := r.(state := Processing);
            ProcessBuffer(w, k) ==
            w.(records := w.records[k := r'], chats := w.chats[k := r'],
               history := w.history[k := Request(HistoryOf(w, k), r.inboundBuffer)])
  {
    hide Request;
  }

  lemma AskedIs(w: World, k: Key, handle: Handle)
    ensures var w1 := Heard(w, k, handle);
            var r' := w1.records[k].(state := Processing);
            && w1.records[k := r'] == w.records[k := r'] && r' == Asked(w, k, handle).records[k]
            && w1.history[k := Request(HistoryOf(w1, k), [Inbound(handle, "hi")])] == Asked(w, k, handle).history
  {
    var w1 := Heard(w, k, handle);
    var m := Inbound(handle, "hi");
    assert Request(HistoryOf(w1, k), [m]) == History([], 0, Turn([m], [[m]], Waiting, [], []));
  }

  // The first conversation's only message runs into the SMS limit.
  lemma HelloStalls(w: World, r: Record)
    requires r.queue == [Item(ItemId(1, 0), HELLO, None, 0, false)] && r.index == 0 && w.stallCount == map[]
    ensures SendFrom(CFG, w, ALICE, r, SmsLimitReached) == ArmStall(Attempted(w, ALICE, r, SmsLimitReached(0)), ALICE, r.queue[0])
  {
    hide Attempted, ArmStall;
    assert !Unsendable(CFG, ALICE, r, HELLO) by { assert HELLO.content.value[0] == 'x'; }
    assert Judge(CFG, Current(r), SmsLimitReached(r.index)) == TryStall;
    assert Attempted(w, ALICE, r, SmsLimitReached(0)).stallCount == map[] by { AttemptLeavesStalls(w, ALICE, r, SmsLimitReached(0)); }
  }

  lemma AttemptLeavesStalls(w: World, k: Key, r: Record, answer: SendResult)
    requires r.index < |r.queue|
    ensures Attempted(w, k, r, answer) == w.(history := Attempted(w, k, r, answer).history)
    ensures k in w.history ==> Attempted(w, k, r, answer).history.Keys == w.history.Keys
  {
    hide Attempt;
  }

  lemma ReplyStalls(w: World)
    requires w == Asked(Empty, ALICE, "a")
    ensures var w' := Step(CFG, w, ChatReturns(ALICE, Replied([HELLO]), 1, 0, SmsLimitReached));
            && ALICE in w'.records && w'.records[ALICE].state == Sending && w'.records[ALICE].handle == None
            && w'.stalls.Keys == {"line"} && w'.stalls["line"].key == ALICE
            && w'.records.Keys == {ALICE} && w'.history.Keys == {ALICE} && w'.claims.Keys == {"a"}
            && w'.buffer == {} && w'.chats == map[] && w'.retry == map[]
  {
    hide SendFrom, Attempted;
    var w1 := w.(chats := w.chats - {ALICE});
    var r := StartSending(w.records[ALICE], [HELLO], 1);
    var w2 := Remember(Persist(w1, ALICE, r), ALICE, Answer(HistoryOf(w1, ALICE), 1, [HELLO]));
    HelloStalls(w2, r);
    AttemptLeavesStalls(w2, ALICE, r, SmsLimitReached(0));
  }

  const REPLY := ChatReturns(ALICE, Replied([HELLO]), 1, 0, SmsLimitReached)
  const FAILURE := ChatReturns(BOB, Failed, 2, 0, SmsLimitReached)

  // The first conversation is stalled, and nothing of the second one is there.
  ghost predicate Stalled(w: World) {
    && ALICE in w.records && w.records[ALICE].state == Sending && w.records[ALICE].handle == None
    && w.records.Keys == {ALICE} && w.history.Keys == {ALICE} && w.claims.Keys == {"a"}
    && w.buffer == {} && w.retry == map[]
  }

  lemma FirstHalf(es: seq<Event>)
    requires es == Opening(ALICE, "a") + [REPLY]
    ensures AllowedRun(CFG, Empty, es) && Stalled(Run(CFG, Empty, es))
  {
    hide Step, Allowed, Asked, Heard;
    var w := Asked(Empty, ALICE, "a");
    OpeningIsHeard(Empty, ALICE, "a");
    OpeningAsks(Empty, ALICE, "a");
    ReplyStalls(w);
    AskedAdds(Empty, ALICE, "a");
    OpeningAllowed(Empty, ALICE, "a");
    OpeningAllowed(Heard(Empty, ALICE, "a"), ALICE, "a");
    ReplyAllowed(w, REPLY);
    Follow(Empty, es, [Empty, Heard(Empty, ALICE, "a"), w, Step(CFG, w, REPLY)]);
  }

  lemma SecondHalf(w: World, es: seq<Event>)
    requires Stalled(w) && es == Opening(BOB, "b") + [FAILURE]
    ensures AllowedRun(CFG, w, es) && Stranded(Run(CFG, w, es), ALICE)
  {
    hide Step, Allowed, Asked, Heard, Stranded;
    var w' := Asked(w, BOB, "b");
    OpeningIsHeard(w, BOB, "b");
    OpeningAsks(w, BOB, "b");
    AskedAdds(w, BOB, "b");
    FailureStrands(w', FAILURE);
    OpeningAllowed(w, BOB, "b");
    OpeningAllowed(Heard(w, BOB, "b"), BOB, "b");
    ReplyAllowed(w', FAILURE);
    Follow(w, es, [w, Heard(w, BOB, "b"), w', Step(CFG, w', FAILURE)]);
  }

  // Every event is one the environment may produce, and yet the first
  // conversation ends up sending with nothing left to wake it.
  lemma SharedLineStrands()
    ensures exists es :: AllowedRun(CFG, Empty, es) && Stranded(Run(CFG, Empty, es), ALICE)
  {
    hide Step, Allowed, Stalled, Stranded;
    var first, second := Opening(ALICE, "a") + [REPLY], Opening(BOB, "b") + [FAILURE];
    FirstHalf(first);
    SecondHalf(Run(CFG, Empty, first), second);
    RunOn(CFG, Empty, first, second);
  }

  lemma AskedAdds(w: World, k: Key, handle: Handle)
    ensures var w' := Asked(w, k, handle);
            && k in w'.chats && w'.chats[k].handle == None && HistoryOf(w', k).stamp == 0
            && w'.retry == w.retry && forall o :: o != k && o in w.records ==> o in w'.records && w'.records[o] == w.records[o]
  {
  }

  lemma OpeningAllowed(w: World, k: Key, handle: Handle)
    ensures Allowed(w, Opening(k, handle)[0]) && Allowed(w, Opening(k, handle)[1])
  {
  }

  lemma ReplyAllowed(w: World, e: Event)
    requires e.ChatReturns? && e.results == SmsLimitReached && HistoryOf(w, e.key).stamp < e.now
    requires e.reply == Failed || e.reply == Replied([HELLO])
    ensures Allowed(w, e)
  {
  }

  lemma FailureStrands(w: World, failure: Event)
    requires failure == ChatReturns(BOB, Failed, 2, 0, SmsLimitReached) && BOB in w.chats && w.chats[BOB].handle == None
    requires ALICE in w.records && w.records[ALICE].state == Sending && w.records[ALICE].handle == None && ALICE !in w.retry
    ensures Stranded(Step(CFG, w, failure), ALICE)
  {
  }

  lemma {:induction false} Follow(w: World, es: seq<Event>, ws: seq<World>)
    requires |ws| == |es| + 1 && ws[0] == w
    requires forall i :: 0 <= i < |es| ==> Allowed(ws[i], es[i]) && ws[i + 1] == Step(CFG, ws[i], es[i])
    ensures AllowedRun(CFG, w, es) && Run(CFG, w, es) == ws[|es|]
    decreases |es|
  {
    hide Step, Allowed;
    if es != [] {
      Follow(ws[1], es[1..], ws[1..]);
    }
  }
}
