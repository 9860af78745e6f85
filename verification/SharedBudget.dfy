// A run that sends one item more often than its retry budgets allow: two
// conversations share a line, and the second one's delivery resets the line's
// stall counter while the first one's item is in flight for the second time.
module SharedBudget {
  import opened Wrappers
  import opened StatusTracker
  import opened ErrorClass
  import opened ConversationTypes
  import opened History
  import opened ConversationModel
  import opened ConversationInvariant
  import opened ConversationSteps
  import opened ConversationRuns
  import opened ConversationBudget

  // No transient retry, one stall: two sends for each item.
  const CFG := Config(2, 80, true, true, 0, 1, 1000, true, true)
  const ALICE := Direct("line", "alice")
  const BOB := Direct("line", "bob")
  const HELLO := QueuedAction(Message, Some("x"), None, None, None, None)
  const EXPECTED := Expected(ItemId(1, 0), 0)

  function SmsLimitReached(p: nat): SendResult {
    Threw(ApiError(400, Some("SMS_LIMIT_REACHED")))
  }

  const REFUSED := SmsLimitReached(0)
  const IN_FLIGHT := Returned(Some("a1"))

  function Delivers(handle: Handle): Results {
    p => Returned(Some(handle))
  }

  // The one message of a conversation is waiting for its reply, and later the
  // one item of the reply for its callback, its retry or its stall.
  function Asked(handle: Handle): Record {
    Record(Processing, IMessage, false, [Inbound(handle, "hi")], [], [handle], [], [], [], 0, None, 0)
  }

  function AskedHistory(handle: Handle): History {
    History([], 0, Turn([Inbound(handle, "hi")], [[Inbound(handle, "hi")]], Waiting, [], []))
  }

  function InFlight(handle: Handle, sent: Option<Handle>): Record {
    Record(Sending, IMessage, false, [], [], [handle], [Item(ItemId(1, 0), HELLO, sent, 0, false)], [], [], 0, sent, 0)
  }

  // The item was requested once for every answer.
  function SentFor(handle: Handle, answers: seq<SendResult>): History {
    History([], 1, Turn([Inbound(handle, "hi")], [[Inbound(handle, "hi")]], Answered, [HELLO], Requests(answers)))
  }

  function Requests(answers: seq<SendResult>): (log: seq<Outbound>)
    ensures Count(log, 0) == |answers|
  {
    if answers == [] then []
    else
      var n := |answers| - 1;
      var log := Requests(answers[..n]);
      CountAfter(log, Sent(0, None, answers[n]), 0);
      log + [Sent(0, None, answers[n])]
  }

  lemma RequestsNext(answers: seq<SendResult>, answer: SendResult)
    ensures Requests(answers + [answer]) == Requests(answers) + [Sent(0, None, answer)]
  {
    assert (answers + [answer])[..|answers|] == answers;
  }

  function Arrives(k: Key, handle: Handle): Event {
    Receives(k, Inbound(handle, "hi"), IMessage, false, Accepted, 1, 0)
  }

  function Answers(k: Key, results: Results): Event {
    ChatReturns(k, Replied([HELLO]), 1, 0, results)
  }

  function Reports(handle: Handle, status: Status, code: Option<string>): Event {
    StatusArrives(Callback(handle, status, IMessage, false, code), SmsLimitReached)
  }

  // --- single steps ------------------------------------------------------

  lemma ArrivalAsks(w: World, k: Key, handle: Handle)
    requires k !in w.records && k !in w.history && handle !in w.claims
    ensures var w' := Step(CFG, w, Arrives(k, handle));
            w' == w.(claims := w.claims[handle := 1001], buffer := w.buffer - {k}, records := w.records[k := Asked(handle)],
                     chats := w.chats[k := Asked(handle)], history := w.history[k := AskedHistory(handle)])
    ensures Allowed(w, Arrives(k, handle))
  {
    hide Schedule;
    var m := Inbound(handle, "hi");
    var w1 := w.(claims := w.claims[handle := 1001]);
    var r := IdleRecord(IMessage);
    var r1 := OpenBuffer(r, m);
    var h := History([], 0, NoTurn.(accepted := [m]));
    assert AcceptInbound(CFG, w1, k, r, m, 0) == Schedule(Remember(Persist(w1, k, r1), k, h), k, 0);
    assert Step(CFG, w, Arrives(k, handle)) == AcceptInbound(CFG, w1, k, r, m, 0);
    ProcessesAtOnce(w1, k, r1, h);
    assert r1.(state := Processing) == Asked(handle) && Request(h, [m]) == AskedHistory(handle);
  }

  lemma ProcessesAtOnce(w: World, k: Key, r: Record, h: History)
    requires r.state == Buffering && r.inboundBuffer != []
    ensures var r' := r.(state := Processing);
            Schedule(Remember(Persist(w, k, r), k, h), k, 0) ==
            w.(buffer := w.buffer - {k}, records := w.records[k := r'], chats := w.chats[k := r'],
               history := w.history[k := Request(h, r.inboundBuffer)])
  {
    assert w.records[k := r][k := r.(state := Processing)] == w.records[k := r.(state := Processing)];
    assert w.history[k := h][k := Request(h, r.inboundBuffer)] == w.history[k := Request(h, r.inboundBuffer)];
  }

  // The item is requested once more.
  function RequestedAgain(w: World, k: Key, handle: Handle, answers: seq<SendResult>, answer: SendResult): World {
    w.(history := w.history[k := SentFor(handle, answers + [answer])])
  }

  lemma SendRequests(w: World, k: Key, handle: Handle, r: Record, answers: seq<SendResult>,
                     results: Results)
    requires |r.queue| == 1 && r.index == 0 && r.queue[0] == Item(ItemId(1, 0), HELLO, r.queue[0].messageHandle, 0, false)
    requires k in w.history && w.history[k] == SentFor(handle, answers) && k.Direct?
    ensures SendFrom(CFG, w, k, r, results) == AfterAttempt(CFG, RequestedAgain(w, k, handle, answers, results(0)), k, r, results)
  {
    hide AfterAttempt;
    assert !Unsendable(CFG, k, r, HELLO) by { assert HELLO.content.value[0] == 'x'; }
    RequestsNext(answers, results(0));
    assert Attempted(w, k, r, results(0)) == RequestedAgain(w, k, handle, answers, results(0));
  }

  lemma AnswerRequests(w: World, k: Key, handle: Handle, results: Results)
    requires k in w.records && w.records[k] == Asked(handle) && k in w.chats && k.Direct?
    requires k in w.history && w.history[k] == AskedHistory(handle)
    ensures var w1 := w.(chats := w.chats - {k}, records := w.records[k := InFlight(handle, None)]);
            Step(CFG, w, Answers(k, results)) ==
            AfterAttempt(CFG, RequestedAgain(w1, k, handle, [], results(0)), k, InFlight(handle, None), results)
    ensures HistoryOf(w, k).stamp < 1
  {
    hide AfterAttempt, SendFrom;
    var w1 := w.(chats := w.chats - {k}, records := w.records[k := InFlight(handle, None)]);
    assert Handles([Inbound(handle, "hi")]) == [handle];
    assert BuildQueue([HELLO], [handle], 1) == InFlight(handle, None).queue;
    assert StartSending(Asked(handle), [HELLO], 1) == InFlight(handle, None);
    var w2 := w1.(history := w.history[k := SentFor(handle, [])]);
    SendRequests(w2, k, handle, InFlight(handle, None), [], results);
    assert w.history[k := SentFor(handle, [])][k := SentFor(handle, [] + [results(0)])] == w.history[k := SentFor(handle, [] + [results(0)])];
  }

  lemma Stalls(w: World, k: Key, r: Record)
    requires r.index == 0 && |r.queue| == 1 && r.queue[0].id == ItemId(1, 0) && r.queue[0].retryCount == 0
    requires StallAttempts(w, k.line) == 0
    ensures AfterAttempt(CFG, w, k, r, SmsLimitReached) ==
            w.(stallCount := w.stallCount[k.line := 1], stalls := w.stalls[k.line := Stall(k, EXPECTED)])
  {
    assert Judge(CFG, Current(r), SmsLimitReached(0)) == TryStall;
  }

  lemma IsDelivered(w: World, k: Key, handle: Handle, r: Record, h: Handle)
    requires r == InFlight(handle, None) && h != ""
    ensures AfterAttempt(CFG, w, k, r, Delivers(h)) ==
            w.(records := w.records[k := InFlight(handle, Some(h))], mapping := w.mapping[h := Slot(k, 0)],
               delivery := w.delivery[h := k], issued := w.issued + {h})
  {
    assert Judge(CFG, Current(r), Delivers(h)(0)) == Verdict.InFlight(h);
    assert SentRecord(r, Some(h)) == InFlight(handle, Some(h));
  }

  lemma AllowedSends(w: World, k: Key, h: Handle)
    requires h !in w.issued && HistoryOf(w, k).stamp < 1
    ensures Allowed(w, Answers(k, Delivers(h))) && Allowed(w, Answers(k, SmsLimitReached))
  {
  }

  // --- the run -----------------------------------------------------------

  // The first conversation waits for the line, its item requested once for every
  // answer.
  ghost predicate WaitsForLine(w: World, answers: seq<SendResult>) {
    && ALICE in w.records && w.records[ALICE] == InFlight("a", None)
    && ALICE in w.history && w.history[ALICE] == SentFor("a", answers)
    && "line" in w.stalls && w.stalls["line"] == Stall(ALICE, EXPECTED)
  }

  // The item is requested again when the timer fires.
  lemma TimerRequests(w: World, answers: seq<SendResult>, h: Handle)
    requires WaitsForLine(w, answers) && h != "" && h !in w.issued
    ensures var w' := Step(CFG, w, StallFires("line", Delivers(h)));
            w' == w.(stalls := w.stalls - {"line"}, history := w.history[ALICE := SentFor("a", answers + [Returned(Some(h))])],
                     records := w.records[ALICE := InFlight("a", Some(h))], mapping := w.mapping[h := Slot(ALICE, 0)],
                     delivery := w.delivery[h := ALICE], issued := w.issued + {h})
    ensures Allowed(w, StallFires("line", Delivers(h)))
  {
    hide SendFrom, AfterAttempt;
    var w1 := w.(stalls := w.stalls - {"line"});
    SendRequests(w1, ALICE, "a", InFlight("a", None), answers, Delivers(h));
    IsDelivered(RequestedAgain(w1, ALICE, "a", answers, Returned(Some(h))), ALICE, "a", InFlight("a", None), h);
  }

  lemma FirstStall()
    ensures var es := [Arrives(ALICE, "a"), Answers(ALICE, SmsLimitReached)];
            var w := Run(CFG, Empty, es);
            && AllowedRun(CFG, Empty, es) && WaitsForLine(w, [REFUSED])
            && w.records.Keys == {ALICE} && w.history.Keys == {ALICE} && w.claims.Keys == {"a"} && w.issued == {}
            && w.mapping == map[] && w.delivery == map[]
  {
    hide Step, Allowed, AfterAttempt;
    var e1, e2 := Arrives(ALICE, "a"), Answers(ALICE, SmsLimitReached);
    var w1 := Step(CFG, Empty, e1);
    ArrivalAsks(Empty, ALICE, "a");
    AnswerRequests(w1, ALICE, "a", SmsLimitReached);
    AllowedSends(w1, ALICE, "x");
    var w2 := w1.(chats := w1.chats - {ALICE}, records := w1.records[ALICE := InFlight("a", None)]);
    Stalls(RequestedAgain(w2, ALICE, "a", [], REFUSED), ALICE, InFlight("a", None));
    TwoSteps(Empty, e1, e2);
  }

  lemma TwoSteps(w: World, e1: Event, e2: Event)
    requires Allowed(w, e1) && Allowed(Step(CFG, w, e1), e2)
    ensures AllowedRun(CFG, w, [e1, e2]) && Run(CFG, w, [e1, e2]) == Step(CFG, Step(CFG, w, e1), e2)
  {
    hide Step, Allowed;
    var w1 := Step(CFG, w, e1);
    assert [e1, e2][1..] == [e2] && [e2][1..] == [];
    assert AllowedRun(CFG, w1, [e2]) && Run(CFG, w1, [e2]) == Run(CFG, Step(CFG, w1, e2), []);
  }

  // The second conversation gets a message into flight.
  lemma SecondSends(w: World)
    requires WaitsForLine(w, [REFUSED]) && BOB !in w.records && BOB !in w.history && "b" !in w.claims && w.issued == {}
    ensures var es := [Arrives(BOB, "b"), Answers(BOB, Delivers("b1"))];
            var w' := Run(CFG, w, es);
            && AllowedRun(CFG, w, es) && WaitsForLine(w', [REFUSED]) && w'.issued == {"b1"}
            && "b1" in w'.mapping && w'.mapping["b1"] == Slot(BOB, 0)
            && BOB in w'.records && w'.records[BOB] == InFlight("b", Some("b1"))
            && BOB in w'.history && w'.history[BOB] == SentFor("b", [Returned(Some("b1"))])
  {
    hide Step, Allowed, AfterAttempt;
    var e1, e2 := Arrives(BOB, "b"), Answers(BOB, Delivers("b1"));
    var w1 := Step(CFG, w, e1);
    ArrivalAsks(w, BOB, "b");
    AnswerRequests(w1, BOB, "b", Delivers("b1"));
    AllowedSends(w1, BOB, "b1");
    var w2 := w1.(chats := w1.chats - {BOB}, records := w1.records[BOB := InFlight("b", None)]);
    IsDelivered(RequestedAgain(w2, BOB, "b", [], Returned(Some("b1"))), BOB, "b", InFlight("b", None), "b1");
    TwoSteps(w, e1, e2);
  }

  // Its delivery resets the line's counter and touches nothing of the first.
  lemma DeliveryResets(w: World)
    requires "b1" in w.mapping && w.mapping["b1"] == Slot(BOB, 0)
    requires BOB in w.records && w.records[BOB] == InFlight("b", Some("b1"))
    ensures var w' := Step(CFG, w, Reports("b1", DELIVERED, None));
            && StallAttempts(w', "line") == 0 && w'.issued == w.issued
            && w'.mapping == w.mapping - {"b1"}
            && w'.records.Keys == w.records.Keys && (forall k :: k in w.records && k != BOB ==> w'.records[k] == w.records[k])
            && w'.history.Keys == w.history.Keys + {BOB} && (forall k :: k in w.history && k != BOB ==> w'.history[k] == w.history[k])
    ensures Allowed(w, Reports("b1", DELIVERED, None))
  {
    hide SendFrom, ToIdle, Advance;
    var r := InFlight("b", Some("b1"));
    assert ApplyChannel(r, IMessage, false) == r;
    var w1 := Advance(CFG, ClearHandle(w, "b1"), BOB, r, Confirmed);
    AdvanceResets(ClearHandle(w, "b1"), r);
    EndIdles(w1, AdvanceRecord(r));
  }

  lemma AdvanceResets(w: World, r: Record)
    ensures var w' := Advance(CFG, w, BOB, r, Confirmed);
            && StallAttempts(w', "line") == 0 && w'.issued == w.issued && w'.mapping == w.mapping
            && w'.records == w.records[BOB := AdvanceRecord(r)]
            && w'.history.Keys == w.history.Keys + {BOB} && (forall k :: k in w.history && k != BOB ==> w'.history[k] == w.history[k])
  {
  }

  lemma EndIdles(w: World, r: Record)
    requires r.index >= |r.queue| && r.handle == None && StallAttempts(w, "line") == 0
    ensures var w' := SendFrom(CFG, w, BOB, r, SmsLimitReached);
            && StallAttempts(w', "line") == 0 && w'.issued == w.issued && w'.mapping == w.mapping
            && w'.records == w.records[BOB := ToIdleRecord(r)] && w'.history == w.history
  {
  }

  // The callback of the first conversation's second request stalls it again.
  lemma CallbackStalls(w: World, answers: seq<SendResult>)
    requires ALICE in w.records && w.records[ALICE] == InFlight("a", Some("a1")) && StallAttempts(w, "line") == 0
    requires ALICE in w.history && w.history[ALICE] == SentFor("a", answers)
    requires "a1" in w.mapping && w.mapping["a1"] == Slot(ALICE, 0)
    ensures var w' := Step(CFG, w, Reports("a1", ERROR, Some("SMS_LIMIT_REACHED")));
            WaitsForLine(w', answers) && w'.issued == w.issued
    ensures Allowed(w, Reports("a1", ERROR, Some("SMS_LIMIT_REACHED")))
  {
    hide FailedStatus;
    var r := InFlight("a", Some("a1"));
    assert ApplyChannel(r, IMessage, false) == r;
    FailureStalls(w, r, Callback("a1", ERROR, IMessage, false, Some("SMS_LIMIT_REACHED")));
  }

  lemma FailureStalls(w: World, r: Record, c: Callback)
    requires r == InFlight("a", Some("a1")) && c.errorCode == Some("SMS_LIMIT_REACHED") && StallAttempts(w, "line") == 0
    ensures FailedStatus(CFG, w, ALICE, r, c) ==
            ArmStall(Persist(ClearHandle(w, c.handle), ALICE, InFlight("a", None)), ALICE, InFlight("a", None).queue[0])
  {
    hide ArmStall, AbortQueue;
    assert ClassifyStatusErrorCode(c.errorCode) == SmsLimited;
    assert WithCurrent(r, Current(r).(messageHandle := None)).(handle := None) == InFlight("a", None);
    assert CanStall(CFG, Persist(ClearHandle(w, c.handle), ALICE, InFlight("a", None)), "line");
  }

  const TAIL := [
    StallFires("line", Delivers("a1")),
    Reports("b1", DELIVERED, None),
    Reports("a1", ERROR, Some("SMS_LIMIT_REACHED")),
    StallFires("line", Delivers("a2"))]

  lemma ThirdRequest(w: World)
    requires WaitsForLine(w, [REFUSED]) && w.issued == {"b1"} && "b1" in w.mapping && w.mapping["b1"] == Slot(BOB, 0)
    requires BOB in w.records && w.records[BOB] == InFlight("b", Some("b1")) && BOB in w.history
    ensures AllowedRun(CFG, w, TAIL)
    ensures var w' := Run(CFG, w, TAIL);
            ALICE in w'.records && ALICE in w'.history && w'.history[ALICE] == SentFor("a", [REFUSED, IN_FLIGHT] + [Returned(Some("a2"))])
  {
    hide Step, Allowed;
    TimerRequests(w, [REFUSED], "a1");
    var w1 := Step(CFG, w, TAIL[0]);
    DeliveryResets(w1);
    var w2 := Step(CFG, w1, TAIL[1]);
    assert [REFUSED] + [IN_FLIGHT] == [REFUSED, IN_FLIGHT];
    CallbackStalls(w2, [REFUSED, IN_FLIGHT]);
    var w3 := Step(CFG, w2, TAIL[2]);
    TimerRequests(w3, [REFUSED, IN_FLIGHT], "a2");
    TwoSteps(w, TAIL[0], TAIL[1]);
    TwoSteps(w2, TAIL[2], TAIL[3]);
    RunOn(CFG, w, [TAIL[0], TAIL[1]], [TAIL[2], TAIL[3]]);
    assert [TAIL[0], TAIL[1]] + [TAIL[2], TAIL[3]] == TAIL;
  }

  ghost predicate Overspent(w: World, k: Key) {
    k in w.records && Count(HistoryOf(w, k).turn.log, 0) > MaxSends(CFG)
  }

  // Every event is one the environment may produce, and yet the first
  // conversation's one item is requested three times, where its budgets allow
  // two.
  lemma SharedLineOverspends()
    ensures exists es :: AllowedRun(CFG, Empty, es) && Overspent(Run(CFG, Empty, es), ALICE)
  {
    hide Step, Allowed;
    var first := [Arrives(ALICE, "a"), Answers(ALICE, SmsLimitReached)];
    var second := [Arrives(BOB, "b"), Answers(BOB, Delivers("b1"))];
    FirstStall();
    var w := Run(CFG, Empty, first);
    SecondSends(w);
    ThirdRequest(Run(CFG, w, second));
    RunOn(CFG, w, second, TAIL);
    RunOn(CFG, Empty, first, second + TAIL);
    assert Overspent(Run(CFG, Empty, first + (second + TAIL)), ALICE);
  }
}
