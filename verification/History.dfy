// What happened to each conversation, turn by turn.  The agent keeps no such
// record; the model writes it beside the state so that claims about whole runs
// can be stated.  A turn begins with the inbound message that opens a buffer
// and ends when the conversation goes idle or is interrupted.
module History {
  import opened Wrappers
  import opened ConversationTypes

  datatype Ending = Confirmed | TimedOut | Unconfirmed | Skipped | Cancelled | Aborted

  // The outbound log: a request made to Sendblue for one queue position, with
  // the inbound message it reacts to and the answer, or the end of a position.
  datatype Outbound = Sent(position: nat, target: Option<Handle>, answer: SendResult) | Ended(position: nat, ending: Ending)

  datatype Outcome = Waiting | ChatFailed | Answered

  datatype Turn = Turn(
    accepted: seq<Inbound>,        // inbound messages in arrival order
    requests: seq<seq<Inbound>>,   // the messages of each chat request
    outcome: Outcome,
    reply: seq<QueuedAction>,      // the actions of the reply acted on
    log: seq<Outbound>)

  datatype History = History(past: seq<Turn>, stamp: int, turn: Turn)

  const NoTurn := Turn([], [], Waiting, [], [])

  function NoHistory(): History {
    History([], 0, NoTurn)
  }

  function Begin(h: History, message: Inbound): History {
    History(if h.turn.accepted == [] then h.past else h.past + [h.turn], h.stamp,
            NoTurn.(accepted := [message]))
  }

  function Accept(h: History, message: Inbound): History {
    h.(turn := h.turn.(accepted := h.turn.accepted + [message]))
  }

  function Request(h: History, messages: seq<Inbound>): History {
    h.(turn := h.turn.(requests := h.turn.requests + [messages]))
  }

  function Fail(h: History): History {
    h.(turn := h.turn.(outcome := ChatFailed))
  }

  function Answer(h: History, stamp: int, actions: seq<QueuedAction>): History {
    h.(stamp := stamp, turn := h.turn.(outcome := Answered, reply := actions))
  }

  function Log(h: History, e: Outbound): History {
    h.(turn := h.turn.(log := h.turn.log + [e]))
  }

  function EndRest(h: History, from: nat, ending: Ending): History
    decreases |h.turn.reply| - from
  {
    if from >= |h.turn.reply| then h else EndRest(Log(h, Ended(from, ending)), from + 1, ending)
  }

  // The queue position an outbound log has reached: every position is sent any
  // number of times, then ended once, before the next one is touched.  None
  // when the log is not of that form.
  function Cursor(log: seq<Outbound>): Option<nat> {
    if log == [] then Some(0)
    else
      match Cursor(log[..|log| - 1])
      case None => None
      case Some(at) =>
        match log[|log| - 1]
        case Sent(p, _, _) => if p == at then Some(at) else None
        case Ended(p, _) => if p == at then Some(at + 1) else None
  }

  lemma CursorAfter(log: seq<Outbound>, e: Outbound)
    requires Cursor(log) == Some(e.position)
    ensures Cursor(log + [e]) == Some(if e.Sent? then e.position else e.position + 1)
  {
    assert (log + [e])[..|log|] == log;
  }

  lemma {:induction false} EndRestReachesSize(h: History, from: nat, ending: Ending)
    requires Cursor(h.turn.log) == Some(from) && from <= |h.turn.reply|
    ensures EndRest(h, from, ending) ==
            h.(turn := h.turn.(log := EndRest(h, from, ending).turn.log))
    ensures Cursor(EndRest(h, from, ending).turn.log) == Some(|h.turn.reply|)
    decreases |h.turn.reply| - from
  {
    if from < |h.turn.reply| {
      CursorAfter(h.turn.log, Ended(from, ending));
      EndRestReachesSize(Log(h, Ended(from, ending)), from + 1, ending);
    }
  }

  // What an accepted log means, position by position.

  lemma {:induction false} CursorPrefix(log: seq<Outbound>, n: nat)
    requires Cursor(log).Some? && n <= |log|
    ensures Cursor(log[..n]).Some? && Cursor(log[..n]).value <= Cursor(log).value
    ensures n < |log| ==> Cursor(log[..n]).value == log[n].position
  {
    if n == |log| {
      assert log[..n] == log;
    } else {
      var shorter := log[..|log| - 1];
      CursorPrefix(shorter, n);
      assert shorter[..n] == log[..n];
    }
  }

  // Positions appear in order: nothing of a later position precedes anything
  // of an earlier one.
  lemma LogIsOrdered(log: seq<Outbound>, i: nat, j: nat)
    requires Cursor(log).Some? && i < j < |log|
    ensures log[i].position <= log[j].position
    ensures log[i].Ended? ==> log[i].position < log[j].position
  {
    CursorPrefix(log, j);
    CursorPrefix(log, i + 1);
    var upTo := log[..j];
    CursorPrefix(upTo, i + 1);
    assert upTo[..i + 1] == log[..i + 1];
    CursorPrefix(log, i);
    assert log[..i + 1][..i] == log[..i];
  }

  ghost predicate EndsOnceAt(log: seq<Outbound>, position: nat, at: nat) {
    && at < |log| && log[at].Ended? && log[at].position == position
    && forall i :: 0 <= i < |log| && log[i].Ended? && log[i].position == position ==> i == at
  }

  // Every position below the cursor has ended, and ended once.
  lemma {:induction false} EndedOnce(log: seq<Outbound>, position: nat) returns (at: nat)
    requires Cursor(log).Some? && position < Cursor(log).value
    ensures EndsOnceAt(log, position, at)
  {
    var n := |log| - 1;
    var shorter := log[..n];
    if Cursor(shorter).value == position {
      at := n;
      forall i | 0 <= i < n && log[i].Ended?
        ensures log[i].position != position
      {
        LogIsOrdered(log, i, n);
      }
    } else {
      at := EndedOnce(shorter, position);
      assert forall i :: 0 <= i < n ==> shorter[i] == log[i];
    }
  }

  // A position is first sent only after every earlier one has ended.
  lemma SentAfterEarlierEnded(log: seq<Outbound>, j: nat, earlier: nat) returns (at: nat)
    requires Cursor(log).Some? && j < |log| && log[j].Sent? && earlier < log[j].position
    ensures at < j && EndsOnceAt(log, earlier, at)
  {
    CursorPrefix(log, j);
    at := EndedOnce(log[..j], earlier);
    var n := |log|;
    assert log[..j][at] == log[at];
    forall i | 0 <= i < n && log[i].Ended? && log[i].position == earlier
      ensures i == at
    {
      if i < at { LogIsOrdered(log, i, at); }
      if at < i { LogIsOrdered(log, at, i); }
    }
  }
}
