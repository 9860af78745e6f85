// What a chat reply means: which actions are read from it, in which order, and
// what is queued for them.
module ChatMeaning {
  import opened Wrappers
  import opened Text
  import opened ChatActions
  import opened ChatReading
  import opened ChatContract
  import Conversation = ConversationTypes

  // --- texts in order ----------------------------------------------------

  // Reading two lists of texts put together gives what the one gives, followed by
  // what the other gives.
  lemma {:induction false} TextsOfBoth(first: seq<Json>, second: seq<Json>, find: Finder)
    ensures ReadTexts(first + second, find) == ReadTexts(first, find) + ReadTexts(second, find)
  {
    hide TextActions;
    if first == [] {
      assert first + second == second;
    } else {
      assert (first + second)[1..] == first[1..] + second;
      TextsOfBoth(first[1..], second, find);
    }
  }

  // At its place among the others a text gives the actions of its pieces when it
  // has tags, itself as a message when it has none, and nothing when it is blank
  // or no text at all.
  lemma TextAtItsPlace(before: seq<Json>, text: Json, after: seq<Json>, find: Finder)
    ensures ReadTexts(before + [text] + after, find) ==
            ReadTexts(before, find)
            + (if !text.JStr? || Blank(text.text) then []
               else match find(text.text)
                    case Some(pieces) => PieceActions(pieces)
                    case None => [Message(text.text, None, None)])
            + ReadTexts(after, find)
  {
    hide ReadTexts, TextActions;
    TextsOfBoth(before + [text], after, find);
    TextsOfBoth(before, [text], find);
    OneText(text, find);
  }

  lemma OneText(text: Json, find: Finder)
    ensures ReadTexts([text], find) ==
            if !text.JStr? || Blank(text.text) then []
            else match find(text.text)
                 case Some(pieces) => PieceActions(pieces)
                 case None => [Message(text.text, None, None)]
  {
    hide Blank;
    assert [text][1..] == [];
    assert TextActions(text, find) + [] == TextActions(text, find);
  }

  predicate SaysSomething(text: Json) {
    text.JStr? && !Blank(text.text)
  }

  // The actions are the plain messages of the texts that say something, in
  // order: at[i] is the text the i-th action comes from.
  ghost predicate TextsPicked(texts: seq<Json>, actions: seq<ChatAction>, at: seq<nat>) {
    && |at| == |actions|
    && (forall i :: 0 <= i < |at| ==>
          && at[i] < |texts| && SaysSomething(texts[at[i]])
          && actions[i] == Message(texts[at[i]].text, None, None))
    && (forall i, j :: 0 <= i < j < |at| ==> at[i] < at[j])
    && (forall k :: 0 <= k < |texts| && SaysSomething(texts[k]) ==> k in at)
  }

  lemma {:induction false} PlainTexts(texts: seq<Json>, find: Finder) returns (at: seq<nat>)
    requires forall i :: 0 <= i < |texts| ==> NoTags(texts[i], find)
    ensures TextsPicked(texts, ReadTexts(texts, find), at)
  {
    hide Blank, ReadTexts, TextActions, NoTags;
    if texts == [] {
      at := [];
      NoTexts(find);
    } else {
      var n := |texts| - 1;
      var before := PlainTexts(texts[..n], find);
      assert texts == texts[..n] + [texts[n]];
      TextsOfBoth(texts[..n], [texts[n]], find);
      OneText(texts[n], find);
      assert NoTags(texts[n], find);
      Untagged1(texts[n], find);
      if SaysSomething(texts[n]) {
        at := before + [n];
        TextPicked(texts, ReadTexts(texts[..n], find), before);
      } else {
        at := before;
        TextPassedOver(texts, ReadTexts(texts[..n], find), before);
      }
    }
  }

  lemma Untagged1(text: Json, find: Finder)
    requires NoTags(text, find)
    ensures text.JStr? && !Blank(text.text) ==> find(text.text) == None
  {
  }

  lemma NoTexts(find: Finder)
    ensures ReadTexts([], find) == []
  {
  }

  lemma TextPicked(texts: seq<Json>, actions: seq<ChatAction>, before: seq<nat>)
    requires texts != [] && TextsPicked(texts[..|texts| - 1], actions, before) && SaysSomething(texts[|texts| - 1])
    ensures TextsPicked(texts, actions + [Message(texts[|texts| - 1].text, None, None)], before + [|texts| - 1])
  {
    hide Blank;
    var n := |texts| - 1;
    var at := before + [n];
    assert at[|before|] == n;
    forall k | 0 <= k < n && SaysSomething(texts[k]) ensures k in at {
      assert texts[..n][k] == texts[k] && k in before;
    }
  }

  lemma TextPassedOver(texts: seq<Json>, actions: seq<ChatAction>, at: seq<nat>)
    requires texts != [] && TextsPicked(texts[..|texts| - 1], actions, at) && !SaysSomething(texts[|texts| - 1])
    ensures TextsPicked(texts, actions, at)
  {
    hide Blank;
    forall k | 0 <= k < |texts| - 1 && SaysSomething(texts[k]) ensures k in at {
      assert texts[..|texts| - 1][k] == texts[k];
    }
  }

  // A reply of texts without tags is read as those of them that say something,
  // in order, and queued so.
  lemma PlainReply(payload: Json, find: Finder) returns (at: seq<nat>)
    requires payload.JObj? && !Field(payload.fields, "actions").JArr? && !Says(payload.fields, "silence")
    requires Field(payload.fields, "messages").JArr?
    requires var texts := Field(payload.fields, "messages").items; forall i :: 0 <= i < |texts| ==> NoTags(texts[i], find)
    ensures var texts, read := Field(payload.fields, "messages").items, NormalizeChatResponse(payload, find);
            && read.Ok? && !read.reply.silence && read.reply.warnings == [] && TextsPicked(texts, read.reply.actions, at)
    ensures var texts, queue := Field(payload.fields, "messages").items, ResponseActions(payload, find);
            && queue.Some? && |queue.value| == |at|
            && forall i :: 0 <= i < |at| ==>
                 && at[i] < |texts| && texts[at[i]].JStr?
                 && queue.value[i] == Conversation.QueuedAction(Conversation.Message, Some(texts[at[i]].text), None, None, None, None)
  {
    hide Blank, ReadTexts, NoTags;
    var texts := Field(payload.fields, "messages").items;
    at := PlainTexts(texts, find);
    PickedAreMessages(texts, ReadTexts(texts, find), at);
  }

  lemma PickedAreMessages(texts: seq<Json>, actions: seq<ChatAction>, at: seq<nat>)
    requires TextsPicked(texts, actions, at)
    ensures Silence !in actions
  {
    hide Blank;
  }

  // So is a reply of one text.
  lemma PlainMessage(payload: Json, find: Finder)
    requires payload.JObj? && !Field(payload.fields, "actions").JArr? && !Says(payload.fields, "silence")
    requires !Field(payload.fields, "messages").JArr? && Field(payload.fields, "message").JStr?
    requires NoTags(Field(payload.fields, "message"), find)
    ensures var text := Field(payload.fields, "message").text;
            NormalizeChatResponse(payload, find) ==
            Ok(ChatReply(if Blank(text) then [] else [Message(text, None, None)], false, []))
  {
    hide Blank;
  }

  // --- structured actions in order ---------------------------------------

  lemma {:induction false} ActionsOfBoth(first: seq<Json>, second: seq<Json>)
    ensures ReadActions(first + second) == ReadActions(first) + ReadActions(second)
    ensures ReadWarnings(first + second) == ReadWarnings(first) + ReadWarnings(second)
  {
    hide NormalizeAction;
    if first == [] {
      assert first + second == second;
    } else {
      assert (first + second)[1..] == first[1..] + second;
      ActionsOfBoth(first[1..], second);
    }
  }

  // Each structured action gives itself, or one warning, at its place.
  lemma ActionAtItsPlace(before: seq<Json>, item: Json, after: seq<Json>)
    ensures ReadActions(before + [item] + after) ==
            ReadActions(before) + (match NormalizeAction(item) case Accepted(a) => [a] case Refused(_) => []) + ReadActions(after)
    ensures ReadWarnings(before + [item] + after) ==
            ReadWarnings(before) + (match NormalizeAction(item) case Accepted(_) => [] case Refused(w) => [w]) + ReadWarnings(after)
    ensures |ReadActions(before)| + |ReadWarnings(before)| == |before|
  {
    hide ReadActions, ReadWarnings, NormalizeAction;
    ActionsOfBoth(before + [item], after);
    ActionsOfBoth(before, [item]);
    OneAction(item);
    NoneIsLost(before);
  }

  lemma OneAction(item: Json)
    ensures ReadActions([item]) == match NormalizeAction(item) case Accepted(a) => [a] case Refused(_) => []
    ensures ReadWarnings([item]) == match NormalizeAction(item) case Accepted(_) => [] case Refused(w) => [w]
  {
    hide NormalizeAction;
    assert [item][1..] == [];
  }

  lemma {:induction false} NoneIsLost(items: seq<Json>)
    ensures |ReadActions(items)| + |ReadWarnings(items)| == |items|
  {
    hide NormalizeAction;
    if items != [] { NoneIsLost(items[1..]); }
  }

  // --- which part of a reply counts --------------------------------------

  // Structured actions win: two replies with the same ones are read alike,
  // whatever texts come with them.
  lemma ActionsWin(fields: map<string, Json>, other: map<string, Json>, find: Finder, otherFind: Finder)
    requires Field(fields, "actions").JArr? && Field(other, "actions") == Field(fields, "actions")
    requires !Says(fields, "silence") && !Says(other, "silence")
    ensures NormalizeChatResponse(JObj(fields), find) == NormalizeChatResponse(JObj(other), otherFind)
    ensures var items, read := Field(fields, "actions").items, NormalizeChatResponse(JObj(fields), find);
            && read.Ok?
            && (Silence !in ReadActions(items) ==> read.reply == ChatReply(ReadActions(items), false, ReadWarnings(items)))
  {
    hide ReadActions, ReadWarnings;
  }

  // Without structured actions or silence a list of messages wins over a single
  // one.
  lemma MessagesWin(fields: map<string, Json>, other: map<string, Json>, find: Finder)
    requires !Field(fields, "actions").JArr? && !Field(other, "actions").JArr?
    requires !Says(fields, "silence") && !Says(other, "silence")
    requires Field(fields, "messages").JArr? && Field(other, "messages") == Field(fields, "messages")
    ensures NormalizeChatResponse(JObj(fields), find) == NormalizeChatResponse(JObj(other), find)
    ensures var texts, read := Field(fields, "messages").items, NormalizeChatResponse(JObj(fields), find);
            && read.Ok?
            && (Silence !in ReadTexts(texts, find) ==> read.reply == ChatReply(ReadTexts(texts, find), false, []))
  {
    hide ReadTexts;
  }

  // Something is said beside the silence.
  ghost predicate SaysMore(fields: map<string, Json>) {
    || ("message" in fields && fields["message"].JStr? && !Blank(fields["message"].text))
    || ("messages" in fields && fields["messages"].JArr?
        && exists i :: 0 <= i < |fields["messages"].items| && Speaks(fields["messages"].items[i]))
    || ("actions" in fields && fields["actions"].JArr? && |fields["actions"].items| > 0)
  }

  // A reply that asks for silence and says nothing more is silent; with anything
  // more it is dropped, and is not silent either.
  lemma SilenceAlone(fields: map<string, Json>, find: Finder)
    requires "silence" in fields && fields["silence"] == JBool(true)
    ensures NormalizeChatResponse(JObj(fields), find) ==
            if SaysMore(fields) then Ok(ChatReply([], false, [MixedSilence])) else Ok(ChatReply([], true, []))
    ensures ResponseActions(JObj(fields), find).Some? && |ResponseActions(JObj(fields), find).value| == 0
  {
    hide Speaks, ReadTexts, TextActions;
    MixesWhen(fields);
    if Field(fields, "actions").JArr? && !SaysMore(fields) {
      assert Field(fields, "actions").items == [];
      NothingToRead();
    }
  }

  lemma MixesWhen(fields: map<string, Json>)
    requires "silence" in fields && fields["silence"] == JBool(true)
    ensures MixesSilence(fields) <==> SaysMore(fields)
  {
    hide Blank;
  }

  // A silence action alone is silence; among others it drops the reply.
  lemma SilenceAmongActions(fields: map<string, Json>, find: Finder)
    requires !Says(fields, "silence") && NormalizeChatResponse(JObj(fields), find).Ok?
    ensures var raw, reply := RawActions(fields, find), NormalizeChatResponse(JObj(fields), find).reply;
            && (reply.silence <==> raw == [Silence])
            && reply.actions == (if Silence in raw then [] else raw)
            && (MixedSilence in reply.warnings <==> MixedSilence in RawWarnings(fields) || (Silence in raw && |raw| > 1))
  {
    hide RawActions, RawWarnings, Recognised;
    var raw := RawActions(fields, find);
    if Silence in raw && |raw| == 1 { assert raw == [Silence]; }
  }

  // A reply cannot be read exactly when it is no object, or has neither message,
  // messages, actions nor silence.
  lemma MalformedExactlyWhen(payload: Json, find: Finder)
    ensures NormalizeChatResponse(payload, find) == Malformed <==>
            || !payload.JObj?
            || (&& !Says(payload.fields, "silence") && !Field(payload.fields, "message").JStr?
                && !Field(payload.fields, "messages").JArr? && !Field(payload.fields, "actions").JArr?)
  {
    hide ReadActions, ReadWarnings, ReadTexts, Blank;
  }
}
