// src/chat/contract.ts and the agent's use of it: a chat reply is normalised by
// the client and once more by the agent before it becomes a queue.
module ChatContract {
  import opened Wrappers
  import opened Text
  import opened ChatActions
  import opened ChatReading
  import Conversation = ConversationTypes
  import Model = ConversationModel
  import Steps = ConversationSteps

  // The tags found in a text; None when there are none, or when tags are off.
  type Finder = string -> Option<seq<Piece>>

  datatype ChatReply = ChatReply(actions: seq<ChatAction>, silence: bool, warnings: seq<Warning>)
  datatype Contract = Ok(reply: ChatReply) | Malformed

  predicate Says(fields: map<string, Json>, key: string) {
    Field(fields, key) == JBool(true)
  }

  // A string with something in it.
  predicate Speaks(value: Json) {
    value.JStr? && !Blank(value.text)
  }

  predicate MixesSilence(fields: map<string, Json>) {
    var message, messages, actions := Field(fields, "message"), Field(fields, "messages"), Field(fields, "actions");
    && Says(fields, "silence")
    && (|| Speaks(message)
        || (messages.JArr? && exists i :: 0 <= i < |messages.items| && Speaks(messages.items[i]))
        || (actions.JArr? && actions.items != []))
  }

  function ReadActions(items: seq<Json>): seq<ChatAction> {
    if items == [] then []
    else
      match NormalizeAction(items[0])
      case Accepted(a) => [a] + ReadActions(items[1..])
      case Refused(_) => ReadActions(items[1..])
  }

  function ReadWarnings(items: seq<Json>): seq<Warning> {
    if items == [] then []
    else
      match NormalizeAction(items[0])
      case Accepted(_) => ReadWarnings(items[1..])
      case Refused(warning) => [warning] + ReadWarnings(items[1..])
  }

  function TextActions(text: Json, find: Finder): seq<ChatAction> {
    if !Speaks(text) then []
    else
      match find(text.text)
      case Some(pieces) => PieceActions(pieces)
      case None => [Message(text.text, None, None)]
  }

  function ReadTexts(texts: seq<Json>, find: Finder): seq<ChatAction> {
    if texts == [] then [] else TextActions(texts[0], find) + ReadTexts(texts[1..], find)
  }

  // The actions of a reply, before silence is looked at.
  function RawActions(fields: map<string, Json>, find: Finder): seq<ChatAction> {
    var message, messages, actions := Field(fields, "message"), Field(fields, "messages"), Field(fields, "actions");
    if actions.JArr? then ReadActions(actions.items)
    else if Says(fields, "silence") then [Silence]
    else if messages.JArr? then ReadTexts(messages.items, find)
    else TextActions(message, find)
  }

  function RawWarnings(fields: map<string, Json>): seq<Warning> {
    var actions := Field(fields, "actions");
    if actions.JArr? then ReadWarnings(actions.items) else []
  }

  predicate Recognised(fields: map<string, Json>) {
    Field(fields, "message").JStr? || Field(fields, "messages").JArr? || Field(fields, "actions").JArr?
  }

  function NormalizeChatResponse(payload: Json, find: Finder): Contract {
    if !payload.JObj? then Malformed
    else if MixesSilence(payload.fields) then Ok(ChatReply([], false, [MixedSilence]))
    else
      var raw, warnings := RawActions(payload.fields, find), RawWarnings(payload.fields);
      if Silence in raw && |raw| > 1 then Settle(payload.fields, [], warnings + [MixedSilence])
      else Settle(payload.fields, raw, warnings)
  }

  // A reply of actions, of silence, or of nothing.
  function Settle(fields: map<string, Json>, actions: seq<ChatAction>, warnings: seq<Warning>): Contract {
    if actions == [Silence] then Ok(ChatReply([], true, warnings))
    else if actions != [] then Ok(ChatReply(actions, false, warnings))
    else if Says(fields, "silence") then Ok(ChatReply([], true, warnings))
    else if Recognised(fields) then Ok(ChatReply([], false, warnings))
    else Malformed
  }

  // --- silence -----------------------------------------------------------

  // No normalised list of actions holds a silence action.
  lemma NoActionIsSilence(payload: Json, find: Finder)
    requires NormalizeChatResponse(payload, find).Ok?
    ensures Silence !in NormalizeChatResponse(payload, find).reply.actions
  {
    hide MixesSilence, RawActions, RawWarnings, Recognised, Says;
    var raw := RawActions(payload.fields, find);
    if Silence in raw && |raw| == 1 { assert raw == [Silence]; }
  }

  // --- the second pass ---------------------------------------------------

  function ActionsJson(actions: seq<ChatAction>): seq<Json> {
    if actions == [] then [] else [ActionJson(actions[0])] + ActionsJson(actions[1..])
  }

  // The object the client hands on: silence and warnings only when there are any.
  function ReplyJson(reply: ChatReply, warnings: Json): Json {
    var fields := map["actions" := JArr(ActionsJson(reply.actions))];
    var fields1 := if reply.silence then fields["silence" := JBool(true)] else fields;
    JObj(if reply.warnings != [] then fields1["warnings" := warnings] else fields1)
  }

  ghost predicate AllSettled(actions: seq<ChatAction>) {
    forall i :: 0 <= i < |actions| ==> Settled(actions[i])
  }

  lemma {:induction false} ActionsAreShorter(items: seq<Json>)
    ensures |ReadActions(items)| <= |items|
  {
    if items != [] { ActionsAreShorter(items[1..]); }
  }

  // A list of actions is read back as itself exactly when every one of them is.
  lemma {:induction false} ListReadBackExactlyWhen(actions: seq<ChatAction>)
    ensures ReadActions(ActionsJson(actions)) == actions <==> AllSettled(actions)
    ensures |ActionsJson(actions)| == |actions|
  {
    hide ActionJson, NormalizeAction, Settled;
    if actions != [] {
      var rest := actions[1..];
      ReadBackExactlyWhen(actions[0]);
      ListReadBackExactlyWhen(rest);
      ActionsAreShorter(ActionsJson(rest));
      var items := ActionsJson(actions);
      assert items[1..] == ActionsJson(rest);
      assert actions == [actions[0]] + rest;
      if AllSettled(rest) && Settled(actions[0]) {
        assert AllSettled(actions);
      } else {
        assert AllSettled(actions) ==> Settled(actions[0]);
        assert AllSettled(actions) ==> AllSettled(rest) by { RestSettled(actions); }
        OneOff(actions[0], rest, items);
      }
    }
  }

  lemma RestSettled(actions: seq<ChatAction>)
    requires actions != []
    ensures AllSettled(actions) ==> AllSettled(actions[1..])
  {
  }

  lemma OneOff(first: ChatAction, rest: seq<ChatAction>, items: seq<Json>)
    requires items != [] && |ReadActions(items[1..])| <= |rest|
    requires NormalizeAction(items[0]) != Accepted(first) || ReadActions(items[1..]) != rest
    ensures ReadActions(items) != [first] + rest
  {
    hide NormalizeAction;
    var read := ReadActions(items);
    match NormalizeAction(items[0]) {
      case Accepted(a) =>
        assert read[0] == a && read[1..] == ReadActions(items[1..]);
        assert ([first] + rest)[0] == first && ([first] + rest)[1..] == rest;
      case Refused(_) =>
    }
  }

  // An action that is not silence is not read as silence.
  lemma SilenceIsNotMade(a: ChatAction)
    requires a != Silence
    ensures NormalizeAction(ActionJson(a)) != Accepted(Silence)
  {
    hide ReadDraft, Decide, TargetJson, WithText, Field;
    KindsDiffer();
    match a {
      case Message(content, mediaUrl, style) =>
        KindRead("message", map["type" := JStr("message"), "content" := JStr(content)], "mediaUrl", mediaUrl, style);
      case Media(url, caption, style) =>
        KindRead("media", map["type" := JStr("media"), "mediaUrl" := JStr(url)], "content", caption, style);
      case Reply(target, content, mediaUrl, style) =>
        KindRead("reply", map["type" := JStr("reply"), "target" := TargetJson(target), "content" := JStr(content)],
                 "mediaUrl", mediaUrl, style);
      case Reaction(_, _) => ReactionRead(a);
    }
  }

  lemma KindDecides(d: Draft)
    ensures Decide(d) == Accepted(Silence) ==> d.kind == "silence"
  {
  }

  lemma KindRead(kind: string, base: map<string, Json>, key: string, text: Option<string>, style: Option<string>)
    requires "type" in base && base["type"] == JStr(kind) && key != "type" && kind != "silence"
    ensures NormalizeAction(JObj(WithText(WithText(base, key, text), "sendStyle", style))) != Accepted(Silence)
  {
    hide Decide, WithText, Field;
    KeysDiffer();
    FieldIs(base, "type");
    FieldOfText(base, key, text, "type");
    FieldOfText(WithText(base, key, text), "sendStyle", style, "type");
    KindDecides(ReadDraft(kind, WithText(WithText(base, key, text), "sendStyle", style)));
  }

  lemma ReactionRead(a: ChatAction)
    requires a.Reaction?
    ensures NormalizeAction(ActionJson(a)) != Accepted(Silence)
  {
    hide Decide, TargetJson;
    KeysDiffer();
    KindsDiffer();
    KindDecides(ReadDraft("reaction", ActionJson(a).fields));
  }

  lemma KindsDiffer()
    ensures "silence" !in {"message", "media", "reaction", "reply"}
  {
    assert "silence"[0] == 's';
  }

  lemma {:induction false} NoSilenceIsRead(actions: seq<ChatAction>)
    requires Silence !in actions
    ensures Silence !in ReadActions(ActionsJson(actions))
  {
    hide ActionJson, NormalizeAction;
    if actions != [] {
      SilenceIsNotMade(actions[0]);
      NoSilenceIsRead(actions[1..]);
      assert ActionsJson(actions)[1..] == ActionsJson(actions[1..]);
    }
  }

  lemma ReplyFields(reply: ChatReply, warnings: Json)
    ensures ReplyJson(reply, warnings).JObj?
    ensures var fields := ReplyJson(reply, warnings).fields;
            && Field(fields, "actions") == JArr(ActionsJson(reply.actions))
            && (Says(fields, "silence") <==> reply.silence)
            && Field(fields, "message") == JNull && Field(fields, "messages") == JNull
  {
    hide ActionsJson;
    assert "silence"[0] == 's' && "actions"[0] == 'a' && "warnings"[0] == 'w' && "message"[0] == 'm' && "messages"[0] == 'm';
  }

  // What the agent makes of the reply the client hands on.  It never fails, and
  // the silence flag stands.
  lemma SecondPassReads(reply: ChatReply, warnings: Json, find: Finder)
    requires Silence !in reply.actions && (reply.silence ==> reply.actions == [])
    ensures var again := NormalizeChatResponse(ReplyJson(reply, warnings), find);
            again.Ok? && again.reply.silence == reply.silence
            && again.reply.actions == ReadActions(ActionsJson(reply.actions))
  {
    hide ReplyJson, ReadActions, ActionsJson, ReadWarnings;
    ReplyFields(reply, warnings);
    var fields := ReplyJson(reply, warnings).fields;
    NoSilenceIsRead(reply.actions);
    NothingToRead();
    if reply.silence { assert !MixesSilence(fields); }
  }

  lemma NothingToRead()
    ensures ActionsJson([]) == [] && ReadActions([]) == []
  {
  }

  // The second pass never fails and never changes the silence flag; it keeps the
  // actions exactly when they are all settled.
  lemma SecondPassExactlyWhen(payload: Json, first: Finder, warnings: Json, second: Finder)
    requires NormalizeChatResponse(payload, first).Ok?
    ensures var reply := NormalizeChatResponse(payload, first).reply;
            var again := NormalizeChatResponse(ReplyJson(reply, warnings), second);
            && again.Ok? && again.reply.silence == reply.silence
            && (again.reply.actions == reply.actions <==> AllSettled(reply.actions))
  {
    hide ReplyJson, ReadActions, ActionsJson, AllSettled;
    var reply := NormalizeChatResponse(payload, first).reply;
    NoActionIsSilence(payload, first);
    assert reply.silence ==> reply.actions == [];
    SecondPassReads(reply, warnings, second);
    ListReadBackExactlyWhen(reply.actions);
  }

  // --- replies without tags ----------------------------------------------

  // The tag finder finds nothing in this text.
  predicate NoTags(text: Json, find: Finder) {
    Speaks(text) ==> find(text.text) == None
  }

  // The reply has structured actions or is silent, or no tags are found in the
  // texts it is read from.
  ghost predicate Untagged(payload: Json, find: Finder) {
    && payload.JObj?
    && var message, messages := Field(payload.fields, "message"), Field(payload.fields, "messages");
       || Field(payload.fields, "actions").JArr?
       || Says(payload.fields, "silence")
       || (if messages.JArr? then forall i :: 0 <= i < |messages.items| ==> NoTags(messages.items[i], find)
           else NoTags(message, find))
  }

  lemma {:induction false} StructuredListIsSettled(items: seq<Json>)
    ensures AllSettled(ReadActions(items))
  {
    hide NormalizeAction, Settled;
    if items != [] {
      StructuredListIsSettled(items[1..]);
      if NormalizeAction(items[0]).Accepted? { StructuredIsSettled(items[0]); }
    }
  }

  lemma TextIsSettled(text: Json, find: Finder)
    requires NoTags(text, find)
    ensures AllSettled(TextActions(text, find))
  {
    BlankIsNothing();
  }

  lemma {:induction false} TextsAreSettled(texts: seq<Json>, find: Finder)
    requires forall i :: 0 <= i < |texts| ==> NoTags(texts[i], find)
    ensures AllSettled(ReadTexts(texts, find))
  {
    hide TextActions, Settled, NoTags;
    if texts != [] {
      assert forall i :: 0 <= i < |texts[1..]| ==> texts[1..][i] == texts[i + 1];
      TextIsSettled(texts[0], find);
      TextsAreSettled(texts[1..], find);
    }
  }

  lemma UntaggedIsSettled(payload: Json, find: Finder)
    requires Untagged(payload, find) && NormalizeChatResponse(payload, find).Ok?
    ensures AllSettled(NormalizeChatResponse(payload, find).reply.actions)
  {
    hide MixesSilence, Recognised, Says, ReadActions, ReadTexts, TextActions, ReadWarnings, NoTags;
    var fields := payload.fields;
    if Field(fields, "actions").JArr? {
      StructuredListIsSettled(Field(fields, "actions").items);
    } else if !Says(fields, "silence") {
      if Field(fields, "messages").JArr? {
        TextsAreSettled(Field(fields, "messages").items, find);
      } else {
        TextIsSettled(Field(fields, "message"), find);
      }
    }
  }

  // Structured, silent and untagged replies come out of the second pass as they
  // went in.
  lemma SecondPassIsStable(payload: Json, first: Finder, warnings: Json, second: Finder)
    requires Untagged(payload, first) && NormalizeChatResponse(payload, first).Ok?
    ensures var reply := NormalizeChatResponse(payload, first).reply;
            var again := NormalizeChatResponse(ReplyJson(reply, warnings), second);
            again.Ok? && again.reply.silence == reply.silence && again.reply.actions == reply.actions
  {
    hide NormalizeChatResponse, ReplyJson, AllSettled;
    UntaggedIsSettled(payload, first);
    SecondPassExactlyWhen(payload, first, warnings, second);
  }

  // Tagged ones need not: a message whose only content is a blank media address
  // is dropped.
  lemma TaggedNeedNotBeStable()
    ensures var find: Finder := (s: string) => Some([MessageTag(map["media_url" := " "], "")]);
            var first := NormalizeChatResponse(JObj(map["message" := JStr("m")]), find);
            first.Ok? && |first.reply.actions| == 1
            && forall warnings ::
                 var again := NormalizeChatResponse(ReplyJson(first.reply, warnings), find);
                 again.Ok? && again.reply.actions != first.reply.actions
  {
    var find: Finder := (s: string) => Some([MessageTag(map["media_url" := " "], "")]);
    var payload := JObj(map["message" := JStr("m")]);
    assert "message"[0] == 'm' && "actions"[0] == 'a' && "silence"[0] == 's' && "messages"[7] == 's';
    assert !IsSpace("m"[0]);
    var piece := MessageTag(map["media_url" := " "], "");
    assert PieceAction(piece) == Some(Message("", Some(" "), None));
    assert [piece][..0] == [];
    assert RawActions(payload.fields, find) == [Message("", Some(" "), None)];
    var first := NormalizeChatResponse(payload, find);
    assert !Settled(first.reply.actions[0]);
    forall warnings
      ensures NormalizeChatResponse(ReplyJson(first.reply, warnings), find).Ok?
      ensures NormalizeChatResponse(ReplyJson(first.reply, warnings), find).reply.actions != first.reply.actions
    {
      SecondPassExactlyWhen(payload, find, warnings, find);
    }
  }

  // --- from a reply to a queue -------------------------------------------

  function OccurrenceText(o: Option<Occurrence>): string {
    match o case None => "" case Some(First) => "first" case Some(Last) => "last"
  }

  function TargetHandle(t: TargetRef): string {
    match t
    case ByHandle(h, _) => h
    case ByAlias(alias, _) => "alias:" + alias
    case ByInclusion(text, o, _) => "content:" + text + ":" + OccurrenceText(o)
    case ByContent(text, _) => "content:" + text + ":"
  }

  function Queued(a: ChatAction): Conversation.QueuedAction {
    match a
    case Message(content, mediaUrl, _) =>
      Conversation.QueuedAction(if Truthy(mediaUrl) then Conversation.Media else Conversation.Message,
                                Some(content), mediaUrl, None, None, None)
    case Media(url, caption, _) => Conversation.QueuedAction(Conversation.Media, caption, Some(url), None, None, None)
    case Reply(target, content, mediaUrl, _) =>
      Conversation.QueuedAction(Conversation.Reply, Some(content), mediaUrl, None, Some(TargetHandle(target)), None)
    case Reaction(reaction, target) =>
      Conversation.QueuedAction(Conversation.Reaction, None, None, Some(reaction), None, Some(TargetHandle(target)))
    case Silence => Conversation.QueuedAction(Conversation.Silence, None, None, None, None, None)
  }

  // What the agent queues for a reply; None when the reply cannot be read.
  function ResponseActions(payload: Json, find: Finder): Option<seq<Conversation.QueuedAction>> {
    match NormalizeChatResponse(payload, find)
    case Malformed => None
    case Ok(reply) =>
      Some(if reply.silence then []
           else seq(|reply.actions|, i requires 0 <= i < |reply.actions| => Queued(reply.actions[i])))
  }

  // A reply the client has read never fails in the agent, and what is queued
  // holds no silence action, as runs of the conversation assume of every reply.
  lemma RepliesAreSilenceFree(payload: Json, first: Finder, warnings: Json, second: Finder)
    requires NormalizeChatResponse(payload, first).Ok?
    ensures var actions := ResponseActions(ReplyJson(NormalizeChatResponse(payload, first).reply, warnings), second);
            actions.Some? && Steps.NoSilence(actions.value)
  {
    hide NormalizeChatResponse, ReplyJson, AllSettled;
    var handedOn := ReplyJson(NormalizeChatResponse(payload, first).reply, warnings);
    SecondPassExactlyWhen(payload, first, warnings, second);
    NoActionIsSilence(handedOn, second);
  }

  // What a conversation with one contact queues for a settled action is never
  // skipped for want of something to send.
  lemma SettledIsSendable(a: ChatAction, cfg: Model.Config, k: Conversation.Key, r: Conversation.Record)
    requires Settled(a) && !a.Silence? && !a.Reaction? && k.Direct?
    ensures !Model.Unsendable(cfg, k, r, Queued(a))
  {
    hide Blank, SettledTarget;
    BlankIsNothing();
  }
}
