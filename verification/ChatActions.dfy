// src/chat/actions.ts: chat actions read from the JSON of a reply, and from the
// tags of a message text once those have been found.
module ChatActions {
  import opened Wrappers
  import opened Text

  datatype Json =
    | JNull
    | JBool(truth: bool)
    | JNum(number: real)
    | JStr(text: string)
    | JArr(items: seq<Json>)
    | JObj(fields: map<string, Json>)

  datatype Occurrence = First | Last

  datatype TargetRef =
    | ByHandle(messageHandle: string, part: Option<nat>)
    | ByAlias(alias: string, part: Option<nat>)
    | ByContent(content: string, part: Option<nat>)
    | ByInclusion(contentIncludes: string, occurrence: Option<Occurrence>, part: Option<nat>)

  datatype ChatAction =
    | Message(content: string, mediaUrl: Option<string>, sendStyle: Option<string>)
    | Media(url: string, caption: Option<string>, sendStyle: Option<string>)
    | Reaction(reaction: string, target: TargetRef)
    | Reply(target: TargetRef, content: string, mediaUrl: Option<string>, sendStyle: Option<string>)
    | Silence

  const SEND_STYLES := {
    "celebration", "shooting_star", "fireworks", "lasers", "love", "confetti", "balloons", "spotlight", "echo",
    "invisible", "gentle", "loud", "slam"}
  const REACTIONS := {"love", "like", "dislike", "laugh", "emphasize", "question"}

  const LAST_MESSAGE := ByAlias("last", None)

  // --- reading values ----------------------------------------------------

  function Or<T>(a: Option<T>, b: Option<T>): Option<T> {
    if a.Some? then a else b
  }

  function Field(fields: map<string, Json>, key: string): Json {
    if key in fields then fields[key] else JNull
  }

  function ReadString(fields: map<string, Json>, key: string): Option<string> {
    var value := Field(fields, key);
    if value.JStr? && !Blank(value.text) then Some(value.text) else None
  }

  predicate Digit(c: char) {
    '0' <= c <= '9'
  }

  function DigitValue(c: char): nat {
    if Digit(c) then (c as int - '0' as int) else 0
  }

  // The number the leading digits spell; None when there are none.
  function LeadingDigits(s: string, soFar: Option<nat>): Option<nat> {
    if s == "" || !Digit(s[0]) then soFar
    else LeadingDigits(s[1..], Some(10 * soFar.GetOr(0) + DigitValue(s[0])))
  }

  // Number.parseInt in base ten.
  function ParseInt(s: string): Option<int> {
    var t := TrimStart(s);
    var signed := t != "" && (t[0] == '-' || t[0] == '+');
    var digits := LeadingDigits(if signed then t[1..] else t, None);
    if digits == None then None
    else
      var n: int := digits.value;
      Some(if signed && t[0] == '-' then -n else n)
  }

  function NormalizePartIndex(value: Json): Option<nat> {
    match value
    case JNum(x) => if x >= 0.0 && x == x.Floor as real then Some(x.Floor) else None
    case JStr(s) =>
      if Blank(s) then None
      else (match ParseInt(s) case Some(n) => if n >= 0 then Some(n) else None case None => None)
    case _ => None
  }

  function NormalizeSendStyle(value: Option<string>): Option<string> {
    if value.Some? && value.value in SEND_STYLES then value else None
  }

  function NormalizeReaction(value: Option<string>): Option<string> {
    if value == Some("heart") then Some("love")
    else if value == Some("haha") then Some("laugh")
    else if value.Some? && value.value in REACTIONS then value
    else None
  }

  function NormalizeOccurrence(value: Json): Option<Occurrence> {
    if value == JStr("first") then Some(First)
    else if value == JStr("last") then Some(Last)
    else None
  }

  function NormalizeTargetRef(value: Json): Option<TargetRef> {
    if !value.JObj? then None
    else
      var fields := value.fields;
      var part := NormalizePartIndex(Field(fields, "partIndex"));
      var handle := ReadString(fields, "messageHandle");
      var alias := ReadString(fields, "alias");
      var content := ReadString(fields, "content");
      var includes := ReadString(fields, "contentIncludes");
      if handle.Some? then Some(ByHandle(handle.value, part))
      else if alias.Some? then Some(ByAlias(alias.value, part))
      else if content.Some? then Some(ByContent(content.value, part))
      else if includes.Some? then
        Some(ByInclusion(includes.value, NormalizeOccurrence(Field(fields, "occurrence")), part))
      else None
  }

  // --- one structured action ---------------------------------------------

  datatype Warning =
    | InvalidAction | InvalidMessage | InvalidMedia | InvalidReaction | InvalidReply | UnknownType | MixedSilence

  datatype Normalized = Accepted(action: ChatAction) | Refused(warning: Warning)

  // What an action's object says, field by field.
  datatype Draft = Draft(
    kind: string, content: Option<string>, mediaUrl: Option<string>, url: Option<string>, style: Option<string>,
    reaction: Option<string>, target: Option<TargetRef>)

  function ReadDraft(kind: string, fields: map<string, Json>): Draft {
    Draft(
      kind,
      Or(ReadString(fields, "content"), ReadString(fields, "message")),
      Or(ReadString(fields, "mediaUrl"), ReadString(fields, "media_url")),
      ReadString(fields, "url"),
      NormalizeSendStyle(Or(ReadString(fields, "sendStyle"), ReadString(fields, "send_style"))),
      NormalizeReaction(Or(ReadString(fields, "reaction"), ReadString(fields, "type"))),
      NormalizeTargetRef(Field(fields, "target")))
  }

  function Decide(d: Draft): Normalized {
    var target := d.target.GetOr(LAST_MESSAGE);
    if d.kind == "message" then
      if d.content == None && d.mediaUrl == None then Refused(InvalidMessage)
      else Accepted(Message(d.content.GetOr(""), d.mediaUrl, d.style))
    else if d.kind == "media" then
      (match Or(d.mediaUrl, d.url)
       case None => Refused(InvalidMedia)
       case Some(url) => Accepted(Media(url, d.content, d.style)))
    else if d.kind == "reaction" then
      (match d.reaction
       case None => Refused(InvalidReaction)
       case Some(reaction) => Accepted(Reaction(reaction, target)))
    else if d.kind == "reply" then
      if d.content == None && d.mediaUrl == None then Refused(InvalidReply)
      else Accepted(Reply(target, d.content.GetOr(""), d.mediaUrl, d.style))
    else if d.kind == "silence" then Accepted(Silence)
    else Refused(UnknownType)
  }

  function NormalizeAction(value: Json): Normalized {
    if !value.JObj? || !Field(value.fields, "type").JStr? then Refused(InvalidAction)
    else Decide(ReadDraft(Field(value.fields, "type").text, value.fields))
  }

  // --- tagged text -------------------------------------------------------

  // A message text once its tags are found: entities are decoded in what lies
  // between tags, in their bodies and in their attributes.
  datatype Piece =
    | Plain(text: string)
    | NoResponseTag
    | MessageTag(attrs: map<string, string>, body: string)
    | ReactionTag(attrs: map<string, string>, body: string)
    | ReplyTag(attrs: map<string, string>, stripped: string, nested: Option<Nested>)

  // The first message tag inside a reply tag.
  datatype Nested = Nested(content: string, mediaUrl: Option<string>, sendStyle: Option<string>)

  function Attr(attrs: map<string, string>, name: string): Option<string> {
    if name in attrs then Some(attrs[name]) else None
  }

  predicate Truthy(s: Option<string>) {
    s.Some? && s.value != ""
  }

  function TargetFromAttributes(attrs: map<string, string>): Option<TargetRef> {
    var index := Or(Attr(attrs, "part_index"), Attr(attrs, "partIndex"));
    var part := if index.Some? then NormalizePartIndex(JStr(index.value)) else None;
    var handle := Or(Or(Attr(attrs, "target_message_handle"), Attr(attrs, "message_handle")), Attr(attrs, "messageHandle"));
    var alias := Or(Attr(attrs, "target"), Attr(attrs, "alias"));
    var content := Or(Or(Attr(attrs, "content"), Attr(attrs, "target_content")), Attr(attrs, "targetContent"));
    var includes := Or(Attr(attrs, "content_includes"), Attr(attrs, "contentIncludes"));
    if Truthy(handle) then Some(ByHandle(handle.value, part))
    else if Truthy(alias) then Some(ByAlias(alias.value, part))
    else if Truthy(content) then Some(ByInclusion(content.value, None, part))
    else if Truthy(includes) then
      var occurrence := if "occurrence" in attrs then NormalizeOccurrence(JStr(attrs["occurrence"])) else None;
      Some(ByInclusion(includes.value, occurrence, part))
    else None
  }

  function Style(attrs: map<string, string>): Option<string> {
    NormalizeSendStyle(Or(Attr(attrs, "send_style"), Attr(attrs, "sendStyle")))
  }

  function MediaUrl(attrs: map<string, string>): Option<string> {
    Or(Attr(attrs, "media_url"), Attr(attrs, "mediaUrl"))
  }

  // The action of one piece, or none.
  function PieceAction(piece: Piece): Option<ChatAction> {
    match piece
    case Plain(text) => if Trim(text) == "" then None else Some(Message(Trim(text), None, None))
    case NoResponseTag => Some(Silence)
    case MessageTag(attrs, body) =>
      if Trim(body) == "" && !Truthy(MediaUrl(attrs)) then None
      else Some(Message(Trim(body), MediaUrl(attrs), Style(attrs)))
    case ReactionTag(attrs, body) =>
      var named := Or(Or(Attr(attrs, "type"), Attr(attrs, "reaction")), Some(Trim(body)));
      var target := TargetFromAttributes(attrs).GetOr(LAST_MESSAGE);
      (match NormalizeReaction(named) case None => None case Some(reaction) => Some(Reaction(reaction, target)))
    case ReplyTag(attrs, stripped, nested) =>
      var target := TargetFromAttributes(attrs).GetOr(LAST_MESSAGE);
      var content := if nested.Some? then Trim(nested.value.content) else Trim(stripped);
      var mediaUrl := if nested.Some? then nested.value.mediaUrl else None;
      var nestedStyle := if nested.Some? then NormalizeSendStyle(nested.value.sendStyle) else None;
      if content == "" && !Truthy(mediaUrl) then None
      else Some(Reply(target, content, mediaUrl, Or(nestedStyle, Style(attrs))))
  }

  function PieceActions(pieces: seq<Piece>): seq<ChatAction> {
    if pieces == [] then []
    else
      var n := |pieces| - 1;
      var before := PieceActions(pieces[..n]);
      match PieceAction(pieces[n]) case None => before case Some(a) => before + [a]
  }

  // The actions are those of the pieces that have one, in order: at[i] is the
  // piece the i-th action comes from.
  ghost predicate Picks(pieces: seq<Piece>, actions: seq<ChatAction>, at: seq<nat>) {
    && |at| == |actions|
    && (forall i :: 0 <= i < |at| ==> at[i] < |pieces| && PieceAction(pieces[at[i]]) == Some(actions[i]))
    && (forall i, j :: 0 <= i < j < |at| ==> at[i] < at[j])
    && (forall k :: 0 <= k < |pieces| && PieceAction(pieces[k]).Some? ==> k in at)
  }

  lemma {:induction false} PieceActionsArePicked(pieces: seq<Piece>) returns (at: seq<nat>)
    ensures Picks(pieces, PieceActions(pieces), at)
  {
    hide PieceAction;
    if pieces == [] {
      at := [];
    } else {
      var n := |pieces| - 1;
      var before := PieceActionsArePicked(pieces[..n]);
      at := if PieceAction(pieces[n]).Some? then before + [n] else before;
      PickNext(pieces, PieceActions(pieces[..n]), before, at);
    }
  }

  lemma PickNext(pieces: seq<Piece>, actions: seq<ChatAction>, before: seq<nat>, at: seq<nat>)
    requires pieces != [] && Picks(pieces[..|pieces| - 1], actions, before)
    requires at == if PieceAction(pieces[|pieces| - 1]).Some? then before + [|pieces| - 1] else before
    ensures match PieceAction(pieces[|pieces| - 1])
            case Some(a) => Picks(pieces, actions + [a], at)
            case None => Picks(pieces, actions, at)
  {
    hide PieceAction;
    var n := |pieces| - 1;
    forall k | 0 <= k < |pieces| && PieceAction(pieces[k]).Some? ensures k in at {
      if k < n {
        assert pieces[..n][k] == pieces[k];
        assert k in before;
      } else {
        assert at[|before|] == n;
      }
    }
  }

  // No choice of positions but this one gives a list of actions, so the list is
  // determined by what it is picked from.
  lemma {:induction false} PicksDetermine(pieces: seq<Piece>, actions: seq<ChatAction>, at: seq<nat>)
    requires Picks(pieces, actions, at)
    ensures actions == PieceActions(pieces)
    decreases |pieces|
  {
    hide PieceAction, Picks;
    if pieces == [] {
      PickedFrom(pieces, actions, at);
    } else {
      var n, m := |pieces| - 1, |at| - 1;
      LastPicked(pieces, actions, at);
      if PieceAction(pieces[n]).Some? {
        PickLess(pieces, actions, at);
        PicksDetermine(pieces[..n], actions[..m], at[..m]);
        assert actions == actions[..m] + [actions[m]];
      } else {
        PickFewer(pieces, actions, at);
        PicksDetermine(pieces[..n], actions, at);
      }
    }
  }

  lemma PickedFrom(pieces: seq<Piece>, actions: seq<ChatAction>, at: seq<nat>)
    requires Picks(pieces, actions, at)
    ensures actions != [] ==> pieces != []
  {
    hide PieceAction;
    if at != [] { assert at[0] < |pieces|; }
  }

  lemma LastPicked(pieces: seq<Piece>, actions: seq<ChatAction>, at: seq<nat>)
    requires Picks(pieces, actions, at) && pieces != []
    ensures |at| == |actions|
    ensures match PieceAction(pieces[|pieces| - 1])
            case Some(a) => at != [] && at[|at| - 1] == |pieces| - 1 && actions[|at| - 1] == a
            case None => forall i :: 0 <= i < |at| ==> at[i] < |pieces| - 1
  {
    hide PieceAction;
    var n, m := |pieces| - 1, |at| - 1;
    if PieceAction(pieces[n]).Some? {
      var i :| 0 <= i < |at| && at[i] == n;
      assert at[i] <= at[m] < |pieces|;
    } else {
      forall i | 0 <= i < |at| ensures at[i] < n { assert PieceAction(pieces[at[i]]).Some?; }
    }
  }

  lemma PickLess(pieces: seq<Piece>, actions: seq<ChatAction>, at: seq<nat>)
    requires pieces != [] && Picks(pieces, actions, at) && at != [] && at[|at| - 1] == |pieces| - 1
    ensures Picks(pieces[..|pieces| - 1], actions[..|at| - 1], at[..|at| - 1])
  {
    hide PieceAction;
    var n, m := |pieces| - 1, |at| - 1;
    forall k | 0 <= k < n && PieceAction(pieces[..n][k]).Some? ensures k in at[..m] {
      assert pieces[..n][k] == pieces[k];
      var i :| 0 <= i < |at| && at[i] == k;
      assert at[..m][i] == k;
    }
  }

  lemma PickFewer(pieces: seq<Piece>, actions: seq<ChatAction>, at: seq<nat>)
    requires pieces != [] && Picks(pieces, actions, at) && forall i :: 0 <= i < |at| ==> at[i] < |pieces| - 1
    ensures Picks(pieces[..|pieces| - 1], actions, at)
  {
    hide PieceAction;
    var n := |pieces| - 1;
    forall k | 0 <= k < n && PieceAction(pieces[..n][k]).Some? ensures k in at { assert pieces[..n][k] == pieces[k]; }
  }

  // A text is taken apart piece by piece: the actions of two texts put together
  // are the actions of the one followed by those of the other.
  lemma {:induction false} PieceActionsOfBoth(first: seq<Piece>, second: seq<Piece>)
    ensures PieceActions(first + second) == PieceActions(first) + PieceActions(second)
  {
    hide PieceAction;
    if second == [] {
      assert first + second == first;
    } else {
      var n := |second| - 1;
      PieceActionsOfBoth(first, second[..n]);
      assert (first + second)[..|first + second| - 1] == first + second[..n];
    }
  }

  method ParseTaggedActions(pieces: seq<Piece>) returns (actions: seq<ChatAction>, ghost at: seq<nat>)
    ensures Picks(pieces, actions, at) && actions == PieceActions(pieces)
  {
    hide PieceAction, Picks;
    actions, at := [], [];
    assert Picks(pieces[..0], actions, at) by { NothingToPick(); }
    for i := 0 to |pieces|
      invariant Picks(pieces[..i], actions, at)
    {
      var upTo := pieces[..i + 1];
      assert upTo[..i] == pieces[..i];
      ghost var before, picked := at, actions;
      match PieceAction(pieces[i]) {
        case Some(a) =>
          actions := actions + [a];
          at := at + [i];
        case None =>
      }
      PickNext(upTo, picked, before, at);
    }
    assert pieces[..|pieces|] == pieces;
    PicksDetermine(pieces, actions, at);
  }

  lemma NothingToPick()
    ensures Picks([], [], [])
  {
  }

  // --- actions as JSON again ---------------------------------------------

  // The object an action is; a missing field is left out.
  function WithText(fields: map<string, Json>, key: string, value: Option<string>): map<string, Json> {
    match value case None => fields case Some(s) => fields[key := JStr(s)]
  }

  function WithPart(fields: map<string, Json>, part: Option<nat>): map<string, Json> {
    match part case None => fields case Some(n) => fields["partIndex" := JNum(n as real)]
  }

  function TargetJson(t: TargetRef): Json {
    match t
    case ByHandle(h, part) => JObj(WithPart(map["messageHandle" := JStr(h)], part))
    case ByAlias(a, part) => JObj(WithPart(map["alias" := JStr(a)], part))
    case ByContent(c, part) => JObj(WithPart(map["content" := JStr(c)], part))
    case ByInclusion(c, occurrence, part) =>
      var fields := map["contentIncludes" := JStr(c)];
      JObj(WithPart(match occurrence
                    case None => fields
                    case Some(First) => fields["occurrence" := JStr("first")]
                    case Some(Last) => fields["occurrence" := JStr("last")], part))
  }

  function ActionJson(a: ChatAction): Json {
    match a
    case Message(content, mediaUrl, style) =>
      JObj(WithText(WithText(map["type" := JStr("message"), "content" := JStr(content)], "mediaUrl", mediaUrl), "sendStyle", style))
    case Media(url, caption, style) =>
      JObj(WithText(WithText(map["type" := JStr("media"), "mediaUrl" := JStr(url)], "content", caption), "sendStyle", style))
    case Reaction(reaction, target) =>
      JObj(map["type" := JStr("reaction"), "reaction" := JStr(reaction), "target" := TargetJson(target)])
    case Reply(target, content, mediaUrl, style) =>
      JObj(WithText(WithText(map["type" := JStr("reply"), "target" := TargetJson(target), "content" := JStr(content)],
                             "mediaUrl", mediaUrl), "sendStyle", style))
    case Silence => JObj(map["type" := JStr("silence")])
  }

  // --- what a second reading leaves alone --------------------------------

  predicate Solid(s: Option<string>) {
    s.Some? ==> !Blank(s.value)
  }

  predicate SettledTarget(t: TargetRef) {
    match t
    case ByHandle(h, _) => !Blank(h)
    case ByAlias(a, _) => !Blank(a)
    case ByContent(c, _) => !Blank(c)
    case ByInclusion(c, _, _) => !Blank(c)
  }

  predicate SettledText(content: string, mediaUrl: Option<string>) {
    Solid(mediaUrl) && (if content == "" then mediaUrl.Some? else !Blank(content))
  }

  predicate SettledStyle(style: Option<string>) {
    style.Some? ==> style.value in SEND_STYLES
  }

  predicate Settled(a: ChatAction) {
    match a
    case Message(content, mediaUrl, style) => SettledText(content, mediaUrl) && SettledStyle(style)
    case Media(url, caption, style) => !Blank(url) && Solid(caption) && SettledStyle(style)
    case Reaction(reaction, target) => reaction in REACTIONS && SettledTarget(target)
    case Reply(target, content, mediaUrl, style) =>
      SettledTarget(target) && SettledText(content, mediaUrl) && SettledStyle(style)
    case Silence => true
  }

  // Looking a key up in the JSON of an action or a target.

  lemma FieldOfText(fields: map<string, Json>, key: string, value: Option<string>, other: string)
    ensures Field(WithText(fields, key, value), other) ==
            if other == key && value.Some? then JStr(value.value) else Field(fields, other)
  {
  }

  lemma KeysDiffer()
    ensures "type" != "content" && "type" != "mediaUrl" && "type" != "sendStyle" && "type" != "target" && "type" != "reaction"
    ensures "content" != "mediaUrl" && "content" != "sendStyle" && "content" != "target" && "content" != "reaction"
    ensures "mediaUrl" != "sendStyle" && "mediaUrl" != "target" && "sendStyle" != "target" && "reaction" != "target"
    ensures "message" !in {"type", "content", "mediaUrl", "sendStyle", "target", "reaction"}
    ensures "media_url" !in {"type", "content", "mediaUrl", "sendStyle", "target", "reaction"}
    ensures "url" !in {"type", "content", "mediaUrl", "sendStyle", "target", "reaction"}
    ensures "send_style" !in {"type", "content", "mediaUrl", "sendStyle", "target", "reaction"}
  {
    assert "type"[0] == 't' && "target"[0] == 't' && "type"[1] != "target"[1];
    assert "message"[1] == 'e' && "mediaUrl"[1] == 'e' && "message"[2] != "mediaUrl"[2];
    assert "media_url"[5] != "mediaUrl"[5] && "send_style"[4] != "sendStyle"[4];
  }

  lemma StylesAreWords()
    ensures forall s :: s in SEND_STYLES ==> !Blank(s)
    ensures forall s :: s in REACTIONS ==> !Blank(s)
    ensures !Blank("last")
  {
    forall s | s in SEND_STYLES || s in REACTIONS ensures !Blank(s) { assert !IsSpace(s[0]); }
    assert !IsSpace("last"[0]);
  }
}
