// What reading chat actions keeps: an action read once and written out as JSON
// is read back as itself.
module ChatReading {
  import opened Wrappers
  import opened Text
  import opened ChatActions

  // --- structured actions are settled ------------------------------------

  predicate SolidDraft(d: Draft) {
    && Solid(d.content) && Solid(d.mediaUrl) && Solid(d.url) && SettledStyle(d.style)
    && (d.reaction.Some? ==> d.reaction.value in REACTIONS)
    && (d.target.Some? ==> SettledTarget(d.target.value))
  }

  lemma TargetIsSolid(value: Json)
    ensures NormalizeTargetRef(value).Some? ==> SettledTarget(NormalizeTargetRef(value).value)
  {
    hide NormalizePartIndex, NormalizeOccurrence, Blank;
  }

  lemma DraftIsSolid(kind: string, fields: map<string, Json>)
    ensures SolidDraft(ReadDraft(kind, fields))
  {
    hide NormalizeTargetRef, Blank, Field, SettledTarget;
    TargetIsSolid(Field(fields, "target"));
  }

  lemma DecidedIsSettled(d: Draft)
    requires SolidDraft(d) && Decide(d).Accepted?
    ensures Settled(Decide(d).action)
  {
    hide Blank;
    StylesAreWords();
    BlankIsNothing();
  }

  lemma BlankIsNothing()
    ensures Blank("")
  {
  }

  // Whatever a structured action says, what is read from it is settled.
  lemma StructuredIsSettled(value: Json)
    requires NormalizeAction(value).Accepted?
    ensures Settled(NormalizeAction(value).action)
  {
    hide ReadDraft, Decide, Settled, SolidDraft;
    var kind := Field(value.fields, "type").text;
    DraftIsSolid(kind, value.fields);
    DecidedIsSettled(ReadDraft(kind, value.fields));
  }

  // --- reading back ------------------------------------------------------

  // A text that survives being read again.
  function Kept(s: Option<string>): Option<string> {
    if s.Some? && Blank(s.value) then None else s
  }

  lemma ReadAfter(fields: map<string, Json>, key: string, value: Option<string>, other: string)
    ensures ReadString(WithText(fields, key, value), other) ==
            if other == key && value.Some? then Kept(value) else ReadString(fields, other)
    ensures other != key ==> Field(WithText(fields, key, value), other) == Field(fields, other)
  {
    hide Blank;
  }

  // The two texts that message and reply add to their own fields.
  lemma DraftWithTexts(kind: string, base: map<string, Json>, mediaUrl: Option<string>, style: Option<string>)
    requires base.Keys !! {"mediaUrl", "media_url", "sendStyle", "send_style"}
    ensures var d := ReadDraft(kind, WithText(WithText(base, "mediaUrl", mediaUrl), "sendStyle", style));
            && d.kind == kind && d.mediaUrl == Kept(mediaUrl) && d.style == NormalizeSendStyle(Kept(style))
            && d.content == Or(ReadString(base, "content"), ReadString(base, "message"))
            && d.target == NormalizeTargetRef(Field(base, "target"))
  {
    hide Blank, WithText, ReadString, NormalizeTargetRef, NormalizeSendStyle, NormalizeReaction, Field, Kept;
    KeysDiffer();
    var first := WithText(base, "mediaUrl", mediaUrl);
    ReadBoth(base, mediaUrl, style, "content");
    ReadBoth(base, mediaUrl, style, "message");
    ReadBoth(base, mediaUrl, style, "media_url");
    ReadBoth(base, mediaUrl, style, "send_style");
    ReadBoth(base, mediaUrl, style, "target");
    ReadAfter(first, "sendStyle", style, "mediaUrl");
    ReadAfter(first, "sendStyle", style, "sendStyle");
    ReadAfter(base, "mediaUrl", mediaUrl, "mediaUrl");
    ReadAfter(base, "mediaUrl", mediaUrl, "sendStyle");
    ReadNothing(base, "mediaUrl");
    ReadNothing(base, "sendStyle");
    ReadNothing(base, "media_url");
    ReadNothing(base, "send_style");
    KeptIsNone();
  }

  lemma KeptIsNone()
    ensures Kept(None) == None
  {
  }

  lemma ReadBoth(base: map<string, Json>, mediaUrl: Option<string>, style: Option<string>, other: string)
    requires other != "mediaUrl" && other != "sendStyle"
    ensures var fields := WithText(WithText(base, "mediaUrl", mediaUrl), "sendStyle", style);
            ReadString(fields, other) == ReadString(base, other) && Field(fields, other) == Field(base, other)
  {
    hide WithText, ReadString, Field;
    ReadAfter(WithText(base, "mediaUrl", mediaUrl), "sendStyle", style, other);
    ReadAfter(base, "mediaUrl", mediaUrl, other);
  }

  lemma ReadNothing(fields: map<string, Json>, key: string)
    requires key !in fields
    ensures ReadString(fields, key) == None
  {
  }

  lemma StyleReadBack(style: Option<string>)
    ensures NormalizeSendStyle(Kept(style)) == style <==> SettledStyle(style)
  {
    hide Blank;
    StylesAreWords();
  }

  lemma KeptExactlyWhen(s: Option<string>)
    ensures Kept(s) == s <==> Solid(s)
  {
  }

  // The kind of an action survives, and what it decides on is this.
  lemma ReadsAs(kind: string, base: map<string, Json>, mediaUrl: Option<string>, style: Option<string>)
    requires base.Keys !! {"mediaUrl", "media_url", "sendStyle", "send_style"} && Field(base, "type") == JStr(kind)
    ensures var fields := WithText(WithText(base, "mediaUrl", mediaUrl), "sendStyle", style);
            NormalizeAction(JObj(fields)) == Decide(ReadDraft(kind, fields))
  {
    hide WithText, ReadDraft, Decide, Field;
    KeysDiffer();
    ReadBoth(base, mediaUrl, style, "type");
  }

  lemma ContentOf(base: map<string, Json>, content: string)
    requires "content" in base && base["content"] == JStr(content) && "message" !in base
    ensures Or(ReadString(base, "content"), ReadString(base, "message")) == Kept(Some(content))
  {
    hide Blank;
  }

  lemma MessageReadBack(a: ChatAction)
    requires a.Message?
    ensures NormalizeAction(ActionJson(a)) == Accepted(a) <==> Settled(a)
  {
    hide ReadDraft, WithText, ReadString, NormalizeAction, Field, NormalizeSendStyle, NormalizeTargetRef, Blank;
    KeysDiffer();
    BlankIsNothing();
    var base := map["type" := JStr("message"), "content" := JStr(a.content)];
    assert Field(base, "type") == JStr("message") by { FieldIs(base, "type"); }
    ContentOf(base, a.content);
    ReadsAs("message", base, a.mediaUrl, a.sendStyle);
    DraftWithTexts("message", base, a.mediaUrl, a.sendStyle);
    StyleReadBack(a.sendStyle);
  }

  lemma FieldIs(fields: map<string, Json>, key: string)
    requires key in fields
    ensures Field(fields, key) == fields[key]
  {
  }

  lemma ReplyReadBack(a: ChatAction)
    requires a.Reply?
    ensures NormalizeAction(ActionJson(a)) == Accepted(a) <==> Settled(a)
  {
    hide ReadDraft, WithText, ReadString, NormalizeAction, Field, NormalizeSendStyle, NormalizeTargetRef, Blank, TargetJson,
         SettledTarget;
    KeysDiffer();
    BlankIsNothing();
    var base := map["type" := JStr("reply"), "target" := TargetJson(a.target), "content" := JStr(a.content)];
    assert Field(base, "type") == JStr("reply") by { FieldIs(base, "type"); }
    FieldIs(base, "target");
    ContentOf(base, a.content);
    ReadsAs("reply", base, a.mediaUrl, a.sendStyle);
    DraftWithTexts("reply", base, a.mediaUrl, a.sendStyle);
    StyleReadBack(a.sendStyle);
    TargetReadBack(a.target);
    LastIsSettled();
  }

  lemma LastIsSettled()
    ensures SettledTarget(LAST_MESSAGE)
  {
    StylesAreWords();
  }

  // A target that is not settled is not read at all, and the last message
  // stands in for it.
  lemma TargetReadBack(t: TargetRef)
    ensures NormalizeTargetRef(TargetJson(t)) == if SettledTarget(t) then Some(t) else None
  {
    hide Blank, NormalizePartIndex, WithPart;
    TargetKeysDiffer();
    StylesAreWords();
    match t {
      case ByHandle(h, part) => PartReadBack(map["messageHandle" := JStr(h)], part);
      case ByAlias(a, part) => PartReadBack(map["alias" := JStr(a)], part);
      case ByContent(c, part) => PartReadBack(map["content" := JStr(c)], part);
      case ByInclusion(c, occurrence, part) =>
        var fields := map["contentIncludes" := JStr(c)];
        match occurrence {
          case None => PartReadBack(fields, part);
          case Some(First) => PartReadBack(fields["occurrence" := JStr("first")], part);
          case Some(Last) => PartReadBack(fields["occurrence" := JStr("last")], part);
        }
    }
  }

  lemma TargetKeysDiffer()
    ensures "messageHandle" !in {"alias", "content", "contentIncludes", "occurrence", "partIndex"}
    ensures "alias" !in {"content", "contentIncludes", "occurrence", "partIndex"}
    ensures "content" !in {"contentIncludes", "occurrence", "partIndex"}
    ensures "contentIncludes" !in {"occurrence", "partIndex"} && "occurrence" != "partIndex" && "first" != "last"
  {
    assert "alias"[0] == 'a' && "content"[0] == 'c' && "contentIncludes"[0] == 'c' && "occurrence"[0] == 'o';
  }

  lemma PartReadBack(fields: map<string, Json>, part: Option<nat>)
    requires "partIndex" !in fields
    ensures NormalizePartIndex(Field(WithPart(fields, part), "partIndex")) == part
    ensures forall key :: key != "partIndex" ==> Field(WithPart(fields, part), key) == Field(fields, key)
  {
  }

  lemma MediaReadBack(a: ChatAction)
    requires a.Media?
    ensures NormalizeAction(ActionJson(a)) == Accepted(a) <==> Settled(a)
  {
    hide WithText, ReadString, NormalizeSendStyle, NormalizeTargetRef, Blank, NormalizeReaction;
    KeysDiffer();
    BlankIsNothing();
    var base := map["type" := JStr("media"), "mediaUrl" := JStr(a.url)];
    CaptionRead(base, a.caption, a.sendStyle, "type");
    CaptionRead(base, a.caption, a.sendStyle, "content");
    CaptionRead(base, a.caption, a.sendStyle, "message");
    CaptionRead(base, a.caption, a.sendStyle, "mediaUrl");
    CaptionRead(base, a.caption, a.sendStyle, "media_url");
    CaptionRead(base, a.caption, a.sendStyle, "url");
    CaptionRead(base, a.caption, a.sendStyle, "sendStyle");
    CaptionRead(base, a.caption, a.sendStyle, "send_style");
    ReadThis(base, "mediaUrl", a.url);
    ReadNothing(base, "content");
    ReadNothing(base, "message");
    ReadNothing(base, "media_url");
    ReadNothing(base, "url");
    ReadNothing(base, "sendStyle");
    ReadNothing(base, "send_style");
    StyleReadBack(a.sendStyle);
    KeptExactlyWhen(a.caption);
    KeptIsNone();
  }

  lemma ReadThis(fields: map<string, Json>, key: string, text: string)
    requires key in fields && fields[key] == JStr(text)
    ensures ReadString(fields, key) == Kept(Some(text))
  {
    hide Blank;
  }

  lemma CaptionRead(base: map<string, Json>, caption: Option<string>, style: Option<string>, other: string)
    ensures var fields := WithText(WithText(base, "content", caption), "sendStyle", style);
            && ReadString(fields, other) ==
               (if other == "sendStyle" && style.Some? then Kept(style)
                else if other == "content" && caption.Some? then Kept(caption)
                else ReadString(base, other))
            && (other != "content" && other != "sendStyle" ==> Field(fields, other) == Field(base, other))
  {
    hide WithText, ReadString, Field;
    ReadAfter(WithText(base, "content", caption), "sendStyle", style, other);
    ReadAfter(base, "content", caption, other);
  }

  lemma ReactionReadBack(a: ChatAction)
    requires a.Reaction?
    ensures NormalizeAction(ActionJson(a)) == Accepted(a) <==> Settled(a)
  {
    hide Blank, NormalizeTargetRef, TargetJson, SettledTarget;
    KeysDiffer();
    StylesAreWords();
    TargetReadBack(a.target);
    LastIsSettled();
    ReactionNames(a.reaction);
  }

  // Both ways of naming a reaction, and the kind that stands in for a missing one.
  lemma ReactionNames(name: string)
    ensures NormalizeReaction(Some(name)) == Some(name) <==> name in REACTIONS
    ensures NormalizeReaction(Some("reaction")) == None && NormalizeReaction(None) == None
  {
    assert "reaction"[0] == 'r';
  }

  // An action read from its own JSON is itself exactly when its texts are not
  // blank.
  lemma ReadBackExactlyWhen(a: ChatAction)
    ensures NormalizeAction(ActionJson(a)) == Accepted(a) <==> Settled(a)
  {
    hide NormalizeAction, ActionJson, Settled;
    match a {
      case Message(_, _, _) => MessageReadBack(a);
      case Media(_, _, _) => MediaReadBack(a);
      case Reaction(_, _) => ReactionReadBack(a);
      case Reply(_, _, _, _) => ReplyReadBack(a);
      case Silence => SilenceReadBack();
    }
  }

  lemma SilenceReadBack()
    ensures NormalizeAction(ActionJson(Silence)) == Accepted(Silence) && Settled(Silence)
  {
  }

  // --- tagged text -------------------------------------------------------

  lemma {:induction false} TrimmedEnd(s: string)
    requires s != "" && !IsSpace(s[0])
    ensures TrimEnd(s) != "" && TrimEnd(s)[0] == s[0]
  {
    if IsSpace(s[|s| - 1]) { TrimmedEnd(s[..|s| - 1]); }
  }

  lemma {:induction false} TrimmedStart(s: string)
    ensures TrimStart(s) == "" || !IsSpace(TrimStart(s)[0])
  {
    if s != "" && IsSpace(s[0]) { TrimmedStart(s[1..]); }
  }

  // Trimmed text is empty or not blank.
  lemma TrimmedIsSolid(s: string)
    ensures Trim(s) == "" || !Blank(Trim(s))
  {
    TrimmedStart(s);
    if TrimStart(s) != "" { TrimmedEnd(TrimStart(s)); }
  }

  // The texts of a tag that are taken over as they stand.
  predicate AttributesSolid(piece: Piece) {
    match piece
    case MessageTag(attrs, _) => Solid(MediaUrl(attrs))
    case ReactionTag(attrs, _) => TargetFromAttributes(attrs).Some? ==> SettledTarget(TargetFromAttributes(attrs).value)
    case ReplyTag(attrs, _, nested) =>
      && (TargetFromAttributes(attrs).Some? ==> SettledTarget(TargetFromAttributes(attrs).value))
      && (nested.Some? ==> Solid(nested.value.mediaUrl))
    case _ => true
  }

  // A tag gives an action that survives a second reading exactly when none of
  // those texts is blank.
  lemma TagIsSettledExactlyWhen(piece: Piece)
    requires PieceAction(piece).Some?
    ensures Settled(PieceAction(piece).value) <==> AttributesSolid(piece)
  {
    hide Blank, TargetFromAttributes, MediaUrl, Trim, SettledTarget, NormalizeReaction;
    BlankIsNothing();
    LastIsSettled();
    match piece {
      case Plain(text) => TrimmedIsSolid(text);
      case NoResponseTag =>
      case MessageTag(_, body) => TrimmedIsSolid(body);
      case ReactionTag(attrs, body) =>
        NormalizedIsReaction(Or(Or(Attr(attrs, "type"), Attr(attrs, "reaction")), Some(Trim(body))));
      case ReplyTag(_, stripped, nested) =>
        TrimmedIsSolid(stripped);
        if nested.Some? { TrimmedIsSolid(nested.value.content); }
    }
  }

  lemma NormalizedIsReaction(name: Option<string>)
    ensures NormalizeReaction(name).Some? ==> NormalizeReaction(name).value in REACTIONS
  {
  }
}
