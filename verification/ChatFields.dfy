// What an action says field by field: which of several names of a field counts,
// what a target refers to, and what the queue takes over.
module ChatFields {
  import opened Wrappers
  import opened Text
  import opened ChatActions
  import opened ChatReading
  import opened ChatContract
  import opened ChatMeaning
  import Conversation = ConversationTypes

  // --- names of a field --------------------------------------------------

  predicate Spoken(fields: map<string, Json>, key: string) {
    key in fields && fields[key].JStr? && !Blank(fields[key].text)
  }

  // The first of these names that has a text with something in it gives it.
  ghost predicate Offers(fields: map<string, Json>, keys: seq<string>, text: Option<string>) {
    match text
    case None => forall i :: 0 <= i < |keys| ==> !Spoken(fields, keys[i])
    case Some(s) =>
      exists i :: 0 <= i < |keys| && Spoken(fields, keys[i]) && fields[keys[i]].text == s
                  && forall j :: 0 <= j < i ==> !Spoken(fields, keys[j])
  }

  lemma ReadIs(fields: map<string, Json>, key: string)
    ensures ReadString(fields, key) == if Spoken(fields, key) then Some(fields[key].text) else None
  {
  }

  lemma OneName(fields: map<string, Json>, key: string, text: Option<string>)
    ensures Offers(fields, [key], text) <==> ReadString(fields, key) == text
  {
    hide Spoken, ReadString;
    var keys := [key];
    ReadIs(fields, key);
    assert keys[0] == key;
  }

  lemma TwoNames(fields: map<string, Json>, first: string, second: string, text: Option<string>)
    ensures Offers(fields, [first, second], text) <==> Or(ReadString(fields, first), ReadString(fields, second)) == text
  {
    hide Spoken, ReadString;
    var keys := [first, second];
    ReadIs(fields, first);
    ReadIs(fields, second);
    assert keys[0] == first && keys[1] == second;
  }

  lemma ThreeNames(fields: map<string, Json>, first: string, second: string, third: string, text: Option<string>)
    ensures Offers(fields, [first, second, third], text) <==>
            Or(Or(ReadString(fields, first), ReadString(fields, second)), ReadString(fields, third)) == text
  {
    hide Spoken, ReadString;
    var keys := [first, second, third];
    ReadIs(fields, first);
    ReadIs(fields, second);
    ReadIs(fields, third);
    assert keys[0] == first && keys[1] == second && keys[2] == third;
  }

  // --- targets -----------------------------------------------------------

  predicate Occurs(fields: map<string, Json>, occurrence: Option<Occurrence>) {
    match occurrence
    case Some(First) => Field(fields, "occurrence") == JStr("first")
    case Some(Last) => Field(fields, "occurrence") == JStr("last")
    case None => Field(fields, "occurrence") !in {JStr("first"), JStr("last")}
  }

  // A target is by the first of handle, alias, content and inclusion it names.
  ghost predicate Names(fields: map<string, Json>, t: TargetRef) {
    && t.part == NormalizePartIndex(Field(fields, "partIndex"))
    && match t
       case ByHandle(h, _) => Offers(fields, ["messageHandle"], Some(h))
       case ByAlias(a, _) => Offers(fields, ["messageHandle"], None) && Offers(fields, ["alias"], Some(a))
       case ByContent(c, _) => Offers(fields, ["messageHandle", "alias"], None) && Offers(fields, ["content"], Some(c))
       case ByInclusion(c, occurrence, _) =>
         && Offers(fields, ["messageHandle", "alias", "content"], None) && Offers(fields, ["contentIncludes"], Some(c))
         && Occurs(fields, occurrence)
  }

  lemma TargetReadExactlyWhen(value: Json, t: TargetRef)
    ensures NormalizeTargetRef(value) == Some(t) <==> value.JObj? && Names(value.fields, t)
  {
    hide ReadString, NormalizePartIndex, Offers, Field, NormalizeOccurrence;
    if value.JObj? {
      var fields := value.fields;
      forall text {:trigger Offers(fields, ["messageHandle"], text)} ensures Offers(fields, ["messageHandle"], text) <==> ReadString(fields, "messageHandle") == text {
        OneName(fields, "messageHandle", text);
      }
      forall text {:trigger Offers(fields, ["alias"], text)} ensures Offers(fields, ["alias"], text) <==> ReadString(fields, "alias") == text {
        OneName(fields, "alias", text);
      }
      forall text {:trigger Offers(fields, ["content"], text)} ensures Offers(fields, ["content"], text) <==> ReadString(fields, "content") == text {
        OneName(fields, "content", text);
      }
      forall text {:trigger Offers(fields, ["contentIncludes"], text)} ensures Offers(fields, ["contentIncludes"], text) <==> ReadString(fields, "contentIncludes") == text {
        OneName(fields, "contentIncludes", text);
      }
      TwoNames(fields, "messageHandle", "alias", None);
      ThreeNames(fields, "messageHandle", "alias", "content", None);
      if t.ByInclusion? { OccurrenceIs(fields, t.occurrence); }
    }
  }

  lemma OccurrenceIs(fields: map<string, Json>, occurrence: Option<Occurrence>)
    ensures Occurs(fields, occurrence) <==> NormalizeOccurrence(Field(fields, "occurrence")) == occurrence
  {
    hide Field;
    assert "first"[0] == 'f' && "last"[0] == 'l';
  }

  // --- structured actions ------------------------------------------------

  // A reaction by its name, or by one of its two nicknames.
  predicate ReactionCalled(name: string, reaction: string) {
    (name == "heart" && reaction == "love") || (name == "haha" && reaction == "laugh") || (name in REACTIONS && reaction == name)
  }

  ghost predicate StyleRead(fields: map<string, Json>, style: Option<string>) {
    exists named :: Offers(fields, ["sendStyle", "send_style"], named)
                    && style == if named.Some? && named.value in SEND_STYLES then named else None
  }

  ghost predicate ReactionRead(fields: map<string, Json>, reaction: string) {
    exists name :: Offers(fields, ["reaction", "type"], Some(name)) && ReactionCalled(name, reaction)
  }

  // The target named, or the last message when none is.
  ghost predicate TargetRead(fields: map<string, Json>, t: TargetRef) {
    var value := Field(fields, "target");
    if exists named :: value.JObj? && Names(value.fields, named) then value.JObj? && Names(value.fields, t) else t == LAST_MESSAGE
  }

  // A text, empty when none is offered; a message or reply without one shows
  // something.
  ghost predicate TextRead(fields: map<string, Json>, content: string, mediaUrl: Option<string>) {
    && Offers(fields, ["mediaUrl", "media_url"], mediaUrl)
    && (if content == "" then Offers(fields, ["content", "message"], None) && mediaUrl.Some?
        else Offers(fields, ["content", "message"], Some(content)))
  }

  // What an object of fields says is this action.
  ghost predicate Reads(fields: map<string, Json>, a: ChatAction) {
    match a
    case Message(content, mediaUrl, style) =>
      Field(fields, "type") == JStr("message") && TextRead(fields, content, mediaUrl) && StyleRead(fields, style)
    case Media(url, caption, style) =>
      && Field(fields, "type") == JStr("media") && Offers(fields, ["mediaUrl", "media_url", "url"], Some(url))
      && Offers(fields, ["content", "message"], caption) && StyleRead(fields, style)
    case Reaction(reaction, target) =>
      Field(fields, "type") == JStr("reaction") && ReactionRead(fields, reaction) && TargetRead(fields, target)
    case Reply(target, content, mediaUrl, style) =>
      && Field(fields, "type") == JStr("reply") && TextRead(fields, content, mediaUrl) && StyleRead(fields, style)
      && TargetRead(fields, target)
    case Silence => Field(fields, "type") == JStr("silence")
  }

  lemma StyleIs(fields: map<string, Json>, style: Option<string>)
    ensures StyleRead(fields, style) <==>
            NormalizeSendStyle(Or(ReadString(fields, "sendStyle"), ReadString(fields, "send_style"))) == style
  {
    hide ReadString, Offers;
    var named := Or(ReadString(fields, "sendStyle"), ReadString(fields, "send_style"));
    forall text ensures Offers(fields, ["sendStyle", "send_style"], text) <==> named == text {
      TwoNames(fields, "sendStyle", "send_style", text);
    }
  }

  lemma NicknameIs(name: string, reaction: string)
    ensures NormalizeReaction(Some(name)) == Some(reaction) <==> ReactionCalled(name, reaction)
  {
    assert "heart" !in REACTIONS && "haha" !in REACTIONS by {
      assert |"heart"| == 5 && "haha"[0] == 'h' && "heart"[0] == 'h';
      assert forall s :: s in REACTIONS ==> s[0] != 'h';
    }
  }

  lemma ReactionIs(fields: map<string, Json>, reaction: string)
    ensures ReactionRead(fields, reaction) <==>
            NormalizeReaction(Or(ReadString(fields, "reaction"), ReadString(fields, "type"))) == Some(reaction)
  {
    hide ReadString, Offers, ReactionCalled, NormalizeReaction;
    var named := Or(ReadString(fields, "reaction"), ReadString(fields, "type"));
    forall text ensures Offers(fields, ["reaction", "type"], text) <==> named == text {
      TwoNames(fields, "reaction", "type", text);
    }
    if named.Some? { NicknameIs(named.value, reaction); } else { ReactionNames(""); }
  }

  lemma TargetIs(fields: map<string, Json>, t: TargetRef)
    ensures TargetRead(fields, t) <==> NormalizeTargetRef(Field(fields, "target")).GetOr(LAST_MESSAGE) == t
  {
    hide NormalizeTargetRef, Names, Field;
    var value := Field(fields, "target");
    forall named ensures NormalizeTargetRef(value) == Some(named) <==> value.JObj? && Names(value.fields, named) {
      TargetReadExactlyWhen(value, named);
    }
  }

  lemma TextIs(fields: map<string, Json>, content: string, mediaUrl: Option<string>)
    ensures TextRead(fields, content, mediaUrl) <==>
            && Or(ReadString(fields, "mediaUrl"), ReadString(fields, "media_url")) == mediaUrl
            && var text := Or(ReadString(fields, "content"), ReadString(fields, "message"));
               text.GetOr("") == content && (text.Some? || mediaUrl.Some?)
  {
    hide Offers, ReadString;
    TwoNames(fields, "mediaUrl", "media_url", mediaUrl);
    TwoNames(fields, "content", "message", None);
    TwoNames(fields, "content", "message", Some(content));
    ReadSomething(fields, "content");
    ReadSomething(fields, "message");
  }

  lemma ReadSomething(fields: map<string, Json>, key: string)
    ensures ReadString(fields, key) != Some("")
  {
  }

  // A structured action is read as this action exactly when its fields say so,
  // whichever of their names they go by.
  lemma ReadExactlyWhen(value: Json, a: ChatAction)
    ensures NormalizeAction(value) == Accepted(a) <==> value.JObj? && Reads(value.fields, a)
  {
    hide ReadString, NormalizeTargetRef, NormalizeSendStyle, NormalizeReaction, Field, TextRead, StyleRead, TargetRead, ReactionRead, Offers;
    if value.JObj? {
      var fields := value.fields;
      AllKindsDiffer();
      match a {
        case Message(content, mediaUrl, style) =>
          TextIs(fields, content, mediaUrl);
          StyleIs(fields, style);
        case Media(url, caption, style) =>
          ThreeNames(fields, "mediaUrl", "media_url", "url", Some(url));
          TwoNames(fields, "content", "message", caption);
          StyleIs(fields, style);
        case Reaction(reaction, target) =>
          ReactionIs(fields, reaction);
          TargetIs(fields, target);
        case Reply(target, content, mediaUrl, style) =>
          TextIs(fields, content, mediaUrl);
          StyleIs(fields, style);
          TargetIs(fields, target);
        case Silence =>
      }
    }
  }

  lemma AllKindsDiffer()
    ensures "message" !in {"media", "reaction", "reply", "silence"} && "media" !in {"reaction", "reply", "silence"}
    ensures "reaction" !in {"reply", "silence"} && "reply" != "silence"
  {
    assert "message"[2] == 's' && "media"[2] == 'd' && "reaction"[2] == 'a' && "reply"[2] == 'p' && "silence"[2] == 'l';
  }

  // What is refused is warned of by its kind.
  lemma RefusedExactlyWhen(value: Json)
    ensures var kind := if value.JObj? then Field(value.fields, "type") else JNull;
            match NormalizeAction(value)
            case Accepted(_) => kind in {JStr("message"), JStr("media"), JStr("reaction"), JStr("reply"), JStr("silence")}
            case Refused(warning) =>
              warning == if !kind.JStr? then InvalidAction
                         else if kind.text == "message" then InvalidMessage
                         else if kind.text == "media" then InvalidMedia
                         else if kind.text == "reaction" then InvalidReaction
                         else if kind.text == "reply" then InvalidReply
                         else UnknownType
  {
    hide ReadString, NormalizeTargetRef, NormalizeSendStyle, NormalizeReaction, Field;
    AllKindsDiffer();
  }

  // --- part indexes ------------------------------------------------------

  // A number in decimal.
  function Decimal(n: nat): string {
    if n < 10 then [('0' as int + n) as char] else Decimal(n / 10) + [('0' as int + n % 10) as char]
  }

  // What digits spell behind others.
  function Spelled(digits: string, soFar: nat): nat {
    if digits == "" then soFar else Spelled(digits[1..], 10 * soFar + DigitValue(digits[0]))
  }

  ghost predicate AllDigits(s: string) {
    forall i :: 0 <= i < |s| ==> Digit(s[i])
  }

  lemma {:induction false} SpelledNext(digits: string, c: char, soFar: nat)
    ensures Spelled(digits + [c], soFar) == 10 * Spelled(digits, soFar) + DigitValue(c)
  {
    if digits == "" {
      assert [c][1..] == "";
      assert digits + [c] == [c];
      assert Spelled([c], soFar) == Spelled("", 10 * soFar + DigitValue(c));
    } else {
      assert (digits + [c])[1..] == digits[1..] + [c];
      SpelledNext(digits[1..], c, 10 * soFar + DigitValue(digits[0]));
    }
  }

  lemma {:induction false} DecimalSpells(n: nat)
    ensures Decimal(n) != "" && AllDigits(Decimal(n)) && Spelled(Decimal(n), 0) == n
  {
    var c := ('0' as int + n % 10) as char;
    assert Digit(c) && DigitValue(c) == n % 10;
    if n < 10 {
      assert Decimal(n) == [c] && [c][1..] == "";
      assert Spelled([c], 0) == Spelled("", DigitValue(c));
    } else {
      DecimalSpells(n / 10);
      SpelledNext(Decimal(n / 10), c, 0);
    }
  }

  lemma {:induction false} DigitsAreRead(digits: string, more: string, soFar: Option<nat>)
    requires AllDigits(digits) && (more == "" || !Digit(more[0]))
    ensures LeadingDigits(digits + more, soFar) == if digits == "" then soFar else Some(Spelled(digits, soFar.GetOr(0)))
    decreases |digits|
  {
    if digits == "" {
      assert digits + more == more;
    } else {
      var next := Some(10 * soFar.GetOr(0) + DigitValue(digits[0]));
      assert (digits + more)[1..] == digits[1..] + more;
      DigitsAreRead(digits[1..], more, next);
      if digits[1..] == "" { assert Spelled(digits, soFar.GetOr(0)) == next.value; }
    }
  }

  lemma NumberIsRead(n: nat, more: string)
    requires more == "" || !Digit(more[0])
    ensures var s := Decimal(n) + more; !Blank(s) && !IsSpace(s[0]) && Digit(s[0]) && LeadingDigits(s, None) == Some(n)
  {
    hide Decimal, LeadingDigits;
    DecimalSpells(n);
    DigitsAreRead(Decimal(n), more, None);
    assert (Decimal(n) + more)[0] == Decimal(n)[0] && !IsSpace(Decimal(n)[0]);
  }

  lemma SignedIsRead(n: nat, more: string)
    requires more == "" || !Digit(more[0])
    ensures ParseInt(Decimal(n) + more) == Some(n)
    ensures ParseInt("-" + (Decimal(n) + more)) == Some(if n == 0 then 0 else -(n as int))
    ensures !Blank("-" + (Decimal(n) + more))
  {
    hide Decimal, LeadingDigits, Blank;
    var s := Decimal(n) + more;
    NumberIsRead(n, more);
    assert TrimStart(s) == s;
    var t := "-" + s;
    assert t[0] == '-' && t[1..] == s && TrimStart(t) == t;
    NotBlank(t);
  }

  lemma NotBlank(s: string)
    requires s != "" && !IsSpace(s[0])
    ensures !Blank(s)
  {
  }

  // A part index is a natural number, or a text that begins with one in decimal,
  // with or without space before it.
  lemma PartIndexMeaning(x: real, n: nat, more: string)
    requires more == "" || !Digit(more[0])
    ensures NormalizePartIndex(JNum(x)) == Some(n) <==> x == n as real
    ensures NormalizePartIndex(JStr(Decimal(n) + more)) == Some(n)
    ensures n > 0 ==> NormalizePartIndex(JStr("-" + (Decimal(n) + more))) == None
  {
    hide Decimal, Blank, ParseInt;
    SignedIsRead(n, more);
    NumberIsRead(n, more);
  }

  // Space before it makes no difference, and a text that begins otherwise gives
  // none.
  lemma NoPartIndex(s: string)
    ensures NormalizePartIndex(JStr(s)) == NormalizePartIndex(JStr(TrimStart(s)))
    ensures s != "" && !IsSpace(s[0]) && !Digit(s[0]) && s[0] !in {'-', '+'} ==> NormalizePartIndex(JStr(s)) == None
  {
    hide Blank;
    TrimmedTwice(s);
    BlankOrNot(s);
  }

  lemma {:induction false} TrimmedTwice(s: string)
    ensures TrimStart(TrimStart(s)) == TrimStart(s)
  {
    if s != "" && IsSpace(s[0]) { TrimmedTwice(s[1..]); }
  }

  lemma {:induction false} BlankOrNot(s: string)
    ensures Blank(TrimStart(s)) <==> Blank(s)
  {
    if s != "" && IsSpace(s[0]) { BlankOrNot(s[1..]); }
  }

  // --- attributes of a tag -----------------------------------------------

  // The first of these attributes that is there, be it empty.
  ghost predicate Given(attrs: map<string, string>, names: seq<string>, text: Option<string>) {
    match text
    case None => forall i :: 0 <= i < |names| ==> names[i] !in attrs
    case Some(s) =>
      exists i :: 0 <= i < |names| && names[i] in attrs && attrs[names[i]] == s && forall j :: 0 <= j < i ==> names[j] !in attrs
  }

  lemma TwoAttributes(attrs: map<string, string>, first: string, second: string, text: Option<string>)
    ensures Given(attrs, [first, second], text) <==> Or(Attr(attrs, first), Attr(attrs, second)) == text
  {
    var names := [first, second];
    assert names[0] == first && names[1] == second;
  }

  lemma ThreeAttributes(attrs: map<string, string>, first: string, second: string, third: string, text: Option<string>)
    ensures Given(attrs, [first, second, third], text) <==>
            Or(Or(Attr(attrs, first), Attr(attrs, second)), Attr(attrs, third)) == text
  {
    var names := [first, second, third];
    assert names[0] == first && names[1] == second && names[2] == third;
  }

  ghost predicate GivenText(attrs: map<string, string>, names: seq<string>, s: string) {
    s != "" && Given(attrs, names, Some(s))
  }

  ghost predicate GivenNoText(attrs: map<string, string>, names: seq<string>) {
    Given(attrs, names, None) || Given(attrs, names, Some(""))
  }

  const HANDLE_NAMES := ["target_message_handle", "message_handle", "messageHandle"]
  const ALIAS_NAMES := ["target", "alias"]
  const CONTENT_NAMES := ["content", "target_content", "targetContent"]
  const INCLUSION_NAMES := ["content_includes", "contentIncludes"]

  ghost predicate PartGiven(attrs: map<string, string>, part: Option<nat>) {
    exists text :: Given(attrs, ["part_index", "partIndex"], text)
                   && part == if text.Some? then NormalizePartIndex(JStr(text.value)) else None
  }

  // A tag's target is by the first of handle, alias, content and inclusion its
  // attributes give; content counts as inclusion there.
  ghost predicate TagNames(attrs: map<string, string>, t: TargetRef) {
    && PartGiven(attrs, t.part)
    && match t
       case ByHandle(h, _) => GivenText(attrs, HANDLE_NAMES, h)
       case ByAlias(a, _) => GivenNoText(attrs, HANDLE_NAMES) && GivenText(attrs, ALIAS_NAMES, a)
       case ByContent(_, _) => false
       case ByInclusion(c, occurrence, _) =>
         && GivenNoText(attrs, HANDLE_NAMES) && GivenNoText(attrs, ALIAS_NAMES)
         && if GivenNoText(attrs, CONTENT_NAMES) then GivenText(attrs, INCLUSION_NAMES, c) && TagOccurs(attrs, occurrence)
            else GivenText(attrs, CONTENT_NAMES, c) && occurrence == None
  }

  predicate TagOccurs(attrs: map<string, string>, occurrence: Option<Occurrence>) {
    match occurrence
    case Some(First) => "occurrence" in attrs && attrs["occurrence"] == "first"
    case Some(Last) => "occurrence" in attrs && attrs["occurrence"] == "last"
    case None => "occurrence" !in attrs || attrs["occurrence"] !in {"first", "last"}
  }

  lemma ThreeGiven(attrs: map<string, string>, first: string, second: string, third: string)
    ensures var text := Or(Or(Attr(attrs, first), Attr(attrs, second)), Attr(attrs, third));
            && (GivenNoText(attrs, [first, second, third]) <==> !Truthy(text))
            && forall s :: GivenText(attrs, [first, second, third], s) <==> Truthy(text) && text.value == s
  {
    hide Given, Attr;
    ThreeAttributes(attrs, first, second, third, None);
    forall s ensures Given(attrs, [first, second, third], Some(s)) <==>
                     Or(Or(Attr(attrs, first), Attr(attrs, second)), Attr(attrs, third)) == Some(s)
    {
      ThreeAttributes(attrs, first, second, third, Some(s));
    }
  }

  lemma TwoGiven(attrs: map<string, string>, first: string, second: string)
    ensures var text := Or(Attr(attrs, first), Attr(attrs, second));
            && (GivenNoText(attrs, [first, second]) <==> !Truthy(text))
            && forall s :: GivenText(attrs, [first, second], s) <==> Truthy(text) && text.value == s
  {
    hide Given, Attr;
    TwoAttributes(attrs, first, second, None);
    forall s ensures Given(attrs, [first, second], Some(s)) <==> Or(Attr(attrs, first), Attr(attrs, second)) == Some(s) {
      TwoAttributes(attrs, first, second, Some(s));
    }
  }

  lemma PartIs(attrs: map<string, string>, part: Option<nat>)
    ensures var text := Or(Attr(attrs, "part_index"), Attr(attrs, "partIndex"));
            PartGiven(attrs, part) <==> part == if text.Some? then NormalizePartIndex(JStr(text.value)) else None
  {
    hide Given, Attr, NormalizePartIndex;
    forall text ensures Given(attrs, ["part_index", "partIndex"], text) <==> Or(Attr(attrs, "part_index"), Attr(attrs, "partIndex")) == text {
      TwoAttributes(attrs, "part_index", "partIndex", text);
    }
  }

  lemma TagOccursWhen(attrs: map<string, string>, occurrence: Option<Occurrence>)
    ensures TagOccurs(attrs, occurrence) <==>
            (if "occurrence" in attrs then NormalizeOccurrence(JStr(attrs["occurrence"])) else None) == occurrence
  {
    assert "first"[0] == 'f' && "last"[0] == 'l';
  }

  lemma TagTargetExactlyWhen(attrs: map<string, string>, t: TargetRef)
    ensures TargetFromAttributes(attrs) == Some(t) <==> TagNames(attrs, t)
  {
    hide Attr, NormalizePartIndex, GivenText, GivenNoText, PartGiven, TagOccurs, NormalizeOccurrence, Truthy;
    PartIs(attrs, t.part);
    ThreeGiven(attrs, "target_message_handle", "message_handle", "messageHandle");
    TwoGiven(attrs, "target", "alias");
    ThreeGiven(attrs, "content", "target_content", "targetContent");
    TwoGiven(attrs, "content_includes", "contentIncludes");
    if t.ByInclusion? { TagOccursWhen(attrs, t.occurrence); }
  }

  // --- tags --------------------------------------------------------------

  // What trimming leaves: the text without the space around it.
  ghost predicate Trimmed(s: string, t: string) {
    && (t != "" ==> !IsSpace(t[0]) && !IsSpace(t[|t| - 1]))
    && exists from: nat :: from + |t| <= |s| && t == s[from..from + |t|] && Blank(s[..from]) && Blank(s[from + |t|..])
  }

  lemma {:induction false} StartTrimmed(s: string) returns (from: nat)
    ensures from <= |s| && TrimStart(s) == s[from..] && Blank(s[..from]) && (from < |s| ==> !IsSpace(s[from]))
  {
    if s != "" && IsSpace(s[0]) {
      var rest := StartTrimmed(s[1..]);
      from := rest + 1;
      assert s[..from] == [s[0]] + s[1..][..rest];
    } else {
      from := 0;
    }
  }

  lemma {:induction false} EndTrimmed(s: string)
    ensures var n := |TrimEnd(s)|;
            n <= |s| && TrimEnd(s) == s[..n] && Blank(s[n..]) && (n > 0 ==> !IsSpace(s[n - 1]))
  {
    if s != "" && IsSpace(s[|s| - 1]) {
      var shorter := s[..|s| - 1];
      EndTrimmed(shorter);
      var n := |TrimEnd(shorter)|;
      assert s[n..] == shorter[n..] + [s[|s| - 1]];
    }
  }

  lemma TrimMeaning(s: string)
    ensures Trimmed(s, Trim(s))
  {
    hide TrimStart, TrimEnd;
    var from := StartTrimmed(s);
    var rest := s[from..];
    EndTrimmed(rest);
    var n := |TrimEnd(rest)|;
    assert s[from..from + n] == rest[..n] && s[from + n..] == rest[n..];
    if n > 0 { assert rest[0] == s[from]; }
  }

  ghost predicate TagStyle(attrs: map<string, string>, style: Option<string>) {
    exists named :: Given(attrs, ["send_style", "sendStyle"], named)
                    && style == if named.Some? && named.value in SEND_STYLES then named else None
  }

  // The target a tag names, or the last message.
  ghost predicate TagTarget(attrs: map<string, string>, t: TargetRef) {
    if exists named :: TagNames(attrs, named) then TagNames(attrs, t) else t == LAST_MESSAGE
  }

  ghost predicate TagReaction(attrs: map<string, string>, body: string, reaction: string) {
    exists named :: Given(attrs, ["type", "reaction"], named) && ReactionCalled(if named.Some? then named.value else Trim(body), reaction)
  }

  predicate Shows(content: string, mediaUrl: Option<string>) {
    content != "" || (mediaUrl.Some? && mediaUrl.value != "")
  }

  // What a piece of a tagged text says is this action.
  ghost predicate PieceSays(piece: Piece, a: ChatAction) {
    match piece
    case Plain(text) => a == Message(Trim(text), None, None) && Trim(text) != ""
    case NoResponseTag => a == Silence
    case MessageTag(attrs, body) =>
      && a.Message? && a.content == Trim(body) && Given(attrs, ["media_url", "mediaUrl"], a.mediaUrl)
      && TagStyle(attrs, a.sendStyle) && Shows(a.content, a.mediaUrl)
    case ReactionTag(attrs, body) => a.Reaction? && TagReaction(attrs, body, a.reaction) && TagTarget(attrs, a.target)
    case ReplyTag(attrs, stripped, nested) =>
      && a.Reply? && TagTarget(attrs, a.target) && Shows(a.content, a.mediaUrl)
      && match nested
         case None => a.content == Trim(stripped) && a.mediaUrl == None && TagStyle(attrs, a.sendStyle)
         case Some(inner) =>
           && a.content == Trim(inner.content) && a.mediaUrl == inner.mediaUrl
           && if inner.sendStyle.Some? && inner.sendStyle.value in SEND_STYLES then a.sendStyle == inner.sendStyle
              else TagStyle(attrs, a.sendStyle)
  }

  lemma TagStyleIs(attrs: map<string, string>, style: Option<string>)
    ensures TagStyle(attrs, style) <==> Style(attrs) == style
  {
    hide Given, Attr;
    forall text ensures Given(attrs, ["send_style", "sendStyle"], text) <==> Or(Attr(attrs, "send_style"), Attr(attrs, "sendStyle")) == text {
      TwoAttributes(attrs, "send_style", "sendStyle", text);
    }
  }

  lemma TagTargetIs(attrs: map<string, string>, t: TargetRef)
    ensures TagTarget(attrs, t) <==> TargetFromAttributes(attrs).GetOr(LAST_MESSAGE) == t
  {
    hide TagNames, TargetFromAttributes;
    forall named ensures TargetFromAttributes(attrs) == Some(named) <==> TagNames(attrs, named) {
      TagTargetExactlyWhen(attrs, named);
    }
  }

  lemma TagReactionIs(attrs: map<string, string>, body: string, reaction: string)
    ensures TagReaction(attrs, body, reaction) <==>
            NormalizeReaction(Or(Or(Attr(attrs, "type"), Attr(attrs, "reaction")), Some(Trim(body)))) == Some(reaction)
  {
    hide Given, Attr, Trim, NormalizeReaction, ReactionCalled;
    var named := Or(Attr(attrs, "type"), Attr(attrs, "reaction"));
    forall text ensures Given(attrs, ["type", "reaction"], text) <==> named == text {
      TwoAttributes(attrs, "type", "reaction", text);
    }
    NicknameIs(if named.Some? then named.value else Trim(body), reaction);
  }

  // A piece of a tagged text gives this action exactly when it says so.
  lemma PieceExactlyWhen(piece: Piece, a: ChatAction)
    ensures PieceAction(piece) == Some(a) <==> PieceSays(piece, a)
  {
    hide Trim, Style, TargetFromAttributes, NormalizeReaction, TagStyle, TagTarget, TagReaction, Given, Attr;
    match piece {
      case MessageTag(attrs, body) =>
        if a.Message? {
          TwoAttributes(attrs, "media_url", "mediaUrl", a.mediaUrl);
          TagStyleIs(attrs, a.sendStyle);
        }
      case ReactionTag(attrs, body) =>
        if a.Reaction? {
          TagReactionIs(attrs, body, a.reaction);
          TagTargetIs(attrs, a.target);
        }
      case ReplyTag(attrs, _, _) =>
        if a.Reply? {
          TagTargetIs(attrs, a.target);
          TagStyleIs(attrs, a.sendStyle);
        }
      case _ =>
    }
  }

  // --- what is queued ----------------------------------------------------

  // The text a target is queued as.
  predicate TargetText(t: TargetRef, s: string) {
    match t
    case ByHandle(h, _) => s == h
    case ByAlias(alias, _) => "alias:" <= s && s[6..] == alias
    case ByContent(text, _) => "content:" <= s && s[8..] == text + ":"
    case ByInclusion(text, occurrence, _) =>
      "content:" <= s && s[8..] == text + (if occurrence == Some(First) then ":first" else if occurrence == Some(Last) then ":last" else ":")
  }

  // The queue takes over the texts, the media and the targets of the actions; a
  // message that shows something counts as media, and keeps its text as caption.
  lemma QueuedMeaning(a: ChatAction)
    ensures var q := Queued(a);
            match a
            case Message(content, mediaUrl, _) =>
              && q.content == Some(content) && q.mediaUrl == mediaUrl && q.reaction == None && q.replyTo == None && q.target == None
              && q.kind == if mediaUrl.Some? && mediaUrl.value != "" then Conversation.Media else Conversation.Message
            case Media(url, caption, _) =>
              && q.content == caption && q.mediaUrl == Some(url) && q.reaction == None && q.replyTo == None && q.target == None
              && q.kind == Conversation.Media
            case Reply(target, content, mediaUrl, _) =>
              && q.content == Some(content) && q.mediaUrl == mediaUrl && q.reaction == None && q.target == None
              && q.replyTo.Some? && TargetText(target, q.replyTo.value) && q.kind == Conversation.Reply
            case Reaction(reaction, target) =>
              && q.content == None && q.mediaUrl == None && q.reaction == Some(reaction) && q.replyTo == None
              && q.target.Some? && TargetText(target, q.target.value) && q.kind == Conversation.Reaction
            case Silence => q.kind == Conversation.Silence
  {
    match a {
      case Reply(target, _, _, _) => TargetIsQueued(target);
      case Reaction(_, target) => TargetIsQueued(target);
      case _ =>
    }
  }

  lemma TargetIsQueued(t: TargetRef)
    ensures TargetText(t, TargetHandle(t))
  {
    match t {
      case ByHandle(_, _) =>
      case ByAlias(alias, _) => Behind("alias:", alias);
      case ByContent(text, _) => Behind("content:", text + ":"); assert "content:" + text + ":" == "content:" + (text + ":");
      case ByInclusion(text, o, _) =>
        var end := ":" + OccurrenceText(o);
        Behind("content:", text + end);
        assert "content:" + text + ":" + OccurrenceText(o) == "content:" + (text + end);
        assert ":" + "first" == ":first" && ":" + "last" == ":last" && ":" + "" == ":";
    }
  }

  lemma Behind(prefix: string, s: string)
    ensures prefix <= prefix + s && (prefix + s)[|prefix|..] == s
  {
  }

  // Every action of a reply is queued, in order.
  lemma QueueIsTheReply(payload: Json, find: Finder)
    ensures var read, queue := NormalizeChatResponse(payload, find), ResponseActions(payload, find);
            && (queue.None? <==> read == Malformed)
            && (queue.Some? && read.Ok? ==>
                  && |queue.value| == |read.reply.actions|
                  && forall i :: 0 <= i < |queue.value| ==> queue.value[i] == Queued(read.reply.actions[i]))
  {
    hide Queued, MixesSilence, RawActions, RawWarnings, Recognised, Says;
  }
}
