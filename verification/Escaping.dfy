// Chains of replace-all passes over a string: the XML escaping of
// scripts/e2e/lib/showcase.ts, the entity decoding of src/chat/actions.ts and
// the label escaping of src/metrics/prometheus.ts.
module Escaping {

  // Every occurrence of the pattern, from left to right, without overlap.
  function ReplaceAll(s: string, pattern: string, with: string): string
    requires pattern != ""
    decreases |s|
  {
    if s == "" then ""
    else if pattern <= s then with + ReplaceAll(s[|pattern|..], pattern, with)
    else [s[0]] + ReplaceAll(s[1..], pattern, with)
  }

  // A string written character by character.
  function Written(s: string, code: char -> string): string {
    if s == "" then "" else code(s[0]) + Written(s[1..], code)
  }

  // --- one pass over a string written character by character -------------

  // Wherever the pattern's first character stands in t, t itself goes on
  // differently, so no occurrence begins inside t.
  ghost predicate NeverBegins(pattern: string, t: string)
    requires pattern != ""
  {
    forall i {:trigger Differs(pattern, t, i)} :: 0 <= i < |t| ==> Differs(pattern, t, i)
  }

  ghost predicate Differs(pattern: string, t: string, i: nat) {
    exists j: nat :: j < |pattern| && i + j < |t| && t[i + j] != pattern[j]
  }

  lemma {:induction false} PassOver(pattern: string, with: string, t: string, rest: string)
    requires pattern != "" && NeverBegins(pattern, t)
    ensures ReplaceAll(t + rest, pattern, with) == t + ReplaceAll(rest, pattern, with)
  {
    if t == "" {
      assert t + rest == rest;
    } else {
      assert Differs(pattern, t, 0);
      assert !(pattern <= t + rest);
      assert (t + rest)[1..] == t[1..] + rest;
      forall i | 0 <= i < |t[1..]| ensures Differs(pattern, t[1..], i) { assert Differs(pattern, t, i + 1); }
      PassOver(pattern, with, t[1..], rest);
    }
  }

  // What the pass makes of one character's text.
  ghost predicate Turns(pattern: string, with: string, before: string, after: string)
    requires pattern != ""
  {
    (before == pattern && after == with) || (before == after && NeverBegins(pattern, before))
  }

  lemma {:induction false} Pass(s: string, pattern: string, with: string, before: char -> string, after: char -> string)
    requires pattern != "" && forall c :: Turns(pattern, with, before(c), after(c))
    ensures ReplaceAll(Written(s, before), pattern, with) == Written(s, after)
  {
    if s != "" {
      var t, rest := before(s[0]), Written(s[1..], before);
      assert Turns(pattern, with, before(s[0]), after(s[0]));
      Pass(s[1..], pattern, with, before, after);
      if NeverBegins(pattern, t) && after(s[0]) == t {
        PassOver(pattern, with, t, rest);
      } else {
        assert pattern <= t + rest && (t + rest)[|pattern|..] == rest;
        assert t + rest != "";
      }
    }
  }

  lemma {:induction false} WrittenPlainly(s: string)
    ensures Written(s, c => [c]) == s
  {
    if s != "" { WrittenPlainly(s[1..]); }
  }

  lemma WrittenAlike(s: string, code: char -> string, code': char -> string)
    requires forall c :: code(c) == code'(c)
    ensures Written(s, code) == Written(s, code')
  {
  }

  // --- XML entities ------------------------------------------------------

  function EscapeXml(s: string): string {
    ReplaceAll(ReplaceAll(ReplaceAll(ReplaceAll(s, "&", "&amp;"), "<", "&lt;"), ">", "&gt;"), "\"", "&quot;")
  }

  function DecodeEntities(s: string): string {
    var s1 := ReplaceAll(ReplaceAll(ReplaceAll(s, "&lt;", "<"), "&gt;", ">"), "&quot;", "\"");
    ReplaceAll(ReplaceAll(s1, "&apos;", "'"), "&amp;", "&")
  }

  // How a character is written when these of & < > " ' are escaped, or after
  // decoding has got as far as the remaining ones.
  function Entity(amp: bool, lt: bool, gt: bool, quot: bool, apos: bool): char -> string {
    c =>
      if c == '&' && amp then "&amp;"
      else if c == '<' && lt then "&lt;"
      else if c == '>' && gt then "&gt;"
      else if c == '"' && quot then "&quot;"
      else if c == '\'' && apos then "&apos;"
      else [c]
  }

  const ENTITIES := {"&lt;", "&gt;", "&quot;", "&apos;", "&amp;"}

  // A pattern that differs from every text that holds its first character, and
  // that only as its own first, never begins in any of them.
  lemma NeverBeginsWhen(pattern: string, t: string)
    requires pattern != ""
    requires forall i :: 0 <= i < |t| && t[i] == pattern[0] ==> i == 0 && Differs(pattern, t, 0)
    ensures NeverBegins(pattern, t)
  {
    forall i | 0 <= i < |t| ensures Differs(pattern, t, i) {
      if t[i] != pattern[0] { assert t[i + 0] != pattern[0]; }
    }
  }

  // No entity begins inside the text of a character that is not that entity.
  lemma EntityNeverBegins(entity: string, lt: bool, gt: bool, quot: bool, apos: bool, c: char)
    requires entity in ENTITIES && Entity(true, lt, gt, quot, apos)(c) != entity
    ensures NeverBegins(entity, Entity(true, lt, gt, quot, apos)(c))
  {
    var t := Entity(true, lt, gt, quot, apos)(c);
    if |t| > 1 {
      assert t[0 + 1] != entity[1] || t[0 + 2] != entity[2];
      assert Differs(entity, t, 0);
    }
    NeverBeginsWhen(entity, t);
  }

  // A pass that decodes one entity.
  lemma Decodes(s: string, entity: string, c: char, before: (bool, bool, bool, bool), after: (bool, bool, bool, bool))
    requires entity in ENTITIES
    requires forall d {:trigger Entity(true, before.0, before.1, before.2, before.3)(d)} ::
               if Entity(true, before.0, before.1, before.2, before.3)(d) == entity
               then Entity(true, after.0, after.1, after.2, after.3)(d) == [c]
               else Entity(true, after.0, after.1, after.2, after.3)(d) == Entity(true, before.0, before.1, before.2, before.3)(d)
    ensures ReplaceAll(Written(s, Entity(true, before.0, before.1, before.2, before.3)), entity, [c]) ==
            Written(s, Entity(true, after.0, after.1, after.2, after.3))
  {
    var code, code' := Entity(true, before.0, before.1, before.2, before.3), Entity(true, after.0, after.1, after.2, after.3);
    forall d ensures Turns(entity, [c], code(d), code'(d)) {
      if code(d) != entity { EntityNeverBegins(entity, before.0, before.1, before.2, before.3, d); }
    }
    Pass(s, entity, [c], code, code');
  }

  // A pass that writes one character as its text.
  lemma Writes(s: string, c: char, text: string, code: char -> string, code': char -> string)
    requires forall d {:trigger code(d)} {:trigger code'(d)} ::
               if d == c then code(d) == [c] && code'(d) == text else code'(d) == code(d) && c !in code(d)
    ensures ReplaceAll(Written(s, code), [c], text) == Written(s, code')
  {
    forall d ensures Turns([c], text, code(d), code'(d)) {
      if d != c { NeverBeginsWhen([c], code(d)); }
    }
    Pass(s, [c], text, code, code');
  }

  // Each escaping pass turns one more character into its entity,
  lemma Escapes(s: string)
    ensures EscapeXml(s) == Written(s, Entity(true, true, true, true, false))
  {
    hide ReplaceAll, Written;
    WrittenPlainly(s);
    WrittenAlike(s, c => [c], Entity(false, false, false, false, false));
    Writes(s, '&', "&amp;", Entity(false, false, false, false, false), Entity(true, false, false, false, false));
    Writes(s, '<', "&lt;", Entity(true, false, false, false, false), Entity(true, true, false, false, false));
    Writes(s, '>', "&gt;", Entity(true, true, false, false, false), Entity(true, true, true, false, false));
    Writes(s, '"', "&quot;", Entity(true, true, true, false, false), Entity(true, true, true, true, false));
  }

  // and each decoding pass one entity back, the apostrophe's too, which other
  // writers of XML escape.
  lemma DecodesLt(s: string, apos: bool)
    ensures ReplaceAll(Written(s, Entity(true, true, true, true, apos)), "&lt;", "<") ==
            Written(s, Entity(true, false, true, true, apos))
  {
    hide ReplaceAll, Written;
    Decodes(s, "&lt;", '<', (true, true, true, apos), (false, true, true, apos));
  }

  lemma DecodesGt(s: string, apos: bool)
    ensures ReplaceAll(Written(s, Entity(true, false, true, true, apos)), "&gt;", ">") ==
            Written(s, Entity(true, false, false, true, apos))
  {
    hide ReplaceAll, Written;
    Decodes(s, "&gt;", '>', (false, true, true, apos), (false, false, true, apos));
  }

  lemma DecodesQuot(s: string, apos: bool)
    ensures ReplaceAll(Written(s, Entity(true, false, false, true, apos)), "&quot;", "\"") ==
            Written(s, Entity(true, false, false, false, apos))
  {
    hide ReplaceAll, Written;
    Decodes(s, "&quot;", '"', (false, false, true, apos), (false, false, false, apos));
  }

  lemma DecodesApos(s: string, apos: bool)
    ensures ReplaceAll(Written(s, Entity(true, false, false, false, apos)), "&apos;", "'") ==
            Written(s, Entity(true, false, false, false, false))
  {
    hide ReplaceAll, Written;
    Decodes(s, "&apos;", '\'', (false, false, false, apos), (false, false, false, false));
  }

  lemma EntitiesAreDecoded(s: string, apos: bool)
    ensures DecodeEntities(Written(s, Entity(true, true, true, true, apos))) == s
  {
    hide ReplaceAll, Written;
    DecodesLt(s, apos);
    DecodesGt(s, apos);
    DecodesQuot(s, apos);
    DecodesApos(s, apos);
    DecodesAmp(s);
    WrittenAlike(s, c => [c], Entity(false, false, false, false, false));
    WrittenPlainly(s);
  }

  lemma EntitiesRoundTrip(s: string)
    ensures DecodeEntities(EscapeXml(s)) == s
  {
    Escapes(s);
    EntitiesAreDecoded(s, false);
  }

  lemma DecodesAmp(s: string)
    ensures ReplaceAll(Written(s, Entity(true, false, false, false, false)), "&amp;", "&") == Written(s, Entity(false, false, false, false, false))
  {
    var code, code' := Entity(true, false, false, false, false), Entity(false, false, false, false, false);
    forall d ensures Turns("&amp;", "&", code(d), code'(d)) {
      if d != '&' { EntityNeverBegins("&amp;", false, false, false, false, d); }
    }
    Pass(s, "&amp;", "&", code, code');
  }

  // Decoding & any earlier would not do.  Done first, it gives a text without
  // < > " back as it was, and the later passes then decode what that text
  // itself happens to spell.
  lemma AmpersandFirst(s: string)
    requires '<' !in s && '>' !in s && '"' !in s
    ensures ReplaceAll(EscapeXml(s), "&amp;", "&") == s
  {
    Escapes(s);
    var code, code' := Entity(true, true, true, true, false), Entity(false, true, true, true, false);
    forall d ensures Turns("&amp;", "&", code(d), code'(d)) {
      if d != '&' { EntityNeverBegins("&amp;", true, true, true, false, d); }
    }
    Pass(s, "&amp;", "&", code, code');
    WrittenBare(s);
  }

  lemma {:induction false} WrittenBare(s: string)
    requires '<' !in s && '>' !in s && '"' !in s
    ensures Written(s, Entity(false, true, true, true, false)) == s
  {
    if s != "" { WrittenBare(s[1..]); }
  }

  lemma AmpersandGoesLast()
    ensures ReplaceAll(ReplaceAll(EscapeXml("&lt;"), "&amp;", "&"), "&lt;", "<") == "<"
    ensures DecodeEntities(EscapeXml("&lt;")) == "&lt;"
  {
    AmpersandFirst("&lt;");
    EntitiesRoundTrip("&lt;");
  }

  // --- label values ------------------------------------------------------

  function EscapeLabel(s: string): string {
    ReplaceAll(ReplaceAll(ReplaceAll(ReplaceAll(s, "\\", "\\\\"), "\"", "\\\""), "\n", "\\n"), "\r", "\\r")
  }

  // How a character is written once the first passes are done.
  function Escape(backslash: bool, quote: bool, newline: bool, cr: bool): char -> string {
    c =>
      if c == '\\' && backslash then "\\\\"
      else if c == '"' && quote then "\\\""
      else if c == '\n' && newline then "\\n"
      else if c == '\r' && cr then "\\r"
      else [c]
  }

  lemma LabelIsWritten(s: string)
    ensures EscapeLabel(s) == Written(s, Escape(true, true, true, true))
  {
    WrittenPlainly(s);
    WrittenAlike(s, c => [c], Escape(false, false, false, false));
    Writes(s, '\\', "\\\\", Escape(false, false, false, false), Escape(true, false, false, false));
    Writes(s, '"', "\\\"", Escape(true, false, false, false), Escape(true, true, false, false));
    Writes(s, '\n', "\\n", Escape(true, true, false, false), Escape(true, true, true, false));
    Writes(s, '\r', "\\r", Escape(true, true, true, false), Escape(true, true, true, true));
  }

  // Reading the text between the quotes back, with the escapes the renderer
  // uses.  A bare quote, line break or lone backslash ends the value early, and
  // the second result is then false.
  function Unescape(s: string): (r: (string, bool)) {
    if s == "" then ("", true)
    else if s[0] == '"' || s[0] == '\n' || s[0] == '\r' then ("", false)
    else if s[0] == '\\' then
      if |s| == 1 then ("", false)
      else
        var c := if s[1] == 'n' then '\n' else if s[1] == 'r' then '\r' else s[1];
        var (rest, whole) := Unescape(s[2..]);
        ([c] + rest, whole)
    else
      var (rest, whole) := Unescape(s[1..]);
      ([s[0]] + rest, whole)
  }

  // Whatever a label holds, its text stays on its line and inside its quotes,
  // and says exactly what the label holds.
  lemma LabelsRoundTrip(s: string)
    ensures Unescape(EscapeLabel(s)) == (s, true)
  {
    LabelIsWritten(s);
    WrittenReads(s);
  }

  lemma {:induction false} WrittenReads(s: string)
    ensures Unescape(Written(s, Escape(true, true, true, true))) == (s, true)
  {
    if s != "" {
      var t, rest := Escape(true, true, true, true)(s[0]), Written(s[1..], Escape(true, true, true, true));
      WrittenReads(s[1..]);
      assert t == [s[0]] || (|t| == 2 && t[0] == '\\');
      assert (t + rest)[|t|..] == rest;
      assert Written(s, Escape(true, true, true, true)) == t + rest;
      assert [s[0]] + s[1..] == s;
    }
  }
}
