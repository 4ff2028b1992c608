/**
 * `_escape_html`: three successive replacements, `&` first, then `<` and `>`.
 */
module Html {
  import opened Text

  /** `s.replace("&", "&amp;").replace("<", "&lt;").replace(">", "&gt;")` */
  function EscapeHtml(s: string): (r: string)
    ensures '<' !in r && '>' !in r
  {
    var amp := ReplaceChar(s, '&', "&amp;");
    var lt := ReplaceChar(amp, '<', "&lt;");
    ReplaceKeepsAbsent(lt, '>', "&gt;", '<');
    ReplaceChar(lt, '>', "&gt;")
  }

  /** Replacing one character introduces no other character than those of the replacement. */
  lemma {:induction false} ReplaceKeepsAbsent(s: string, c: char, rep: string, d: char)
    requires d !in s && d !in rep
    ensures d !in ReplaceChar(s, c, rep)
  {
    if s != [] {
      assert d !in s[1..];
      ReplaceKeepsAbsent(s[1..], c, rep, d);
    }
  }

  /** The entity of one character, as a single-pass escaper would emit it. */
  function EscapeChar(c: char): string {
    if c == '&' then "&amp;" else if c == '<' then "&lt;" else if c == '>' then "&gt;" else [c]
  }

  /** Escaping character by character, in one pass. */
  function EscapeEach(s: string): string {
    if s == [] then [] else EscapeChar(s[0]) + EscapeEach(s[1..])
  }

  lemma {:induction false} ReplaceConcat(a: string, b: string, c: char, rep: string)
    ensures ReplaceChar(a + b, c, rep) == ReplaceChar(a, c, rep) + ReplaceChar(b, c, rep)
  {
    if a != [] {
      assert (a + b)[0] == a[0] && (a + b)[1..] == a[1..] + b;
      ReplaceConcat(a[1..], b, c, rep);
      var head := if a[0] == c then rep else [a[0]];
      assert ReplaceChar(a + b, c, rep) == head + ReplaceChar(a[1..] + b, c, rep);
      assert ReplaceChar(a, c, rep) == head + ReplaceChar(a[1..], c, rep);
    } else {
      assert a + b == b;
    }
  }

  lemma {:induction false} ReplaceAbsent(s: string, c: char, rep: string)
    requires c !in s
    ensures ReplaceChar(s, c, rep) == s
  {
    if s != [] {
      assert c !in s[1..];
      ReplaceAbsent(s[1..], c, rep);
    }
  }

  /** Escaping distributes over concatenation. */
  lemma EscapeConcat(a: string, b: string)
    ensures EscapeHtml(a + b) == EscapeHtml(a) + EscapeHtml(b)
  {
    ReplaceConcat(a, b, '&', "&amp;");
    var ampA, ampB := ReplaceChar(a, '&', "&amp;"), ReplaceChar(b, '&', "&amp;");
    ReplaceConcat(ampA, ampB, '<', "&lt;");
    ReplaceConcat(ReplaceChar(ampA, '<', "&lt;"), ReplaceChar(ampB, '<', "&lt;"), '>', "&gt;");
  }

  /** Replacing in a one-character string. */
  lemma ReplaceSingle(x: char, c: char, rep: string)
    ensures ReplaceChar([x], c, rep) == if x == c then rep else [x]
  {
    assert [x][1..] == [];
  }

  lemma EscapeOne(c: char)
    ensures EscapeHtml([c]) == EscapeChar(c)
  {
    ReplaceSingle(c, '&', "&amp;");
    var amp := ReplaceChar([c], '&', "&amp;");
    if c == '&' {
      ReplaceAbsent(amp, '<', "&lt;");
      ReplaceAbsent(amp, '>', "&gt;");
    } else {
      ReplaceSingle(c, '<', "&lt;");
      var lt := ReplaceChar(amp, '<', "&lt;");
      if c == '<' {
        ReplaceAbsent(lt, '>', "&gt;");
      } else {
        ReplaceSingle(c, '>', "&gt;");
      }
    }
  }

  /**
   * Because `&` is replaced first, the three passes act as one pass: the
   * entities the later passes introduce are never escaped again.
   */
  lemma {:induction false} EscapeIsSinglePass(s: string)
    ensures EscapeHtml(s) == EscapeEach(s)
  {
    if s != [] {
      EscapeIsSinglePass(s[1..]);
      assert s == [s[0]] + s[1..];
      EscapeConcat([s[0]], s[1..]);
      EscapeOne(s[0]);
    }
  }

  /** The first character of an escaped text, an entity read as the character it stands for, and its width. */
  function FirstEntity(s: string): (r: (char, nat))
    requires s != []
    ensures 1 <= r.1 <= |s|
  {
    if StartsWith(s, "&amp;") then ('&', 5)
    else if StartsWith(s, "&lt;") then ('<', 4)
    else if StartsWith(s, "&gt;") then ('>', 4)
    else (s[0], 1)
  }

  /** Reading the three entities back. */
  function Unescape(s: string): (r: string)
    decreases |s|
  {
    if s == [] then []
    else
      var e := FirstEntity(s);
      [e.0] + Unescape(s[e.1..])
  }

  /** Escaping loses nothing: the text is recovered from its escaped form. */
  lemma EscapeRoundTrip(s: string)
    ensures Unescape(EscapeHtml(s)) == s
  {
    EscapeIsSinglePass(s);
    UnescapeEach(s);
  }

  lemma {:induction false} UnescapeEach(s: string)
    ensures Unescape(EscapeEach(s)) == s
  {
    if s != [] {
      UnescapeEach(s[1..]);
      UnescapeStep(s[0], EscapeEach(s[1..]));
      assert [s[0]] + s[1..] == s;
    }
  }

  /** The entity of one character is read back as that character. */
  lemma UnescapeStep(c: char, rest: string)
    ensures Unescape(EscapeChar(c) + rest) == [c] + Unescape(rest)
  {
    var t := EscapeChar(c) + rest;
    EntityOfEscape(c, rest);
    assert t[|EscapeChar(c)|..] == rest;
  }

  lemma EntityOfEscape(c: char, rest: string)
    ensures FirstEntity(EscapeChar(c) + rest) == (c, |EscapeChar(c)|)
  {
    var t := EscapeChar(c) + rest;
    if c == '&' {
      assert t[..5] == "&amp;";
    } else if c == '<' {
      assert t[..4] == "&lt;";
      assert t[1] == 'l';
    } else if c == '>' {
      assert t[..4] == "&gt;";
      assert t[1] == 'g';
    } else {
      assert t[0] == c;
    }
  }

  /** Text without the three special characters is left as it is. */
  lemma PlainTextUnchanged(s: string)
    requires '&' !in s && '<' !in s && '>' !in s
    ensures EscapeHtml(s) == s
  {
    ReplaceAbsent(s, '&', "&amp;");
    ReplaceAbsent(s, '<', "&lt;");
    ReplaceAbsent(s, '>', "&gt;");
  }
}
