/**
 * Attribute-value escaping for the layout markup, and the decoding a
 * conforming XML 1.0 reader applies to an attribute value (section 3.3.3,
 * "Attribute-Value Normalization", with the predefined entities of section
 * 4.6). The escaper is the source's chain of four replace-all steps; the
 * lemmas show that it is a per-character substitution, that its output holds
 * no raw markup character, and that decoding undoes it.
 */
module Escaping {

  /** `replacingOccurrences(of: String(c), with: rep)` for a one-character pattern. */
  function ReplaceChar(s: string, c: char, rep: string): string {
    if |s| == 0 then ""
    else (if s[0] == c then rep else [s[0]]) + ReplaceChar(s[1..], c, rep)
  }

  /** The escaper: `&` first, so the entities written later are not escaped again. */
  function Escape(s: string): string {
    var r0 := ReplaceChar(s, '&', "&amp;");
    var r1 := ReplaceChar(r0, '"', "&quot;");
    var r2 := ReplaceChar(r1, '<', "&lt;");
    ReplaceChar(r2, '>', "&gt;")
  }

  /** What the escaper writes for one character. */
  function EscapeChar(c: char): string {
    match c
    case '&' => "&amp;"
    case '"' => "&quot;"
    case '<' => "&lt;"
    case '>' => "&gt;"
    case _ => [c]
  }

  /** The escaper as a single left-to-right pass. */
  function EscapeEach(s: string): string {
    if |s| == 0 then "" else EscapeChar(s[0]) + EscapeEach(s[1..])
  }

  predicate HasPrefix(s: string, p: string) {
    |p| <= |s| && s[..|p|] == p
  }

  /** Position `i` of `s` starts one of the four entities the escaper writes. */
  predicate EntityAt(s: string, i: int)
    requires 0 <= i <= |s|
  {
    HasPrefix(s[i..], "&amp;") || HasPrefix(s[i..], "&quot;")
    || HasPrefix(s[i..], "&lt;") || HasPrefix(s[i..], "&gt;")
  }

  /** Text that can stand inside a double-quoted attribute value as it is. */
  predicate SafeAttributeText(s: string) {
    forall i :: 0 <= i < |s| ==>
      s[i] != '"' && s[i] != '<' && s[i] != '>' && (s[i] == '&' ==> EntityAt(s, i))
  }

  /** Replaces the four predefined entities by their characters; everything else is kept. */
  function DecodeEntities(s: string): string
    decreases |s|
  {
    if |s| == 0 then ""
    else if HasPrefix(s, "&amp;") then "&" + DecodeEntities(s[5..])
    else if HasPrefix(s, "&quot;") then "\"" + DecodeEntities(s[6..])
    else if HasPrefix(s, "&lt;") then "<" + DecodeEntities(s[4..])
    else if HasPrefix(s, "&gt;") then ">" + DecodeEntities(s[4..])
    else [s[0]] + DecodeEntities(s[1..])
  }

  predicate IsLineBreakOrTab(c: char) {
    c == '\t' || c == '\n' || c == '\r'
  }

  /**
   * A character XML 1.0 allows in a document (the Char production of section
   * 2.2); a reader stops with a fatal error at any other.
   */
  predicate IsXmlChar(c: char) {
    || c == '\t' || c == '\n' || c == '\r'
    || '\U{20}' <= c <= '\U{D7FF}'
    || '\U{E000}' <= c <= '\U{FFFD}'
    || '\U{10000}' <= c
  }

  predicate XmlText(s: string) {
    forall i :: 0 <= i < |s| ==> IsXmlChar(s[i])
  }

  /** The characters the escaper leaves literal but a reader rewrites. */
  predicate NoLineBreaksOrTabs(s: string) {
    forall i :: 0 <= i < |s| ==> !IsLineBreakOrTab(s[i])
  }

  /**
   * End-of-line handling (XML 1.0 section 2.11) followed by the white-space
   * step of section 3.3.3: CR LF counts as one line break, and every line
   * break or tab becomes a single space.
   */
  function NormalizeWhitespace(s: string): string
    decreases |s|
  {
    if |s| == 0 then ""
    else if HasPrefix(s, "\r\n") then " " + NormalizeWhitespace(s[2..])
    else if IsLineBreakOrTab(s[0]) then " " + NormalizeWhitespace(s[1..])
    else [s[0]] + NormalizeWhitespace(s[1..])
  }

  /** The value a reader reports for an attribute written as `raw` between quotes. */
  function DecodeAttributeValue(raw: string): string {
    DecodeEntities(NormalizeWhitespace(raw))
  }

  lemma {:induction false} ReplaceCharAppend(a: string, b: string, c: char, rep: string)
    ensures ReplaceChar(a + b, c, rep) == ReplaceChar(a, c, rep) + ReplaceChar(b, c, rep)
  {
    if |a| > 0 {
      assert (a + b)[1..] == a[1..] + b;
      ReplaceCharAppend(a[1..], b, c, rep);
    } else {
      assert a + b == b;
    }
  }

  lemma {:induction false} ReplaceCharAbsent(s: string, c: char, rep: string)
    requires forall i :: 0 <= i < |s| ==> s[i] != c
    ensures ReplaceChar(s, c, rep) == s
  {
    if |s| > 0 {
      ReplaceCharAbsent(s[1..], c, rep);
      assert s == [s[0]] + s[1..];
    }
  }

  lemma ReplaceCharSingle(x: char, c: char, rep: string)
    ensures ReplaceChar([x], c, rep) == if x == c then rep else [x]
  {
    assert [x][1..] == [];
  }

  /** The later steps leave an entity alone once it is written. */
  lemma EntityStaysPut(e: string, c: char, rep: string)
    requires e == "&amp;" || e == "&quot;" || e == "&lt;" || e == "&gt;"
    requires c == '"' || c == '<' || c == '>'
    ensures ReplaceChar(e, c, rep) == e
  {
    ReplaceCharAbsent(e, c, rep);
  }

  lemma EscapeAmp()
    ensures Escape("&") == "&amp;"
  {
    ReplaceCharSingle('&', '&', "&amp;");
    EntityStaysPut("&amp;", '"', "&quot;");
    EntityStaysPut("&amp;", '<', "&lt;");
    EntityStaysPut("&amp;", '>', "&gt;");
  }

  lemma EscapeQuot()
    ensures Escape("\"") == "&quot;"
  {
    ReplaceCharSingle('"', '&', "&amp;");
    ReplaceCharSingle('"', '"', "&quot;");
    EntityStaysPut("&quot;", '<', "&lt;");
    EntityStaysPut("&quot;", '>', "&gt;");
  }

  lemma EscapeLt()
    ensures Escape("<") == "&lt;"
  {
    ReplaceCharSingle('<', '&', "&amp;");
    ReplaceCharSingle('<', '"', "&quot;");
    ReplaceCharSingle('<', '<', "&lt;");
    EntityStaysPut("&lt;", '>', "&gt;");
  }

  lemma EscapeGt()
    ensures Escape(">") == "&gt;"
  {
    ReplaceCharSingle('>', '&', "&amp;");
    ReplaceCharSingle('>', '"', "&quot;");
    ReplaceCharSingle('>', '<', "&lt;");
    ReplaceCharSingle('>', '>', "&gt;");
  }

  lemma EscapePlainChar(c: char)
    requires c != '&' && c != '"' && c != '<' && c != '>'
    ensures Escape([c]) == [c]
  {
    ReplaceCharSingle(c, '&', "&amp;");
    ReplaceCharSingle(c, '"', "&quot;");
    ReplaceCharSingle(c, '<', "&lt;");
    ReplaceCharSingle(c, '>', "&gt;");
  }

  lemma EscapeOneChar(c: char)
    ensures Escape([c]) == EscapeChar(c)
  {
    if c == '&' {
      EscapeAmp();
    } else if c == '"' {
      EscapeQuot();
    } else if c == '<' {
      EscapeLt();
    } else if c == '>' {
      EscapeGt();
    } else {
      EscapePlainChar(c);
    }
  }

  /** The four replace-all steps amount to one per-character substitution. */
  lemma {:induction false} EscapeIsPerCharacter(s: string)
    ensures Escape(s) == EscapeEach(s)
  {
    if |s| > 0 {
      var head, tail := [s[0]], s[1..];
      assert s == head + tail;
      ReplaceCharAppend(head, tail, '&', "&amp;");
      var h0, t0 := ReplaceChar(head, '&', "&amp;"), ReplaceChar(tail, '&', "&amp;");
      ReplaceCharAppend(h0, t0, '"', "&quot;");
      var h1, t1 := ReplaceChar(h0, '"', "&quot;"), ReplaceChar(t0, '"', "&quot;");
      ReplaceCharAppend(h1, t1, '<', "&lt;");
      var h2, t2 := ReplaceChar(h1, '<', "&lt;"), ReplaceChar(t1, '<', "&lt;");
      ReplaceCharAppend(h2, t2, '>', "&gt;");
      assert Escape(s) == Escape(head) + Escape(tail);
      EscapeOneChar(s[0]);
      EscapeIsPerCharacter(tail);
    }
  }

  /** A character other than `&` starts no entity and reads as itself. */
  lemma DecodePlainStep(s: string)
    requires |s| > 0 && s[0] != '&'
    ensures DecodeEntities(s) == [s[0]] + DecodeEntities(s[1..])
  {
    assert !HasPrefix(s, "&amp;") && !HasPrefix(s, "&quot;") by {
      assert |s| >= 5 ==> s[..5][0] == s[0];
      assert |s| >= 6 ==> s[..6][0] == s[0];
    }
    assert !HasPrefix(s, "&lt;") && !HasPrefix(s, "&gt;") by {
      assert |s| >= 4 ==> s[..4][0] == s[0];
    }
  }

  /** A text that differs from `p` at position `k` does not start with `p`. */
  lemma DiffersAt(s: string, p: string, k: nat)
    requires k < |p| && k < |s| && s[k] != p[k]
    ensures !HasPrefix(s, p)
  {
    assert |p| <= |s| ==> s[..|p|][k] == s[k];
  }

  lemma DecodeAfterEscapeChar(c: char, t: string)
    ensures DecodeEntities(EscapeChar(c) + t) == [c] + DecodeEntities(t)
  {
    var s := EscapeChar(c) + t;
    if c == '&' {
      assert s[..5] == "&amp;" && s[5..] == t;
    } else if c == '"' {
      assert s[1] == 'q' && s[6..] == t;
      DiffersAt(s, "&amp;", 1);
      assert s[..6] == "&quot;";
    } else if c == '<' {
      assert s[1] == 'l' && s[4..] == t;
      DiffersAt(s, "&amp;", 1);
      DiffersAt(s, "&quot;", 1);
      assert s[..4] == "&lt;";
    } else if c == '>' {
      assert s[1] == 'g' && s[4..] == t;
      DiffersAt(s, "&amp;", 1);
      DiffersAt(s, "&quot;", 1);
      DiffersAt(s, "&lt;", 1);
      assert s[..4] == "&gt;";
    } else {
      assert s[0] == c && s[1..] == t;
      DecodePlainStep(s);
    }
  }

  lemma {:induction false} DecodeEscapeEach(s: string)
    ensures DecodeEntities(EscapeEach(s)) == s
  {
    if |s| > 0 {
      DecodeAfterEscapeChar(s[0], EscapeEach(s[1..]));
      DecodeEscapeEach(s[1..]);
      assert s == [s[0]] + s[1..];
    }
  }

  /** Decoding the four entities gives back exactly what was escaped. */
  lemma DecodeEscape(s: string)
    ensures DecodeEntities(Escape(s)) == s
  {
    EscapeIsPerCharacter(s);
    DecodeEscapeEach(s);
  }

  lemma SafeAppend(a: string, b: string)
    requires SafeAttributeText(a) && SafeAttributeText(b)
    ensures SafeAttributeText(a + b)
  {
    var ab := a + b;
    forall i | 0 <= i < |ab| && ab[i] == '&'
      ensures EntityAt(ab, i)
    {
      if i < |a| {
        assert EntityAt(a, i);
        assert a[i..] + b == ab[i..];
        assert forall p :: HasPrefix(a[i..], p) ==> HasPrefix(ab[i..], p);
      } else {
        assert ab[i..] == b[i - |a|..];
        assert EntityAt(b, i - |a|);
      }
    }
  }

  lemma {:induction false} EscapeEachSafe(s: string)
    ensures SafeAttributeText(EscapeEach(s))
  {
    if |s| > 0 {
      var e := EscapeChar(s[0]);
      assert SafeAttributeText(e) by {
        assert e[0..] == e;
      }
      EscapeEachSafe(s[1..]);
      SafeAppend(e, EscapeEach(s[1..]));
    }
  }

  /** Escaped text holds no raw `"`, `<` or `>`, and each `&` in it opens an entity. */
  lemma EscapeSafe(s: string)
    ensures SafeAttributeText(Escape(s))
  {
    EscapeIsPerCharacter(s);
    EscapeEachSafe(s);
  }

  lemma NoLineBreaksAppend(a: string, b: string)
    requires NoLineBreaksOrTabs(a) && NoLineBreaksOrTabs(b)
    ensures NoLineBreaksOrTabs(a + b)
  {
    forall i | 0 <= i < |a + b|
      ensures !IsLineBreakOrTab((a + b)[i])
    {
      if i >= |a| {
        assert (a + b)[i] == b[i - |a|];
      }
    }
  }

  lemma {:induction false} EscapeEachKeepsNoLineBreaks(s: string)
    requires NoLineBreaksOrTabs(s)
    ensures NoLineBreaksOrTabs(EscapeEach(s))
  {
    if |s| > 0 {
      assert !IsLineBreakOrTab(s[0]);
      assert NoLineBreaksOrTabs(s[1..]) by {
        assert forall i :: 0 <= i < |s[1..]| ==> s[1..][i] == s[i + 1];
      }
      EscapeEachKeepsNoLineBreaks(s[1..]);
      NoLineBreaksAppend(EscapeChar(s[0]), EscapeEach(s[1..]));
    }
  }

  lemma {:induction false} NormalizeIdentity(s: string)
    requires NoLineBreaksOrTabs(s)
    ensures NormalizeWhitespace(s) == s
  {
    if |s| > 0 {
      assert !HasPrefix(s, "\r\n") by { assert s[0] != '\r'; }
      NormalizeIdentity(s[1..]);
      assert s == [s[0]] + s[1..];
    }
  }

  /**
   * A value without tabs or line breaks reads back as written. The escaper
   * leaves those characters literal, so for them the read value differs.
   */
  lemma DecodeAttributeOfEscape(s: string)
    requires NoLineBreaksOrTabs(s)
    ensures DecodeAttributeValue(Escape(s)) == s
  {
    EscapeIsPerCharacter(s);
    EscapeEachKeepsNoLineBreaks(s);
    NormalizeIdentity(Escape(s));
    DecodeEscape(s);
  }

  lemma EscapeKeepsLineBreak()
    ensures Escape("a\nb") == "a\nb"
  {
    EscapeIsPerCharacter("a\nb");
    assert "a\nb"[1..] == "\nb" && "\nb"[1..] == "b";
  }

  lemma NormalizeLineBreak()
    ensures NormalizeWhitespace("a\nb") == "a b"
  {
    var s := "a\nb";
    DiffersAt(s, "\r\n", 0);
    assert s[1..] == "\nb";
    DiffersAt(s[1..], "\r\n", 0);
    assert s[1..][0] == '\n' && s[1..][1..] == "b" && "b"[1..] == "";
  }

  lemma DecodeSpaced()
    ensures DecodeEntities("a b") == "a b"
  {
    var n := "a b";
    assert n[1..] == " b" && n[1..][1..] == "b" && n[1..][1..][1..] == "";
    DecodePlainStep(n);
    DecodePlainStep(n[1..]);
    DecodePlainStep(n[1..][1..]);
  }

  /** A line break is written literally, so a reader sees a space in its place. */
  lemma LineBreakReadsAsSpace()
    ensures Escape("a\nb") == "a\nb"
    ensures DecodeAttributeValue(Escape("a\nb")) == "a b"
  {
    EscapeKeepsLineBreak();
    NormalizeLineBreak();
    DecodeSpaced();
  }
}
