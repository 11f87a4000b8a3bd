/** Escaping by successive replacement, and the predefined entities of XML 1.0, section 4.6. */
module XmlText {

  /** `strings.ReplaceAll` for a one-character pattern. */
  function ReplaceAll(s: string, c: char, repl: string): string {
    if s == [] then [] else (if s[0] == c then repl else [s[0]]) + ReplaceAll(s[1..], c, repl)
  }

  function EscapeAttr(s: string): string {
    ReplaceAll(ReplaceAll(ReplaceAll(s, '&', "&amp;"), '<', "&lt;"), '\'', "&apos;")
  }

  /** The handlers' own copy replaces the apostrophe before the less-than sign. */
  function EscapeAttrHandlers(s: string): string {
    ReplaceAll(ReplaceAll(ReplaceAll(s, '&', "&amp;"), '\'', "&apos;"), '<', "&lt;")
  }

  function EscapeText(s: string): string {
    ReplaceAll(ReplaceAll(ReplaceAll(s, '&', "&amp;"), '<', "&lt;"), '>', "&gt;")
  }

  // ---- One substitution per character ----

  /** What a character is written as, where `quote` is the third character that must not appear raw. */
  function Entity(c: char, quote: char): string {
    if c == '&' then "&amp;"
    else if c == '<' then "&lt;"
    else if c == quote then (if quote == '>' then "&gt;" else "&apos;")
    else [c]
  }

  function OnePass(s: string, quote: char): string {
    if s == [] then [] else Entity(s[0], quote) + OnePass(s[1..], quote)
  }

  lemma {:induction false} ReplaceAllConcat(a: string, b: string, c: char, repl: string)
    ensures ReplaceAll(a + b, c, repl) == ReplaceAll(a, c, repl) + ReplaceAll(b, c, repl)
  {
    if a == [] {
      assert a + b == b;
    } else {
      assert (a + b)[1..] == a[1..] + b;
      ReplaceAllConcat(a[1..], b, c, repl);
    }
  }

  lemma {:induction false} ReplaceAllAbsent(s: string, c: char, repl: string)
    requires c !in s
    ensures ReplaceAll(s, c, repl) == s
  {
    if s != [] {
      assert s == [s[0]] + s[1..];
      ReplaceAllAbsent(s[1..], c, repl);
    }
  }

  lemma ReplaceOne(x: char, c: char, repl: string)
    ensures ReplaceAll([x], c, repl) == if x == c then repl else [x]
  {
    assert [x][1..] == [];
    assert repl + [] == repl;
  }

  /** One character through the three replacements, in either order of the last two. */
  lemma ThreeOnOne(x: char, quote: char, repl: string)
    requires (quote == '\'' && repl == "&apos;") || (quote == '>' && repl == "&gt;")
    ensures ReplaceAll(ReplaceAll(ReplaceAll([x], '&', "&amp;"), '<', "&lt;"), quote, repl) == Entity(x, quote)
    ensures ReplaceAll(ReplaceAll(ReplaceAll([x], '&', "&amp;"), quote, repl), '<', "&lt;") == Entity(x, quote)
  {
    hide ReplaceAll;
    ReplaceOne(x, '&', "&amp;");
    ReplaceOne(x, '<', "&lt;");
    ReplaceOne(x, quote, repl);
    ReplaceAllAbsent("&amp;", '<', "&lt;");
    ReplaceAllAbsent("&amp;", quote, repl);
    ReplaceAllAbsent("&lt;", quote, repl);
    ReplaceAllAbsent(repl, '<', "&lt;");
  }

  lemma {:induction false} ThreeIsOnePass(s: string, quote: char, repl: string)
    requires (quote == '\'' && repl == "&apos;") || (quote == '>' && repl == "&gt;")
    ensures ReplaceAll(ReplaceAll(ReplaceAll(s, '&', "&amp;"), '<', "&lt;"), quote, repl) == OnePass(s, quote)
    ensures ReplaceAll(ReplaceAll(ReplaceAll(s, '&', "&amp;"), quote, repl), '<', "&lt;") == OnePass(s, quote)
  {
    if s != [] {
      hide ReplaceAll;
      var x, t := [s[0]], s[1..];
      assert s == x + t;
      ThreeOnOne(s[0], quote, repl);
      ThreeIsOnePass(t, quote, repl);
      ReplaceAllConcat(x, t, '&', "&amp;");
      var x1, t1 := ReplaceAll(x, '&', "&amp;"), ReplaceAll(t, '&', "&amp;");
      ReplaceAllConcat(x1, t1, '<', "&lt;");
      ReplaceAllConcat(ReplaceAll(x1, '<', "&lt;"), ReplaceAll(t1, '<', "&lt;"), quote, repl);
      ReplaceAllConcat(x1, t1, quote, repl);
      ReplaceAllConcat(ReplaceAll(x1, quote, repl), ReplaceAll(t1, quote, repl), '<', "&lt;");
    }
  }

  /** Replacing three times is substituting once, so the order of the last two replacements is irrelevant. */
  lemma ChainedEscapingIsOnePass(s: string)
    ensures EscapeAttr(s) == OnePass(s, '\'') == EscapeAttrHandlers(s)
    ensures EscapeText(s) == OnePass(s, '>')
  {
    ThreeIsOnePass(s, '\'', "&apos;");
    ThreeIsOnePass(s, '>', "&gt;");
  }

  lemma {:induction false} OnePassClean(s: string, quote: char)
    requires quote == '\'' || quote == '>'
    ensures '<' !in OnePass(s, quote) && quote !in OnePass(s, quote)
    ensures s != [] ==> OnePass(s, quote) != []
  {
    if s != [] {
      OnePassClean(s[1..], quote);
    }
  }

  // ---- Reading entities back ----

  /** Entities are replaced from the left; an ampersand that starts none of them is kept (lenient reading). */
  function Decode(s: string): string {
    if s == [] then []
    else if s[0] != '&' then [s[0]] + Decode(s[1..])
    else if "&amp;" <= s then "&" + Decode(s[5..])
    else if "&lt;" <= s then "<" + Decode(s[4..])
    else if "&gt;" <= s then ">" + Decode(s[4..])
    else if "&apos;" <= s then "'" + Decode(s[6..])
    else if "&quot;" <= s then "\"" + Decode(s[6..])
    else "&" + Decode(s[1..])
  }

  lemma DecodeEntity(c: char, quote: char, t: string)
    requires quote == '\'' || quote == '>'
    ensures Decode(Entity(c, quote) + t) == [c] + Decode(t)
  {
    var e := Entity(c, quote);
    var s := e + t;
    assert s[|e|..] == t && e <= s;
    if c == '&' || c == '<' || c == quote {
      assert s[1] == e[1];
      assert "&lt;"[1] == 'l' && "&gt;"[1] == 'g' && "&apos;"[1] == 'a' && "&apos;"[2] == 'p' && "&amp;"[2] == 'm';
      assert s[2] == e[2];
    } else {
      assert s[1..] == t;
    }
  }

  lemma {:induction false} DecodeOnePass(s: string, quote: char)
    requires quote == '\'' || quote == '>'
    ensures Decode(OnePass(s, quote)) == s
  {
    if s != [] {
      DecodeOnePass(s[1..], quote);
      DecodeEntity(s[0], quote, OnePass(s[1..], quote));
    }
  }

  /** For every string: what is written holds no raw delimiter, and reads back as the string. */
  lemma EscapeRoundTrip(s: string)
    ensures Decode(EscapeAttr(s)) == s && '<' !in EscapeAttr(s) && '\'' !in EscapeAttr(s)
    ensures Decode(EscapeText(s)) == s && '<' !in EscapeText(s) && '>' !in EscapeText(s)
    ensures s != [] ==> EscapeText(s) != []
  {
    ChainedEscapingIsOnePass(s);
    OnePassClean(s, '\'');
    OnePassClean(s, '>');
    DecodeOnePass(s, '\'');
    DecodeOnePass(s, '>');
  }
}
