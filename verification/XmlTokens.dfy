/** A reference tokenizer for the XML that the printer writes (XML 1.0, sections 2.11, 3.1 and 4.6), with default
    namespaces resolved (Namespaces in XML 1.0, section 6.2). It stands for the library decoder of the server, on text
    that the printer wrote: it takes any name without a delimiter (the library refuses "1a" or "-x"), and like the library
    it leaves white space in attribute values alone, where section 3.3.3 asks for blanks. */
module XmlTokens {
  import opened Options
  import opened XmlText
  import opened XmlNode

  datatype Token =
    | Start(name: string, ns: string, attrs: seq<Attr>)
    | End(name: string, ns: string)
    | Chars(text: string)
    | ProcInst
    | Comment
    | Directive

  /** An open element: its name and the default namespace inside it. */
  datatype Scope = Scope(name: string, ns: string)

  const NAME_STOPS := {' ', '\t', '\n', '\r', '<', '>', '/', '=', '\'', '"', '&', ':'}

  /** The characters of XML 1.0, section 2.2. */
  predicate XmlChar(c: char) {
    c == '\t' || c == '\n' || c == '\r' || (' ' <= c <= '\U{D7FF}') || ('\U{E000}' <= c <= '\U{FFFD}')
    || '\U{10000}' <= c
  }

  predicate Legal(s: string) {
    forall c | c in s :: XmlChar(c)
  }

  /** The length of the longest prefix without a stop. */
  function Until(s: string, stops: set<char>): (n: nat)
    ensures n <= |s|
    ensures forall i | 0 <= i < n :: s[i] !in stops
    ensures n < |s| ==> s[n] in stops
  {
    if s == [] || s[0] in stops then 0 else 1 + Until(s[1..], stops)
  }

  /** Line ends are normalised before anything else (section 2.11). */
  function NormalizeLines(s: string): string {
    if s == [] then []
    else if s[0] == '\r' then ['\n'] + NormalizeLines(if |s| > 1 && s[1] == '\n' then s[2..] else s[1..])
    else [s[0]] + NormalizeLines(s[1..])
  }

  function Value(raw: string): string {
    Decode(NormalizeLines(raw))
  }

  datatype Attrs = Attrs(list: seq<Attr>, rest: string)

  datatype Quoted = Quoted(text: string, rest: string)

  /** A value in apostrophes, after its equals sign. */
  function LexValue(s: string): (r: Option<Quoted>)
    ensures r.Some? ==> |r.value.rest| < |s|
  {
    if !("='" <= s) then Nothing
    else
      var body := s[2..];
      var m := Until(body, {'\'', '<'});
      if m == |body| || body[m] != '\'' || !Legal(body[..m]) then Nothing
      else Some(Quoted(Value(body[..m]), body[m + 1..]))
  }

  /** Attributes, up to the first character that starts none. */
  function LexAttrs(s: string): (r: Option<Attrs>)
    ensures r.Some? ==> |r.value.rest| <= |s|
    decreases |s|
  {
    if s == [] || s[0] != ' ' then Some(Attrs([], s))
    else
      var n := Until(s[1..], NAME_STOPS);
      match LexValue(s[1 + n..])
      case Nothing => Nothing
      case Some(Quoted(value, rest)) =>
        if n == 0 then Nothing
        else
          match LexAttrs(rest)
          case Nothing => Nothing
          case Some(more) => Some(Attrs([Attr(s[1..1 + n], "", value)] + more.list, more.rest))
  }

  datatype Opened = Opened(name: string, list: seq<Attr>, rest: string)

  /** A start tag after its bracket: a name and attributes. */
  function LexOpen(s: string): (r: Option<Opened>)
    ensures r.Some? ==> |r.value.rest| <= |s|
  {
    var n := Until(s, NAME_STOPS);
    if n == 0 then Nothing
    else
      match LexAttrs(s[n..])
      case Nothing => Nothing
      case Some(Attrs(list, rest)) => Some(Opened(s[..n], list, rest))
  }

  /** The default namespace an element declares, or else inherits. */
  function DefaultNs(attrs: seq<Attr>, inherited: string): string {
    if attrs == [] then inherited
    else if attrs[0].name == "xmlns" then attrs[0].value
    else DefaultNs(attrs[1..], inherited)
  }

  function Prepend(ts: seq<Token>, r: Option<seq<Token>>): Option<seq<Token>> {
    match r
    case Some(more) => Some(ts + more)
    case Nothing => Nothing
  }

  /** The tokens of `s` inside the open elements `scopes` (innermost last), or nothing if `s` is not well formed.
      The outermost scope is the stream itself. */
  function Tokenize(s: string, scopes: seq<Scope>): Option<seq<Token>>
    requires scopes != []
    decreases |s|
  {
    var top := scopes[|scopes| - 1];
    if s == [] then Some([])
    else if s[0] != '<' then
      var n := Until(s, {'<'});
      if !Legal(s[..n]) then Nothing else Prepend([Chars(Value(s[..n]))], Tokenize(s[n..], scopes))
    else if "</" <= s then
      var n := Until(s[2..], NAME_STOPS);
      var after := s[2 + n..];
      if after == [] || after[0] != '>' || |scopes| == 1 || s[2..2 + n] != top.name then Nothing
      else Prepend([End(top.name, top.ns)], Tokenize(after[1..], scopes[..|scopes| - 1]))
    else
      match LexOpen(s[1..])
      case Nothing => Nothing
      case Some(Opened(name, list, rest)) =>
        var ns := DefaultNs(list, top.ns);
        if "/>" <= rest then
          Prepend([Start(name, ns, list), End(name, ns)], Tokenize(rest[2..], scopes))
        else if rest != [] && rest[0] == '>' then
          Prepend([Start(name, ns, list)], Tokenize(rest[1..], scopes + [Scope(name, ns)]))
        else Nothing
  }

  // ---- What the tokenizer makes of printed text ----

  predicate LegalName(name: string) {
    name != "" && forall c | c in name :: c !in NAME_STOPS
  }

  /** What can be written and read: legal names and text, and attributes that are not mistaken for a declaration of a
      namespace. */
  predicate Printable(n: Node)
    decreases n, 1
  {
    && LegalName(n.name) && Legal(n.text) && Legal(n.ns)
    && (forall a | a in n.attrs :: AttrOk(a) && a.name != "xmlns")
    && PrintableAll(n.children)
  }

  predicate PrintableAll(ns: seq<Node>)
    decreases ns, 0
  {
    ns == [] || (Printable(ns[0]) && PrintableAll(ns[1..]))
  }

  predicate AttrOk(a: Attr) {
    LegalName(a.name) && Legal(a.value)
  }

  /** Attributes as a reader gets them: the printer writes them without their namespaces, and line ends are normalised. */
  function AsRead(attrs: seq<Attr>): seq<Attr> {
    if attrs == [] then [] else [ReadAttr(attrs[0])] + AsRead(attrs[1..])
  }

  function ReadAttr(a: Attr): Attr {
    Attr(a.name, "", NormalizeLines(a.value))
  }

  /** The namespace an element is read in, where `scope` is the default namespace around it. */
  function ReadNs(n: Node, scope: string): string {
    if Effective(n.ns) != "" then NormalizeLines(Effective(n.ns)) else scope
  }

  function TokensOf(n: Node, parentNs: string, scope: string): seq<Token>
    decreases n, 1
  {
    var ns := ReadNs(n, scope);
    [Start(n.name, ns, AsRead(Declared(n, parentNs)))] +
    (if n.text == "" then [] else [Chars(NormalizeLines(n.text))]) +
    TokensOfAll(n.children, Effective(n.ns), ns) +
    [End(n.name, ns)]
  }

  function TokensOfAll(ns: seq<Node>, parentNs: string, scope: string): seq<Token>
    decreases ns, 0
  {
    if ns == [] then [] else TokensOf(ns[0], parentNs, scope) + TokensOfAll(ns[1..], parentNs, scope)
  }

  lemma {:induction false} UntilIs(a: string, b: string, stops: set<char>)
    requires forall i | 0 <= i < |a| :: a[i] !in stops
    requires b == [] || b[0] in stops
    ensures Until(a + b, stops) == |a|
    ensures (a + b)[..|a|] == a && (a + b)[|a|..] == b
  {
    if a == [] {
      assert a + b == b;
    } else {
      assert (a + b)[1..] == a[1..] + b;
      UntilIs(a[1..], b, stops);
    }
  }

  /** Normalising changes exactly the strings with a carriage return, and nothing the second time. */
  lemma {:induction false} NoReturns(s: string)
    ensures NormalizeLines(s) == s <==> '\r' !in s
    ensures '\r' !in NormalizeLines(s) && (NormalizeLines(s) == "" <==> s == "")
    ensures |NormalizeLines(s)| <= |s|
    decreases |s|
  {
    if s != [] {
      assert s == [s[0]] + s[1..];
      NoReturns(s[1..]);
      if s[0] == '\r' && |s| > 1 && s[1] == '\n' {
        NoReturns(s[2..]);
      }
    }
  }

  lemma NormalizeTwice(s: string)
    ensures NormalizeLines(NormalizeLines(s)) == NormalizeLines(s)
  {
    NoReturns(s);
    NoReturns(NormalizeLines(s));
  }

  lemma {:induction false} NormalLegal(s: string)
    requires Legal(s)
    ensures Legal(NormalizeLines(s))
    decreases |s|
  {
    hide XmlChar;
    LineFeedLegal();
    if s != [] {
      assert s[0] in s && forall c | c in s[1..] :: c in s;
      NormalLegal(s[1..]);
      if |s| > 1 {
        assert forall c | c in s[2..] :: c in s;
        NormalLegal(s[2..]);
      }
    }
  }

  lemma LineFeedLegal()
    ensures XmlChar('\n')
  {
  }

  lemma {:induction false} OnePassLegal(s: string, quote: char)
    requires Legal(s) && (quote == '\'' || quote == '>')
    ensures Legal(OnePass(s, quote))
  {
    if s != [] {
      assert s == [s[0]] + s[1..];
      OnePassLegal(s[1..], quote);
      assert forall c | c in Entity(s[0], quote) :: XmlChar(c);
    }
  }

  lemma {:induction false} NormalizeAfter(a: string, b: string)
    requires '\r' !in a
    ensures NormalizeLines(a + b) == a + NormalizeLines(b)
  {
    if a == [] {
      assert a + b == b;
    } else {
      assert (a + b)[1..] == a[1..] + b && a == [a[0]] + a[1..];
      NormalizeAfter(a[1..], b);
    }
  }

  lemma EntityFacts(c: char, quote: char)
    requires quote == '\'' || quote == '>'
    ensures Entity(c, quote) != [] && (Entity(c, quote)[0] == '\n' <==> c == '\n')
    ensures c == '\r' || c == '\n' ==> Entity(c, quote) == [c]
    ensures c != '\r' ==> '\r' !in Entity(c, quote)
  {
  }

  lemma OnePassCons(c: char, s: string, quote: char)
    ensures OnePass([c] + s, quote) == Entity(c, quote) + OnePass(s, quote)
  {
    hide Entity;
    assert ([c] + s)[1..] == s;
  }

  /** A line end of two characters is one after escaping, too. */
  lemma NormalizeReturn(s: string, quote: char)
    requires quote == '\'' || quote == '>'
    ensures var rest := if s != [] && s[0] == '\n' then s[1..] else s;
            NormalizeLines(OnePass(['\r'] + s, quote)) == ['\n'] + NormalizeLines(OnePass(rest, quote))
  {
    hide OnePass, Entity;
    EntityFacts('\r', quote);
    OnePassCons('\r', s, quote);
    if s != [] {
      EntityFacts(s[0], quote);
      OnePassCons(s[0], s[1..], quote);
      assert s == [s[0]] + s[1..];
    } else {
      NothingPassed(quote);
    }
    NormalizePair(OnePass(s, quote));
  }

  lemma NothingPassed(quote: char)
    ensures OnePass([], quote) == []
  {
  }

  lemma NormalizePair(s: string)
    ensures NormalizeLines(['\r'] + s) == ['\n'] + NormalizeLines(if s != [] && s[0] == '\n' then s[1..] else s)
  {
    var t := ['\r'] + s;
    assert t[1..] == s;
    if s != [] {
      assert t[2..] == s[1..] && t[1] == s[0];
    }
  }

  /** Escaping and normalising line ends do not get in each other's way. */
  lemma {:induction false} NormalizeOnePass(s: string, quote: char)
    requires quote == '\'' || quote == '>'
    ensures NormalizeLines(OnePass(s, quote)) == OnePass(NormalizeLines(s), quote)
    decreases |s|
  {
    if s != [] {
      var c, tail := s[0], s[1..];
      assert s == [c] + tail;
      EntityFacts('\n', quote);
      if c == '\r' {
        var rest := if tail != [] && tail[0] == '\n' then tail[1..] else tail;
        NormalizeOnePass(rest, quote);
        NormalizeReturn(tail, quote);
        NormalizePair(tail);
        OnePassCons('\n', NormalizeLines(rest), quote);
      } else {
        NormalizeOnePass(tail, quote);
        OnePassCons(c, tail, quote);
        EntityFacts(c, quote);
        NormalizeAfter(Entity(c, quote), OnePass(tail, quote));
        NormalizeAfter([c], tail);
        OnePassCons(c, NormalizeLines(tail), quote);
      }
      hide OnePass, NormalizeLines, Entity;
    } else {
      assert OnePass(s, quote) == [];
    }
  }

  /** Escaped text comes out of the tokenizer with its line ends normalised, whatever it is. */
  lemma ValueOfEscaped(s: string)
    ensures Value(EscapeAttr(s)) == NormalizeLines(s) && (Legal(s) ==> Legal(EscapeAttr(s)))
    ensures Value(EscapeText(s)) == NormalizeLines(s) && (Legal(s) ==> Legal(EscapeText(s)))
  {
    hide NormalizeLines, Legal;
    ChainedEscapingIsOnePass(s);
    NormalizeOnePass(s, '\'');
    NormalizeOnePass(s, '>');
    DecodeOnePass(NormalizeLines(s), '\'');
    DecodeOnePass(NormalizeLines(s), '>');
    if Legal(s) {
      OnePassLegal(s, '\'');
      OnePassLegal(s, '>');
    }
  }

  lemma LexPrintedValue(v: string, rest: string)
    requires Legal(v)
    ensures LexValue("='" + EscapeAttr(v) + "'" + rest) == Some(Quoted(NormalizeLines(v), rest))
  {
    hide Value, EscapeAttr, Legal, NormalizeLines, LexValue;
    ValueOfEscaped(v);
    EscapeRoundTrip(v);
    QuotedIs(EscapeAttr(v), rest);
  }

  lemma QuotedIs(raw: string, rest: string)
    requires Legal(raw) && '\'' !in raw && '<' !in raw
    ensures LexValue("='" + raw + "'" + rest) == Some(Quoted(Value(raw), rest))
  {
    hide Value, Legal;
    var s, body := "='" + raw + "'" + rest, raw + ("'" + rest);
    assert s[2..] == body;
    UntilIs(raw, "'" + rest, {'\'', '<'});
    assert body[|raw|] == '\'' && body[|raw| + 1..] == rest;
  }

  lemma LexOneAttr(a: Attr, rest: string)
    requires AttrOk(a)
    ensures LexAttrs(AttrText(a) + rest) ==
            match LexAttrs(rest)
            case Nothing => Nothing
            case Some(more) => Some(Attrs([ReadAttr(a)] + more.list, more.rest))
  {
    hide LexValue, EscapeAttr, NormalizeLines;
    var after := "='" + EscapeAttr(a.value) + "'" + rest;
    var s := AttrText(a) + rest;
    assert s[1..] == a.name + after;
    UntilIs(a.name, after, NAME_STOPS);
    assert s[1 + |a.name|..] == after;
    assert s[1..1 + |a.name|] == a.name;
    LexPrintedValue(a.value, rest);
  }

  lemma {:induction false} LexPrintedAttrs(attrs: seq<Attr>, rest: string)
    requires forall a | a in attrs :: AttrOk(a)
    requires rest != [] && rest[0] != ' '
    ensures LexAttrs(AttrsText(attrs) + rest) == Some(Attrs(AsRead(attrs), rest))
  {
    if attrs == [] {
      assert AttrsText(attrs) + rest == rest;
    } else {
      hide LexAttrs, AttrText, AttrOk, ReadAttr;
      assert attrs[0] in attrs && forall a | a in attrs[1..] :: a in attrs;
      var more := AttrsText(attrs[1..]) + rest;
      SplitAttrsText(attrs, rest);
      hide AttrsText;
      LexPrintedAttrs(attrs[1..], rest);
      LexOneAttr(attrs[0], more);
    }
  }

  lemma SplitAttrsText(attrs: seq<Attr>, rest: string)
    requires attrs != []
    ensures AttrsText(attrs) + rest == AttrText(attrs[0]) + (AttrsText(attrs[1..]) + rest)
  {
    hide AttrText;
  }

  lemma {:induction false} NoDeclaration(attrs: seq<Attr>, inherited: string)
    requires forall a | a in attrs :: a.name != "xmlns"
    ensures DefaultNs(AsRead(attrs), inherited) == inherited
  {
    hide NormalizeLines;
    if attrs != [] {
      NoDeclaration(attrs[1..], inherited);
      assert AsRead(attrs)[1..] == AsRead(attrs[1..]);
      assert attrs[0] in attrs;
    }
  }

  lemma AsReadCons(a: Attr, attrs: seq<Attr>)
    ensures AsRead([a] + attrs) == [ReadAttr(a)] + AsRead(attrs)
  {
    hide ReadAttr;
    assert ([a] + attrs)[1..] == attrs;
  }

  /** A start tag declares its namespace exactly when it would otherwise not be inherited. */
  lemma DeclaredNs(n: Node, parentNs: string, scope: string)
    requires Printable(n) && (parentNs != "" ==> scope == NormalizeLines(parentNs))
    ensures DefaultNs(AsRead(Declared(n, parentNs)), scope) == ReadNs(n, scope)
    ensures forall a | a in Declared(n, parentNs) :: AttrOk(a)
  {
    hide NormalizeLines, Legal, AttrOk, LegalName, AsRead;
    NoDeclaration(n.attrs, scope);
    var ns := Effective(n.ns);
    DeclarationOk(n);
    if ns != "" && ns != parentNs {
      AsReadCons(Attr("xmlns", "", ns), n.attrs);
    } else {
      assert Declared(n, parentNs) == n.attrs;
    }
  }

  lemma DeclarationOk(n: Node)
    requires Legal(n.ns)
    ensures Effective(n.ns) != "" ==> AttrOk(Attr("xmlns", "", Effective(n.ns)))
  {
    hide Legal;
  }
}
