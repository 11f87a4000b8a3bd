/** Tokenizing what the printer wrote. */
module XmlRoundTrip {
  import opened Options
  import opened XmlText
  import opened XmlNode
  import opened XmlTokens

  lemma PrependTwice(a: seq<Token>, b: seq<Token>, r: Option<seq<Token>>)
    ensures Prepend(a, Prepend(b, r)) == Prepend(a + b, r)
    ensures Prepend([], r) == r
  {
    if r.Some? {
      assert a + (b + r.value) == (a + b) + r.value;
      assert [] + r.value == r.value;
    }
  }

  lemma LexPrintedOpen(name: string, attrs: seq<Attr>, rest: string)
    requires LegalName(name) && forall a | a in attrs :: AttrOk(a)
    requires rest != [] && (rest[0] == '>' || "/>" <= rest)
    ensures LexOpen(name + (AttrsText(attrs) + rest)) == Some(Opened(name, AsRead(attrs), rest))
  {
    hide AttrsText, LexAttrs, AsRead;
    LexPrintedAttrs(attrs, rest);
    AfterName(attrs, rest);
    UntilIs(name, AttrsText(attrs) + rest, NAME_STOPS);
  }

  /** The start tag of an element, up to the brackets that close it. */
  lemma StartTag(n: Node, parentNs: string, scopes: seq<Scope>, rest: string)
    requires Printable(n) && scopes != []
    requires parentNs != "" ==> scopes[|scopes| - 1].ns == NormalizeLines(parentNs)
    requires rest != [] && (rest[0] == '>' || "/>" <= rest)
    ensures var ns := ReadNs(n, scopes[|scopes| - 1].ns);
            var start := Start(n.name, ns, AsRead(Declared(n, parentNs)));
            Tokenize("<" + n.name + AttrsText(Declared(n, parentNs)) + rest, scopes) ==
            if rest[0] == '>' then Prepend([start], Tokenize(rest[1..], scopes + [Scope(n.name, ns)]))
            else Prepend([start, End(n.name, ns)], Tokenize(rest[2..], scopes))
  {
    hide AttrsText, LexOpen, Declared, Printable, DefaultNs, Prepend, NormalizeLines, AsRead, ReadNs, Tokenize, LegalName, AttrOk;
    var attrs := Declared(n, parentNs);
    var after := n.name + (AttrsText(attrs) + rest);
    NamesOf(n);
    DeclaredNs(n, parentNs, scopes[|scopes| - 1].ns);
    LexPrintedOpen(n.name, attrs, rest);
    assert "<" + n.name + AttrsText(attrs) + rest == "<" + after;
    assert after[0] == n.name[0];
    OpenTag(after, n.name, AsRead(attrs), rest, scopes);
  }

  /** What the tokenizer does with a start tag it can read. */
  lemma OpenTag(after: string, name: string, list: seq<Attr>, rest: string, scopes: seq<Scope>)
    requires scopes != [] && after != [] && after[0] != '/' && LexOpen(after) == Some(Opened(name, list, rest))
    requires rest != [] && (rest[0] == '>' || "/>" <= rest)
    ensures var ns := DefaultNs(list, scopes[|scopes| - 1].ns);
            Tokenize("<" + after, scopes) ==
            if rest[0] == '>' then Prepend([Start(name, ns, list)], Tokenize(rest[1..], scopes + [Scope(name, ns)]))
            else Prepend([Start(name, ns, list), End(name, ns)], Tokenize(rest[2..], scopes))
  {
    hide LexOpen, DefaultNs, Prepend;
    var s := "<" + after;
    assert s[1..] == after && s[1] == after[0];
  }

  lemma NamesOf(n: Node)
    requires Printable(n)
    ensures n.name != "" && LegalName(n.name) && n.name[0] != '/' && Legal(n.text) && PrintableAll(n.children)
  {
  }

  lemma AfterName(attrs: seq<Attr>, rest: string)
    requires rest != [] && (rest[0] == '>' || "/>" <= rest)
    ensures (AttrsText(attrs) + rest)[0] in NAME_STOPS
  {
  }

  lemma CloseTag(name: string, scopes: seq<Scope>, ns: string, rest: string)
    requires LegalName(name) && scopes != []
    ensures Tokenize("</" + name + ">" + rest, scopes + [Scope(name, ns)]) ==
            Prepend([End(name, ns)], Tokenize(rest, scopes))
  {
    var s := "</" + name + ">" + rest;
    assert s[2..] == name + (">" + rest);
    UntilIs(name, ">" + rest, NAME_STOPS);
    assert s[2 + |name|..] == ">" + rest;
    assert (">" + rest)[1..] == rest;
    assert (scopes + [Scope(name, ns)])[..|scopes|] == scopes;
  }

  lemma TextRun(text: string, scopes: seq<Scope>, rest: string)
    requires Legal(text) && text != "" && scopes != []
    requires rest != [] && rest[0] == '<'
    ensures Tokenize(EscapeText(text) + rest, scopes) == Prepend([Chars(NormalizeLines(text))], Tokenize(rest, scopes))
  {
    hide EscapeText, Value, Legal, NormalizeLines;
    EscapeRoundTrip(text);
    ValueOfEscaped(text);
    UntilIs(EscapeText(text), rest, {'<'});
    assert (EscapeText(text) + rest)[0] == EscapeText(text)[0];
  }

  /** A printed element is read as its own tokens, wherever it stands. */
  lemma {:induction false} PrintedTokens(n: Node, parentNs: string, scopes: seq<Scope>, rest: string)
    requires Printable(n) && scopes != []
    requires parentNs != "" ==> scopes[|scopes| - 1].ns == NormalizeLines(parentNs)
    ensures Tokenize(Printed(n, parentNs) + rest, scopes) ==
            Prepend(TokensOf(n, parentNs, scopes[|scopes| - 1].ns), Tokenize(rest, scopes))
    decreases n, 1
  {
    hide Tokenize, AttrsText, Declared, Printable, Prepend, NormalizeLines, AsRead;
    var ns := ReadNs(n, scopes[|scopes| - 1].ns);
    var open := "<" + n.name + AttrsText(Declared(n, parentNs));
    NamesOf(n);
    if n.children == [] && n.text == "" {
      assert Printed(n, parentNs) + rest == open + ("/>" + rest);
      assert ("/>" + rest)[2..] == rest;
      StartTag(n, parentNs, scopes, "/>" + rest);
      LeafTokens(n, parentNs, scopes[|scopes| - 1].ns);
    } else {
      var inner := scopes + [Scope(n.name, ns)];
      var close := "</" + n.name + ">" + rest;
      var body := PrintedAll(n.children, Effective(n.ns)) + close;
      BodyText(n, parentNs, rest);
      StartTag(n, parentNs, scopes, ">" + (EscapeText(n.text) + body));
      PrintedAllTokens(n.children, Effective(n.ns), inner, close);
      CloseTag(n.name, scopes, ns, rest);
      InnerTokens(n, inner, body);
      JoinTokens(n, parentNs, scopes[|scopes| - 1].ns, Tokenize(rest, scopes));
    }
  }

  /** The pieces of an element with content, put together. */
  lemma JoinTokens(n: Node, parentNs: string, scope: string, rest: Option<seq<Token>>)
    requires n.children != [] || n.text != ""
    ensures var ns := ReadNs(n, scope);
            var start := [Start(n.name, ns, AsRead(Declared(n, parentNs)))];
            var text := if n.text == "" then [] else [Chars(NormalizeLines(n.text))];
            var kids := TokensOfAll(n.children, Effective(n.ns), ns);
            Prepend(start, Prepend(text, Prepend(kids, Prepend([End(n.name, ns)], rest)))) ==
            Prepend(TokensOf(n, parentNs, scope), rest)
  {
    hide Prepend, Declared, NormalizeLines, AsRead;
    var ns := ReadNs(n, scope);
    var start := [Start(n.name, ns, AsRead(Declared(n, parentNs)))];
    var text := if n.text == "" then [] else [Chars(NormalizeLines(n.text))];
    var kids := TokensOfAll(n.children, Effective(n.ns), ns);
    PrependTwice(kids, [End(n.name, ns)], rest);
    PrependTwice(text, kids + [End(n.name, ns)], rest);
    PrependTwice(start, text + (kids + [End(n.name, ns)]), rest);
    assert start + (text + (kids + [End(n.name, ns)])) == TokensOf(n, parentNs, scope);
  }

  lemma LeafTokens(n: Node, parentNs: string, scope: string)
    requires n.children == [] && n.text == ""
    ensures TokensOf(n, parentNs, scope) ==
            [Start(n.name, ReadNs(n, scope), AsRead(Declared(n, parentNs))), End(n.name, ReadNs(n, scope))]
  {
  }

  lemma BodyText(n: Node, parentNs: string, rest: string)
    requires n.children != [] || n.text != ""
    ensures var open := "<" + n.name + AttrsText(Declared(n, parentNs));
            var body := PrintedAll(n.children, Effective(n.ns)) + ("</" + n.name + ">" + rest);
            && Printed(n, parentNs) + rest == open + (">" + (EscapeText(n.text) + body))
            && (">" + (EscapeText(n.text) + body))[1..] == EscapeText(n.text) + body
            && body[0] == '<'
  {
    hide AttrsText, Declared, EscapeText;
    if n.children != [] {
      PrintedStarts(n.children[0], Effective(n.ns));
    }
  }

  lemma PrintedStarts(n: Node, parentNs: string)
    ensures Printed(n, parentNs) != "" && Printed(n, parentNs)[0] == '<'
  {
  }

  lemma InnerTokens(n: Node, inner: seq<Scope>, body: string)
    requires Legal(n.text) && inner != [] && body != [] && body[0] == '<'
    ensures Tokenize(EscapeText(n.text) + body, inner) ==
            Prepend(if n.text == "" then [] else [Chars(NormalizeLines(n.text))], Tokenize(body, inner))
  {
    hide Tokenize, Prepend, EscapeText, NormalizeLines;
    if n.text == "" {
      EmptyText();
      assert "" + body == body;
      PrependTwice([], [], Tokenize(body, inner));
    } else {
      TextRun(n.text, inner, body);
    }
  }

  lemma {:induction false} PrintedAllTokens(children: seq<Node>, parentNs: string, scopes: seq<Scope>, rest: string)
    requires PrintableAll(children) && scopes != []
    requires parentNs != "" ==> scopes[|scopes| - 1].ns == NormalizeLines(parentNs)
    ensures Tokenize(PrintedAll(children, parentNs) + rest, scopes) ==
            Prepend(TokensOfAll(children, parentNs, scopes[|scopes| - 1].ns), Tokenize(rest, scopes))
    decreases children, 0
  {
    hide Tokenize, Prepend, Printed, TokensOf, NormalizeLines;
    var scope := scopes[|scopes| - 1].ns;
    if children == [] {
      assert PrintedAll(children, parentNs) + rest == rest;
      PrependTwice([], [], Tokenize(rest, scopes));
    } else {
      var more := PrintedAll(children[1..], parentNs) + rest;
      assert PrintedAll(children, parentNs) + rest == Printed(children[0], parentNs) + more;
      PrintedTokens(children[0], parentNs, scopes, more);
      PrintedAllTokens(children[1..], parentNs, scopes, rest);
      PrependTwice(TokensOf(children[0], parentNs, scope), TokensOfAll(children[1..], parentNs, scope),
                   Tokenize(rest, scopes));
    }
  }
}
