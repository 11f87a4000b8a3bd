/** Printing a tree and reading it back, over a stream whose default namespace is jabber:client. */
module XmlEcho {
  import opened Options
  import opened XmlNode
  import opened XmlTokens
  import opened XmlReader
  import opened XmlRoundTrip

  const STREAM_SCOPE := [Scope("stream", CLIENT_NS)]

  /** The tree as a reader gets it: an element in the default namespace takes that of its surroundings, attributes are
      unqualified and line ends are normalised. */
  function Resolved(n: Node, scope: string): Node
    decreases n, 1
  {
    var ns := ReadNs(n, scope);
    Node(n.name, ns, AsRead(n.attrs), ResolvedAll(n.children, ns), NormalizeLines(n.text))
  }

  function ResolvedAll(ns: seq<Node>, scope: string): seq<Node>
    decreases ns, 0
  {
    if ns == [] then [] else [Resolved(ns[0], scope)] + ResolvedAll(ns[1..], scope)
  }

  /** The tree itself, with the empty namespace spelled out as the stream's. */
  function Normal(n: Node): Node
    decreases n, 1
  {
    Node(n.name, if n.ns == "" then CLIENT_NS else n.ns, n.attrs, NormalAll(n.children), n.text)
  }

  function NormalAll(ns: seq<Node>): seq<Node>
    decreases ns, 0
  {
    if ns == [] then [] else [Normal(ns[0])] + NormalAll(ns[1..])
  }

  /** No element in the stream's namespace stands inside an element of another namespace. */
  predicate WellScoped(n: Node)
    decreases n, 1
  {
    WellScopedAll(n.children, Effective(n.ns) != "")
  }

  predicate WellScopedAll(ns: seq<Node>, foreign: bool)
    decreases ns, 0
  {
    ns == [] ||
    ((foreign ==> Effective(ns[0].ns) != "") && WellScoped(ns[0]) && WellScopedAll(ns[1..], foreign))
  }

  // ---- Reading what was printed ----

  /** The content that the tokens of a printed element spell. */
  function ContentOf(n: Node, parentNs: string, scope: string): Content
    decreases n, 1
  {
    var ns := ReadNs(n, scope);
    Elem(n.name, ns, AsRead(Declared(n, parentNs)),
         (if n.text == "" then [] else [Run(NormalizeLines(n.text))]) + ContentOfAll(n.children, Effective(n.ns), ns))
  }

  function ContentOfAll(ns: seq<Node>, parentNs: string, scope: string): seq<Content>
    decreases ns, 0
  {
    if ns == [] then [] else [ContentOf(ns[0], parentNs, scope)] + ContentOfAll(ns[1..], parentNs, scope)
  }

  lemma {:induction false} FlattenContent(n: Node, parentNs: string, scope: string)
    ensures Flatten(ContentOf(n, parentNs, scope)) == TokensOf(n, parentNs, scope)
    ensures WellFormed(ContentOf(n, parentNs, scope))
    decreases n, 1
  {
    hide Declared, ReadNs, ContentOfAll, FlattenAll, WellFormedAll, TokensOfAll, NormalizeLines, AsRead;
    var ns := ReadNs(n, scope);
    var kids := ContentOfAll(n.children, Effective(n.ns), ns);
    FlattenContentAll(n.children, Effective(n.ns), ns);
    FlattenBody(n.text == "", NormalizeLines(n.text), kids);
    TokensIs(n, parentNs, scope);
    hide TokensOf;
  }

  lemma TokensIs(n: Node, parentNs: string, scope: string)
    ensures var ns := ReadNs(n, scope);
            TokensOf(n, parentNs, scope) ==
            [Start(n.name, ns, AsRead(Declared(n, parentNs)))] +
            ((if n.text == "" then [] else [Chars(NormalizeLines(n.text))]) + TokensOfAll(n.children, Effective(n.ns), ns)) +
            [End(n.name, ns)]
  {
    hide TokensOfAll, ReadNs, AsRead, NormalizeLines;
  }

  lemma FlattenBody(silent: bool, text: string, kids: seq<Content>)
    requires WellFormedAll(kids)
    ensures var body := (if silent then [] else [Run(text)]) + kids;
            && FlattenAll(body) == (if silent then [] else [Chars(text)]) + FlattenAll(kids)
            && WellFormedAll(body)
  {
    if silent {
      assert [] + kids == kids && [] + FlattenAll(kids) == FlattenAll(kids);
    } else {
      FlattenRun(text, kids);
    }
  }

  lemma FlattenRun(text: string, kids: seq<Content>)
    requires WellFormedAll(kids)
    ensures FlattenAll([Run(text)] + kids) == [Chars(text)] + FlattenAll(kids)
    ensures WellFormedAll([Run(text)] + kids)
  {
    var body := [Run(text)] + kids;
    assert body[0] == Run(text) && body[1..] == kids;
    assert WellFormed(Run(text));
  }

  lemma {:induction false} FlattenContentAll(ns: seq<Node>, parentNs: string, scope: string)
    ensures FlattenAll(ContentOfAll(ns, parentNs, scope)) == TokensOfAll(ns, parentNs, scope)
    ensures WellFormedAll(ContentOfAll(ns, parentNs, scope))
    ensures TextOf(ContentOfAll(ns, parentNs, scope)) == ""
    decreases ns, 0
  {
    if ns != [] {
      FlattenContent(ns[0], parentNs, scope);
      FlattenContentAll(ns[1..], parentNs, scope);
      var cs := ContentOfAll(ns, parentNs, scope);
      assert cs[1..] == ContentOfAll(ns[1..], parentNs, scope);
    }
  }

  lemma {:induction false} KeptAll(attrs: seq<Attr>)
    requires forall a | a in attrs :: !IsDeclaration(a)
    ensures Kept(attrs) == attrs
  {
    if attrs != [] {
      var front, last := attrs[..|attrs| - 1], attrs[|attrs| - 1];
      assert attrs == front + [last];
      assert last in attrs && forall a | a in front :: a in attrs;
      KeptAll(front);
    }
  }

  lemma {:induction false} KeptAfter(a: Attr, attrs: seq<Attr>)
    requires IsDeclaration(a)
    ensures Kept([a] + attrs) == Kept(attrs)
  {
    var all := [a] + attrs;
    if attrs == [] {
      assert all[..0] == [];
    } else {
      assert all[..|all| - 1] == [a] + attrs[..|attrs| - 1];
      KeptAfter(a, attrs[..|attrs| - 1]);
    }
  }

  lemma {:induction false} NoneDeclared(attrs: seq<Attr>)
    requires forall a | a in attrs :: a.name != "xmlns"
    ensures forall a | a in AsRead(attrs) :: !IsDeclaration(a)
  {
    hide NormalizeLines;
    if attrs != [] {
      NoneDeclared(attrs[1..]);
      assert attrs[0] in attrs;
      assert forall a | a in AsRead(attrs) :: a == ReadAttr(attrs[0]) || a in AsRead(attrs[1..]);
    }
  }

  /** The declaration that the printer adds is the one attribute that the reader drops. */
  lemma KeptDeclared(n: Node, parentNs: string)
    requires Printable(n)
    ensures Kept(AsRead(Declared(n, parentNs))) == AsRead(n.attrs)
  {
    hide NormalizeLines, Legal;
    NoneDeclared(n.attrs);
    KeptAll(AsRead(n.attrs));
    var ns := Effective(n.ns);
    if ns != "" && ns != parentNs {
      AsReadCons(Attr("xmlns", "", ns), n.attrs);
      KeptAfter(ReadAttr(Attr("xmlns", "", ns)), AsRead(n.attrs));
    } else {
      assert Declared(n, parentNs) == n.attrs;
    }
  }

  lemma {:induction false} BuildContent(n: Node, parentNs: string, scope: string)
    requires Printable(n)
    ensures Build(ContentOf(n, parentNs, scope)) == Resolved(n, scope)
    decreases n, 1
  {
    hide NormalizeLines, AsRead, Declared, Legal;
    var ns := ReadNs(n, scope);
    var kids := ContentOfAll(n.children, Effective(n.ns), ns);
    KeptDeclared(n, parentNs);
    BuildContentAll(n.children, Effective(n.ns), ns);
    FlattenContentAll(n.children, Effective(n.ns), ns);
    NoReturns(n.text);
    if n.text == "" {
      assert [] + kids == kids;
    } else {
      var text := NormalizeLines(n.text);
      var body := [Run(text)] + kids;
      assert body[1..] == kids;
      assert TextOf(body) == text + TextOf(kids) == text;
    }
  }

  lemma {:induction false} BuildContentAll(ns: seq<Node>, parentNs: string, scope: string)
    requires PrintableAll(ns)
    ensures BuildAll(ContentOfAll(ns, parentNs, scope)) == ResolvedAll(ns, scope)
    decreases ns, 0
  {
    if ns != [] {
      BuildContent(ns[0], parentNs, scope);
      BuildContentAll(ns[1..], parentNs, scope);
      var cs := ContentOfAll(ns, parentNs, scope);
      assert cs[1..] == ContentOfAll(ns[1..], parentNs, scope);
    }
  }

  /** What comes back when a tree is printed and read. */
  function ReadBack(n: Node): Node {
    Resolved(n, CLIENT_NS)
  }

  /** Every printable tree: its text is well formed, one call reads all of it, and what comes back is the tree with its
      namespaces resolved, its attributes unqualified and its line ends normalised. */
  lemma PrintThenRead(n: Node)
    requires Printable(n) && !ReadBack(n).IsStreamOpen()
    ensures Tokenize(Printed(n, ""), STREAM_SCOPE).Some?
    ensures var ts := Tokenize(Printed(n, ""), STREAM_SCOPE).value;
            Scan(ts, []) == Reading(Stanza(ReadBack(n)), |ts|)
  {
    hide Tokenize, Scan, Flatten, Build, Kept;
    var ts := TokensOf(n, "", CLIENT_NS);
    PrintedTokens(n, "", STREAM_SCOPE, "");
    assert Printed(n, "") + "" == Printed(n, "");
    EmptyTokens();
    assert ts + [] == ts;
    var c := ContentOf(n, "", CLIENT_NS);
    FlattenContent(n, "", CLIENT_NS);
    BuildContent(n, "", CLIENT_NS);
    ScanStanza(c, []);
  }

  lemma EmptyTokens()
    ensures Tokenize("", STREAM_SCOPE) == Some([])
  {
  }

  // ---- When the tree comes back as it went ----

  /** No attribute is in a namespace. */
  predicate NoneQualified(n: Node)
    decreases n, 1
  {
    (forall a | a in n.attrs :: a.ns == "") && NoneQualifiedAll(n.children)
  }

  predicate NoneQualifiedAll(ns: seq<Node>)
    decreases ns, 0
  {
    ns == [] || (NoneQualified(ns[0]) && NoneQualifiedAll(ns[1..]))
  }

  /** No text, value or namespace holds a carriage return. */
  predicate NoneReturning(n: Node)
    decreases n, 1
  {
    && '\r' !in n.text && '\r' !in n.ns && (forall a | a in n.attrs :: '\r' !in a.value)
    && NoneReturningAll(n.children)
  }

  predicate NoneReturningAll(ns: seq<Node>)
    decreases ns, 0
  {
    ns == [] || (NoneReturning(ns[0]) && NoneReturningAll(ns[1..]))
  }

  lemma {:induction false} AsReadSame(attrs: seq<Attr>)
    ensures AsRead(attrs) == attrs <==> forall a | a in attrs :: a.ns == "" && '\r' !in a.value
  {
    hide NormalizeLines;
    if attrs != [] {
      NoReturns(attrs[0].value);
      AsReadSame(attrs[1..]);
      assert AsRead(attrs)[0] == ReadAttr(attrs[0]) && AsRead(attrs)[1..] == AsRead(attrs[1..]);
      assert attrs == [attrs[0]] + attrs[1..];
      assert forall a :: a in attrs <==> a == attrs[0] || a in attrs[1..];
    }
  }

  /** Printing and reading is the identity (up to spelling out the stream's namespace) exactly for the trees in which no
      default-namespace element stands inside another namespace, no attribute is in a namespace and there is no carriage
      return. */
  lemma ReadBackIsNormal(n: Node)
    ensures ReadBack(n) == Normal(n) <==> WellScoped(n) && NoneQualified(n) && NoneReturning(n)
  {
    ResolvedNormal(n, CLIENT_NS);
  }

  lemma {:induction false} ResolvedNormal(n: Node, scope: string)
    requires scope != "" && '\r' !in scope
    ensures Resolved(n, scope) == Normal(n) <==>
            (Effective(n.ns) != "" || scope == CLIENT_NS) && WellScoped(n) && NoneQualified(n) && NoneReturning(n)
    decreases n, 1
  {
    hide AsRead, NormalizeLines;
    AsReadSame(n.attrs);
    NoReturns(n.text);
    NoReturns(Effective(n.ns));
    ForeignStays(n.ns);
    ResolvedNormalAll(n.children, ReadNs(n, scope));
  }

  /** Normalising does not turn another namespace into the stream's. */
  lemma ForeignStays(ns: string)
    ensures NormalizeLines(ns) == CLIENT_NS <==> ns == CLIENT_NS
    ensures '\r' !in CLIENT_NS && '\n' !in CLIENT_NS
  {
    NoReturns(ns);
    if '\r' in ns {
      Feeds(ns);
    }
  }

  lemma {:induction false} Feeds(s: string)
    requires '\r' in s
    ensures '\n' in NormalizeLines(s)
  {
    if s[0] != '\r' {
      assert s == [s[0]] + s[1..];
      Feeds(s[1..]);
    }
  }

  lemma {:induction false} ResolvedNormalAll(ns: seq<Node>, scope: string)
    requires scope != "" && '\r' !in scope
    ensures ResolvedAll(ns, scope) == NormalAll(ns) <==>
            WellScopedAll(ns, scope != CLIENT_NS) && NoneQualifiedAll(ns) && NoneReturningAll(ns)
    decreases ns, 0
  {
    if ns != [] {
      ResolvedNormal(ns[0], scope);
      ResolvedNormalAll(ns[1..], scope);
      assert ResolvedAll(ns, scope)[0] == Resolved(ns[0], scope);
      assert ResolvedAll(ns, scope)[1..] == ResolvedAll(ns[1..], scope);
      assert NormalAll(ns)[0] == Normal(ns[0]) && NormalAll(ns)[1..] == NormalAll(ns[1..]);
    }
  }

  /** A child in the stream's namespace inside another namespace does not come back as it went. */
  lemma DefaultUnderForeignIsLost(name: string, foreign: string)
    requires LegalName(name) && Legal(foreign) && foreign != "" && foreign != CLIENT_NS
    ensures var n := Node(name, foreign, [], [Node(name, CLIENT_NS, [], [], "")], "");
            Printable(n) && ReadBack(n) != Normal(n)
  {
    hide LegalName, Legal;
    var child := Node(name, CLIENT_NS, [], [], "");
    var n := Node(name, foreign, [], [child], "");
    ClientIsLegal();
    assert n.children[1..] == [];
    assert Printable(child);
    assert !WellScopedAll(n.children, true);
    ReadBackIsNormal(n);
  }

  /** An attribute in a namespace, such as a language tag, comes back without it. */
  lemma QualifierIsLost(name: string, tag: string, ns: string, value: string)
    requires LegalName(name) && LegalName(tag) && tag != "xmlns" && Legal(value) && '\r' !in value && ns != ""
    ensures var n := Node(name, CLIENT_NS, [Attr(tag, ns, value)], [], "");
            Printable(n) && ReadBack(n) != Normal(n) && ReadBack(n).attrs == [Attr(tag, "", value)]
  {
    hide LegalName, Legal, NormalizeLines;
    var n := Node(name, CLIENT_NS, [Attr(tag, ns, value)], [], "");
    ClientIsLegal();
    NoReturns(value);
    assert n.attrs[0] in n.attrs && n.attrs == [Attr(tag, ns, value)] + [];
    AsReadCons(n.attrs[0], []);
    ReadBackIsNormal(n);
  }

  /** A carriage return comes back as a line feed. */
  lemma ReturnIsLost(name: string)
    requires LegalName(name)
    ensures var n := Node(name, CLIENT_NS, [], [], "a\rb");
            Printable(n) && ReadBack(n) != Normal(n) && ReadBack(n).text == "a\nb"
  {
    hide LegalName;
    var n := Node(name, CLIENT_NS, [], [], "a\rb");
    ClientIsLegal();
    NormalizeAfter("a", "\rb");
    NormalizePair("b");
    NormalizeAfter("b", "");
    assert "a\rb" == "a" + "\rb" && "\rb" == ['\r'] + "b" && "b" == "b" + "";
    assert '\r' in n.text by {
      assert n.text[1] == '\r';
    }
    ReadBackIsNormal(n);
  }

  lemma ClientIsLegal()
    ensures Legal(CLIENT_NS) && Legal("")
  {
  }

  // ---- Once read, always the same ----

  lemma {:induction false} AsReadTwice(attrs: seq<Attr>)
    ensures AsRead(AsRead(attrs)) == AsRead(attrs)
    ensures (forall a | a in attrs :: AttrOk(a) && a.name != "xmlns") ==>
              forall a | a in AsRead(attrs) :: AttrOk(a) && a.name != "xmlns"
  {
    hide NormalizeLines, Legal, LegalName;
    if attrs != [] {
      NormalizeTwice(attrs[0].value);
      AsReadTwice(attrs[1..]);
      assert AsRead(attrs)[1..] == AsRead(attrs[1..]);
      assert attrs[0] in attrs && forall a | a in attrs[1..] :: a in attrs;
      if Legal(attrs[0].value) {
        NormalLegal(attrs[0].value);
      }
    }
  }

  lemma {:induction false} ResolvedTwice(n: Node, scope: string)
    requires scope != "" && '\r' !in scope
    ensures Resolved(Resolved(n, scope), scope) == Resolved(n, scope)
    decreases n, 1
  {
    hide NormalizeLines, AsRead;
    AsReadTwice(n.attrs);
    NormalizeTwice(n.text);
    ReadNsTwice(n, scope);
    ResolvedTwiceAll(n.children, ReadNs(n, scope));
  }

  lemma ReadNsTwice(n: Node, scope: string)
    requires scope != "" && '\r' !in scope
    ensures ReadNs(Resolved(n, scope), scope) == ReadNs(n, scope) != ""
    ensures '\r' !in ReadNs(n, scope)
  {
    hide NormalizeLines, AsRead;
    NoReturns(scope);
    NoReturns(Effective(n.ns));
    NormalizeTwice(Effective(n.ns));
    ForeignStays(Effective(n.ns));
  }

  lemma {:induction false} ResolvedTwiceAll(ns: seq<Node>, scope: string)
    requires scope != "" && '\r' !in scope
    ensures ResolvedAll(ResolvedAll(ns, scope), scope) == ResolvedAll(ns, scope)
    decreases ns, 0
  {
    if ns != [] {
      ResolvedTwice(ns[0], scope);
      ResolvedTwiceAll(ns[1..], scope);
      assert ResolvedAll(ns, scope)[1..] == ResolvedAll(ns[1..], scope);
    }
  }

  lemma {:induction false} ResolvedPrintable(n: Node, scope: string)
    requires Printable(n) && Legal(scope)
    ensures Printable(Resolved(n, scope))
    decreases n, 1
  {
    hide Legal, NormalizeLines, AsRead;
    NormalLegal(n.text);
    if Effective(n.ns) != "" {
      NormalLegal(Effective(n.ns));
    }
    AsReadTwice(n.attrs);
    ResolvedPrintableAll(n.children, ReadNs(n, scope));
  }

  lemma {:induction false} ResolvedPrintableAll(ns: seq<Node>, scope: string)
    requires PrintableAll(ns) && Legal(scope)
    ensures PrintableAll(ResolvedAll(ns, scope))
    decreases ns, 0
  {
    if ns != [] {
      ResolvedPrintable(ns[0], scope);
      ResolvedPrintableAll(ns[1..], scope);
      assert ResolvedAll(ns, scope)[1..] == ResolvedAll(ns[1..], scope);
    }
  }

  /** What has been read once is printed and read unchanged from then on, even if its attributes were qualified, its text
      was interleaved with elements or held carriage returns when it first arrived. */
  lemma EchoIsStable(n: Node)
    requires Printable(n) && !ReadBack(n).IsStreamOpen()
    ensures var once := ReadBack(n);
            && Tokenize(Printed(once, ""), STREAM_SCOPE).Some?
            && Scan(Tokenize(Printed(once, ""), STREAM_SCOPE).value, []).outcome == Stanza(once)
  {
    hide Tokenize, Scan, Printed, Legal, NormalizeLines;
    ForeignStays(CLIENT_NS);
    ClientIsLegal();
    ResolvedTwice(n, CLIENT_NS);
    ResolvedPrintable(n, CLIENT_NS);
    hide Resolved;
    PrintThenRead(ReadBack(n));
  }
}
