/** Reading stanzas off a token stream with a stack, and the trees that the stream spells. */
module XmlReader {
  import opened Options
  import opened XmlNode
  import opened XmlTokens

  datatype Outcome = Stanza(node: Node) | Closed | NoMore

  datatype Reading = Reading(outcome: Outcome, used: nat)

  /** Namespace declarations are not kept as attributes. */
  predicate IsDeclaration(a: Attr) {
    a.ns == "xmlns" || (a.ns == "" && a.name == "xmlns")
  }

  function Kept(attrs: seq<Attr>): seq<Attr> {
    if attrs == [] then []
    else Kept(attrs[..|attrs| - 1]) + (if IsDeclaration(attrs[|attrs| - 1]) then [] else [attrs[|attrs| - 1]])
  }

  function Bare(name: string, ns: string, attrs: seq<Attr>): Node {
    Node(name, ns, Kept(attrs), [], "")
  }

  function Attached(parent: Node, child: Node): Node {
    parent.(children := parent.children + [child])
  }

  /** The reader's loop as a function of the stack: the outcome, and how many tokens it took. */
  function Scan(ts: seq<Token>, stack: seq<Node>): (r: Reading)
    ensures r.used <= |ts|
    ensures r.outcome.Stanza? ==> r.used > 0
    decreases |ts|, 1
  {
    if ts == [] then Reading(NoMore, 0)
    else
      match ts[0]
      case Start(name, ns, attrs) =>
        var node := Bare(name, ns, attrs);
        if stack == [] && node.IsStreamOpen() then Reading(Stanza(node), 1)
        else More(ts, stack + [node])
      case End(_, _) =>
        if stack == [] then Reading(Closed, 1)
        else
          var top, below := stack[|stack| - 1], stack[..|stack| - 1];
          if below == [] then Reading(Stanza(top), 1)
          else More(ts, below[|below| - 1 := Attached(below[|below| - 1], top)])
      case Chars(text) =>
        if stack == [] then More(ts, stack)
        else
          var top := stack[|stack| - 1];
          More(ts, stack[|stack| - 1 := top.(text := top.text + text)])
      case _ => More(ts, stack)
  }

  function More(ts: seq<Token>, stack: seq<Node>): (r: Reading)
    requires ts != []
    ensures r.used <= |ts|
    ensures r.used > 0
    decreases |ts|, 0
  {
    var r := Scan(ts[1..], stack);
    Reading(r.outcome, r.used + 1)
  }

  // ---- The reader ----

  class StreamDecoder {
    const tokens: seq<Token>
    var pos: nat

    ghost predicate Valid()
      reads this
    {
      pos <= |tokens|
    }

    constructor (tokens: seq<Token>)
      ensures Valid() && this.tokens == tokens && pos == 0
    {
      this.tokens, pos := tokens, 0;
    }

    method StartToNode(name: string, ns: string, attrs: seq<Attr>) returns (node: Node)
      ensures node == Bare(name, ns, attrs)
    {
      node := Node(name, ns, [], [], "");
      for i := 0 to |attrs|
        invariant node == Node(name, ns, Kept(attrs[..i]), [], "")
      {
        assert attrs[..i + 1][..i] == attrs[..i];
        var a := attrs[i];
        if a.ns == "xmlns" {
          continue;
        }
        if a.ns == "" && a.name == "xmlns" {
          continue;
        }
        node := node.(attrs := node.attrs + [a]);
      }
      assert attrs[..|attrs|] == attrs;
    }

    /** The next complete stanza, the opening of a stream, or the end. */
    method ReadStanza() returns (r: Outcome)
      requires Valid()
      modifies this
      ensures Valid()
      ensures pos >= old(pos)
      ensures Reading(r, pos - old(pos)) == Scan(tokens[old(pos)..], [])
    {
      var stack: seq<Node> := [];
      ghost var all := Scan(tokens[pos..], []);
      while true
        invariant Valid() && old(pos) <= pos
        invariant all.outcome == Scan(tokens[pos..], stack).outcome
        invariant all.used == Scan(tokens[pos..], stack).used + (pos - old(pos))
        decreases |tokens| - pos
      {
        if pos == |tokens| {
          return NoMore;
        }
        var tok := tokens[pos];
        assert tokens[pos..][1..] == tokens[pos + 1..];
        pos := pos + 1;
        match tok {
          case ProcInst =>
          case Comment =>
          case Directive =>
          case Start(name, ns, attrs) =>
            var node := StartToNode(name, ns, attrs);
            if |stack| == 0 {
              if node.IsStreamOpen() {
                return Stanza(node);
              }
            }
            stack := stack + [node];
          case End(_, _) =>
            if |stack| == 0 {
              return Closed;
            }
            var top := stack[|stack| - 1];
            stack := stack[..|stack| - 1];
            if |stack| == 0 {
              return Stanza(top);
            }
            var parent := stack[|stack| - 1];
            stack := stack[|stack| - 1 := parent.(children := parent.children + [top])];
          case Chars(text) =>
            if |stack| > 0 {
              var top := stack[|stack| - 1];
              stack := stack[|stack| - 1 := top.(text := top.text + text)];
            }
        }
      }
    }
  }

  // ---- The grammar of a well-nested stream ----

  datatype Content =
    | Elem(name: string, ns: string, attrs: seq<Attr>, body: seq<Content>)
    | Run(text: string)
    | Ignored(kind: Token)

  predicate WellFormed(c: Content)
    decreases c, 1
  {
    match c
    case Elem(_, _, _, body) => WellFormedAll(body)
    case Run(_) => true
    case Ignored(kind) => kind.ProcInst? || kind.Comment? || kind.Directive?
  }

  predicate WellFormedAll(cs: seq<Content>)
    decreases cs, 0
  {
    cs == [] || (WellFormed(cs[0]) && WellFormedAll(cs[1..]))
  }

  function Flatten(c: Content): seq<Token>
    decreases c, 1
  {
    match c
    case Elem(name, ns, attrs, body) => [Start(name, ns, attrs)] + FlattenAll(body) + [End(name, ns)]
    case Run(text) => [Chars(text)]
    case Ignored(kind) => [kind]
  }

  function FlattenAll(cs: seq<Content>): seq<Token>
    decreases cs, 0
  {
    if cs == [] then [] else Flatten(cs[0]) + FlattenAll(cs[1..])
  }

  /** The tree an element spells: its texts joined, its child elements in order. */
  function Build(c: Content): Node
    requires c.Elem?
    decreases c, 1
  {
    Node(c.name, c.ns, Kept(c.attrs), BuildAll(c.body), TextOf(c.body))
  }

  function BuildAll(cs: seq<Content>): seq<Node>
    decreases cs, 0
  {
    if cs == [] then []
    else (if cs[0].Elem? then [Build(cs[0])] else []) + BuildAll(cs[1..])
  }

  function TextOf(cs: seq<Content>): string {
    if cs == [] then "" else (if cs[0].Run? then cs[0].text else "") + TextOf(cs[1..])
  }

  function Absorbed(node: Node, cs: seq<Content>): Node {
    node.(children := node.children + BuildAll(cs), text := node.text + TextOf(cs))
  }

  function Later(n: nat, r: Reading): Reading {
    Reading(r.outcome, r.used + n)
  }

  lemma ScanHead(t: Token, ts: seq<Token>)
    ensures ([t] + ts)[0] == t && ([t] + ts)[1..] == ts
  {
  }

  /** Inside an open element, content is absorbed by the top of the stack and nothing else is touched. */
  lemma {:induction false} ScanContent(c: Content, below: seq<Node>, top: Node, rest: seq<Token>)
    requires WellFormed(c)
    ensures Scan(Flatten(c) + rest, below + [top]) ==
            Later(|Flatten(c)|, Scan(rest, below + [Absorbed(top, [c])]))
    decreases c, 1
  {
    hide Kept;
    AbsorbOne(top, c);
    match c
    case Elem(name, ns, attrs, body) =>
      var node := Bare(name, ns, attrs);
      var tail := [End(name, ns)] + rest;
      assert Flatten(c) + rest == [Start(name, ns, attrs)] + (FlattenAll(body) + tail);
      ScanHead(Start(name, ns, attrs), FlattenAll(body) + tail);
      ScanAll(body, below + [top], node, tail);
      ScanHead(End(name, ns), rest);
      AbsorbedWhole(name, ns, attrs, body);
      EndOfChild(below, top, Build(c), End(name, ns), rest);
    case Run(text) =>
      ScanHead(Chars(text), rest);
      assert (below + [top])[|below| := top.(text := top.text + text)] == below + [top.(text := top.text + text)];
    case Ignored(kind) =>
      ScanHead(kind, rest);
  }

  lemma AbsorbOne(top: Node, c: Content)
    ensures Absorbed(top, [c]) == match c
                                  case Elem(_, _, _, _) => Attached(top, Build(c))
                                  case Run(text) => top.(text := top.text + text)
                                  case Ignored(_) => top
  {
    assert [c][1..] == [];
    assert BuildAll([c]) == if c.Elem? then [Build(c)] else [];
    assert TextOf([c]) == if c.Run? then c.text else "";
    assert top.children + [] == top.children && top.text + "" == top.text;
  }

  lemma AbsorbedWhole(name: string, ns: string, attrs: seq<Attr>, body: seq<Content>)
    ensures Absorbed(Bare(name, ns, attrs), body) == Build(Elem(name, ns, attrs, body))
  {
    assert [] + BuildAll(body) == BuildAll(body) && "" + TextOf(body) == TextOf(body);
  }

  lemma EndOfChild(below: seq<Node>, top: Node, child: Node, end: Token, rest: seq<Token>)
    requires end.End?
    ensures Scan([end] + rest, below + [top] + [child]) == Later(1, Scan(rest, below + [Attached(top, child)]))
  {
    ScanHead(end, rest);
    var stack := below + [top] + [child];
    assert stack[..|stack| - 1] == below + [top];
    assert (below + [top])[|below| := Attached(top, child)] == below + [Attached(top, child)];
  }

  lemma {:induction false} ScanAll(cs: seq<Content>, below: seq<Node>, top: Node, rest: seq<Token>)
    requires WellFormedAll(cs)
    ensures Scan(FlattenAll(cs) + rest, below + [top]) ==
            Later(|FlattenAll(cs)|, Scan(rest, below + [Absorbed(top, cs)]))
    decreases cs, 0
  {
    hide Scan, Flatten, Build;
    if cs == [] {
      assert FlattenAll(cs) + rest == rest;
      assert top.children + [] == top.children && top.text + "" == top.text;
    } else {
      var more := FlattenAll(cs[1..]) + rest;
      assert FlattenAll(cs) + rest == Flatten(cs[0]) + more;
      ScanContent(cs[0], below, top, more);
      ScanAll(cs[1..], below, Absorbed(top, [cs[0]]), rest);
      AbsorbMore(top, cs);
    }
  }

  lemma AbsorbMore(top: Node, cs: seq<Content>)
    requires cs != []
    ensures Absorbed(Absorbed(top, [cs[0]]), cs[1..]) == Absorbed(top, cs)
  {
    assert [cs[0]][1..] == [];
    assert BuildAll([cs[0]]) + BuildAll(cs[1..]) == BuildAll(cs);
    assert TextOf([cs[0]]) + TextOf(cs[1..]) == TextOf(cs);
  }

  /** One call reads exactly the tokens of one element and returns its tree. */
  lemma ScanStanza(c: Content, rest: seq<Token>)
    requires c.Elem? && WellFormed(c) && !Bare(c.name, c.ns, c.attrs).IsStreamOpen()
    ensures Scan(Flatten(c) + rest, []) == Reading(Stanza(Build(c)), |Flatten(c)|)
  {
    hide Kept;
    var start, end := Start(c.name, c.ns, c.attrs), End(c.name, c.ns);
    var tail := [end] + rest;
    assert Flatten(c) + rest == [start] + (FlattenAll(c.body) + tail);
    ScanHead(start, FlattenAll(c.body) + tail);
    assert [] + [Bare(c.name, c.ns, c.attrs)] == [Bare(c.name, c.ns, c.attrs)];
    ScanAll(c.body, [], Bare(c.name, c.ns, c.attrs), tail);
    AbsorbedWhole(c.name, c.ns, c.attrs, c.body);
    assert [] + [Build(c)] == [Build(c)];
    ScanHead(end, rest);
    assert [Build(c)][..0] == [];
  }

  // ---- A whole stream ----

  /** What repeated calls return, up to the first that returns no stanza. */
  function Stanzas(ts: seq<Token>): seq<Node>
    decreases |ts|
  {
    var r := Scan(ts, []);
    match r.outcome
    case Stanza(node) => [node] + Stanzas(ts[r.used..])
    case _ => []
  }

  predicate NoStreamOpens(cs: seq<Content>) {
    forall c | c in cs && c.Elem? :: !Bare(c.name, c.ns, c.attrs).IsStreamOpen()
  }

  lemma SkipIsScan(t: Token, ts: seq<Token>)
    requires !t.Start? && !t.End?
    ensures Stanzas([t] + ts) == Stanzas(ts)
  {
    ScanHead(t, ts);
    var r := Scan(ts, []);
    assert Scan([t] + ts, []) == Later(1, r);
    assert ([t] + ts)[r.used + 1..] == ts[r.used..];
  }

  /** Over a whole well-nested stream the calls return the stanzas, in order, and nothing in between. */
  lemma {:induction false} StanzasInOrder(cs: seq<Content>, rest: seq<Token>)
    requires WellFormedAll(cs) && NoStreamOpens(cs)
    requires rest == [] || rest[0].End?
    ensures Stanzas(FlattenAll(cs) + rest) == BuildAll(cs)
  {
    hide Kept, Build;
    if cs == [] {
      assert FlattenAll(cs) + rest == rest;
    } else {
      var more := FlattenAll(cs[1..]) + rest;
      assert FlattenAll(cs) + rest == Flatten(cs[0]) + more;
      assert NoStreamOpens(cs[1..]) by {
        assert forall c | c in cs[1..] :: c in cs;
      }
      StanzasInOrder(cs[1..], rest);
      if cs[0].Elem? {
        ScanStanza(cs[0], more);
        assert (Flatten(cs[0]) + more)[|Flatten(cs[0])|..] == more;
      } else {
        SkipIsScan(if cs[0].Run? then Chars(cs[0].text) else cs[0].kind, more);
      }
    }
  }

  // ---- The opening and the end of a stream ----

  /** What a reader outside any element steps over: anything but tags. */
  predicate Skipped(ts: seq<Token>) {
    forall t | t in ts :: !t.Start? && !t.End?
  }

  lemma {:induction false} SkipAll(skipped: seq<Token>, rest: seq<Token>)
    requires Skipped(skipped)
    ensures Scan(skipped + rest, []) == Later(|skipped|, Scan(rest, []))
  {
    if skipped == [] {
      assert skipped + rest == rest;
    } else {
      assert skipped[0] in skipped && forall t | t in skipped[1..] :: t in skipped;
      SkipAll(skipped[1..], rest);
      assert skipped + rest == [skipped[0]] + (skipped[1..] + rest);
      ScanHead(skipped[0], skipped[1..] + rest);
    }
  }

  /** A declaration is an attribute in the namespace "xmlns", or one of that name in none; nothing else is dropped. */
  lemma KeptConcat(a: seq<Attr>, x: Attr)
    ensures Kept([]) == []
    ensures Kept(a + [x]) == Kept(a) + (if x.ns == "xmlns" || (x.ns == "" && x.name == "xmlns") then [] else [x])
  {
    assert (a + [x])[..|a|] == a;
  }

  /** The node that the opening of a stream is read as: nothing inside it is waited for. */
  function Header(attrs: seq<Attr>): Node {
    Node("stream", "http://etherx.jabber.org/streams", Kept(attrs), [], "")
  }

  predicate OpensStream(name: string, ns: string) {
    name == "stream" && ns == "http://etherx.jabber.org/streams"
  }

  /** The opening of a stream is returned at once, and uses exactly the tokens up to it. */
  lemma StreamOpensAtOnce(skipped: seq<Token>, attrs: seq<Attr>, rest: seq<Token>)
    requires Skipped(skipped)
    ensures Scan(skipped + ([Start("stream", "http://etherx.jabber.org/streams", attrs)] + rest), []) ==
            Reading(Stanza(Header(attrs)), |skipped| + 1)
  {
    hide Kept;
    var open := Start("stream", "http://etherx.jabber.org/streams", attrs);
    SkipAll(skipped, [open] + rest);
    ScanHead(open, rest);
  }

  /** An end tag outside any element closes the stream. */
  lemma StreamCloses(skipped: seq<Token>, name: string, ns: string, rest: seq<Token>)
    requires Skipped(skipped)
    ensures Scan(skipped + ([End(name, ns)] + rest), []) == Reading(Closed, |skipped| + 1)
  {
    SkipAll(skipped, [End(name, ns)] + rest);
    ScanHead(End(name, ns), rest);
  }

  /** An element that opens a stream is an ordinary child inside a stanza. */
  lemma StreamInsideIsChild(attrs: seq<Attr>, body: seq<Content>, below: seq<Node>, top: Node, rest: seq<Token>)
    requires WellFormedAll(body)
    ensures var c := Elem("stream", "http://etherx.jabber.org/streams", attrs, body);
            Scan(Flatten(c) + rest, below + [top]) ==
            Later(|Flatten(c)|, Scan(rest, below + [Attached(top, Header(attrs).(children := BuildAll(body), text := TextOf(body)))]))
  {
    hide Kept;
    var c := Elem("stream", "http://etherx.jabber.org/streams", attrs, body);
    ScanContent(c, below, top, rest);
    AbsorbOne(top, c);
    assert top.text + "" == top.text;
  }

  /** Whatever a call needs, with fewer tokens it asks for more, having used all it had. */
  lemma {:induction false} UnfinishedWaits(ts: seq<Token>, stack: seq<Node>, k: nat)
    requires k < Scan(ts, stack).used
    ensures Scan(ts[..k], stack) == Reading(NoMore, k)
    decreases k
  {
    hide Kept;
    if k > 0 {
      var t := ts[0];
      assert ts[..k][0] == t && ts[..k][1..] == ts[1..][..k - 1];
      match t
      case Start(name, ns, attrs) => UnfinishedWaits(ts[1..], stack + [Bare(name, ns, attrs)], k - 1);
      case End(_, _) =>
        var top, below := stack[|stack| - 1], stack[..|stack| - 1];
        UnfinishedWaits(ts[1..], below[|below| - 1 := Attached(below[|below| - 1], top)], k - 1);
      case Chars(text) =>
        if stack == [] {
          UnfinishedWaits(ts[1..], stack, k - 1);
        } else {
          var top := stack[|stack| - 1];
          UnfinishedWaits(ts[1..], stack[|stack| - 1 := top.(text := top.text + text)], k - 1);
        }
      case _ => UnfinishedWaits(ts[1..], stack, k - 1);
    }
  }

  /** A stanza cut short is not returned. */
  lemma CutStanzaWaits(c: Content, k: nat)
    requires c.Elem? && WellFormed(c) && !OpensStream(c.name, c.ns) && k < |Flatten(c)|
    ensures Scan(Flatten(c)[..k], []) == Reading(NoMore, k)
  {
    ScanStanza(c, []);
    assert Flatten(c) + [] == Flatten(c);
    UnfinishedWaits(Flatten(c), [], k);
  }

  // ---- Whole connections ----

  /** What arrives on a connection outside any stanza: the opening of a stream, again after each restart, or content. */
  datatype Piece = Opening(attrs: seq<Attr>) | Part(content: Content)

  predicate Sound(ps: seq<Piece>) {
    forall p | p in ps && p.Part? ::
      WellFormed(p.content) && (p.content.Elem? ==> !OpensStream(p.content.name, p.content.ns))
  }

  function PieceTokens(p: Piece): seq<Token> {
    match p
    case Opening(attrs) => [Start("stream", "http://etherx.jabber.org/streams", attrs)]
    case Part(c) => Flatten(c)
  }

  function PieceNodes(p: Piece): seq<Node> {
    match p
    case Opening(attrs) => [Header(attrs)]
    case Part(c) => if c.Elem? then [Build(c)] else []
  }

  function Spelled(ps: seq<Piece>): seq<Token> {
    if ps == [] then [] else PieceTokens(ps[0]) + Spelled(ps[1..])
  }

  function Returned(ps: seq<Piece>): seq<Node> {
    if ps == [] then [] else PieceNodes(ps[0]) + Returned(ps[1..])
  }

  lemma PieceFirst(p: Piece, more: seq<Token>)
    requires Sound([p])
    ensures Stanzas(PieceTokens(p) + more) == PieceNodes(p) + Stanzas(more)
  {
    hide Kept, Build, Scan, Flatten;
    match p
    case Opening(attrs) =>
      StreamOpensAtOnce([], attrs, more);
      assert [] + (PieceTokens(p) + more) == PieceTokens(p) + more && (PieceTokens(p) + more)[1..] == more;
    case Part(c) =>
      assert p in [p];
      if c.Elem? {
        ScanStanza(c, more);
        assert (Flatten(c) + more)[|Flatten(c)|..] == more;
      } else {
        NoElement(c);
        SkipIsScan(if c.Run? then Chars(c.text) else c.kind, more);
      }
  }

  lemma NoElement(c: Content)
    requires WellFormed(c) && !c.Elem?
    ensures Flatten(c) == [if c.Run? then Chars(c.text) else c.kind]
  {
  }

  lemma NothingLeft(rest: seq<Token>)
    requires rest == [] || rest[0].End?
    ensures Stanzas(rest) == []
  {
  }

  /** Over a whole connection the calls return the openings of the stream and the stanzas, in order, and nothing else. */
  lemma {:induction false} ConnectionInOrder(ps: seq<Piece>, rest: seq<Token>)
    requires Sound(ps) && (rest == [] || rest[0].End?)
    ensures Stanzas(Spelled(ps) + rest) == Returned(ps)
  {
    hide Stanzas, PieceTokens, PieceNodes;
    if ps == [] {
      NothingLeft(rest);
      assert Spelled(ps) + rest == rest;
    } else {
      var more := Spelled(ps[1..]) + rest;
      assert ps[0] in ps && forall p | p in ps[1..] :: p in ps;
      ConnectionInOrder(ps[1..], rest);
      PieceFirst(ps[0], more);
      assert Spelled(ps) + rest == PieceTokens(ps[0]) + more;
    }
  }
}
