/** The element tree and its printer. */
module XmlNode {
  import opened XmlText

  const CLIENT_NS := "jabber:client"
  const STREAM_NS := "http://etherx.jabber.org/streams"

  datatype Attr = Attr(name: string, ns: string, value: string)

  datatype Node = Node(name: string, ns: string, attrs: seq<Attr>, children: seq<Node>, text: string) {
    predicate IsStreamOpen() {
      name == "stream" && ns == STREAM_NS
    }
  }

  /** The default namespace of the stream is never written. */
  function Effective(ns: string): string {
    if ns == CLIENT_NS then "" else ns
  }

  // ---- What is printed ----

  function AttrText(a: Attr): string {
    " " + a.name + "='" + EscapeAttr(a.value) + "'"
  }

  function AttrsText(attrs: seq<Attr>): string {
    if attrs == [] then "" else AttrText(attrs[0]) + AttrsText(attrs[1..])
  }

  /** The attributes of a start tag, a namespace declaration first if one is needed. */
  function Declared(n: Node, parentNs: string): seq<Attr> {
    var ns := Effective(n.ns);
    (if ns != "" && ns != parentNs then [Attr("xmlns", "", ns)] else []) + n.attrs
  }

  function Printed(n: Node, parentNs: string): string
    decreases n, 1
  {
    var open := "<" + n.name + AttrsText(Declared(n, parentNs));
    if n.children == [] && n.text == "" then open + "/>"
    else open + ">" + (EscapeText(n.text) + (PrintedAll(n.children, Effective(n.ns)) + ("</" + n.name + ">")))
  }

  function PrintedAll(ns: seq<Node>, parentNs: string): string
    decreases ns, 0
  {
    if ns == [] then "" else Printed(ns[0], parentNs) + PrintedAll(ns[1..], parentNs)
  }

  // ---- The printer ----

  class Builder {
    var text: string

    constructor ()
      ensures text == ""
    {
      text := "";
    }

    method Write(s: string)
      modifies this
      ensures text == old(text) + s
    {
      text := text + s;
    }
  }

  method Serialize(n: Node) returns (s: string)
    ensures s == Printed(n, "")
  {
    var b := new Builder();
    SerializeInto(n, "", b);
    s := b.text;
  }

  method WriteAttr(name: string, value: string, b: Builder)
    modifies b
    ensures b.text == old(b.text) + AttrText(Attr(name, "", value))
  {
    b.Write(" ");
    b.Write(name);
    b.Write("='");
    b.Write(EscapeAttr(value));
    b.Write("'");
  }

  /** The start tag, up to its closing bracket. */
  method WriteOpen(n: Node, parentNs: string, b: Builder)
    modifies b
    ensures b.text == old(b.text) + ("<" + n.name + AttrsText(Declared(n, parentNs)))
  {
    hide AttrText, AttrsText;
    ghost var start := b.text + ("<" + n.name);
    b.Write("<");
    b.Write(n.name);
    var effectiveNs := if n.ns == CLIENT_NS then "" else n.ns;
    ghost var declared := if effectiveNs != "" && effectiveNs != parentNs then [Attr("xmlns", "", effectiveNs)] else [];
    NoAttrs();
    AttrsTextSnoc([], Attr("xmlns", "", effectiveNs));
    assert [] + [Attr("xmlns", "", effectiveNs)] == [Attr("xmlns", "", effectiveNs)];
    if effectiveNs != "" && effectiveNs != parentNs {
      WriteAttr("xmlns", effectiveNs, b);
    }
    WriteAttrs(n.attrs, start, declared, b);
  }

  lemma NoAttrs()
    ensures AttrsText([]) == ""
  {
  }

  method WriteAttrs(attrs: seq<Attr>, ghost start: string, ghost declared: seq<Attr>, b: Builder)
    requires b.text == start + AttrsText(declared)
    modifies b
    ensures b.text == start + AttrsText(declared + attrs)
  {
    hide AttrText, AttrsText;
    assert declared + attrs[..0] == declared;
    for i := 0 to |attrs|
      invariant b.text == start + AttrsText(declared + attrs[..i])
    {
      var a := attrs[i];
      assert declared + attrs[..i + 1] == (declared + attrs[..i]) + [a];
      AttrsTextSnoc(declared + attrs[..i], a);
      SameText(a);
      WriteAttr(a.name, a.value, b);
    }
    assert attrs[..|attrs|] == attrs;
  }

  /** The namespace of an attribute is not printed. */
  lemma SameText(a: Attr)
    ensures AttrText(Attr(a.name, "", a.value)) == AttrText(a)
  {
  }

  method SerializeInto(n: Node, parentNs: string, b: Builder)
    modifies b
    ensures b.text == old(b.text) + Printed(n, parentNs)
    decreases n, 1
  {
    hide EscapeText, Declared, AttrsText, PrintedAll;
    ghost var start, open := b.text, "<" + n.name + AttrsText(Declared(n, parentNs));
    WriteOpen(n, parentNs, b);
    if |n.children| == 0 && n.text == "" {
      b.Write("/>");
      return;
    }
    b.Write(">");
    EmptyText();
    if n.text != "" {
      b.Write(EscapeText(n.text));
    }
    var effectiveNs := if n.ns == CLIENT_NS then "" else n.ns;
    WriteChildren(n.children, effectiveNs, b);
    b.Write("</");
    b.Write(n.name);
    b.Write(">");
    Assembled(start, open, EscapeText(n.text), PrintedAll(n.children, effectiveNs), n.name);
  }

  lemma Assembled(start: string, open: string, text: string, body: string, name: string)
    ensures start + open + ">" + text + body + "</" + name + ">" ==
            start + (open + ">" + (text + (body + ("</" + name + ">"))))
  {
  }

  method WriteChildren(children: seq<Node>, parentNs: string, b: Builder)
    modifies b
    ensures b.text == old(b.text) + PrintedAll(children, parentNs)
    decreases children, 0
  {
    ghost var start := b.text;
    for i := 0 to |children|
      invariant b.text == start + PrintedAll(children[..i], parentNs)
    {
      assert children[..i + 1] == children[..i] + [children[i]];
      PrintedAllSnoc(children[..i], children[i], parentNs);
      SerializeInto(children[i], parentNs, b);
    }
    assert children[..|children|] == children;
  }

  lemma EmptyText()
    ensures EscapeText("") == ""
  {
  }

  lemma {:induction false} AttrsTextSnoc(attrs: seq<Attr>, a: Attr)
    ensures AttrsText(attrs + [a]) == AttrsText(attrs) + AttrText(a)
  {
    if attrs == [] {
      assert [a][1..] == [];
      assert AttrText(a) + "" == AttrText(a);
    } else {
      assert (attrs + [a])[1..] == attrs[1..] + [a];
      AttrsTextSnoc(attrs[1..], a);
    }
  }

  lemma {:induction false} PrintedAllSnoc(ns: seq<Node>, n: Node, parentNs: string)
    ensures PrintedAll(ns + [n], parentNs) == PrintedAll(ns, parentNs) + Printed(n, parentNs)
  {
    if ns == [] {
      assert [n][1..] == [];
      assert Printed(n, parentNs) + "" == Printed(n, parentNs);
    } else {
      assert (ns + [n])[1..] == ns[1..] + [n];
      PrintedAllSnoc(ns[1..], n, parentNs);
    }
  }
}
