/** An already-parsed XML document and the two ways the response reader looks
    into it: XPath location paths made of child steps (SimpleXMLElement::xpath)
    and SimpleXML property access (`$element->Name`, `attributes()`, the
    string cast). Parsing XML text is not part of this model. */
module Xml {
  import opened Wrappers

  /** An element name as written (its prefix, "" when there is none) and the
      namespace URI that name is in. */
  datatype QName = QName(prefix: string, uri: string, local: string)

  /** An element: its name, its attributes that carry no namespace prefix,
      its child elements in document order, and the concatenation of its own
      text nodes (what SimpleXML's string cast of the element gives). */
  datatype Element = Element(name: QName, attributes: map<string, string>,
                             children: seq<Element>, text: string)

  /** A document: the namespace declarations in scope at its root element
      (prefix to URI) and the root element. */
  datatype Document = Document(namespaces: map<string, string>, root: Element)

  /** One location step `prefix:local` of an XPath child path. */
  datatype Step = Step(prefix: string, local: string)

  /** A step with its prefix resolved: namespace URI and local name. */
  datatype ExpandedName = ExpandedName(uri: string, local: string)

  /** Resolves the prefix of every step through env; None when a prefix is
      not bound. */
  function Resolve(path: seq<Step>, env: map<string, string>): (r: Option<seq<ExpandedName>>)
    ensures r.Some? <==> forall i :: 0 <= i < |path| ==> path[i].prefix in env
    ensures r.Some? ==> |r.value| == |path|
  {
    if path == [] then Some([])
    else if path[0].prefix !in env then None
    else match Resolve(path[1..], env)
      case None => None
      case Some(rest) => Some([ExpandedName(env[path[0].prefix], path[0].local)] + rest)
  }

  /** Each step resolves to the URI its prefix is bound to and its own
      local name. */
  lemma {:induction false} ResolveAt(path: seq<Step>, env: map<string, string>, i: nat)
    requires Resolve(path, env).Some? && i < |path|
    ensures Resolve(path, env).value[i] == ExpandedName(env[path[i].prefix], path[i].local)
  {
    if i > 0 {
      ResolveAt(path[1..], env, i - 1);
    }
  }

  /** Resolving a concatenated path resolves each part. */
  lemma {:induction false} ResolveAppend(p: seq<Step>, q: seq<Step>, env: map<string, string>)
    ensures Resolve(p + q, env).Some? <==> Resolve(p, env).Some? && Resolve(q, env).Some?
    ensures Resolve(p + q, env).Some? ==>
      Resolve(p + q, env).value == Resolve(p, env).value + Resolve(q, env).value
  {
    if p == [] {
      assert p + q == q;
    } else {
      assert (p + q)[0] == p[0] && (p + q)[1..] == p[1..] + q;
      ResolveAppend(p[1..], q, env);
      if Resolve(p + q, env).Some? {
        var head := [ExpandedName(env[p[0].prefix], p[0].local)];
        assert head + (Resolve(p[1..], env).value + Resolve(q, env).value) ==
               (head + Resolve(p[1..], env).value) + Resolve(q, env).value;
      }
    }
  }

  predicate Matches(e: Element, n: ExpandedName) {
    e.name.uri == n.uri && e.name.local == n.local
  }

  /** The elements of cs, in order, that match n. */
  function Filter(cs: seq<Element>, n: ExpandedName): seq<Element> {
    if cs == [] then []
    else (if Matches(cs[0], n) then [cs[0]] else []) + Filter(cs[1..], n)
  }

  /** Filter keeps exactly the elements that match. */
  lemma {:induction false} FilterMembers(cs: seq<Element>, n: ExpandedName, x: Element)
    ensures x in Filter(cs, n) <==> x in cs && Matches(x, n)
  {
    if cs != [] {
      FilterMembers(cs[1..], n, x);
      assert cs == [cs[0]] + cs[1..];
    }
  }

  /** The children of all the nodes, in document order, that match n. */
  function ChildrenMatching(nodes: seq<Element>, n: ExpandedName): seq<Element>
  {
    if nodes == [] then [] else Filter(nodes[0].children, n) + ChildrenMatching(nodes[1..], n)
  }

  /** What a relative path of child steps selects from the context nodes, in
      document order: one child step after another. */
  function Select(nodes: seq<Element>, path: seq<ExpandedName>): seq<Element>
    decreases |path|
  {
    if path == [] then nodes else Select(ChildrenMatching(nodes, path[0]), path[1..])
  }

  /** The document node, parent of the root element, from which an absolute
      path starts. */
  function DocumentNode(doc: Document): Element {
    Element(QName("", "", ""), map[], [doc.root], "")
  }

  /** SimpleXMLElement::xpath for an absolute path of child steps, with the
      prefixes bound by env: the selected elements in document order, or none
      when a prefix is unbound (where PHP's xpath returns false). */
  function XPath(doc: Document, env: map<string, string>, path: seq<Step>): seq<Element> {
    match Resolve(path, env)
    case None => []
    case Some(names) => Select([DocumentNode(doc)], names)
  }

  lemma {:induction false} ChildrenMatchingConcat(a: seq<Element>, b: seq<Element>, n: ExpandedName)
    ensures ChildrenMatching(a + b, n) == ChildrenMatching(a, n) + ChildrenMatching(b, n)
  {
    if a != [] {
      assert (a + b)[1..] == a[1..] + b;
      ChildrenMatchingConcat(a[1..], b, n);
    } else {
      assert a + b == b;
    }
  }

  /** Selecting from two runs of context nodes selects from each, in order. */
  lemma {:induction false} SelectConcat(a: seq<Element>, b: seq<Element>, path: seq<ExpandedName>)
    ensures Select(a + b, path) == Select(a, path) + Select(b, path)
    decreases |path|
  {
    if path != [] {
      ChildrenMatchingConcat(a, b, path[0]);
      SelectConcat(ChildrenMatching(a, path[0]), ChildrenMatching(b, path[0]), path[1..]);
    }
  }

  /** A path followed by another selects what the second selects from what
      the first selected. */
  lemma {:induction false} SelectAppend(nodes: seq<Element>, p: seq<ExpandedName>, q: seq<ExpandedName>)
    ensures Select(nodes, p + q) == Select(Select(nodes, p), q)
    decreases |p|
  {
    if p == [] {
      assert p + q == q;
    } else {
      assert (p + q)[0] == p[0] && (p + q)[1..] == p[1..] + q;
      SelectAppend(ChildrenMatching(nodes, p[0]), p[1..], q);
    }
  }

  /** Every selected element matches the last step of the path. */
  lemma {:induction false} SelectMatchesLastStep(nodes: seq<Element>, path: seq<ExpandedName>, x: Element)
    requires path != [] && x in Select(nodes, path)
    ensures Matches(x, path[|path| - 1])
    decreases |path|
  {
    if |path| == 1 {
      ChildrenMatchingOnlyMatches(nodes, path[0], x);
    } else {
      SelectMatchesLastStep(ChildrenMatching(nodes, path[0]), path[1..], x);
    }
  }

  lemma {:induction false} ChildrenMatchingOnlyMatches(nodes: seq<Element>, n: ExpandedName, x: Element)
    requires x in ChildrenMatching(nodes, n)
    ensures Matches(x, n)
  {
    if x in Filter(nodes[0].children, n) {
      FilterMembers(nodes[0].children, n, x);
    } else {
      ChildrenMatchingOnlyMatches(nodes[1..], n, x);
    }
  }

  /** The first element selected by p + q lies under the first element
      selected by p, whenever the latter has a match for q at all. */
  lemma XPathFirstUnderFirst(doc: Document, env: map<string, string>, p: seq<Step>, q: seq<Step>)
    requires Resolve(q, env).Some?
    requires XPath(doc, env, p) != []
    requires Select([XPath(doc, env, p)[0]], Resolve(q, env).value) != []
    ensures XPath(doc, env, p + q) != []
    ensures XPath(doc, env, p + q)[0] == Select([XPath(doc, env, p)[0]], Resolve(q, env).value)[0]
  {
    ResolveAppend(p, q, env);
    var ctx := XPath(doc, env, p);
    var names := Resolve(q, env).value;
    SelectAppend([DocumentNode(doc)], Resolve(p, env).value, names);
    assert ctx == [ctx[0]] + ctx[1..];
    SelectConcat([ctx[0]], ctx[1..], names);
  }

  function First(nodes: seq<Element>): (r: Option<Element>)
    ensures r.Some? <==> nodes != []
    ensures r.Some? ==> r.value == nodes[0]
  {
    if nodes == [] then None else Some(nodes[0])
  }

  /** The children of cs, in order, whose name has no prefix and the given
      local part. */
  function Unprefixed(cs: seq<Element>, local: string): seq<Element> {
    if cs == [] then []
    else
      var head := if cs[0].name.prefix == "" && cs[0].name.local == local then [cs[0]] else [];
      head + Unprefixed(cs[1..], local)
  }

  /** Unprefixed keeps exactly the unprefixed elements with that local name. */
  lemma {:induction false} UnprefixedMembers(cs: seq<Element>, local: string, x: Element)
    ensures x in Unprefixed(cs, local) <==> x in cs && x.name.prefix == "" && x.name.local == local
  {
    if cs != [] {
      UnprefixedMembers(cs[1..], local, x);
      assert cs == [cs[0]] + cs[1..];
    }
  }

  /** `$element->local` iterated (foreach): the children with that local name
      whose name carries no prefix, in document order; none when there is no
      element to start from. */
  function ChildrenNamed(e: Option<Element>, local: string): seq<Element> {
    match e
    case None => []
    case Some(x) => Unprefixed(x.children, local)
  }

  /** `$element->local` used as one element: the first of them. */
  function Child(e: Option<Element>, local: string): Option<Element> {
    First(ChildrenNamed(e, local))
  }

  /** `(string) $element`: its text, or "" where PHP casts null. */
  function Text(e: Option<Element>): string {
    match e
    case None => ""
    case Some(x) => x.text
  }

  /** `$element->attributes()->name`: the unprefixed attribute, None where
      PHP gives null. */
  function Attribute(e: Option<Element>, name: string): Option<string> {
    match e
    case None => None
    case Some(x) => if name in x.attributes then Some(x.attributes[name]) else None
  }

  /** `(string) $element->attributes()->name`: "" where PHP casts null. */
  function AttributeText(e: Option<Element>, name: string): string {
    match Attribute(e, name)
    case None => ""
    case Some(v) => v
  }
}
