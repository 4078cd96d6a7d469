/**
 * The XML the feed parsers read, as the Poco parsers deliver it: for the
 * SAX handlers, the sequence of element callbacks; for the DOM parsers, a
 * tree of elements and text. Parsing itself, namespaces and entity
 * handling are not modelled: an element carries its qualified name, and
 * the inner-XML rendering the DOM serialiser would produce.
 */
module Xml {
  import opened Wrappers

  /** The two SAX callbacks the engine's handlers act on (`characters` and the rest do nothing). */
  datatype SaxEvent =
    | StartElement(localName: string, attributes: map<string, string>)
    | EndElement(localName: string)

  /** What one SAX parse delivers: the callbacks up to the end of the document or up to a fatal error. */
  datatype SaxRun = SaxRun(events: seq<SaxEvent>, completed: bool)

  /** A DOM node: an element with its attributes, children and serialised content, or text. */
  datatype Node =
    | Element(name: string, attributes: map<string, string>, children: seq<Node>, innerXML: string)
    | Text(text: string)

  /** `Element::hasAttribute` and `getAttribute`. */
  function Attribute(n: Node, key: string): (r: Option<string>)
    ensures r.Some? <==> n.Element? && key in n.attributes
    ensures r.Some? ==> r.value == n.attributes[key]
  {
    if n.Element? && key in n.attributes then Some(n.attributes[key]) else None
  }

  /** `Node::innerText`: the text of the node and everything below it, in document order. */
  function InnerText(n: Node): string
  {
    match n
    case Text(t) => t
    case Element(_, _, children, _) => InnerTexts(children)
  }

  function InnerTexts(nodes: seq<Node>): string
  {
    if nodes == [] then "" else InnerText(nodes[0]) + InnerTexts(nodes[1..])
  }

  /**
   * `getElementsByTagName` over `nodes` and everything below them: the
   * elements with that qualified name, in document (pre-)order.
   */
  function ElementsNamed(nodes: seq<Node>, name: string): (r: seq<Node>)
    ensures forall k :: 0 <= k < |r| ==> r[k].Element? && r[k].name == name
    decreases nodes
  {
    if nodes == [] then []
    else
      var here := if nodes[0].Element? && nodes[0].name == name then [nodes[0]] else [];
      var below := if nodes[0].Element? then ElementsNamed(nodes[0].children, name) else [];
      here + below + ElementsNamed(nodes[1..], name)
  }

  /** `Element::getElementsByTagName`: the matching elements strictly below `n`. */
  function Descendants(n: Node, name: string): (r: seq<Node>)
    ensures forall k :: 0 <= k < |r| ==> r[k].Element? && r[k].name == name
  {
    if n.Element? then ElementsNamed(n.children, name) else []
  }

  /** `Document::getElementsByTagName`: the document element itself counts. */
  function DocumentElements(root: Node, name: string): (r: seq<Node>)
    ensures forall k :: 0 <= k < |r| ==> r[k].Element? && r[k].name == name
  {
    ElementsNamed([root], name)
  }

  /** `getNodeByPath(name)` for a plain name: the first child element with that name. */
  function Child(n: Node, name: string): (r: Option<Node>)
    ensures r.Some? ==> r.value.Element? && r.value.name == name && n.Element? && r.value in n.children
    ensures r.None? ==> !n.Element? || forall c :: c in n.children ==> !(c.Element? && c.name == name)
  {
    if n.Element? then FirstNamed(n.children, name) else None
  }

  function FirstNamed(nodes: seq<Node>, name: string): (r: Option<Node>)
    ensures r.Some? ==> r.value.Element? && r.value.name == name && r.value in nodes
    ensures r.None? ==> forall c :: c in nodes ==> !(c.Element? && c.name == name)
  {
    if nodes == [] then None
    else if nodes[0].Element? && nodes[0].name == name then Some(nodes[0])
    else FirstNamed(nodes[1..], name)
  }

  /** The index of the first node satisfying `p`, as a scan that stops at the first match finds it. */
  function FirstWhere(nodes: seq<Node>, p: Node -> bool): (r: Option<nat>)
    ensures r.Some? ==> r.value < |nodes| && p(nodes[r.value]) && forall j :: 0 <= j < r.value ==> !p(nodes[j])
    ensures r.None? ==> forall j :: 0 <= j < |nodes| ==> !p(nodes[j])
  {
    if nodes == [] then None
    else if p(nodes[0]) then Some(0)
    else match FirstWhere(nodes[1..], p)
      case None => None
      case Some(k) => Some(k + 1)
  }

  /** `fetchNodeValue(parent, name)`: the inner text of that child, or "" without one. */
  function ChildText(n: Node, name: string): string
  {
    match Child(n, name)
    case Some(c) => InnerText(c)
    case None => ""
  }

  /** `fetchNodeValueInnerXML(parent, name)`: the serialised content of that child, or "" without one. */
  function ChildInnerXML(n: Node, name: string): string
  {
    match Child(n, name)
    case Some(c) => c.innerXML
    case None => ""
  }

  /** Matches in a sequence of trees are the matches of each tree in turn. */
  lemma {:induction false} ElementsNamedConcat(a: seq<Node>, b: seq<Node>, name: string)
    ensures ElementsNamed(a + b, name) == ElementsNamed(a, name) + ElementsNamed(b, name)
    decreases a
  {
    if a == [] {
      assert a + b == b;
    } else {
      assert (a + b)[0] == a[0];
      assert (a + b)[1..] == a[1..] + b;
      ElementsNamedConcat(a[1..], b, name);
    }
  }
}
