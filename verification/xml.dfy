/** An already-parsed XML document as an immutable tree.

    A document is represented by a node whose children are the document's
    top-level nodes; the navigation primitives never read that node's own tag.
 */
module Xml {
  import opened Wrappers

  datatype Node = Element(tag: string, children: seq<Node>) | Text(text: string)

  /** The child nodes in document order; a text node has none. */
  function Children(n: Node): seq<Node> {
    if n.Element? then n.children else []
  }

  /** An element node whose tag name is exactly `name`. */
  predicate IsNamed(n: Node, name: string) {
    n.Element? && n.tag == name
  }

  /** The DOM `nodeValue`: the character data of a text node, `None` for an element. */
  function NodeValue(n: Node): Option<string> {
    if n.Text? then Some(n.text) else None
  }

  /** Number of nodes in a tree, used to show that descendants are strictly inside it. */
  function Size(n: Node): nat
    decreases n
  {
    match n
    case Text(_) => 1
    case Element(_, children) => 1 + SizeAmong(children)
  }

  function SizeAmong(nodes: seq<Node>): nat
    decreases nodes
  {
    if |nodes| == 0 then 0 else Size(nodes[0]) + SizeAmong(nodes[1..])
  }
}
