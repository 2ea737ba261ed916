/** The tag-navigation primitives every extractor is built from: a unique
    direct child (required or optional), the text of such a child, and all
    descendants carrying a tag.
 */
module Navigation {
  import opened Wrappers
  import opened Xml

  /** The nodes among `nodes` that are elements tagged exactly `name`, in order:
      the list the lookup collects before it checks how many it found. */
  function Matches(nodes: seq<Node>, name: string): (r: seq<Node>)
    ensures |r| <= |nodes|
  {
    if |nodes| == 0 then []
    else (if IsNamed(nodes[0], name) then [nodes[0]] else []) + Matches(nodes[1..], name)
  }

  /** The matches are exactly the members of `nodes` tagged `name`. */
  lemma {:induction false} MatchesMembers(nodes: seq<Node>, name: string)
    ensures forall n | n in Matches(nodes, name) :: n in nodes && IsNamed(n, name)
    ensures forall n | n in nodes && IsNamed(n, name) :: n in Matches(nodes, name)
  {
    if |nodes| > 0 {
      MatchesMembers(nodes[1..], name);
      assert forall n | n in nodes :: n == nodes[0] || n in nodes[1..];
    }
  }

  /** How many direct children of `p` are elements tagged `name`. */
  function ChildCount(p: Node, name: string): nat {
    |Matches(Children(p), name)|
  }

  /** The one direct child of `p` tagged `name`, when there is exactly one. */
  ghost function TheChild(p: Node, name: string): (e: Node)
    requires ChildCount(p, name) == 1
  {
    Matches(Children(p), name)[0]
  }

  /** The unique child is a child with that tag, and the only one. */
  lemma TheChildIsUnique(p: Node, name: string)
    requires ChildCount(p, name) == 1
    ensures TheChild(p, name) in Children(p) && IsNamed(TheChild(p, name), name)
    ensures forall c | c in Children(p) && IsNamed(c, name) :: c == TheChild(p, name)
  {
    MatchesMembers(Children(p), name);
  }

  /** One step down a path of unique children; `None` once a step is absent or ambiguous. */
  ghost function Under(o: Option<Node>, name: string): Option<Node> {
    if o.Some? && ChildCount(o.value, name) == 1 then Some(TheChild(o.value, name)) else None
  }

  /** An element has readable text when it has a first child node. */
  ghost predicate HasText(e: Node) {
    |Children(e)| > 0
  }

  /** The value of an element's first child node. */
  ghost function TextOf(e: Node): Option<string>
    requires HasText(e)
  {
    NodeValue(Children(e)[0])
  }

  /** `p`'s child `tag` is there exactly once and has a first child node. */
  ghost predicate Readable(p: Node, tag: string) {
    ChildCount(p, tag) == 1 && HasText(TheChild(p, tag))
  }

  /** An optional child: absent, or present once with a first child node. */
  ghost predicate OptionallyReadable(p: Node, tag: string) {
    ChildCount(p, tag) == 0 || Readable(p, tag)
  }

  /** The value an optional read gives: the text, or "" when the child is absent. */
  ghost function OptionalText(p: Node, tag: string): Option<string>
    requires OptionallyReadable(p, tag)
  {
    if ChildCount(p, tag) == 0 then Some("") else TextOf(TheChild(p, tag))
  }

  /** The text of a required child. */
  ghost function RequiredText(p: Node, tag: string): Option<string>
    requires Readable(p, tag)
  {
    TextOf(TheChild(p, tag))
  }

  /** A text read of `p`'s child `name` succeeds: the child is readable, or absent
      and the read optional. */
  ghost predicate ReadOk(p: Node, name: string, optional: bool) {
    if optional then OptionallyReadable(p, name) else Readable(p, name)
  }

  /** What such a read gives: the first child's value of the unique such child, or
      "" when it is absent. */
  ghost function ReadText(p: Node, name: string, optional: bool): Option<string>
    requires ReadOk(p, name, optional)
  {
    if ChildCount(p, name) == 0 then Some("") else TextOf(TheChild(p, name))
  }

  /** `v` is what reading the text of `p`'s child `name` gives. */
  ghost predicate TextRead(v: Option<string>, p: Node, name: string, optional: bool) {
    ReadOk(p, name, optional) && v == ReadText(p, name, optional)
  }

  /** The unique direct child element of `parent` tagged `name`. With no such child
      the lookup is absent when optional and fails otherwise; with several it fails
      whether or not it is optional. */
  function ExtractSingleTag(parent: Node, name: string, optional: bool): (r: Result<Option<Node>>)
    ensures r.Success? <==> ChildCount(parent, name) == 1 || (optional && ChildCount(parent, name) == 0)
    ensures r.Success? && r.value.None? <==> optional && ChildCount(parent, name) == 0
    ensures r.Success? && r.value.Some? ==> ChildCount(parent, name) == 1 && r.value.value == TheChild(parent, name)
    ensures r.Failure? ==> r.error == (if ChildCount(parent, name) == 0 then Missing(name) else Duplicate(name))
  {
    var found := Matches(Children(parent), name);
    if |found| == 0 && optional then Success(None)
    else if |found| != 1 then Failure(if |found| == 0 then Missing(name) else Duplicate(name))
    else Success(Some(found[0]))
  }

  /** A required unique child: the lookup above with `optional` false. */
  function SingleChild(parent: Node, name: string): (r: Result<Node>)
    ensures r.Success? <==> ChildCount(parent, name) == 1
    ensures r.Success? ==> r.value == TheChild(parent, name)
    ensures r.Failure? ==> r.error == (if ChildCount(parent, name) == 0 then Missing(name) else Duplicate(name))
  {
    var e :- ExtractSingleTag(parent, name, false);
    Success(e.value)
  }

  /** The text of `parent`'s unique child `name`: the value of its first child node
      (`None` when that node is an element), "" when the child is absent and
      optional. Fails as the lookup does, and when the child has no child node. */
  function ExtractSingleTagValue(parent: Node, name: string, optional: bool): (r: Result<Option<string>>)
    ensures r.Success? <==> ReadOk(parent, name, optional)
    ensures r.Success? ==> r.value == ReadText(parent, name, optional)
    ensures r.Failure? ==> r.error == (if ChildCount(parent, name) == 0 then Missing(name)
                                       else if ChildCount(parent, name) == 1 then NoText(name)
                                       else Duplicate(name))
  {
    var e :- ExtractSingleTag(parent, name, optional);
    if e.None? then Success(Some(""))
    else if |Children(e.value)| == 0 then Failure(NoText(name))
    else Success(NodeValue(Children(e.value)[0]))
  }

  /** The node reached from `o` by taking the unique child of each name of `path`
      in turn; absent once some step has no unique child. */
  ghost function Walk(o: Option<Node>, path: seq<string>): Option<Node>
    decreases |path|
  {
    if |path| == 0 then o else Walk(Under(o, path[0]), path[1..])
  }

  /** Follows `path` down from `p`, each step a required unique child; the first
      step without one fails. */
  function Descend(p: Node, path: seq<string>): (r: Result<Node>)
    decreases |path|
    ensures r.Success? <==> Walk(Some(p), path).Some?
    ensures r.Success? ==> r.value == Walk(Some(p), path).value
  {
    if |path| == 0 then Success(p)
    else
      WalkNowhere(path[1..]);
      var child :- SingleChild(p, path[0]);
      Descend(child, path[1..])
  }

  /** Nothing is reached from nowhere. */
  lemma {:induction false} WalkNowhere(path: seq<string>)
    decreases |path|
    ensures Walk(None, path) == None
  {
    if |path| > 0 {
      WalkNowhere(path[1..]);
    }
  }

  /** `Matches` distributes over concatenation: siblings keep their order. */
  lemma {:induction false} MatchesAppend(a: seq<Node>, b: seq<Node>, name: string)
    ensures Matches(a + b, name) == Matches(a, name) + Matches(b, name)
  {
    if |a| == 0 {
      assert a + b == b;
    } else {
      var head := if IsNamed(a[0], name) then [a[0]] else [];
      assert (a + b)[0] == a[0];
      assert (a + b)[1..] == a[1..] + b;
      MatchesAppend(a[1..], b, name);
      assert Matches(a + b, name) == head + (Matches(a[1..], name) + Matches(b, name));
      assert Matches(a, name) == head + Matches(a[1..], name);
    }
  }

  /** No child is named exactly when the count is zero. */
  lemma NoneNamed(p: Node, name: string)
    ensures ChildCount(p, name) == 0 <==> forall i | 0 <= i < |Children(p)| :: !IsNamed(Children(p)[i], name)
  {
    var m := Matches(Children(p), name);
    MatchesMembers(Children(p), name);
    if |m| > 0 {
      assert m[0] in m;
    }
  }

  /** Two positions carrying the tag give at least two matches. */
  lemma {:induction false} TwoNamedGiveSeveral(nodes: seq<Node>, name: string, i: nat, j: nat)
    requires i < j < |nodes| && IsNamed(nodes[i], name) && IsNamed(nodes[j], name)
    ensures |Matches(nodes, name)| >= 2
  {
    var tail := nodes[1..];
    if i == 0 {
      MatchesMembers(tail, name);
      assert nodes[j] in tail;
      assert |Matches(tail, name)| >= 1;
    } else {
      assert IsNamed(tail[i - 1], name) && IsNamed(tail[j - 1], name);
      TwoNamedGiveSeveral(tail, name, i - 1, j - 1);
    }
  }

  /** At least two matches come from two distinct positions carrying the tag. */
  lemma {:induction false} SeveralNamedHaveTwo(nodes: seq<Node>, name: string) returns (i: nat, j: nat)
    requires |Matches(nodes, name)| >= 2
    ensures i < j < |nodes| && IsNamed(nodes[i], name) && IsNamed(nodes[j], name)
  {
    var tail := nodes[1..];
    if IsNamed(nodes[0], name) {
      var m := Matches(tail, name);
      MatchesMembers(tail, name);
      assert m[0] in tail;
      var k :| 0 <= k < |tail| && tail[k] == m[0];
      i, j := 0, k + 1;
    } else {
      var i', j' := SeveralNamedHaveTwo(tail, name);
      i, j := i' + 1, j' + 1;
    }
  }

  /** More than one match exactly when two distinct positions carry the tag. */
  lemma SeveralNamed(p: Node, name: string)
    ensures ChildCount(p, name) >= 2 <==>
              exists i, j | 0 <= i < j < |Children(p)| :: IsNamed(Children(p)[i], name) && IsNamed(Children(p)[j], name)
  {
    var nodes := Children(p);
    if ChildCount(p, name) >= 2 {
      var i, j := SeveralNamedHaveTwo(nodes, name);
    }
    if exists i, j | 0 <= i < j < |nodes| :: IsNamed(nodes[i], name) && IsNamed(nodes[j], name) {
      var i, j :| 0 <= i < j < |nodes| && IsNamed(nodes[i], name) && IsNamed(nodes[j], name);
      TwoNamedGiveSeveral(nodes, name, i, j);
    }
  }

  /** The lookup sees only direct element children tagged exactly `name`: removing
      any other child (a text node, an element with another tag, together with
      everything below it) leaves the outcome unchanged. */
  lemma ExtractSingleTagIgnoresOthers(tag: string, before: seq<Node>, other: Node, after: seq<Node>,
                                      name: string, optional: bool)
    requires !IsNamed(other, name)
    ensures ExtractSingleTag(Element(tag, before + [other] + after), name, optional)
         == ExtractSingleTag(Element(tag, before + after), name, optional)
  {
    MatchesAppend(before + [other], after, name);
    MatchesAppend(before, [other], name);
    MatchesAppend(before, after, name);
    assert Matches([other], name) == [] by {
      assert [other][1..] == [];
    }
  }

  /** A descendant element found by tag, together with the node it hangs from. */
  datatype Located = Located(parent: Node, node: Node)

  /** Every descendant element of `root` (never `root` itself) tagged `name`, in
      document order, each paired with its parent node. */
  function ExtractTagInstances(root: Node, name: string): (r: seq<Located>)
    decreases root
    ensures root.Text? ==> r == []
    ensures forall i | 0 <= i < |r| :: IsNamed(r[i].node, name)
    ensures |r| < Size(root)
  {
    match root
    case Text(_) => []
    case Element(_, children) => InstancesAmong(root, children, name)
  }

  function InstancesAmong(parent: Node, nodes: seq<Node>, name: string): (r: seq<Located>)
    decreases nodes
    ensures forall i | 0 <= i < |r| :: IsNamed(r[i].node, name)
    ensures |r| <= SizeAmong(nodes)
  {
    if |nodes| == 0 then []
    else
      var first := nodes[0];
      (if IsNamed(first, name) then [Located(parent, first)] else [])
      + ExtractTagInstances(first, name)
      + InstancesAmong(parent, nodes[1..], name)
  }

  /** Every instance found is an element carrying the tag, a child of the node
      recorded as its parent, and strictly smaller than `root`. */
  lemma {:induction false} InstancesLocated(root: Node, name: string)
    decreases root
    ensures forall l | l in ExtractTagInstances(root, name) ::
              IsNamed(l.node, name) && l.node in Children(l.parent) && Size(l.node) < Size(root)
  {
    match root
    case Text(_) =>
    case Element(_, children) =>
      InstancesAmongLocated(root, children, name);
      assert ExtractTagInstances(root, name) == InstancesAmong(root, children, name);
  }

  lemma {:induction false} InstancesAmongLocated(parent: Node, nodes: seq<Node>, name: string)
    requires forall n | n in nodes :: n in Children(parent)
    decreases nodes
    ensures forall l | l in InstancesAmong(parent, nodes, name) ::
              IsNamed(l.node, name) && l.node in Children(l.parent) && Size(l.node) <= SizeAmong(nodes)
  {
    if |nodes| > 0 {
      var first := nodes[0];
      var head := if IsNamed(first, name) then [Located(parent, first)] else [];
      var sub := ExtractTagInstances(first, name);
      var rest := InstancesAmong(parent, nodes[1..], name);
      InstancesLocated(first, name);
      InstancesAmongLocated(parent, nodes[1..], name);
      var r := InstancesAmong(parent, nodes, name);
      assert r == head + sub + rest;
      assert SizeAmong(nodes) == Size(first) + SizeAmong(nodes[1..]);
      forall l | l in r
        ensures IsNamed(l.node, name) && l.node in Children(l.parent) && Size(l.node) <= SizeAmong(nodes)
      {
        if l !in rest && l !in sub {
          assert l == Located(parent, first) && first in nodes;
        }
      }
    }
  }

  /** Every proper descendant of `root` with its parent, in document order: each
      node comes right before its own subtree, and after its earlier siblings'. */
  ghost function Preorder(root: Node): seq<Located>
    decreases root
  {
    match root
    case Text(_) => []
    case Element(_, children) => PreorderAmong(root, children)
  }

  ghost function PreorderAmong(parent: Node, nodes: seq<Node>): seq<Located>
    decreases nodes
  {
    if |nodes| == 0 then []
    else [Located(parent, nodes[0])] + Preorder(nodes[0]) + PreorderAmong(parent, nodes[1..])
  }

  /** The entries whose node is an element tagged `name`, order kept. */
  ghost function NamedOnly(ls: seq<Located>, name: string): seq<Located> {
    if |ls| == 0 then []
    else (if IsNamed(ls[0].node, name) then [ls[0]] else []) + NamedOnly(ls[1..], name)
  }

  lemma {:induction false} NamedOnlyAppend(a: seq<Located>, b: seq<Located>, name: string)
    ensures NamedOnly(a + b, name) == NamedOnly(a, name) + NamedOnly(b, name)
  {
    if |a| == 0 {
      assert a + b == b;
    } else {
      assert (a + b)[1..] == a[1..] + b;
      NamedOnlyAppend(a[1..], b, name);
    }
  }

  /** The descendant search is the document-order traversal filtered by tag. */
  lemma {:induction false} InstancesArePreorder(root: Node, name: string)
    decreases root
    ensures ExtractTagInstances(root, name) == NamedOnly(Preorder(root), name)
  {
    match root
    case Text(_) =>
    case Element(_, children) => InstancesAmongArePreorder(root, children, name);
  }

  lemma {:induction false} InstancesAmongArePreorder(parent: Node, nodes: seq<Node>, name: string)
    requires forall n | n in nodes :: n in Children(parent)
    decreases nodes
    ensures InstancesAmong(parent, nodes, name) == NamedOnly(PreorderAmong(parent, nodes), name)
  {
    if |nodes| > 0 {
      var head := [Located(parent, nodes[0])];
      var sub := Preorder(nodes[0]);
      var rest := PreorderAmong(parent, nodes[1..]);
      NamedOnlyAppend(head + sub, rest, name);
      NamedOnlyAppend(head, sub, name);
      assert NamedOnly(head, name) == (if IsNamed(nodes[0], name) then head else []) by {
        assert head[1..] == [];
      }
      InstancesArePreorder(nodes[0], name);
      InstancesAmongArePreorder(parent, nodes[1..], name);
    }
  }

  lemma {:induction false} InstancesAmongCover(parent: Node, nodes: seq<Node>, name: string, i: nat)
    requires forall n | n in nodes :: n in Children(parent)
    requires i < |nodes|
    decreases i
    ensures IsNamed(nodes[i], name) ==> Located(parent, nodes[i]) in InstancesAmong(parent, nodes, name)
    ensures forall l | l in ExtractTagInstances(nodes[i], name) :: l in InstancesAmong(parent, nodes, name)
  {
    if i > 0 {
      InstancesAmongCover(parent, nodes[1..], name, i - 1);
    }
  }

  /** Nothing below a child escapes the search: the child itself when it carries
      the tag, and everything the search finds under the child. */
  lemma InstancesCover(root: Node, c: Node, name: string)
    requires c in Children(root)
    ensures IsNamed(c, name) ==> Located(root, c) in ExtractTagInstances(root, name)
    ensures forall l | l in ExtractTagInstances(c, name) :: l in ExtractTagInstances(root, name)
  {
    var i :| 0 <= i < |root.children| && root.children[i] == c;
    InstancesAmongCover(root, root.children, name, i);
  }
}
