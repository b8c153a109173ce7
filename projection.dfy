/** Navigating the expand/select projection tree: getCurrentExpandedProjectionNode,
    shouldExpandSegment and getProjectionNodes. */
module Projection {
  import opened Wrappers
  import opened Errors

  /** InternalOrderByInfo: the ordering a skip token is built from. */
  datatype OrderByInfo = OrderByInfo(orderByPaths: seq<string>)

  /** ExpandedProjectionNode: a navigation property the client expanded, with its own child nodes. */
  datatype ExpandedProjectionNode = ExpandedProjectionNode(
    propertyName: string,
    canSelectAllProperties: bool,
    childNodes: seq<ProjectionNode>,
    internalOrderByInfo: Option<OrderByInfo>)

  /** A child of an expanded node: a plain ProjectionNode (selected, not expanded) or an
      ExpandedProjectionNode. */
  datatype ProjectionNode = Plain(name: string) | Expanded(node: ExpandedProjectionNode) {
    function PropertyName(): string {
      match this
      case Plain(n) => n
      case Expanded(e) => e.propertyName
    }
  }

  function FindIn(children: seq<ProjectionNode>, name: string): (r: Option<ProjectionNode>)
    ensures r.Some? ==> r.value in children && r.value.PropertyName() == name
    ensures r.None? ==> forall c :: c in children ==> c.PropertyName() != name
  {
    if children == [] then None
    else if children[0].PropertyName() == name then Some(children[0])
    else FindIn(children[1..], name)
  }

  /** findNode: the child node for a property name, or null. */
  function FindNode(n: ExpandedProjectionNode, name: string): Option<ProjectionNode> {
    FindIn(n.childNodes, name)
  }

  /** Follow the path from `n`, each step to an expanded child; a missing child or a plain one fails
      the loop's assertions. */
  function Walk(n: ExpandedProjectionNode, path: seq<string>): Result<ExpandedProjectionNode, Error>
    decreases |path|
  {
    if path == [] then Ok(n)
    else match FindNode(n, path[0])
      case None => Err(AssertionFailed(ProjectionNodeFound))
      case Some(Plain(_)) => Err(AssertionFailed(ProjectionNodeExpanded))
      case Some(Expanded(child)) => Walk(child, path[1..])
  }

  /** The node describing the segment being serialised: the root for a depth of at most one, else the
      node reached from the root along the segment names after the first. */
  function CurrentExpandedProjectionNode(root: Option<ExpandedProjectionNode>, segmentNames: seq<string>)
    : Result<Option<ExpandedProjectionNode>, Error>
  {
    if root.None? then Ok(None)
    else if |segmentNames| == 0 then Ok(root)
    else match Walk(root.value, segmentNames[1..])
      case Err(e) => Err(e)
      case Ok(n) => Ok(Some(n))
  }

  /** getCurrentExpandedProjectionNode, with its for loop from index 1. */
  method GetCurrentExpandedProjectionNode(root: Option<ExpandedProjectionNode>, segmentNames: seq<string>)
    returns (r: Result<Option<ExpandedProjectionNode>, Error>)
    ensures r == CurrentExpandedProjectionNode(root, segmentNames)
  {
    if root.None? {
      return Ok(None);
    }
    var node := root.value;
    var depth := |segmentNames|;
    if depth != 0 {
      for i := 1 to depth
        invariant Walk(root.value, segmentNames[1..]) == Walk(node, segmentNames[i..])
      {
        assert segmentNames[i..][1..] == segmentNames[i + 1..];
        var found := FindNode(node, segmentNames[i]);
        if found.None? {
          return Err(AssertionFailed(ProjectionNodeFound));
        }
        if !found.value.Expanded? {
          return Err(AssertionFailed(ProjectionNodeExpanded));
        }
        node := found.value.node;
      }
    }
    return Ok(Some(node));
  }

  /** shouldExpandSegment: false without a projection tree; otherwise true exactly when the current
      node's child for the property is an expanded node (a plain projection node gives false). */
  function ShouldExpandSegment(root: Option<ExpandedProjectionNode>, segmentNames: seq<string>, name: string)
    : (r: Result<bool, Error>)
    ensures root.None? ==> r == Ok(false)
    ensures r.Err? <==> CurrentExpandedProjectionNode(root, segmentNames).Err?
    ensures r.Err? ==> r.error == CurrentExpandedProjectionNode(root, segmentNames).error
    ensures r == Ok(true) <==>
      CurrentExpandedProjectionNode(root, segmentNames).Ok? &&
      CurrentExpandedProjectionNode(root, segmentNames).value.Some? &&
      exists c :: FindNode(CurrentExpandedProjectionNode(root, segmentNames).value.value, name) == Some(Expanded(c))
  {
    match CurrentExpandedProjectionNode(root, segmentNames)
    case Err(e) => Err(e)
    case Ok(None) => Ok(false)
    case Ok(Some(n)) => Ok(FindNode(n, name).Some? && FindNode(n, name).value.Expanded?)
  }

  /** getProjectionNodes: null ("serialise everything") when there is no current node or it selects
      all properties; otherwise the current node's children. */
  function GetProjectionNodes(root: Option<ExpandedProjectionNode>, segmentNames: seq<string>)
    : (r: Result<Option<seq<ProjectionNode>>, Error>)
    ensures r.Err? <==> CurrentExpandedProjectionNode(root, segmentNames).Err?
    ensures r == Ok(None) <==>
      CurrentExpandedProjectionNode(root, segmentNames) == Ok(None) ||
      (CurrentExpandedProjectionNode(root, segmentNames).Ok? &&
       CurrentExpandedProjectionNode(root, segmentNames).value.Some? &&
       CurrentExpandedProjectionNode(root, segmentNames).value.value.canSelectAllProperties)
    ensures r.Ok? && r.value.Some? ==>
      CurrentExpandedProjectionNode(root, segmentNames).Ok? &&
      CurrentExpandedProjectionNode(root, segmentNames).value.Some? &&
      r.value.value == CurrentExpandedProjectionNode(root, segmentNames).value.value.childNodes
  {
    match CurrentExpandedProjectionNode(root, segmentNames)
    case Err(e) => Err(e)
    case Ok(None) => Ok(None)
    case Ok(Some(n)) => if n.canSelectAllProperties then Ok(None) else Ok(Some(n.childNodes))
  }

  /** `chain` is the sequence of expanded nodes met when following `path`. */
  ghost predicate IsPath(chain: seq<ExpandedProjectionNode>, path: seq<string>) {
    |chain| == |path| + 1 &&
    forall i :: 0 <= i < |path| ==> FindNode(chain[i], path[i]) == Some(Expanded(chain[i + 1]))
  }

  lemma {:induction false} PathIsWalked(chain: seq<ExpandedProjectionNode>, path: seq<string>)
    requires IsPath(chain, path)
    ensures Walk(chain[0], path) == Ok(chain[|path|])
    decreases |path|
  {
    if path != [] {
      assert FindNode(chain[0], path[0]) == Some(Expanded(chain[1]));
      assert IsPath(chain[1..], path[1..]) by {
        forall i | 0 <= i < |path[1..]|
          ensures FindNode(chain[1..][i], path[1..][i]) == Some(Expanded(chain[1..][i + 1]))
        {
          assert FindNode(chain[i + 1], path[i + 1]) == Some(Expanded(chain[i + 2]));
        }
      }
      PathIsWalked(chain[1..], path[1..]);
    }
  }

  lemma {:induction false} WalkIsPath(n: ExpandedProjectionNode, path: seq<string>)
    requires Walk(n, path).Ok?
    ensures exists chain :: IsPath(chain, path) && chain[0] == n && chain[|path|] == Walk(n, path).value
    decreases |path|
  {
    if path == [] {
      assert IsPath([n], path);
    } else {
      var child := FindNode(n, path[0]).value.node;
      WalkIsPath(child, path[1..]);
      var rest :| IsPath(rest, path[1..]) && rest[0] == child && rest[|path| - 1] == Walk(child, path[1..]).value;
      var chain := [n] + rest;
      assert IsPath(chain, path) by {
        forall i | 0 <= i < |path| ensures FindNode(chain[i], path[i]) == Some(Expanded(chain[i + 1])) {
          if i > 0 {
            assert FindNode(rest[i - 1], path[1..][i - 1]) == Some(Expanded(rest[i]));
          }
        }
      }
    }
  }

  /** The walk reaches `m` exactly when a chain of expanded children, one per path segment, leads from
      `n` to `m`. */
  lemma WalkIffPath(n: ExpandedProjectionNode, path: seq<string>, m: ExpandedProjectionNode)
    ensures Walk(n, path) == Ok(m) <==>
      exists chain :: IsPath(chain, path) && chain[0] == n && chain[|path|] == m
  {
    if Walk(n, path) == Ok(m) {
      WalkIsPath(n, path);
    }
    if exists chain :: IsPath(chain, path) && chain[0] == n && chain[|path|] == m {
      var chain :| IsPath(chain, path) && chain[0] == n && chain[|path|] == m;
      PathIsWalked(chain, path);
    }
  }

  /** Below the root, the current node is the one for the last segment's property. */
  lemma {:induction false} WalkEndsAtLastSegment(n: ExpandedProjectionNode, path: seq<string>)
    requires |path| > 0 && Walk(n, path).Ok?
    ensures Walk(n, path).value.propertyName == path[|path| - 1]
    decreases |path|
  {
    if |path| > 1 {
      WalkEndsAtLastSegment(FindNode(n, path[0]).value.node, path[1..]);
    }
  }

  predicate DistinctChildNames(n: ExpandedProjectionNode) {
    forall i, j :: 0 <= i < j < |n.childNodes| ==> n.childNodes[i].PropertyName() != n.childNodes[j].PropertyName()
  }

  lemma {:induction false} FindInDistinct(children: seq<ProjectionNode>, c: ProjectionNode)
    requires forall i, j :: 0 <= i < j < |children| ==> children[i].PropertyName() != children[j].PropertyName()
    requires c in children
    ensures FindIn(children, c.PropertyName()) == Some(c)
  {
    if children[0] != c {
      assert c in children[1..];
      FindInDistinct(children[1..], c);
    }
  }

  /** With child nodes keyed by property name (as the projection parser builds them), a property is
      expanded at the current node exactly when the node has an expanded child for it; a plain
      projection child for it means it is not expanded. */
  lemma ShouldExpandChild(root: Option<ExpandedProjectionNode>, segmentNames: seq<string>,
                          n: ExpandedProjectionNode, name: string)
    requires CurrentExpandedProjectionNode(root, segmentNames) == Ok(Some(n))
    requires DistinctChildNames(n)
    ensures ShouldExpandSegment(root, segmentNames, name) == Ok(true) <==>
      exists c :: Expanded(c) in n.childNodes && c.propertyName == name
    ensures Plain(name) in n.childNodes ==> ShouldExpandSegment(root, segmentNames, name) == Ok(false)
  {
    if exists c :: Expanded(c) in n.childNodes && c.propertyName == name {
      var c :| Expanded(c) in n.childNodes && c.propertyName == name;
      FindInDistinct(n.childNodes, Expanded(c));
    }
    if Plain(name) in n.childNodes {
      FindInDistinct(n.childNodes, Plain(name));
    }
  }
}
