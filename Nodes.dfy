/** Scene-graph nodes (src/nodes/Node.ts).

    A node carries a version counter, a disposed flag and two cached transforms,
    each valid while its stamp equals the version. Matrix4 and its `compose` and
    `invert` are not part of this model: a transform is a term of a free algebra
    (`Compose(position, rotation, scale)`, `Inverse(t)`), held in a mutable
    `Matrix4` object so that which object a getter returns is observable.

    The tree links are modelled separately as an arena of indices (`Arena`),
    over which the three visitors are functions returning the order in which
    they call their callback. */
module Nodes {
  import opened Wrappers
  import opened WebGL

  /** A 4x4 transform as the term that built it: compose of a position, rotation and scale, or
      invert of another transform. Distinct terms may denote the same matrix (a default node's
      transform is the identity, its own inverse); nothing here is concluded from two terms
      being different. */
  datatype Transform = Identity | Compose(position: Vector3, rotation: Euler3, scale: Vector3) | Inverse(of: Transform)

  /** A mutable Matrix4 object. */
  class Matrix4 {
    var value: Transform

    constructor ()
      ensures value == Identity
    {
      value := Identity;
    }
  }

  class Node {
    var disposed: bool
    const uuid: string
    var version: nat
    var name: string
    var position: Vector3
    var rotation: Euler3
    var scale: Vector3

    // The stamps start at -1 so that the first read of either getter computes.
    var parentToLocalVersion: int
    const parentToLocal: Matrix4
    var localToParentVersion: int
    const localToParent: Matrix4

    /** How many times `compose` has run on this node (ghost bookkeeping). */
    ghost var compositions: nat

    /** The transform the node's position, rotation and scale define. */
    ghost function Local(): Transform
      reads this
    {
      Compose(position, rotation, scale)
    }

    /** The stamps never run ahead of the version. */
    ghost predicate Stamped()
      reads this
    {
      parentToLocalVersion <= version && localToParentVersion <= version
    }

    /** A stamp equal to the version means its cache holds the current transform. The stamp of
        `localToParentTransform` is `parentToLocalVersion` and vice versa, as in the source; the
        inverse is only ever refreshed right after the forward transform. */
    ghost predicate Valid()
      reads this, parentToLocal, localToParent
    {
      && Stamped()
      && parentToLocal != localToParent
      && (localToParentVersion == version ==> parentToLocalVersion == version)
      && (parentToLocalVersion == version ==> localToParent.value == Local())
      && (localToParentVersion == version ==> parentToLocal.value == Inverse(Local()))
    }

    /** `new Node()`: `uuid` stands for the value generateUUID returns. */
    constructor (uuid: string)
      ensures this.uuid == uuid && version == 0 && !disposed && name == ""
      ensures position == Vector3(0.0, 0.0, 0.0) && rotation == Euler3(0.0, 0.0, 0.0)
      ensures scale == Vector3(1.0, 1.0, 1.0)
      ensures parentToLocalVersion == -1 && localToParentVersion == -1
      ensures fresh(parentToLocal) && fresh(localToParent)
      ensures compositions == 0
      ensures Valid()
    {
      disposed := false;
      this.uuid := uuid;
      version := 0;
      name := "";
      position := Vector3(0.0, 0.0, 0.0);
      rotation := Euler3(0.0, 0.0, 0.0);
      scale := Vector3(1.0, 1.0, 1.0);
      parentToLocalVersion := -1;
      localToParentVersion := -1;
      parentToLocal := new Matrix4();
      localToParent := new Matrix4();
      compositions := 0;
    }

    /** `dirty()`: one more version; afterwards no cache is current, so callers may have changed
        position, rotation or scale since the last valid state. */
    method Dirty()
      requires Stamped() && parentToLocal != localToParent
      modifies this`version
      ensures version == old(version) + 1
      ensures Valid()
    {
      version := version + 1;
    }

    /** `dispose()`: the first call sets `disposed` and bumps the version; later calls change nothing. */
    method Dispose()
      requires Stamped() && parentToLocal != localToParent
      modifies this`version, this`disposed
      ensures disposed
      ensures version == if old(disposed) then old(version) else old(version) + 1
      ensures !old(disposed) ==> Valid()
      ensures old(Valid()) ==> Valid()
    {
      if !disposed {
        disposed := true;
        Dirty();
      }
    }

    /** `get localToParentTransform`: recomputes only when its stamp is behind the version and
        always returns the same Matrix4 object. */
    method LocalToParentTransform() returns (m: Matrix4)
      requires Valid()
      modifies this`parentToLocalVersion, this`compositions, localToParent
      ensures m == localToParent && m.value == Local()
      ensures parentToLocalVersion == version
      ensures compositions == old(compositions) + (if old(parentToLocalVersion) == version then 0 else 1)
      ensures Valid()
    {
      if parentToLocalVersion != version {
        localToParent.value := Compose(position, rotation, scale);
        compositions := compositions + 1;
        parentToLocalVersion := version;
      }
      m := localToParent;
    }

    /** `get parentToLocalTransform` as written: it refreshes the inverse cache but returns the
        `localToParent` object, so its value is the forward transform. */
    method ParentToLocalTransform() returns (m: Matrix4)
      requires Valid()
      modifies this`parentToLocalVersion, this`localToParentVersion, this`compositions
      modifies localToParent, parentToLocal
      ensures m == localToParent && m.value == Local()
      ensures localToParentVersion == version && parentToLocal.value == Inverse(Local())
      ensures compositions <= old(compositions) + 1
      ensures old(localToParentVersion) == version ==> compositions == old(compositions)
      ensures Valid()
    {
      if localToParentVersion != version {
        var l := LocalToParentTransform();
        parentToLocal.value := Inverse(l.value);
        localToParentVersion := version;
      }
      m := localToParent;
    }

    /** `get parentToLocalTransform` as evidently intended: it returns the inverse cache. */
    method ParentToLocalTransformCorrected() returns (m: Matrix4)
      requires Valid()
      modifies this`parentToLocalVersion, this`localToParentVersion, this`compositions
      modifies localToParent, parentToLocal
      ensures m == parentToLocal && m.value == Inverse(Local())
      ensures localToParentVersion == version
      ensures compositions <= old(compositions) + 1
      ensures old(localToParentVersion) == version ==> compositions == old(compositions)
      ensures Valid()
    {
      if localToParentVersion != version {
        var l := LocalToParentTransform();
        parentToLocal.value := Inverse(l.value);
        localToParentVersion := version;
      }
      m := parentToLocal;
    }
  }

  /** The finding: the as-written parentToLocalTransform hands out the forward cache object, not
      the inverse cache it has just refreshed. A caller that writes into the matrix it received
      (as `copy` or `set` do) overwrites the forward transform while its stamp still says it is
      current, so later reads of localToParentTransform return the written value uncomposed. */
  method ParentToLocalAsWrittenAliasesForward(n: Node, written: Transform) returns (m: Matrix4)
    requires n.Valid()
    modifies n`parentToLocalVersion, n`localToParentVersion, n`compositions
    modifies n.localToParent, n.parentToLocal
    ensures m == n.localToParent && m != n.parentToLocal
    ensures n.parentToLocal.value == Inverse(n.Local())
    ensures n.localToParent.value == written && n.parentToLocalVersion == n.version
    ensures written != n.Local() ==> !n.Valid()
  {
    m := n.ParentToLocalTransform();
    m.value := written;
  }

  /** Two reads of localToParentTransform with no dirty() between them compose at most once
      and return the same matrix object holding the same value. */
  method TwoReadsComposeOnce(n: Node) returns (first: Matrix4, second: Matrix4)
    requires n.Valid()
    modifies n`parentToLocalVersion, n`compositions, n.localToParent
    ensures first == second && first.value == n.Local()
    ensures n.compositions <= old(n.compositions) + 1
    ensures n.Valid()
  {
    first := n.LocalToParentTransform();
    ghost var v := first.value;
    second := n.LocalToParentTransform();
    assert second.value == v;
  }

  /** A new node's first read always composes. */
  method FirstReadComposes(uuid: string) returns (n: Node, m: Matrix4)
    ensures fresh(n) && n.compositions == 1 && m.value == n.Local()
  {
    n := new Node(uuid);
    m := n.LocalToParentTransform();
  }

  // ----- the tree as an arena of indices, and the visitors -----

  /** The links of one node: its parent (none for a root) and its ordered children. */
  datatype Links = Links(parent: Option<nat>, children: seq<nat>)

  /** Node i of the tree is slot i. Any forest can be stored with every parent before its children. */
  type Arena = seq<Links>

  /** Parent and children links agree, parents come first, and no child is listed twice. */
  predicate WellFormed(a: Arena) {
    && (forall j :: 0 <= j < |a| && a[j].parent.Some? ==>
          a[j].parent.value < j && j in a[a[j].parent.value].children)
    && (forall i, k :: 0 <= i < |a| && 0 <= k < |a[i].children| ==>
          i < a[i].children[k] < |a| && a[a[i].children[k]].parent == Some(i))
    && (forall i, k, m :: 0 <= i < |a| && 0 <= k < m < |a[i].children| ==>
          a[i].children[k] != a[i].children[m])
  }

  predicate NoDuplicates(s: seq<nat>) {
    forall p, q :: 0 <= p < q < |s| ==> s[p] != s[q]
  }

  function Reverse(s: seq<nat>): (r: seq<nat>)
    ensures |r| == |s|
    ensures forall k :: 0 <= k < |s| ==> r[k] == s[|s| - 1 - k]
  {
    if s == [] then [] else Reverse(s[1..]) + [s[0]]
  }

  /** `rootLastVisitor`: the node, then each ancestor up to the root. */
  function RootLastVisitor(a: Arena, i: nat): (r: seq<nat>)
    requires WellFormed(a) && i < |a|
    ensures |r| >= 1 && r[0] == i
    ensures forall k :: 0 <= k < |r| ==> r[k] <= i
    ensures forall k :: 0 <= k < |r| - 1 ==> a[r[k]].parent == Some(r[k + 1])
    ensures a[r[|r| - 1]].parent == None
    decreases i
  {
    match a[i].parent
    case None => [i]
    case Some(p) => [i] + RootLastVisitor(a, p)
  }

  /** `rootFirstVisitor`: the root, then each descendant down to the node. */
  function RootFirstVisitor(a: Arena, i: nat): seq<nat>
    requires WellFormed(a) && i < |a|
    decreases i
  {
    match a[i].parent
    case None => [i]
    case Some(p) => RootFirstVisitor(a, p) + [i]
  }

  /** The two upward visitors visit the same nodes in exactly opposite orders. */
  lemma {:induction false} RootFirstIsReversedRootLast(a: Arena, i: nat)
    requires WellFormed(a) && i < |a|
    ensures RootFirstVisitor(a, i) == Reverse(RootLastVisitor(a, i))
    decreases i
  {
    match a[i].parent
    case None =>
    case Some(p) =>
      RootFirstIsReversedRootLast(a, p);
      var up := RootLastVisitor(a, p);
      assert RootLastVisitor(a, i) == [i] + up;
      assert RootFirstVisitor(a, i) == Reverse(up) + [i];
      assert Reverse([i] + up) == Reverse(up) + [i] by { assert ([i] + up)[1..] == up; }
  }

  /** `depthFirstVisitor`: every child subtree, in children order, then the node itself. */
  function DepthFirstVisitor(a: Arena, i: nat): seq<nat>
    requires WellFormed(a) && i < |a|
    decreases |a| - i, 1, 0
  {
    VisitChildren(a, i, 0) + [i]
  }

  /** The depth-first visits of the children of i from the k-th on. */
  function VisitChildren(a: Arena, i: nat, k: nat): seq<nat>
    requires WellFormed(a) && i < |a| && k <= |a[i].children|
    decreases |a| - i, 0, |a[i].children| - k
  {
    if k == |a[i].children| then []
    else DepthFirstVisitor(a, a[i].children[k]) + VisitChildren(a, i, k + 1)
  }

  /** i is j or one of j's ancestors. */
  predicate InSubtree(a: Arena, i: nat, j: nat)
    requires WellFormed(a) && j < |a|
  {
    i in RootLastVisitor(a, j)
  }

  /** The chain above an element of j's chain is part of j's chain. */
  lemma {:induction false} ChainSuffix(a: Arena, x: nat, j: nat)
    requires WellFormed(a) && j < |a| && x in RootLastVisitor(a, j)
    ensures x < |a| && forall y :: y in RootLastVisitor(a, x) ==> y in RootLastVisitor(a, j)
    decreases j
  {
    if x != j {
      var p := a[j].parent.value;
      ChainSuffix(a, x, p);
    }
  }

  /** Any two nodes of one chain are ancestor and descendant. */
  lemma {:induction false} ChainTotal(a: Arena, x: nat, y: nat, j: nat)
    requires WellFormed(a) && j < |a| && x in RootLastVisitor(a, j) && y in RootLastVisitor(a, j)
    ensures x < |a| && y < |a|
    ensures x in RootLastVisitor(a, y) || y in RootLastVisitor(a, x)
    decreases j
  {
    ChainSuffix(a, x, j);
    ChainSuffix(a, y, j);
    if x != j && y != j {
      ChainTotal(a, x, y, a[j].parent.value);
    }
  }

  /** A proper ancestor i of j has a child on j's chain. */
  lemma {:induction false} ChildOnChain(a: Arena, i: nat, j: nat) returns (k: nat)
    requires WellFormed(a) && j < |a| && i in RootLastVisitor(a, j) && i != j
    ensures k < |a[i].children| && a[i].children[k] in RootLastVisitor(a, j)
    decreases j
  {
    ChainSuffix(a, i, j);
    var p := a[j].parent.value;
    if p == i {
      var ks :| 0 <= ks < |a[i].children| && a[i].children[ks] == j;
      k := ks;
    } else {
      k := ChildOnChain(a, i, p);
    }
  }

  /** What the children visit contains: exactly the depth-first visits of the children from k on. */
  lemma {:induction false} VisitChildrenMember(a: Arena, i: nat, k: nat, e: nat) returns (m: nat)
    requires WellFormed(a) && i < |a| && k <= |a[i].children| && e in VisitChildren(a, i, k)
    ensures k <= m < |a[i].children| && e in DepthFirstVisitor(a, a[i].children[m])
    decreases |a[i].children| - k
  {
    if e in DepthFirstVisitor(a, a[i].children[k]) {
      m := k;
    } else {
      m := VisitChildrenMember(a, i, k + 1, e);
    }
  }

  lemma {:induction false} VisitChildrenContains(a: Arena, i: nat, k: nat, m: nat, e: nat)
    requires WellFormed(a) && i < |a| && k <= m < |a[i].children|
    requires e in DepthFirstVisitor(a, a[i].children[m])
    ensures e in VisitChildren(a, i, k)
    decreases m - k
  {
    if k < m {
      VisitChildrenContains(a, i, k + 1, m, e);
    }
  }

  /** Everything the depth-first visit of i reaches is a node of i's subtree. */
  lemma {:induction false} DepthFirstSound(a: Arena, i: nat, e: nat)
    requires WellFormed(a) && i < |a| && e in DepthFirstVisitor(a, i)
    ensures i <= e < |a| && InSubtree(a, i, e)
    decreases |a| - i
  {
    if e != i {
      assert e in VisitChildren(a, i, 0);
      var m := VisitChildrenMember(a, i, 0, e);
      var c := a[i].children[m];
      DepthFirstSound(a, c, e);
      assert i in RootLastVisitor(a, c);
      ChainSuffix(a, c, e);
    }
  }

  /** Every node of i's subtree is reached by the depth-first visit of i. */
  lemma {:induction false} DepthFirstComplete(a: Arena, i: nat, j: nat)
    requires WellFormed(a) && i < |a| && j < |a| && InSubtree(a, i, j)
    ensures j in DepthFirstVisitor(a, i)
    decreases |a| - i
  {
    if j != i {
      var k := ChildOnChain(a, i, j);
      var c := a[i].children[k];
      DepthFirstComplete(a, c, j);
      VisitChildrenContains(a, i, 0, k, j);
    }
  }

  lemma NoDuplicatesAppend(x: seq<nat>, y: seq<nat>)
    requires NoDuplicates(x) && NoDuplicates(y)
    requires forall e :: e in x ==> e !in y
    ensures NoDuplicates(x + y)
  {
    forall p, q | 0 <= p < q < |x + y|
      ensures (x + y)[p] != (x + y)[q]
    {
      if q < |x| {
        assert (x + y)[p] == x[p] && (x + y)[q] == x[q];
      } else if p < |x| {
        assert (x + y)[p] == x[p] && (x + y)[q] == y[q - |x|];
        assert x[p] in x;
      } else {
        assert (x + y)[p] == y[p - |x|] && (x + y)[q] == y[q - |x|];
      }
    }
  }

  /** The depth-first visit of i visits no node twice. */
  lemma {:induction false} DepthFirstDistinct(a: Arena, i: nat)
    requires WellFormed(a) && i < |a|
    ensures NoDuplicates(DepthFirstVisitor(a, i))
    decreases |a| - i, 1, 0
  {
    VisitChildrenDistinct(a, i, 0);
    forall e | e in VisitChildren(a, i, 0)
      ensures e != i
    {
      var m := VisitChildrenMember(a, i, 0, e);
      DepthFirstSound(a, a[i].children[m], e);
    }
    NoDuplicatesAppend(VisitChildren(a, i, 0), [i]);
  }

  lemma {:induction false} VisitChildrenDistinct(a: Arena, i: nat, k: nat)
    requires WellFormed(a) && i < |a| && k <= |a[i].children|
    ensures NoDuplicates(VisitChildren(a, i, k))
    decreases |a| - i, 0, |a[i].children| - k
  {
    if k < |a[i].children| {
      var c := a[i].children[k];
      DepthFirstDistinct(a, c);
      VisitChildrenDistinct(a, i, k + 1);
      forall e | e in DepthFirstVisitor(a, c)
        ensures e !in VisitChildren(a, i, k + 1)
      {
        LaterChildrenDisjoint(a, i, k, e);
      }
      NoDuplicatesAppend(DepthFirstVisitor(a, c), VisitChildren(a, i, k + 1));
    }
  }

  /** Two different children of one parent have no node below both of them. */
  lemma SiblingSubtreesDisjoint(a: Arena, c: nat, c': nat, e: nat)
    requires WellFormed(a) && c < |a| && c' < |a| && e < |a| && c != c'
    requires a[c].parent.Some? && a[c].parent == a[c'].parent
    ensures !(InSubtree(a, c, e) && InSubtree(a, c', e))
  {
    if InSubtree(a, c, e) && InSubtree(a, c', e) {
      ChainTotal(a, c, c', e);
      assert false;
    }
  }

  /** A node under child k is under none of the later children. */
  lemma LaterChildrenDisjoint(a: Arena, i: nat, k: nat, e: nat)
    requires WellFormed(a) && i < |a| && k < |a[i].children|
    requires e in DepthFirstVisitor(a, a[i].children[k])
    ensures e !in VisitChildren(a, i, k + 1)
  {
    if e in VisitChildren(a, i, k + 1) {
      var m := VisitChildrenMember(a, i, k + 1, e);
      var c, c' := a[i].children[k], a[i].children[m];
      DepthFirstSound(a, c, e);
      DepthFirstSound(a, c', e);
      SiblingSubtreesDisjoint(a, c, c', e);
      assert false;
    }
  }

  /** `depthFirstVisitor` calls back each node of the subtree exactly once, the node itself last. */
  lemma DepthFirstVisitsSubtreeOnce(a: Arena, i: nat)
    requires WellFormed(a) && i < |a|
    ensures var r := DepthFirstVisitor(a, i);
      && NoDuplicates(r)
      && r[|r| - 1] == i
      && (forall j :: 0 <= j < |a| ==> (j in r <==> InSubtree(a, i, j)))
      && (forall e :: e in r ==> e < |a|)
  {
    DepthFirstDistinct(a, i);
    forall j | 0 <= j < |a|
      ensures j in DepthFirstVisitor(a, i) <==> InSubtree(a, i, j)
    {
      if j in DepthFirstVisitor(a, i) { DepthFirstSound(a, i, j); }
      if InSubtree(a, i, j) { DepthFirstComplete(a, i, j); }
    }
    forall e | e in DepthFirstVisitor(a, i)
      ensures e < |a|
    {
      DepthFirstSound(a, i, e);
    }
  }
}
