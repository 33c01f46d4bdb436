/** The binary heap of libuv: nodes linked by pointers, a complete tree addressed by the bits
    of a position. */
module Heap {
  import opened Util

  /** What nodes are compared by; the timers of libuv fill it in. The order is arbitrary here. */
  datatype Key = Key(timeout: nat, startId: nat)

  class Node {
    var left: Node?
    var right: Node?
    var parent: Node?
    var key: Key

    constructor (key: Key)
      ensures this.key == key && left == null && right == null && parent == null
    {
      this.key := key;
      left, right, parent := null, null, null;
    }
  }

  ghost predicate StrictWeakOrder(lt: (Key, Key) -> bool) {
    && (forall a :: !lt(a, a))
    && (forall a, b, c :: lt(a, b) && lt(b, c) ==> lt(a, c))
    && (forall a, b, c :: !lt(a, b) && !lt(b, c) ==> !lt(a, c))
  }

  /** The node at position `i` of the level order, the root being at 0. */
  function At(ns: seq<Node>, i: nat): Node? {
    if i < |ns| then ns[i] else null
  }

  function Up(i: nat): int { (i - 1) / 2 }

  /** The pointers of the node at `i` are those of the complete tree. */
  ghost predicate Linked(ns: seq<Node>, i: nat)
    requires i < |ns|
    reads ns`left, ns`right, ns`parent
  {
    && ns[i].left == At(ns, 2 * i + 1) && ns[i].right == At(ns, 2 * i + 2)
    && ns[i].parent == (if i == 0 then null else ns[Up(i)])
  }

  ghost predicate Tree(ns: seq<Node>)
    reads ns`left, ns`right, ns`parent
  {
    Distinct(ns) && forall i: nat :: i < |ns| ==> Linked(ns, i)
  }

  ghost predicate SameMembers(ns: seq<Node>, repr: set<Node>) {
    (forall i :: 0 <= i < |ns| ==> ns[i] in repr) && (forall x :: x in repr ==> x in ns)
  }

  function Swapped<T>(s: seq<T>, i: nat, j: nat): (r: seq<T>)
    requires i < |s| && j < |s|
    ensures |r| == |s|
  {
    s[i := s[j]][j := s[i]]
  }

  lemma SwappedFacts<T>(s: seq<T>, i: nat, j: nat)
    requires i < j < |s| && Distinct(s)
    ensures Distinct(Swapped(s, i, j))
    ensures forall x :: x in s <==> x in Swapped(s, i, j)
  {
    var r := Swapped(s, i, j);
    forall x | x in s ensures x in r {
      var k :| 0 <= k < |s| && s[k] == x;
      assert r[if k == i then j else if k == j then i else k] == x;
    }
  }

  lemma Differ(ns: seq<Node>, i: nat, j: nat)
    requires Distinct(ns) && i < |ns| && i != j
    ensures ns[i] != At(ns, j)
  {
  }

  function SwapAt(ns: seq<Node>, p: nat, c: nat, k: nat): Node?
    requires p < |ns| && c < |ns|
  {
    if k == p then ns[c] else if k == c then ns[p] else At(ns, k)
  }

  /** The pointers of the node that comes to position `i` when `p` and `c` change places. */
  ghost predicate SwapLinked(ns: seq<Node>, p: nat, c: nat, i: nat)
    requires p < |ns| && c < |ns| && i < |ns|
    reads ns`left, ns`right, ns`parent
  {
    var x := if i == p then ns[c] else if i == c then ns[p] else ns[i];
    && x.left == SwapAt(ns, p, c, 2 * i + 1) && x.right == SwapAt(ns, p, c, 2 * i + 2)
    && x.parent == if i == 0 then null else SwapAt(ns, p, c, Up(i))
  }

  datatype Links = Links(left: Node?, right: Node?, parent: Node?)

  function ParentAt(ns: seq<Node>, i: nat): Node?
    requires i < |ns|
  {
    if i == 0 then null else ns[Up(i)]
  }

  /** The same, spelt out for the nodes around. */
  function Expected(ns: seq<Node>, p: nat, c: nat, i: nat): Links
    requires p < c < |ns| && i < |ns| && (c == 2 * p + 1 || c == 2 * p + 2)
  {
    var left, right := At(ns, 2 * i + 1), At(ns, 2 * i + 2);
    if i == p then
      var brother := At(ns, 4 * p + 3 - c);
      if c == 2 * p + 1 then Links(ns[p], brother, ParentAt(ns, p)) else Links(brother, ns[p], ParentAt(ns, p))
    else if i == c || i == 4 * p + 3 - c then Links(left, right, ns[c])
    else if i == 2 * c + 1 || i == 2 * c + 2 then Links(left, right, ns[p])
    else if p > 0 && i == Up(p) then
      if p == 2 * i + 1 then Links(ns[c], right, ParentAt(ns, i)) else Links(left, ns[c], ParentAt(ns, i))
    else Links(left, right, ParentAt(ns, i))
  }

  ghost predicate Rewired(ns: seq<Node>, p: nat, c: nat, i: nat)
    requires p < c < |ns| && i < |ns| && (c == 2 * p + 1 || c == 2 * p + 2)
    reads ns`left, ns`right, ns`parent
  {
    var x := if i == p then ns[c] else if i == c then ns[p] else ns[i];
    Links(x.left, x.right, x.parent) == Expected(ns, p, c, i)
  }

  lemma ExpectedIs(ns: seq<Node>, p: nat, c: nat, i: nat)
    requires p < c < |ns| && i < |ns| && (c == 2 * p + 1 || c == 2 * p + 2) && Distinct(ns)
    ensures Expected(ns, p, c, i) ==
      Links(SwapAt(ns, p, c, 2 * i + 1), SwapAt(ns, p, c, 2 * i + 2), if i == 0 then null else SwapAt(ns, p, c, Up(i)))
  {
    DifferAll(ns, p, c);
    if p > 0 && i == Up(p) {
      Differ(ns, p, if p == 2 * i + 1 then 2 * i + 2 else 2 * i + 1);
    }
  }

  lemma LinkedIs(ns: seq<Node>, p: nat, c: nat, i: nat)
    requires p < c < |ns| && i < |ns| && SwapLinked(ns, p, c, i)
    ensures Linked(Swapped(ns, p, c), i)
  {
    AtSwapped(ns, p, c, i);
    AtSwapped(ns, p, c, 2 * i + 1);
    AtSwapped(ns, p, c, 2 * i + 2);
    if i > 0 { AtSwapped(ns, p, c, Up(i)); }
  }

  lemma AtSwapped(ns: seq<Node>, p: nat, c: nat, k: nat)
    requires p < |ns| && c < |ns| && p != c
    ensures At(Swapped(ns, p, c), k) == SwapAt(ns, p, c, k)
    ensures k < |ns| ==> Swapped(ns, p, c)[k] == At(Swapped(ns, p, c), k)
  {
  }

  lemma DifferAll(ns: seq<Node>, p: nat, c: nat)
    requires c < |ns| && (c == 2 * p + 1 || c == 2 * p + 2) && Distinct(ns)
    ensures ns[p] != ns[c] && ns[c] != At(ns, 4 * p + 3 - c) && ns[p] != At(ns, 4 * p + 3 - c)
  {
  }

  /** Positions whose nodes heap_node_swap writes to. */
  predicate Near(p: nat, c: nat, i: nat) {
    i == p || i == c || i == 4 * p + 3 - c || i == 2 * c + 1 || i == 2 * c + 2 || (p > 0 && i == Up(p))
  }

  lemma NearIs(ns: seq<Node>, p: nat, c: nat, i: nat)
    requires i < |ns| && Near(p, c, i)
    ensures At(ns, i) == ns[i]
    ensures i == p || i == c || i == 4 * p + 3 - c || i == 2 * c + 1 || i == 2 * c + 2 || (p > 0 && i == Up(p))
  {
  }

  function AroundSet(ns: seq<Node>, p: nat, c: nat): set<Node>
    requires p < c < |ns| && c <= 2 * p + 2
  {
    NodesOf({ns[p], ns[c], At(ns, 4 * p + 3 - c), At(ns, 2 * c + 1), At(ns, 2 * c + 2), if p ==
      0 then null else ns[Up(p)]})
  }

  lemma AroundIn(ns: seq<Node>, p: nat, c: nat)
    requires p < c < |ns| && c <= 2 * p + 2
    ensures forall x :: x in AroundSet(ns, p, c) ==> x in ns
  {
  }

  predicate Six(parent: Node, child: Node, s: Node?, l: Node?, r: Node?, g: Node?) {
    && parent != child && parent !in {s, l, r, g} && child !in {s, l, r, g}
    && (s == null || (s != l && s != r && s != g)) && (g == null || (g != l && g != r)) && (l == null || l != r)
  }

  /** The nodes around a child and its parent are six different ones. */
  lemma Around(ns: seq<Node>, p: nat, c: nat)
    requires c < |ns| && (c == 2 * p + 1 || c == 2 * p + 2) && Distinct(ns)
    ensures Six(ns[p], ns[c], At(ns, 4 * p + 3 - c), At(ns, 2 * c + 1), At(ns, 2 * c + 2), if p ==
      0 then null else ns[Up(p)])
  {
  }

  lemma Apart(ns: seq<Node>, p: nat, c: nat, i: nat)
    requires c < |ns| && (c == 2 * p + 1 || c == 2 * p + 2) && Distinct(ns) && i < |ns|
    ensures var s, l, r := At(ns, 4 * p + 3 - c), At(ns, 2 * c + 1), At(ns, 2 * c + 2);
      var g := if p == 0 then null else ns[Up(p)];
      (ns[i] == ns[p] <==> i == p) && (ns[i] == ns[c] <==> i == c) && (ns[i] == s <==> i == 4 * p + 3 - c)
      && (ns[i] == l <==> i == 2 * c + 1) && (ns[i] == r <==> i == 2 * c + 2) && (ns[i] == g <==> p > 0 && i == Up(p))
    ensures ns[i] in AroundSet(ns, p, c) <==> Near(p, c, i)
  {
  }

  /** What the tree says about the nodes around. */
  lemma ReplaceLocals(ns: seq<Node>, k: nat)
    requires k < |ns| && Tree(ns)
    ensures var l, r, g := At(ns, 2 * k + 1), At(ns, 2 * k + 2), ParentAt(ns, k);
      && l == ns[k].left && r == ns[k].right && g == ns[k].parent
      && ns[k] !in {l, r, g} && (l == null || (l != r && l != g)) && (r == null || r != g)
      && (g != null ==> (g.left == ns[k] <==> k == 2 * Up(k) + 1) && (g.right == ns[k] <==> k != 2 * Up(k) + 1))
    ensures Distinct(ns) && forall i: nat :: i < |ns| ==> Linked(ns, i)
  {
    assert Linked(ns, k);
    if k > 0 {
      assert Linked(ns, Up(k));
      Differ(ns, k, if k == 2 * Up(k) + 1 then 2 * Up(k) + 2 else 2 * Up(k) + 1);
    }
  }

  lemma Aside(ns: seq<Node>, k: nat, i: nat)
    requires k < |ns| && i < |ns| && Distinct(ns)
    ensures (ns[i] == ns[k] <==> i == k) && (ns[i] == At(ns, 2 * k + 1) <==> i == 2 * k + 1)
    ensures (ns[i] == At(ns, 2 * k + 2) <==> i == 2 * k + 2) && (k > 0 ==> (ns[i] == ns[Up(k)] <==> i == Up(k)))
  {
  }

  /** The pointers of the node at `i` when `child` has come to `k`. */
  ghost predicate Spliced(ns: seq<Node>, k: nat, child: Node, i: nat)
    requires k < |ns| && i < |ns|
    reads ns`left, ns`right, ns`parent, child`left, child`right, child`parent
  {
    var x := if i == k then child else ns[i];
    var left, right := At(ns, 2 * i + 1), At(ns, 2 * i + 2);
    Links(x.left, x.right, x.parent) ==
      if i == 2 * k + 1 || i == 2 * k + 2 then Links(left, right, child)
      else if k > 0 && i == Up(k) then
        if k == 2 * i + 1 then Links(child, right, ParentAt(ns, i)) else Links(left, child, ParentAt(ns, i))
      else Links(left, right, ParentAt(ns, i))
  }

  lemma SplicedIs(ns: seq<Node>, k: nat, child: Node, i: nat)
    requires k < |ns| && i < |ns| && Spliced(ns, k, child, i)
    ensures Linked(ns[k := child], i)
  {
    ReplacedAt(ns, k, child, 2 * i + 1);
    ReplacedAt(ns, k, child, 2 * i + 2);
  }

  lemma ChildAside(ns: seq<Node>, repr: set<Node>, child: Node)
    requires SameMembers(ns, repr) && child !in repr
    ensures forall i: nat :: i < |ns| ==> ns[i] != child
    ensures forall i: nat :: child != At(ns, i)
    ensures forall i: nat :: i < |ns| ==> At(ns, i) == ns[i] && ns[i] in repr
  {
  }

  lemma LastIn(ns: seq<Node>, repr: set<Node>)
    requires SameMembers(ns, repr) && Distinct(ns) && ns != []
    ensures var n := |ns| - 1; ns[n] in repr && ns[n] != At(ns[..n], 0)
  {
  }

  lemma AroundNode(ns: seq<Node>, repr: set<Node>, k: nat)
    requires SameMembers(ns, repr) && k < |ns|
    ensures NodesOf({At(ns, 2 * k + 1), At(ns, 2 * k + 2)}) <= repr && NodesOf({ParentAt(ns, k)}) <= repr
  {
  }

  lemma ReplacedAt(ns: seq<Node>, k: nat, child: Node, i: nat)
    requires k < |ns|
    ensures At(ns[k := child], i) == if i == k then child else At(ns, i)
  {
  }

  lemma ShorterMembers(ns: seq<Node>, repr: set<Node>)
    requires SameMembers(ns, repr) && Distinct(ns) && ns != []
    ensures var n := |ns| - 1; SameMembers(ns[..n], repr - {ns[n]}) && Distinct(ns[..n])
  {
    var n := |ns| - 1;
    forall x | x in repr - {ns[n]} ensures x in ns[..n] {
      var i :| 0 <= i < |ns| && ns[i] == x;
      assert ns[..n][i] == x;
    }
  }

  lemma ReplacedMembers(ns: seq<Node>, repr: set<Node>, k: nat, child: Node)
    requires SameMembers(ns, repr) && Distinct(ns) && k < |ns| && child !in repr
    ensures SameMembers(ns[k := child], repr - {ns[k]} + {child}) && Distinct(ns[k := child])
  {
    var ms := ns[k := child];
    forall x | x in repr - {ns[k]} + {child} ensures x in ms {
      if x == child {
        assert ms[k] == child;
      } else {
        var i :| 0 <= i < |ns| && ns[i] == x;
        assert ms[i] == x;
      }
    }
  }

  lemma Locals(ns: seq<Node>, p: nat, c: nat)
    requires c < |ns| && (c == 2 * p + 1 || c == 2 * p + 2) && Tree(ns)
    ensures Six(ns[p], ns[c], At(ns, 4 * p + 3 - c), At(ns, 2 * c + 1), At(ns, 2 * c + 2), if p ==
      0 then null else ns[Up(p)])
    ensures forall i: nat :: i < |ns| && Near(p, c, i) ==> Linked(ns, i)
    ensures c == 2 * p + 1 ==> ns[p].left == ns[c] && ns[p].right == At(ns, 4 * p + 3 - c)
    ensures c != 2 * p + 1 ==> ns[p].left == At(ns, 4 * p + 3 - c) && ns[p].right == ns[c]
    ensures ns[c].left == At(ns, 2 * c + 1) && ns[c].right == At(ns, 2 * c + 2) && ns[p].parent == ParentAt(ns, p)
    ensures p > 0 ==>
      (ns[Up(p)].left == ns[p] <==> p == 2 * Up(p) + 1) && (ns[Up(p)].right == ns[p] <==> p != 2 * Up(p) + 1)
    ensures At(ns, 0) == ns[0]
  {
    Around(ns, p, c);
    assert Linked(ns, p) && Linked(ns, c);
    if p > 0 {
      assert Linked(ns, Up(p));
      Differ(ns, p, if p == 2 * Up(p) + 1 then 2 * Up(p) + 2 else 2 * Up(p) + 1);
    }
  }

  class Heap {
    var min: Node?
    var nelts: nat
    const lt: (Key, Key) -> bool
    /** The tree in level order. */
    ghost var nodes: seq<Node>
    /** The same as a set. */
    ghost var repr: set<Node>

    ghost predicate Shape()
      reads this`min, this`nelts, this`nodes, this`repr, repr`left, repr`right, repr`parent
    {
      nelts == |nodes| <= 0xFFFF_FFFF && SameMembers(nodes, repr) && Tree(nodes) && min == At(nodes, 0)
    }

    /** The pointer updates of heap_node_swap, for a child `child` of `parent` whose brother,
        children and grandparent are as named. */
    method Relink(parent: Node, child: Node, ghost s: Node?, ghost l: Node?, ghost r: Node?, ghost g: Node?,
            ghost first: bool, ghost gFirst: bool)
      requires if first then parent.left == child && parent.right == s else parent.left == s && parent.right == child
      requires l == child.left && r == child.right && g == parent.parent
      requires Six(parent, child, s, l, r, g)
      requires g != null ==> (g.left == parent <==> gFirst) && (g.right == parent <==> !gFirst)
      modifies this`min, NodesOf({parent, child, s, l, r, g})`left, NodesOf({parent, child, s, l, r, g})`right,
        NodesOf({parent, child, s, l, r, g})`parent
      ensures parent.left == l && parent.right == r && parent.parent == child && child.parent == g
      ensures if first then child.left == parent && child.right == s else child.left == s && child.right == parent
      ensures s != null ==> s.parent == child && s.left == old(s.left) && s.right == old(s.right)
      ensures l != null ==> l.parent == parent && l.left == old(l.left) && l.right == old(l.right)
      ensures r != null ==> r.parent == parent && r.left == old(r.left) && r.right == old(r.right)
      ensures g != null ==> g.parent == old(g.parent) && min == old(min)
      ensures g != null && gFirst ==> g.left == child && g.right == old(g.right)
      ensures g != null && !gFirst ==> g.right == child && g.left == old(g.left)
      ensures g == null ==> min == child
    {
      var left, right, up := parent.left, parent.right, parent.parent;
      parent.left, parent.right, parent.parent := child.left, child.right, child.parent;
      child.left, child.right, child.parent := left, right, up;
      parent.parent := child;
      var sibling;
      if child.left == child {
        child.left := parent;
        sibling := child.right;
      } else {
        child.right := parent;
        sibling := child.left;
      }
      if sibling != null { sibling.parent := child; }
      if parent.left != null { parent.left.parent := parent; }
      if parent.right != null { parent.right.parent := parent; }
      if child.parent == null {
        min := child;
      } else if child.parent.left == parent {
        child.parent.left := child;
      } else {
        child.parent.right := child;
      }
    }

    /** The same by positions. */
    method RelinkAt(parent: Node, child: Node, ghost p: nat, ghost c: nat)
      requires Shape() && c < |nodes| && (c == 2 * p + 1 || c == 2 * p + 2)
      requires nodes[p] == parent && nodes[c] == child
      modifies this`min, AroundSet(nodes, p, c)`left, AroundSet(nodes, p, c)`right, AroundSet(nodes, p, c)`parent
      ensures forall i: nat :: i < |nodes| && Near(p, c, i) ==> Rewired(nodes, p, c, i)
      ensures min == if p == 0 then child else nodes[0]
    {
      ghost var ns := nodes;
      ghost var s, l, r := 4 * p + 3 - c, 2 * c + 1, 2 * c + 2;
      hide Distinct, Tree, Six, At, Near;
      Locals(ns, p, c);
      ghost var g := if p == 0 then null else ns[Up(p)];
      Relink(parent, child, At(ns, s), At(ns, l), At(ns, r), g, c == 2 * p + 1, p == 2 * Up(p) + 1);
      forall i: nat | i < |ns| && Near(p, c, i) ensures Rewired(ns, p, c, i) {
        assert old(Linked(ns, i));
        NearIs(ns, p, c, i);
      }
    }

    /** heap_node_swap. */
    method Swap(parent: Node, child: Node, ghost p: nat, ghost c: nat)
      requires Shape() && c < |nodes| && (c == 2 * p + 1 || c == 2 * p + 2)
      requires nodes[p] == parent && nodes[c] == child
      modifies this`min, this`nodes, repr`left, repr`right, repr`parent
      ensures Shape() && nodes == Swapped(old(nodes), p, c)
    {
      ghost var ns := nodes;
      AroundIn(ns, p, c);
      RelinkAt(parent, child, p, c);
      SwappedFacts(ns, p, c);
      forall i: nat | i < |ns| ensures Linked(Swapped(ns, p, c), i) {
        if !Near(p, c, i) {
          assert old(Linked(ns, i));
          Apart(ns, p, c, i);
        }
        assert Rewired(ns, p, c, i);
        ExpectedIs(ns, p, c, i);
        LinkedIs(ns, p, c, i);
      }
      nodes := Swapped(ns, p, c);
    }
  
    ghost predicate Valid()
      reads this`min, this`nelts, this`nodes, this`repr, repr`left, repr`right, repr`parent, repr`key
    {
      Shape() && StrictWeakOrder(lt) && Ordered(Keys(nodes), lt)
    }

    constructor (lt: (Key, Key) -> bool)
      requires StrictWeakOrder(lt)
      ensures Valid() && nodes == [] && repr == {} && this.lt == lt
    {
      this.lt := lt;
      min, nelts, nodes, repr := null, 0, [], {};
    }

    /** heap_min: null for the empty heap, otherwise a least element. */
    method Min() returns (n: Node?)
      requires Valid()
      ensures nodes == [] ==> n == null
      ensures nodes != [] ==> n == nodes[0] && forall x :: x in nodes ==> !lt(x.key, nodes[0].key)
    {
      n := min;
      forall x | x in nodes ensures !lt(x.key, nodes[0].key) {
        var i :| 0 <= i < |nodes| && nodes[i] == x;
        RootLeast(Keys(nodes), lt, i);
      }
    }

    /** The pointer to pointer that the source works with. */
    function Load(s: Slot): Node?
      reads this, if s.AtMin? then {} else {s.n}
    {
      match s case AtMin => min case AtLeft(n) => n.left case AtRight(n) => n.right
    }

    method Store(s: Slot, x: Node?)
      modifies this`min, (if s.AtMin? then {} else {s.n})`left, (if s.AtMin? then {} else {s.n})`right
      ensures s.AtMin? ==> min == x
      ensures s.AtLeft? ==> min == old(min) && s.n.left == x && s.n.right == old(s.n.right)
      ensures s.AtRight? ==> min == old(min) && s.n.right == x && s.n.left == old(s.n.left)
    {
      match s
      case AtMin => min := x;
      case AtLeft(n) => n.left := x;
      case AtRight(n) => n.right := x;
    }

    /** Follows a path from the root. */
    method Descend(path0: nat, k0: nat, ghost n: nat) returns (parent: Slot, child: Slot)
      requires Shape() && 1 <= n <= nelts + 1 && Walk(1, path0, k0) == n
      ensures child == SlotOf(nodes, n - 1)
      ensures parent == if n == 1 then AtMin else SlotOf(nodes, Up(n - 1))
    {
      hide Tree, Distinct, SameMembers, Walk;
      var path, k := path0, k0;
      WalkUp(1, path, k);
      parent, child := AtMin, AtMin;
      ghost var m := 1;
      while k > 0
        invariant 1 <= m <= n && Walk(m, path, k) == n && (k == 0 ==> m == n)
        invariant child == SlotOf(nodes, m - 1)
        invariant parent == if m == 1 then AtMin else SlotOf(nodes, Up(m - 1))
      {
        WalkStep(m, path, k);
        SlotStep(nodes, m - 1);
        LoadIs(m - 1);
        parent := child;
        var at := Load(child);
        if path % 2 == 1 { child := AtRight(at); } else { child := AtLeft(at); }
        m := 2 * m + path % 2;
        path := path / 2;
        k := k - 1;
      }
    }

    /** A tree in order stays so above a node appended to it. */
    lemma OrderedLast(ns: seq<Node>, node: Node)
      requires Ordered(Keys(ns), lt)
      ensures OrderedAbove(Keys(ns + [node]), lt, |ns|)
    {
      hide Keys, OrderedAbove, Ordered;
      KeysLonger(ns, node);
      OrderedPrefix(Keys(ns), node.key, |ns|);
    }

    lemma KeysFront(ns: seq<Node>)
      requires ns != []
      ensures Keys(ns[..|ns| - 1]) == Keys(ns)[..|ns| - 1]
    {
      hide Keys;
    }

    lemma KeysUpdated(ns: seq<Node>, k: nat, x: Node)
      requires k < |ns|
      ensures Keys(ns[k := x]) == Keys(ns)[k := x.key]
    {
      hide Keys;
    }

    lemma KeysLonger(ns: seq<Node>, node: Node)
      ensures Keys(ns + [node]) == Keys(ns) + [node.key]
    {
      hide Keys;
      assert forall i :: 0 <= i < |ns| ==> (ns + [node])[i] == ns[i];
    }

    lemma OrderedPrefix(ks: seq<Key>, k: Key, n: nat)
      requires Ordered(ks, lt) && n == |ks|
      ensures OrderedAbove(ks + [k], lt, n)
    {
      var ks1 := ks + [k];
      forall j: nat | 0 < j < |ks| ensures !lt(ks1[j], ks1[Up(j)]) {
        assert !lt(ks[j], ks[Up(j)]);
      }
    }

    /** heap_insert. */
    method Insert(newnode: Node)
      requires Valid() && newnode !in repr && nelts < 0xFFFF_FFFF
      modifies this`min, this`nelts, this`nodes, this`repr, repr`left, repr`right, repr`parent, newnode`left,
        newnode`right, newnode`parent
      ensures Valid() && |nodes| == |old(nodes)| + 1 && repr == old(repr) + {newnode}
    {
      hide Tree, Distinct, StrictWeakOrder, OrderedAbove, Ordered, SameMembers, Keys;
      ghost var ns := nodes;
      Append(newnode);
      OrderedLast(ns, newnode);
      SiftUp(newnode, |nodes| - 1);
    }

    /** The new node becomes the left-most free one of the bottom row. */
    method Append(newnode: Node)
      requires Shape() && newnode !in repr && nelts < 0xFFFF_FFFF
      modifies this`min, this`nelts, this`nodes, this`repr, repr`left, repr`right, newnode`left, newnode`right,
        newnode`parent
      ensures Shape() && nodes == old(nodes) + [newnode] && repr == old(repr) + {newnode}
    {
      newnode.left, newnode.right, newnode.parent := null, null, null;
      var path, k := Path(1 + nelts);
      var parent, child := Descend(path, k, 1 + nelts);
      AttachAt(newnode, parent, child);
      nelts := nelts + 1;
    }

    method AttachAt(newnode: Node, parent: Slot, child: Slot)
      requires Shape() && newnode !in repr && newnode.left == null && newnode.right == null
      requires child == SlotOf(nodes, |nodes|) && parent == if nodes == [] then AtMin else SlotOf(nodes, Up(|nodes|))
      modifies this`min, this`nodes, this`repr, repr`left, repr`right, newnode`parent
      ensures nodes == old(nodes) + [newnode] && Tree(nodes) && min == At(nodes, 0)
      ensures repr == old(repr) + {newnode} && SameMembers(nodes, repr)
    {
      ghost var ns, n := nodes, |nodes|;
      ghost var u := Up(n);
      SlotNode(ns, n);
      if n > 0 {
        LoadIs(u);
        assert Linked(ns, u);
      }
      newnode.parent := Load(parent);
      Store(child, newnode);
      nodes, repr := ns + [newnode], repr + {newnode};
      forall i: nat | i < |nodes| ensures Linked(nodes, i) {
        if i < n { assert old(Linked(ns, i)); }
        if i == n {
          assert Linked(nodes, i);
        } else if i == u {
          assert Linked(nodes, i);
        } else {
          assert ns[i] == nodes[i] && ns[i].left == old(ns[i].left) && ns[i].right == old(ns[i].right);
          assert Linked(nodes, i);
        }
      }
    }

    lemma LoadIs(i: nat)
      requires Shape() && i < |nodes|
      ensures Load(SlotOf(nodes, i)) == nodes[i]
    {
      assert Linked(nodes, i);
      if i > 0 { assert Linked(nodes, Up(i)); }
    }

    /** Up while the node is less than its parent. */
    method SiftUp(node: Node, ghost i0: nat)
      requires Shape() && StrictWeakOrder(lt) && i0 < |nodes| && nodes[i0] == node && OrderedAbove(Keys(nodes), lt, i0)
      modifies this`min, this`nodes, repr`left, repr`right, repr`parent
      ensures Valid() && |nodes| == |old(nodes)|
    {
      hide Tree, Distinct, Swapped, StrictWeakOrder, OrderedAbove, Ordered, SameMembers;
      ghost var i: nat := i0;
      Local(i);
      while node.parent != null && lt(node.key, node.parent.key)
        invariant Shape() && i < |nodes| == |old(nodes)| && nodes[i] == node && OrderedAbove(Keys(nodes), lt, i)
        invariant node.parent == ParentAt(nodes, i)
        decreases i
      {
        ghost var ns, ks, u := nodes, Keys(nodes), Up(i);
        UpStep(ks, lt, i);
        SwapTwo(ns, u, i);
        assert nodes[u] in repr by { In(u); }
        Swap(node.parent, node, u, i);
        KeysSwapped(ns, nodes, ks, u, i);
        i := u;
        Local(i);
      }
      UpEnd(Keys(nodes), lt, i);
    }

    ghost function Position(node: Node): (k: nat)
      requires Shape() && node in repr
      reads this`min, this`nelts, this`nodes, this`repr, repr`left, repr`right, repr`parent
      ensures k < |nodes| && nodes[k] == node
    {
      assert node in nodes;
      var k: nat :| k < |nodes| && nodes[k] == node; k
    }

    lemma AllGone()
      requires Shape() && nodes == []
      ensures repr == {}
    {
    }

    /** heap_remove. */
    method Remove(node: Node)
      requires Valid() && (nelts == 0 || node in repr)
      modifies this`min, this`nelts, this`nodes, this`repr, repr`left, repr`right, repr`parent
      ensures Valid() && repr == old(repr) - {node}
      ensures nelts == |nodes| == if old(nelts) == 0 then 0 else old(nelts) - 1
      ensures node in old(repr) ==> old(nelts) > 0
    {
      hide Tree, Distinct, StrictWeakOrder, OrderedAbove, OrderedAround, Ordered, SameMembers, At, Keys;
      if nelts == 0 {
        AllGone();
        return;
      }
      ghost var ns, ks, last := nodes, Keys(nodes), |nodes| - 1;
      ghost var k := Position(node);
      RemoveOrder(ks, lt, k);
      var child := Detach();
      KeysFront(ns);
      if child == node {
        // The source then looks for the node at `min`, where it no longer is.
        assert child != min;
        return;
      }
      Replace(node, child, k);
      KeysUpdated(ns[..last], k, child);
      Settle(child, k);
    }

    method Settle(child: Node, ghost k: nat)
      requires Shape() && StrictWeakOrder(lt) && k < |nodes| && nodes[k] == child && OrderedAround(Keys(nodes), lt, k)
      modifies this`min, this`nodes, repr`left, repr`right, repr`parent
      ensures Valid() && |nodes| == |old(nodes)|
    {
      hide Tree, Distinct, StrictWeakOrder, OrderedAbove, OrderedAround, Ordered, SameMembers, At;
      ghost var i := SiftDown(child, k);
      SiftUp(child, i);
    }

    /** Unlinks the last node of the level order. */
    method Detach() returns (child: Node)
      requires Shape() && nelts > 0
      modifies this`min, this`nelts, this`nodes, this`repr, repr`left, repr`right
      ensures Shape() && child == old(nodes)[|old(nodes)| - 1]
      ensures nodes == old(nodes)[..|old(nodes)| - 1] && repr == old(repr) - {child}
      ensures child in old(repr) && child != min
    {
      LastIn(nodes, repr);
      hide Tree, Distinct, SameMembers, SlotOf, Load;
      var max;
      child, max := Last();
      Cut(max);
      nelts := nelts - 1;
    }

    /** The last node of the level order, and the pointer to it. */
    method Last() returns (child: Node, max: Slot)
      requires Shape() && nelts > 0
      ensures child == nodes[nelts - 1] && max == SlotOf(nodes, nelts - 1)
    {
      hide Tree, Distinct, SameMembers;
      var path, k := Path(nelts);
      var parent;
      parent, max := Descend(path, k, nelts);
      LoadIs(nelts - 1);
      child := Load(max);
    }

    method Cut(max: Slot)
      requires Shape() && nelts > 0 && max == SlotOf(nodes, nelts - 1)
      modifies this`min, this`nodes, this`repr, repr`left, repr`right
      ensures nodes == old(nodes)[..|old(nodes)| - 1] && repr == old(repr) - {old(nodes)[|old(nodes)| - 1]}
      ensures SameMembers(nodes, repr) && Tree(nodes) && min == At(nodes, 0)
    {
      hide SameMembers, At, Distinct;
      ghost var ns, n := nodes, nelts - 1;
      SlotNode(ns, n);
      ShorterMembers(ns, repr);
      Store(max, null);
      nodes, repr := ns[..n], repr - {ns[n]};
      forall i: nat | i < n ensures Linked(nodes, i) {
        assert nodes[i] == ns[i] && old(Linked(ns, i));
        AtFront(ns, n, 2 * i + 1);
        AtFront(ns, n, 2 * i + 2);
        if i != Up(n) { NotSame(ns, i, Up(n)); }
      }
      AtFront(ns, n, 0);
    }

    /** The pointer updates that put `child` in the place of `node`, whose children and parent
        are as named. */
    method Splice(node: Node, child: Node, ghost l: Node?, ghost r: Node?, ghost g: Node?, ghost gFirst: bool)
      requires l == node.left && r == node.right && g == node.parent && node != child
      requires node !in {l, r, g} && child !in {l, r, g} && (l == null || (l != r && l != g)) && (r == null || r != g)
      requires g != null ==> (g.left == node <==> gFirst) && (g.right == node <==> !gFirst)
      modifies this`min, NodesOf({l, r})`parent, NodesOf({g})`left, NodesOf({g})`right, child`left, child`right,
        child`parent
      ensures child.left == l && child.right == r && child.parent == g
      ensures l != null ==> l.parent == child
      ensures r != null ==> r.parent == child
      ensures g != null && gFirst ==> g.left == child && g.right == old(g.right)
      ensures g != null && !gFirst ==> g.right == child && g.left == old(g.left)
      ensures min == if g == null then child else old(min)
    {
      child.left, child.right, child.parent := node.left, node.right, node.parent;
      if child.left != null { child.left.parent := child; }
      if child.right != null { child.right.parent := child; }
      if node.parent == null {
        min := child;
      } else if node.parent.left == node {
        node.parent.left := child;
      } else {
        node.parent.right := child;
      }
    }

    /** The same by positions. */
    method SpliceAt(node: Node, child: Node, ghost k: nat)
      requires Shape() && k < |nodes| && nodes[k] == node && child !in repr
      modifies this`min, repr`left, repr`right, repr`parent, child`left, child`right, child`parent
      ensures forall i: nat :: i < |nodes| ==> Spliced(nodes, k, child, i)
      ensures min == if k == 0 then child else nodes[0]
    {
      hide Tree, Distinct, SameMembers, At;
      ghost var ns, l, r := nodes, 2 * k + 1, 2 * k + 2;
      ReplaceLocals(ns, k);
      ChildAside(ns, repr, child);
      AroundNode(ns, repr, k);
      Splice(node, child, At(ns, l), At(ns, r), ParentAt(ns, k), k == 2 * Up(k) + 1);
      forall i: nat | i < |ns| ensures Spliced(ns, k, child, i) {
        assert old(Linked(ns, i));
        Aside(ns, k, i);
      }
    }

    /** The detached node takes the place of the one that goes. */
    method Replace(node: Node, child: Node, ghost k: nat)
      requires Shape() && k < |nodes| && nodes[k] == node && child !in repr
      modifies this`min, this`nodes, this`repr, repr`left, repr`right, repr`parent, child`left, child`right,
        child`parent
      ensures Shape() && nodes == old(nodes)[k := child] && repr == old(repr) - {node} + {child}
    {
      ghost var ns := nodes;
      ReplacedMembers(ns, repr, k, child);
      SpliceAt(node, child, k);
      nodes, repr := ns[k := child], repr - {node} + {child};
      hide SameMembers, Distinct;
      forall i: nat | i < |ns| ensures Linked(nodes, i) {
        assert Spliced(ns, k, child, i);
        SplicedIs(ns, k, child, i);
      }
    }

    /** Down while one of the children is less; the least of the three goes up. */
    method SiftDown(child: Node, ghost i0: nat) returns (ghost i: nat)
      requires Shape() && StrictWeakOrder(lt) && i0 < |nodes| && nodes[i0] == child
        && OrderedAround(Keys(nodes), lt, i0)
      modifies this`min, this`nodes, repr`left, repr`right, repr`parent
      ensures Shape() && |nodes| == |old(nodes)| && i < |nodes| && nodes[i] == child && OrderedAbove(Keys(nodes), lt, i)
    {
      hide Tree, Distinct, Swapped, StrictWeakOrder, OrderedAbove, OrderedAround, SameMembers, Keys, LessChild,
        NoLessChild;
      i := i0;
      while true
        invariant Shape() && i < |nodes| == |old(nodes)| && nodes[i] == child && OrderedAround(Keys(nodes), lt, i)
        decreases |nodes| - i
      {
        ghost var ns, ks := nodes, Keys(nodes);
        ghost var m: nat;
        var smallest;
        smallest, m := Smallest(child, i);
        if smallest == child {
          break;
        }
        DownStep(ks, lt, i, m);
        SwapTwo(ns, i, m);
        Swap(child, smallest, i, m);
        KeysSwapped(ns, nodes, ks, i, m);
        i := m;
      }
      DownEnd(Keys(nodes), lt, i);
    }

    /** The least of a node and its children, and where it is. */
    method Smallest(child: Node, ghost i: nat) returns (smallest: Node, ghost m: nat)
      requires Shape() && i < |nodes| && nodes[i] == child
      ensures m < |nodes| && smallest == nodes[m]
      ensures if smallest == child then m == i && NoLessChild(Keys(nodes), lt, i) else LessChild(Keys(nodes), lt, i, m)
    {
      hide Tree, Distinct, SameMembers;
      Local(i);
      smallest, m := child, i;
      if child.left != null && lt(child.left.key, smallest.key) {
        smallest := child.left;
        m := 2 * i + 1;
      }
      if child.right != null && lt(child.right.key, smallest.key) {
        smallest := child.right;
        m := 2 * i + 2;
      }
    }

    lemma In(i: nat)
      requires Shape() && i < |nodes|
      ensures nodes[i] in repr
    {
    }

    lemma Local(i: nat)
      requires Shape() && i < |nodes|
      ensures nodes[i].left == At(nodes, 2 * i + 1) && nodes[i].right == At(nodes, 2 * i + 2)
        && nodes[i].parent == ParentAt(nodes, i)
      ensures nodes[i].left != nodes[i] && nodes[i].right != nodes[i]
    {
      assert Linked(nodes, i);
    }

    lemma KeysSwapped(ns: seq<Node>, ms: seq<Node>, ks: seq<Key>, p: nat, c: nat)
      requires p < c < |ns| && ms == Swapped(ns, p, c) && |ks| == |ns|
        && forall i :: 0 <= i < |ns| ==> ks[i] == ns[i].key
      ensures Keys(ms) == Swapped(ks, p, c)
    {
    }
  }

  lemma SwapTwo(ns: seq<Node>, p: nat, c: nat)
    requires p < c < |ns|
    ensures Swapped(ns, p, c)[p] == ns[c] && Swapped(ns, p, c)[c] == ns[p]
  {
  }

  datatype Slot = AtMin | AtLeft(n: Node) | AtRight(n: Node)

  /** The pointer that leads to position `i`. */
  function SlotOf(ns: seq<Node>, i: nat): Slot
    requires i <= |ns|
  {
    if i == 0 then AtMin else if i % 2 == 1 then AtLeft(ns[Up(i)]) else AtRight(ns[Up(i)])
  }

  lemma NotSame(ns: seq<Node>, i: nat, j: int)
    requires Distinct(ns) && i < |ns| && i != j < |ns|
    ensures 0 <= j ==> ns[i] != ns[j]
  {
  }

  lemma AtFront(ns: seq<Node>, n: nat, i: nat)
    requires |ns| == n + 1
    ensures At(ns[..n], i) == (if i < n then At(ns, i) else null) && (i > n ==> At(ns, i) == null)
  {
  }

  lemma SlotNode(ns: seq<Node>, i: nat)
    requires i <= |ns|
    ensures i > 0 ==>
      Up(i) < |ns| && SlotOf(ns, i) == if i == 2 * Up(i) + 1 then AtLeft(ns[Up(i)]) else AtRight(ns[Up(i)])
  {
  }

  lemma SlotStep(ns: seq<Node>, i: nat)
    requires i < |ns|
    ensures 2 * i + 1 <= |ns| ==> SlotOf(ns, 2 * i + 1) == AtLeft(ns[i])
    ensures 2 * i + 2 <= |ns| ==> SlotOf(ns, 2 * i + 2) == AtRight(ns[i])
  {
  }

  /** Where `k` steps along the bits of `path` lead from position `m`, counted from 1. */
  function Walk(m: nat, path: nat, k: nat): nat
    decreases k
  {
    if k == 0 then m else Walk(2 * m + path % 2, path / 2, k - 1)
  }

  /** One step of the walk. */
  lemma WalkStep(m: nat, path: nat, k: nat)
    requires k > 0 && m >= 1
    ensures var m1 := 2 * m + path % 2;
      && Walk(m1, path / 2, k - 1) == Walk(m, path, k) && m < m1 <= Walk(m, path, k)
        && (k == 1 ==> m1 == Walk(m, path, k))
  {
    WalkUp(2 * m + path % 2, path / 2, k - 1);
  }

  lemma {:induction false} WalkUp(m: nat, path: nat, k: nat)
    ensures Walk(m, path, k) >= m && (k > 0 ==> Walk(m, path, k) >= 2 * m) && (k == 0 ==> Walk(m, path, k) == m)
    decreases k
  {
    if k > 0 { WalkUp(2 * m + path % 2, path / 2, k - 1); }
  }

  /** The path to position `n0`, counted from 1: its bits below the highest one, reversed. */
  method Path(n0: nat) returns (path: nat, k: nat)
    requires 1 <= n0 <= 0xFFFF_FFFF
    ensures Walk(1, path, k) == n0 && path < 0xFFFF_FFFF
  {
    var n: nat := n0;
    path, k := 0, 0;
    while n >= 2
      invariant n >= 1 && Walk(n, path, k) == n0 && (path + 1) * n <= n0
    {
      Bits(path, n, n0);
      path := 2 * path + n % 2;
      k := k + 1;
      n := n / 2;
    }
  }

  lemma Bits(path: nat, n: nat, n0: nat)
    requires n >= 2 && (path + 1) * n <= n0
    ensures (2 * path + n % 2 + 1) * (n / 2) <= n0
  {
    var h, b := n / 2, n % 2;
    assert n == 2 * h + b;
    assert (2 * path + b + 1) * h <= (2 * path + 2) * h by { Times(2 * path + b + 1, 2 * path + 2, h); }
    assert (2 * path + 2) * h == (path + 1) * (2 * h) <= (path + 1) * n by { Times(2 * h, n, path + 1); }
  }

  // The order

  ghost function Keys(ns: seq<Node>): (ks: seq<Key>)
    reads ns`key
    ensures |ks| == |ns| && forall i :: 0 <= i < |ns| ==> ks[i] == ns[i].key
  {
    if ns == [] then [] else Keys(ns[..|ns| - 1]) + [ns[|ns| - 1].key]
  }

  /** No node is less than its parent. */
  ghost predicate Ordered(ks: seq<Key>, lt: (Key, Key) -> bool) {
    forall j: nat :: 0 < j < |ks| ==> !lt(ks[j], ks[Up(j)])
  }

  /** The same, except that the node at `i` may be less than its parent. */
  ghost predicate OrderedAbove(ks: seq<Key>, lt: (Key, Key) -> bool, i: nat)
    requires i < |ks|
  {
    && (forall j: nat :: 0 < j < |ks| && j != i ==> !lt(ks[j], ks[Up(j)]))
    && (forall j: nat :: 0 < j < |ks| && Up(j) == i && i > 0 ==> !lt(ks[j], ks[Up(i)]))
  }

  /** The same, except that the node at `i` may be anything. */
  ghost predicate OrderedAround(ks: seq<Key>, lt: (Key, Key) -> bool, i: nat)
    requires i < |ks|
  {
    && (forall j: nat :: 0 < j < |ks| && j != i && Up(j) != i ==> !lt(ks[j], ks[Up(j)]))
    && (forall j: nat :: 0 < j < |ks| && Up(j) == i && i > 0 ==> !lt(ks[j], ks[Up(i)]))
  }

  lemma {:induction false} RootLeast(ks: seq<Key>, lt: (Key, Key) -> bool, i: nat)
    requires StrictWeakOrder(lt) && Ordered(ks, lt) && i < |ks|
    ensures !lt(ks[i], ks[0])
  {
    if i > 0 { RootLeast(ks, lt, Up(i)); }
  }

  lemma RemoveOrder(ks: seq<Key>, lt: (Key, Key) -> bool, k: nat)
    requires StrictWeakOrder(lt) && Ordered(ks, lt) && k < |ks|
    ensures var m := |ks| - 1; Ordered(ks[..m], lt) && (k < m ==> OrderedAround(ks[..m][k := ks[m]], lt, k))
  {
    var m := |ks| - 1;
    if k < m {
      var r := ks[..m][k := ks[m]];
      forall j: nat | 0 < j < |r| && Up(j) == k && k > 0 ensures !lt(r[j], r[Up(k)]) {
        assert !lt(ks[j], ks[k]) && !lt(ks[k], ks[Up(k)]);
      }
    }
  }

  lemma Least(lt: (Key, Key) -> bool, m: Key, o: Key, top: Key)
    requires StrictWeakOrder(lt) && lt(m, if lt(o, top) then o else top)
    ensures lt(m, top) && !lt(o, m)
  {
  }

  /** No child is less than the node at `i`. */
  predicate NoLessChild(ks: seq<Key>, lt: (Key, Key) -> bool, i: nat)
    requires i < |ks|
  {
    && (2 * i + 1 < |ks| ==> !lt(ks[2 * i + 1], ks[i]))
    && (2 * i + 2 < |ks| ==> !lt(ks[2 * i + 2], ks[i]))
  }

  /** The child at `m` is the one to change places with the node at `i`. */
  predicate LessChild(ks: seq<Key>, lt: (Key, Key) -> bool, i: nat, m: nat)
    requires i < |ks| && m < |ks|
  {
    && (m == 2 * i + 1 || m == 2 * i + 2)
    && (m == 2 * i + 1 ==> lt(ks[m], ks[i]) && (2 * i + 2 < |ks| ==> !lt(ks[2 * i + 2], ks[m])))
    && (m == 2 * i + 2 ==> lt(ks[m], if lt(ks[2 * i + 1], ks[i]) then ks[2 * i + 1] else ks[i]))
  }

  /** The least of the children goes up. */
  lemma DownStep(ks: seq<Key>, lt: (Key, Key) -> bool, i: nat, m: nat)
    requires StrictWeakOrder(lt) && i < |ks| && OrderedAround(ks, lt, i) && m < |ks| && LessChild(ks, lt, i, m)
    ensures OrderedAround(Swapped(ks, i, m), lt, m) && (m == 2 * i + 1 || m == 2 * i + 2)
  {
    var r, o := Swapped(ks, i, m), 4 * i + 3 - m;
    if m == 2 * i + 2 { Least(lt, ks[m], ks[o], ks[i]); }
    forall j: nat | 0 < j < |r| && j != m && Up(j) != m ensures !lt(r[j], r[Up(j)]) {
      if Up(j) == i {
        assert j == o;
      } else if j == i {
        assert !lt(ks[m], ks[Up(i)]);
      }
    }
    forall j: nat | 0 < j < |r| && Up(j) == m && m > 0 ensures !lt(r[j], r[Up(m)]) {
      assert !lt(ks[j], ks[m]);
    }
  }

  lemma DownEnd(ks: seq<Key>, lt: (Key, Key) -> bool, i: nat)
    requires i < |ks| && OrderedAround(ks, lt, i) && NoLessChild(ks, lt, i)
    ensures OrderedAbove(ks, lt, i)
  {
  }

  lemma UpStep(ks: seq<Key>, lt: (Key, Key) -> bool, i: nat)
    requires StrictWeakOrder(lt) && 0 < i < |ks| && OrderedAbove(ks, lt, i) && lt(ks[i], ks[Up(i)])
    ensures OrderedAbove(Swapped(ks, Up(i), i), lt, Up(i))
  {
    var p := Up(i);
    var r := Swapped(ks, p, i);
    forall j: nat | 0 < j < |r| && j != p ensures !lt(r[j], r[Up(j)]) {
      assert lt(ks[i], ks[p]) && !lt(ks[p], ks[i]);
    }
    forall j: nat | 0 < j < |r| && Up(j) == p && p > 0 ensures !lt(r[j], r[Up(p)]) {
      assert !lt(ks[p], ks[Up(p)]);
    }
  }

  lemma UpEnd(ks: seq<Key>, lt: (Key, Key) -> bool, i: nat)
    requires i < |ks| && OrderedAbove(ks, lt, i) && (i == 0 || !lt(ks[i], ks[Up(i)]))
    ensures Ordered(ks, lt)
  {
  }

  function NodesOf(s: set<Node?>): set<Node> { set x: Node | x in s }
}
