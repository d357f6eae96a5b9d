/** The inspector's tree model: `PlotsModelNode` (`Inspector/Model/Node.hpp`, `src/Node.cpp`) and
  * `PlotsModel` (`src/Model.cpp`). Nodes live in an arena keyed by node identity; each node wraps
  * a guarded pointer to an inspected object, which may have been destroyed since. What the
  * inspector registered for an object's type answers about that object (its flags, whether it
  * is deletable, its children) is given as an `InspectorView` per object. */
module InspectorTree {
  import opened Common
  import opened QtTypes

  type ObjId = nat
  type NodeId = nat

  /** What the inspector of an object answers about that object. */
  datatype InspectorView = InspectorView(flags: set<ItemFlag>, deletable: bool, children: seq<ObjId>)

  /** One `PlotsModelNode`: `m_obj`, the node's object name, its Qt parent, `m_children`,
    * `_deletable` and `m_inspector` (`None`: no inspector). */
  datatype Node = Node(obj: Option<ObjId>, name: string, parent: Option<NodeId>, children: seq<NodeId>,
                       deletable: bool, inspector: Option<InspectorView>)

  /** `child(row)`: `m_children.value(row, nullptr)`. */
  function Child(n: Node, row: int): (r: Option<NodeId>)
    ensures r.Some? <==> 0 <= row < |n.children|
    ensures r.Some? ==> r.value == n.children[row]
  {
    if 0 <= row < |n.children| then Some(n.children[row]) else None
  }

  /** `child_row(PlotsModelNode*)`: `m_children.indexOf(child)`. */
  function ChildRow(n: Node, c: NodeId): (r: int)
    ensures r == -1 <==> c !in n.children
    ensures r >= 0 ==> r < |n.children| && n.children[r] == c && forall j :: 0 <= j < r ==> n.children[j] != c
  {
    IndexOf(n.children, c)
  }

  /** `object()`: the guarded pointer, null once the object is destroyed. */
  function Object(n: Node, live: set<ObjId>): (o: Option<ObjId>)
    ensures o.Some? <==> n.obj.Some? && n.obj.value in live
    ensures o.Some? ==> o == n.obj
  {
    if n.obj.Some? && n.obj.value in live then n.obj else None
  }

  /** `holds(obj)`: the node's object is alive and is `obj`. The source also compares the two
    * object names, which for one and the same object always agree. */
  predicate Holds(n: Node, live: set<ObjId>, obj: ObjId)
  {
    Object(n, live) == Some(obj)
  }

  /** `holds` is true of at most one object, and only of a live one. */
  lemma HoldsUnique(n: Node, live: set<ObjId>, a: ObjId, b: ObjId)
    requires Holds(n, live, a) && Holds(n, live, b)
    ensures a == b && a in live && n.obj == Some(a)
  {
  }

  /** `flags()` of a node: the inspector's flags, or enabled and selectable without one. */
  function NodeFlags(n: Node): (f: set<ItemFlag>)
    ensures n.inspector.None? ==> f == {ItemIsEnabled, ItemIsSelectable}
    ensures n.inspector.Some? ==> f == n.inspector.value.flags
  {
    if n.inspector.Some? then n.inspector.value.flags else {ItemIsEnabled, ItemIsSelectable}
  }

  /** A `QModelIndex`: invalid, or a row, a column and the internal node pointer. */
  datatype ModelIndex = Invalid | Index(row: int, column: int, node: Option<NodeId>)

  /** `QModelIndex::column()`: -1 for an invalid index. */
  function Column(i: ModelIndex): int { if i.Invalid? then -1 else i.column }


  /** A `QVariant` returned by `data()`: a name, the inspector's icon or tooltip for an object
    * (`None`: an empty icon or tooltip), or an invalid variant. */
  datatype Variant = VName(name: string) | VIcon(iconOf: Option<ObjId>) | VToolTip(tooltipOf: Option<ObjId>) | VInvalid

  /** `icon()` and `tooltip()` of a node: empty without an inspector or a live object,
    * otherwise the inspector's answer for the object. */
  function Decorated(n: Node, live: set<ObjId>): (o: Option<ObjId>)
    ensures o.Some? <==> n.inspector.Some? && n.obj.Some? && n.obj.value in live
    ensures o.Some? ==> o == n.obj
  {
    if n.inspector.None? || Object(n, live).None? then None else Object(n, live)
  }

  predicate Distinct(s: seq<NodeId>)
  {
    forall i, j :: 0 <= i < j < |s| ==> s[i] != s[j]
  }

  predicate Deletable(nodes: map<NodeId, Node>, x: NodeId)
  {
    x in nodes && nodes[x].deletable
  }

  /** Whether `c` sits at one of the rows `[lo, hi)` of `kids`. */
  predicate RowOf(kids: seq<NodeId>, c: NodeId, lo: int, hi: int)
  {
    exists i :: lo <= i < hi && 0 <= i < |kids| && kids[i] == c
  }

  /** Every row of `[lo, hi)` holds a deletable child. */
  predicate AllDeletable(kids: seq<NodeId>, lo: int, hi: int, nodes: map<NodeId, Node>)
  {
    lo >= hi || (0 <= lo && hi <= |kids| && forall i :: lo <= i < hi ==> Deletable(nodes, kids[i]))
  }

  function Clip(k: int, n: nat): (c: nat)
    ensures c <= n
  {
    if k < 0 then 0 else if k > n then n else k
  }

  /** The children of `s` that are not deletable, in order. */
  function Undeletable(s: seq<NodeId>, nodes: map<NodeId, Node>): seq<NodeId>
  {
    if |s| == 0 then []
    else (if Deletable(nodes, s[0]) then [] else [s[0]]) + Undeletable(s[1..], nodes)
  }

  /** `Undeletable` keeps exactly the children that are not deletable, and no more of them. */
  lemma {:induction false} UndeletableMembers(s: seq<NodeId>, nodes: map<NodeId, Node>)
    ensures forall x :: x in Undeletable(s, nodes) <==> x in s && !Deletable(nodes, x)
    ensures |Undeletable(s, nodes)| <= |s|
  {
    if |s| > 0 {
      UndeletableMembers(s[1..], nodes);
      assert s == [s[0]] + s[1..];
    }
  }

  /** The children left once the rows `[lo, hi)` of `kids` were visited by `removeRows`: a
    * visited row keeps its child only when that child is not deletable. */
  function Kept(kids: seq<NodeId>, lo: int, hi: int, nodes: map<NodeId, Node>): seq<NodeId>
  {
    var a := Clip(lo, |kids|);
    var b := Clip(hi, |kids|);
    if a <= b then kids[..a] + Undeletable(kids[a..b], nodes) + kids[b..] else kids
  }

  /** Visiting a row outside the list changes nothing. */
  lemma KeptOutside(kids: seq<NodeId>, i: int, hi: int, nodes: map<NodeId, Node>)
    requires i < hi && !(0 <= i < |kids|)
    ensures Kept(kids, i, hi, nodes) == Kept(kids, i + 1, hi, nodes)
    ensures i >= |kids| ==> Kept(kids, i + 1, hi, nodes) == kids
  {
    if i >= |kids| {
      var n := |kids|;
      assert Clip(i, n) == n && Clip(i + 1, n) == n && Clip(hi, n) == n;
      assert kids[..n] == kids && kids[n..n] == [] && kids[n..] == [];
    }
  }

  /** Removing the element between two parts leaves the parts. */
  lemma RemoveAtMiddle(a: seq<NodeId>, c: NodeId, b: seq<NodeId>)
    ensures (a + [c] + b)[|a|] == c
    ensures RemoveAt(a + [c] + b, |a|) == a + b
  {
    var s := a + [c] + b;
    assert s[..|a|] == a && s[|a| + 1..] == b;
  }

  /** `Kept` around a row `i` inside the list and below `hi`: the rows below `i` and from the
    * clipped `hi` on are untouched, the visited rows above `i` keep their undeletable children,
    * and row `i` keeps its child unless it is deletable. */
  lemma KeptAround(kids: seq<NodeId>, i: int, hi: int, nodes: map<NodeId, Node>, rest: seq<NodeId>)
    requires i < hi && 0 <= i < |kids|
    requires rest == Undeletable(kids[i + 1..Clip(hi, |kids|)], nodes) + kids[Clip(hi, |kids|)..]
    ensures Kept(kids, i + 1, hi, nodes) == kids[..i] + [kids[i]] + rest
    ensures Deletable(nodes, kids[i]) ==> Kept(kids, i, hi, nodes) == kids[..i] + rest
    ensures !Deletable(nodes, kids[i]) ==> Kept(kids, i, hi, nodes) == Kept(kids, i + 1, hi, nodes)
  {
    var b := Clip(hi, |kids|);
    var u := Undeletable(kids[i + 1..b], nodes);
    assert Clip(i, |kids|) == i && Clip(i + 1, |kids|) == i + 1 && i + 1 <= b;
    KeptUnfold(kids, i + 1, hi, nodes);
    assert kids[..i + 1] == kids[..i] + [kids[i]];
    SeqAssoc(kids[..i] + [kids[i]], u, kids[b..]);
    KeptUnfold(kids, i, hi, nodes);
    assert kids[i..b][0] == kids[i] && kids[i..b][1..] == kids[i + 1..b];
    UndeletableCons(kids[i..b], nodes);
    if Deletable(nodes, kids[i]) {
      SeqAssoc(kids[..i], u, kids[b..]);
    } else {
      SeqAssoc(kids[..i], [kids[i]] + u, kids[b..]);
      SeqAssoc(kids[..i] + [kids[i]], u, kids[b..]);
      assert kids[..i] + ([kids[i]] + u) == kids[..i] + [kids[i]] + u;
    }
  }

  /** `Kept` over rows that are in order once clipped. */
  lemma KeptUnfold(kids: seq<NodeId>, lo: int, hi: int, nodes: map<NodeId, Node>)
    requires Clip(lo, |kids|) <= Clip(hi, |kids|)
    ensures Kept(kids, lo, hi, nodes)
            == kids[..Clip(lo, |kids|)] + Undeletable(kids[Clip(lo, |kids|)..Clip(hi, |kids|)], nodes) + kids[Clip(hi, |kids|)..]
  {
  }

  /** `Undeletable` of a non-empty list, one step. */
  lemma UndeletableCons(s: seq<NodeId>, nodes: map<NodeId, Node>)
    requires |s| > 0
    ensures Undeletable(s, nodes) == (if Deletable(nodes, s[0]) then [] else [s[0]]) + Undeletable(s[1..], nodes)
  {
  }

  lemma SeqAssoc(a: seq<NodeId>, b: seq<NodeId>, c: seq<NodeId>)
    ensures a + b + c == a + (b + c)
  {
  }

  /** Visiting one more row inside the list, from the top down: the rows below are untouched,
    * and the row's child goes exactly when it is deletable. */
  lemma KeptInside(kids: seq<NodeId>, i: int, hi: int, nodes: map<NodeId, Node>)
    requires i < hi && 0 <= i < |kids|
    ensures i < |Kept(kids, i + 1, hi, nodes)| && Kept(kids, i + 1, hi, nodes)[i] == kids[i]
    ensures Deletable(nodes, kids[i]) ==> Kept(kids, i, hi, nodes) == RemoveAt(Kept(kids, i + 1, hi, nodes), i)
    ensures !Deletable(nodes, kids[i]) ==> Kept(kids, i, hi, nodes) == Kept(kids, i + 1, hi, nodes)
  {
    var b := Clip(hi, |kids|);
    var rest := Undeletable(kids[i + 1..b], nodes) + kids[b..];
    KeptAround(kids, i, hi, nodes, rest);
    RemoveAtMiddle(kids[..i], kids[i], rest);
  }

  /** In a list without duplicates, an element is in a slice exactly when its index is. */
  lemma InSlice(kids: seq<NodeId>, k: nat, lo: nat, hi: nat)
    requires Distinct(kids) && k < |kids| && lo <= hi <= |kids|
    ensures kids[k] in kids[lo..hi] <==> lo <= k < hi
  {
    if lo <= k < hi {
      assert kids[lo..hi][k - lo] == kids[k];
    } else {
      forall j | 0 <= j < hi - lo
        ensures kids[lo..hi][j] != kids[k]
      {
        assert kids[lo..hi][j] == kids[lo + j];
      }
    }
  }

  /** In a list without duplicates, an element sits in the rows `[lo, hi)` exactly when its
    * index does. */
  lemma RowOfIndex(kids: seq<NodeId>, k: nat, lo: int, hi: int)
    requires Distinct(kids) && k < |kids|
    ensures RowOf(kids, kids[k], lo, hi) <==> lo <= k < hi
  {
    forall j | lo <= j < hi && 0 <= j < |kids|
      ensures kids[j] == kids[k] <==> j == k
    {
    }
  }

  /** Whether one child is left by `removeRows`. */
  lemma KeptMember(kids: seq<NodeId>, lo: int, hi: int, nodes: map<NodeId, Node>, x: NodeId)
    requires Distinct(kids)
    ensures x in Kept(kids, lo, hi, nodes) <==> x in kids && !(Deletable(nodes, x) && RowOf(kids, x, lo, hi))
  {
    var a := Clip(lo, |kids|);
    var b := Clip(hi, |kids|);
    if x in kids {
      var k :| 0 <= k < |kids| && kids[k] == x;
      RowOfIndex(kids, k, lo, hi);
      if a <= b {
        UndeletableMembers(kids[a..b], nodes);
        InSlice(kids, k, 0, a);
        InSlice(kids, k, a, b);
        InSlice(kids, k, b, |kids|);
        assert kids[..a] == kids[0..a] && kids[b..] == kids[b..|kids|];
      }
    } else if a <= b {
      UndeletableMembers(kids[a..b], nodes);
      assert kids == kids[..a] + kids[a..b] + kids[b..];
    }
  }

  /** What `removeRows` leaves: every child not both deletable and in the visited rows. */
  lemma KeptMembers(kids: seq<NodeId>, lo: int, hi: int, nodes: map<NodeId, Node>)
    requires Distinct(kids)
    ensures forall x :: x in Kept(kids, lo, hi, nodes) <==> x in kids && !(Deletable(nodes, x) && RowOf(kids, x, lo, hi))
  {
    forall x
      ensures x in Kept(kids, lo, hi, nodes) <==> x in kids && !(Deletable(nodes, x) && RowOf(kids, x, lo, hi))
    {
      KeptMember(kids, lo, hi, nodes, x);
    }
  }

  /** `removeRows` over a single row. */
  lemma KeptOne(kids: seq<NodeId>, r: nat, nodes: map<NodeId, Node>)
    requires Distinct(kids) && r < |kids|
    ensures forall x :: x in Kept(kids, r, r + 1, nodes) <==> x in kids && !(x == kids[r] && Deletable(nodes, x))
  {
    KeptMembers(kids, r, r + 1, nodes);
    forall x | x in kids
      ensures RowOf(kids, x, r, r + 1) <==> x == kids[r]
    {
      var k :| 0 <= k < |kids| && kids[k] == x;
      RowOfIndex(kids, k, r, r + 1);
      RowOfIndex(kids, r, r, r + 1);
    }
  }

  /** Visiting one more row, from the top down, of the rows that must all be deletable. */
  lemma AllDeletableStep(kids: seq<NodeId>, i: int, hi: int, nodes: map<NodeId, Node>)
    requires i < hi
    ensures AllDeletable(kids, i, hi, nodes) <==>
              0 <= i < |kids| && Deletable(nodes, kids[i]) && AllDeletable(kids, i + 1, hi, nodes)
  {
  }

  /** One pass of the `removeRows` loop at row `i`, where the children are `cur` and both the
    * arena `now` and the arena on entry `was` agree on deletability of the original children. */
  lemma RemoveRowsStep(kids: seq<NodeId>, i: int, hi: int, was: map<NodeId, Node>, now: map<NodeId, Node>, cur: seq<NodeId>)
    requires i < hi && cur == Kept(kids, i + 1, hi, was)
    requires 0 <= i < |kids| ==> (Deletable(now, kids[i]) <==> Deletable(was, kids[i]))
    ensures (0 <= i < |cur| && Deletable(now, cur[i])) <==> (0 <= i < |kids| && Deletable(was, kids[i]))
    ensures 0 <= i < |cur| && Deletable(now, cur[i]) ==> RemoveAt(cur, i) == Kept(kids, i, hi, was)
    ensures !(0 <= i < |cur| && Deletable(now, cur[i])) ==> cur == Kept(kids, i, hi, was)
    ensures AllDeletable(kids, i, hi, was) <==> (0 <= i < |kids| && Deletable(was, kids[i])) && AllDeletable(kids, i + 1, hi, was)
  {
    AllDeletableStep(kids, i, hi, was);
    if 0 <= i < |kids| {
      KeptInside(kids, i, hi, was);
    } else {
      KeptOutside(kids, i, hi, was);
    }
  }

  /** A list with no element is empty. */
  lemma NoMembers(s: seq<NodeId>)
    ensures (forall x :: x !in s) ==> s == []
  {
    if s != [] {
      assert s[0] in s;
    }
  }

  /** When every visited row holds a deletable child, exactly those rows go. */
  lemma KeptAllDeletable(kids: seq<NodeId>, lo: int, hi: int, nodes: map<NodeId, Node>)
    requires 0 <= lo <= hi <= |kids| && AllDeletable(kids, lo, hi, nodes)
    ensures Kept(kids, lo, hi, nodes) == kids[..lo] + kids[hi..]
    ensures |Kept(kids, lo, hi, nodes)| == |kids| - (hi - lo)
  {
    var u := Undeletable(kids[lo..hi], nodes);
    UndeletableMembers(kids[lo..hi], nodes);
    forall j | 0 <= j < hi - lo
      ensures Deletable(nodes, kids[lo..hi][j])
    {
      assert kids[lo..hi][j] == kids[lo + j];
    }
    NoMembers(u);
  }

  /** The count of an element that sits at two positions. */
  lemma MultisetTwo(s: seq<NodeId>, i: nat, j: nat)
    requires i < j < |s|
    ensures multiset(s)[s[i]] >= 1 + (if s[i] == s[j] then 1 else 0)
  {
    assert s == s[..i] + [s[i]] + s[i + 1..j] + [s[j]] + s[j + 1..];
  }

  lemma {:induction false} DistinctCount(s: seq<NodeId>, x: NodeId)
    requires Distinct(s)
    ensures multiset(s)[x] <= 1
  {
    if |s| > 0 {
      assert s == [s[0]] + s[1..];
      forall i, j | 0 <= i < j < |s| - 1
        ensures s[1..][i] != s[1..][j]
      {
        assert s[1..][i] == s[i + 1] && s[1..][j] == s[j + 1];
      }
      DistinctCount(s[1..], x);
      forall k | 0 <= k < |s| - 1
        ensures s[1..][k] != s[0]
      {
        assert s[1..][k] == s[k + 1];
      }
    }
  }

  /** Adding a fresh element to a list without duplicates keeps it without duplicates. */
  lemma DistinctAdd(kids: seq<NodeId>, newKids: seq<NodeId>, id: NodeId)
    requires Distinct(kids) && id !in kids && multiset(newKids) == multiset(kids) + multiset{id}
    ensures Distinct(newKids)
  {
    forall i, j | 0 <= i < j < |newKids|
      ensures newKids[i] != newKids[j]
    {
      MultisetTwo(newKids, i, j);
      DistinctCount(kids, newKids[i]);
    }
  }

  lemma RemoveAtKeepsDistinct(s: seq<NodeId>, i: nat)
    requires i < |s| && Distinct(s)
    ensures Distinct(RemoveAt(s, i))
    ensures forall x :: x in RemoveAt(s, i) <==> x in s && x != s[i]
  {
    var r := RemoveAt(s, i);
    assert r == s[..i] + s[i + 1..];
    assert s == s[..i] + [s[i]] + s[i + 1..];
    InSliceIndex(s, i);
  }

  lemma InSliceIndex(s: seq<NodeId>, i: nat)
    requires i < |s| && Distinct(s)
    ensures s[i] !in s[..i] && s[i] !in s[i + 1..]
  {
    InSlice(s, i, 0, i);
    InSlice(s, i, i + 1, |s|);
    assert s[..i] == s[0..i] && s[i + 1..] == s[i + 1..|s|];
  }

  predicate Ranked(registry: map<ObjId, InspectorView>, rank: map<ObjId, nat>)
  {
    forall o :: o in registry ==> o in rank && forall c :: c in registry[o].children ==> c in rank && rank[c] < rank[o]
  }

  /** The children of `id` are distinct nodes whose Qt parent is `id`. */
  predicate KidsOk(nodes: map<NodeId, Node>, id: NodeId)
    requires id in nodes
  {
    Distinct(nodes[id].children) &&
    forall c :: c in nodes[id].children ==> c in nodes && nodes[c].parent == Some(id)
  }

  /** The Qt parent of `id` is a node nearer the top. */
  ghost predicate ParentOk(nodes: map<NodeId, Node>, depth: map<NodeId, nat>, id: NodeId)
    requires id in nodes
  {
    nodes[id].parent.Some? ==>
      var p := nodes[id].parent.value;
      p in nodes && id in depth && p in depth && depth[p] < depth[id]
  }

  /** The arena is a forest: the root has no parent, identities are below the next fresh one,
    * children lists point back at their parent, and parents are nearer the top. */
  ghost predicate Tree(nodes: map<NodeId, Node>, root: NodeId, nextId: NodeId, depth: map<NodeId, nat>)
  {
    && root in nodes && nodes[root].parent.None?
    && (forall id :: id in nodes ==> id < nextId && id in depth)
    && (forall id, c :: id in nodes && c in nodes[id].children ==> c in nodes)
    && (forall id {:trigger KidsOk(nodes, id)} :: id in nodes ==> KidsOk(nodes, id))
    && (forall id {:trigger ParentOk(nodes, depth, id)} :: id in nodes ==> ParentOk(nodes, depth, id))
  }

  /** A fresh node appended to or inserted among the children of `p` keeps the forest. */
  lemma TreeInsert(nodes: map<NodeId, Node>, root: NodeId, nextId: NodeId, depth: map<NodeId, nat>,
                   p: NodeId, n: Node, newKids: seq<NodeId>)
    requires Tree(nodes, root, nextId, depth) && p in nodes
    requires n.parent == Some(p) && n.children == []
    requires Distinct(newKids) && forall x :: x in newKids <==> x in nodes[p].children || x == nextId
    ensures Tree(nodes[p := nodes[p].(children := newKids)][nextId := n], root, nextId + 1, depth[nextId := depth[p] + 1])
  {
    var nodes' := nodes[p := nodes[p].(children := newKids)][nextId := n];
    var depth' := depth[nextId := depth[p] + 1];
    assert nextId !in nodes;
    forall k | k in nodes'
      ensures KidsOk(nodes', k) && ParentOk(nodes', depth', k)
    {
      if k != nextId {
        assert KidsOk(nodes, k) && ParentOk(nodes, depth, k);
      }
    }
  }

  /** `objectName()` of an object: empty when never named. */
  function ObjectName(names: map<ObjId, string>, o: ObjId): string
  {
    if o in names then names[o] else ""
  }

  /** Renaming a node keeps the forest: names take no part in its shape. */
  lemma TreeRenamed(nodes: map<NodeId, Node>, root: NodeId, nextId: NodeId, depth: map<NodeId, nat>,
                    n: NodeId, name: string)
    requires Tree(nodes, root, nextId, depth) && n in nodes
    ensures Tree(nodes[n := nodes[n].(name := name)], root, nextId, depth)
  {
    var m := nodes[n := nodes[n].(name := name)];
    forall k | k in m ensures KidsOk(m, k) && ParentOk(m, depth, k) {
      assert KidsOk(nodes, k) && ParentOk(nodes, depth, k);
    }
  }

  /** The arena after `remove_child(row, destroy)` on `p`: the row leaves the children list,
    * and a destroyed child also leaves the Qt tree. */
  function Detached(nodes: map<NodeId, Node>, p: NodeId, row: nat, destroy: bool): map<NodeId, Node>
    requires p in nodes && row < |nodes[p].children|
  {
    var c := nodes[p].children[row];
    var n1 := nodes[p := nodes[p].(children := RemoveAt(nodes[p].children, row))];
    if destroy && c in n1 then n1[c := n1[c].(parent := None)] else n1
  }

  /** The same nodes, each with the same object, name, flags and inspector. */
  predicate Retained(was: map<NodeId, Node>, now: map<NodeId, Node>)
  {
    now.Keys == was.Keys && forall k :: k in was ==> SameNode(now[k], was[k])
  }

  /** Every node other than `p` has the children it had. */
  predicate ChildrenKept(was: map<NodeId, Node>, now: map<NodeId, Node>, p: NodeId)
  {
    forall k :: k in was && k != p ==> k in now && now[k].children == was[k].children
  }

  /** `remove_child` changes only the children of `p` and the Qt parent of the child. */
  lemma DetachedFacts(was: map<NodeId, Node>, nodes: map<NodeId, Node>, p: NodeId, row: nat, destroy: bool)
    requires p in nodes && row < |nodes[p].children|
    requires Retained(was, nodes) && ChildrenKept(was, nodes, p)
    ensures Retained(was, Detached(nodes, p, row, destroy))
    ensures ChildrenKept(was, Detached(nodes, p, row, destroy), p)
    ensures Detached(nodes, p, row, destroy)[p].children == RemoveAt(nodes[p].children, row)
  {
  }

  /** The arena once `removeRows` has visited the rows `[lo, hi)` of `p`, from the top down:
    * each visited row whose child is deletable is removed and the child destroyed. */
  function Sweep(was: map<NodeId, Node>, p: NodeId, lo: int, hi: int): (r: map<NodeId, Node>)
    requires p in was
    ensures r.Keys == was.Keys
    decreases hi - lo
  {
    if lo >= hi then was
    else
      var m := Sweep(was, p, lo + 1, hi);
      if 0 <= lo < |m[p].children| && Deletable(m, m[p].children[lo]) then Detached(m, p, lo, true) else m
  }

  /** After the visit the children of `p` are `Kept`, every node keeps its contents, and the
    * other nodes keep their children. */
  lemma {:induction false} SweepKept(was: map<NodeId, Node>, p: NodeId, lo: int, hi: int)
    requires p in was
    ensures Sweep(was, p, lo, hi)[p].children == Kept(was[p].children, lo, hi, was)
    ensures Retained(was, Sweep(was, p, lo, hi)) && ChildrenKept(was, Sweep(was, p, lo, hi), p)
    decreases hi - lo
  {
    var kids := was[p].children;
    if lo >= hi {
      var a := Clip(lo, |kids|);
      var b := Clip(hi, |kids|);
      if a <= b {
        assert a == b && kids[a..b] == [];
        assert kids[..a] + kids[b..] == kids;
      }
    } else {
      SweepKept(was, p, lo + 1, hi);
      var m := Sweep(was, p, lo + 1, hi);
      RemoveRowsStep(kids, lo, hi, was, m, m[p].children);
      if 0 <= lo < |m[p].children| && Deletable(m, m[p].children[lo]) {
        DetachedFacts(was, m, p, lo, true);
      }
    }
  }

  /** One row of the visit, on the arena `m` the rows above left: the row's child goes exactly
    * when the original child at that row is deletable, and the rows all hold deletable
    * children exactly when this one does and the rows above do. */
  lemma SweepStep(was: map<NodeId, Node>, p: NodeId, lo: int, hi: int, m: map<NodeId, Node>)
    requires p in was && lo < hi && m == Sweep(was, p, lo + 1, hi)
    ensures p in m
    ensures (0 <= lo < |m[p].children| && Deletable(m, m[p].children[lo])) <==>
              (0 <= lo < |was[p].children| && Deletable(was, was[p].children[lo]))
    ensures 0 <= lo < |m[p].children| && Deletable(m, m[p].children[lo]) ==>
              Sweep(was, p, lo, hi) == Detached(m, p, lo, true)
    ensures !(0 <= lo < |m[p].children| && Deletable(m, m[p].children[lo])) ==> Sweep(was, p, lo, hi) == m
    ensures AllDeletable(was[p].children, lo, hi, was) <==>
              (0 <= lo < |was[p].children| && Deletable(was, was[p].children[lo])) &&
              AllDeletable(was[p].children, lo + 1, hi, was)
  {
    SweepKept(was, p, lo + 1, hi);
    RemoveRowsStep(was[p].children, lo, hi, was, m, m[p].children);
  }

  /** Taking row `row` out of the children of `p`, and detaching the child when it is
    * destroyed, keeps the forest. */
  lemma TreeRemove(nodes: map<NodeId, Node>, root: NodeId, nextId: NodeId, depth: map<NodeId, nat>,
                   p: NodeId, row: nat, destroy: bool)
    requires Tree(nodes, root, nextId, depth) && p in nodes && row < |nodes[p].children|
    ensures Tree(Detached(nodes, p, row, destroy), root, nextId, depth)
  {
    var n2 := Detached(nodes, p, row, destroy);
    forall k | k in n2
      ensures KidsOk(n2, k) && ParentOk(n2, depth, k)
    {
      DetachedNodeOk(nodes, root, nextId, depth, p, row, destroy, k);
    }
  }

  /** One node of the forest after `Detached`: its children and its parent are consistent. */
  lemma DetachedNodeOk(nodes: map<NodeId, Node>, root: NodeId, nextId: NodeId, depth: map<NodeId, nat>,
                       p: NodeId, row: nat, destroy: bool, k: NodeId)
    requires Tree(nodes, root, nextId, depth) && p in nodes && row < |nodes[p].children|
    requires k in Detached(nodes, p, row, destroy)
    ensures KidsOk(Detached(nodes, p, row, destroy), k) && ParentOk(Detached(nodes, p, row, destroy), depth, k)
  {
    var kids := nodes[p].children;
    var c := kids[row];
    assert KidsOk(nodes, p) && c in kids && ParentOk(nodes, depth, c);
    var n2 := Detached(nodes, p, row, destroy);
    assert KidsOk(nodes, k) && ParentOk(nodes, depth, k);
    if k == p {
      RemoveAtKeepsDistinct(kids, row);
    } else {
      forall d | d in n2[k].children
        ensures d in n2 && n2[d].parent == Some(k)
      {
        assert nodes[d].parent == Some(k) && nodes[c].parent == Some(p);
      }
    }
  }

  class PlotsModel {
    var nodes: map<NodeId, Node>
    const root: NodeId
    /** Objects not destroyed. */
    var live: set<ObjId>
    /** Object names. */
    var objectNames: map<ObjId, string>
    /** The inspector registry: what each inspected object's inspector answers. */
    const registry: map<ObjId, InspectorView>
    /** A rank under which every inspector child sits below its parent object (the Qt object
      * tree has no cycles). */
    ghost const rank: map<ObjId, nat>
    /** The next fresh node identity. */
    var nextId: NodeId
    /** The `childrenDestroyed(parent, row)` signals emitted so far. */
    var destroyedSignals: seq<(NodeId, int)>
    /** Distance from a node to the top of its Qt parent chain. */
    ghost var depth: map<NodeId, nat>

    ghost predicate Valid()
      reads this
    {
      Tree(nodes, root, nextId, depth) && Ranked(registry, rank)
    }

    /** The constructor: a root node wrapping the model itself, named "Root Node". */
    constructor (self: ObjId, objects: set<ObjId>, names: map<ObjId, string>, inspectors: map<ObjId, InspectorView>,
                 ghost ranks: map<ObjId, nat>)
      requires Ranked(inspectors, ranks)
      ensures Valid() && root == 0
      ensures nodes == map[0 := Node(Some(self), "Root Node", None, [], true, None)]
      ensures live == objects && registry == inspectors && destroyedSignals == []
      ensures objectNames == names[self := "Root Node"]
    {
      root := 0;
      nodes := map[0 := Node(Some(self), "Root Node", None, [], true, None)];
      live, registry, objectNames := objects, inspectors, names[self := "Root Node"];
      rank := ranks;
      nextId := 1;
      destroyedSignals := [];
      depth := map[0 := 0];
    }

    /** The node `PlotsModelNode(obj, parent)` builds: named after its object, with the
      * object's inspector, and deletable as that inspector says (true without one). */
    function NewNode(obj: ObjId, p: NodeId): (n: Node)
      reads this
      ensures n.parent == Some(p) && n.children == [] && n.obj == Some(obj)
      ensures n.inspector.Some? <==> obj in registry
      ensures obj in registry ==> n.inspector == Some(registry[obj]) && n.deletable == registry[obj].deletable
      ensures obj !in registry ==> n.deletable
      ensures n.name == if obj in objectNames then objectNames[obj] else ""
    {
      var name := if obj in objectNames then objectNames[obj] else "";
      if obj in registry then Node(Some(obj), name, Some(p), [], registry[obj].deletable, Some(registry[obj]))
      else Node(Some(obj), name, Some(p), [], true, None)
    }

    /** `insert_child(obj, row)`: a new node, appended for row -1 and inserted at `row`
      * otherwise (`QList::insert` demands a row in `[0, size]`). */
    method InsertChild(p: NodeId, obj: ObjId, row: int) returns (id: NodeId)
      requires Valid() && p in nodes && (row == -1 || 0 <= row <= |nodes[p].children|)
      modifies this
      ensures Valid()
      ensures id !in old(nodes)
      ensures nodes == old(nodes)[p := old(nodes[p]).(children := InsertedKids(old(nodes[p].children), row, id))]
                                 [id := old(NewNode(obj, p))]
      ensures live == old(live) && objectNames == old(objectNames)
      ensures destroyedSignals == old(destroyedSignals)
    {
      id := nextId;
      var n := NewNode(obj, p);
      var kids := nodes[p].children;
      assert KidsOk(nodes, p) && id !in nodes;
      var newKids := InsertedKids(kids, row, id);
      InsertedMembers(kids, row, id, newKids);
      TreeInsert(nodes, root, nextId, depth, p, n, newKids);
      depth := depth[id := depth[p] + 1];
      nodes := nodes[p := nodes[p].(children := newKids)][id := n];
      nextId := nextId + 1;
    }

    /** `contains(obj)`: some child holds `obj`. */
    predicate HasChildHolding(p: NodeId, obj: ObjId)
      requires p in nodes
      reads this
    {
      HoldingChild(nodes, p, live, obj)
    }

    /** `child_row(QObject*)`: the first child holding `obj`, or -1. */
    method ChildRowOf(p: NodeId, obj: ObjId) returns (r: int)
      requires Valid() && p in nodes
      ensures -1 <= r < |nodes[p].children|
      ensures r >= 0 ==> Holds(nodes[nodes[p].children[r]], live, obj)
      ensures r >= 0 ==> forall j :: 0 <= j < r ==> !Holds(nodes[nodes[p].children[j]], live, obj)
      ensures r == -1 <==> !HasChildHolding(p, obj)
    {
      var kids := nodes[p].children;
      assert KidsOk(nodes, p);
      for i := 0 to |kids|
        invariant forall j :: 0 <= j < i ==> !Holds(nodes[kids[j]], live, obj)
      {
        assert kids[i] in kids;
        if Holds(nodes[kids[i]], live, obj) {
          return i;
        }
      }
      return -1;
    }

    /** `contains(obj)`, the loop. */
    method Contains(p: NodeId, obj: ObjId) returns (b: bool)
      requires Valid() && p in nodes
      ensures b <==> HasChildHolding(p, obj)
    {
      var kids := nodes[p].children;
      assert KidsOk(nodes, p);
      for i := 0 to |kids|
        invariant forall j :: 0 <= j < i ==> !Holds(nodes[kids[j]], live, obj)
      {
        assert kids[i] in kids;
        if Holds(nodes[kids[i]], live, obj) {
          return true;
        }
      }
      return false;
    }

    /** `child_node(name)`: the first child with that name, else null. */
    method ChildNode(p: NodeId, name: string) returns (r: Option<NodeId>)
      requires Valid() && p in nodes
      ensures r.Some? ==> exists i :: 0 <= i < |nodes[p].children| && nodes[p].children[i] == r.value &&
                            nodes[r.value].name == name &&
                            forall j :: 0 <= j < i ==> nodes[nodes[p].children[j]].name != name
      ensures r.None? ==> forall c :: c in nodes[p].children ==> nodes[c].name != name
    {
      var kids := nodes[p].children;
      assert KidsOk(nodes, p);
      for i := 0 to |kids|
        invariant forall j :: 0 <= j < i ==> nodes[kids[j]].name != name
      {
        assert kids[i] in kids;
        if nodes[kids[i]].name == name {
          return Some(kids[i]);
        }
      }
      return None;
    }

    /** `remove_child(row, destroy)`: false and no change for a row outside the list; otherwise
      * that row is removed, and when `destroy` is set the child is deleted (it leaves the Qt
      * tree) and `childrenDestroyed` is emitted. */
    method RemoveChild(p: NodeId, row: int, destroy: bool) returns (ok: bool)
      requires Valid() && p in nodes
      modifies this
      ensures Valid()
      ensures ok <==> 0 <= row < |old(nodes[p].children)|
      ensures !ok ==> nodes == old(nodes) && destroyedSignals == old(destroyedSignals)
      ensures ok ==> nodes == Detached(old(nodes), p, row, destroy)
      ensures ok ==> destroyedSignals == old(destroyedSignals) + (if destroy then [(p, row)] else [])
      ensures live == old(live) && objectNames == old(objectNames) && nextId == old(nextId)
      ensures nodes.Keys == old(nodes.Keys)
    {
      if row < 0 || row >= |nodes[p].children| {
        return false;
      }
      var kids := nodes[p].children;
      var child := kids[row];
      TreeRemove(nodes, root, nextId, depth, p, row, destroy);
      nodes := Detached(nodes, p, row, destroy);
      if destroy {
        destroyedSignals := destroyedSignals + [(p, row)];
      }
      ok := true;
    }

    /** `_root_node()`: follows Qt parents up to a node without one. */
    method RootNode(n: NodeId) returns (r: NodeId)
      requires Valid() && n in nodes
      ensures r in nodes && nodes[r].parent.None?
      ensures r == n || depth[r] < depth[n]
    {
      r := n;
      while nodes[r].parent.Some?
        invariant r in nodes && r in depth && (r == n || depth[r] < depth[n])
        decreases depth[r]
      {
        assert ParentOk(nodes, depth, r);
        r := nodes[r].parent.value;
      }
    }

    /** `rowCount(parent)`: 0 below a column beyond the first, otherwise the number of children
      * of the parent node, the root for an invalid index. */
    function RowCount(parent: ModelIndex): (c: nat)
      requires Valid() && (parent.Index? ==> parent.node.Some? && parent.node.value in nodes)
      reads this
      ensures Column(parent) > 0 ==> c == 0
      ensures parent.Invalid? ==> c == |nodes[root].children|
      ensures parent.Index? && parent.column <= 0 ==> c == |nodes[parent.node.value].children|
    {
      if Column(parent) > 0 then 0
      else if parent.Invalid? then |nodes[root].children|
      else |nodes[parent.node.value].children|
    }

    /** `data(index, role)`. */
    function Data(index: ModelIndex, role: Role): (v: Variant)
      requires Valid() && (index.Index? ==> index.node.Some? && index.node.value in nodes)
      reads this
      ensures index.Invalid? || role.OtherRole? ==> v == VInvalid
      ensures index.Index? && (role == DisplayRole || role == UserRole) ==> v == VName(nodes[index.node.value].name)
      ensures index.Index? && role == DecorationRole ==> v == VIcon(Decorated(nodes[index.node.value], live))
      ensures index.Index? && role == ToolTipRole ==> v == VToolTip(Decorated(nodes[index.node.value], live))
    {
      if index.Invalid? then VInvalid
      else
        var n := nodes[index.node.value];
        match role
        case DisplayRole => VName(n.name)
        case UserRole => VName(n.name)
        case DecorationRole => VIcon(Decorated(n, live))
        case ToolTipRole => VToolTip(Decorated(n, live))
        case OtherRole(_) => VInvalid
    }

    /** `flags(index)`: enabled for an invalid index, the node's flags for an index carrying a
      * node, and Qt's default (enabled and selectable) for a valid index without one. */
    function Flags(index: ModelIndex): (f: set<ItemFlag>)
      requires Valid() && (index.Index? && index.node.Some? ==> index.node.value in nodes)
      reads this
      ensures index.Invalid? ==> f == {ItemIsEnabled}
      ensures index.Index? && index.node.Some? ==> f == NodeFlags(nodes[index.node.value])
      ensures index.Index? && index.node.None? ==> f == {ItemIsEnabled, ItemIsSelectable}
    {
      if index.Invalid? then {ItemIsEnabled}
      else if index.node.Some? then NodeFlags(nodes[index.node.value])
      else {ItemIsEnabled, ItemIsSelectable}
    }

    /** `index(row, column, parent)`: a valid index exactly for an existing row of the parent
      * node (the root for an invalid parent) in the model's single column; it carries that
      * child. */
    function IndexAt(row: int, column: int, parent: ModelIndex): (i: ModelIndex)
      requires Valid() && (parent.Index? ==> parent.node.Some? && parent.node.value in nodes)
      reads this
      ensures i.Index? <==> 0 <= row < RowCount(parent) && column == 0
      ensures i.Index? ==>
                i.row == row && i.column == 0 && i.node == Some(nodes[ParentNode(parent)].children[row])
    {
      if 0 <= row && 0 <= column && row < RowCount(parent) && column < 1 then
        Index(row, column, Child(nodes[ParentNode(parent)], row))
      else Invalid
    }

    /** The node an index stands for as a parent: the root for an invalid index. */
    function ParentNode(parent: ModelIndex): NodeId
      requires parent.Index? ==> parent.node.Some?
      reads this
    {
      if parent.Invalid? then root else parent.node.value
    }

    /** `parent(index)`: invalid for an invalid index or a node without a Qt parent; otherwise
      * the parent node, at its row under the grandparent (-1 once it is no longer listed there)
      * or at row 0 when it has no parent itself. */
    function ParentIndex(index: ModelIndex): (r: ModelIndex)
      requires Valid() && (index.Index? ==> index.node.Some? && index.node.value in nodes)
      reads this
      ensures r.Index? <==> index.Index? && nodes[index.node.value].parent.Some?
      ensures r.Index? ==>
                var p := nodes[index.node.value].parent.value;
                p in nodes && r.node == Some(p) && r.column == 0 &&
                (nodes[p].parent.None? ==> r.row == 0) &&
                (nodes[p].parent.Some? ==> nodes[p].parent.value in nodes && r.row == ChildRow(nodes[nodes[p].parent.value], p))
    {
      if index.Invalid? || nodes[index.node.value].parent.None? then Invalid
      else
        assert ParentOk(nodes, depth, index.node.value);
        var p := nodes[index.node.value].parent.value;
        if nodes[p].parent.Some? then
          assert ParentOk(nodes, depth, p);
          Index(ChildRow(nodes[nodes[p].parent.value], p), 0, Some(p))
        else Index(0, 0, Some(p))
    }

    /** `make_index(node)`: invalid for no node; otherwise the node at its row under its Qt
      * parent, under the root for a top node other than the root (-1 when not listed there),
      * and at row 0 for the root. */
    function MakeIndex(node: Option<NodeId>): (r: ModelIndex)
      requires Valid() && (node.Some? ==> node.value in nodes)
      reads this
      ensures r.Invalid? <==> node.None?
      ensures r.Index? ==> r.node == node && r.column == 0
      ensures node.Some? && nodes[node.value].parent.Some? ==>
                nodes[node.value].parent.value in nodes && r.row == ChildRow(nodes[nodes[node.value].parent.value], node.value)
      ensures node.Some? && nodes[node.value].parent.None? && node.value != root ==>
                r.row == ChildRow(nodes[root], node.value)
      ensures node == Some(root) ==> r.row == 0
    {
      if node.None? then Invalid
      else if nodes[node.value].parent.Some? then
        assert ParentOk(nodes, depth, node.value);
        Index(ChildRow(nodes[nodes[node.value].parent.value], node.value), 0, node)
      else if node.value != root then Index(ChildRow(nodes[root], node.value), 0, node)
      else Index(0, 0, node)
    }

    /** `object(index)`: the object of the index's node while it lives, null otherwise. */
    function ObjectAt(index: ModelIndex): (o: Option<ObjId>)
      requires index.Index? && index.node.Some? ==> index.node.value in nodes
      reads this
      ensures o.Some? <==> index.Index? && index.node.Some? && Object(nodes[index.node.value], live).Some?
      ensures o.Some? ==> nodes[index.node.value].obj == o && o.value in live
    {
      if index.Index? && index.node.Some? then Object(nodes[index.node.value], live) else None
    }

    /** `setName(name)`: the node takes the name, and a live object named otherwise is renamed
      * to it. Nothing else changes. */
    method SetName(n: NodeId, name: string)
      requires Valid() && n in nodes
      modifies this
      ensures Valid()
      ensures nodes == old(nodes)[n := old(nodes[n]).(name := name)]
      ensures var o := old(nodes[n].obj);
        if o.Some? && o.value in old(live) && ObjectName(old(objectNames), o.value) != name
        then objectNames == old(objectNames)[o.value := name] else objectNames == old(objectNames)
      ensures live == old(live) && nextId == old(nextId) && destroyedSignals == old(destroyedSignals)
    {
      TreeRenamed(nodes, root, nextId, depth, n, name);
      var o := nodes[n].obj;
      nodes := nodes[n := nodes[n].(name := name)];
      if o.Some? && o.value in live && ObjectName(objectNames, o.value) != name {
        objectNames := objectNames[o.value := name];
      }
    }

    /** Only the children lists and Qt parents changed. */
    twostate predicate SameContents()
      reads this
    {
      && Retained(old(nodes), nodes) && live == old(live) && objectNames == old(objectNames)
      && nextId == old(nextId)
    }

    /** The loop of `removeRows` over the rows `[lo, hi)` of `p`, from the top down: each
      * deletable child is removed and destroyed; the result says whether all were. */
    method SweepRows(p: NodeId, lo: int, hi: int) returns (result: bool)
      requires Valid() && p in nodes
      modifies this
      ensures Valid() && p in old(nodes)
      ensures live == old(live) && objectNames == old(objectNames) && nextId == old(nextId)
      ensures nodes == Sweep(old(nodes), p, lo, hi)
      ensures result <==> AllDeletable(old(nodes[p].children), lo, hi, old(nodes))
    {
      result := true;
      ghost var was := nodes;
      var index := hi - 1;
      while index >= lo
        invariant Valid() && p in nodes && (hi <= lo || lo - 1 <= index)
        invariant live == old(live) && objectNames == old(objectNames) && nextId == old(nextId)
        invariant hi <= lo ==> nodes == was && result
        invariant hi > lo ==> nodes == Sweep(was, p, index + 1, hi)
        invariant hi > lo ==> (result <==> AllDeletable(was[p].children, index + 1, hi, was))
        decreases index - lo + 1
      {
        SweepStep(was, p, index, hi, nodes);
        ghost var take := 0 <= index < |nodes[p].children| && Deletable(nodes, nodes[p].children[index]);
        ghost var next := Sweep(was, p, index, hi);
        ghost var allNext := AllDeletable(was[p].children, index, hi, was);
        var child := Child(nodes[p], index);
        assert KidsOk(nodes, p);
        assert (child.Some? && nodes[child.value].deletable) == take;
        if child.Some? && nodes[child.value].deletable {
          var ok := RemoveChild(p, index, true);
          assert nodes == next;
        } else {
          result := false;
          assert nodes == next;
        }
        assert result == allNext;
        index := index - 1;
      }
      if hi <= lo {
        assert Sweep(was, p, lo, hi) == was;
      }
    }

    /** `removeRows(row, count, parent)`: from the highest row down, each deletable child is
      * removed and destroyed; a missing or undeletable one makes the result false. A parent
      * without a node removes nothing and succeeds. What the sweep leaves is `SweepKept`. */
    method RemoveRows(row: int, count: int, parent: ModelIndex) returns (result: bool)
      requires Valid() && (parent.Index? && parent.node.Some? ==> parent.node.value in nodes)
      modifies this
      ensures Valid() && live == old(live) && objectNames == old(objectNames) && nextId == old(nextId)
      ensures parent.Invalid? || parent.node.None? ==>
                result && nodes == old(nodes) && destroyedSignals == old(destroyedSignals)
      ensures parent.Index? && parent.node.Some? ==>
                nodes == Sweep(old(nodes), parent.node.value, row, row + count)
      ensures parent.Index? && parent.node.Some? ==>
                (result <==> AllDeletable(old(nodes[parent.node.value].children), row, row + count, old(nodes)))
    {
      if parent.Invalid? || parent.node.None? {
        return true;
      }
      result := SweepRows(parent.node.value, row, row + count);
    }

    /** `removeRow(row, parent)`: `removeRows(row, 1, parent)`. */
    method RemoveRow(row: int, parent: ModelIndex) returns (result: bool)
      requires Valid() && (parent.Index? && parent.node.Some? ==> parent.node.value in nodes)
      modifies this
      ensures Valid() && SameContents()
      ensures parent.Index? && parent.node.Some? ==>
                var p := parent.node.value;
                (result <==> 0 <= row < |old(nodes[p].children)| && Deletable(old(nodes), old(nodes[p].children)[row]))
      ensures parent.Index? && parent.node.Some? && result ==>
                var p := parent.node.value;
                nodes[p].children == RemoveAt(old(nodes[p].children), row)
    {
      ghost var was := nodes;
      result := RemoveRows(row, 1, parent);
      if parent.Index? && parent.node.Some? {
        var p := parent.node.value;
        ghost var swept := Sweep(was, p, row, row + 1);
        assert nodes == swept;
        SweepKept(was, p, row, row + 1);
        assert Retained(was, swept);
        AllDeletableStep(was[p].children, row, row + 1, was);
        if result {
          KeptAllDeletable(was[p].children, row, row + 1, was);
        }
      }
    }

    ghost function Rank(o: ObjId): nat
    {
      if o in rank then rank[o] else 0
    }

    /** `addNode(parent, obj)`: appends a node for `obj` under `parent` and, when the object has an
      * inspector, a node per inspector child below it, recursively and in order. */
    method AddNode(p: NodeId, obj: ObjId) returns (id: NodeId)
      requires Valid() && p in nodes
      modifies this
      ensures Valid()
      ensures id !in old(nodes) && id in nodes && Grown(old(nodes), nodes, p)
      ensures nodes[p] == old(nodes[p]).(children := old(nodes[p].children) + [id])
      ensures nodes[id].obj == Some(obj) && nodes[id].parent == Some(p)
      ensures obj !in registry ==> nodes[id].children == []
      ensures obj in registry ==> Mirrors(nodes, id, registry[obj].children, |registry[obj].children|)
      ensures live == old(live) && objectNames == old(objectNames) && destroyedSignals == old(destroyedSignals)
      decreases Rank(obj)
    {
      ghost var was := nodes;
      id := InsertChild(p, obj, -1);
      assert InsertedKids(was[p].children, -1, id) == was[p].children + [id];
      assert Grown(was, nodes, p);
      if nodes[id].inspector.Some? {
        var kids := registry[obj].children;
        for i := 0 to |kids|
          invariant Valid() && p in nodes && id in nodes && id !in was && Grown(was, nodes, p)
          invariant nodes[p] == was[p].(children := was[p].children + [id])
          invariant nodes[id].obj == Some(obj) && nodes[id].parent == Some(p)
          invariant Mirrors(nodes, id, kids, i)
          invariant live == old(live) && objectNames == old(objectNames) && destroyedSignals == old(destroyedSignals)
        {
          ghost var before := nodes;
          assert kids[i] in kids;
          var c := AddNode(id, kids[i]);
          AddNodeStep(was, before, nodes, p, id, c, kids, i);
        }
      }
    }

    /** Removes, through `removeRows`, each child of `n` in `doomed` (only the deletable ones
      * go), visiting the children as they were on entry. */
    method RemoveChildrenIn(n: NodeId, doomed: set<NodeId>)
      requires Valid() && n in nodes
      modifies this
      ensures Valid() && SameContents()
      ensures forall c :: c in nodes[n].children <==> c in old(nodes[n].children) && !(c in doomed && Deletable(old(nodes), c))
      ensures ChildrenKept(old(nodes), nodes, n)
    {
      ghost var was := nodes;
      var snapshot := nodes[n].children;
      assert KidsOk(nodes, n);
      assert snapshot[..0] == [];
      for i := 0 to |snapshot|
        invariant Valid() && n in nodes && live == old(live) && objectNames == old(objectNames) && nextId == old(nextId)
        invariant Retained(was, nodes) && ChildrenKept(was, nodes, n)
        invariant Remaining(nodes[n].children, snapshot, doomed, was, i)
      {
        VisitChild(n, snapshot, doomed, was, i);
      }
      assert snapshot[..|snapshot|] == snapshot;
    }

    /** One pass of the loop of `RemoveChildrenIn`: the `i`-th child of the snapshot is
      * removed when it is doomed (and deletable). */
    method VisitChild(n: NodeId, snapshot: seq<NodeId>, doomed: set<NodeId>, ghost was: map<NodeId, Node>, i: nat)
      requires Valid() && n in nodes && i < |snapshot| && Distinct(snapshot)
      requires Retained(was, nodes) && ChildrenKept(was, nodes, n)
      requires Remaining(nodes[n].children, snapshot, doomed, was, i)
      modifies this
      ensures Valid() && n in nodes && live == old(live) && objectNames == old(objectNames) && nextId == old(nextId)
      ensures Retained(was, nodes) && ChildrenKept(was, nodes, n)
      ensures Remaining(nodes[n].children, snapshot, doomed, was, i + 1)
    {
      var c := snapshot[i];
      ghost var before := nodes;
      ghost var cur := nodes[n].children;
      assert KidsOk(nodes, n);
      RemainingHas(cur, snapshot, doomed, was, i);
      var r := -1;
      if c in doomed {
        r := ChildRow(nodes[n], c);
        var _ := RemoveRows(r, 1, Index(0, 0, Some(n)));
      }
      VisitStep(was, before, nodes, n, snapshot, doomed, i, r);
    }

    /** The child's object is alive and listed. */
    predicate Listed(c: Node, newChildren: seq<ObjId>)
      reads this
    {
      Object(c, live).Some? && Object(c, live).value in newChildren
    }

    /** `updateNodeChildren()` for the node `n` that signalled: for a node other than the root
      * with an inspector, `newChildren` is what that inspector now lists. Children whose object
      * is not listed (or is gone) are removed when deletable, then each listed object no child
      * holds gets a node. For the root, the children whose object is gone are removed. */
    method UpdateNodeChildren(n: NodeId, newChildren: seq<ObjId>)
      requires Valid() && n in nodes
      modifies this
      ensures Valid() && live == old(live) && old(nodes.Keys) <= nodes.Keys && n in nodes
      ensures n != root && old(nodes[n].inspector.None?) ==> nodes == old(nodes)
      ensures n != root && old(nodes[n].inspector.Some?) ==>
                forall c :: c in old(nodes[n].children) ==>
                  (c in nodes[n].children <==> !(Deletable(old(nodes), c) && !old(Listed(nodes[c], newChildren))))
      ensures n != root && old(nodes[n].inspector.Some?) ==>
                forall c :: c in nodes[n].children && c !in old(nodes[n].children) ==>
                  c !in old(nodes) && nodes[c].obj.Some? && nodes[c].obj.value in newChildren
      ensures n != root && old(nodes[n].inspector.Some?) ==>
                forall o :: o in newChildren && o in live ==> HasChildHolding(n, o)
      ensures n == root ==>
                forall c :: c in nodes[n].children <==> (c in old(nodes[n].children) &&
                  !(Deletable(old(nodes), c) && Object(old(nodes[c]), live).None?))
    {
      ghost var was := nodes;
      var kids := nodes[n].children;
      assert KidsOk(nodes, n);
      if n != root {
        if nodes[n].inspector.Some? {
          var doomed := set c | c in kids && !Listed(nodes[c], newChildren);
          RemoveChildrenIn(n, doomed);
          ghost var mid := nodes;
          ghost var kept := nodes[n].children;
          assert nodes[n].children[..|kept|] == kept;
          for i := 0 to |newChildren|
            invariant Valid() && n in nodes && live == old(live) && Grown(mid, nodes, n)
            invariant Extended(mid, nodes, n, kept, newChildren)
            invariant HoldsAll(nodes, n, newChildren, i, live)
          {
            var o := newChildren[i];
            ghost var before := nodes;
            var has := Contains(n, o);
            var c := n;
            if !has {
              c := AddNode(n, o);
            }
            UpdateStep(mid, before, nodes, n, c, kept, newChildren, live, i, !has);
          }
          ExtendedMembers(mid, nodes, n, kept, newChildren);
        }
      } else {
        var doomed := set c | c in kids && Object(nodes[c], live).None?;
        RemoveChildrenIn(n, doomed);
      }
    }
  }

  /** `remove_child` and `removeRows` change only the children lists and Qt parents, so this
    * composes. */
  lemma Chain(a: map<NodeId, Node>, b: map<NodeId, Node>, c: map<NodeId, Node>, n: NodeId)
    requires Retained(a, b) && ChildrenKept(a, b, n) && Retained(b, c) && ChildrenKept(b, c, n)
    ensures Retained(a, c) && ChildrenKept(a, c, n)
  {
  }

  /** The children of a node while its snapshot is visited up to `i`: the snapshot's members
    * less the visited ones that were doomed and deletable. */
  ghost predicate Remaining(cur: seq<NodeId>, snapshot: seq<NodeId>, doomed: set<NodeId>, was: map<NodeId, Node>, i: nat)
    requires i <= |snapshot|
  {
    forall x :: x in cur <==> x in snapshot && !(x in doomed && Deletable(was, x) && x in snapshot[..i])
  }

  /** The next child of the snapshot is still among the children. */
  lemma RemainingHas(cur: seq<NodeId>, snapshot: seq<NodeId>, doomed: set<NodeId>, was: map<NodeId, Node>, i: nat)
    requires Distinct(snapshot) && i < |snapshot| && Remaining(cur, snapshot, doomed, was, i)
    ensures snapshot[i] in cur
  {
    InSliceIndex(snapshot, i);
  }

  /** Visiting the child at `i` of the snapshot: a doomed one sits at row `r` and that row is
    * passed to `removeRows`; any other one is kept. */
  lemma RemainingStep(snapshot: seq<NodeId>, doomed: set<NodeId>, was: map<NodeId, Node>, now: map<NodeId, Node>,
                      i: nat, cur: seq<NodeId>, next: seq<NodeId>, r: int)
    requires Distinct(snapshot) && Distinct(cur) && i < |snapshot| && Remaining(cur, snapshot, doomed, was, i)
    requires Retained(was, now)
    requires snapshot[i] !in doomed ==> next == cur
    requires snapshot[i] in doomed ==> 0 <= r < |cur| && cur[r] == snapshot[i] && next == Kept(cur, r, r + 1, now)
    ensures Remaining(next, snapshot, doomed, was, i + 1)
  {
    var c := snapshot[i];
    InSliceIndex(snapshot, i);
    assert snapshot[..i + 1] == snapshot[..i] + [c];
    if c in doomed {
      KeptOne(cur, r, now);
      assert Deletable(now, c) == Deletable(was, c);
    }
  }

  /** One child of the snapshot visited by `RemoveChildrenIn`, `after` being the arena once
    * `removeRows` ran on its row `r` when it is doomed. */
  lemma VisitStep(was: map<NodeId, Node>, before: map<NodeId, Node>, after: map<NodeId, Node>, n: NodeId,
                  snapshot: seq<NodeId>, doomed: set<NodeId>, i: nat, r: int)
    requires n in before && Distinct(snapshot) && i < |snapshot| && Distinct(before[n].children)
    requires Remaining(before[n].children, snapshot, doomed, was, i)
    requires Retained(was, before) && ChildrenKept(was, before, n)
    requires snapshot[i] in doomed ==>
               0 <= r < |before[n].children| && before[n].children[r] == snapshot[i] && after == Sweep(before, n, r, r + 1)
    requires snapshot[i] !in doomed ==> after == before
    ensures n in after && Retained(was, after) && ChildrenKept(was, after, n)
    ensures Remaining(after[n].children, snapshot, doomed, was, i + 1)
  {
    var cur := before[n].children;
    if snapshot[i] in doomed {
      SweepKept(before, n, r, r + 1);
      Chain(was, before, after, n);
    }
    RemainingStep(snapshot, doomed, was, before, i, cur, after[n].children, r);
  }

  /** Some child of `p` holds `obj`. */
  predicate HoldingChild(nodes: map<NodeId, Node>, p: NodeId, live: set<ObjId>, obj: ObjId)
    requires p in nodes
  {
    exists i :: 0 <= i < |nodes[p].children| && nodes[p].children[i] in nodes &&
                Holds(nodes[nodes[p].children[i]], live, obj)
  }

  /** The children of `n` start with `kept`; the ones after are new nodes holding listed objects. */
  predicate Extended(mid: map<NodeId, Node>, now: map<NodeId, Node>, n: NodeId, kept: seq<NodeId>, objs: seq<ObjId>)
    requires n in now
  {
    && |kept| <= |now[n].children| && now[n].children[..|kept|] == kept
    && forall j :: |kept| <= j < |now[n].children| ==>
         var d := now[n].children[j];
         d !in mid && d in now && now[d].obj.Some? && now[d].obj.value in objs
  }

  /** Every live object among the first `i` listed ones is held by a child of `n`. */
  predicate HoldsAll(now: map<NodeId, Node>, n: NodeId, objs: seq<ObjId>, i: nat, live: set<ObjId>)
    requires n in now && i <= |objs|
  {
    forall j :: 0 <= j < i && objs[j] in live ==> HoldingChild(now, n, live, objs[j])
  }

  /** One listed object visited: nothing happens when a child holds it, otherwise the new
    * node `c` holding it was appended. */
  lemma UpdateStep(mid: map<NodeId, Node>, before: map<NodeId, Node>, now: map<NodeId, Node>, n: NodeId,
                   c: NodeId, kept: seq<NodeId>, objs: seq<ObjId>, live: set<ObjId>, i: nat, added: bool)
    requires n in mid && n in before && n in now && i < |objs| && Grown(mid, before, n)
    requires Extended(mid, before, n, kept, objs)
    requires HoldsAll(before, n, objs, i, live)
    requires !added ==> now == before && HoldingChild(before, n, live, objs[i])
    requires added ==> c !in before && c in now && Grown(before, now, n) && now[c].obj == Some(objs[i])
    requires added ==> now[n] == before[n].(children := before[n].children + [c])
    ensures Grown(mid, now, n) && HoldsAll(now, n, objs, i + 1, live)
    ensures Extended(mid, now, n, kept, objs)
  {
    if added {
      var b := before[n].children;
      assert now[n].children == b + [c];
      assert (b + [c])[..|kept|] == kept;
      forall j | |kept| <= j < |now[n].children|
        ensures var d := now[n].children[j]; d !in mid && d in now && now[d].obj.Some? && now[d].obj.value in objs
      {
        if j < |b| {
          var d := b[j];
          assert now[n].children[j] == d && d !in mid && d in before && d != n;
        } else {
          assert now[n].children[j] == c;
        }
      }
      forall j | 0 <= j < i + 1 && objs[j] in live
        ensures HoldingChild(now, n, live, objs[j])
      {
        if j < i {
          var q :| 0 <= q < |b| && b[q] in before && Holds(before[b[q]], live, objs[j]);
          assert now[n].children[q] == b[q] && now[b[q]].obj == before[b[q]].obj;
        } else {
          assert now[n].children[|b|] == c && Holds(now[c], live, objs[j]);
        }
      }
    }
  }

  /** What the children of `n` are once every listed object was visited. */
  lemma ExtendedMembers(mid: map<NodeId, Node>, now: map<NodeId, Node>, n: NodeId, kept: seq<NodeId>, objs: seq<ObjId>)
    requires n in now && Extended(mid, now, n, kept, objs)
    ensures forall x :: x in kept ==> x in now[n].children
    ensures forall x :: x in now[n].children ==>
              x in kept || (x !in mid && x in now && now[x].obj.Some? && now[x].obj.value in objs)
  {
    var ch := now[n].children;
    forall x | x in kept
      ensures x in ch
    {
      var k :| 0 <= k < |kept| && kept[k] == x;
      assert ch[k] == kept[k];
    }
    forall x | x in ch
      ensures x in kept || (x !in mid && x in now && now[x].obj.Some? && now[x].obj.value in objs)
    {
      var k :| 0 <= k < |ch| && ch[k] == x;
      if k < |kept| {
        assert kept[k] == x;
      }
    }
  }
  /** Only new nodes and the node `p` may differ. */
  predicate Grown(was: map<NodeId, Node>, now: map<NodeId, Node>, p: NodeId)
  {
    was.Keys <= now.Keys && forall k :: k in was && k != p ==> now[k] == was[k]
  }

  /** The first `i` children of `id` are other nodes holding the objects `objs[..i]`, in order. */
  predicate Mirrors(nodes: map<NodeId, Node>, id: NodeId, objs: seq<ObjId>, i: nat)
    requires id in nodes && i <= |objs|
  {
    && |nodes[id].children| == i
    && forall j :: 0 <= j < i ==>
         var c := nodes[id].children[j];
         c in nodes && c != id && nodes[c].obj == Some(objs[j])
  }

  /** One inspector child added below `id`, inside the node added below `p`. */
  lemma AddNodeStep(was: map<NodeId, Node>, before: map<NodeId, Node>, now: map<NodeId, Node>,
                    p: NodeId, id: NodeId, c: NodeId, objs: seq<ObjId>, i: nat)
    requires id in before && id !in was && i < |objs|
    requires Grown(was, before, p) && Mirrors(before, id, objs, i)
    requires c !in before && c in now && id in now && Grown(before, now, id)
    requires now[id] == before[id].(children := before[id].children + [c]) && now[c].obj == Some(objs[i])
    ensures Grown(was, now, p) && Mirrors(now, id, objs, i + 1)
    ensures p in before && p != id ==> now[p] == before[p]
  {
    forall j | 0 <= j < i + 1
      ensures var d := now[id].children[j]; d in now && d != id && now[d].obj == Some(objs[j])
    {
      if j < i {
        var d := before[id].children[j];
        assert now[id].children[j] == d && d in before && d != id;
      }
    }
  }

  /** Everything of a node but its children and Qt parent. */
  predicate SameNode(a: Node, b: Node)
  {
    a.deletable == b.deletable && a.obj == b.obj && a.name == b.name && a.inspector == b.inspector
  }

  /** An index the model hands out leads back to itself through its node, and its parent is
    * the index of the node it was asked under; for a top-level row that is the root's own
    * index at row 0, not the invalid index. */
  lemma IndexRoundTrip(m: PlotsModel, row: int, parent: ModelIndex)
    requires m.Valid() && (parent.Index? ==> parent.node.Some? && parent.node.value in m.nodes)
    requires m.IndexAt(row, 0, parent).Index?
    ensures m.MakeIndex(m.IndexAt(row, 0, parent).node) == m.IndexAt(row, 0, parent)
    ensures var p := m.ParentNode(parent);
      p == m.root || m.nodes[p].parent.Some? ==> m.ParentIndex(m.IndexAt(row, 0, parent)) == m.MakeIndex(Some(p))
    ensures parent.Invalid? ==> m.ParentIndex(m.IndexAt(row, 0, parent)) == Index(0, 0, Some(m.root))
  {
    var p := m.ParentNode(parent);
    assert p in m.nodes;
    assert KidsOk(m.nodes, p);
    var kids := m.nodes[p].children;
    var c := kids[row];
    assert m.nodes[c].parent == Some(p);
    assert ChildRow(m.nodes[p], c) == row;
  }

  /** The children list `insert_child` builds: appended for row -1, inserted at `row` otherwise. */
  function InsertedKids(kids: seq<NodeId>, row: int, id: NodeId): (r: seq<NodeId>)
    requires row == -1 || 0 <= row <= |kids|
    ensures |r| == |kids| + 1
    ensures row == -1 ==> r[|kids|] == id && r[..|kids|] == kids
    ensures row != -1 ==> r[row] == id && r[..row] == kids[..row] && r[row + 1..] == kids[row..]
  {
    if row == -1 then kids + [id] else InsertAt(kids, row, id)
  }

  /** The list `insert_child` builds holds the old children and the new one, once each. */
  lemma InsertedMultiset(kids: seq<NodeId>, row: int, id: NodeId)
    requires row == -1 || 0 <= row <= |kids|
    ensures multiset(InsertedKids(kids, row, id)) == multiset(kids) + multiset{id}
  {
    if row != -1 {
      assert InsertedKids(kids, row, id) == kids[..row] + [id] + kids[row..];
      assert kids == kids[..row] + kids[row..];
    }
  }

  /** The members of the list `insert_child` builds. */
  lemma InsertedMembers(kids: seq<NodeId>, row: int, id: NodeId, newKids: seq<NodeId>)
    requires Distinct(kids) && id !in kids && (row == -1 || 0 <= row <= |kids|)
    requires newKids == InsertedKids(kids, row, id)
    ensures Distinct(newKids) && forall x :: x in newKids <==> x in kids || x == id
  {
    InsertedMultiset(kids, row, id);
    forall x
      ensures x in newKids <==> x in kids || x == id
    {
      assert x in newKids <==> x in multiset(newKids);
      assert x in kids <==> x in multiset(kids);
    }
    DistinctAdd(kids, newKids, id);
  }
}
