/** The products tree: `ProductsModelNode` (`include/Products/ProductsNode.hpp`,
  * `src/ProductsNode.cpp`) and the `ProductsModel` that owns its root and the completer's string
  * list (`src/ProductsModel.cpp`). Nodes live in an arena keyed by identity; a node's Qt parent
  * and its `m_children` list are separate fields, as in the source, where a node dropped from a
  * children list keeps its Qt parent. */
module ProductsTree {
  import opened Common
  import opened QtTypes
  import MultiPlotObjects

  type PId = nat

  /** `ProductsModelNodeType`. */
  datatype NodeType = RootType | ProductType | FolderType

  /** `QString` ordering: character by character, a proper prefix first. */
  predicate LexLess(a: string, b: string)
    decreases |a|
  {
    if |a| == 0 then |b| > 0
    else if |b| == 0 then false
    else if a[0] != b[0] then a[0] < b[0]
    else LexLess(a[1..], b[1..])
  }

  /** A `QMap<QString, QVariant>` of metadata as its entries in iteration order, each value by
    * its `toString()`: the keys are strictly ascending. */
  type Metadata = md: seq<(string, string)> | forall i :: 0 < i < |md| ==> LexLess(md[i - 1].0, md[i].0)

  /** `QIcon`: the null icon or one of the application's icons. */
  datatype Icon = NullIcon | IconOf(id: nat)

  /** One `ProductsModelNode`: its object name, `m_metadata`, `m_node_type`, Qt parent,
    * `m_children`, `m_icon` and `m_tooltip`. */
  datatype PNode = PNode(name: string, metadata: Metadata, kind: NodeType, parent: Option<PId>,
                         children: seq<PId>, icon: Icon, tooltip: string)

  /** The text of one metadata item, `key : value`. */
  function Entry(kv: (string, string)): string
  {
    kv.0 + " : " + kv.1
  }

  /** One line per metadata item, in order. */
  function MetadataLines(md: seq<(string, string)>): string
  {
    if md == [] then "" else Entry(md[0]) + "\n" + MetadataLines(md[1..])
  }

  /** The tooltip the constructor builds: the name on the first line, then the items. */
  function InitialTooltip(name: string, md: seq<(string, string)>): string
  {
    name + "\n" + MetadataLines(md)
  }

  lemma {:induction false} MetadataLinesAppend(a: seq<(string, string)>, b: seq<(string, string)>)
    ensures MetadataLines(a + b) == MetadataLines(a) + MetadataLines(b)
  {
    if a == [] {
      assert a + b == b;
    } else {
      assert (a + b)[1..] == a[1..] + b;
      MetadataLinesAppend(a[1..], b);
    }
  }

  /** Item `i` has its own line in the tooltip, after the lines of the items before it. */
  lemma TooltipHasEntry(name: string, md: seq<(string, string)>, i: nat)
    requires i < |md|
    ensures InitialTooltip(name, md) ==
            name + "\n" + MetadataLines(md[..i]) + Entry(md[i]) + "\n" + MetadataLines(md[i + 1..])
  {
    assert md == md[..i] + ([md[i]] + md[i + 1..]);
    MetadataLinesAppend(md[..i], [md[i]] + md[i + 1..]);
    assert ([md[i]] + md[i + 1..])[1..] == md[i + 1..];
  }

  /** The completer entries of the metadata items, in order. */
  function MetadataEntries(md: seq<(string, string)>): seq<string>
  {
    if md == [] then [] else MetadataEntries(md[..|md| - 1]) + [Entry(md[|md| - 1])]
  }

  /** The entries of one more item. */
  lemma MetadataEntriesSnoc(md: seq<(string, string)>, i: nat)
    requires i < |md|
    ensures MetadataEntries(md[..i + 1]) == MetadataEntries(md[..i]) + [Entry(md[i])]
  {
    assert md[..i + 1][..i] == md[..i];
  }

  /** Every child is a node of the arena. */
  predicate ChildrenIn(nodes: map<PId, PNode>, kids: seq<PId>)
  {
    forall c :: c in kids ==> c in nodes
  }

  /** Every children list points into the arena. */
  predicate Closed(nodes: map<PId, PNode>)
  {
    forall k, c :: k in nodes && c in nodes[k].children ==> c in nodes
  }

  /** `child(row)`: `QList::value(row, nullptr)`, null outside the rows. */
  function ChildAt(n: PNode, row: int): (r: Option<PId>)
    ensures r.Some? <==> 0 <= row < |n.children|
    ensures r.Some? ==> r.value == n.children[row]
  {
    if 0 <= row < |n.children| then Some(n.children[row]) else None
  }

  /** `child_row(child)`: `QList::indexOf`, -1 for a node that is not a child. */
  function ChildRow(n: PNode, c: PId): int
  {
    IndexOf(n.children, c)
  }

  /** The row of a child reads it back, and the child of a row has that row when the children
    * are distinct. */
  lemma ChildRowRoundTrip(n: PNode, c: PId, row: int)
    ensures c in n.children ==> ChildAt(n, ChildRow(n, c)) == Some(c)
    ensures c !in n.children ==> ChildRow(n, c) == -1
    ensures ((forall i, j :: 0 <= i < j < |n.children| ==> n.children[i] != n.children[j]) &&
             ChildAt(n, row).Some?) ==> ChildRow(n, ChildAt(n, row).value) == row
  {
  }

  /** The row of the first child named `name`, or -1. */
  function NamedRow(nodes: map<PId, PNode>, kids: seq<PId>, name: string): (r: int)
    requires ChildrenIn(nodes, kids)
    ensures -1 <= r < |kids|
    ensures r >= 0 ==> nodes[kids[r]].name == name && forall j :: 0 <= j < r ==> nodes[kids[j]].name != name
    ensures r == -1 <==> forall c :: c in kids ==> nodes[c].name != name
  {
    if kids == [] then -1
    else if nodes[kids[0]].name == name then 0
    else
      var k := NamedRow(nodes, kids[1..], name);
      assert forall c :: c in kids[1..] ==> c in kids;
      if k == -1 then -1 else k + 1
  }

  /** `child(name)`: the first child with that object name, else null. */
  function ChildNamed(nodes: map<PId, PNode>, kids: seq<PId>, name: string): (r: Option<PId>)
    requires ChildrenIn(nodes, kids)
    ensures r.Some? ==> r.value in kids && nodes[r.value].name == name
    ensures r.None? <==> forall c :: c in kids ==> nodes[c].name != name
  {
    var row := NamedRow(nodes, kids, name);
    if row >= 0 then Some(kids[row]) else None
  }

  /** No two children share a name. */
  predicate UniqueNames(nodes: map<PId, PNode>, kids: seq<PId>)
    requires ChildrenIn(nodes, kids)
  {
    forall i, j :: 0 <= i < j < |kids| ==> nodes[kids[i]].name != nodes[kids[j]].name
  }

  /** Among children with distinct names, the child named like child `i` is child `i`. */
  lemma ChildNamedUnique(nodes: map<PId, PNode>, kids: seq<PId>, i: nat)
    requires ChildrenIn(nodes, kids) && UniqueNames(nodes, kids) && i < |kids|
    ensures ChildNamed(nodes, kids, nodes[kids[i]].name) == Some(kids[i])
  {
    var r := NamedRow(nodes, kids, nodes[kids[i]].name);
    assert r >= 0 by { assert kids[i] in kids; }
  }

  /** The children of `kids` not named `name`, in order: what the loop of `add_child` is meant to
    * keep (as written it removes while it walks; see `AddChildLoopReadsPastEnd`). */
  function WithoutName(nodes: map<PId, PNode>, kids: seq<PId>, name: string): seq<PId>
    requires ChildrenIn(nodes, kids)
  {
    if kids == [] then []
    else
      var last := kids[|kids| - 1];
      assert forall c :: c in kids[..|kids| - 1] ==> c in kids;
      WithoutName(nodes, kids[..|kids| - 1], name) + (if nodes[last].name != name then [last] else [])
  }

  /** A child stays exactly when it is not named `name`; the kept children still have
    * distinct names, none of them `name`. */
  lemma {:induction false} WithoutNameFacts(nodes: map<PId, PNode>, kids: seq<PId>, name: string)
    requires ChildrenIn(nodes, kids)
    ensures ChildrenIn(nodes, WithoutName(nodes, kids, name))
    ensures forall x :: x in WithoutName(nodes, kids, name) <==> x in kids && nodes[x].name != name
    ensures UniqueNames(nodes, kids) ==> UniqueNames(nodes, WithoutName(nodes, kids, name))
    decreases |kids|
  {
    if kids != [] {
      var init := kids[..|kids| - 1];
      var last := kids[|kids| - 1];
      assert kids == init + [last];
      assert forall c :: c in init ==> c in kids;
      WithoutNameFacts(nodes, init, name);
      var w := WithoutName(nodes, init, name);
      if nodes[last].name != name && UniqueNames(nodes, kids) {
        assert UniqueNames(nodes, init) by {
          forall i, j | 0 <= i < j < |init| ensures nodes[init[i]].name != nodes[init[j]].name {
            assert init[i] == kids[i] && init[j] == kids[j];
          }
        }
        forall y | y in w ensures nodes[y].name != nodes[last].name {
          var k :| 0 <= k < |init| && init[k] == y;
          assert kids[k] == y && kids[|kids| - 1] == last;
        }
        SnocUnique(nodes, w, last);
      }
    }
  }

  /** Appending a child whose name no child has keeps the names distinct. */
  lemma SnocUnique(nodes: map<PId, PNode>, s: seq<PId>, x: PId)
    requires ChildrenIn(nodes, s) && x in nodes && UniqueNames(nodes, s)
    requires forall y :: y in s ==> nodes[y].name != nodes[x].name
    ensures ChildrenIn(nodes, s + [x]) && UniqueNames(nodes, s + [x])
  {
    var t := s + [x];
    forall i, j | 0 <= i < j < |t| ensures nodes[t[i]].name != nodes[t[j]].name {
      if j < |s| {
        assert t[i] == s[i] && t[j] == s[j];
      } else {
        assert t[i] == s[i] && s[i] in s && t[j] == x;
      }
    }
  }

  /** `_add_to_completer(value)`: a string already in the list is not added again. */
  function AddOne(list: seq<string>, value: string): seq<string>
  {
    if value in list then list else list + [value]
  }

  /** The value is listed afterwards, nothing else is gained, what was listed stays in front,
    * and no string comes twice. */
  lemma AddOneFacts(list: seq<string>, value: string)
    ensures var r := AddOne(list, value);
      && value in r
      && (forall x :: x in r <==> x in list || x == value)
      && (Unique(list) ==> Unique(r))
      && |list| <= |r| && r[..|list|] == list
  {
  }

  /** No string twice. */
  predicate Unique(list: seq<string>)
  {
    forall i, j :: 0 <= i < j < |list| ==> list[i] != list[j]
  }

  /** The completer list after `_add_to_completer` of each value in turn. */
  function AddAll(list: seq<string>, values: seq<string>): seq<string>
  {
    if values == [] then list else AddOne(AddAll(list, values[..|values| - 1]), values[|values| - 1])
  }

  /** Adding the values of `a`, then `v`. */
  lemma AddAllSnoc(list: seq<string>, a: seq<string>, v: string)
    ensures AddAll(list, a + [v]) == AddOne(AddAll(list, a), v)
  {
    assert (a + [v])[..|a + [v]| - 1] == a;
  }

  /** Adding the values of `a + b` is adding those of `a`, then those of `b`. */
  lemma {:induction false} AddAllConcat(list: seq<string>, a: seq<string>, b: seq<string>)
    ensures AddAll(list, a + b) == AddAll(AddAll(list, a), b)
    decreases |b|
  {
    if b == [] {
      assert a + b == a;
    } else {
      assert (a + b)[..|a + b| - 1] == a + b[..|b| - 1];
      AddAllConcat(list, a, b[..|b| - 1]);
    }
  }

  /** The completer keeps what it had in front, gains exactly the added values, and never
    * holds a string twice. */
  lemma {:induction false} AddAllFacts(list: seq<string>, values: seq<string>)
    ensures forall x :: x in AddAll(list, values) <==> x in list || x in values
    ensures Unique(list) ==> Unique(AddAll(list, values))
    ensures |list| <= |AddAll(list, values)| && AddAll(list, values)[..|list|] == list
    decreases |values|
  {
    if values != [] {
      var init := values[..|values| - 1];
      AddAllFacts(list, init);
      assert values == init + [values[|values| - 1]];
      var mid := AddAll(list, init);
      assert AddAll(list, values)[..|mid|] == mid;
      assert AddAll(list, values)[..|list|] == mid[..|list|];
    }
  }

  /** The node reached from `n` by following the children named `names` in turn. */
  function Lookup(nodes: map<PId, PNode>, n: PId, names: seq<string>): (r: Option<PId>)
    requires Closed(nodes) && n in nodes
    ensures r.Some? ==> r.value in nodes
    decreases |names|
  {
    if names == [] then Some(n)
    else match Lookup(nodes, n, names[..|names| - 1])
      case None => None
      case Some(m) => ChildNamed(nodes, nodes[m].children, names[|names| - 1])
  }

  /** Every prefix of a path that leads somewhere leads somewhere too. */
  lemma {:induction false} LookupPrefix(nodes: map<PId, PNode>, n: PId, names: seq<string>, j: nat)
    requires Closed(nodes) && n in nodes && j <= |names| && Lookup(nodes, n, names).Some?
    ensures Lookup(nodes, n, names[..j]).Some?
    decreases |names|
  {
    if j < |names| {
      var init := names[..|names| - 1];
      LookupPrefix(nodes, n, init, j);
      assert init[..j] == names[..j];
    } else {
      assert names[..j] == names;
    }
  }

  /** The path names of the segments `names` that do not lead anywhere, in order: the folders
    * `add_node` creates. */
  function Missing(nodes: map<PId, PNode>, n: PId, names: seq<string>): seq<string>
    requires Closed(nodes) && n in nodes
  {
    if names == [] then []
    else Missing(nodes, n, names[..|names| - 1]) + (if Lookup(nodes, n, names).None? then [names[|names| - 1]] else [])
  }

  /** One more segment: the completer gains the segment exactly when it is missing. */
  lemma MissingStep(nodes: map<PId, PNode>, root: PId, path: seq<string>, i: nat, c0: seq<string>,
                    before: seq<string>, after: seq<string>)
    requires Closed(nodes) && root in nodes && i < |path|
    requires before == AddAll(c0, Missing(nodes, root, path[..i]))
    requires after == if Lookup(nodes, root, path[..i + 1]).None? then AddOne(before, path[i]) else before
    ensures after == AddAll(c0, Missing(nodes, root, path[..i + 1]))
  {
    assert path[..i + 1][..i] == path[..i];
    if Lookup(nodes, root, path[..i + 1]).None? {
      AddAllSnoc(c0, Missing(nodes, root, path[..i]), path[i]);
    } else {
      assert Missing(nodes, root, path[..i]) + [] == Missing(nodes, root, path[..i]);
    }
  }

  /** Splitting a path of names either way. */
  lemma SeqAssoc(a: seq<string>, b: seq<string>, c: seq<string>)
    ensures a + (b + c) == a + b + c
  {
  }

  /** Finding the first child named `y` does not depend on the rest of the arena, only on the
    * names of the children looked at; children added behind a match do not change it. */
  lemma {:induction false} NamedRowExtend(before: map<PId, PNode>, after: map<PId, PNode>, kids: seq<PId>,
                                          extra: seq<PId>, y: string)
    requires ChildrenIn(before, kids) && ChildrenIn(after, kids + extra)
    requires forall c :: c in kids ==> after[c].name == before[c].name
    requires extra == [] || NamedRow(before, kids, y) >= 0
    ensures NamedRow(after, kids + extra, y) == NamedRow(before, kids, y)
    decreases |kids|
  {
    if kids == [] {
      assert kids + extra == extra;
    } else {
      assert (kids + extra)[0] == kids[0] && (kids + extra)[1..] == kids[1..] + extra;
      assert forall c :: c in kids[1..] ==> c in kids;
      assert forall c :: c in kids[1..] + extra ==> c in kids + extra;
      if before[kids[0]].name != y {
        NamedRowExtend(before, after, kids[1..], extra, y);
      }
    }
  }

  /** A new last child named `y`, when no child is, is what `child(y)` finds. */
  lemma ChildNamedNew(before: map<PId, PNode>, after: map<PId, PNode>, kids: seq<PId>, x: PId, y: string)
    requires ChildrenIn(before, kids) && ChildrenIn(after, kids + [x])
    requires forall c :: c in kids ==> after[c].name == before[c].name && before[c].name != y
    requires after[x].name == y
    ensures ChildNamed(after, kids + [x], y) == Some(x)
  {
    var t := kids + [x];
    var r := NamedRow(after, t, y);
    assert t[|kids|] == x;
    assert r >= 0 by { assert x in t; }
  }

  /** An arena that only grows, keeps its names, and changes no children list except by
    * appending to that of `p`, keeps every lookup that led somewhere. */
  lemma {:induction false} LookupGrows(before: map<PId, PNode>, after: map<PId, PNode>, r: PId, t: seq<string>,
                                       p: PId, extra: seq<PId>)
    requires Closed(before) && Closed(after) && r in before && before.Keys <= after.Keys
    requires forall k :: k in before ==> after[k].name == before[k].name
    requires forall k :: k in before && k != p ==> after[k].children == before[k].children
    requires p in before && after[p].children == before[p].children + extra
    requires Lookup(before, r, t).Some?
    ensures Lookup(after, r, t) == Lookup(before, r, t)
    decreases |t|
  {
    if t != [] {
      var init := t[..|t| - 1];
      LookupGrows(before, after, r, init, p, extra);
      var m := Lookup(before, r, init).value;
      var kids := before[m].children;
      var y := t[|t| - 1];
      assert forall c :: c in kids ==> c in before;
      if m == p {
        NamedRowExtend(before, after, kids, extra, y);
      } else {
        assert kids + [] == kids;
        NamedRowExtend(before, after, kids, [], y);
      }
    }
  }

  /** Changing the children of `f` alone keeps every lookup that never passes through `f`. */
  lemma {:induction false} LookupAvoids(before: map<PId, PNode>, after: map<PId, PNode>, r: PId, t: seq<string>, f: PId)
    requires Closed(before) && Closed(after) && r in before && before.Keys <= after.Keys
    requires forall k :: k in before ==> after[k].name == before[k].name
    requires forall k :: k in before && k != f ==> after[k].children == before[k].children
    requires forall k :: 0 <= k < |t| ==> Lookup(before, r, t[..k]) != Some(f)
    ensures Lookup(after, r, t) == Lookup(before, r, t)
    decreases |t|
  {
    if t != [] {
      var init := t[..|t| - 1];
      forall k | 0 <= k < |init| ensures Lookup(before, r, init[..k]) != Some(f) {
        assert init[..k] == t[..k];
      }
      LookupAvoids(before, after, r, init, f);
      match Lookup(before, r, init)
      case None =>
      case Some(m) =>
        var kids := before[m].children;
        assert forall c :: c in kids ==> c in before;
        assert kids + [] == kids;
        if NamedRow(before, kids, t[|t| - 1]) >= 0 {
          NamedRowExtend(before, after, kids, [], t[|t| - 1]);
        } else {
          NamedRowAbsent(before, after, kids, t[|t| - 1]);
        }
    }
  }

  /** With the same names, a name no child has stays absent. */
  lemma NamedRowAbsent(before: map<PId, PNode>, after: map<PId, PNode>, kids: seq<PId>, y: string)
    requires ChildrenIn(before, kids) && ChildrenIn(after, kids)
    requires forall c :: c in kids ==> after[c].name == before[c].name
    requires NamedRow(before, kids, y) == -1
    ensures NamedRow(after, kids, y) == -1
  {
  }

  /** Dropping no child: when no child is named `name`, `WithoutName` keeps them all. */
  lemma {:induction false} WithoutNameNone(nodes: map<PId, PNode>, kids: seq<PId>, name: string)
    requires ChildrenIn(nodes, kids)
    requires forall c :: c in kids ==> nodes[c].name != name
    ensures WithoutName(nodes, kids, name) == kids
    decreases |kids|
  {
    if kids != [] {
      var init, last := kids[..|kids| - 1], kids[|kids| - 1];
      assert forall c :: c in init ==> c in kids;
      WithoutNameNone(nodes, init, name);
      assert last in kids && nodes[last].name != name;
      assert WithoutName(nodes, kids, name) == WithoutName(nodes, init, name) + [last];
      LastSplit(kids);
    }
  }

  lemma LastSplit<T>(s: seq<T>)
    requires |s| > 0
    ensures s == s[..|s| - 1] + [s[|s| - 1]]
  {
  }

  /** The proof-only shape of the arena: the top of the tree each node is in (followed through
    * Qt parents), each node's depth, and a bound above every depth. */
  datatype Shape = Shape(treeOf: map<PId, PId>, depth: map<PId, nat>, bound: nat)

  /** Node `k`'s Qt parent is in the arena, nearer the top and in the same tree; a node with no
    * parent is the top of its own tree. */
  ghost predicate LinkOk(nodes: map<PId, PNode>, sh: Shape, k: PId)
    requires k in nodes && k in sh.treeOf && k in sh.depth
  {
    match nodes[k].parent
    case None => sh.treeOf[k] == k
    case Some(q) =>
      q in nodes && q in sh.treeOf && q in sh.depth && sh.depth[q] < sh.depth[k] && sh.treeOf[k] == sh.treeOf[q]
  }

  /** The children of `k` are nodes whose Qt parent is `k`, with distinct names. */
  predicate KidsOk(nodes: map<PId, PNode>, k: PId)
    requires k in nodes
  {
    && ChildrenIn(nodes, nodes[k].children)
    && UniqueNames(nodes, nodes[k].children)
    && forall c :: c in nodes[k].children ==> nodes[c].parent == Some(k)
  }

  /** The arena is a forest: Qt parents lead to the top of each tree, and children lists point
    * back at the parent. */
  ghost predicate Forest(nodes: map<PId, PNode>, sh: Shape)
  {
    && (forall k :: k in nodes ==> k in sh.treeOf && k in sh.depth && sh.depth[k] < sh.bound)
    && (forall k {:trigger LinkOk(nodes, sh, k)} :: k in nodes ==> LinkOk(nodes, sh, k))
    && (forall k {:trigger KidsOk(nodes, k)} :: k in nodes ==> KidsOk(nodes, k))
  }

  lemma ForestClosed(nodes: map<PId, PNode>, sh: Shape)
    requires Forest(nodes, sh)
    ensures Closed(nodes)
  {
    forall k, c | k in nodes && c in nodes[k].children ensures c in nodes {
      assert KidsOk(nodes, k);
    }
  }

  /** A child is deeper than its parent, in the same tree. */
  lemma ForestChild(nodes: map<PId, PNode>, sh: Shape, k: PId, c: PId)
    requires Forest(nodes, sh) && k in nodes && c in nodes[k].children
    ensures c in nodes && nodes[c].parent == Some(k)
    ensures sh.depth[k] < sh.depth[c] < sh.bound && sh.treeOf[c] == sh.treeOf[k]
  {
    assert KidsOk(nodes, k);
    assert LinkOk(nodes, sh, c);
  }

  /** `path()`: the names from the top of the node's tree down to the node. */
  ghost function PathOf(nodes: map<PId, PNode>, sh: Shape, n: PId): seq<string>
    requires Forest(nodes, sh) && n in nodes
    decreases sh.depth[n]
  {
    assert LinkOk(nodes, sh, n);
    match nodes[n].parent
    case None => [nodes[n].name]
    case Some(q) => PathOf(nodes, sh, q) + [nodes[n].name]
  }

  /** The path of a node starts with the name of the top of its tree and ends with its own. */
  lemma {:induction false} PathEnds(nodes: map<PId, PNode>, sh: Shape, n: PId)
    requires Forest(nodes, sh) && n in nodes
    ensures sh.treeOf[n] in nodes && nodes[sh.treeOf[n]].parent.None?
    ensures |PathOf(nodes, sh, n)| > 0 && PathOf(nodes, sh, n)[0] == nodes[sh.treeOf[n]].name
    ensures PathOf(nodes, sh, n)[|PathOf(nodes, sh, n)| - 1] == nodes[n].name
    decreases sh.depth[n]
  {
    assert LinkOk(nodes, sh, n);
    match nodes[n].parent
    case None =>
    case Some(q) => PathEnds(nodes, sh, q);
  }

  /** Following children by name from a top node, `path()` of the node reached gives back the
    * names followed. */
  lemma {:induction false} LookupPath(nodes: map<PId, PNode>, sh: Shape, r: PId, names: seq<string>)
    requires Forest(nodes, sh) && Closed(nodes) && r in nodes && nodes[r].parent.None?
    requires Lookup(nodes, r, names).Some?
    ensures PathOf(nodes, sh, Lookup(nodes, r, names).value) == [nodes[r].name] + names
    decreases |names|
  {
    assert LinkOk(nodes, sh, r);
    if names != [] {
      var init := names[..|names| - 1];
      LookupPath(nodes, sh, r, init);
      var m := Lookup(nodes, r, init).value;
      var f := Lookup(nodes, r, names).value;
      ForestChild(nodes, sh, m, f);
      assert names == init + [names[|names| - 1]];
    }
  }

  /** Along a path that leads somewhere, each step goes one level deeper. */
  lemma {:induction false} LookupDeeper(nodes: map<PId, PNode>, sh: Shape, r: PId, t: seq<string>, k: nat)
    requires Forest(nodes, sh) && Closed(nodes) && r in nodes && Lookup(nodes, r, t).Some? && k < |t|
    ensures Lookup(nodes, r, t[..k]).Some?
    ensures sh.depth[Lookup(nodes, r, t[..k]).value] < sh.depth[Lookup(nodes, r, t).value]
    decreases |t|
  {
    var init := t[..|t| - 1];
    var m := Lookup(nodes, r, init).value;
    var c := Lookup(nodes, r, t).value;
    ForestChild(nodes, sh, m, c);
    if k < |init| {
      LookupDeeper(nodes, sh, r, init, k);
      assert init[..k] == t[..k];
    } else {
      assert t[..k] == init;
    }
  }

  /** The completer entries of node `n`'s subtree, as `_add_to_completer(node)` meets them:
    * the name, the metadata items, then each child's entries in turn. */
  ghost function Entries(nodes: map<PId, PNode>, sh: Shape, n: PId): seq<string>
    requires Forest(nodes, sh) && n in nodes
    decreases sh.bound - sh.depth[n], 1
  {
    [nodes[n].name] + MetadataEntries(nodes[n].metadata) + KidsEntries(nodes, sh, n, |nodes[n].children|)
  }

  /** A node's entries are its head, then its children's entries; no child has none. */
  lemma EntriesUnfold(nodes: map<PId, PNode>, sh: Shape, n: PId)
    requires Forest(nodes, sh) && n in nodes
    ensures var head := [nodes[n].name] + MetadataEntries(nodes[n].metadata);
      && head + KidsEntries(nodes, sh, n, 0) == head
      && Entries(nodes, sh, n) == head + KidsEntries(nodes, sh, n, |nodes[n].children|)
  {
  }

  /** The entries of the first `i` children of `n`. */
  ghost function KidsEntries(nodes: map<PId, PNode>, sh: Shape, n: PId, i: nat): seq<string>
    requires Forest(nodes, sh) && n in nodes && i <= |nodes[n].children|
    decreases sh.bound - sh.depth[n], 0, i
  {
    if i == 0 then []
    else
      var c := nodes[n].children[i - 1];
      ForestChild(nodes, sh, n, c);
      KidsEntries(nodes, sh, n, i - 1) + Entries(nodes, sh, c)
  }

  /** One more child's entries. */
  lemma KidsEntriesStep(nodes: map<PId, PNode>, sh: Shape, n: PId, i: nat, head: seq<string>)
    requires Forest(nodes, sh) && n in nodes && i < |nodes[n].children|
    ensures nodes[n].children[i] in nodes
    ensures head + KidsEntries(nodes, sh, n, i + 1) ==
            (head + KidsEntries(nodes, sh, n, i)) + Entries(nodes, sh, nodes[n].children[i])
  {
    ForestChild(nodes, sh, n, nodes[n].children[i]);
  }

  /** The shape after a node `id` is created under `parent`, or as the top of a new tree. */
  function Sprouted(sh: Shape, id: PId, parent: Option<PId>): Shape
    requires parent.Some? ==> parent.value in sh.treeOf && parent.value in sh.depth
  {
    var d := if parent.Some? then sh.depth[parent.value] + 1 else 0;
    Shape(sh.treeOf[id := if parent.Some? then sh.treeOf[parent.value] else id], sh.depth[id := d],
          if d < sh.bound then sh.bound else d + 1)
  }

  /** The arena after `add_child(c)` on `n`: `n` keeps the children `kept` and gains `c` last,
    * and `c`'s Qt parent becomes `n`. */
  function Adopted(nodes: map<PId, PNode>, n: PId, c: PId, kept: seq<PId>): map<PId, PNode>
    requires n in nodes && c in nodes
  {
    nodes[n := nodes[n].(children := kept + [c])][c := nodes[c].(parent := Some(n))]
  }

  /** The shape after the tree topped by `c` is hung under `n`: its nodes join `n`'s tree, one
    * level below `n` and deeper. */
  function Attach(sh: Shape, n: PId, c: PId): Shape
    requires n in sh.treeOf && n in sh.depth
  {
    var d := sh.depth[n] + 1;
    Shape(map k | k in sh.treeOf :: if sh.treeOf[k] == c then sh.treeOf[n] else sh.treeOf[k],
          map k | k in sh.depth :: if k in sh.treeOf && sh.treeOf[k] == c then sh.depth[k] + d else sh.depth[k],
          sh.bound + d)
  }

  /** The node `add_node` creates for a missing path segment. */
  function Folder(name: string, parent: PId): PNode
  {
    PNode(name, [], FolderType, Some(parent), [], NullIcon, InitialTooltip(name, []))
  }

  /** Adopting a fresh folder under a parent with no child of its name keeps every child and
    * appends the folder. */
  lemma FreshFolderAdopted(nodes: map<PId, PNode>, parent: PId, id: PId, name: string)
    requires parent in nodes && id !in nodes && ChildrenIn(nodes, nodes[parent].children)
    requires ChildNamed(nodes, nodes[parent].children, name).None?
    ensures var n1 := nodes[id := Folder(name, parent)];
            ChildrenIn(n1, n1[parent].children) &&
            WithoutName(n1, n1[parent].children, n1[id].name) == nodes[parent].children &&
            Adopted(n1, parent, id, nodes[parent].children) ==
              nodes[id := Folder(name, parent)][parent := nodes[parent].(children := nodes[parent].children + [id])]
  {
    var n1 := nodes[id := Folder(name, parent)];
    WithoutNameNone(n1, nodes[parent].children, name);
  }

  /** A fresh childless node keeps the forest. */
  lemma NewNodeForest(nodes: map<PId, PNode>, sh: Shape, id: PId, n: PNode)
    requires Forest(nodes, sh) && id !in nodes && n.children == []
    requires n.parent.Some? ==> n.parent.value in nodes
    ensures Forest(nodes[id := n], Sprouted(sh, id, n.parent))
  {
    var now := nodes[id := n];
    var sh' := Sprouted(sh, id, n.parent);
    forall k | k in now
      ensures k in sh'.treeOf && k in sh'.depth && sh'.depth[k] < sh'.bound
      ensures LinkOk(now, sh', k) && KidsOk(now, k)
    {
      if k != id {
        assert LinkOk(nodes, sh, k) && KidsOk(nodes, k);
        assert forall x :: x in nodes[k].children ==> x != id && now[x] == nodes[x];
      }
    }
  }

  /** What `add_child` needs of its arguments for the arena to stay a forest: the child is
    * already under `n`, or tops a tree `n` is not in; the kept children are children of `n`
    * named unlike `c`. */
  ghost predicate CanAdopt(nodes: map<PId, PNode>, sh: Shape, n: PId, c: PId, kept: seq<PId>)
  {
    && Forest(nodes, sh) && n in nodes && c in nodes && n != c
    && (nodes[c].parent == Some(n) || (nodes[c].parent.None? && sh.treeOf[n] != c))
    && ChildrenIn(nodes, kept) && UniqueNames(nodes, kept)
    && forall x :: x in kept ==> x in nodes[n].children && nodes[x].name != nodes[c].name
  }

  /** The shape `add_child` leaves. */
  function AdoptShape(nodes: map<PId, PNode>, sh: Shape, n: PId, c: PId): Shape
    requires c in nodes && n in sh.treeOf && n in sh.depth
  {
    if nodes[c].parent.None? then Attach(sh, n, c) else sh
  }

  /** One node of the arena after `add_child`. */
  lemma AdoptNode(nodes: map<PId, PNode>, sh: Shape, n: PId, c: PId, kept: seq<PId>, k: PId)
    requires CanAdopt(nodes, sh, n, c, kept) && k in nodes
    ensures var now := Adopted(nodes, n, c, kept); var sh' := AdoptShape(nodes, sh, n, c);
            k in sh'.treeOf && k in sh'.depth && sh'.depth[k] < sh'.bound && LinkOk(now, sh', k)
  {
    var now := Adopted(nodes, n, c, kept);
    var sh' := AdoptShape(nodes, sh, n, c);
    assert LinkOk(nodes, sh, k) && LinkOk(nodes, sh, c) && LinkOk(nodes, sh, n);
    if nodes[c].parent.None? {
      match nodes[k].parent
      case None =>
      case Some(q) => assert LinkOk(nodes, sh, q);
    }
  }

  /** The children of `n` after `add_child`: the kept ones, then `c`. */
  lemma AdoptParentKids(nodes: map<PId, PNode>, sh: Shape, n: PId, c: PId, kept: seq<PId>)
    requires CanAdopt(nodes, sh, n, c, kept)
    ensures KidsOk(Adopted(nodes, n, c, kept), n)
  {
    var now := Adopted(nodes, n, c, kept);
    assert KidsOk(nodes, n);
    forall x | x in kept ensures x in now && now[x].parent == Some(n) && now[x].name == nodes[x].name {
      assert LinkOk(nodes, sh, x);
    }
    assert UniqueNames(now, kept) by {
      forall i, j | 0 <= i < j < |kept| ensures now[kept[i]].name != now[kept[j]].name {
        assert kept[i] in kept && kept[j] in kept;
      }
    }
    SnocUnique(now, kept, c);
  }

  /** The children of any other node after `add_child`: unchanged, and not `c`. */
  lemma AdoptOtherKids(nodes: map<PId, PNode>, sh: Shape, n: PId, c: PId, kept: seq<PId>, k: PId)
    requires CanAdopt(nodes, sh, n, c, kept) && k in nodes && k != n
    ensures KidsOk(Adopted(nodes, n, c, kept), k)
  {
    var now := Adopted(nodes, n, c, kept);
    var kids := nodes[k].children;
    assert KidsOk(nodes, k) && LinkOk(nodes, sh, c);
    assert now[k].children == kids;
    forall x | x in kids ensures x != c && x in now && now[x].parent == Some(k) && now[x].name == nodes[x].name {
      assert LinkOk(nodes, sh, x);
    }
    assert UniqueNames(now, kids) by {
      forall i, j | 0 <= i < j < |kids| ensures now[kids[i]].name != now[kids[j]].name {
        assert kids[i] in kids && kids[j] in kids;
      }
    }
  }

  /** `add_child` keeps the forest. */
  lemma AdoptForest(nodes: map<PId, PNode>, sh: Shape, n: PId, c: PId, kept: seq<PId>)
    requires CanAdopt(nodes, sh, n, c, kept)
    ensures Forest(Adopted(nodes, n, c, kept), AdoptShape(nodes, sh, n, c))
  {
    var now := Adopted(nodes, n, c, kept);
    forall k | k in now
      ensures var sh' := AdoptShape(nodes, sh, n, c);
              k in sh'.treeOf && k in sh'.depth && sh'.depth[k] < sh'.bound && LinkOk(now, sh', k) && KidsOk(now, k)
    {
      AdoptNode(nodes, sh, n, c, kept, k);
      if k == n {
        AdoptParentKids(nodes, sh, n, c, kept);
      } else {
        AdoptOtherKids(nodes, sh, n, c, kept, k);
      }
    }
  }

  /** Changing only icons and tooltips keeps the forest. */
  lemma RelabelForest(nodes: map<PId, PNode>, now: map<PId, PNode>, sh: Shape)
    requires Forest(nodes, sh) && now.Keys == nodes.Keys
    requires forall k :: k in nodes ==>
               now[k].name == nodes[k].name && now[k].parent == nodes[k].parent && now[k].children == nodes[k].children
    ensures Forest(now, sh) && Closed(now)
  {
    forall k | k in now ensures LinkOk(now, sh, k) && KidsOk(now, k) {
      assert LinkOk(nodes, sh, k) && KidsOk(nodes, k);
      assert UniqueNames(now, now[k].children);
    }
    ForestClosed(now, sh);
  }

  /** The constructor's tooltip loop: the name and a newline, then one line per item. */
  method BuildTooltip(name: string, md: seq<(string, string)>) returns (t: string)
    ensures t == InitialTooltip(name, md)
  {
    t := name + "\n";
    for i := 0 to |md|
      invariant t == name + "\n" + MetadataLines(md[..i])
    {
      assert md[..i + 1] == md[..i] + [md[i]];
      MetadataLinesAppend(md[..i], [md[i]]);
      t := t + (md[i].0 + " : " + md[i].1 + "\n");
    }
    assert md[..|md|] == md;
  }

  /** The loop of `add_child`: the children not named `name`, in order. */
  method KeepOthers(nodes: map<PId, PNode>, kids: seq<PId>, name: string) returns (kept: seq<PId>)
    requires ChildrenIn(nodes, kids)
    ensures kept == WithoutName(nodes, kids, name)
  {
    kept := [];
    for i := 0 to |kids|
      invariant ChildrenIn(nodes, kids[..i])
      invariant kept == WithoutName(nodes, kids[..i], name)
    {
      ghost var next := kids[..i + 1];
      assert next[..i] == kids[..i] && next[i] == kids[i];
      if nodes[kids[i]].name != name {
        kept := kept + [kids[i]];
      }
    }
    assert kids[..|kids|] == kids;
  }

  /** `add_child` as written calls `removeOne` on `m_children` inside the range-for over it, whose
    * end is fixed before the first removal: when a child other than the last one visited has the
    * new child's name, the loop reads past the end of the list. */
  lemma AddChildLoopReadsPastEnd(nodes: map<PId, PNode>, kids: seq<PId>, name: string)
    requires exists i :: 0 <= i < |kids| - 1 && kids[i] in nodes && nodes[kids[i]].name == name
    ensures MultiPlotObjects.RangeForRemove(kids, 0, |kids|, (k: PId) => k in nodes && nodes[k].name == name) == None
  {
    var drop := (k: PId) => k in nodes && nodes[k].name == name;
    var i :| 0 <= i < |kids| - 1 && kids[i] in nodes && nodes[kids[i]].name == name;
    assert drop(kids[i]);
    MultiPlotObjects.RangeForRemoveReadsPastEnd(kids, 0, drop);
  }

  /** Where the loop of `add_node` stands after `i` segments of `path`, starting from the arena
    * `was`: every prefix so far leads somewhere, to the node it led to in `was` when there was
    * one and to a new node otherwise; `parent` is where the first `i` segments lead. Until a
    * segment is missing nothing has changed; after that, `parent` is a new childless node. Only
    * FOLDER nodes without metadata are new, and old nodes change at most their children. */
  ghost predicate Descent(was: map<PId, PNode>, nodes: map<PId, PNode>, root: PId, path: seq<string>, i: nat, parent: PId)
  {
    && Closed(was) && Closed(nodes) && root in was && was.Keys <= nodes.Keys && i <= |path| && parent in nodes
    && (forall j :: 0 <= j <= i ==> Lookup(nodes, root, path[..j]).Some?)
    && (forall j :: 0 <= j <= i && Lookup(was, root, path[..j]).Some? ==>
          Lookup(nodes, root, path[..j]) == Lookup(was, root, path[..j]))
    && (forall j :: 0 <= j <= i && Lookup(was, root, path[..j]).None? ==>
          Lookup(nodes, root, path[..j]).value !in was)
    && Lookup(nodes, root, path[..i]) == Some(parent)
    && (Lookup(was, root, path[..i]).Some? ==> nodes == was)
    && (Lookup(was, root, path[..i]).None? ==> nodes[parent].children == [])
    && (forall k :: k in nodes && k !in was ==> nodes[k].kind == FolderType && nodes[k].metadata == [])
    && (forall k :: k in was ==> nodes[k] == was[k].(children := nodes[k].children))
  }

  /** One turn of the loop of `add_node` keeps `Descent`, and adds a folder exactly when the
    * segment is missing from `was`. */
  lemma DescentStep(was: map<PId, PNode>, before: map<PId, PNode>, after: map<PId, PNode>, root: PId,
                    path: seq<string>, i: nat, parent: PId, node: PId)
    requires Descent(was, before, root, path, i, parent) && i < |path| && Closed(after)
    requires ChildNamed(before, before[parent].children, path[i]).Some? ==>
               node == ChildNamed(before, before[parent].children, path[i]).value && after == before
    requires ChildNamed(before, before[parent].children, path[i]).None? ==>
               node !in before &&
               after == before[node := Folder(path[i], parent)][parent := before[parent].(children := before[parent].children + [node])]
    ensures Descent(was, after, root, path, i + 1, node)
    ensures Lookup(was, root, path[..i + 1]).None? <==> ChildNamed(before, before[parent].children, path[i]).None?
  {
    if ChildNamed(before, before[parent].children, path[i]).Some? {
      DescentFound(was, before, root, path, i, parent, node);
    } else {
      DescentCreated(was, before, after, root, path, i, parent, node);
    }
  }

  /** The segment is there: the loop moves down to that child and nothing changes. */
  lemma DescentFound(was: map<PId, PNode>, before: map<PId, PNode>, root: PId,
                     path: seq<string>, i: nat, parent: PId, node: PId)
    requires Descent(was, before, root, path, i, parent) && i < |path|
    requires ChildNamed(before, before[parent].children, path[i]) == Some(node)
    ensures Descent(was, before, root, path, i + 1, node)
    ensures Lookup(was, root, path[..i + 1]).Some?
  {
    var t := path[..i + 1];
    assert t[..i] == path[..i];
    assert before[parent].children != [];
    assert Lookup(was, root, path[..i]).Some?;
    assert Lookup(before, root, t) == Some(node);
  }

  /** The segment is missing: a new folder is the last child of `parent`, where the loop
    * moves down to. */
  lemma DescentCreated(was: map<PId, PNode>, before: map<PId, PNode>, after: map<PId, PNode>, root: PId,
                       path: seq<string>, i: nat, parent: PId, node: PId)
    requires Descent(was, before, root, path, i, parent) && i < |path| && Closed(after)
    requires ChildNamed(before, before[parent].children, path[i]).None? && node !in before
    requires after.Keys == before.Keys + {node} && after[node] == Folder(path[i], parent)
    requires forall k :: k in before && k != parent ==> after[k] == before[k]
    requires after[parent] == before[parent].(children := before[parent].children + [node])
    ensures Descent(was, after, root, path, i + 1, node)
    ensures Lookup(was, root, path[..i + 1]).None?
  {
    CreatedLookups(was, before, after, root, path, i, parent, node);
    forall k | k in was ensures after[k] == was[k].(children := after[k].children) {
      if k == parent {
        assert before[k] == was[k].(children := before[k].children);
      } else {
        assert after[k] == before[k];
      }
    }
    forall k | k in after && k !in was ensures after[k].kind == FolderType && after[k].metadata == [] {
      if k != node {
        assert k in before;
      }
    }
  }

  /** Where the prefixes of the path lead once the new folder is in. */
  lemma CreatedLookups(was: map<PId, PNode>, before: map<PId, PNode>, after: map<PId, PNode>, root: PId,
                       path: seq<string>, i: nat, parent: PId, node: PId)
    requires Descent(was, before, root, path, i, parent) && i < |path| && Closed(after)
    requires ChildNamed(before, before[parent].children, path[i]).None? && node !in before
    requires after.Keys == before.Keys + {node} && after[node] == Folder(path[i], parent)
    requires forall k :: k in before && k != parent ==> after[k] == before[k]
    requires after[parent] == before[parent].(children := before[parent].children + [node])
    ensures Lookup(was, root, path[..i + 1]).None?
    ensures Lookup(after, root, path[..i + 1]) == Some(node)
    ensures forall j :: 0 <= j <= i + 1 ==> Lookup(after, root, path[..j]).Some?
    ensures forall j :: 0 <= j <= i + 1 && Lookup(was, root, path[..j]).Some? ==>
              Lookup(after, root, path[..j]) == Lookup(was, root, path[..j])
    ensures forall j :: 0 <= j <= i + 1 && Lookup(was, root, path[..j]).None? ==>
              Lookup(after, root, path[..j]).value !in was
  {
    CreatedLookupWasNone(was, before, root, path, i, parent);
    CreatedLookupNew(before, after, root, path, i, parent, node);
    forall j | 0 <= j <= i + 1
      ensures Lookup(after, root, path[..j]).Some?
      ensures Lookup(was, root, path[..j]).Some? ==> Lookup(after, root, path[..j]) == Lookup(was, root, path[..j])
      ensures Lookup(was, root, path[..j]).None? ==> Lookup(after, root, path[..j]).value !in was
    {
      if j <= i {
        CreatedLookupOld(was, before, after, root, path, i, parent, node, j);
      } else {
        assert path[..j] == path[..i + 1];
      }
    }
  }

  /** The whole prefix led nowhere before the folder was created. */
  lemma CreatedLookupWasNone(was: map<PId, PNode>, before: map<PId, PNode>, root: PId,
                             path: seq<string>, i: nat, parent: PId)
    requires Descent(was, before, root, path, i, parent) && i < |path|
    requires ChildNamed(before, before[parent].children, path[i]).None?
    ensures Lookup(was, root, path[..i + 1]).None?
  {
    var t := path[..i + 1];
    assert t[..i] == path[..i];
    if Lookup(was, root, path[..i]).Some? {
      assert Lookup(was, root, t) == Lookup(before, root, t);
    }
  }

  /** The whole prefix now leads to the new folder. */
  lemma CreatedLookupNew(before: map<PId, PNode>, after: map<PId, PNode>, root: PId,
                         path: seq<string>, i: nat, parent: PId, node: PId)
    requires Closed(before) && Closed(after) && root in before && i < |path| && parent in before
    requires Lookup(before, root, path[..i]) == Some(parent)
    requires ChildNamed(before, before[parent].children, path[i]).None? && node !in before
    requires after.Keys == before.Keys + {node} && after[node] == Folder(path[i], parent)
    requires forall k :: k in before && k != parent ==> after[k] == before[k]
    requires after[parent] == before[parent].(children := before[parent].children + [node])
    ensures Lookup(after, root, path[..i + 1]) == Some(node)
  {
    var kids := before[parent].children;
    assert path[..i + 1][..i] == path[..i];
    LookupGrows(before, after, root, path[..i], parent, [node]);
    assert forall c :: c in kids ==> c in before;
    assert forall c :: c in kids + [node] ==> c in after;
    ChildNamedNew(before, after, kids, node, path[i]);
  }

  /** A shorter prefix leads where it led before the folder was created. */
  lemma CreatedLookupOld(was: map<PId, PNode>, before: map<PId, PNode>, after: map<PId, PNode>, root: PId,
                         path: seq<string>, i: nat, parent: PId, node: PId, j: nat)
    requires Descent(was, before, root, path, i, parent) && i < |path| && Closed(after)
    requires ChildNamed(before, before[parent].children, path[i]).None? && node !in before
    requires after.Keys == before.Keys + {node} && after[node] == Folder(path[i], parent)
    requires forall k :: k in before && k != parent ==> after[k] == before[k]
    requires after[parent] == before[parent].(children := before[parent].children + [node])
    requires j <= i
    ensures Lookup(after, root, path[..j]).Some?
    ensures Lookup(was, root, path[..j]).Some? ==> Lookup(after, root, path[..j]) == Lookup(was, root, path[..j])
    ensures Lookup(was, root, path[..j]).None? ==> Lookup(after, root, path[..j]).value !in was
  {
    assert forall c :: c in before[parent].children ==> c in before;
    LookupGrows(before, after, root, path[..j], parent, [node]);
  }

  /** What `add_child(c)` on `n` changes: the children of `n` and the Qt parent of `c`. */
  lemma AdoptedFacts(nodes: map<PId, PNode>, n: PId, c: PId, kept: seq<PId>)
    requires n in nodes && c in nodes && n != c
    ensures var after := Adopted(nodes, n, c, kept);
            && after.Keys == nodes.Keys
            && (forall k :: k in nodes ==> after[k].name == nodes[k].name)
            && (forall k :: k in nodes && k != n ==> after[k].children == nodes[k].children)
            && after[n].children == kept + [c]
            && after[c] == nodes[c].(parent := Some(n))
            && (forall k :: k in nodes && k != c ==> after[k] == nodes[k].(children := after[k].children))
  {
  }

  /** `add_node`'s last `_insert_node`: the path still leads to `parent`, and one more
    * segment, the object's name, to the object. */
  lemma InsertedLast(before: map<PId, PNode>, sh: Shape, after: map<PId, PNode>, root: PId,
                     path: seq<string>, parent: PId, obj: PId)
    requires Forest(before, sh) && Closed(before) && Closed(after) && root in before && obj in before
    requires Lookup(before, root, path) == Some(parent) && obj != parent
    requires after.Keys == before.Keys && forall k :: k in before ==> after[k].name == before[k].name
    requires forall k :: k in before && k != parent ==> after[k].children == before[k].children
    requires after[parent].children == WithoutName(before, before[parent].children, before[obj].name) + [obj]
    ensures forall j :: 0 <= j <= |path| ==> Lookup(after, root, path[..j]) == Lookup(before, root, path[..j])
    ensures Lookup(after, root, path + [before[obj].name]) == Some(obj)
  {
    var kids := before[parent].children;
    var name := before[obj].name;
    assert KidsOk(before, parent);
    var kept := WithoutName(before, kids, name);
    WithoutNameFacts(before, kids, name);
    InsertedPrefixes(before, sh, after, root, path, parent);
    assert path[..|path|] == path;
    assert (path + [name])[..|path|] == path;
    ChildNamedNew(after, after, kept, obj, name);
  }

  /** Changing the children of the node the path leads to keeps where every prefix leads. */
  lemma InsertedPrefixes(before: map<PId, PNode>, sh: Shape, after: map<PId, PNode>, root: PId,
                         path: seq<string>, parent: PId)
    requires Forest(before, sh) && Closed(before) && Closed(after) && root in before
    requires Lookup(before, root, path) == Some(parent) && before.Keys <= after.Keys
    requires forall k :: k in before ==> after[k].name == before[k].name
    requires forall k :: k in before && k != parent ==> after[k].children == before[k].children
    ensures forall j :: 0 <= j <= |path| ==> Lookup(after, root, path[..j]) == Lookup(before, root, path[..j])
  {
    forall j | 0 <= j <= |path|
      ensures Lookup(after, root, path[..j]) == Lookup(before, root, path[..j])
    {
      AvoidsEnd(before, sh, root, path, j);
      LookupAvoids(before, after, root, path[..j], parent);
    }
  }

  /** No proper prefix of a path leads where the whole path does. */
  lemma AvoidsEnd(nodes: map<PId, PNode>, sh: Shape, root: PId, path: seq<string>, j: nat)
    requires Forest(nodes, sh) && Closed(nodes) && root in nodes && Lookup(nodes, root, path).Some? && j <= |path|
    ensures forall k :: 0 <= k < |path[..j]| ==> Lookup(nodes, root, path[..j][..k]) != Lookup(nodes, root, path)
  {
    forall k | 0 <= k < |path[..j]| ensures Lookup(nodes, root, path[..j][..k]) != Lookup(nodes, root, path) {
      assert path[..j][..k] == path[..k];
      LookupDeeper(nodes, sh, root, path, k);
    }
  }

  /** What `add_node(path, obj)` leaves, from the arena `was`: every prefix of `path` leads
    * somewhere: where it led in `was` if it did, else to a new node; new nodes are FOLDER nodes
    * without metadata; old nodes other than `obj` change at most their children; `obj` hangs
    * under the node `path` leads to, `path` plus its name leads to it, and its `path()` is
    * "root", the segments and its name. */
  ghost predicate NodeAdded(was: map<PId, PNode>, nodes: map<PId, PNode>, sh: Shape, root: PId,
                            path: seq<string>, obj: PId)
  {
    && PathMade(was, nodes, root, path)
    && Forest(nodes, sh) && obj in was
    && (forall k :: k in nodes && k !in was ==> nodes[k].kind == FolderType && nodes[k].metadata == [])
    && (forall k :: k in was && k != obj ==> nodes[k] == was[k].(children := nodes[k].children))
    && nodes[obj] == was[obj].(parent := Lookup(nodes, root, path))
    && Lookup(nodes, root, path + [nodes[obj].name]) == Some(obj)
    && PathOf(nodes, sh, obj) == ["root"] + path + [nodes[obj].name]
  }

  /** Every prefix of `path` leads somewhere in `nodes`: where it led in `was` if it did, else
    * to a node that is not in `was`. */
  ghost predicate PathMade(was: map<PId, PNode>, nodes: map<PId, PNode>, root: PId, path: seq<string>)
  {
    && Closed(was) && Closed(nodes) && root in was && was.Keys <= nodes.Keys
    && (forall j :: 0 <= j <= |path| ==> Lookup(nodes, root, path[..j]).Some?)
    && (forall j :: 0 <= j <= |path| && Lookup(was, root, path[..j]).Some? ==>
          Lookup(nodes, root, path[..j]) == Lookup(was, root, path[..j]))
    && (forall j :: 0 <= j <= |path| && Lookup(was, root, path[..j]).None? ==>
          Lookup(nodes, root, path[..j]).value !in was)
  }

  /** The descent, then `_insert_node(obj, parent)`, leave what `NodeAdded` says. */
  lemma NodeAddedHolds(was: map<PId, PNode>, before: map<PId, PNode>, sb: Shape, after: map<PId, PNode>, sa: Shape,
                       root: PId, nextId: nat, path: seq<string>, parent: PId, obj: PId)
    requires Descent(was, before, root, path, |path|, parent) && ModelOk(before, sb, root, nextId)
    requires ModelOk(after, sa, root, nextId) && obj in was && obj != parent && before[obj] == was[obj]
    requires after == Adopted(before, parent, obj, WithoutName(before, before[parent].children, before[obj].name))
    ensures NodeAdded(was, after, sa, root, path, obj)
  {
    assert path[..|path|] == path;
    ObjHangs(before, sb, after, sa, root, nextId, path, parent, obj);
    PathMadeHolds(was, before, after, root, path, parent);
    AddedFrames(was, before, after, parent, obj);
  }

  /** After the last `_insert_node`, `obj` hangs under `parent`, where the path still leads. */
  lemma ObjHangs(before: map<PId, PNode>, sb: Shape, after: map<PId, PNode>, sa: Shape,
                 root: PId, nextId: nat, path: seq<string>, parent: PId, obj: PId)
    requires ModelOk(before, sb, root, nextId) && ModelOk(after, sa, root, nextId) && obj in before && obj != parent
    requires Lookup(before, root, path) == Some(parent)
    requires after == Adopted(before, parent, obj, WithoutName(before, before[parent].children, before[obj].name))
    ensures forall j :: 0 <= j <= |path| ==> Lookup(after, root, path[..j]) == Lookup(before, root, path[..j])
    ensures after[obj] == before[obj].(parent := Some(parent))
    ensures Lookup(after, root, path + [after[obj].name]) == Some(obj)
    ensures PathOf(after, sa, obj) == ["root"] + path + [after[obj].name]
  {
    assert KidsOk(before, parent);
    var kept := WithoutName(before, before[parent].children, before[obj].name);
    AdoptedFacts(before, parent, obj, kept);
    InsertedLast(before, sb, after, root, path, parent, obj);
    var name := after[obj].name;
    LookupPath(after, sa, root, path + [name]);
    SeqAssoc(["root"], path, [name]);
  }

  /** Only empty folders are new, and old nodes other than `obj` change only their children. */
  lemma AddedFrames(was: map<PId, PNode>, before: map<PId, PNode>, after: map<PId, PNode>, parent: PId, obj: PId)
    requires was.Keys <= before.Keys && parent in before && obj in was && obj != parent
    requires forall k :: k in before && k !in was ==> before[k].kind == FolderType && before[k].metadata == []
    requires forall k :: k in was ==> before[k] == was[k].(children := before[k].children)
    requires exists kept :: after == Adopted(before, parent, obj, kept)
    ensures forall k :: k in after && k !in was ==> after[k].kind == FolderType && after[k].metadata == []
    ensures forall k :: k in was && k != obj ==> after[k] == was[k].(children := after[k].children)
  {
  }

  /** The prefixes of the path lead after the last `_insert_node` where they led before it. */
  lemma PathMadeHolds(was: map<PId, PNode>, before: map<PId, PNode>, after: map<PId, PNode>, root: PId,
                      path: seq<string>, parent: PId)
    requires Descent(was, before, root, path, |path|, parent) && Closed(after) && before.Keys <= after.Keys
    requires forall j :: 0 <= j <= |path| ==> Lookup(after, root, path[..j]) == Lookup(before, root, path[..j])
    ensures PathMade(was, after, root, path)
  {
  }

  /** What every state of the model keeps: the root node is there, without a Qt parent, of type
    * ROOT and named "root"; identifiers below the next one to hand out; the nodes form a
    * forest shaped by `sh`. */
  ghost predicate ModelOk(nodes: map<PId, PNode>, sh: Shape, root: PId, nextId: nat)
  {
    && root in nodes && nodes[root].parent.None? && nodes[root].kind == RootType && nodes[root].name == "root"
    && (forall k :: k in nodes ==> k < nextId)
    && Forest(nodes, sh) && Closed(nodes)
  }

  /** `add_child` keeps the model's invariant. */
  lemma AdoptModelOk(nodes: map<PId, PNode>, sh: Shape, root: PId, nextId: nat, n: PId, c: PId, kept: seq<PId>)
    requires ModelOk(nodes, sh, root, nextId) && n in nodes && c in nodes && c != root
    requires nodes[c].parent == Some(n) || (nodes[c].parent.None? && sh.treeOf[n] != c)
    requires kept == WithoutName(nodes, nodes[n].children, nodes[c].name)
    ensures ModelOk(Adopted(nodes, n, c, kept), AdoptShape(nodes, sh, n, c), root, nextId)
  {
    var kids := nodes[n].children;
    assert KidsOk(nodes, n) && LinkOk(nodes, sh, c);
    assert n != c;
    WithoutNameFacts(nodes, kids, nodes[c].name);
    assert CanAdopt(nodes, sh, n, c, kept);
    AdoptForest(nodes, sh, n, c, kept);
    AdoptedFacts(nodes, n, c, kept);
    ForestClosed(Adopted(nodes, n, c, kept), AdoptShape(nodes, sh, n, c));
  }

  /** A `QModelIndex`: invalid, or a row and column with the node as internal pointer. */
  datatype ModelIndex = Invalid | Index(row: int, column: int, node: PId)

  /** A `QVariant` returned by `data()`: a name, an icon, a tooltip, or an invalid variant. */
  datatype Variant = VName(name: string) | VIcon(icon: Icon) | VToolTip(text: string) | VInvalid

  class ProductsModel {
    /** Every `ProductsModelNode`, by identity. */
    var nodes: map<PId, PNode>
    /** `m_rootNode`. */
    const root: PId
    /** The identity the next node gets. */
    var nextId: PId
    /** The string list of `m_completer_model`. */
    var completer: seq<string>
    ghost var shape: Shape

    ghost predicate Valid()
      reads this
    {
      ModelOk(nodes, shape, root, nextId) && Unique(completer)
    }

    /** The constructor: a root node named "root" of type ROOT, and an empty completer. */
    constructor ()
      ensures Valid() && completer == [] && nodes.Keys == {root}
      ensures nodes[root] == PNode("root", [], RootType, None, [], NullIcon, InitialTooltip("root", []))
    {
      var t := BuildTooltip("root", []);
      root := 0;
      nextId := 1;
      nodes := map[0 := PNode("root", [], RootType, None, [], NullIcon, t)];
      completer := [];
      shape := Shape(map[0 := 0], map[0 := 0], 1);
      new;
      assert LinkOk(nodes, shape, 0) && KidsOk(nodes, 0);
    }

    /** `ProductsModelNode(name, metadata, type, parent)`: a childless node whose Qt parent is
      * `parent`, in no children list yet, of the given type, with the constructor's tooltip. */
    method NewNode(name: string, md: Metadata, kind: NodeType, parent: Option<PId>) returns (id: PId)
      requires Valid() && (parent.Some? ==> parent.value in nodes)
      modifies this
      ensures Valid() && id !in old(nodes)
      ensures nodes == old(nodes)[id := PNode(name, md, kind, parent, [], NullIcon, InitialTooltip(name, md))]
      ensures completer == old(completer)
      ensures shape == Sprouted(old(shape), id, parent)
    {
      var t := BuildTooltip(name, md);
      id := nextId;
      var n := PNode(name, md, kind, parent, [], NullIcon, t);
      NewNodeForest(nodes, shape, id, n);
      shape := Sprouted(shape, id, parent);
      nodes := nodes[id := n];
      nextId := nextId + 1;
      ForestClosed(nodes, shape);
    }

    /** `icon()`. */
    function IconOf(n: PId): Icon
      reads this
      requires n in nodes
    {
      nodes[n].icon
    }

    /** `tooltip()`. */
    function TooltipOf(n: PId): string
      reads this
      requires n in nodes
    {
      nodes[n].tooltip
    }

    /** `set_icon`: `icon()` reads the icon back, and nothing else changes. */
    method SetIcon(n: PId, icon: Icon)
      requires Valid() && n in nodes
      modifies this
      ensures Valid() && nodes == old(nodes)[n := old(nodes[n]).(icon := icon)] && IconOf(n) == icon
      ensures completer == old(completer) && shape == old(shape) && nextId == old(nextId)
    {
      RelabelForest(nodes, nodes[n := nodes[n].(icon := icon)], shape);
      nodes := nodes[n := nodes[n].(icon := icon)];
    }

    /** `set_tooltip`: `tooltip()` reads the text back, and nothing else changes. */
    method SetTooltip(n: PId, tooltip: string)
      requires Valid() && n in nodes
      modifies this
      ensures Valid() && nodes == old(nodes)[n := old(nodes[n]).(tooltip := tooltip)] && TooltipOf(n) == tooltip
      ensures completer == old(completer) && shape == old(shape) && nextId == old(nextId)
    {
      RelabelForest(nodes, nodes[n := nodes[n].(tooltip := tooltip)], shape);
      nodes := nodes[n := nodes[n].(tooltip := tooltip)];
    }

    /** `add_child(c)` on node `n`: every child named like `c` leaves the children list, `c` is
      * appended last and gets `n` as Qt parent. The child must already be under `n` or top a
      * tree `n` is not in: otherwise the Qt tree would get a cycle. */
    method AddChild(n: PId, c: PId)
      requires Valid() && n in nodes && c in nodes && c != root
      requires nodes[c].parent == Some(n) || (nodes[c].parent.None? && shape.treeOf[n] != c)
      modifies this
      ensures Valid() && nextId == old(nextId) && completer == old(completer)
      ensures nodes == Adopted(old(nodes), n, c, WithoutName(old(nodes), old(nodes[n].children), old(nodes[c].name)))
      ensures shape == AdoptShape(old(nodes), old(shape), n, c)
    {
      var kids := nodes[n].children;
      var kept := KeepOthers(nodes, kids, nodes[c].name);
      AdoptModelOk(nodes, shape, root, nextId, n, c, kept);
      shape := AdoptShape(nodes, shape, n, c);
      nodes := Adopted(nodes, n, c, kept);
    }

    /** `path()`: the loop prepending names while walking up the Qt parents. */
    method Path(n: PId) returns (p: seq<string>)
      requires Valid() && n in nodes
      ensures p == PathOf(nodes, shape, n)
    {
      p := [];
      var node := Some(n);
      while node.Some?
        invariant node.Some? ==> node.value in nodes && PathOf(nodes, shape, n) == PathOf(nodes, shape, node.value) + p
        invariant node.None? ==> PathOf(nodes, shape, n) == p
        decreases if node.Some? then shape.depth[node.value] + 1 else 0
      {
        var k := node.value;
        assert LinkOk(nodes, shape, k);
        p := [nodes[k].name] + p;
        node := nodes[k].parent;
      }
    }

    /** `make_index(node)`: invalid for a node without a parent, otherwise the node's row in
      * its parent's children, column 0. */
    function MakeIndex(n: PId): (r: ModelIndex)
      reads this
      requires Valid() && n in nodes
      ensures r.Invalid? <==> nodes[n].parent.None?
      ensures r.Index? ==> r.column == 0 && r.node == n
      ensures r.Index? ==> (nodes[n].parent.value in nodes &&
                            (n in nodes[nodes[n].parent.value].children ==> ChildAt(nodes[nodes[n].parent.value], r.row) == Some(n)) &&
                            (n !in nodes[nodes[n].parent.value].children ==> r.row == -1))
    {
      assert LinkOk(nodes, shape, n);
      match nodes[n].parent
      case None => Invalid
      case Some(q) => Index(ChildRow(nodes[q], n), 0, n)
    }

    /** The node an index stands for as a parent: the root for an invalid index. */
    function ParentNode(parent: ModelIndex): PId
      reads this
    {
      if parent.Invalid? then root else parent.node
    }

    /** `rowCount(parent)`: 0 beyond the first column, otherwise the child count of the parent
      * node, the root for an invalid index. */
    function RowCount(parent: ModelIndex): (c: nat)
      reads this
      requires Valid() && (parent.Index? ==> parent.node in nodes)
      ensures parent.Index? && parent.column > 0 ==> c == 0
      ensures parent.Invalid? || parent.column <= 0 ==> c == |nodes[ParentNode(parent)].children|
    {
      if parent.Index? && parent.column > 0 then 0 else |nodes[ParentNode(parent)].children|
    }

    /** `index(row, column, parent)`: a valid index exactly for an existing row of the parent
      * node in the model's single column; it carries that child. */
    function IndexAt(row: int, column: int, parent: ModelIndex): (i: ModelIndex)
      reads this
      requires Valid() && (parent.Index? ==> parent.node in nodes)
      ensures i.Index? <==> 0 <= row < RowCount(parent) && column == 0
      ensures i.Index? ==>
                i.row == row && i.column == 0 && i.node == nodes[ParentNode(parent)].children[row]
    {
      if 0 <= row && 0 <= column && row < RowCount(parent) && column < 1 then
        Index(row, column, ChildAt(nodes[ParentNode(parent)], row).value)
      else Invalid
    }

    /** `parent(index)`: invalid for an invalid index, a node without a Qt parent and a child
      * of the root; otherwise the parent node, at its row under the grandparent, or at row 0
      * when it has no parent itself. */
    function ParentIndex(index: ModelIndex): (r: ModelIndex)
      reads this
      requires Valid() && (index.Index? ==> index.node in nodes)
      ensures r.Index? <==> index.Index? && nodes[index.node].parent.Some? && nodes[index.node].parent.value != root
      ensures r.Index? ==>
                var p := nodes[index.node].parent.value;
                p in nodes && r.node == p && r.column == 0 &&
                (nodes[p].parent.Some? ==> r == MakeIndex(p)) && (nodes[p].parent.None? ==> r.row == 0)
    {
      if index.Invalid? || nodes[index.node].parent.None? || nodes[index.node].parent.value == root then Invalid
      else
        assert LinkOk(nodes, shape, index.node);
        var p := nodes[index.node].parent.value;
        match nodes[p].parent
        case Some(g) => assert LinkOk(nodes, shape, p); Index(ChildRow(nodes[g], p), 0, p)
        case None => Index(0, 0, p)
    }

    /** `data(index, role)`: the name for the display and user roles, the icon and the tooltip
      * for theirs, an invalid variant otherwise. */
    function Data(index: ModelIndex, role: Role): (v: Variant)
      reads this
      requires index.Index? ==> index.node in nodes
      ensures index.Invalid? || role.OtherRole? ==> v == VInvalid
      ensures index.Index? && (role == DisplayRole || role == UserRole) ==> v == VName(nodes[index.node].name)
      ensures index.Index? && role == DecorationRole ==> v == VIcon(IconOf(index.node))
      ensures index.Index? && role == ToolTipRole ==> v == VToolTip(TooltipOf(index.node))
    {
      if index.Invalid? then VInvalid
      else
        match role
        case DisplayRole => VName(nodes[index.node].name)
        case UserRole => VName(nodes[index.node].name)
        case DecorationRole => VIcon(nodes[index.node].icon)
        case ToolTipRole => VToolTip(nodes[index.node].tooltip)
        case OtherRole(_) => VInvalid
    }

    /** `flags(index)`: PRODUCT nodes are enabled, draggable and selectable, other nodes
      * enabled and selectable; an invalid index has no flags. */
    function Flags(index: ModelIndex): (f: set<ItemFlag>)
      reads this
      requires index.Index? ==> index.node in nodes
      ensures index.Invalid? ==> f == {}
      ensures index.Index? ==> ItemIsEnabled in f && ItemIsSelectable in f
      ensures index.Index? ==> (ItemIsDragEnabled in f <==> nodes[index.node].kind == ProductType)
      ensures ItemIsEditable !in f && ItemIsDropEnabled !in f
    {
      match index
      case Invalid => {}
      case Index(_, _, n) =>
        if nodes[n].kind == ProductType then {ItemIsEnabled, ItemIsDragEnabled, ItemIsSelectable}
        else {ItemIsEnabled, ItemIsSelectable}
    }

    /** `_add_to_completer(value)`: a string already listed is not added again. */
    method AddToCompleter(value: string)
      requires Unique(completer)
      modifies this`completer
      ensures Unique(completer) && completer == AddOne(old(completer), value)
    {
      if value in completer {
        return;
      }
      completer := completer + [value];
    }

    /** `_add_to_completer(node)`: the name, a `key : value` entry per metadata item, then the
      * same for each child in turn. */
    method AddToCompleterNode(n: PId)
      requires Forest(nodes, shape) && n in nodes && Unique(completer)
      modifies this`completer
      ensures Unique(completer) && completer == AddAll(old(completer), Entries(nodes, shape, n))
      decreases shape.bound - shape.depth[n], 2
    {
      ghost var c0 := completer;
      AddNodeHead(n);
      ghost var head := [nodes[n].name] + MetadataEntries(nodes[n].metadata);
      EntriesUnfold(nodes, shape, n);
      AddChildrenToCompleter(n, c0, head);
      AddAllFacts(c0, head + KidsEntries(nodes, shape, n, |nodes[n].children|));
    }

    /** The second half of `_add_to_completer(node)`: each child's subtree in turn. */
    method AddChildrenToCompleter(n: PId, ghost c0: seq<string>, ghost head: seq<string>)
      requires Forest(nodes, shape) && n in nodes && Unique(c0)
      requires completer == AddAll(c0, head + KidsEntries(nodes, shape, n, 0))
      modifies this`completer
      ensures completer == AddAll(c0, head + KidsEntries(nodes, shape, n, |nodes[n].children|))
      decreases shape.bound - shape.depth[n], 1
    {
      var kids := nodes[n].children;
      for i := 0 to |kids|
        invariant completer == AddAll(c0, head + KidsEntries(nodes, shape, n, i))
      {
        AddChildToCompleter(n, i, c0, head);
      }
    }

    /** One pass of the loop over the children: child `i`'s entries follow those so far. */
    method AddChildToCompleter(n: PId, i: nat, ghost c0: seq<string>, ghost head: seq<string>)
      requires Forest(nodes, shape) && n in nodes && i < |nodes[n].children| && Unique(c0)
      requires completer == AddAll(c0, head + KidsEntries(nodes, shape, n, i))
      modifies this`completer
      ensures completer == AddAll(c0, head + KidsEntries(nodes, shape, n, i + 1))
      decreases shape.bound - shape.depth[n], 0
    {
      var kid := nodes[n].children[i];
      ForestChild(nodes, shape, n, kid);
      ghost var done := head + KidsEntries(nodes, shape, n, i);
      AddAllFacts(c0, done);
      AddToCompleterNode(kid);
      AddAllConcat(c0, done, Entries(nodes, shape, kid));
      KidsEntriesStep(nodes, shape, n, i, head);
    }

    /** The first half of `_add_to_completer(node)`: the node's name, then one
      * `key : value` entry per metadata pair. */
    method AddNodeHead(n: PId)
      requires n in nodes && Unique(completer)
      modifies this`completer
      ensures Unique(completer) && completer == AddAll(old(completer), [nodes[n].name] + MetadataEntries(nodes[n].metadata))
    {
      ghost var c0 := completer;
      var node := nodes[n];
      AddToCompleter(node.name);
      assert [node.name][..0] == [];
      var md := node.metadata;
      for i := 0 to |md|
        invariant Unique(completer)
        invariant completer == AddAll(c0, [node.name] + MetadataEntries(md[..i]))
      {
        ghost var before := [node.name] + MetadataEntries(md[..i]);
        AddToCompleter(md[i].0 + " : " + md[i].1);
        MetadataEntriesSnoc(md, i);
        assert [node.name] + MetadataEntries(md[..i + 1]) == before + [Entry(md[i])];
        AddAllSnoc(c0, before, Entry(md[i]));
      }
      assert md[..|md|] == md;
    }

    /** `_insert_node(node, parent)`: `add_child`, then the node's subtree into the completer.
      * The row-insertion notifications are not modelled. */
    method InsertNode(c: PId, n: PId)
      requires Valid() && n in nodes && c in nodes && c != root
      requires nodes[c].parent == Some(n) || (nodes[c].parent.None? && shape.treeOf[n] != c)
      modifies this
      ensures Valid() && nextId == old(nextId)
      ensures nodes == Adopted(old(nodes), n, c, WithoutName(old(nodes), old(nodes[n].children), old(nodes[c].name)))
      ensures shape == AdoptShape(old(nodes), old(shape), n, c)
      ensures completer == AddAll(old(completer), Entries(nodes, shape, c))
    {
      AddChild(n, c);
      AddToCompleterNode(c);
    }

    /** The body of the loop of `add_node`: the child of `parent` named `name`, or else a new
      * FOLDER node of that name without metadata, inserted under `parent`. */
    method ChildOrFolder(parent: PId, name: string) returns (node: PId)
      requires Valid() && parent in nodes
      modifies this
      ensures Valid() && node in nodes && nodes[node].parent == Some(parent) && nodes[node].name == name
      ensures ChildNamed(old(nodes), old(nodes[parent].children), name).Some? ==>
                node == ChildNamed(old(nodes), old(nodes[parent].children), name).value &&
                nodes == old(nodes) && completer == old(completer) && shape == old(shape)
      ensures ChildNamed(old(nodes), old(nodes[parent].children), name).None? ==>
                node !in old(nodes) && shape == Sprouted(old(shape), node, Some(parent)) &&
                nodes == old(nodes)[node := Folder(name, parent)][parent := old(nodes)[parent].(children := old(nodes)[parent].children + [node])] &&
                completer == AddOne(old(completer), name)
      ensures forall k :: k in old(nodes) && k != parent ==> nodes[k] == old(nodes)[k]
      ensures forall k :: k in old(nodes) ==> shape.treeOf[k] == old(shape).treeOf[k]
      ensures node in shape.treeOf && shape.treeOf[node] == shape.treeOf[parent]
    {
      assert KidsOk(nodes, parent) && LinkOk(nodes, shape, parent);
      var found := ChildNamed(nodes, nodes[parent].children, name);
      if found.Some? {
        node := found.value;
        ForestChild(nodes, shape, parent, node);
      } else {
        node := NewFolder(parent, name);
      }
    }

    /** A new FOLDER node named `name` without metadata, inserted under `parent`, which has no
      * child of that name. */
    method NewFolder(parent: PId, name: string) returns (node: PId)
      requires Valid() && parent in nodes
      requires ChildrenIn(nodes, nodes[parent].children) && ChildNamed(nodes, nodes[parent].children, name).None?
      modifies this
      ensures Valid() && node !in old(nodes) && shape == Sprouted(old(shape), node, Some(parent))
      ensures nodes == old(nodes)[node := Folder(name, parent)][parent := old(nodes)[parent].(children := old(nodes)[parent].children + [node])]
      ensures completer == AddOne(old(completer), name)
    {
      ghost var n0 := nodes;
      ghost var c0 := completer;
      var kids := nodes[parent].children;
      node := NewNode(name, [], FolderType, Some(parent));
      ghost var n1 := nodes;
      FreshFolderAdopted(n0, parent, node, name);
      assert LinkOk(nodes, shape, parent);
      InsertNode(node, parent);
      assert KidsEntries(n1, shape, node, 0) == [];
      assert AddAll(c0, [name]) == AddOne(c0, name) by { assert [name][..0] == []; }
    }

    /** `add_node(path, obj)`: from the root, each segment of `path` leads to the child of
      * that name, created as an empty FOLDER when missing; `obj` then becomes the last child of
      * the node reached (see `NodeAdded`). Every segment that was missing, then the entries of
      * `obj`'s subtree, go into the completer. The object must not have a Qt parent yet. */
    method AddNode(path: seq<string>, obj: PId)
      requires Valid() && obj in nodes && obj != root && nodes[obj].parent.None?
      modifies this
      ensures Valid() && NodeAdded(old(nodes), nodes, shape, root, path, obj)
      ensures completer == AddAll(old(completer), Missing(old(nodes), root, path) + Entries(nodes, shape, obj))
    {
      ghost var was := nodes;
      ghost var c0 := completer;
      assert LinkOk(nodes, shape, obj);
      var parent := Descend(path);
      ghost var n2 := nodes;
      ghost var s2 := shape;
      InsertNode(obj, parent);
      NodeAddedHolds(was, n2, s2, nodes, shape, root, nextId, path, parent, obj);
      AddAllConcat(c0, Missing(was, root, path), Entries(nodes, shape, obj));
    }

    /** The loop of `add_node`: from the root, down the children named by `path`, creating
      * each missing one as an empty FOLDER and adding its name to the completer. Nodes outside
      * the root's tree are untouched. */
    method Descend(path: seq<string>) returns (parent: PId)
      requires Valid()
      modifies this
      ensures Valid() && Descent(old(nodes), nodes, root, path, |path|, parent)
      ensures shape.treeOf[parent] == root
      ensures forall k :: k in old(nodes) && old(shape).treeOf[k] != root ==>
                nodes[k] == old(nodes)[k] && shape.treeOf[k] == old(shape).treeOf[k]
      ensures completer == AddAll(old(completer), Missing(old(nodes), root, path))
    {
      ghost var was := nodes;
      ghost var s0 := shape;
      ghost var c0 := completer;
      parent := root;
      assert path[..0] == [];
      assert LinkOk(nodes, shape, root);
      for i: nat := 0 to |path|
        invariant Valid()
        invariant Descent(was, nodes, root, path, i, parent)
        invariant shape.treeOf[parent] == root
        invariant forall k :: k in was && s0.treeOf[k] != root ==> nodes[k] == was[k] && shape.treeOf[k] == s0.treeOf[k]
        invariant completer == AddAll(c0, Missing(was, root, path[..i]))
      {
        ghost var before := nodes;
        ghost var cb := completer;
        assert KidsOk(nodes, parent);
        var node := ChildOrFolder(parent, path[i]);
        DescentStep(was, before, nodes, root, path, i, parent, node);
        MissingStep(was, root, path, i, c0, cb, completer);
        forall k | k in was && s0.treeOf[k] != root ensures nodes[k] == was[k] && shape.treeOf[k] == s0.treeOf[k] {
          assert k in before && k != parent;
        }
        parent := node;
      }
      assert path[..|path|] == path;
    }
  }

  /** An index the model hands out leads back to itself through `make_index`; its parent is
    * the index of the node it was asked under, and the invalid index for a top-level row. */
  lemma IndexRoundTrip(m: ProductsModel, row: int, parent: ModelIndex)
    requires m.Valid() && (parent.Index? ==> parent.node in m.nodes)
    requires m.IndexAt(row, 0, parent).Index?
    ensures m.MakeIndex(m.IndexAt(row, 0, parent).node) == m.IndexAt(row, 0, parent)
    ensures var p := m.ParentNode(parent);
      m.ParentIndex(m.IndexAt(row, 0, parent)) ==
        if p == m.root then Invalid else if m.nodes[p].parent.Some? then m.MakeIndex(p) else Index(0, 0, p)
  {
    var p := m.ParentNode(parent);
    assert KidsOk(m.nodes, p);
    var kids := m.nodes[p].children;
    assert forall i, j :: 0 <= i < j < |kids| ==> kids[i] != kids[j] by {
      forall i, j | 0 <= i < j < |kids| ensures kids[i] != kids[j] {
        assert m.nodes[kids[i]].name != m.nodes[kids[j]].name;
      }
    }
    ChildRowRoundTrip(m.nodes[p], kids[row], row);
  }
}
