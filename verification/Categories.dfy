/** DoubleLinkedPoiCategory.java and WhitelistPoiCategoryFilter.java: the tree of categories, its
    numbering, and the filter that accepts whole subtrees. */
module Categories {

  class Category {
    const title: string
    var parent: Category?
    var children: seq<Category>
    var id: int

    /** Creates a category below its parent, if it is given one.  t is the tree it joins. */
    constructor (title: string, parent: Category?, id: int, ghost t: Tree)
      requires parent != null ==> Shaped(t) && parent in Nodes(t)
      modifies if parent == null then {} else {parent}
      ensures fresh(this) && this.title == title && this.parent == parent && this.children == [] && this.id == id
      ensures parent == null ==> Shaped(Node(this, []))
      ensures parent != null ==> parent.children == old(parent.children) + [this]
      ensures parent != null ==> Shaped(Graft(t, parent, Node(this, [])))
    {
      this.title, this.parent, this.children, this.id := title, parent, [], id;
      new;
      if parent != null {
        parent.AddChildNode(this);
        GraftShaped(t, parent, Node(this, []));
      }
    }

    method AddChildNode(node: Category)
      modifies this`children
      ensures children == old(children) + [node]
    {
      children := children + [node];
    }

    /** Hangs this category, the root of s, below a category of the tree t, which may be another tree or
        the one it is in.  It is not taken out of the child list of the parent it had.  So the old parent,
        if it listed the category, belongs to no tree any more; and everything forms one tree if and only
        if there was no such parent and the new one is not below the category itself. */
    method SetParent(parent: Category, ghost t: Tree, ghost s: Tree)
      requires Shaped(t) && parent in Nodes(t) && Shaped(s) && s.c == this
      requires this in Nodes(t) || Nodes(t) !! Nodes(s)
      modifies this`parent, parent`children
      ensures this.parent == parent && parent.children == old(parent.children) + [this]
      ensures Nodes(t) !! Nodes(s) ==> Shaped(Graft(t, parent, s)) && Nodes(Graft(t, parent, s)) == Nodes(t) + Nodes(s)
      ensures old(Listed(this)) ==> forall u | old(this.parent) in Nodes(u) :: !Shaped(u)
      ensures if !old(Listed(this)) && parent !in Nodes(s) then Nodes(t) !! Nodes(s)
              else forall u | this in Nodes(u) && (old(Listed(this)) ==> old(this.parent) in Nodes(u)) :: !Shaped(u)
    {
      ghost var q, listed := this.parent, Listed(this);
      assert this in Nodes(s);
      SameTreeLists(t, s, parent);
      hide Shaped;
      hide Nodes;
      hide Graft;
      this.parent := parent;
      parent.AddChildNode(this);
      assert Nodes(t) !! Nodes(s) ==> Shaped(Graft(t, parent, s)) && Nodes(Graft(t, parent, s)) == Nodes(t) + Nodes(s) by {
        if Nodes(t) !! Nodes(s) {
          ShapeKept(s);
          GraftShaped(t, parent, s);
          GraftNodes(t, parent, s);
        }
      }
      ListerHasNoTree(this, parent, q, listed);
      assert parent in Nodes(s) ==> forall u | this in Nodes(u) :: !Shaped(u) by {
        if parent in Nodes(s) {
          NoCycle(s, parent);
        }
      }
    }
  }

  // A parent that still lists a category it has lost belongs to no tree.
  twostate lemma ListerHasNoTree(c: Category, new p: Category, new q: Category?, new listed: bool)
    requires old(allocated(p)) && c.parent == p && p.children == old(p.children) + [c]
    requires q == old(c.parent) && (q != null && q != p ==> q.children == old(q.children)) && listed == old(Listed(c))
    ensures listed ==> forall u | q in Nodes(u) :: !Shaped(u)
  {
    if listed {
      var i :| 0 <= i < |old(q.children)| && old(q.children)[i] == c;
      NoTreeAtAll(q, i, |q.children| - 1);
    }
  }

  // Whether the parent of a category has it in its child list.
  ghost predicate Listed(c: Category)
    reads c, if c.parent == null then {} else {c.parent}
  {
    c.parent != null && c in c.parent.children
  }

  // The shape of a tree of categories.
  datatype Tree = Node(c: Category, kids: seq<Tree>)

  ghost function Nodes(t: Tree): set<Category> {
    {t.c} + set k, x | 0 <= k < |t.kids| && x in Nodes(t.kids[k]) :: x
  }

  function Roots(ts: seq<Tree>): (cs: seq<Category>)
    ensures |cs| == |ts|
  {
    seq(|ts|, k requires 0 <= k < |ts| => ts[k].c)
  }

  /** The objects form this tree: the child lists and the parents agree with it, and no category
      appears twice. */
  ghost predicate Shaped(t: Tree)
    reads Nodes(t)`children, Nodes(t)`parent
  {
    && t.c.children == Roots(t.kids)
    && (forall k :: 0 <= k < |t.kids| ==> Shaped(t.kids[k]) && t.kids[k].c.parent == t.c && t.c !in Nodes(t.kids[k]))
    && forall j, k :: 0 <= j < k < |t.kids| ==> Nodes(t.kids[j]) !! Nodes(t.kids[k])
  }

  // ---- numbering ---------------------------------------------------------------

  ghost function PostOrder(t: Tree): seq<Category> {
    PostOrders(t.kids) + [t.c]
  }

  ghost function PostOrders(ts: seq<Tree>): seq<Category> {
    if ts == [] then [] else PostOrders(ts[..|ts| - 1]) + PostOrder(ts[|ts| - 1])
  }

  ghost predicate NumberedFrom(cs: seq<Category>, k: int)
    reads (set c | c in cs)`id
  {
    forall i :: 0 <= i < |cs| ==> cs[i].id == k + i
  }

  lemma {:induction false} PostOrderIsNode(t: Tree, i: nat)
    requires i < |PostOrder(t)|
    ensures PostOrder(t)[i] in Nodes(t)
  {
    if i < |PostOrders(t.kids)| {
      var k := PostOrdersAreNodes(t.kids, i);
    }
  }

  lemma {:induction false} PostOrdersAreNodes(ts: seq<Tree>, i: nat) returns (k: nat)
    requires i < |PostOrders(ts)|
    ensures k < |ts| && PostOrders(ts)[i] in Nodes(ts[k])
  {
    var n := |ts| - 1;
    if i < |PostOrders(ts[..n])| {
      k := PostOrdersAreNodes(ts[..n], i);
    } else {
      k := n;
      PostOrderIsNode(ts[n], i - |PostOrders(ts[..n])|);
    }
  }

  lemma {:induction false} NodeIsPostOrdered(t: Tree, x: Category)
    requires x in Nodes(t)
    ensures x in PostOrder(t)
  {
    if x != t.c {
      var k := KidOf(t, x);
      NodeIsPostOrdered(t.kids[k], x);
      PostOrdersInclude(t.kids, k);
      assert x in PostOrders(t.kids[..k]) + PostOrder(t.kids[k]);
    }
  }

  // Where the numbers of a subtree lie.
  lemma {:induction false} PostOrdersInclude(ts: seq<Tree>, k: nat)
    requires k < |ts|
    ensures PostOrders(ts[..k]) + PostOrder(ts[k]) <= PostOrders(ts)
  {
    var n := |ts| - 1;
    if k < n {
      PostOrdersInclude(ts[..n], k);
      assert ts[..n][..k] == ts[..k];
    }
  }

  // The subtree of a child that a category lies in.
  ghost function KidOf(t: Tree, x: Category): (k: nat)
    requires x in Nodes(t) && x != t.c
    ensures k < |t.kids| && x in Nodes(t.kids[k])
  {
    var k :| 0 <= k < |t.kids| && x in Nodes(t.kids[k]);
    k
  }

  lemma KidShaped(t: Tree, k: nat)
    requires Shaped(t) && k < |t.kids|
    ensures Shaped(t.kids[k]) && t.kids[k].c.parent == t.c && t.c !in Nodes(t.kids[k]) && Nodes(t.kids[k]) <= Nodes(t)
  {
  }

  lemma NotInOther(t: Tree, k: nat, m: nat, x: Category)
    requires Shaped(t) && k < |t.kids| && m < |t.kids| && k != m && x in Nodes(t.kids[m])
    ensures x !in Nodes(t.kids[k])
  {
    assert Nodes(t.kids[if k < m then k else m]) !! Nodes(t.kids[if k < m then m else k]);
  }

  lemma KidUnique(t: Tree, k: nat, x: Category)
    requires Shaped(t) && k < |t.kids| && x in Nodes(t.kids[k])
    ensures x in Nodes(t) && x != t.c && KidOf(t, x) == k
  {
    if KidOf(t, x) != k {
      NotInOther(t, k, KidOf(t, x), x);
    }
  }

  // Only the child lists, and the parents below the root, make the shape.
  twostate lemma {:induction false} ShapeKept(t: Tree)
    requires old(allocated(Nodes(t))) && old(Shaped(t))
    requires forall x :: x in Nodes(t) ==> x.children == old(x.children) && (x != t.c ==> x.parent == old(x.parent))
    ensures Shaped(t)
  {
    forall k | 0 <= k < |t.kids| ensures Shaped(t.kids[k]) && t.kids[k].c.parent == old(t.kids[k].c.parent) {
      assert t.kids[k].c in Nodes(t.kids[k]);
      ShapeKept(t.kids[k]);
    }
  }

  // What numbering one subtree needs to know of the others.
  lemma KidsApart(t: Tree, i: nat)
    requires Shaped(t) && i < |t.kids| == |t.c.children|
    ensures Shaped(t.kids[i]) && t.c.children[i] == t.kids[i].c && Nodes(t.kids[i]) <= Nodes(t)
    ensures var before := PostOrders(t.kids[..i]); forall j :: 0 <= j < |before| ==> before[j] !in Nodes(t.kids[i])
    ensures PostOrders(t.kids[..i + 1]) == PostOrders(t.kids[..i]) + PostOrder(t.kids[i])
  {
    OneMore(t.kids, i);
    var before := PostOrders(t.kids[..i]);
    forall j | 0 <= j < |before| ensures before[j] !in Nodes(t.kids[i]) {
      var k := PostOrdersAreNodes(t.kids[..i], j);
      assert Nodes(t.kids[k]) !! Nodes(t.kids[i]);
    }
  }

  lemma OneMore(ts: seq<Tree>, i: nat)
    requires i < |ts|
    ensures PostOrders(ts[..i + 1]) == PostOrders(ts[..i]) + PostOrder(ts[i])
  {
    assert ts[..i + 1][..i] == ts[..i];
  }

  lemma RootApart(t: Tree)
    requires Shaped(t)
    ensures PostOrder(t) == PostOrders(t.kids) + [t.c] && t.c !in PostOrders(t.kids) && t.kids[..|t.kids|] == t.kids
    ensures |t.c.children| == |t.kids| && PostOrders(t.kids[..0]) == [] && t.c in Nodes(t)
  {
    var cs := PostOrders(t.kids);
    forall j | 0 <= j < |cs| ensures cs[j] != t.c {
      var k := PostOrdersAreNodes(t.kids, j);
    }
  }

  /** Numbers the tree from maxValue on, in post-order, and returns the number after the last. */
  method CalculateCategoryIDs(root: Category, maxValue: int, ghost t: Tree) returns (next: int)
    requires t.c == root && Shaped(t)
    modifies Nodes(t)`id
    ensures Shaped(t) && NumberedFrom(PostOrder(t), maxValue)
    ensures next == maxValue + |Nodes(t)| == root.id + 1 && |PostOrder(t)| == |Nodes(t)|
    decreases t
  {
    hide Shaped;
    hide PostOrder;
    hide PostOrders;
    hide Nodes;
    hide Roots;
    RootApart(t);
    var newMax := maxValue;
    for i := 0 to |root.children|
      invariant Shaped(t) && newMax == maxValue + |PostOrders(t.kids[..i])|
      invariant NumberedFrom(PostOrders(t.kids[..i]), maxValue)
    {
      KidsApart(t, i);
      PostOrderCounts(t.kids[i]);
      ghost var before := PostOrders(t.kids[..i]);
      assert allocated(before);
      newMax := CalculateCategoryIDs(root.children[i], newMax, t.kids[i]);
      ShapeKept(t);
      assert NumberedFrom(before, maxValue);
    }
    root.id := newMax;
    ShapeKept(t);
    PostOrderCounts(t);
    next := newMax + 1;
  }

  /** The numbering reaches every category exactly once: no two of its places hold the same one. */
  lemma {:induction false} ListedOnce(t: Tree, i: nat, j: nat)
    requires Shaped(t) && i < j < |PostOrder(t)|
    ensures PostOrder(t)[i] != PostOrder(t)[j]
    decreases t, |t.kids| + 1
  {
    RootApart(t);
    if j < |PostOrders(t.kids)| {
      KidsListedOnce(t, |t.kids|, i, j);
    }
  }

  lemma {:induction false} KidsListedOnce(t: Tree, m: nat, i: nat, j: nat)
    requires Shaped(t) && m <= |t.kids| && i < j < |PostOrders(t.kids[..m])|
    ensures PostOrders(t.kids[..m])[i] != PostOrders(t.kids[..m])[j]
    decreases t, m
  {
    hide Shaped;
    hide Nodes;
    hide PostOrder;
    hide PostOrders;
    RootApart(t);
    if m > 0 {
      KidsApart(t, m - 1);
      var n := |PostOrders(t.kids[..m - 1])|;
      if j < n {
        KidsListedOnce(t, m - 1, i, j);
      } else if i < n {
        PostOrderIsNode(t.kids[m - 1], j - n);
      } else {
        ListedOnce(t.kids[m - 1], i - n, j - n);
      }
    }
  }

  lemma {:induction false} DistinctCount(cs: seq<Category>)
    requires forall i, j :: 0 <= i < j < |cs| ==> cs[i] != cs[j]
    ensures |set c | c in cs| == |cs|
  {
    if cs != [] {
      var n := |cs| - 1;
      DistinctCount(cs[..n]);
      assert (set c | c in cs) == (set c | c in cs[..n]) + {cs[n]};
      assert cs[n] !in cs[..n];
    }
  }

  /** Its length is the number of categories. */
  lemma PostOrderCounts(t: Tree)
    requires Shaped(t)
    ensures |PostOrder(t)| == |Nodes(t)|
  {
    var cs := PostOrder(t);
    forall i, j | 0 <= i < j < |cs| ensures cs[i] != cs[j] {
      ListedOnce(t, i, j);
    }
    DistinctCount(cs);
    forall x | x in Nodes(t) ensures x in cs {
      NodeIsPostOrdered(t, x);
    }
    forall i | 0 <= i < |cs| ensures cs[i] in Nodes(t) {
      PostOrderIsNode(t, i);
    }
    assert Nodes(t) == set c | c in cs;
  }

  // ---- subtrees ----------------------------------------------------------------

  // The part of the tree that w is the root of.
  ghost function Subtree(t: Tree, w: Category): (s: Tree)
    requires w in Nodes(t)
    ensures s.c == w && Nodes(s) <= Nodes(t)
  {
    if t.c == w then t
    else Subtree(t.kids[KidOf(t, w)], w)
  }

  lemma {:induction false} SubtreeShaped(t: Tree, w: Category)
    requires Shaped(t) && w in Nodes(t)
    ensures Shaped(Subtree(t, w)) && (t.c in Nodes(Subtree(t, w)) <==> w == t.c)
  {
    if t.c != w {
      var k := KidOf(t, w);
      KidShaped(t, k);
      SubtreeShaped(t.kids[k], w);
    }
  }

  /** The numbers of a subtree are consecutive numbers of the tree. */
  lemma {:induction false} SubtreeSlice(t: Tree, w: Category) returns (lo: nat)
    requires w in Nodes(t)
    ensures var s := PostOrder(Subtree(t, w)); lo + |s| <= |PostOrder(t)| && PostOrder(t)[lo..lo + |s|] == s
  {
    if t.c == w {
      lo := 0;
    } else {
      var k := KidOf(t, w);
      var m := SubtreeSlice(t.kids[k], w);
      PostOrdersInclude(t.kids, k);
      lo := |PostOrders(t.kids[..k])| + m;
      SliceOfSlice(PostOrders(t.kids[..k]), PostOrder(t.kids[k]), PostOrder(t), m, PostOrder(Subtree(t, w)));
    }
  }

  lemma SliceOfSlice(front: seq<Category>, middle: seq<Category>, whole: seq<Category>, m: nat, s: seq<Category>)
    requires front + middle <= whole && m + |s| <= |middle| && middle[m..m + |s|] == s
    ensures |front| + m + |s| <= |whole| && whole[|front| + m..|front| + m + |s|] == s
  {
    var lo := |front| + m;
    forall i | 0 <= i < |s| ensures whole[lo..lo + |s|][i] == s[i] {
      assert whole[lo + i] == (front + middle)[lo + i] == middle[m + i];
    }
  }

  // A category lies in a subtree if and only if its place lies in the slice.
  lemma PlaceInSlice(t: Tree, w: Category, lo: nat, i: nat)
    requires w in Nodes(t) && i < |PostOrder(t)|
    requires var s := PostOrder(Subtree(t, w)); lo + |s| <= |PostOrder(t)| && PostOrder(t)[lo..lo + |s|] == s
    requires forall j :: 0 <= j < |PostOrder(t)| && j != i ==> PostOrder(t)[j] != PostOrder(t)[i]
    ensures PostOrder(t)[i] in Nodes(Subtree(t, w)) <==> lo <= i < lo + |PostOrder(Subtree(t, w))|
  {
    var s, c, whole := Subtree(t, w), PostOrder(t)[i], PostOrder(t);
    var part := PostOrder(s);
    if c in Nodes(s) {
      NodeIsPostOrdered(s, c);
      var j :| 0 <= j < |part| && part[j] == c;
      assert whole[lo..lo + |part|][j] == whole[lo + j];
    }
    if lo <= i < lo + |part| {
      PostOrderIsNode(s, i - lo);
      assert whole[lo..lo + |part|][i - lo] == c;
    }
  }

  /** In a numbered tree, the categories below w are those numbered in the interval that ends with w. */
  lemma SubtreeIsInterval(t: Tree, w: Category, c: Category, first: int)
    requires NumberedFrom(PostOrder(t), first) && w in Nodes(t) && c in Nodes(t)
    ensures c in Nodes(Subtree(t, w)) <==> w.id - |PostOrder(Subtree(t, w))| < c.id <= w.id
  {
    var part := PostOrder(Subtree(t, w));
    var lo := SubtreeSlice(t, w);
    NodeIsPostOrdered(t, c);
    var i :| 0 <= i < |PostOrder(t)| && PostOrder(t)[i] == c;
    assert part[|part| - 1] == w;
    assert PostOrder(t)[lo..lo + |part|][|part| - 1] == PostOrder(t)[lo + |part| - 1];
    forall j | 0 <= j < |PostOrder(t)| && j != i ensures PostOrder(t)[j] != c {
      assert PostOrder(t)[j].id == first + j && c.id == first + i;
    }
    PlaceInSlice(t, w, lo, i);
  }

  lemma {:induction false} ParentInTree(t: Tree, c: Category)
    requires Shaped(t) && c in Nodes(t) && c != t.c
    ensures c.parent != null && c.parent in Nodes(t)
  {
    var k := KidOf(t, c);
    KidShaped(t, k);
    if c != t.kids[k].c {
      ParentInTree(t.kids[k], c);
    }
  }

  /** A category other than the root is below w exactly if it is w or its parent is below w. */
  lemma {:induction false} Climb(t: Tree, w: Category, c: Category)
    requires Shaped(t) && w in Nodes(t) && c in Nodes(t) && c != t.c
    ensures c.parent != null && c.parent in Nodes(t)
    ensures c in Nodes(Subtree(t, w)) <==> c == w || c.parent in Nodes(Subtree(t, w))
  {
    ParentInTree(t, c);
    if w != t.c {
      var k, m := KidOf(t, w), KidOf(t, c);
      KidShaped(t, k);
      KidShaped(t, m);
      SubtreeShaped(t.kids[k], w);
      if c != t.kids[m].c {
        ParentInTree(t.kids[m], c);
        if m == k {
          Climb(t.kids[k], w, c);
        } else {
          NotInOther(t, k, m, c);
          NotInOther(t, k, m, c.parent);
        }
      } else if m != k {
        NotInOther(t, k, m, c);
      }
    }
  }

  // How far below the root a category is.
  ghost function Depth(t: Tree, c: Category): nat
    requires c in Nodes(t)
  {
    if c == t.c then 0
    else 1 + Depth(t.kids[KidOf(t, c)], c)
  }

  lemma {:induction false} ParentHigher(t: Tree, c: Category)
    requires Shaped(t) && c in Nodes(t) && c != t.c
    ensures c.parent != null && c.parent in Nodes(t) && Depth(t, c) == Depth(t, c.parent) + 1
  {
    ParentInTree(t, c);
    var k := KidOf(t, c);
    KidShaped(t, k);
    if c != t.kids[k].c {
      ParentHigher(t.kids[k], c);
      KidUnique(t, k, c.parent);
    }
  }

  lemma {:induction false} PrefixGrows(ts: seq<Tree>, i: nat, j: nat)
    requires i <= j <= |ts|
    ensures |PostOrders(ts[..i])| <= |PostOrders(ts[..j])|
  {
    if i < j {
      PrefixGrows(ts, i, j - 1);
      OneMore(ts, j - 1);
    }
  }

  lemma Position(s: Tree, i: nat, x: Category) returns (p: nat)
    requires i < |s.kids| && x in Nodes(s.kids[i])
    ensures |PostOrders(s.kids[..i])| <= p < |PostOrders(s.kids[..i + 1])| < |PostOrder(s)| && PostOrder(s)[p] == x
  {
    NodeIsPostOrdered(s.kids[i], x);
    var q :| 0 <= q < |PostOrder(s.kids[i])| && PostOrder(s.kids[i])[q] == x;
    p := |PostOrders(s.kids[..i])| + q;
    OneMore(s.kids, i);
    PostOrdersInclude(s.kids, i);
    assert (PostOrders(s.kids[..i]) + PostOrder(s.kids[i]))[p] == x;
  }

  /** The order the documentation asks for: what is below a child of w has a smaller number than w, and
      than what is below a child further right. */
  lemma DocumentedOrder(t: Tree, w: Category, first: int, i: nat, j: nat, x: Category, y: Category)
    requires NumberedFrom(PostOrder(t), first) && w in Nodes(t)
    requires i < j < |Subtree(t, w).kids| && x in Nodes(Subtree(t, w).kids[i]) && y in Nodes(Subtree(t, w).kids[j])
    ensures x.id < y.id < w.id
  {
    var s := Subtree(t, w);
    var lo := SubtreeSlice(t, w);
    var p := Position(s, i, x);
    var q := Position(s, j, y);
    PrefixGrows(s.kids, i + 1, j);
    forall k | 0 <= k < |PostOrder(s)| ensures PostOrder(s)[k].id == first + lo + k {
      assert PostOrder(t)[lo + k] == PostOrder(s)[k];
    }
    hide NumberedFrom;
    assert PostOrder(s)[|PostOrder(s)| - 1] == w;
  }

  // ---- keeping the tree --------------------------------------------------------

  // The tree with s as the last child of p.
  ghost function Graft(t: Tree, p: Category, s: Tree): (r: Tree)
    requires p in Nodes(t)
    ensures r.c == t.c
  {
    if t.c == p then Node(t.c, t.kids + [s])
    else Node(t.c, t.kids[KidOf(t, p) := Graft(t.kids[KidOf(t, p)], p, s)])
  }

  lemma {:induction false} GraftNodes(t: Tree, p: Category, s: Tree)
    requires p in Nodes(t)
    ensures Nodes(Graft(t, p, s)) == Nodes(t) + Nodes(s)
  {
    var r := Graft(t, p, s);
    if t.c == p {
      assert r.kids[|t.kids|] == s && forall k :: 0 <= k < |t.kids| ==> r.kids[k] == t.kids[k];
    } else {
      var k := KidOf(t, p);
      GraftNodes(t.kids[k], p, s);
      assert r.kids[k] == Graft(t.kids[k], p, s) && forall j :: 0 <= j < |t.kids| && j != k ==> r.kids[j] == t.kids[j];
    }
  }

  twostate lemma KidsKept(t: Tree, new m: nat)
    requires old(allocated(Nodes(t))) && old(Shaped(t))
    requires forall x :: x in Nodes(t) ==> x.parent == old(x.parent)
    requires forall k, x :: 0 <= k < |t.kids| && k != m && x in Nodes(t.kids[k]) && x in Nodes(t) ==> x.children == old(x.children)
    ensures forall k :: 0 <= k < |t.kids| && k != m ==> Shaped(t.kids[k])
  {
    forall k | 0 <= k < |t.kids| && k != m ensures Shaped(t.kids[k]) {
      ShapeKept(t.kids[k]);
    }
  }

  /** Linking the two roots makes the grafted tree. */
  twostate lemma {:induction false} GraftShaped(t: Tree, new p: Category, new s: Tree)
    requires old(allocated(Nodes(t))) && old(Shaped(t)) && p in Nodes(t) && Shaped(s) && Nodes(t) !! Nodes(s)
    requires forall x :: x in Nodes(t) ==> x.parent == old(x.parent)
    requires forall x :: x in Nodes(t) && x != p ==> x.children == old(x.children)
    requires old(allocated(p)) && p.children == old(p.children) + [s.c] && s.c.parent == p
    ensures Shaped(Graft(t, p, s))
  {
    if t.c == p {
      KidsKept(t, |t.kids|);
    } else {
      var k := KidOf(t, p);
      assert old(Shaped(t.kids[k])) && t.c !in Nodes(t.kids[k]);
      GraftShaped(t.kids[k], p, s);
      GraftNodes(t.kids[k], p, s);
      GrownKid(t, k, Graft(t.kids[k], p, s), s);
    }
  }

  // The subtree of one child has grown, and nothing else has changed.
  twostate lemma GrownKid(t: Tree, new k: nat, new r: Tree, new s: Tree)
    requires old(allocated(Nodes(t))) && old(Shaped(t)) && k < |t.kids|
    requires forall x :: x in Nodes(t) ==> x.parent == old(x.parent)
    requires forall x :: x in Nodes(t) && x !in Nodes(t.kids[k]) ==> x.children == old(x.children)
    ensures Shaped(r) && r.c == t.kids[k].c && Nodes(r) == Nodes(t.kids[k]) + Nodes(s) && Nodes(t) !! Nodes(s)
       ==> Shaped(Node(t.c, t.kids[k := r]))
  {
    KidsKept(t, k);
    forall j | 0 <= j < |t.kids| ensures t.kids[j].c.parent == t.c && t.c !in Nodes(t.kids[j]) {
      assert t.kids[j].c in Nodes(t.kids[j]);
    }
    hide Nodes;
    hide Shaped;
    if Shaped(r) && r.c == t.kids[k].c && Nodes(r) == Nodes(t.kids[k]) + Nodes(s) && Nodes(t) !! Nodes(s) {
      ReplacedKid(t, k, r, s);
    }
  }

  // A tree in which the subtree of one child has grown by new categories.
  lemma ReplacedKid(t: Tree, k: nat, r: Tree, s: Tree)
    requires k < |t.kids| && r.c == t.kids[k].c && Shaped(r) && Nodes(r) == Nodes(t.kids[k]) + Nodes(s) && Nodes(t) !! Nodes(s)
    requires t.c.children == Roots(t.kids)
    requires forall j :: 0 <= j < |t.kids| ==> t.kids[j].c.parent == t.c && t.c !in Nodes(t.kids[j]) && (j != k ==> Shaped(t.kids[j]))
    requires forall i, j :: 0 <= i < j < |t.kids| ==> Nodes(t.kids[i]) !! Nodes(t.kids[j])
    ensures Shaped(Node(t.c, t.kids[k := r]))
  {
    var kids := t.kids[k := r];
    assert Roots(kids) == Roots(t.kids);
    assert t.c in Nodes(t);
    StillApart(t, k, r, s);
    hide Nodes;
    hide Shaped;
    hide Roots;
    ShapedIf(Node(t.c, kids));
  }

  lemma StillApart(t: Tree, k: nat, r: Tree, s: Tree)
    requires k < |t.kids| && Nodes(r) == Nodes(t.kids[k]) + Nodes(s) && Nodes(t) !! Nodes(s)
    requires forall i, j :: 0 <= i < j < |t.kids| ==> Nodes(t.kids[i]) !! Nodes(t.kids[j])
    ensures var kids := t.kids[k := r]; forall i, j :: 0 <= i < j < |kids| ==> Nodes(kids[i]) !! Nodes(kids[j])
  {
    hide Nodes;
    var kids := t.kids[k := r];
    forall i, j | 0 <= i < j < |kids| ensures Nodes(kids[i]) !! Nodes(kids[j]) {
      assert Nodes(t.kids[i]) !! Nodes(t.kids[j]);
      KidWithin(t, i);
      KidWithin(t, j);
      if i == k {
        GrownApart(Nodes(t), Nodes(t.kids[i]), Nodes(t.kids[j]), Nodes(s));
      } else if j == k {
        GrownApart(Nodes(t), Nodes(t.kids[j]), Nodes(t.kids[i]), Nodes(s));
      }
    }
  }

  lemma KidWithin(t: Tree, k: nat)
    requires k < |t.kids|
    ensures Nodes(t.kids[k]) <= Nodes(t)
  {
  }

  lemma GrownApart(all: set<Category>, a: set<Category>, b: set<Category>, more: set<Category>)
    requires b <= all && all !! more && a !! b
    ensures (a + more) !! b
  {
  }

  lemma ShapedIf(t: Tree)
    requires t.c.children == Roots(t.kids)
    requires forall j :: 0 <= j < |t.kids| ==> Shaped(t.kids[j]) && t.kids[j].c.parent == t.c && t.c !in Nodes(t.kids[j])
    requires forall i, j :: 0 <= i < j < |t.kids| ==> Nodes(t.kids[i]) !! Nodes(t.kids[j])
    ensures Shaped(t)
  {
    hide Nodes;
    hide Roots;
  }

  /** In a tree, every category in the child list of another has that one as its parent, and is listed once. */
  lemma {:induction false} ChildLists(t: Tree, q: Category, i: nat, j: nat)
    requires Shaped(t) && q in Nodes(t) && i < |q.children| && j < |q.children|
    ensures q.children[i].parent == q && (i != j ==> q.children[i] != q.children[j])
  {
    if q == t.c {
      assert q.children[i] == t.kids[i].c && q.children[j] == t.kids[j].c;
    } else {
      var k := KidOf(t, q);
      ChildLists(t.kids[k], q, i, j);
    }
  }

  /** A listed child lies in the same tree, one level further down. */
  lemma {:induction false} ChildDeeper(t: Tree, q: Category, i: nat)
    requires Shaped(t) && q in Nodes(t) && i < |q.children|
    ensures q.children[i] in Nodes(t) && Depth(t, q.children[i]) == Depth(t, q) + 1
  {
    var y := q.children[i];
    var k := if q == t.c then i else KidOf(t, q);
    KidShaped(t, k);
    if q != t.c {
      ChildDeeper(t.kids[k], q, i);
    }
    KidUnique(t, k, y);
  }

  lemma {:induction false} ParentLists(t: Tree, c: Category)
    requires Shaped(t) && c in Nodes(t) && c != t.c
    ensures c.parent != null && c in c.parent.children
  {
    var k := KidOf(t, c);
    KidShaped(t, k);
    if c == t.kids[k].c {
      assert t.c.children[k] == c;
    } else {
      ParentLists(t.kids[k], c);
    }
  }

  /** The objects determine the tree below a category. */
  lemma {:induction false} ShapeUnique(t: Tree, s: Tree)
    requires Shaped(t) && Shaped(s) && t.c == s.c
    ensures t == s
  {
    assert Roots(t.kids) == Roots(s.kids) && |Roots(t.kids)| == |t.kids|;
    forall k | 0 <= k < |t.kids| ensures t.kids[k] == s.kids[k] {
      assert Roots(t.kids)[k] == Roots(s.kids)[k];
      ShapeUnique(t.kids[k], s.kids[k]);
    }
  }

  // A category that moves within its tree, but not below itself, has a parent that lists it.
  lemma SameTreeLists(t: Tree, s: Tree, p: Category)
    requires Shaped(t) && Shaped(s) && p in Nodes(t)
    ensures s.c in Nodes(t) && p !in Nodes(s) ==> Listed(s.c)
  {
    if s.c in Nodes(t) && p !in Nodes(s) {
      if s.c == t.c {
        ShapeUnique(t, s);
      } else {
        ParentLists(t, s.c);
      }
    }
  }

  // What was below a category stays below it as long as child lists only grow.
  twostate lemma {:induction false} StillBelow(w: Tree, new p: Category, new u: Tree)
    requires old(allocated(Nodes(w))) && old(Shaped(w)) && p in Nodes(w) && Shaped(u) && w.c in Nodes(u)
    requires forall x :: x in Nodes(w) ==> old(x.children) <= x.children
    ensures p in Nodes(u) && Depth(u, p) >= Depth(u, w.c)
  {
    if p != w.c {
      var k := KidOf(w, p);
      assert old(w.c.children) == Roots(w.kids);
      assert w.c.children[k] == w.kids[k].c;
      ChildDeeper(u, w.c, k);
      StillBelow(w.kids[k], p, u);
    }
  }

  twostate lemma NoCycle(s: Tree, new p: Category)
    requires old(allocated(Nodes(s))) && old(Shaped(s)) && p in Nodes(s)
    requires old(allocated(p)) && p.children == old(p.children) + [s.c]
    requires forall x :: x in Nodes(s) && x != p ==> x.children == old(x.children)
    ensures forall u | s.c in Nodes(u) :: !Shaped(u)
  {
    forall u | s.c in Nodes(u) && Shaped(u) ensures false {
      StillBelow(s, p, u);
      ChildDeeper(u, p, |p.children| - 1);
    }
  }

  lemma NoTree(u: Tree, q: Category, i: nat, j: nat)
    requires q in Nodes(u) && i < |q.children| && j < |q.children|
    requires q.children[i].parent != q || (i != j && q.children[i] == q.children[j])
    ensures !Shaped(u)
  {
    if Shaped(u) {
      ChildLists(u, q, i, j);
    }
  }

  lemma NoTreeAtAll(q: Category, i: nat, j: nat)
    requires i < |q.children| && j < |q.children|
    requires q.children[i].parent != q || (i != j && q.children[i] == q.children[j])
    ensures forall u | q in Nodes(u) :: !Shaped(u)
  {
    forall u | q in Nodes(u) ensures !Shaped(u) {
      NoTree(u, q, i, j);
    }
  }

  // ---- the filter --------------------------------------------------------------

  class WhitelistFilter {
    var whiteList: seq<Category>

    constructor ()
      ensures whiteList == []
    {
      whiteList := [];
    }

    method AddCategory(category: Category)
      modifies this
      ensures whiteList == old(whiteList) + [category]
    {
      whiteList := whiteList + [category];
    }

    /** Accepts a category if it or a category above it is listed. */
    function IsAcceptedCategory(category: Category, ghost t: Tree): (accepted: bool)
      requires Shaped(t) && t.c.parent == null && category in Nodes(t)
      reads this, Nodes(t)`children, Nodes(t)`parent
      decreases Depth(t, category)
    {
      if category in whiteList then true
      else if category.parent != null then
        ParentHigher(t, category);
        IsAcceptedCategory(category.parent, t)
      else false
    }
  }

  // A listed category is the root of a subtree that c lies in.
  ghost predicate BelowListed(list: seq<Category>, t: Tree, c: Category) {
    exists i :: 0 <= i < |list| && list[i] in Nodes(t) && c in Nodes(Subtree(t, list[i]))
  }

  /** The walk up the parents finds exactly the categories at or below a listed one. */
  lemma {:induction false} AcceptedBelowListed(f: WhitelistFilter, c: Category, t: Tree)
    requires Shaped(t) && t.c.parent == null && c in Nodes(t)
    ensures f.IsAcceptedCategory(c, t) <==> BelowListed(f.whiteList, t, c)
    decreases Depth(t, c)
  {
    var list := f.whiteList;
    if c in list {
      var i :| 0 <= i < |list| && list[i] == c;
      assert c in Nodes(Subtree(t, list[i]));
    } else if c == t.c {
      forall i | 0 <= i < |list| && list[i] in Nodes(t) ensures c !in Nodes(Subtree(t, list[i])) {
        SubtreeShaped(t, list[i]);
      }
    } else {
      ParentHigher(t, c);
      AcceptedBelowListed(f, c.parent, t);
      forall i | 0 <= i < |list| && list[i] in Nodes(t)
        ensures c in Nodes(Subtree(t, list[i])) <==> c.parent in Nodes(Subtree(t, list[i]))
      {
        Climb(t, list[i], c);
      }
    }
  }

  /** In a numbered tree the walk up the parents decides a test on the numbers alone. */
  lemma AcceptedByInterval(f: WhitelistFilter, c: Category, t: Tree, first: int)
    requires Shaped(t) && t.c.parent == null && c in Nodes(t) && NumberedFrom(PostOrder(t), first)
    ensures f.IsAcceptedCategory(c, t) <==>
      exists i :: 0 <= i < |f.whiteList| && f.whiteList[i] in Nodes(t)
        && f.whiteList[i].id - |PostOrder(Subtree(t, f.whiteList[i]))| < c.id <= f.whiteList[i].id
  {
    AcceptedBelowListed(f, c, t);
    forall i | 0 <= i < |f.whiteList| && f.whiteList[i] in Nodes(t)
      ensures c in Nodes(Subtree(t, f.whiteList[i])) <==>
        f.whiteList[i].id - |PostOrder(Subtree(t, f.whiteList[i]))| < c.id <= f.whiteList[i].id
    {
      SubtreeIsInterval(t, f.whiteList[i], c, first);
    }
  }
}
