/** A tree of messages with its index of status messages (messaging/trees/data.py). */
module MessageTree {
  import opened Prelude

  datatype MessageState = Pending | InProgress | Completed | Error

  datatype Node = Node(id: string, status: string, state: MessageState, parent: Option<string>, children: seq<string>)

  /** The nodes by id, and the node id of each status message. */
  datatype Tree = Tree(root: string, nodes: map<string, Node>, index: map<string, string>)

  // ---------------------------------------------------------------------------------------------
  // Well-formed trees.

  /** A node's own record: every node but the root is a child of its parent. */
  ghost predicate GoodNode(t: Tree, depth: map<string, nat>, n: string) {
    && n in t.nodes && n in depth && t.nodes[n].id == n && Distinct(t.nodes[n].children)
    && if n == t.root then t.nodes[n].parent.None?
       else t.nodes[n].parent.Some? && t.nodes[n].parent.value in t.nodes
            && n in t.nodes[t.nodes[n].parent.value].children
  }

  /** A child names its parent and lies one level below it. */
  ghost predicate GoodLink(t: Tree, depth: map<string, nat>, n: string, c: string) {
    n in depth && c in depth && c in t.nodes && t.nodes[c].parent == Some(n) && depth[c] == depth[n] + 1
  }

  ghost predicate Linked(t: Tree, depth: map<string, nat>) {
    && t.root in t.nodes
    && (forall n {:trigger GoodNode(t, depth, n)} :: n in t.nodes ==> GoodNode(t, depth, n))
    && (forall n, c {:trigger GoodLink(t, depth, n, c)} ::
          n in t.nodes && c in t.nodes[n].children ==> GoodLink(t, depth, n, c))
  }

  /** The index maps each status message to its node, and nothing else. */
  ghost predicate Indexed(t: Tree) {
    && (forall n :: n in t.nodes ==> t.nodes[n].status in t.index && t.index[t.nodes[n].status] == n)
    && (forall s :: s in t.index ==> t.index[s] in t.nodes && t.nodes[t.index[s]].status == s)
  }

  ghost predicate WellFormed(t: Tree) {
    Indexed(t) && exists depth :: Linked(t, depth)
  }

  ghost predicate IsChild(t: Tree, n: string, c: string) {
    n in t.nodes && c in t.nodes && c in t.nodes[n].children
  }

  /** A walk down from child to child. */
  ghost predicate Path(t: Tree, p: seq<string>) {
    && p != []
    && if |p| == 1 then p[0] in t.nodes else Path(t, p[..|p| - 1]) && IsChild(t, p[|p| - 2], p[|p| - 1])
  }

  ghost predicate PathBetween(t: Tree, p: seq<string>, a: string, b: string) {
    Path(t, p) && p[0] == a && p[|p| - 1] == b
  }

  ghost predicate Reaches(t: Tree, a: string, b: string) {
    exists p :: PathBetween(t, p, a, b)
  }

  /** The half of being linked that a walk down relies on: children have one parent and lie deeper. */
  ghost predicate Downward(t: Tree, depth: map<string, nat>) {
    && (forall n :: n in t.nodes ==> n in depth && Distinct(t.nodes[n].children))
    && (forall n, c {:trigger GoodLink(t, depth, n, c)} ::
          n in t.nodes && c in t.nodes[n].children ==> GoodLink(t, depth, n, c))
  }

  lemma LinkedIsDownward(t: Tree, depth: map<string, nat>)
    requires Linked(t, depth)
    ensures Downward(t, depth)
  {
    forall n | n in t.nodes
      ensures n in depth && Distinct(t.nodes[n].children)
    {
      assert GoodNode(t, depth, n);
    }
  }

  lemma {:induction false} PathDepth(t: Tree, depth: map<string, nat>, p: seq<string>)
    requires Downward(t, depth) && Path(t, p)
    ensures p[|p| - 1] in t.nodes && p[0] in depth && p[|p| - 1] in depth
    ensures depth[p[|p| - 1]] == depth[p[0]] + |p| - 1
  {
    if |p| > 1 {
      var q := p[..|p| - 1];
      PathDepth(t, depth, q);
      assert GoodLink(t, depth, q[|q| - 1], p[|p| - 1]);
    }
  }

  lemma ReachesSelf(t: Tree, a: string)
    requires a in t.nodes
    ensures Reaches(t, a, a)
  {
    assert PathBetween(t, [a], a, a);
  }

  lemma ReachesChild(t: Tree, a: string, b: string, c: string)
    requires Reaches(t, a, b) && b in t.nodes && c in t.nodes && c in t.nodes[b].children
    ensures Reaches(t, a, c)
  {
    var p :| PathBetween(t, p, a, b);
    assert (p + [c])[..|p|] == p;
    assert PathBetween(t, p + [c], a, c);
  }

  lemma {:induction false} PathStart(t: Tree, p: seq<string>)
    requires Path(t, p)
    ensures p[0] in t.nodes && p[|p| - 1] in t.nodes
  {
    if |p| > 1 { PathStart(t, p[..|p| - 1]); }
  }

  lemma ReachesIn(t: Tree, a: string, b: string)
    requires Reaches(t, a, b)
    ensures a in t.nodes && b in t.nodes
  {
    var p :| PathBetween(t, p, a, b);
    PathStart(t, p);
  }

  /** What reaches a proper descendant reaches its parent. */
  lemma ReachesParent(t: Tree, a: string, b: string) returns (parent: string)
    requires WellFormed(t) && Reaches(t, a, b) && a != b
    ensures b in t.nodes && t.nodes[b].parent == Some(parent) && Reaches(t, a, parent)
  {
    var depth :| Linked(t, depth);
    var p :| PathBetween(t, p, a, b);
    parent := p[|p| - 2];
    assert GoodLink(t, depth, parent, b);
    assert PathBetween(t, p[..|p| - 1], a, parent);
  }

  /** No node lies below itself: only the path that goes nowhere leads back. */
  lemma NoCycle(t: Tree, p: seq<string>)
    requires WellFormed(t) && Path(t, p) && p[0] == p[|p| - 1]
    ensures |p| == 1
  {
    var depth :| Linked(t, depth);
    LinkedIsDownward(t, depth);
    PathDepth(t, depth, p);
  }

  /** Every node can be reached from the root. */
  lemma RootReachesAll(t: Tree, n: string)
    requires WellFormed(t) && n in t.nodes
    ensures Reaches(t, t.root, n)
  {
    var depth :| Linked(t, depth);
    RootReaches(t, depth, n);
  }

  lemma {:induction false} RootReaches(t: Tree, depth: map<string, nat>, n: string)
    requires Linked(t, depth) && n in t.nodes
    ensures Reaches(t, t.root, n)
    decreases if n in depth then depth[n] else 0
  {
    assert GoodNode(t, depth, n);
    if n == t.root {
      ReachesSelf(t, n);
    } else {
      var parent := t.nodes[n].parent.value;
      assert GoodLink(t, depth, parent, n);
      RootReaches(t, depth, parent);
      ReachesChild(t, t.root, parent, n);
    }
  }

  /** A set that holds the start and every child of its members holds everything reached. */
  lemma {:induction false} ClosedHoldsPath(t: Tree, closed: set<string>, p: seq<string>)
    requires Path(t, p) && p[0] in closed
    requires forall n, c :: n in closed && n in t.nodes && c in t.nodes[n].children ==> c in closed
    ensures p[|p| - 1] in closed
  {
    if |p| > 1 {
      var q := p[..|p| - 1];
      ClosedHoldsPath(t, closed, q);
    }
  }

  lemma ClosedHoldsReached(t: Tree, closed: set<string>, a: string, b: string)
    requires Reaches(t, a, b) && a in closed
    requires forall n, c :: n in closed && n in t.nodes && c in t.nodes[n].children ==> c in closed
    ensures b in closed
  {
    var p :| PathBetween(t, p, a, b);
    ClosedHoldsPath(t, closed, p);
  }

  // ---------------------------------------------------------------------------------------------
  // Adding a node.

  function Grown(t: Tree, id: string, status: string, parent: string): Tree
    requires parent in t.nodes
  {
    var nodes := t.nodes[id := Node(id, status, Pending, Some(parent), [])];
    t.(nodes := nodes[parent := nodes[parent].(children := nodes[parent].children + [id])], index := t.index[status := id])
  }

  lemma ChildrenAreNodes(t: Tree, depth: map<string, nat>, n: string)
    requires Linked(t, depth) && n in t.nodes
    ensures forall c :: c in t.nodes[n].children ==> c in t.nodes && t.nodes[c].parent == Some(n)
  {
    forall c | c in t.nodes[n].children
      ensures c in t.nodes && t.nodes[c].parent == Some(n)
    {
      assert GoodLink(t, depth, n, c);
    }
  }

  lemma GrownIsLinked(t: Tree, depth: map<string, nat>, id: string, status: string, parent: string)
    requires Linked(t, depth) && parent in t.nodes && parent in depth && id !in t.nodes
    ensures Linked(Grown(t, id, status, parent), depth[id := depth[parent] + 1])
  {
    var t', depth' := Grown(t, id, status, parent), depth[id := depth[parent] + 1];
    ChildrenAreNodes(t, depth, parent);
    forall n | n in t'.nodes
      ensures GoodNode(t', depth', n)
    {
      if n != id { assert GoodNode(t, depth, n); }
      if n == parent { DistinctSnoc(t.nodes[parent].children, id); }
    }
    forall n, c | n in t'.nodes && c in t'.nodes[n].children
      ensures GoodLink(t', depth', n, c)
    {
      if n in t.nodes { ChildrenAreNodes(t, depth, n); }
      if c != id { assert GoodLink(t, depth, n, c); }
    }
  }

  lemma GrownIsIndexed(t: Tree, id: string, status: string, parent: string)
    requires Indexed(t) && parent in t.nodes && id !in t.nodes
    ensures Indexed(Grown(t, id, status, parent)) <==> status !in t.index
  {
    var t' := Grown(t, id, status, parent);
    if status in t.index {
      var owner := t.index[status];
      assert owner != id && t'.nodes[owner].status == status && t'.index[status] == id;
    } else {
      assert forall n :: n in t.nodes ==> t'.nodes[n].status == t.nodes[n].status;
    }
  }

  lemma NotDistinctAppend(s: seq<string>, x: string)
    requires x in s
    ensures !Distinct(s + [x])
  {
    var k :| 0 <= k < |s| && s[k] == x;
    assert (s + [x])[k] == (s + [x])[|s|];
  }

  lemma ReusedIdBreaksTree(t: Tree, before: map<string, nat>, depth: map<string, nat>, id: string, status: string,
                           parent: string)
    requires Linked(t, before) && parent in t.nodes && id in t.nodes
    ensures !Linked(Grown(t, id, status, parent), depth)
  {
    var t' := Grown(t, id, status, parent);
    assert GoodNode(t, before, id);
    assert t'.nodes[id].parent == Some(parent);
    if id == t.root {
      assert !GoodNode(t', depth, id);
    } else {
      var was := t.nodes[id].parent.value;
      assert GoodLink(t, before, was, id);
      if was != parent {
        assert id in t'.nodes[was].children;
        assert !GoodLink(t', depth, was, id);
      } else {
        NotDistinctAppend(t.nodes[parent].children, id);
        assert !GoodNode(t', depth, parent);
      }
    }
  }

  /** Adding keeps a tree well-formed exactly when neither the node id nor the status id was used. */
  lemma AddKeepsWellFormed(t: Tree, id: string, status: string, parent: string)
    requires WellFormed(t) && parent in t.nodes
    ensures WellFormed(Grown(t, id, status, parent)) <==> id !in t.nodes && status !in t.index
  {
    var depth :| Linked(t, depth);
    if id in t.nodes {
      forall depth' {:trigger Linked(Grown(t, id, status, parent), depth')}
        ensures !Linked(Grown(t, id, status, parent), depth')
      {
        ReusedIdBreaksTree(t, depth, depth', id, status, parent);
      }
    } else {
      assert GoodNode(t, depth, parent);
      GrownIsLinked(t, depth, id, status, parent);
      GrownIsIndexed(t, id, status, parent);
    }
  }

  // ---------------------------------------------------------------------------------------------
  // Removing a branch.

  function PrunedNode(t: Tree, branch: string, n: string): Node
    requires branch in t.nodes && n in t.nodes
  {
    if t.nodes[branch].parent == Some(n) && n != "" then t.nodes[n].(children := Without(t.nodes[n].children, branch)) else t.nodes[n]
  }

  /**
    `u` is `t` without the nodes of `gone` and their status entries, and without the link to `branch`.
    An empty parent id counts as no parent, so the link from a node with that id stays.
   */
  ghost predicate Pruned(t: Tree, u: Tree, gone: set<string>, branch: string)
    requires branch in t.nodes
  {
    && u.root == t.root
    && (forall n :: n in u.nodes <==> n in t.nodes && n !in gone)
    && (forall n :: n in u.nodes ==> u.nodes[n] == PrunedNode(t, branch, n))
    && (forall s :: s in u.index <==> s in t.index && t.index[s] !in gone)
    && (forall s :: s in u.index ==> u.index[s] == t.index[s])
  }

  ghost predicate IsSubtree(t: Tree, branch: string, gone: set<string>) {
    forall n :: n in gone <==> Reaches(t, branch, n)
  }

  lemma RootStays(t: Tree, depth: map<string, nat>, branch: string, gone: set<string>)
    requires Linked(t, depth) && WellFormed(t) && branch in t.nodes && branch != t.root && IsSubtree(t, branch, gone)
    ensures t.root !in gone
  {
    assert GoodNode(t, depth, t.root);
    if t.root in gone { var p := ReachesParent(t, branch, t.root); }
  }

  lemma ParentStays(t: Tree, depth: map<string, nat>, branch: string, gone: set<string>, n: string)
    requires Linked(t, depth) && branch in t.nodes && IsSubtree(t, branch, gone)
    requires n in t.nodes && n !in gone && n != t.root
    ensures t.nodes[n].parent.Some? && t.nodes[n].parent.value in t.nodes && t.nodes[n].parent.value !in gone
    ensures n in t.nodes[t.nodes[n].parent.value].children
  {
    assert GoodNode(t, depth, n);
    var parent := t.nodes[n].parent.value;
    if parent in gone { ReachesChild(t, branch, parent, n); }
  }

  lemma ChildStays(t: Tree, depth: map<string, nat>, branch: string, gone: set<string>, n: string, c: string)
    requires Linked(t, depth) && WellFormed(t) && branch in t.nodes && IsSubtree(t, branch, gone)
    requires n in t.nodes && n !in gone && c in t.nodes[n].children && c != branch
    ensures GoodLink(t, depth, n, c) && c !in gone
  {
    assert GoodLink(t, depth, n, c);
    if c in gone {
      var p := ReachesParent(t, branch, c);
    }
  }

  lemma PrunedIsLinked(t: Tree, u: Tree, depth: map<string, nat>, branch: string, gone: set<string>)
    requires WellFormed(t) && Linked(t, depth) && branch in t.nodes && branch != t.root && IsSubtree(t, branch, gone)
    requires Pruned(t, u, gone, branch) && t.nodes[branch].parent != Some("")
    ensures Linked(u, depth)
  {
    RootStays(t, depth, branch, gone);
    ReachesSelf(t, branch);
    hide Reaches;
    forall n | n in u.nodes
      ensures GoodNode(u, depth, n)
    {
      assert GoodNode(t, depth, n);
      WithoutDistinct(t.nodes[n].children, branch);
      if n != t.root { ParentStays(t, depth, branch, gone, n); }
    }
    forall n, c | n in u.nodes && c in u.nodes[n].children
      ensures GoodLink(u, depth, n, c)
    {
      ChildrenAreNodes(t, depth, n);
      ChildStays(t, depth, branch, gone, n, c);
    }
  }

  lemma PrunedIsIndexed(t: Tree, u: Tree, branch: string, gone: set<string>)
    requires Indexed(t) && branch in t.nodes && Pruned(t, u, gone, branch)
    ensures Indexed(u)
  {
    forall n | n in u.nodes
      ensures u.nodes[n].status == t.nodes[n].status
    {
    }
  }

  lemma DanglingLink(t: Tree, u: Tree, before: map<string, nat>, depth: map<string, nat>, branch: string,
                     gone: set<string>)
    requires WellFormed(t) && Linked(t, before) && branch in t.nodes && IsSubtree(t, branch, gone)
    requires Pruned(t, u, gone, branch) && (branch == t.root || t.nodes[branch].parent == Some(""))
    ensures !Linked(u, depth)
  {
    ReachesSelf(t, branch);
    assert GoodNode(t, before, branch);
    if branch != t.root {
      ParentOutside(t, before, branch, gone);
      assert branch in u.nodes[""].children;
      assert !GoodLink(u, depth, "", branch);
    }
  }

  lemma ParentOutside(t: Tree, depth: map<string, nat>, branch: string, gone: set<string>)
    requires Linked(t, depth) && branch in t.nodes && branch != t.root && IsSubtree(t, branch, gone)
    ensures t.nodes[branch].parent.Some? && t.nodes[branch].parent.value in t.nodes
    ensures t.nodes[branch].parent.value !in gone && branch in t.nodes[t.nodes[branch].parent.value].children
  {
    assert GoodNode(t, depth, branch);
    var parent := t.nodes[branch].parent.value;
    assert GoodLink(t, depth, parent, branch);
    if parent in gone {
      var p :| PathBetween(t, p, branch, parent);
      LinkedIsDownward(t, depth);
      PathDepth(t, depth, p);
    }
  }

  /** Removing a branch leaves a well-formed tree exactly when it is not the root's and its parent's id is not empty. */
  lemma RemoveKeepsWellFormed(t: Tree, u: Tree, branch: string, gone: set<string>)
    requires WellFormed(t) && branch in t.nodes && IsSubtree(t, branch, gone) && Pruned(t, u, gone, branch)
    ensures WellFormed(u) <==> branch != t.root && t.nodes[branch].parent != Some("")
  {
    var depth :| Linked(t, depth);
    if branch != t.root && t.nodes[branch].parent != Some("") {
      PrunedIsLinked(t, u, depth, branch, gone);
      PrunedIsIndexed(t, u, branch, gone);
    } else {
      forall depth' {:trigger Linked(u, depth')}
        ensures !Linked(u, depth')
      {
        DanglingLink(t, u, depth, depth', branch, gone);
      }
    }
  }

  /** The state of a removal that has deleted the nodes `done` so far. */
  ghost predicate Deleted(t: Tree, u: Tree, done: seq<string>, removed: seq<Node>) {
    && u.root == t.root
    && (forall n :: n in u.nodes <==> n in t.nodes && n !in done)
    && (forall n :: n in u.nodes ==> u.nodes[n] == t.nodes[n])
    && (forall s :: s in u.index <==> s in t.index && t.index[s] !in done)
    && (forall s :: s in u.index ==> u.index[s] == t.index[s])
    && |removed| == |done|
    && (forall k :: 0 <= k < |done| ==> done[k] in t.nodes && removed[k] == t.nodes[done[k]])
  }

  lemma DeleteNext(t: Tree, u: Tree, ids: seq<string>, i: nat, removed: seq<Node>)
    requires i < |ids| && Distinct(ids) && ids[i] in t.nodes
    requires Indexed(t) && Deleted(t, u, ids[..i], removed)
    ensures var nid := ids[i];
            && nid in u.nodes && u.nodes[nid].status in u.index
            && Deleted(t, Tree(u.root, u.nodes - {nid}, u.index - {u.nodes[nid].status}), ids[..i + 1],
                       removed + [u.nodes[nid]])
  {
    var nid := ids[i];
    TakeNext(ids, i);
    assert u.nodes[nid] == t.nodes[nid];
    assert t.index[t.nodes[nid].status] == nid;
  }

  lemma DeletedIsPruned(t: Tree, u: Tree, u': Tree, done: seq<string>, removed: seq<Node>, branch: string)
    requires branch in t.nodes && Deleted(t, u, done, removed)
    requires u'.root == u.root && u'.index == u.index && u'.nodes.Keys == u.nodes.Keys
    requires forall n :: n in u.nodes ==> u'.nodes[n] == PrunedNode(t, branch, n)
    ensures Pruned(t, u', Elements(done), branch)
  {
  }

  lemma RemovedMeans(t: Tree, u: Tree, done: seq<string>, removed: seq<Node>)
    requires WellFormed(t) && Deleted(t, u, done, removed) && Distinct(done)
    ensures Distinct(removed)
    ensures forall n :: n in removed <==> n.id in t.nodes && t.nodes[n.id] == n && n.id in done
  {
    var depth :| Linked(t, depth);
    forall k | 0 <= k < |done|
      ensures removed[k].id == done[k]
    {
      assert GoodNode(t, depth, done[k]);
    }
  }

  /** After all nodes of a branch are deleted, the parent of its top is still there. */
  lemma BranchDeleted(t: Tree, u: Tree, branch: string, done: seq<string>, removed: seq<Node>)
    requires WellFormed(t) && branch in t.nodes && Deleted(t, u, done, removed) && Distinct(done)
    requires forall x :: x in done <==> Reaches(t, branch, x)
    ensures IsSubtree(t, branch, Elements(done)) && Distinct(removed)
    ensures forall n :: n in removed <==> n.id in t.nodes && t.nodes[n.id] == n && Reaches(t, branch, n.id)
    ensures forall n :: n in u.nodes ==> n in t.nodes && u.nodes[n] == t.nodes[n]
    ensures var parent := t.nodes[branch].parent;
            parent.Some? ==> parent.value in u.nodes && branch in u.nodes[parent.value].children
  {
    RemovedMeans(t, u, done, removed);
    var depth :| Linked(t, depth);
    assert GoodNode(t, depth, branch);
    hide Reaches, Linked;
    assert IsSubtree(t, branch, Elements(done));
    if branch != t.root { ParentOutside(t, depth, branch, Elements(done)); }
  }

  // ---------------------------------------------------------------------------------------------
  // Walking a subtree with a stack.

  /** Where a walk from `start` stands: what is listed and what waits on the stack. */
  ghost predicate Walking(t: Tree, start: string, result: seq<string>, stack: seq<string>) {
    && Distinct(result) && Distinct(stack)
    && (forall x :: x in result ==> x !in stack)
    && (forall x :: x in result || x in stack ==> Reaches(t, start, x))
    && (start in result || start in stack)
    && (forall n, c :: n in result && n in t.nodes && c in t.nodes[n].children ==> c in result || c in stack)
    && (forall x :: (x in result || x in stack) && x != start && x in t.nodes ==>
          t.nodes[x].parent.Some? && t.nodes[x].parent.value in result)
  }

  lemma WalkStarts(t: Tree, start: string)
    requires start in t.nodes
    ensures Walking(t, start, [], [start])
  {
    ReachesSelf(t, start);
  }

  lemma ChildIsNew(t: Tree, depth: map<string, nat>, start: string, result: seq<string>, stack: seq<string>, c: string)
    requires Downward(t, depth) && Walking(t, start, result, stack) && stack != []
    requires stack[|stack| - 1] in t.nodes && c in t.nodes[stack[|stack| - 1]].children
    ensures c !in result && c !in stack && c in t.nodes && t.nodes[c].parent == Some(stack[|stack| - 1])
  {
    var top := stack[|stack| - 1];
    assert GoodLink(t, depth, top, c);
    assert top in stack && top !in result;
    if c == start {
      var p :| PathBetween(t, p, start, top);
      PathDepth(t, depth, p);
    }
  }

  lemma DistinctAppend(a: seq<string>, b: seq<string>)
    requires Distinct(a) && Distinct(b) && forall x :: x in b ==> x !in a
    ensures Distinct(a + b)
  {
    forall i, j | 0 <= i < j < |a + b|
      ensures (a + b)[i] != (a + b)[j]
    {
      if i < |a| <= j { assert b[j - |a|] in b && a[i] in a; }
    }
  }

  lemma PopMeans(stack: seq<string>)
    requires stack != [] && Distinct(stack)
    ensures var top, rest := stack[|stack| - 1], stack[..|stack| - 1];
            && Distinct(rest) && top !in rest && forall x :: x in stack <==> x in rest || x == top
  {
    assert stack == stack[..|stack| - 1] + [stack[|stack| - 1]];
  }

  /** The children of the top are new to the walk, and reached. */
  lemma ChildrenAreNew(t: Tree, depth: map<string, nat>, start: string, result: seq<string>, stack: seq<string>)
    requires Downward(t, depth) && Walking(t, start, result, stack) && stack != []
    ensures var top := stack[|stack| - 1];
            && top in t.nodes && Distinct(t.nodes[top].children)
            && forall c :: c in t.nodes[top].children ==>
                 && c !in result && c !in stack && c in t.nodes && t.nodes[c].parent == Some(top) && Reaches(t, start, c)
  {
    var top := stack[|stack| - 1];
    assert top in stack && Reaches(t, start, top);
    ReachesIn(t, start, top);
    forall c | c in t.nodes[top].children
      ensures c !in result && c !in stack && c in t.nodes && t.nodes[c].parent == Some(top) && Reaches(t, start, c)
    {
      ChildIsNew(t, depth, start, result, stack, c);
      ReachesChild(t, start, top, c);
    }
  }

  /** Listing the top of the stack and pushing its children continues the walk. */
  lemma WalkStep(t: Tree, depth: map<string, nat>, start: string, result: seq<string>, stack: seq<string>)
    requires Downward(t, depth) && Walking(t, start, result, stack) && stack != []
    ensures stack[|stack| - 1] in t.nodes
    ensures Walking(t, start, result + [stack[|stack| - 1]], stack[..|stack| - 1] + t.nodes[stack[|stack| - 1]].children)
  {
    var top, rest := stack[|stack| - 1], stack[..|stack| - 1];
    ChildrenAreNew(t, depth, start, result, stack);
    PopMeans(stack);
    hide Downward, Reaches;
    var children := t.nodes[top].children;
    DistinctSnoc(result, top);
    DistinctAppend(rest, children);
    hide Distinct;
    assert forall x :: x in result + [top] <==> x in result || x == top;
    assert forall x :: x in rest + children <==> x in rest || x in children;
  }

  /** A walk with an empty stack has listed the subtree. */
  lemma WalkEnds(t: Tree, start: string, result: seq<string>)
    requires Walking(t, start, result, [])
    ensures forall x :: x in result <==> Reaches(t, start, x)
  {
    forall x | Reaches(t, start, x)
      ensures x in result
    {
      ClosedHoldsReached(t, Elements(result), start, x);
    }
  }

  lemma {:induction false} DistinctBound(s: seq<string>, bound: set<string>)
    requires Distinct(s) && forall x :: x in s ==> x in bound
    ensures |s| <= |bound|
    decreases |s|
  {
    if s != [] {
      var front, last := s[..|s| - 1], s[|s| - 1];
      assert s == front + [last] && last !in front;
      DistinctBound(front, bound - {last});
    }
  }

  lemma WalkIsBounded(t: Tree, start: string, result: seq<string>, stack: seq<string>)
    requires Walking(t, start, result, stack)
    ensures |result| <= |t.nodes.Keys|
  {
    forall x | x in result
      ensures x in t.nodes.Keys
    {
      ReachesIn(t, start, x);
    }
    DistinctBound(result, t.nodes.Keys);
  }

  // The part of a tree that is waiting to be processed.

  function PendingOnly(nodes: map<string, Node>, children: seq<string>): (r: seq<string>)
    ensures forall c :: c in r <==> c in children && c in nodes && nodes[c].state == Pending
  {
    if children == [] then []
    else
      var last := children[|children| - 1];
      PendingOnly(nodes, children[..|children| - 1])
      + if last in nodes && nodes[last].state == Pending then [last] else []
  }

  lemma PendingNext(nodes: map<string, Node>, children: seq<string>, i: nat)
    requires i < |children|
    ensures PendingOnly(nodes, children[..i + 1]) ==
            PendingOnly(nodes, children[..i])
            + if children[i] in nodes && nodes[children[i]].state == Pending then [children[i]] else []
  {
    assert children[..i + 1][..i] == children[..i];
    NothingMore(PendingOnly(nodes, children[..i]));
  }

  lemma {:induction false} PendingOnlyDistinct(nodes: map<string, Node>, children: seq<string>)
    requires Distinct(children)
    ensures Distinct(PendingOnly(nodes, children))
  {
    if children != [] {
      var front, last := children[..|children| - 1], children[|children| - 1];
      PendingOnlyDistinct(nodes, front);
      assert last !in front;
      if last in nodes && nodes[last].state == Pending { DistinctSnoc(PendingOnly(nodes, front), last); }
    }
  }

  /** The tree with the links to nodes that are not pending left out. */
  function PendingPart(t: Tree): Tree {
    t.(nodes := map n | n in t.nodes :: t.nodes[n].(children := PendingOnly(t.nodes, t.nodes[n].children)))
  }

  /** Every node of the path but the first is pending. */
  ghost predicate PendingPath(t: Tree, p: seq<string>) {
    && p != []
    && if |p| == 1 then p[0] in t.nodes
       else PendingPath(t, p[..|p| - 1]) && IsChild(t, p[|p| - 2], p[|p| - 1]) && t.nodes[p[|p| - 1]].state == Pending
  }

  ghost predicate PendingBelow(t: Tree, a: string, b: string) {
    exists p :: PendingPath(t, p) && |p| > 1 && p[0] == a && p[|p| - 1] == b
  }

  lemma PendingPartIsDownward(t: Tree, depth: map<string, nat>)
    requires Downward(t, depth)
    ensures Downward(PendingPart(t), depth)
  {
    var u := PendingPart(t);
    forall n | n in u.nodes
      ensures n in depth && Distinct(u.nodes[n].children)
    {
      PendingOnlyDistinct(t.nodes, t.nodes[n].children);
    }
    forall n, c | n in u.nodes && c in u.nodes[n].children
      ensures GoodLink(u, depth, n, c)
    {
      assert GoodLink(t, depth, n, c);
    }
  }

  lemma {:induction false} PendingPaths(t: Tree, p: seq<string>)
    ensures Path(PendingPart(t), p) <==> PendingPath(t, p)
  {
    if |p| > 1 {
      var q := p[..|p| - 1];
      PendingPaths(t, q);
    }
  }

  /** Pending nodes below a node are those the pending part reaches, other than itself. */
  lemma PendingBelowMeans(t: Tree, depth: map<string, nat>, a: string, b: string)
    requires Downward(t, depth)
    ensures PendingBelow(t, a, b) <==> Reaches(PendingPart(t), a, b) && a != b
  {
    var u := PendingPart(t);
    PendingPartIsDownward(t, depth);
    if PendingBelow(t, a, b) {
      var p :| PendingPath(t, p) && |p| > 1 && p[0] == a && p[|p| - 1] == b;
      PendingPaths(t, p);
      PathDepth(u, depth, p);
      assert PathBetween(u, p, a, b);
    }
    if Reaches(u, a, b) && a != b {
      var p :| PathBetween(u, p, a, b);
      PendingPaths(t, p);
    }
  }

  /** `pending` holds everything met on the walk but the start, once each. */
  ghost predicate Met(start: string, result: seq<string>, stack: seq<string>, pending: seq<string>) {
    Distinct(pending) && forall x :: x in pending <==> (x in result || x in stack) && x != start
  }

  lemma AllMet(start: string, result: seq<string>, pending: seq<string>)
    requires Met(start, result, [], pending)
    ensures Distinct(pending) && forall x :: x in pending <==> x in result && x != start
  {
  }

  lemma MeetChildren(t: Tree, depth: map<string, nat>, start: string, result: seq<string>, stack: seq<string>,
                     pending: seq<string>)
    requires Downward(t, depth) && Walking(t, start, result, stack) && Met(start, result, stack, pending)
    requires stack != [] && stack[|stack| - 1] in t.nodes
    ensures var top := stack[|stack| - 1];
            Met(start, result + [top], stack[..|stack| - 1] + t.nodes[top].children, pending + t.nodes[top].children)
  {
    var top, rest := stack[|stack| - 1], stack[..|stack| - 1];
    var children := t.nodes[top].children;
    forall c | c in children
      ensures c !in result && c !in stack && c != start
    {
      ChildIsNew(t, depth, start, result, stack, c);
      assert start in result || start in stack;
    }
    assert forall x :: x in stack <==> x in rest || x == top;
    assert Distinct(children);
    hide Downward, Walking;
    DistinctAppend(pending, children);
  }

  // ---------------------------------------------------------------------------------------------
  // The tree object.

  class MessageTree {
    const rootId: string
    var nodes: map<string, Node>
    var statusToNode: map<string, string>

    function State(): Tree
      reads this
    {
      Tree(rootId, nodes, statusToNode)
    }

    constructor (id: string, status: string)
      ensures State() == Tree(id, map[id := Node(id, status, Pending, None, [])], map[status := id])
      ensures WellFormed(State())
    {
      rootId := id;
      nodes := map[id := Node(id, status, Pending, None, [])];
      statusToNode := map[status := id];
      new;
      assert Linked(State(), map[id := 0]);
    }

    /** False stands for the error raised when the parent is not in the tree. */
    method AddNode(id: string, status: string, parent: string) returns (added: bool)
      modifies this
      ensures added == (parent in old(nodes))
      ensures State() == if added then Grown(old(State()), id, status, parent) else old(State())
      ensures added && old(WellFormed(State())) ==>
                (WellFormed(State()) <==> id !in old(nodes) && status !in old(statusToNode))
    {
      if parent !in nodes { return false; }
      ghost var before := State();
      nodes := nodes[id := Node(id, status, Pending, Some(parent), [])];
      statusToNode := statusToNode[status := id];
      nodes := nodes[parent := nodes[parent].(children := nodes[parent].children + [id])];
      if WellFormed(before) { AddKeepsWellFormed(before, id, status, parent); }
      return true;
    }

    /** The node and everything below it, each once. */
    method GetDescendants(id: string) returns (result: seq<string>)
      requires WellFormed(State())
      ensures Distinct(result)
      ensures forall x :: x in result <==> Reaches(State(), id, x)
      ensures id in nodes ==> result != [] && result[0] == id
    {
      if id !in nodes {
        forall x {:trigger Reaches(State(), id, x)}
          ensures !Reaches(State(), id, x)
        {
          if Reaches(State(), id, x) { ReachesIn(State(), id, x); }
        }
        return [];
      }
      ghost var t := State();
      ghost var depth :| Linked(t, depth);
      LinkedIsDownward(t, depth);
      WalkStarts(t, id);
      hide Linked, Downward, Walking, Reaches, WellFormed;
      result := [];
      var stack := [id];
      while stack != []
        invariant State() == t && Walking(t, id, result, stack) && |result| <= |t.nodes.Keys|
        invariant if result == [] then stack == [id] else result[0] == id
        decreases |t.nodes.Keys| - |result|
      {
        WalkStep(t, depth, id, result, stack);
        var top := stack[|stack| - 1];
        stack := stack[..|stack| - 1];
        result := result + [top];
        if top in nodes { stack := stack + nodes[top].children; }
        WalkIsBounded(t, id, result, stack);
      }
      WalkEnds(t, id, result);
      WalkListsOnce(t, id, result);
    }

    /** The pending nodes below a node: those whose whole chain of ancestors up to it is pending too, each once. */
    method GetPendingChildren(id: string) returns (pending: seq<string>)
      requires WellFormed(State())
      ensures Distinct(pending)
      ensures forall x :: x in pending <==> PendingBelow(State(), id, x)
    {
      ghost var t := State();
      ghost var u := PendingPart(t);
      ghost var depth :| Linked(t, depth);
      LinkedIsDownward(t, depth);
      PendingPartIsDownward(t, depth);
      forall x
        ensures PendingBelow(t, id, x) <==> Reaches(u, id, x) && id != x
      {
        PendingBelowMeans(t, depth, id, x);
      }
      pending := [];
      var stack := [id];
      if id !in nodes {
        forall x {:trigger PendingBelow(t, id, x)}
          ensures !PendingBelow(t, id, x)
        {
          if Reaches(u, id, x) { ReachesIn(u, id, x); }
        }
        return;
      }
      ghost var result: seq<string> := [];
      WalkStarts(u, id);
      hide Linked, Downward, Reaches, WellFormed, PendingBelow, Walking, Met;
      while stack != []
        invariant State() == t && Walking(u, id, result, stack) && |result| <= |u.nodes.Keys|
        invariant Met(id, result, stack, pending)
        decreases |u.nodes.Keys| - |result|
      {
        WalkStep(u, depth, id, result, stack);
        MeetChildren(u, depth, id, result, stack, pending);
        var current := stack[|stack| - 1];
        stack := stack[..|stack| - 1];
        var found := PendingAmong(nodes[current].children);
        pending := pending + found;
        stack := stack + found;
        result := result + [current];
        WalkIsBounded(u, id, result, stack);
      }
      WalkEnds(u, id, result);
      AllMet(id, result, pending);
    }

    /** Removes the branch and returns its nodes; the parent forgets it. */
    method RemoveBranch(branch: string) returns (removed: seq<Node>)
      requires WellFormed(State())
      modifies this
      ensures branch !in old(nodes) ==> removed == [] && State() == old(State())
      ensures branch in old(nodes) ==>
                && (exists gone :: IsSubtree(old(State()), branch, gone) && Pruned(old(State()), State(), gone, branch))
                && (WellFormed(State()) <==> branch != rootId && old(nodes)[branch].parent != Some(""))
      ensures Distinct(removed)
      ensures forall n :: n in removed <==>
                n.id in old(nodes) && old(nodes)[n.id] == n && Reaches(old(State()), branch, n.id)
    {
      ghost var t := State();
      if branch !in nodes {
        forall x {:trigger Reaches(t, branch, x)}
          ensures !Reaches(t, branch, x)
        {
          if Reaches(t, branch, x) { ReachesIn(t, branch, x); }
        }
        return [];
      }
      var parent := nodes[branch].parent;
      var descendants := GetDescendants(branch);
      removed := DeleteAll(descendants);
      ghost var u := State();
      BranchDeleted(t, u, branch, descendants, removed);
      hide WellFormed, Reaches, Deleted, Pruned, IsSubtree, Distinct;
      Unlink(branch, parent);
      DeletedIsPruned(t, u, State(), descendants, removed, branch);
      RemoveKeepsWellFormed(t, State(), branch, Elements(descendants));
    }

    /** The parent, if it has a usable id, forgets the branch. */
    method Unlink(branch: string, parent: Option<string>)
      requires parent.Some? && parent.value != "" ==> parent.value in nodes && branch in nodes[parent.value].children
      modifies this
      ensures statusToNode == old(statusToNode) && nodes.Keys == old(nodes).Keys
      ensures forall n :: n in nodes ==>
                nodes[n] == if parent == Some(n) && n != "" then old(nodes)[n].(children := Without(old(nodes)[n].children, branch))
                            else old(nodes)[n]
    {
      if parent.Some? && parent.value != "" && branch in nodes[parent.value].children {
        nodes := nodes[parent.value := nodes[parent.value].(children := Without(nodes[parent.value].children, branch))];
      }
    }

    method DeleteNode(nid: string) returns (node: Node)
      requires nid in nodes
      modifies this
      ensures node == old(nodes)[nid]
      ensures State() == Tree(rootId, old(nodes) - {nid}, old(statusToNode) - {node.status})
    {
      node := nodes[nid];
      nodes := nodes - {nid};
      statusToNode := statusToNode - {node.status};
    }

    /** Deletes nodes and their status entries one by one. */
    method DeleteAll(ids: seq<string>) returns (removed: seq<Node>)
      requires WellFormed(State()) && Distinct(ids) && forall x :: x in ids ==> x in nodes
      modifies this
      ensures Deleted(old(State()), State(), ids, removed)
    {
      ghost var t := State();
      removed := [];
      assert Deleted(t, State(), ids[..0], removed);
      assert Indexed(t) && ids[..|ids|] == ids;
      hide WellFormed, Indexed, Deleted, Distinct;
      for i := 0 to |ids|
        invariant Deleted(t, State(), ids[..i], removed)
      {
        var nid := ids[i];
        DeleteNext(t, State(), ids, i, removed);
        var node := DeleteNode(nid);
        removed := removed + [node];
      }
    }

    method PendingAmong(children: seq<string>) returns (found: seq<string>)
      ensures found == PendingOnly(nodes, children)
    {
      found := [];
      assert children[..|children|] == children && PendingOnly(nodes, children[..0]) == [];
      hide PendingOnly;
      for i := 0 to |children|
        invariant found == PendingOnly(nodes, children[..i])
      {
        PendingNext(nodes, children, i);
        if children[i] in nodes && nodes[children[i]].state == Pending { found := found + [children[i]]; }
      }
    }
  }

  lemma WalkListsOnce(t: Tree, start: string, result: seq<string>)
    requires Walking(t, start, result, [])
    ensures Distinct(result) && result != []
  {
  }
}
