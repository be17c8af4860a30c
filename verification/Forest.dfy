/** Parent links as a partial map, the materialised closure table over them, and the proof that
    the insertion rule of the service keeps the table exact. */
module Forest {
  import opened Foundation

  /** child |-> parent, one entry per delegation. */
  type Parents = map<Id, Id>

  datatype Pair = Pair(ancestor: Id, descendant: Id)

  /** One row of `agent_run_relations`; the key columns are the map key. */
  datatype Relation = Relation(depth: nat, isDirect: bool, delegation: Id)

  type Closure = map<Pair, Relation>

  /** Follows `k` parent links upwards from `d`. This is the independent meaning of the table. */
  function Up(p: Parents, d: Id, k: nat): (a: Option<Id>)
    decreases k
  {
    if k == 0 then Some(d) else if d in p then Up(p, p[d], k - 1) else None
  }

  ghost predicate InSubtree(p: Parents, root: Id, d: Id) {
    exists k: nat :: Up(p, d, k) == Some(root)
  }

  /** Every stored row is a true chain of that length, and direct rows are the one-link rows. */
  ghost predicate Sound(p: Parents, rel: Closure) {
    forall a, d :: Pair(a, d) in rel ==>
      var row := rel[Pair(a, d)];
      row.depth >= 1 && Up(p, d, row.depth) == Some(a) && (row.isDirect <==> row.depth == 1)
  }

  /** Every true chain of at least one link is stored with its length. */
  ghost predicate Complete(p: Parents, rel: Closure) {
    forall d, k: nat {:trigger Up(p, d, k)} :: k >= 1 && Up(p, d, k).Some? ==>
      Pair(Up(p, d, k).value, d) in rel && rel[Pair(Up(p, d, k).value, d)].depth == k
  }

  ghost predicate Acyclic(rel: Closure) {
    forall a :: Pair(a, a) !in rel
  }

  ghost predicate Exact(p: Parents, rel: Closure) {
    Sound(p, rel) && Complete(p, rel) && Acyclic(rel)
  }

  /** The rows `_insert_closure` adds below `child`: one per ancestor of the parent, plus the
      direct row. */
  function NewRows(rel: Closure, parent: Id, child: Id, delegation: Id): (rows: Closure) {
    (map k | k in rel && k.descendant == parent ::
       Pair(k.ancestor, child) := Relation(rel[k].depth + 1, false, delegation))
    [Pair(parent, child) := Relation(1, true, delegation)]
  }

  function Grow(rel: Closure, parent: Id, child: Id, delegation: Id): (r: Closure) {
    rel + NewRows(rel, parent, child, delegation)
  }

  /** Where a grown row comes from. */
  lemma GrowCases(rel: Closure, parent: Id, child: Id, delegation: Id, k: Pair)
    requires k in Grow(rel, parent, child, delegation)
    ensures k in rel || (k.descendant == child && (k.ancestor == parent || Pair(k.ancestor, parent) in rel))
  {
    if k !in rel && k != Pair(parent, child) {
      var below :| below in rel && below.descendant == parent && k == Pair(below.ancestor, child);
      assert below == Pair(k.ancestor, parent);
    }
  }

  lemma {:induction false} UpCompose(p: Parents, d: Id, j: nat, k: nat)
    requires Up(p, d, j).Some?
    ensures Up(p, d, j + k) == Up(p, Up(p, d, j).value, k)
    decreases j
  {
    if j > 0 { UpCompose(p, p[d], j - 1, k); }
  }

  /** A fresh leaf leaves every other chain as it was. */
  lemma {:induction false} UpElsewhere(p: Parents, parent: Id, child: Id, d: Id, k: nat)
    requires child !in p && child !in p.Values && d != child
    ensures Up(p[child := parent], d, k) == Up(p, d, k)
    ensures Up(p, d, k) != Some(child)
    decreases k
  {
    if k > 0 && d in p {
      assert p[d] in p.Values;
      UpElsewhere(p, parent, child, p[d], k - 1);
    }
  }

  /** Chains from the fresh leaf are the parent's chains, one link longer. */
  lemma UpFromLeaf(p: Parents, parent: Id, child: Id, k: nat)
    requires child !in p && child !in p.Values && parent != child
    ensures Up(p[child := parent], child, k + 1) == Up(p, parent, k)
  {
    UpElsewhere(p, parent, child, parent, k);
  }

  /** Rows that name the fresh child do not exist yet, so the UNIQUE constraints of the table
      cannot fire. */
  lemma FreshRows(p: Parents, rel: Closure, child: Id)
    requires Exact(p, rel) && child !in p && child !in p.Values
    ensures forall k :: k in rel ==> k.ancestor != child && k.descendant != child
  {
    forall k | k in rel ensures k.ancestor != child && k.descendant != child {
      assert k == Pair(k.ancestor, k.descendant);
      var depth := rel[k].depth;
      assert Up(p, k.descendant, depth) == Some(k.ancestor);
      assert k.descendant != child;
      UpElsewhere(p, child, child, k.descendant, depth);
    }
  }

  /** The grown table, row by row. */
  lemma GrowRow(rel: Closure, parent: Id, child: Id, delegation: Id, a: Id, d: Id)
    requires forall k :: k in rel ==> k.ancestor != child && k.descendant != child
    requires Pair(parent, parent) !in rel
    ensures d != child ==> (Pair(a, d) in Grow(rel, parent, child, delegation) <==> Pair(a, d) in rel)
    ensures d != child && Pair(a, d) in rel ==>
      Grow(rel, parent, child, delegation)[Pair(a, d)] == rel[Pair(a, d)]
    ensures Pair(a, child) in Grow(rel, parent, child, delegation) <==>
      a == parent || Pair(a, parent) in rel
    ensures Grow(rel, parent, child, delegation)[Pair(parent, child)] == Relation(1, true, delegation)
    ensures Pair(a, parent) in rel ==>
      Grow(rel, parent, child, delegation)[Pair(a, child)]
        == Relation(rel[Pair(a, parent)].depth + 1, false, delegation)
  {
    var rows := NewRows(rel, parent, child, delegation);
    if Pair(a, parent) in rel {
      assert Pair(a, parent).descendant == parent;
      assert Pair(a, child) in rows;
    }
  }

  lemma GrowSound(p: Parents, rel: Closure, parent: Id, child: Id, delegation: Id, a: Id, d: Id)
    requires Exact(p, rel) && child !in p && child !in p.Values && parent != child
    requires Pair(a, d) in Grow(rel, parent, child, delegation)
    ensures var row := Grow(rel, parent, child, delegation)[Pair(a, d)];
      row.depth >= 1 && Up(p[child := parent], d, row.depth) == Some(a) && (row.isDirect <==> row.depth == 1)
  {
    UpZero(p, parent);
    hide Up, Grow, NewRows;
    FreshRows(p, rel, child);
    GrowRow(rel, parent, child, delegation, a, d);
    if d != child {
      UpElsewhere(p, parent, child, d, rel[Pair(a, d)].depth);
    } else if a == parent {
      UpFromLeaf(p, parent, child, 0);
    } else {
      UpFromLeaf(p, parent, child, rel[Pair(a, parent)].depth);
    }
  }

  lemma UpZero(p: Parents, d: Id)
    ensures Up(p, d, 0) == Some(d)
  {}

  lemma GrowComplete(p: Parents, rel: Closure, parent: Id, child: Id, delegation: Id, d: Id, k: nat)
    requires Exact(p, rel) && child !in p && child !in p.Values && parent != child
    requires k >= 1 && Up(p[child := parent], d, k).Some?
    ensures var row := Pair(Up(p[child := parent], d, k).value, d);
      row in Grow(rel, parent, child, delegation) && Grow(rel, parent, child, delegation)[row].depth == k
  {
    UpZero(p, parent);
    hide Up, Grow, NewRows;
    FreshRows(p, rel, child);
    GrowRow(rel, parent, child, delegation, Up(p[child := parent], d, k).value, d);
    if d == child {
      UpFromLeaf(p, parent, child, k - 1);
    } else {
      UpElsewhere(p, parent, child, d, k);
    }
  }

  /** The insertion rule keeps the closure table exact: the main induction step. */
  lemma GrowExact(p: Parents, rel: Closure, parent: Id, child: Id, delegation: Id)
    requires Exact(p, rel) && child !in p && child !in p.Values && parent != child
    ensures Exact(p[child := parent], Grow(rel, parent, child, delegation))
  {
    hide Up, Grow;
    var p', rel' := p[child := parent], Grow(rel, parent, child, delegation);
    forall a, d | Pair(a, d) in rel'
      ensures rel'[Pair(a, d)].depth >= 1
           && Up(p', d, rel'[Pair(a, d)].depth) == Some(a)
           && (rel'[Pair(a, d)].isDirect <==> rel'[Pair(a, d)].depth == 1)
    {
      GrowSound(p, rel, parent, child, delegation, a, d);
    }
    forall d, k: nat | k >= 1 && Up(p', d, k).Some?
      ensures var row := Pair(Up(p', d, k).value, d);
        row in rel' && rel'[row].depth == k
    {
      GrowComplete(p, rel, parent, child, delegation, d, k);
    }
    FreshRows(p, rel, child);
    forall a ensures Pair(a, a) !in rel' {
      GrowRow(rel, parent, child, delegation, a, a);
    }
  }

  /** What the service reads as "the root and its stored descendants" is the true subtree. */
  lemma SubtreeIsStored(p: Parents, rel: Closure, root: Id, d: Id)
    requires Exact(p, rel)
    ensures InSubtree(p, root, d) <==> d == root || Pair(root, d) in rel
  {
    UpZero(p, d);
    hide Up;
    if InSubtree(p, root, d) {
      var k: nat :| Up(p, d, k) == Some(root);
    }
    if Pair(root, d) in rel {
      assert Up(p, d, rel[Pair(root, d)].depth) == Some(root);
    }
  }

  /** Stored rows compose: the closure is transitive and depths add up. */
  lemma StoredTransitive(p: Parents, rel: Closure, a: Id, b: Id, d: Id)
    requires Exact(p, rel) && Pair(a, b) in rel && Pair(b, d) in rel
    ensures Pair(a, d) in rel
    ensures rel[Pair(a, d)].depth == rel[Pair(a, b)].depth + rel[Pair(b, d)].depth
  {
    UpCompose(p, d, rel[Pair(b, d)].depth, rel[Pair(a, b)].depth);
    hide Up;
    assert Up(p, d, rel[Pair(b, d)].depth + rel[Pair(a, b)].depth) == Some(a);
  }

  /** A stored ancestor of `d` is either its parent or an ancestor of its parent. */
  lemma StoredUnfold(p: Parents, rel: Closure, a: Id, d: Id)
    requires Exact(p, rel) && Pair(a, d) in rel
    ensures d in p && (a == p[d] || Pair(a, p[d]) in rel)
    ensures d in p ==> Pair(p[d], d) in rel && rel[Pair(p[d], d)].isDirect
  {
    var k := rel[Pair(a, d)].depth;
    assert Up(p, d, k) == Some(a);
    assert Up(p, p[d], k - 1) == Some(a);
    UpZero(p, p[d]);
    assert Up(p, d, 1) == Some(p[d]);
  }

  lemma NoCycle(p: Parents, rel: Closure, d: Id, k: nat)
    requires Exact(p, rel) && k >= 1
    ensures Up(p, d, k) != Some(d)
  {
    hide Up;
  }
}
