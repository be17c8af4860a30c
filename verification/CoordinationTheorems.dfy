/** Theorems over every reachable state of the delegation tree. */
module CoordinationTheorems {
  import opened Foundation
  import opened MapSums
  import opened Forest
  import opened CoordinationPolicy
  import opened PolicyChains
  import opened Coordination
  import opened CoordinationInvariants
  import opened CoordinationCancel
  import opened CoordinationSettlement

  // ----- every step keeps the invariant -----

  lemma StepKeeps(s: State, c: Command)
    requires Inv(s)
    ensures Inv(Step(s, c).0)
  {
    hide *;
    if c.Delegate? {
      StepIsDelegate(s, c);
      DelegateStepKeeps(s, c.catalog, c.request);
    } else if c.CancelTree? {
      StepIsCancel(s, c);
      CancelStepKeeps(s, c.root, c.expectedRevision);
    } else if c.Complete? {
      StepIsComplete(s, c);
      CompleteKeeps(s, c.run, c.worker, c.token, c.now, c.target, c.ended, c.usage, c.compaction);
    } else {
      OtherwisePlain(c);
      QuietKeepsStep(s, c);
    }
  }

  lemma StepIsDelegate(s: State, c: Command)
    requires c.Delegate?
    ensures Step(s, c) == DelegateStep(s, c.catalog, c.request)
  {
    hide DelegateStep;
  }

  lemma StepIsCancel(s: State, c: Command)
    requires c.CancelTree?
    ensures Step(s, c) == CancelStep(s, c.root, c.expectedRevision)
  {
    hide CancelStep;
  }

  lemma StepIsComplete(s: State, c: Command)
    requires c.Complete?
    ensures Step(s, c) == CompleteStep(s, c.run, c.worker, c.token, c.now, c.target, c.ended, c.usage, c.compaction)
  {
    hide CompleteStep;
  }

  lemma OtherwisePlain(c: Command)
    requires !c.Delegate? && !c.CancelTree? && !c.Complete?
    ensures Plain(c)
  {}

  lemma DelegateStepKeeps(s: State, cat: Catalog, q: Request)
    requires Inv(s)
    ensures Inv(DelegateStep(s, cat, q).0)
  {
    hide Inv, Admission, WithDelegation, Admitted;
    var verdict := Admission(s, cat, q);
    if verdict.Admit? {
      AdmissionMeans(s, cat, q);
      DelegateKeeps(s, cat, q, verdict.permissions);
    }
  }

  lemma CancelStepKeeps(s: State, root: Id, expectedRevision: nat)
    requires Inv(s)
    ensures Inv(CancelStep(s, root, expectedRevision).0)
  {
    hide Inv, TreeCancel;
    CancelKeeps(s, root);
  }

  lemma QuietKeepsStep(s: State, c: Command)
    requires Inv(s) && Plain(c)
    ensures Inv(Step(s, c).0)
  {
    hide *;
    InvParts(s);
    QuietStep(s, c);
    QuietKeeps(s, Step(s, c).0);
  }

  lemma InvParts(s: State)
    requires Inv(s)
    ensures Rows(s) && Closed(s) && Recounted(s) && Accounted(s) && Live(s) && Leased(s)
  {
    hide Rows, Closed, Recounted, Accounted, Live, Leased, Lineage, Unique, Fanout, Authority;
  }

  lemma EmptyIsFine()
    ensures Inv(EMPTY)
  {
    assert ParentsOf(EMPTY.delegations) == map[];
  }

  /** The invariant holds after every history. */
  lemma {:induction false} Reachable(history: seq<Command>)
    ensures Inv(After(history))
    decreases |history|
  {
    if history == [] {
      EmptyIsFine();
    } else {
      Reachable(history[..|history| - 1]);
      hide Inv, Step;
      StepKeeps(After(history[..|history| - 1]), history[|history| - 1]);
    }
  }

  // ----- closure -----

  /** In every reachable state the relation table holds exactly the true chains, with their
      lengths; direct rows are the one-link rows; nobody has two direct parents; no cycles. */
  lemma ClosureTheorem(history: seq<Command>, a: Id, d: Id, k: nat)
    ensures var s := After(history);
      var p := ParentsOf(s.delegations);
      && (k >= 1 ==>
            (Up(p, d, k) == Some(a) <==> Pair(a, d) in s.relations && s.relations[Pair(a, d)].depth == k))
      && (Pair(a, d) in s.relations ==> s.relations[Pair(a, d)].depth >= 1)
      && (Pair(a, d) in s.relations && s.relations[Pair(a, d)].isDirect <==> d in p && p[d] == a)
      && (k >= 1 ==> Up(p, d, k) != Some(d))
  {
    hide After, Inv, Closed, Up, ParentsOf;
    Reachable(history);
    var s := After(history);
    var p := ParentsOf(s.delegations);
    InvParts(s);
    ClosedIsExact(s);
    UpOne(p, d);
    if k >= 1 { NoCycle(p, s.relations, d, k); }
  }

  lemma ClosedIsExact(s: State)
    requires Closed(s)
    ensures Exact(ParentsOf(s.delegations), s.relations)
  {}

  lemma UpOne(p: Parents, d: Id)
    ensures Up(p, d, 1) == if d in p then Some(p[d]) else None
  {
    if d in p { UpZero(p, p[d]); }
  }

  // ----- versions and depth -----

  lemma ChainVersionsDiffer(s: State, lower: Id, upper: Id, k: nat)
    requires Inv(s) && k >= 1 && Up(ParentsOf(s.delegations), lower, k) == Some(upper)
    ensures lower in s.runs && upper in s.runs && s.runs[lower].version != s.runs[upper].version
  {
    RelationEnds(s);
    hide Up, ParentsOf;
    assert Pair(upper, lower) in s.relations;
    hide Exact;
    assert Pair(upper, lower).ancestor in s.runs && Pair(upper, lower).descendant in s.runs;
    assert LineageRow(s.relations[Pair(upper, lower)], Pair(upper, lower), s.delegations, s.runs);
  }

  /** On every path the agent versions are pairwise distinct: any two runs on one upward path. */
  lemma DistinctVersions(history: seq<Command>, d: Id, i: nat, j: nat)
    requires var p := ParentsOf(After(history).delegations);
      i < j && Up(p, d, i).Some? && Up(p, d, j).Some?
    ensures var s := After(history);
      var p := ParentsOf(s.delegations);
      var lower, upper := Up(p, d, i).value, Up(p, d, j).value;
      lower in s.runs && upper in s.runs && s.runs[lower].version != s.runs[upper].version
  {
    Reachable(history);
    hide *;
    PathVersionsDiffer(After(history), d, i, j);
  }

  lemma PathVersionsDiffer(s: State, d: Id, i: nat, j: nat)
    requires Inv(s) && i < j && Up(ParentsOf(s.delegations), d, i).Some? && Up(ParentsOf(s.delegations), d, j).Some?
    ensures var p := ParentsOf(s.delegations);
      var lower, upper := Up(p, d, i).value, Up(p, d, j).value;
      lower in s.runs && upper in s.runs && s.runs[lower].version != s.runs[upper].version
  {
    hide *;
    var p := ParentsOf(s.delegations);
    UpCompose(p, d, i, j - i);
    assert i + (j - i) == j;
    ChainVersionsDiffer(s, Up(p, d, i).value, Up(p, d, j).value, j - i);
  }

  /** No delegated run sits deeper than the `max_depth` of the policy it was accepted under. */
  lemma DepthBounded(history: seq<Command>, d: Id, k: nat)
    requires var s := After(history); d in s.delegations && Up(ParentsOf(s.delegations), d, k).Some?
    ensures k <= PositiveInt(Get(After(history).delegations[d].policy, "max_depth"))
  {
    Reachable(history);
    var s := After(history);
    var p := ParentsOf(s.delegations);
    RelationEnds(s);
    if k >= 1 {
      var a := Up(p, d, k).value;
      assert Pair(a, d) in s.relations && s.relations[Pair(a, d)].depth == k;
      assert Pair(a, d).ancestor in s.runs && Pair(a, d).descendant in s.runs;
      assert LineageRow(s.relations[Pair(a, d)], Pair(a, d), s.delegations, s.runs);
    }
  }

  /** A run never gets more children, nor more children at once, than its frozen policy allows,
      and below it no session is wider than its own. */
  lemma SessionBounds(history: seq<Command>, a: Id, d: Id)
    requires a in After(history).sessions
    ensures var s := After(history);
      && |ChildrenOf(s.delegations, a)| <= PositiveInt(Get(s.sessions[a].policy, "max_children"))
      && |ActiveChildrenOf(s.delegations, a)| <= PositiveInt(Get(s.sessions[a].policy, "max_parallelism"))
      && (d in s.sessions && d != a && InSubtree(ParentsOf(s.delegations), a, d) ==>
            && NoWiderPolicy(s.sessions[d].policy, s.sessions[a].policy)
            && NoWiderTools(s.sessions[d].tools, s.sessions[a].tools))
  {
    Reachable(history);
    var s := After(history);
    assert WithinFanout(s.delegations, a, s.sessions[a].policy);
    if d in s.sessions && d != a && InSubtree(ParentsOf(s.delegations), a, d) {
      SubtreeIsStored(ParentsOf(s.delegations), s.relations, a, d);
      RelationEnds(s);
      assert Pair(a, d).ancestor in s.sessions && Pair(a, d).descendant in s.delegations;
      hide NoWiderPolicy, NoWiderTools, After;
      assert Bounded(s.delegations[d], s.sessions[a]) && Holds(s.sessions[d], s.delegations[d]);
      NoWiderTransitive(s.sessions[d].policy, s.delegations[d].policy, s.sessions[a].policy);
    }
  }

  // ----- budgets -----

  /** A ledger is the recount of the delegation rows and never exceeds its limits; every child has
      a ledger with its grant as limit, and every parent has one, so the release code always
      finds a row and never clamps. */
  lemma LedgerRecount(history: seq<Command>, p: Id, r: Resource)
    requires p in After(history).ledgers
    ensures var s := After(history);
      var l := s.ledgers[p];
      && Of(l.reserved, r) == Sum(Grants(s.delegations, p, r))
      && l.childCount == |ChildrenOf(s.delegations, p)|
      && Of(l.direct, r) + Of(l.childConsumed, r) + Of(l.reserved, r) <= Of(l.limit, r)
      && (p in s.delegations ==> l.limit == s.delegations[p].grant)
  {
    Reachable(history);
    var s := After(history);
    assert LedgerExact(s.ledgers[p], s.delegations, p);
    if p in s.delegations { assert DelegationRow(s, p); }
    assert Committed(s.ledgers[p], Tokens) <= s.ledgers[p].limit.tokens;
    hide After, Sum, Grants, ChildrenOf;
    match r case Tokens => case Cost => case ToolCalls =>
  }

  /** In every reachable state a cancellation finds each parent's ledger and subtracts exactly:
      neither the clamp at 0 nor the missing-ledger return takes effect. */
  lemma ReleaseNeverClamps(history: seq<Command>, ids: set<Id>, c: Id, r: Resource)
    requires var ds := After(history).delegations; c in ds && c in ids && Active(ds[c].status)
    ensures var s := After(history);
      var parent := s.delegations[c].parent;
      && parent in s.ledgers
      && Of(s.delegations[c].grant, r) <= ReleasedAmounts(s.delegations, ids, parent, r)
      && ReleasedAmounts(s.delegations, ids, parent, r) <= Of(s.ledgers[parent].reserved, r)
  {
    Reachable(history);
    var s := After(history);
    assert DelegationRow(s, c);
    var parent := s.delegations[c].parent;
    assert LedgerExact(s.ledgers[parent], s.delegations, parent);
    ReleaseIsExact(s.ledgers[parent], s.delegations, ids, parent, r);
    OneGrantReleased(s.delegations, ids, c, r);
  }

  lemma OneGrantReleased(ds: Delegations, ids: set<Id>, c: Id, r: Resource)
    requires c in ds && c in ids && Active(ds[c].status)
    ensures Of(ds[c].grant, r) <= ReleasedAmounts(ds, ids, ds[c].parent, r)
  {
    var released := Only(Grants(ds, ds[c].parent, r), ids);
    assert released[c] == Of(ds[c].grant, r);
    GrantsNonNegative(ds, ds[c].parent, r);
    hide Sum;
    SumNonNegative(released);
  }

  /** child |-> parent for active delegations only. */
  function ActiveParentsOf(ds: Delegations): (p: Parents) {
    map c | c in ds && Active(ds[c].status) :: ds[c].parent
  }

  /** Everything active delegations reach from `root`. */
  ghost function ActiveTree(s: State, root: Id): (ids: set<Id>) {
    set d | d in s.runs && InSubtree(ActiveParentsOf(s.delegations), root, d)
  }

  /** The j-th stop on the way up from `d` still has its delegation. */
  predicate ActiveAt(ds: Delegations, d: Id, j: nat) {
    var stop := Up(ParentsOf(ds), d, j);
    stop.Some? && stop.value in ds && Active(ds[stop.value].status)
  }

  lemma {:induction false} ActiveChain(ds: Delegations, d: Id, k: nat)
    ensures Up(ActiveParentsOf(ds), d, k).Some? <==>
      Up(ParentsOf(ds), d, k).Some? && forall j: nat :: j < k ==> ActiveAt(ds, d, j)
    ensures Up(ActiveParentsOf(ds), d, k).Some? ==> Up(ParentsOf(ds), d, k) == Up(ActiveParentsOf(ds), d, k)
    decreases k
  {
    if k >= 1 {
      UpZero(ParentsOf(ds), d);
      if d in ds {
        var up := ds[d].parent;
        ActiveChain(ds, up, k - 1);
        assert forall j: nat :: Up(ParentsOf(ds), d, j + 1) == Up(ParentsOf(ds), up, j);
        assert forall j: nat :: ActiveAt(ds, d, j + 1) == ActiveAt(ds, up, j);
        if forall j: nat :: j < k ==> ActiveAt(ds, d, j) {
          assert ActiveAt(ds, d, 0);
          forall j: nat | j < k - 1 ensures ActiveAt(ds, up, j) { assert ActiveAt(ds, d, j + 1); }
        }
        if ActiveAt(ds, d, 0) && forall j: nat :: j < k - 1 ==> ActiveAt(ds, up, j) {
          forall j: nat | j < k ensures ActiveAt(ds, d, j) {
            if j > 0 { assert ActiveAt(ds, d, (j - 1) + 1) == ActiveAt(ds, up, j - 1); }
          }
        }
      }
    }
  }

  /** Active delegations reach a run below the root exactly when it is stored below the root and no
      delegation on the way up has ended. */
  lemma ActiveTreeIsReachable(s: State, root: Id, d: Id)
    requires Closed(s)
    ensures InSubtree(ActiveParentsOf(s.delegations), root, d) <==>
      d == root
      || (Pair(root, d) in s.relations
          && forall j: nat :: j < s.relations[Pair(root, d)].depth ==> ActiveAt(s.delegations, d, j))
  {
    var p, ap, ds := ParentsOf(s.delegations), ActiveParentsOf(s.delegations), s.delegations;
    UpZero(ap, d);
    hide Up, ParentsOf, ActiveParentsOf, ActiveAt;
    if d != root {
      if InSubtree(ap, root, d) {
        var k: nat :| Up(ap, d, k) == Some(root);
        ActiveChain(ds, d, k);
        assert k >= 1;
      }
      if Pair(root, d) in s.relations && forall j: nat :: j < s.relations[Pair(root, d)].depth ==> ActiveAt(ds, d, j) {
        ActiveChain(ds, d, s.relations[Pair(root, d)].depth);
      }
    }
  }

  lemma RootInside(ds: Delegations, root: Id)
    ensures InSubtree(ActiveParentsOf(ds), root, root)
  {
    UpZero(ActiveParentsOf(ds), root);
  }

  /** A member below the root has an active delegation, and its parent is a member. */
  lemma MemberUp(ds: Delegations, root: Id, d: Id)
    requires InSubtree(ActiveParentsOf(ds), root, d) && d != root
    ensures d in ds && Active(ds[d].status) && InSubtree(ActiveParentsOf(ds), root, ds[d].parent)
  {
    var k: nat :| Up(ActiveParentsOf(ds), d, k) == Some(root);
    assert k >= 1;
    assert Up(ActiveParentsOf(ds), ds[d].parent, k - 1) == Some(root);
  }

  /** Active children of members are members, and none of them is the root. */
  lemma MemberDown(s: State, root: Id, c: Id)
    requires Closed(s) && ActiveChild(s, c) && InSubtree(ActiveParentsOf(s.delegations), root, s.delegations[c].parent)
    ensures c != root && InSubtree(ActiveParentsOf(s.delegations), root, c)
  {
    var ap := ActiveParentsOf(s.delegations);
    var k: nat :| Up(ap, s.delegations[c].parent, k) == Some(root);
    assert Up(ap, c, k + 1) == Some(root);
    ActiveChain(s.delegations, c, k + 1);
    NoCycle(ParentsOf(s.delegations), s.relations, c, k + 1);
  }

  /** Limit minus child reservations of each run in `group`. */
  function Available(s: State, group: set<Id>, r: Resource): (m: map<Id, int>)
    requires group <= s.runs.Keys
  {
    map x | x in group :: Of(LedgerOf(s, x).limit, r) - Of(LedgerOf(s, x).reserved, r)
  }

  /** Grants of the active runs strictly below the root. */
  ghost function GrantsBelow(s: State, root: Id, r: Resource): (m: map<Id, int>) {
    map c | c in ActiveTree(s, root) && c != root && c in s.delegations :: Of(s.delegations[c].grant, r)
  }

  lemma TreeMembers(s: State, root: Id)
    requires Rows(s) && root in s.runs
    ensures ActiveTree(s, root) <= s.runs.Keys
    ensures forall d :: d in ActiveTree(s, root) <==> InSubtree(ActiveParentsOf(s.delegations), root, d)
  {
    forall d | InSubtree(ActiveParentsOf(s.delegations), root, d) ensures d in s.runs {
      if d != root {
        MemberUp(s.delegations, root, d);
        assert DelegationRow(s, d);
      }
    }
    hide Rows, InSubtree;
  }

  /** The active children of a tree member are the tree members it owns. */
  lemma OwnedAreGrants(s: State, root: Id, x: Id, r: Resource)
    requires Rows(s) && Closed(s) && x in ActiveTree(s, root)
    ensures Owned(GrantsBelow(s, root, r), ParentsOf(s.delegations), x) == Grants(s.delegations, x, r)
  {
    hide Rows, Closed, InSubtree;
    forall c | c in s.delegations && s.delegations[c].parent == x && Active(s.delegations[c].status)
      ensures c != root && c in ActiveTree(s, root)
    {
      MemberDown(s, root, c);
      ActiveChildRow(s, c);
    }
    ActiveMembers(s, root);
    hide ActiveTree;
  }

  lemma ActiveMembers(s: State, root: Id)
    ensures forall c :: c in ActiveTree(s, root) && c != root ==> c in s.delegations && Active(s.delegations[c].status)
  {
    forall c | c in ActiveTree(s, root) && c != root ensures c in s.delegations && Active(s.delegations[c].status) {
      MemberUp(s.delegations, root, c);
    }
  }

  lemma ReservedIsOwned(s: State, root: Id, x: Id, r: Resource)
    requires Inv(s) && x in ActiveTree(s, root) && x in s.runs
    ensures Of(LedgerOf(s, x).reserved, r) == Sum(Owned(GrantsBelow(s, root, r), ParentsOf(s.delegations), x))
  {
    hide *;
    InvParts(s);
    OwnedAreGrants(s, root, x, r);
    ParentLedgerExact(s, x);
    ExactParts(LedgerOf(s, x), s.delegations, x);
  }

  /** One tree member's limit is its available amount plus what it has reserved below. */
  lemma LimitSplitsAt(s: State, root: Id, x: Id, r: Resource)
    requires Inv(s) && x in ActiveTree(s, root) && x in s.runs
    ensures x != root ==> x in GrantsBelow(s, root, r) && GrantsBelow(s, root, r)[x] == Of(LedgerOf(s, x).limit, r)
    ensures Of(LedgerOf(s, x).limit, r) == Of(LedgerOf(s, x).limit, r) - Of(LedgerOf(s, x).reserved, r)
                                       + Sum(Owned(GrantsBelow(s, root, r), ParentsOf(s.delegations), x))
  {
    hide *;
    ReservedIsOwned(s, root, x, r);
    if x != root {
      InvParts(s);
      GrantIsLimit(s, root, x, r);
    }
  }

  lemma GrantIsLimit(s: State, root: Id, x: Id, r: Resource)
    requires Rows(s) && x in ActiveTree(s, root) && x in s.runs && x != root
    ensures x in GrantsBelow(s, root, r) && GrantsBelow(s, root, r)[x] == Of(LedgerOf(s, x).limit, r)
  {
    ActiveMembers(s, root);
    assert DelegationRow(s, x);
    hide Rows, ActiveTree, Of;
  }

  /** The limit of the root and the grants below it. */
  ghost function Limits(s: State, root: Id, r: Resource): (m: map<Id, int>)
    requires root in s.runs
  {
    GrantsBelow(s, root, r)[root := Of(LedgerOf(s, root).limit, r)]
  }

  /** What each tree member has reserved for the tree members below it. */
  ghost function ReservedBelow(s: State, root: Id, r: Resource): (m: map<Id, int>) {
    Totals(GrantsBelow(s, root, r), ParentsOf(s.delegations), ActiveTree(s, root))
  }

  lemma TreeKeys(s: State, root: Id, r: Resource)
    requires root in s.runs && ActiveTree(s, root) <= s.runs.Keys
    ensures Limits(s, root, r).Keys == ActiveTree(s, root)
    ensures Available(s, ActiveTree(s, root), r).Keys == ActiveTree(s, root)
    ensures ReservedBelow(s, root, r).Keys == ActiveTree(s, root)
  {
    hide Of, LedgerOf, Sum, Owned, InSubtree;
    RootInside(s.delegations, root);
    ActiveMembers(s, root);
  }

  lemma LimitsSplitAt(s: State, root: Id, x: Id, r: Resource)
    requires Inv(s) && root in s.runs && ActiveTree(s, root) <= s.runs.Keys && x in ActiveTree(s, root)
    ensures x in Limits(s, root, r) && x in ReservedBelow(s, root, r) && x in Available(s, ActiveTree(s, root), r)
    ensures Limits(s, root, r)[x] == Available(s, ActiveTree(s, root), r)[x] + ReservedBelow(s, root, r)[x]
  {
    hide *;
    LimitSplitsAt(s, root, x, r);
    LimitsAt(s, root, x, r);
    AvailableAt(s, ActiveTree(s, root), x, r);
    ReservedAt(s, root, x, r);
  }

  lemma LimitsAt(s: State, root: Id, x: Id, r: Resource)
    requires root in s.runs && x in s.runs && (x != root ==> x in GrantsBelow(s, root, r))
    requires x != root ==> GrantsBelow(s, root, r)[x] == Of(LedgerOf(s, x).limit, r)
    ensures x in Limits(s, root, r) && Limits(s, root, r)[x] == Of(LedgerOf(s, x).limit, r)
  {
    hide GrantsBelow, LedgerOf, Of;
  }

  lemma AvailableAt(s: State, group: set<Id>, x: Id, r: Resource)
    requires group <= s.runs.Keys && x in group
    ensures x in Available(s, group, r)
    ensures Available(s, group, r)[x] == Of(LedgerOf(s, x).limit, r) - Of(LedgerOf(s, x).reserved, r)
  {
    hide LedgerOf, Of;
  }

  lemma ReservedAt(s: State, root: Id, x: Id, r: Resource)
    requires x in ActiveTree(s, root)
    ensures x in ReservedBelow(s, root, r)
    ensures ReservedBelow(s, root, r)[x] == Sum(Owned(GrantsBelow(s, root, r), ParentsOf(s.delegations), x))
  {
    hide ActiveTree, GrantsBelow, Sum, Owned, ParentsOf;
  }

  lemma LimitSplits(s: State, root: Id, r: Resource)
    requires Inv(s) && root in s.runs && ActiveTree(s, root) <= s.runs.Keys
    ensures Sum(Limits(s, root, r)) == Sum(Available(s, ActiveTree(s, root), r)) + Sum(ReservedBelow(s, root, r))
  {
    TreeKeys(s, root, r);
    hide *;
    forall x | x in ActiveTree(s, root)
      ensures Limits(s, root, r)[x] == Available(s, ActiveTree(s, root), r)[x] + ReservedBelow(s, root, r)[x]
    {
      LimitsSplitAt(s, root, x, r);
    }
    SumPointwise(Available(s, ActiveTree(s, root), r), ReservedBelow(s, root, r), Limits(s, root, r));
  }

  lemma TreeConserves(s: State, root: Id, r: Resource)
    requires Inv(s) && root in s.runs && ActiveTree(s, root) <= s.runs.Keys
    ensures Sum(Available(s, ActiveTree(s, root), r)) == Of(LedgerOf(s, root).limit, r)
  {
    hide *;
    var tree, below, p := ActiveTree(s, root), GrantsBelow(s, root, r), ParentsOf(s.delegations);
    GrantsAreBelow(s, root, r);
    LimitSplits(s, root, r);
    SumInsert(below, root, Of(LedgerOf(s, root).limit, r));
    LimitsAre(s, root, r);
    SumByOwner(below, p, tree);
    ReservedBelowIs(s, root, r);
  }

  lemma GrantsAreBelow(s: State, root: Id, r: Resource)
    requires Inv(s)
    ensures root !in GrantsBelow(s, root, r)
    ensures forall c :: c in GrantsBelow(s, root, r) ==>
      c in ParentsOf(s.delegations) && ParentsOf(s.delegations)[c] in ActiveTree(s, root)
  {
    InvParts(s);
    hide Inv, Closed, Live, Rows, InSubtree;
    forall c | c in GrantsBelow(s, root, r)
      ensures c in ParentsOf(s.delegations) && ParentsOf(s.delegations)[c] in ActiveTree(s, root)
    {
      MemberUp(s.delegations, root, c);
      ActiveChildRow(s, c);
    }
  }

  lemma LimitsAre(s: State, root: Id, r: Resource)
    requires root in s.runs
    ensures Limits(s, root, r) == GrantsBelow(s, root, r)[root := Of(LedgerOf(s, root).limit, r)]
  {}

  lemma ReservedBelowIs(s: State, root: Id, r: Resource)
    ensures ReservedBelow(s, root, r) == Totals(GrantsBelow(s, root, r), ParentsOf(s.delegations), ActiveTree(s, root))
  {}

  /** Conservation: over the tree of active delegations below any run, what is still available
      adds up to that run's own limit, for each resource, whatever was delegated and cancelled. */
  lemma BudgetConserved(history: seq<Command>, root: Id, r: Resource)
    requires root in After(history).runs
    ensures var s := After(history);
      && ActiveTree(s, root) <= s.runs.Keys
      && Sum(Available(s, ActiveTree(s, root), r)) == Of(LedgerOf(s, root).limit, r)
      && forall d :: d in ActiveTree(s, root) <==> InSubtree(ActiveParentsOf(s.delegations), root, d)
  {
    hide *;
    Reachable(history);
    var s := After(history);
    InvParts(s);
    TreeMembers(s, root);
    TreeConserves(s, root, r);
  }
}
