/** Whole-tree cancellation keeps the invariant, and stops exactly the true subtree. */
module CoordinationCancel {
  import opened Foundation
  import opened MapSums
  import opened RunStates
  import opened Forest
  import opened CoordinationPolicy
  import opened PolicyChains
  import opened Coordination
  import opened CoordinationInvariants

  /** `guard_delegation_semantics`: the definition is immutable, terminal rows are immutable, and
      the status follows its lifecycle. */
  predicate DelegationGuard(was: Delegation, now: Delegation) {
    && now.(status := was.status, revision := was.revision) == was
    && Active(was.status)
    && ((was.status == Proposed && now.status in {Accepted, Rejected, TreeCancelled})
        || (was.status == Accepted && now.status in {Executing, Finished, Errored, TreeCancelled})
        || (was.status == Executing && now.status in {Finished, Errored, TreeCancelled})
        || was.status == now.status)
  }

  /** Same rows, and each one differs at most in status and revision. */
  ghost predicate SameDefinitions(ds: Delegations, ds': Delegations) {
    && ds'.Keys == ds.Keys
    && forall c :: c in ds ==> ds'[c].(status := ds[c].status, revision := ds[c].revision) == ds[c]
  }

  lemma CancelRowsPassGuard(ds: Delegations, ids: set<Id>)
    ensures SameDefinitions(ds, CancelDelegations(ds, ids))
    ensures forall c :: c in ds ==>
      CancelDelegations(ds, ids)[c] == ds[c] || DelegationGuard(ds[c], CancelDelegations(ds, ids)[c])
    ensures forall c :: c in ds ==>
      (Active(CancelDelegations(ds, ids)[c].status) <==> Active(ds[c].status) && c !in ids)
  {}

  lemma SameParents(ds: Delegations, ds': Delegations)
    requires SameDefinitions(ds, ds')
    ensures ParentsOf(ds') == ParentsOf(ds)
    ensures forall p :: ChildrenOf(ds', p) == ChildrenOf(ds, p)
  {
    forall p ensures ChildrenOf(ds', p) == ChildrenOf(ds, p) {
      assert forall c :: c in ds ==> ds'[c].parent == ds[c].parent;
    }
  }

  // ----- the cancelled set is the subtree -----

  /** The runs the service locks are exactly the true subtree. */
  lemma TreeIdsAreSubtree(s: State, root: Id, d: Id)
    requires Closed(s)
    ensures d in TreeIds(s, root) <==> InSubtree(ParentsOf(s.delegations), root, d)
  {
    SubtreeIsStored(ParentsOf(s.delegations), s.relations, root, d);
    hide Exact, InSubtree;
    if d in DescendantsOf(s.relations, root) {
      var k :| k in s.relations && k.ancestor == root && k.descendant == d;
      assert k == Pair(root, d);
    }
    if Pair(root, d) in s.relations {
      assert Pair(root, d).descendant == d && Pair(root, d).ancestor == root;
    }
  }

  // ----- budgets -----

  lemma GrantsAfterCancel(ds: Delegations, ids: set<Id>, p: Id, r: Resource)
    ensures Grants(CancelDelegations(ds, ids), p, r) == Grants(ds, p, r) - ids
  {
    CancelRowsPassGuard(ds, ids);
    hide CancelDelegations;
  }

  lemma GrantsNonNegative(ds: Delegations, p: Id, r: Resource)
    ensures forall c :: c in Grants(ds, p, r) ==> Grants(ds, p, r)[c] >= 0
  {}

  /** What a ledger gives back never exceeds what it holds: the clamp of the release code is
      never reached, and what stays reserved is the grants that stay active. */
  lemma ReleaseIsExact(l: Ledger, ds: Delegations, ids: set<Id>, p: Id, r: Resource)
    requires LedgerExact(l, ds, p)
    ensures 0 <= ReleasedAmounts(ds, ids, p, r) <= Of(l.reserved, r)
    ensures Of(l.reserved, r) - ReleasedAmounts(ds, ids, p, r) == Sum(Grants(CancelDelegations(ds, ids), p, r))
  {
    GrantsAfterCancel(ds, ids, p, r);
    GrantsNonNegative(ds, p, r);
    hide Grants, CancelDelegations, WithinLimits;
    var g := Grants(ds, p, r);
    SumSplit(g, ids);
    hide Sum;
    assert forall c :: c in Only(g, ids) ==> Only(g, ids)[c] == g[c];
    SumNonNegative(Only(g, ids));
    SumNonNegative(g - ids);
    assert Of(l.reserved, r) == Sum(g);
  }

  lemma ReleaseKeepsExact(l: Ledger, ds: Delegations, ids: set<Id>, p: Id)
    requires LedgerExact(l, ds, p)
    ensures LedgerExact(ReleaseLedger(l, ds, ids, p), CancelDelegations(ds, ids), p)
  {
    hide *;
    var l' := ReleaseLedger(l, ds, ids, p);
    forall r: Resource
      ensures Of(l'.reserved, r) == Sum(Grants(CancelDelegations(ds, ids), p, r)) <= Of(l.reserved, r)
    {
      ReleasedColumn(l, ds, ids, p, r);
    }
    LedgerParts(l, ds, p);
    ReleaseWithinLimits(l, ds, ids, p);
    CancelRowsPassGuard(ds, ids);
    SameParents(ds, CancelDelegations(ds, ids));
    ReleaseKeepsCount(l, ds, ids, p);
    LedgerIsExact(l', CancelDelegations(ds, ids), p);
  }

  lemma ReleasedColumn(l: Ledger, ds: Delegations, ids: set<Id>, p: Id, r: Resource)
    requires LedgerExact(l, ds, p)
    ensures Of(ReleaseLedger(l, ds, ids, p).reserved, r) == Of(l.reserved, r) - ReleasedAmounts(ds, ids, p, r)
    ensures Of(ReleaseLedger(l, ds, ids, p).reserved, r) == Sum(Grants(CancelDelegations(ds, ids), p, r)) <= Of(l.reserved, r)
  {
    hide ReleasedAmounts, ReleasedBy, Sum, Grants, CancelDelegations, LedgerExact;
    ReleaseIsExact(l, ds, ids, p, r);
    match r case Tokens => case Cost => case ToolCalls =>
  }

  lemma LedgerParts(l: Ledger, ds: Delegations, p: Id)
    requires LedgerExact(l, ds, p)
    ensures WithinLimits(l) && l.childCount == |ChildrenOf(ds, p)|
  {
    hide WithinLimits, ChildrenOf, Sum, Grants;
  }

  lemma ReleaseKeepsCount(l: Ledger, ds: Delegations, ids: set<Id>, p: Id)
    ensures ReleaseLedger(l, ds, ids, p).childCount == l.childCount
  {
    hide ReleasedAmounts, ReleasedBy;
  }

  lemma LedgerIsExact(l: Ledger, ds: Delegations, p: Id)
    requires forall r: Resource :: Of(l.reserved, r) == Sum(Grants(ds, p, r))
    requires l.childCount == |ChildrenOf(ds, p)| && WithinLimits(l)
    ensures LedgerExact(l, ds, p)
  {
    hide WithinLimits, ChildrenOf, Sum, Grants, Of;
  }

  lemma ReleaseWithinLimits(l: Ledger, ds: Delegations, ids: set<Id>, p: Id)
    requires WithinLimits(l)
    requires forall r: Resource :: Of(ReleaseLedger(l, ds, ids, p).reserved, r) <= Of(l.reserved, r)
    ensures WithinLimits(ReleaseLedger(l, ds, ids, p))
  {
    hide ReleasedAmounts, ReleasedBy;
    var l' := ReleaseLedger(l, ds, ids, p);
    assert Of(l'.reserved, Tokens) <= Of(l.reserved, Tokens);
    assert Of(l'.reserved, Cost) <= Of(l.reserved, Cost);
    assert Of(l'.reserved, ToolCalls) <= Of(l.reserved, ToolCalls);
  }

  // ----- the other tables -----

  lemma CancelEvolves(runs: map<Id, Run>, ids: set<Id>)
    requires LeasedTable(runs)
    ensures RunsEvolve(runs, CancelRuns(runs, ids)) && LeasedTable(CancelRuns(runs, ids))
    ensures CancelRuns(runs, ids).Keys == runs.Keys
    ensures forall r :: r in runs && r in ids ==> Terminal(CancelRuns(runs, ids)[r].status)
    ensures forall r :: r in runs && r !in ids ==> CancelRuns(runs, ids)[r] == runs[r]
  {}

  lemma CancelKeepsLive(ds: Delegations, runs: map<Id, Run>, ids: set<Id>)
    requires LiveTables(ds, runs) && LeasedTable(runs)
    ensures LiveTables(CancelDelegations(ds, ids), CancelRuns(runs, ids))
  {
    CancelRowsPassGuard(ds, ids);
    CancelEvolves(runs, ids);
    hide CancelDelegations, CancelRuns, Active, Terminal, LeasedTable;
    var ds', runs' := CancelDelegations(ds, ids), CancelRuns(runs, ids);
    forall c | c in ds' ensures c in ds && ds'[c].parent == ds[c].parent {}
  }

  /** Ending delegations keeps the fan-out. */
  lemma FewerActiveKeepsFanout(ds: Delegations, ds': Delegations, p: Id, policy: Doc)
    requires WithinFanout(ds, p, policy) && SameDefinitions(ds, ds')
    requires forall c :: c in ds && Active(ds'[c].status) ==> Active(ds[c].status)
    ensures WithinFanout(ds', p, policy)
  {
    hide ChildrenOf, PositiveInt, Get, Active;
    SameParents(ds, ds');
    assert forall c :: c in ds ==> ds'[c].parent == ds[c].parent;
    assert ActiveChildrenOf(ds', p) <= ActiveChildrenOf(ds, p);
    SubsetSize(ActiveChildrenOf(ds', p), ActiveChildrenOf(ds, p));
  }

  lemma CancelSessionsKeep(sessions: map<Id, Session>, stopped: set<Id>)
    ensures CancelSessions(sessions, stopped).Keys == sessions.Keys
    ensures forall r :: r in sessions ==>
      && CancelSessions(sessions, stopped)[r].policy == sessions[r].policy
      && CancelSessions(sessions, stopped)[r].tools == sessions[r].tools
  {}

  lemma CancelKeepsAuthority(rel: Closure, ds: Delegations, ds': Delegations, sessions: map<Id, Session>, sessions': map<Id, Session>)
    requires AuthorityTables(rel, ds, sessions) && SameDefinitions(ds, ds') && sessions'.Keys == sessions.Keys
    requires forall r :: r in sessions ==>
      sessions'[r].policy == sessions[r].policy && sessions'[r].tools == sessions[r].tools
    ensures AuthorityTables(rel, ds', sessions')
  {
    hide NoWiderPolicy, NoWiderTools;
    forall c | c in ds ensures ds'[c].policy == ds[c].policy && ds'[c].permissions == ds[c].permissions {}
  }

  lemma CancelKeepsLineage(rel: Closure, ds: Delegations, ds': Delegations, runs: map<Id, Run>, runs': map<Id, Run>)
    requires LineageTables(rel, ds, runs) && SameDefinitions(ds, ds') && RunsEvolve(runs, runs')
    requires runs'.Keys == runs.Keys
    ensures LineageTables(rel, ds', runs')
  {
    hide PositiveInt, Get;
    forall k | k in rel ensures LineageRow(rel[k], k, ds', runs') {
      assert LineageRow(rel[k], k, ds, runs);
      if k.descendant in ds { assert ds'[k.descendant].policy == ds[k.descendant].policy; }
    }
  }

  lemma CancelKeepsUnique(s: State, s': State)
    requires Unique(s) && SameDefinitions(s.delegations, s'.delegations)
    ensures Unique(s')
  {
    forall c | c in s.delegations
      ensures var x, y := s'.delegations[c], s.delegations[c];
        x.id == y.id && x.parent == y.parent && x.key == y.key && x.fingerprint == y.fingerprint
    {}
  }

  /** The tables after a cancellation, one by one. */
  lemma CancelTables(s: State, root: Id)
    ensures var ids, s' := TreeIds(s, root), TreeCancel(s, root);
      && s'.runs == CancelRuns(s.runs, ids)
      && s'.delegations == CancelDelegations(s.delegations, ids)
      && s'.relations == s.relations
      && s'.ledgers == ReleaseLedgers(s.ledgers, s.delegations, ids)
      && s'.sessions == CancelSessions(s.sessions, Stopped(s.runs, ids))
      && s'.tasks == CancelTasks(s.tasks, TasksOf(s.runs, Stopped(s.runs, ids)))
  {}

  lemma CancelKeepsRow(s: State, s': State, c: Id)
    requires c in s.delegations && DelegationRow(s, c) && SameDefinitions(s.delegations, s'.delegations)
    requires RunsEvolve(s.runs, s'.runs) && s'.sessions.Keys == s.sessions.Keys && s'.ledgers.Keys == s.ledgers.Keys
    requires forall p :: p in s.ledgers ==> s'.ledgers[p].limit == s.ledgers[p].limit
    ensures DelegationRow(s', c)
  {
    assert s'.delegations[c].parent == s.delegations[c].parent && s'.delegations[c].target == s.delegations[c].target;
    assert s'.delegations[c].grant == s.delegations[c].grant;
  }

  lemma CancelLedgerColumns(ledgers: map<Id, Ledger>, ds: Delegations, ids: set<Id>)
    ensures ReleaseLedgers(ledgers, ds, ids).Keys == ledgers.Keys
    ensures forall p :: p in ledgers ==>
      var l := ReleaseLedgers(ledgers, ds, ids)[p];
      l.limit == ledgers[p].limit && l.direct == ledgers[p].direct && l.childConsumed == ledgers[p].childConsumed
      && l.childCount == ledgers[p].childCount
  {
    hide ReleasedAmounts, ReleasedBy;
  }

  lemma KeysKeepRows(s: State, s': State)
    requires Rows(s) && SameDefinitions(s.delegations, s'.delegations) && s'.relations == s.relations
    requires RunsEvolve(s.runs, s'.runs) && s'.runs.Keys == s.runs.Keys
    requires s'.sessions.Keys == s.sessions.Keys && s'.ledgers.Keys == s.ledgers.Keys && s'.tasks.Keys == s.tasks.Keys
    requires forall p :: p in s.ledgers ==> s'.ledgers[p].limit == s.ledgers[p].limit
    ensures Rows(s')
  {
    KeysKeepOwners(s, s');
    KeysKeepDelegations(s, s');
    hide DelegationRows, OwnerRows, RunsEvolve;
  }

  lemma KeysKeepDelegations(s: State, s': State)
    requires DelegationRows(s) && SameDefinitions(s.delegations, s'.delegations)
    requires RunsEvolve(s.runs, s'.runs) && s'.sessions.Keys == s.sessions.Keys && s'.ledgers.Keys == s.ledgers.Keys
    requires forall p :: p in s.ledgers ==> s'.ledgers[p].limit == s.ledgers[p].limit
    ensures DelegationRows(s')
  {
    hide DelegationRow, RunsEvolve;
    forall c | c in s'.delegations ensures DelegationRow(s', c) {
      CancelKeepsRow(s, s', c);
    }
  }

  lemma KeysKeepOwners(s: State, s': State)
    requires OwnerRows(s) && RunsEvolve(s.runs, s'.runs) && s'.runs.Keys == s.runs.Keys
    requires s'.sessions.Keys == s.sessions.Keys && s'.ledgers.Keys == s.ledgers.Keys && s'.tasks.Keys == s.tasks.Keys
    ensures OwnerRows(s')
  {}

  lemma CancelKeepsRows(s: State, root: Id)
    requires Rows(s) && Leased(s)
    ensures Rows(TreeCancel(s, root))
  {
    var ids := TreeIds(s, root);
    CancelTables(s, root);
    CancelRowsPassGuard(s.delegations, ids);
    CancelEvolves(s.runs, ids);
    CancelSessionsKeep(s.sessions, Stopped(s.runs, ids));
    CancelLedgerColumns(s.ledgers, s.delegations, ids);
    assert CancelTasks(s.tasks, TasksOf(s.runs, Stopped(s.runs, ids))).Keys == s.tasks.Keys;
    hide *;
    KeysKeepRows(s, TreeCancel(s, root));
  }

  lemma CancelKeepsRecounted(ledgers: map<Id, Ledger>, ds: Delegations, ids: set<Id>)
    requires RecountedTables(ledgers, ds)
    ensures RecountedTables(ReleaseLedgers(ledgers, ds, ids), CancelDelegations(ds, ids))
  {
    forall p | p in ledgers ensures LedgerExact(ReleaseLedger(ledgers[p], ds, ids, p), CancelDelegations(ds, ids), p) {
      ReleaseKeepsExact(ledgers[p], ds, ids, p);
    }
    hide ReleaseLedger, CancelDelegations, LedgerExact;
  }

  lemma CancelKeepsAccounts(ledgers: map<Id, Ledger>, ds: Delegations, ids: set<Id>)
    requires AccountedTables(ledgers, ds)
    ensures AccountedTables(ReleaseLedgers(ledgers, ds, ids), CancelDelegations(ds, ids))
  {
    hide CancelDelegations, ReleaseLedgers, Active;
    CancelRowsPassGuard(ds, ids);
    CancelLedgerColumns(ledgers, ds, ids);
    var ledgers', ds' := ReleaseLedgers(ledgers, ds, ids), CancelDelegations(ds, ids);
    forall p | p in ledgers' ensures ChargesAddUp(ledgers', ds', p) {
      assert ChargesAddUp(ledgers, ds, p);
      forall r: Resource ensures Charges(ledgers', ds', p, r) == Charges(ledgers, ds, p, r) {
        assert forall c :: c in ds ==> ds'[c].parent == ds[c].parent;
      }
      hide Charges, Sum;
    }
    hide ChargesAddUp;
  }

  lemma EndingKeepsFanouts(s: State, s': State)
    requires Fanout(s) && SameDefinitions(s.delegations, s'.delegations) && s'.sessions.Keys == s.sessions.Keys
    requires forall c :: c in s.delegations && Active(s'.delegations[c].status) ==> Active(s.delegations[c].status)
    requires forall r :: r in s.sessions ==> s'.sessions[r].policy == s.sessions[r].policy
    ensures Fanout(s')
  {
    hide WithinFanout, SameDefinitions, Active;
    forall p | p in s.sessions ensures WithinFanout(s'.delegations, p, s'.sessions[p].policy) {
      FewerActiveKeepsFanout(s.delegations, s'.delegations, p, s.sessions[p].policy);
    }
  }

  lemma CancelKeeps(s: State, root: Id)
    requires Inv(s)
    ensures Inv(TreeCancel(s, root))
  {
    var ids, s' := TreeIds(s, root), TreeCancel(s, root);
    hide CancelDelegations, CancelRuns, CancelSessions, ReleaseLedgers, CancelTasks, TreeIds, LeasedTable, LiveTables,
         Rows, RecountedTables, AccountedTables, Fanout, Unique, AuthorityTables, LineageTables, Exact, ParentsOf, SameDefinitions,
         RunsEvolve, Stopped, TasksOf;
    CancelTables(s, root);
    hide TreeCancel;
    CancelKeepsRows(s, root);
    CancelRowsPassGuard(s.delegations, ids);
    SameParents(s.delegations, s'.delegations);
    CancelKeepsLive(s.delegations, s.runs, ids);
    CancelEvolves(s.runs, ids);
    CancelKeepsLineage(s.relations, s.delegations, s'.delegations, s.runs, s'.runs);
    CancelSessionsKeep(s.sessions, Stopped(s.runs, ids));
    CancelKeepsAuthority(s.relations, s.delegations, s'.delegations, s.sessions, s'.sessions);
    CancelKeepsUnique(s, s');
    CancelKeepsRecounted(s.ledgers, s.delegations, ids);
    CancelKeepsAccounts(s.ledgers, s.delegations, ids);
    EndingKeepsFanouts(s, s');
  }
}
