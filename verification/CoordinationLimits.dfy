/** Where budgets come from: over every history the limits of a ledger are the run's own budget columns,
    or the grant of the delegation that made the run. */
module CoordinationLimits {
  import opened Foundation
  import opened MapSums
  import opened CoordinationPolicy
  import opened Coordination
  import opened CoordinationInvariants
  import opened CoordinationCancel
  import opened CoordinationSettlement
  import opened CoordinationTheorems
  import opened CoordinationHistories
  import opened CoordinationRevisions

  /** A non-negative integer under the key counts, everything else as 0. */
  predicate CountUnder(budgets: Doc, key: string, n: nat) {
    if key in budgets && budgets[key].Int? && budgets[key].i >= 0 then n == budgets[key].i else n == 0
  }

  /** The limits are the budget columns of the run: its token budget, its cost limit in microunits and
      its tool-call limit. */
  predicate OwnBudget(run: Run, limit: Amounts) {
    && (match run.tokenBudget case Some(tokens) => limit.tokens == tokens case None => limit.tokens == 0)
    && CountUnder(run.budgets, "cost_limit_microunits", limit.cost)
    && CountUnder(run.budgets, "tool_call_limit", limit.tools)
  }

  lemma FirstLedgerIsOwn(run: Run)
    ensures OwnBudget(run, DefaultLedger(run).limit)
  {}

  ghost predicate OwnLimits(s: State) {
    forall r :: r in s.ledgers && r in s.runs && r !in s.delegations ==> OwnBudget(s.runs[r], s.ledgers[r].limit)
  }

  // ----- what steps do to limits -----

  /** Limits of stored ledgers stay, and so do delegated runs; a new ledger of a run that is not
      delegated has that run's own budget as limit. */
  ghost predicate LimitsStay(s: State, s': State) {
    && (forall r :: r in s.ledgers ==> r in s'.ledgers && s'.ledgers[r].limit == s.ledgers[r].limit)
    && (forall c :: c in s.delegations ==> c in s'.delegations)
    && (forall r :: r in s'.ledgers && r !in s.ledgers && r !in s'.delegations ==>
          r in s.runs && OwnBudget(s.runs[r], s'.ledgers[r].limit))
  }

  lemma SameLimits(s: State, s': State)
    requires s'.ledgers == s.ledgers && s'.delegations.Keys == s.delegations.Keys
    ensures LimitsStay(s, s')
  {}

  lemma DelegateLimits(s: State, cat: Catalog, q: Request)
    requires Rows(s)
    ensures LimitsStay(s, DelegateStep(s, cat, q).0)
  {
    hide *;
    SameLimits(s, s);
    DelegateInserts(s, cat, q);
    if Admission(s, cat, q).Admit? { InsertLimits(s, q, Admission(s, cat, q).permissions); }
  }

  lemma DelegateInserts(s: State, cat: Catalog, q: Request)
    ensures Admission(s, cat, q).Admit? ==>
      Insertable(s, q) && DelegateStep(s, cat, q).0 == WithDelegation(s, q, Admission(s, cat, q).permissions)
    ensures !Admission(s, cat, q).Admit? ==> DelegateStep(s, cat, q).0 == s
  {
    hide Admission, WithDelegation, Admitted, Insertable;
    if Admission(s, cat, q).Admit? {
      AdmissionMeans(s, cat, q);
      AdmittedInserts(s, cat, q, Admission(s, cat, q).permissions);
    }
  }

  lemma InsertLimits(s: State, q: Request, permissions: Doc)
    requires Rows(s) && Insertable(s, q)
    ensures LimitsStay(s, WithDelegation(s, q, permissions))
  {
    hide *;
    DelegationTables(s, q, permissions);
    InsertableRun(s, q);
    FreshChild(s, q);
    FirstLedgerIsOwn(s.runs[q.run]);
    InsertedLimits(s, WithDelegation(s, q, permissions), q, NewDelegation(q, s.sessions[q.run].policy, permissions));
  }

  lemma InsertableRun(s: State, q: Request)
    requires Insertable(s, q)
    ensures q.run in s.runs && q.run in s.sessions && s.runs[q.run].task in s.tasks && FreshIds(s, q)
  {
    hide FreshIds;
  }

  lemma InsertedLimits(s: State, s': State, q: Request, d: Delegation)
    requires q.run in s.runs && q.childRun !in s.ledgers && OwnBudget(s.runs[q.run], DefaultLedger(s.runs[q.run]).limit)
    requires s'.delegations == s.delegations[q.childRun := d]
    requires s'.ledgers == s.ledgers[q.run := Reserved(LedgerOf(s, q.run), q.intent.grant)][q.childRun := ChildLedger(q)]
    ensures LimitsStay(s, s')
  {
    hide OwnBudget, DefaultLedger, Plus, ChildLedger;
  }

  lemma CancelLimits(s: State, root: Id, expectedRevision: nat)
    ensures LimitsStay(s, CancelStep(s, root, expectedRevision).0)
  {
    SameLimits(s, s);
    CancelTables(s, root);
    CancelledKeys(s.delegations, TreeIds(s, root));
    CancelLedgerColumns(s.ledgers, s.delegations, TreeIds(s, root));
    ReleasedLimits(s, TreeCancel(s, root));
    hide TreeCancel, TreeIds, ReleaseLedgers, CancelDelegations, LimitsStay;
  }

  lemma ReleasedLimits(s: State, s': State)
    ensures s'.ledgers.Keys == s.ledgers.Keys && s'.delegations.Keys == s.delegations.Keys
            && (forall p :: p in s.ledgers ==> s'.ledgers[p].limit == s.ledgers[p].limit)
            ==> LimitsStay(s, s')
  {}

  lemma CompleteLimits(s: State, c: Command)
    requires Rows(s) && c.Complete?
    ensures LimitsStay(s, Step(s, c).0)
  {
    hide *;
    StepIsComplete(s, c);
    CompletePasses(s, c.run, c.worker, c.token, c.now, c.target, c.ended, c.usage, c.compaction);
    SameLimits(s, s);
    if Step(s, c).0 != s {
      CompletionIs(s, c.run, c.target, c.ended, c.usage, c.compaction);
      var finished := EndRun(s, c.run, c.target, c.ended, c.compaction);
      if ActiveChild(s, c.run) {
        ActiveChildRow(s, c.run);
        var d, charge := s.delegations[c.run], Charge(c.usage, s.delegations[c.run].grant);
        SettleTables(finished, c.run, c.target, charge);
        WakeParentColumns(Settle(finished, c.run, c.target, charge), d.parent);
        SettledColumns(s.ledgers, c.run, d, charge);
        SettledKeys(s.delegations, c.run, EndDelegation(d, c.target));
        ReleasedLimits(s, Step(s, c).0);
      } else {
        SameLimits(s, Step(s, c).0);
      }
    }
  }

  lemma SettledKeys(ds: Delegations, run: Id, d: Delegation)
    requires run in ds
    ensures ds[run := d].Keys == ds.Keys
  {}

  lemma StepLimits(s: State, c: Command)
    requires Inv(s)
    ensures LimitsStay(s, Step(s, c).0)
  {
    hide *;
    InvParts(s);
    if c.Delegate? {
      StepIsDelegate(s, c);
      DelegateLimits(s, c.catalog, c.request);
    } else if c.CancelTree? {
      StepIsCancel(s, c);
      CancelLimits(s, c.root, c.expectedRevision);
    } else if c.Complete? {
      CompleteLimits(s, c);
    } else {
      OtherwisePlain(c);
      QuietStep(s, c);
      QuietLimits(s, Step(s, c).0);
    }
  }

  lemma QuietLimits(s: State, s': State)
    requires Quiet(s, s')
    ensures LimitsStay(s, s')
  {
    hide RunsEvolve, SessionsEvolve;
    SameLimits(s, s');
  }

  lemma LimitsCarry(s: State, s': State)
    requires OwnLimits(s) && LimitsStay(s, s') && RunsRevised(s.runs, s'.runs) && OwnerRows(s)
    ensures OwnLimits(s')
  {
    forall r | r in s'.ledgers && r in s'.runs && r !in s'.delegations ensures OwnBudget(s'.runs[r], s'.ledgers[r].limit) {
      assert RunRevised(s.runs[r], s'.runs[r]);
    }
    hide CountUnder;
  }

  lemma {:induction false} AlwaysOwn(history: seq<Command>)
    ensures OwnLimits(After(history))
    decreases |history|
  {
    if history != [] {
      var n := |history| - 1;
      AlwaysOwn(history[..n]);
      Reachable(history[..n]);
      LastStep(history);
      hide *;
      StepLimits(After(history[..n]), history[n]);
      StepRevises(history[..n], history[n]);
      RevisedRuns(After(history[..n]), After(history));
      InvParts(After(history[..n]));
      RowsOwn(After(history[..n]));
      LimitsCarry(After(history[..n]), After(history));
    }
  }

  lemma LastStep(history: seq<Command>)
    requires history != []
    ensures After(history) == Step(After(history[..|history| - 1]), history[|history| - 1]).0
  {
    hide Step;
  }

  lemma RevisedRuns(s: State, s': State)
    requires Revised(s, s')
    ensures RunsRevised(s.runs, s'.runs)
  {
    hide RunsRevised, TasksRevised;
  }

  lemma RowsOwn(s: State)
    requires Rows(s)
    ensures OwnerRows(s)
  {
    hide DelegationRows, RelationRows, OwnerRows;
  }

  /** What a run may grant altogether, after any history and whether or not its ledger exists yet: the
      grant of the delegation that made it, or its own budget columns. */
  lemma LimitsAreBudgets(history: seq<Command>, run: Id)
    requires run in After(history).runs
    ensures var s := After(history);
      && (run in s.delegations ==> run in s.ledgers && LedgerOf(s, run).limit == s.delegations[run].grant)
      && (run !in s.delegations ==> OwnBudget(s.runs[run], LedgerOf(s, run).limit))
  {
    hide *;
    Reachable(history);
    AlwaysOwn(history);
    InvParts(After(history));
    LimitIs(After(history), run);
  }

  lemma LimitIs(s: State, run: Id)
    requires Rows(s) && OwnLimits(s) && run in s.runs
    ensures run in s.delegations ==> run in s.ledgers && LedgerOf(s, run).limit == s.delegations[run].grant
    ensures run !in s.delegations ==> OwnBudget(s.runs[run], LedgerOf(s, run).limit)
  {
    FirstLedgerIsOwn(s.runs[run]);
    if run in s.delegations { assert DelegationRow(s, run); }
    hide OwnBudget, DefaultLedger, RelationRows;
  }

  /** Conservation in the run's own terms: what is still available over the active tree below a root run
      adds up to the root's own budget columns. */
  lemma OwnBudgetConserved(history: seq<Command>, root: Id)
    requires root in After(history).runs && root !in After(history).delegations
    ensures var s := After(history);
      && ActiveTree(s, root) <= s.runs.Keys
      && (forall r: Resource :: Sum(Available(s, ActiveTree(s, root), r)) >= 0)
      && OwnBudget(s.runs[root], Amounts(Sum(Available(s, ActiveTree(s, root), Tokens)), Sum(Available(s, ActiveTree(s, root), Cost)),
                                         Sum(Available(s, ActiveTree(s, root), ToolCalls))))
  {
    hide *;
    var s := After(history);
    LimitsAreBudgets(history, root);
    BudgetConserved(history, root, Tokens);
    forall r: Resource ensures Sum(Available(s, ActiveTree(s, root), r)) == Of(LedgerOf(s, root).limit, r) {
      BudgetConserved(history, root, r);
    }
    AmountsOf(LedgerOf(s, root).limit);
  }

  lemma AmountsOf(a: Amounts)
    ensures a == Amounts(Of(a, Tokens), Of(a, Cost), Of(a, ToolCalls))
    ensures forall r: Resource :: Of(a, r) >= 0
  {}
}
