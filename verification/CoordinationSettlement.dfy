/** A finished run: a delegated child's grant is settled in its parent's ledger, its delegation ends,
    and a parent that waits for nothing else goes on. */
module CoordinationSettlement {
  import opened Foundation
  import opened MapSums
  import opened RunStates
  import opened Forest
  import opened Coordination
  import opened CoordinationInvariants
  import opened CoordinationCancel

  // ----- the run itself, and the parent's wake-up -----

  lemma EndRunColumns(s: State, run: Id, target: RunStatus, ended: SessionStatus, compaction: bool)
    requires run in s.runs && run in s.sessions
    ensures var s' := EndRun(s, run, target, ended, compaction);
      && s' == s.(runs := s'.runs, sessions := s'.sessions, tasks := s'.tasks, toolCalls := s'.toolCalls, steps := s'.steps)
      && s'.runs == s.runs[run := Advanced(s.runs[run], target)]
      && s'.sessions.Keys == s.sessions.Keys && s'.tasks.Keys == s.tasks.Keys
      && forall r :: r in s.sessions ==>
           s'.sessions[r].policy == s.sessions[r].policy && s'.sessions[r].tools == s.sessions[r].tools
  {
    hide Advanced, TaskEnded;
  }

  lemma EndRunQuiet(s: State, run: Id, target: RunStatus, ended: SessionStatus, compaction: bool)
    requires Rows(s) && Leased(s) && run in s.runs && run in s.sessions
    requires Terminal(target) && !Terminal(s.runs[run].status)
    ensures Quiet(s, EndRun(s, run, target, ended, compaction))
  {
    assert RunMay(s.runs[run], Advanced(s.runs[run], target));
    hide *;
    EndRunColumns(s, run, target, ended, compaction);
    OneRunEvolves(s, run, Advanced(s.runs[run], target));
    SameKeys(s.runs, run, Advanced(s.runs[run], target));
    QuietRunsAndSessions(s, EndRun(s, run, target, ended, compaction));
  }

  lemma SameKeys(runs: map<Id, Run>, r: Id, run: Run)
    requires r in runs
    ensures runs[r := run].Keys == runs.Keys
  {}

  lemma WakeParentColumns(s: State, p: Id)
    ensures var s' := WakeParent(s, p);
      && s' == s.(runs := s'.runs, sessions := s'.sessions, tasks := s'.tasks, toolCalls := s'.toolCalls, steps := s'.steps)
      && s'.runs == (if WaitsForNone(s, p) then s.runs[p := WakeRun(s.runs[p])] else s.runs)
      && s'.sessions.Keys == s.sessions.Keys && s'.tasks.Keys == s.tasks.Keys
      && forall r :: r in s.sessions ==>
           s'.sessions[r].policy == s.sessions[r].policy && s'.sessions[r].tools == s.sessions[r].tools
  {
    hide ActiveChildrenOf, WakeRun;
  }

  lemma WaitingMayWake(s: State, p: Id)
    requires WaitsForNone(s, p)
    ensures p in s.runs && RunMay(s.runs[p], WakeRun(s.runs[p]))
  {
    hide ActiveChildrenOf;
  }

  lemma WakeParentQuiet(s: State, p: Id)
    requires Rows(s) && Leased(s)
    ensures Quiet(s, WakeParent(s, p))
  {
    hide *;
    WakeParentColumns(s, p);
    if WaitsForNone(s, p) {
      WaitingMayWake(s, p);
      OneRunEvolves(s, p, WakeRun(s.runs[p]));
      SameKeys(s.runs, p, WakeRun(s.runs[p]));
    } else {
      RunsStay(s);
    }
    QuietRunsAndSessions(s, WakeParent(s, p));
  }

  // ----- the settlement -----

  lemma SettledDefinitions(ds: Delegations, run: Id, target: RunStatus)
    requires run in ds
    ensures var ds' := ds[run := EndDelegation(ds[run], target)];
      SameDefinitions(ds, ds') && forall c :: c in ds ==> (Active(ds'[c].status) <==> Active(ds[c].status) && c != run)
  {}

  /** The delegation row of a finished child passes the trigger guard, unless it was only proposed
      and the child was not cancelled. */
  lemma SettledRowPassesGuard(d: Delegation, target: RunStatus)
    requires Active(d.status)
    ensures DelegationGuard(d, EndDelegation(d, target)) <==> d.status != Proposed || target == Cancelled
  {}

  lemma SettledColumns(ledgers: map<Id, Ledger>, run: Id, d: Delegation, charge: Amounts)
    requires d.parent != run
    ensures var ledgers' := SettledLedgers(ledgers, run, d, charge);
      && ledgers'.Keys == ledgers.Keys
      && (forall p :: p in ledgers ==> ledgers'[p].limit == ledgers[p].limit)
      && (run in ledgers ==> ledgers'[run] == ChargedRow(ledgers[run], charge))
      && (d.parent in ledgers ==> ledgers'[d.parent] == SettledRow(ledgers[d.parent], d.grant, charge))
      && (forall p :: p in ledgers && p != run && p != d.parent ==> ledgers'[p] == ledgers[p])
  {}

  /** The grants of the parent lose exactly the settled one. */
  lemma SettledGrants(ds: Delegations, run: Id, target: RunStatus, p: Id, r: Resource)
    requires run in ds && Active(ds[run].status)
    ensures var ds' := ds[run := EndDelegation(ds[run], target)];
      Sum(Grants(ds', p, r)) == Sum(Grants(ds, p, r)) - if p == ds[run].parent then Of(ds[run].grant, r) else 0
  {
    hide *;
    SettledDefinitions(ds, run, target);
    GrantsWithout(ds, ds[run := EndDelegation(ds[run], target)], run, p, r);
    if p == ds[run].parent {
      GrantIsThere(ds, run, r);
      SumRemove(Grants(ds, p, r), run);
    }
  }

  lemma GrantIsThere(ds: Delegations, run: Id, r: Resource)
    requires run in ds && Active(ds[run].status)
    ensures run in Grants(ds, ds[run].parent, r) && Grants(ds, ds[run].parent, r)[run] == Of(ds[run].grant, r)
  {}

  lemma GrantsWithout(ds: Delegations, ds': Delegations, run: Id, p: Id, r: Resource)
    requires run in ds && SameDefinitions(ds, ds')
    requires forall c :: c in ds ==> (Active(ds'[c].status) <==> Active(ds[c].status) && c != run)
    ensures Grants(ds', p, r) == if p == ds[run].parent then Grants(ds, p, r) - {run} else Grants(ds, p, r)
  {
    assert forall c :: c in ds ==> ds'[c].parent == ds[c].parent && ds'[c].grant == ds[c].grant;
    hide SameDefinitions, Active, Of;
    assert ds'.Keys == ds.Keys by { SameRows(ds, ds'); }
  }

  lemma SameRows(ds: Delegations, ds': Delegations)
    requires SameDefinitions(ds, ds')
    ensures ds'.Keys == ds.Keys
  {}

  lemma SettledReserve(l: Ledger, grant: Amounts, charge: Amounts, r: Resource)
    requires Covers(l.reserved, grant)
    ensures Of(SettledRow(l, grant, charge).reserved, r) == Of(l.reserved, r) - Of(grant, r)
    ensures Of(SettledRow(l, grant, charge).childConsumed, r) == Of(l.childConsumed, r) + Of(charge, r)
    ensures SettledRow(l, grant, charge).childCount == l.childCount && SettledRow(l, grant, charge).direct == l.direct
  {}

  lemma SettledLedgerExact(l: Ledger, l': Ledger, ds: Delegations, run: Id, target: RunStatus, p: Id)
    requires LedgerExact(l, ds, p) && run in ds && Active(ds[run].status) && WithinLimits(l')
    requires l'.childCount == l.childCount
    requires forall r: Resource :: Of(l'.reserved, r) == Of(l.reserved, r) - if p == ds[run].parent then Of(ds[run].grant, r) else 0
    ensures LedgerExact(l', ds[run := EndDelegation(ds[run], target)], p)
  {
    hide *;
    var ds' := ds[run := EndDelegation(ds[run], target)];
    ExactParts(l, ds, p);
    forall r: Resource ensures Of(l'.reserved, r) == Sum(Grants(ds', p, r)) { SettledGrants(ds, run, target, p, r); }
    SettledDefinitions(ds, run, target);
    SameParents(ds, ds');
    LedgerIsExact(l', ds', p);
  }

  lemma ExactParts(l: Ledger, ds: Delegations, p: Id)
    requires LedgerExact(l, ds, p)
    ensures WithinLimits(l) && l.childCount == |ChildrenOf(ds, p)|
    ensures forall r: Resource :: Of(l.reserved, r) == Sum(Grants(ds, p, r))
  {
    hide WithinLimits, ChildrenOf, Sum, Grants, Of;
  }

  lemma ChargedReserve(l: Ledger, charge: Amounts)
    ensures ChargedRow(l, charge).reserved == l.reserved && ChargedRow(l, charge).childCount == l.childCount
    ensures ChargedRow(l, charge).childConsumed == l.childConsumed && ChargedRow(l, charge).direct == charge
  {}

  lemma PassesMeans(ledgers: map<Id, Ledger>, run: Id, d: Delegation, charge: Amounts)
    requires SettlementPasses(ledgers, run, d, charge)
    ensures var after := SettledLedgers(ledgers, run, d, charge);
      && (run in after ==> WithinLimits(after[run]))
      && (d.parent in ledgers ==>
            d.parent in after && WithinLimits(after[d.parent]) && Covers(ledgers[d.parent].reserved, d.grant))
  {}

  lemma SettleKeepsRecounted(ledgers: map<Id, Ledger>, ds: Delegations, run: Id, target: RunStatus, charge: Amounts)
    requires RecountedTables(ledgers, ds) && run in ds && Active(ds[run].status) && ds[run].parent != run
    requires SettlementPasses(ledgers, run, ds[run], charge)
    ensures RecountedTables(SettledLedgers(ledgers, run, ds[run], charge), ds[run := EndDelegation(ds[run], target)])
  {
    var d, ledgers', ds' := ds[run], SettledLedgers(ledgers, run, ds[run], charge), ds[run := EndDelegation(ds[run], target)];
    hide SettledLedgers, SettlementPasses, LedgerExact, EndDelegation, WithinLimits, Covers, ChargedRow, SettledRow, Of, Active;
    SettledColumns(ledgers, run, d, charge);
    PassesMeans(ledgers, run, d, charge);
    forall p | p in ledgers' ensures LedgerExact(ledgers'[p], ds', p) {
      assert LedgerExact(ledgers[p], ds, p);
      ExactParts(ledgers[p], ds, p);
      if p == d.parent {
        forall r: Resource ensures Of(ledgers'[p].reserved, r) == Of(ledgers[p].reserved, r) - Of(d.grant, r)
                           ensures ledgers'[p].childCount == ledgers[p].childCount
        {
          SettledReserve(ledgers[p], d.grant, charge, r);
        }
      } else {
        ChargedReserve(ledgers[p], charge);
      }
      SettledRowCounts(ledgers[p], ledgers'[p], d.grant, charge, p == d.parent);
      SettledLedgerExact(ledgers[p], ledgers'[p], ds, run, target, p);
    }
  }

  lemma SettledRowCounts(l: Ledger, l': Ledger, grant: Amounts, charge: Amounts, parent: bool)
    requires parent ==> l' == SettledRow(l, grant, charge)
    requires !parent ==> l' == l || l' == ChargedRow(l, charge)
    ensures l'.childCount == l.childCount
  {}

  // accounts

  lemma SettledCharges(ledgers: map<Id, Ledger>, ds: Delegations, run: Id, target: RunStatus, charge: Amounts, p: Id, r: Resource)
    requires run in ds && run in ledgers && ds[run].parent != run && ledgers[run].direct == NOTHING
    ensures var ledgers' := SettledLedgers(ledgers, run, ds[run], charge);
      Sum(Charges(ledgers', ds[run := EndDelegation(ds[run], target)], p, r))
        == Sum(Charges(ledgers, ds, p, r)) + if p == ds[run].parent then Of(charge, r) else 0
  {
    hide *;
    SettledDefinitions(ds, run, target);
    SettledDirects(ledgers, run, ds[run], charge);
    ChargesWith(ledgers, SettledLedgers(ledgers, run, ds[run], charge), ds, ds[run := EndDelegation(ds[run], target)], run, charge, p, r);
    if p == ds[run].parent { SumUpdate(Charges(ledgers, ds, p, r), run, Of(charge, r)); }
  }

  lemma SettledDirects(ledgers: map<Id, Ledger>, run: Id, d: Delegation, charge: Amounts)
    requires run in ledgers && d.parent != run
    ensures var ledgers' := SettledLedgers(ledgers, run, d, charge);
      ledgers'.Keys == ledgers.Keys
      && forall c :: c in ledgers ==> ledgers'[c].direct == if c == run then charge else ledgers[c].direct
  {
    SettledColumns(ledgers, run, d, charge);
    hide SettledLedgers;
  }

  lemma ChargesWith(ledgers: map<Id, Ledger>, ledgers': map<Id, Ledger>, ds: Delegations, ds': Delegations, run: Id,
                    charge: Amounts, p: Id, r: Resource)
    requires SameDefinitions(ds, ds') && ledgers'.Keys == ledgers.Keys && run in ds && run in ledgers
    requires forall c :: c in ledgers ==> ledgers'[c].direct == if c == run then charge else ledgers[c].direct
    requires ledgers[run].direct == NOTHING
    ensures Charges(ledgers', ds', p, r)
         == if p == ds[run].parent then Charges(ledgers, ds, p, r)[run := Of(charge, r)] else Charges(ledgers, ds, p, r)
    ensures p == ds[run].parent ==> run in Charges(ledgers, ds, p, r) && Charges(ledgers, ds, p, r)[run] == 0
  {
    SameRows(ds, ds');
    assert forall c :: c in ds ==> ds'[c].parent == ds[c].parent;
    assert Of(NOTHING, r) == 0;
    hide SameDefinitions, Of;
  }

  lemma SettleKeepsCharges(ledgers: map<Id, Ledger>, ds: Delegations, run: Id, target: RunStatus, charge: Amounts, p: Id)
    requires AccountedTables(ledgers, ds) && run in ds && Active(ds[run].status) && ds[run].parent != run
    requires run in ledgers && ds[run].parent in ledgers && p in ledgers
    ensures var ledgers' := SettledLedgers(ledgers, run, ds[run], charge);
      p in ledgers' && ChargesAddUp(ledgers', ds[run := EndDelegation(ds[run], target)], p)
  {
    hide *;
    var ledgers', ds' := SettledLedgers(ledgers, run, ds[run], charge), ds[run := EndDelegation(ds[run], target)];
    AccountAt(ledgers, ds, p);
    Uncharged(ledgers, ds, run);
    SettledColumns(ledgers, run, ds[run], charge);
    SettledConsumption(ledgers[ds[run].parent], ds[run].grant, charge);
    ChargedReserve(ledgers[run], charge);
    forall r: Resource ensures Of(ledgers'[p].childConsumed, r) == Sum(Charges(ledgers', ds', p, r)) {
      SettledCharges(ledgers, ds, run, target, charge, p, r);
    }
    AddsUp(ledgers', ds', p);
  }

  lemma AccountAt(ledgers: map<Id, Ledger>, ds: Delegations, p: Id)
    requires AccountedTables(ledgers, ds) && p in ledgers
    ensures forall r: Resource :: Of(ledgers[p].childConsumed, r) == Sum(Charges(ledgers, ds, p, r))
  {
    assert ChargesAddUp(ledgers, ds, p);
    hide AccountedTables, Charges, Sum, Of;
  }

  lemma Uncharged(ledgers: map<Id, Ledger>, ds: Delegations, c: Id)
    requires AccountedTables(ledgers, ds) && c in ds && Active(ds[c].status) && c in ledgers
    ensures ledgers[c].direct == NOTHING
  {
    hide ChargesAddUp, Active;
  }

  lemma SettledConsumption(l: Ledger, grant: Amounts, charge: Amounts)
    ensures forall r: Resource :: Of(SettledRow(l, grant, charge).childConsumed, r) == Of(l.childConsumed, r) + Of(charge, r)
  {}

  lemma AddsUp(ledgers: map<Id, Ledger>, ds: Delegations, p: Id)
    requires p in ledgers
    requires forall r: Resource :: Of(ledgers[p].childConsumed, r) == Sum(Charges(ledgers, ds, p, r))
    ensures ChargesAddUp(ledgers, ds, p)
  {
    hide Charges, Sum, Of;
  }

  lemma SettleKeepsAccounts(ledgers: map<Id, Ledger>, ds: Delegations, run: Id, target: RunStatus, charge: Amounts)
    requires AccountedTables(ledgers, ds) && run in ds && Active(ds[run].status) && ds[run].parent != run
    requires run in ledgers && ds[run].parent in ledgers
    ensures AccountedTables(SettledLedgers(ledgers, run, ds[run], charge), ds[run := EndDelegation(ds[run], target)])
  {
    var ledgers', ds' := SettledLedgers(ledgers, run, ds[run], charge), ds[run := EndDelegation(ds[run], target)];
    SettledColumns(ledgers, run, ds[run], charge);
    SettledDefinitions(ds, run, target);
    forall p | p in ledgers' ensures ChargesAddUp(ledgers', ds', p) {
      SettleKeepsCharges(ledgers, ds, run, target, charge, p);
    }
    hide SettledLedgers, EndDelegation, ChargesAddUp, Active, SameDefinitions;
  }

  lemma SettleKeeps(s: State, run: Id, target: RunStatus, charge: Amounts)
    requires Inv(s) && ActiveChild(s, run) && run in s.runs && Terminal(s.runs[run].status)
    requires SettlementPasses(s.ledgers, run, s.delegations[run], charge)
    ensures Inv(Settle(s, run, target, charge))
  {
    hide *;
    InvConjuncts(s);
    ActiveChildRow(s, run);
    var s' := Settle(s, run, target, charge);
    SettleTables(s, run, target, charge);
    SettledDefinitions(s.delegations, run, target);
    SettledColumns(s.ledgers, run, s.delegations[run], charge);
    RunsStay(s);
    KeysKeepRows(s, s');
    SameParents(s.delegations, s'.delegations);
    SettleKeepsRecounted(s.ledgers, s.delegations, run, target, charge);
    SettleKeepsAccounts(s.ledgers, s.delegations, run, target, charge);
    SettleKeepsLive(s.delegations, s.runs, run, target);
    CancelKeepsLineage(s.relations, s.delegations, s'.delegations, s.runs, s'.runs);
    CancelKeepsAuthority(s.relations, s.delegations, s'.delegations, s.sessions, s'.sessions);
    CancelKeepsUnique(s, s');
    EndingKeepsFanouts(s, s');
    InvFrom(s, s');
  }

  /** The rows of an active child. */
  lemma ActiveChildRow(s: State, run: Id)
    requires Rows(s) && ActiveChild(s, run)
    ensures run in s.delegations && Active(s.delegations[run].status)
    ensures var p := s.delegations[run].parent; p != run && p in s.ledgers && run in s.ledgers && p in s.runs && run in s.runs
    ensures s.ledgers[run].limit == s.delegations[run].grant
  {
    assert DelegationRow(s, run);
    hide Rows;
  }

  lemma SettleTables(s: State, run: Id, target: RunStatus, charge: Amounts)
    requires run in s.delegations
    ensures Settle(s, run, target, charge)
         == s.(delegations := s.delegations[run := EndDelegation(s.delegations[run], target)],
               ledgers := SettledLedgers(s.ledgers, run, s.delegations[run], charge))
  {}

  lemma SettleKeepsLive(ds: Delegations, runs: map<Id, Run>, run: Id, target: RunStatus)
    requires LiveTables(ds, runs) && run in ds && run in runs && Terminal(runs[run].status)
    ensures LiveTables(ds[run := EndDelegation(ds[run], target)], runs)
  {
    hide Terminal;
  }

  lemma InvConjuncts(s: State)
    requires Inv(s)
    ensures Rows(s) && Closed(s) && Leased(s) && LeasedTable(s.runs) && Fanout(s) && Unique(s)
    ensures RecountedTables(s.ledgers, s.delegations) && AccountedTables(s.ledgers, s.delegations)
    ensures LiveTables(s.delegations, s.runs) && LineageTables(s.relations, s.delegations, s.runs)
    ensures AuthorityTables(s.relations, s.delegations, s.sessions)
  {
    hide Rows, Closed, LeasedTable, Fanout, Unique, RecountedTables, AccountedTables, LiveTables, LineageTables, AuthorityTables;
  }

  lemma InvFrom(s: State, s': State)
    requires Inv(s) && s' == s.(delegations := s'.delegations, ledgers := s'.ledgers)
    requires Rows(s') && ParentsOf(s'.delegations) == ParentsOf(s.delegations) && Fanout(s') && Unique(s')
    requires RecountedTables(s'.ledgers, s'.delegations) && AccountedTables(s'.ledgers, s'.delegations)
    requires LiveTables(s'.delegations, s'.runs) && LineageTables(s'.relations, s'.delegations, s'.runs)
    requires AuthorityTables(s'.relations, s'.delegations, s'.sessions)
    ensures Inv(s')
  {
    hide Rows, Exact, ParentsOf, LeasedTable, Fanout, Unique, RecountedTables, AccountedTables, LiveTables, LineageTables,
         AuthorityTables;
  }

  // ----- the whole transaction -----

  lemma CompletionKeeps(s: State, run: Id, target: RunStatus, ended: SessionStatus, usage: Amounts, compaction: bool)
    requires Inv(s) && run in s.runs && run in s.sessions && Terminal(target) && !Terminal(s.runs[run].status)
    requires ActiveChild(s, run) ==>
      SettlementPasses(s.ledgers, run, s.delegations[run], Charge(usage, s.delegations[run].grant))
    ensures Inv(Completion(s, run, target, ended, usage, compaction))
  {
    var finished := EndRun(s, run, target, ended, compaction);
    CompletionIs(s, run, target, ended, usage, compaction);
    assert Advanced(s.runs[run], target).status == target;
    hide *;
    InvConjuncts(s);
    EndRunQuiet(s, run, target, ended, compaction);
    QuietKeeps(s, finished);
    EndRunColumns(s, run, target, ended, compaction);
    if ActiveChild(s, run) {
      ActiveChildStays(s, finished, run);
      var d := s.delegations[run];
      SettleKeeps(finished, run, target, Charge(usage, d.grant));
      var settled := Settle(finished, run, target, Charge(usage, d.grant));
      InvConjuncts(settled);
      WakeParentQuiet(settled, d.parent);
      QuietKeeps(settled, WakeParent(settled, d.parent));
    }
  }

  lemma ActiveChildStays(s: State, s': State, run: Id)
    requires ActiveChild(s, run) && s'.delegations == s.delegations
    ensures ActiveChild(s', run) && run in s.delegations
  {}

  lemma CompletionIs(s: State, run: Id, target: RunStatus, ended: SessionStatus, usage: Amounts, compaction: bool)
    requires run in s.runs && run in s.sessions
    ensures var finished := EndRun(s, run, target, ended, compaction);
      && finished.delegations == s.delegations && finished.ledgers == s.ledgers
      && (!ActiveChild(s, run) ==> Completion(s, run, target, ended, usage, compaction) == finished)
      && (ActiveChild(s, run) ==>
            && run in s.delegations
            && var d := s.delegations[run];
               Completion(s, run, target, ended, usage, compaction)
                 == WakeParent(Settle(finished, run, target, Charge(usage, d.grant)), d.parent))
  {
    hide Advanced, EndedTasks, Settle, WakeParent, Charge, EndRun;
    EndRunColumns(s, run, target, ended, compaction);
  }

  /** What a completion that goes through has checked. */
  lemma CompletePasses(s: State, run: Id, worker: string, token: Id, now: int, target: RunStatus, ended: SessionStatus,
                       usage: Amounts, compaction: bool)
    ensures var (s', o) := CompleteStep(s, run, worker, token, now, target, ended, usage, compaction);
      || (s' == s && !o.Released? && !o.Claimed? && !o.DelegationMade?)
      || (&& Terminal(target) && run in s.runs && run in s.sessions && !Terminal(s.runs[run].status)
          && (ActiveChild(s, run) ==>
                SettlementPasses(s.ledgers, run, s.delegations[run], Charge(usage, s.delegations[run].grant)))
          && s' == Completion(s, run, target, ended, usage, compaction)
          && o == Released(ReleasedByCompletion(s, run, target, ended, usage, compaction)))
  {
    hide Completion, ReleasedByCompletion, SettlementPasses, Charge, HoldsLease, Terminal, ActiveChild;
  }

  lemma CompleteKeeps(s: State, run: Id, worker: string, token: Id, now: int, target: RunStatus, ended: SessionStatus,
                      usage: Amounts, compaction: bool)
    requires Inv(s)
    ensures Inv(CompleteStep(s, run, worker, token, now, target, ended, usage, compaction).0)
  {
    hide *;
    CompletePasses(s, run, worker, token, now, target, ended, usage, compaction);
    if CompleteStep(s, run, worker, token, now, target, ended, usage, compaction).0 != s {
      CompletionKeeps(s, run, target, ended, usage, compaction);
    }
  }

  /** What a completion that goes through writes to runs, delegations and relations. */
  ghost predicate CompleteWrote(s: State, s': State, o: Outcome, run: Id, target: RunStatus) {
    && run in s.runs && run in s.sessions && !Terminal(s.runs[run].status) && Terminal(target)
    && s'.relations == s.relations
    && s'.delegations == (if ActiveChild(s, run) then s.delegations[run := EndDelegation(s.delegations[run], target)] else s.delegations)
    && s'.runs.Keys == s.runs.Keys && o.Released? && run in o.runs && o.runs <= s.runs.Keys
    && s'.runs[run] == Advanced(s.runs[run], target)
    && forall r :: r in s.runs && r != run ==>
         if r in o.runs then s.runs[r].status == WaitingForSubagent && s'.runs[r] == WakeRun(s.runs[r])
         else s'.runs[r] == s.runs[r]
  }

  lemma ReleasedIs(s: State, run: Id, target: RunStatus, ended: SessionStatus, usage: Amounts, compaction: bool)
    requires run in s.runs && run in s.sessions
    ensures var finished := EndRun(s, run, target, ended, compaction);
      && (!ActiveChild(s, run) ==> ReleasedByCompletion(s, run, target, ended, usage, compaction) == {run})
      && (ActiveChild(s, run) ==>
            && run in s.delegations && finished.delegations == s.delegations
            && var d := s.delegations[run];
               var settled := Settle(finished, run, target, Charge(usage, d.grant));
               ReleasedByCompletion(s, run, target, ended, usage, compaction)
                 == {run} + if WaitsForNone(settled, d.parent) then {d.parent} else {})
  {
    EndRunColumns(s, run, target, ended, compaction);
    hide EndRun, Settle, Charge, WaitsForNone;
  }

  lemma CompletionWrites(s: State, run: Id, target: RunStatus, ended: SessionStatus, usage: Amounts, compaction: bool)
    requires Rows(s) && run in s.runs && run in s.sessions && !Terminal(s.runs[run].status) && Terminal(target)
    ensures CompleteWrote(s, Completion(s, run, target, ended, usage, compaction),
                          Released(ReleasedByCompletion(s, run, target, ended, usage, compaction)), run, target)
  {
    hide *;
    var finished, s' := EndRun(s, run, target, ended, compaction), Completion(s, run, target, ended, usage, compaction);
    var released := ReleasedByCompletion(s, run, target, ended, usage, compaction);
    EndRunColumns(s, run, target, ended, compaction);
    CompletionIs(s, run, target, ended, usage, compaction);
    ReleasedIs(s, run, target, ended, usage, compaction);
    SameKeys(s.runs, run, Advanced(s.runs[run], target));
    if ActiveChild(s, run) {
      ActiveChildRow(s, run);
      var d := s.delegations[run];
      var settled := Settle(finished, run, target, Charge(usage, d.grant));
      SettleTables(finished, run, target, Charge(usage, d.grant));
      WakeParentColumns(settled, d.parent);
      if WaitsForNone(settled, d.parent) {
        WaitsMeans(settled, d.parent);
        SameKeys(settled.runs, d.parent, WakeRun(settled.runs[d.parent]));
      }
    }
    WroteIs(s, s', released, run, target);
  }

  lemma WaitsMeans(s: State, p: Id)
    requires WaitsForNone(s, p)
    ensures p in s.runs && s.runs[p].status == WaitingForSubagent
  {
    hide ActiveChildrenOf;
  }

  lemma WroteIs(s: State, s': State, released: set<Id>, run: Id, target: RunStatus)
    requires run in s.runs && run in s.sessions && !Terminal(s.runs[run].status) && Terminal(target)
    requires s'.relations == s.relations && s'.runs.Keys == s.runs.Keys && run in released && released <= s.runs.Keys
    requires ActiveChild(s, run) ==> run in s.delegations
    requires s'.delegations
          == if ActiveChild(s, run) then s.delegations[run := EndDelegation(s.delegations[run], target)] else s.delegations
    requires s'.runs[run] == Advanced(s.runs[run], target)
    requires forall r :: r in s.runs && r != run ==>
      if r in released then s.runs[r].status == WaitingForSubagent && s'.runs[r] == WakeRun(s.runs[r])
      else s'.runs[r] == s.runs[r]
    ensures CompleteWrote(s, s', Released(released), run, target)
  {
    hide Terminal, ActiveChild, EndDelegation, Advanced, WakeRun;
  }

  /** A completion either changes nothing or ends its run and possibly wakes the parent. */
  lemma CompleteOutcome(s: State, run: Id, worker: string, token: Id, now: int, target: RunStatus, ended: SessionStatus,
                        usage: Amounts, compaction: bool)
    requires Rows(s)
    ensures var (s', o) := CompleteStep(s, run, worker, token, now, target, ended, usage, compaction);
      (s' == s && !o.Released? && !o.Claimed? && !o.DelegationMade?) || CompleteWrote(s, s', o, run, target)
  {
    hide *;
    CompletePasses(s, run, worker, token, now, target, ended, usage, compaction);
    if run in s.runs && run in s.sessions && !Terminal(s.runs[run].status) && Terminal(target) {
      CompletionWrites(s, run, target, ended, usage, compaction);
    }
  }

  lemma WroteEvolves(s: State, s': State, o: Outcome, run: Id, target: RunStatus)
    requires Leased(s) && CompleteWrote(s, s', o, run, target)
    ensures RunsEvolve(s.runs, s'.runs)
  {
    forall r | r in s.runs ensures RunMay(s.runs[r], s'.runs[r]) { RunStays(s, r); }
    hide RunMay, Leased, Advanced, WakeRun, EndDelegation, Terminal;
  }

  lemma CompleteEvolves(s: State, run: Id, worker: string, token: Id, now: int, target: RunStatus, ended: SessionStatus,
                        usage: Amounts, compaction: bool)
    requires Rows(s) && Leased(s)
    ensures RunsEvolve(s.runs, CompleteStep(s, run, worker, token, now, target, ended, usage, compaction).0.runs)
  {
    hide *;
    var (s', o) := CompleteStep(s, run, worker, token, now, target, ended, usage, compaction);
    CompleteOutcome(s, run, worker, token, now, target, ended, usage, compaction);
    RunsStay(s);
    if CompleteWrote(s, s', o, run, target) { WroteEvolves(s, s', o, run, target); }
  }

  /** Delegations only end, and ended ones stay. */
  lemma CompleteEnds(s: State, run: Id, worker: string, token: Id, now: int, target: RunStatus, ended: SessionStatus,
                     usage: Amounts, compaction: bool)
    requires Rows(s)
    ensures var s' := CompleteStep(s, run, worker, token, now, target, ended, usage, compaction).0;
      && s'.relations == s.relations && SameDefinitions(s.delegations, s'.delegations)
      && (forall c :: c in s.delegations && Active(s'.delegations[c].status) ==> Active(s.delegations[c].status))
      && (forall c :: c in s.delegations && !Active(s.delegations[c].status) ==> s'.delegations[c] == s.delegations[c])
  {
    hide *;
    var (s', o) := CompleteStep(s, run, worker, token, now, target, ended, usage, compaction);
    CompleteOutcome(s, run, worker, token, now, target, ended, usage, compaction);
    SameIsSame(s.delegations);
    if CompleteWrote(s, s', o, run, target) { WroteEnds(s, s', o, run, target); }
  }

  lemma SameIsSame(ds: Delegations)
    ensures SameDefinitions(ds, ds)
  {}

  lemma WroteEnds(s: State, s': State, o: Outcome, run: Id, target: RunStatus)
    requires CompleteWrote(s, s', o, run, target)
    ensures s'.relations == s.relations && SameDefinitions(s.delegations, s'.delegations)
    ensures forall c :: c in s.delegations && Active(s'.delegations[c].status) ==> Active(s.delegations[c].status)
    ensures forall c :: c in s.delegations && !Active(s.delegations[c].status) ==> s'.delegations[c] == s.delegations[c]
  {
    if ActiveChild(s, run) { SettledDefinitions(s.delegations, run, target); } else { SameIsSame(s.delegations); }
    hide SameDefinitions, EndDelegation, Advanced, WakeRun, Active, Terminal;
  }
}
