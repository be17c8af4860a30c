/** What a finished child means for its parent, after any history: when its settlement goes through,
    what the ledgers then say, and that nobody waits for it in vain. */
module CoordinationCompletion {
  import opened Foundation
  import opened MapSums
  import opened RunStates
  import opened Coordination
  import opened CoordinationInvariants
  import opened CoordinationCancel
  import opened CoordinationSettlement
  import opened CoordinationTheorems

  // ----- consumption -----

  /** In every reachable state what a ledger calls consumed by children is what its children were
      charged when they finished; nobody was charged more than its grant, and nobody unfinished was
      charged at all. */
  lemma ConsumptionRecount(history: seq<Command>, p: Id, c: Id, r: Resource)
    requires p in After(history).ledgers
    ensures var s := After(history);
      && Of(s.ledgers[p].childConsumed, r) == Sum(Charges(s.ledgers, s.delegations, p, r))
      && (c in s.delegations ==> c in s.ledgers && Of(s.ledgers[c].direct, r) <= Of(s.delegations[c].grant, r))
      && (ActiveChild(s, c) ==> s.ledgers[c].direct == NOTHING)
  {
    hide *;
    Reachable(history);
    var s := After(history);
    InvParts(s);
    InvConjuncts(s);
    AccountAt(s.ledgers, s.delegations, p);
    if c in s.delegations {
      LedgerOfChild(s, c);
      ExactAt(s, c);
      ChargeWithin(s.ledgers[c], r);
    }
    if ActiveChild(s, c) {
      ActiveChildRow(s, c);
      Uncharged(s.ledgers, s.delegations, c);
    }
  }

  lemma LedgerOfChild(s: State, c: Id)
    requires Rows(s) && c in s.delegations
    ensures c in s.ledgers && s.ledgers[c].limit == s.delegations[c].grant
  {
    assert DelegationRow(s, c);
    hide Rows;
  }

  lemma ExactAt(s: State, p: Id)
    requires Recounted(s) && p in s.ledgers
    ensures LedgerExact(s.ledgers[p], s.delegations, p) && WithinLimits(s.ledgers[p])
  {
    hide WithinLimits, Sum, Grants, ChildrenOf;
  }

  lemma ChargeWithin(l: Ledger, r: Resource)
    requires WithinLimits(l)
    ensures Of(l.direct, r) <= Of(l.limit, r)
  {
    match r case Tokens => case Cost => case ToolCalls =>
  }

  // ----- when a settlement goes through -----

  /** The child's own ledger has room for the charge: its usage, up to its grant, beside what its own
      children hold and have consumed. */
  ghost predicate ChargeFits(s: State, run: Id, usage: Amounts, r: Resource)
    requires run in s.delegations && run in s.ledgers
  {
    var l, d := s.ledgers[run], s.delegations[run];
    Smaller(Of(usage, r), Of(d.grant, r)) + Of(l.childConsumed, r) + Of(l.reserved, r) <= Of(d.grant, r)
  }

  lemma ChargeOf(usage: Amounts, grant: Amounts, r: Resource)
    ensures Of(Charge(usage, grant), r) == Smaller(Of(usage, r), Of(grant, r)) <= Of(grant, r)
  {}

  /** The parent's row always passes: it reserves at least the grant, and the charge is at most that. */
  lemma ParentRowPasses(l: Ledger, grant: Amounts, charge: Amounts)
    requires WithinLimits(l)
    requires forall r: Resource :: Of(grant, r) <= Of(l.reserved, r) && Of(charge, r) <= Of(grant, r)
    ensures Covers(l.reserved, grant) && WithinLimits(SettledRow(l, grant, charge))
  {
    assert Of(grant, Tokens) <= Of(l.reserved, Tokens) && Of(charge, Tokens) <= Of(grant, Tokens);
    assert Of(grant, Cost) <= Of(l.reserved, Cost) && Of(charge, Cost) <= Of(grant, Cost);
    assert Of(grant, ToolCalls) <= Of(l.reserved, ToolCalls) && Of(charge, ToolCalls) <= Of(grant, ToolCalls);
  }

  lemma ChildRowPasses(l: Ledger, charge: Amounts)
    ensures WithinLimits(ChargedRow(l, charge)) <==>
      forall r: Resource :: Of(charge, r) + Of(l.childConsumed, r) + Of(l.reserved, r) <= Of(l.limit, r)
  {
    if forall r: Resource :: Of(charge, r) + Of(l.childConsumed, r) + Of(l.reserved, r) <= Of(l.limit, r) {
      assert Of(charge, Tokens) + Of(l.childConsumed, Tokens) + Of(l.reserved, Tokens) <= Of(l.limit, Tokens);
      assert Of(charge, Cost) + Of(l.childConsumed, Cost) + Of(l.reserved, Cost) <= Of(l.limit, Cost);
      assert Of(charge, ToolCalls) + Of(l.childConsumed, ToolCalls) + Of(l.reserved, ToolCalls) <= Of(l.limit, ToolCalls);
    }
  }

  lemma GrantIsReserved(s: State, run: Id, r: Resource)
    requires Rows(s) && Recounted(s) && ActiveChild(s, run)
    ensures var p := s.delegations[run].parent; p in s.ledgers && Of(s.delegations[run].grant, r) <= Of(s.ledgers[p].reserved, r)
  {
    hide *;
    ActiveChildRow(s, run);
    var p := s.delegations[run].parent;
    ExactAt(s, p);
    ReleaseIsExact(s.ledgers[p], s.delegations, {run}, p, r);
    OneGrantReleased(s.delegations, {run}, run, r);
  }

  lemma PassesExactly(s: State, run: Id, usage: Amounts)
    requires Inv(s) && ActiveChild(s, run)
    ensures run in s.ledgers
    ensures SettlementPasses(s.ledgers, run, s.delegations[run], Charge(usage, s.delegations[run].grant))
       <==> forall r: Resource :: ChargeFits(s, run, usage, r)
  {
    hide *;
    InvParts(s);
    ActiveChildRow(s, run);
    var d, charge := s.delegations[run], Charge(usage, s.delegations[run].grant);
    ExactAt(s, d.parent);
    forall r: Resource
      ensures Of(d.grant, r) <= Of(s.ledgers[d.parent].reserved, r) && Of(charge, r) <= Of(d.grant, r)
      ensures ChargeFits(s, run, usage, r) <==>
        Of(charge, r) + Of(s.ledgers[run].childConsumed, r) + Of(s.ledgers[run].reserved, r) <= Of(s.ledgers[run].limit, r)
    {
      GrantIsReserved(s, run, r);
      ChargeOf(usage, d.grant, r);
      FitsMeans(s, run, usage, r);
    }
    ParentRowPasses(s.ledgers[d.parent], d.grant, charge);
    ChildRowPasses(s.ledgers[run], charge);
    SettledColumns(s.ledgers, run, d, charge);
    PassesIs(s.ledgers, run, d, charge);
  }

  lemma FitsMeans(s: State, run: Id, usage: Amounts, r: Resource)
    requires run in s.delegations && run in s.ledgers
    ensures ChargeFits(s, run, usage, r) <==>
      Smaller(Of(usage, r), Of(s.delegations[run].grant, r)) + Of(s.ledgers[run].childConsumed, r) + Of(s.ledgers[run].reserved, r)
        <= Of(s.delegations[run].grant, r)
  {
    hide Of, Smaller;
  }

  lemma PassesIs(ledgers: map<Id, Ledger>, run: Id, d: Delegation, charge: Amounts)
    requires run in ledgers && d.parent in ledgers && d.parent != run
    requires SettledLedgers(ledgers, run, d, charge).Keys == ledgers.Keys
    ensures SettlementPasses(ledgers, run, d, charge) <==>
      && WithinLimits(SettledLedgers(ledgers, run, d, charge)[run])
      && WithinLimits(SettledLedgers(ledgers, run, d, charge)[d.parent])
      && Covers(ledgers[d.parent].reserved, d.grant)
  {
    hide SettledLedgers, WithinLimits, Covers;
  }

  /** The worker that may end the run: it holds the run's lease, and the lease has not run out. */
  predicate MayEnd(s: State, run: Id, worker: string, token: Id, now: int) {
    && run in s.runs && HoldsLease(s.runs[run], worker, token) && s.runs[run].lease.value.expires > now
    && !Terminal(s.runs[run].status) && run in s.sessions
  }

  /** After any history the holder of a live lease ends its run if and only if the run is nobody's
      unfinished child, or its charge fits the child's own ledger in every resource. The CHECK
      constraints of the parent's row never refuse. */
  lemma CompletesExactly(history: seq<Command>, run: Id, worker: string, token: Id, now: int, target: RunStatus,
                         ended: SessionStatus, usage: Amounts, compaction: bool)
    requires MayEnd(After(history), run, worker, token, now) && Terminal(target)
    ensures var s := After(history);
      Step(s, Complete(run, worker, token, now, target, ended, usage, compaction)).1.Released? <==>
        (ActiveChild(s, run) ==> run in s.ledgers && forall r: Resource :: ChargeFits(s, run, usage, r))
  {
    hide *;
    Reachable(history);
    var s := After(history);
    StepIsComplete(s, Complete(run, worker, token, now, target, ended, usage, compaction));
    EndsUnlessRefused(s, run, worker, token, now, target, ended, usage, compaction);
    if ActiveChild(s, run) { PassesExactly(s, run, usage); }
  }

  lemma EndsUnlessRefused(s: State, run: Id, worker: string, token: Id, now: int, target: RunStatus, ended: SessionStatus,
                          usage: Amounts, compaction: bool)
    requires MayEnd(s, run, worker, token, now) && Terminal(target)
    ensures CompleteStep(s, run, worker, token, now, target, ended, usage, compaction).1.Released? <==>
      (ActiveChild(s, run) ==>
         SettlementPasses(s.ledgers, run, s.delegations[run], Charge(usage, s.delegations[run].grant)))
  {
    hide Completion, ReleasedByCompletion, SettlementPasses, Charge, HoldsLease, Terminal;
  }

  /** Which ledger columns a settlement moves: in the parent's row the grant leaves the reservation and
      the charge is added to the consumption, in the child's row the charge is entered. */
  ghost predicate SettledInto(s: State, s': State, run: Id, charge: Amounts, x: Id, r: Resource)
    requires run in s.delegations && x in s.ledgers
  {
    && x in s'.ledgers
    && var l, l', d := s.ledgers[x], s'.ledgers[x], s.delegations[run];
       && l'.limit == l.limit && l'.childCount == l.childCount
       && (x == d.parent ==>
             && Of(l'.reserved, r) == Of(l.reserved, r) - Of(d.grant, r)
             && Of(l'.childConsumed, r) == Of(l.childConsumed, r) + Of(charge, r) && l'.direct == l.direct)
       && (x == run ==> l'.direct == charge && l'.reserved == l.reserved && l'.childConsumed == l.childConsumed)
       && (x != run && x != d.parent ==> l' == l)
  }

  lemma SettledIntoRows(s: State, s': State, run: Id, charge: Amounts, x: Id, r: Resource)
    requires Rows(s) && ActiveChild(s, run) && x in s.ledgers
    requires s'.ledgers == SettledLedgers(s.ledgers, run, s.delegations[run], charge)
    requires SettlementPasses(s.ledgers, run, s.delegations[run], charge)
    ensures run in s.delegations && SettledInto(s, s', run, charge, x, r)
  {
    hide Rows, SettledLedgers, SettlementPasses, ActiveChild, WithinLimits, Of, Covers, SettledRow, ChargedRow;
    ActiveChildRow(s, run);
    var d := s.delegations[run];
    SettledColumns(s.ledgers, run, d, charge);
    PassesMeans(s.ledgers, run, d, charge);
    if x == d.parent {
      SettledReserve(s.ledgers[x], d.grant, charge, r);
    } else {
      ChargedReserve(s.ledgers[x], charge);
    }
  }

  /** A child's completion settles its grant in its parent's ledger and touches no other ledger but
      its own. */
  lemma CompletionSettles(history: seq<Command>, run: Id, worker: string, token: Id, now: int, target: RunStatus,
                          ended: SessionStatus, usage: Amounts, compaction: bool, x: Id, r: Resource)
    requires ActiveChild(After(history), run) && x in After(history).ledgers
    requires var c := Complete(run, worker, token, now, target, ended, usage, compaction); Step(After(history), c).1.Released?
    ensures var s := After(history);
      var s' := Step(s, Complete(run, worker, token, now, target, ended, usage, compaction)).0;
      SettledInto(s, s', run, Charge(usage, s.delegations[run].grant), x, r)
  {
    hide *;
    Reachable(history);
    var s, c := After(history), Complete(run, worker, token, now, target, ended, usage, compaction);
    InvParts(s);
    ActiveChildRow(s, run);
    StepIsComplete(s, c);
    CompletePasses(s, run, worker, token, now, target, ended, usage, compaction);
    CompletionIs(s, run, target, ended, usage, compaction);
    var finished, charge := EndRun(s, run, target, ended, compaction), Charge(usage, s.delegations[run].grant);
    SettleTables(finished, run, target, charge);
    WakeParentColumns(Settle(finished, run, target, charge), s.delegations[run].parent);
    SettledIntoRows(s, Step(s, c).0, run, charge, x, r);
  }

  // ----- the parent -----

  /** Nothing else keeps the parent of `run` waiting. */
  predicate LastChild(s: State, run: Id)
    requires run in s.delegations
  {
    var p := s.delegations[run].parent;
    && p in s.runs && s.runs[p].status == WaitingForSubagent
    && forall c :: c in s.delegations && s.delegations[c].parent == p && c != run ==> !Active(s.delegations[c].status)
  }

  /** A child that finishes ends its delegation, and in the same transaction its parent goes on, running,
      unleased and at once claimable, exactly when it waits and no other delegation of it is active;
      otherwise the parent's run is untouched. */
  lemma FinishWakesParent(history: seq<Command>, run: Id, worker: string, token: Id, now: int, target: RunStatus,
                          ended: SessionStatus, usage: Amounts, compaction: bool, later: int)
    requires ActiveChild(After(history), run)
    requires var c := Complete(run, worker, token, now, target, ended, usage, compaction); Step(After(history), c).1.Released?
    ensures var s := After(history);
      var s' := Step(s, Complete(run, worker, token, now, target, ended, usage, compaction)).0;
      var p := s.delegations[run].parent;
      && run in s'.delegations && !Active(s'.delegations[run].status) && p in s.runs && p in s'.runs
      && (LastChild(s, run) ==> s'.runs[p].status == Running && s'.runs[p].lease == None && Free(s', later, {}, p))
      && (!LastChild(s, run) ==> s'.runs[p] == s.runs[p])
  {
    hide *;
    Reachable(history);
    var s, c := After(history), Complete(run, worker, token, now, target, ended, usage, compaction);
    InvParts(s);
    ActiveChildRow(s, run);
    StepIsComplete(s, c);
    CompletePasses(s, run, worker, token, now, target, ended, usage, compaction);
    ReleasedByLast(s, run, target, ended, usage, compaction);
    CompletionWrites(s, run, target, ended, usage, compaction);
    StepKeeps(s, c);
    ReleasedRunsAre(Step(s, c).1);
    ParentAfter(s, Step(s, c).0, Step(s, c).1, run, target, later);
  }

  lemma ReleasedByLast(s: State, run: Id, target: RunStatus, ended: SessionStatus, usage: Amounts, compaction: bool)
    requires Rows(s) && ActiveChild(s, run) && run in s.runs && run in s.sessions && Terminal(target)
    ensures run in s.delegations
    ensures var p := s.delegations[run].parent;
      p != run && (p in ReleasedByCompletion(s, run, target, ended, usage, compaction) <==> LastChild(s, run))
  {
    hide *;
    ActiveChildRow(s, run);
    var d := s.delegations[run];
    ReleasedIs(s, run, target, ended, usage, compaction);
    var finished := EndRun(s, run, target, ended, compaction);
    var settled := Settle(finished, run, target, Charge(usage, d.grant));
    EndRunColumns(s, run, target, ended, compaction);
    SettleTables(finished, run, target, Charge(usage, d.grant));
    SettledDefinitions(s.delegations, run, target);
    LastMeans(s, settled, run, Advanced(s.runs[run], target));
  }

  lemma LastMeans(s: State, settled: State, run: Id, row: Run)
    requires run in s.delegations && s.delegations[run].parent != run && settled.runs == s.runs[run := row]
    requires SameDefinitions(s.delegations, settled.delegations)
    requires forall c :: c in s.delegations ==>
      (Active(settled.delegations[c].status) <==> Active(s.delegations[c].status) && c != run)
    ensures WaitsForNone(settled, s.delegations[run].parent) <==> LastChild(s, run)
  {
    var p := s.delegations[run].parent;
    SameRows(s.delegations, settled.delegations);
    assert forall c :: c in s.delegations ==> settled.delegations[c].parent == s.delegations[c].parent;
    hide SameDefinitions, Active;
    assert forall c :: c in ActiveChildrenOf(settled.delegations, p) <==>
      c in s.delegations && s.delegations[c].parent == p && Active(s.delegations[c].status) && c != run;
  }

  lemma ParentAfter(s: State, s': State, o: Outcome, run: Id, target: RunStatus, now: int)
    requires CompleteWrote(s, s', o, run, target) && Inv(s') && ActiveChild(s, run) && run in s.delegations
    requires s.delegations[run].parent != run && s.delegations[run].parent in s.runs
    requires s.delegations[run].parent in ReleasedRuns(o) <==> LastChild(s, run)
    ensures var p := s.delegations[run].parent;
      && run in s'.delegations && !Active(s'.delegations[run].status) && p in s'.runs
      && (LastChild(s, run) ==> s'.runs[p].status == Running && s'.runs[p].lease == None && Free(s', now, {}, p))
      && (!LastChild(s, run) ==> s'.runs[p] == s.runs[p])
  {
    hide *;
    var p := s.delegations[run].parent;
    WroteAt(s, s', o, run, target, p);
    WokenRun(s.runs[p]);
    InvParts(s');
    if LastChild(s, run) { RunningIsFree(s', p, now); }
  }

  function ReleasedRuns(o: Outcome): (ids: set<Id>) { if o.Released? then o.runs else {} }

  lemma ReleasedRunsAre(o: Outcome)
    ensures o.Released? ==> ReleasedRuns(o) == o.runs
  {}

  lemma WroteAt(s: State, s': State, o: Outcome, run: Id, target: RunStatus, p: Id)
    requires CompleteWrote(s, s', o, run, target) && ActiveChild(s, run) && p in s.runs && p != run
    ensures run in s'.delegations && !Active(s'.delegations[run].status) && p in s'.runs
    ensures s'.runs[p] == if p in ReleasedRuns(o) then WakeRun(s.runs[p]) else s.runs[p]
  {
    hide Advanced, WakeRun, Terminal;
  }

  lemma WokenRun(run: Run)
    ensures WakeRun(run).status == Running && WakeRun(run).lease == None
  {}

  lemma RunningIsFree(s: State, p: Id, now: int)
    requires Rows(s) && p in s.runs && s.runs[p].status == Running && s.runs[p].lease == None
    ensures Free(s, now, {}, p)
  {
    hide DelegationRows, RelationRows;
  }
}
