/** Who may act on a run: lease fencing over whole histories, the claim queue, and the waiter
    reconciler that neither wakes early nor forgets. */
module CoordinationLeases {
  import opened Foundation
  import opened RunStates
  import opened Forest
  import opened CoordinationPolicy
  import opened Coordination
  import opened CoordinationInvariants
  import opened CoordinationCancel
  import opened CoordinationSettlement
  import opened CoordinationTheorems
  import opened CoordinationHistories

  // ----- fencing -----

  /** The step answered with `o` gave `r`'s lease to somebody, or took it away. */
  predicate Drops(o: Outcome, r: Id) {
    (o.Claimed? && o.run == r) || (o.Released? && r in o.runs)
  }

  /** What one step may do to one run's lease. */
  ghost predicate LeaseFollows(before: State, after: State, o: Outcome, r: Id) {
    && (r in before.runs ==> r in after.runs)
    && (r in before.runs && !Drops(o, r) ==> after.runs[r].lease == before.runs[r].lease)
    && (r in after.runs && r !in before.runs ==> after.runs[r].lease.None?)
    && (r in after.runs && o.Released? && r in o.runs ==> after.runs[r].lease.None?)
    && (r in after.runs && o.Claimed? && o.run == r ==> HoldsLease(after.runs[r], o.worker, o.token))
  }

  lemma DelegateLeases(s: State, cat: Catalog, q: Request, r: Id)
    requires Rows(s)
    ensures LeaseFollows(s, DelegateStep(s, cat, q).0, DelegateStep(s, cat, q).1, r)
  {
    DelegateOutcome(s, cat, q);
    assert ChildRun(q).lease.None?;
    hide Rows, DelegateStep, HoldsLease, ChildRun, Delegatable, Active, LeaseFollows;
    var (s', o) := DelegateStep(s, cat, q);
    if o.DelegationMade? {
      NewRunLeases(s, s', o, q.childRun, r);
    } else {
      UntouchedLeases(s, s', o, r);
    }
  }

  lemma CancelLeases(s: State, root: Id, expectedRevision: nat, r: Id)
    ensures LeaseFollows(s, CancelStep(s, root, expectedRevision).0, CancelStep(s, root, expectedRevision).1, r)
  {
    CancelTables(s, root);
    hide TreeCancel, TreeIds, CancelDelegations, ReleaseLedgers, CancelSessions, CancelTasks;
  }

  lemma ReconcileLeases(s: State, locked: set<Id>, r: Id)
    ensures LeaseFollows(s, Reconciled(s, locked), Released(ReadyIds(s, locked)), r)
  {
    hide ReadyIds;
  }

  lemma ClaimLeases(s: State, worker: string, seconds: int, now: int, locked: set<Id>, token: Id, r: Id)
    ensures LeaseFollows(s, ClaimStep(s, worker, seconds, now, locked, token).0,
                         ClaimStep(s, worker, seconds, now, locked, token).1, r)
  {
    var next := NextRun(s, now, locked);
    assert next.Some? ==> next.value in s.runs;
    hide Before, NextRun, IsNext, Free, ValidClaim;
  }

  lemma LeaseStep(s: State, c: Command, r: Id)
    requires Rows(s)
    ensures LeaseFollows(s, Step(s, c).0, Step(s, c).1, r)
  {
    hide LeaseFollows, DelegateStep, CancelStep, Reconciled, ReadyIds, ClaimStep, SuspendStep, AdvanceStep, CompleteStep, Rows;
    match c {
      case Delegate(request, catalog) => DelegateLeases(s, catalog, request, r);
      case CancelTree(root, expectedRevision) => CancelLeases(s, root, expectedRevision, r);
      case Reconcile(locked) => ReconcileLeases(s, locked, r);
      case Claim(worker, seconds, now, locked, token) => ClaimLeases(s, worker, seconds, now, locked, token, r);
      case Suspend(run, worker, token, now) => SuspendLeases(s, run, worker, token, now, r);
      case Advance(run, target, expectedRevision) => AdvanceLeases(s, run, target, expectedRevision, r);
      case Complete(run, worker, token, now, target, ended, usage, compaction) =>
        CompleteLeases(s, run, worker, token, now, target, ended, usage, compaction, r);
      case _ => OtherLeases(s, c, r);
    }
  }

  lemma CompleteLeases(s: State, run: Id, worker: string, token: Id, now: int, target: RunStatus, ended: SessionStatus,
                       usage: Amounts, compaction: bool, r: Id)
    requires Rows(s)
    ensures var (s', o) := CompleteStep(s, run, worker, token, now, target, ended, usage, compaction); LeaseFollows(s, s', o, r)
  {
    hide *;
    var (s', o) := CompleteStep(s, run, worker, token, now, target, ended, usage, compaction);
    CompleteOutcome(s, run, worker, token, now, target, ended, usage, compaction);
    if CompleteWrote(s, s', o, run, target) { WroteLeases(s, s', o, run, target, r); } else { UntouchedLeases(s, s', o, r); }
  }

  lemma WroteLeases(s: State, s': State, o: Outcome, run: Id, target: RunStatus, r: Id)
    requires CompleteWrote(s, s', o, run, target)
    ensures LeaseFollows(s, s', o, r)
  {
    hide HoldsLease, EndDelegation, ActiveChild;
  }

  lemma OneRunLeases(s: State, s': State, o: Outcome, run: Id, r: Id)
    requires run in s.runs && run in s'.runs && s'.runs == s.runs[run := s'.runs[run]] && !o.Claimed?
    requires (o == Released({run}) && s'.runs[run].lease.None?)
          || (!o.Released? && s'.runs[run].lease == s.runs[run].lease)
    ensures LeaseFollows(s, s', o, r)
  {
    hide HoldsLease;
  }

  lemma SuspendLeases(s: State, run: Id, worker: string, token: Id, now: int, r: Id)
    ensures var (s', o) := SuspendStep(s, run, worker, token, now); LeaseFollows(s, s', o, r)
  {
    hide HoldsLease, LeaseFollows;
    var (s', o) := SuspendStep(s, run, worker, token, now);
    if s' != s {
      OneRunLeases(s, s', o, run, r);
    } else {
      UntouchedLeases(s, s', o, r);
    }
  }

  lemma AdvanceLeases(s: State, run: Id, target: RunStatus, expectedRevision: nat, r: Id)
    ensures var (s', o) := AdvanceStep(s, run, target, expectedRevision); LeaseFollows(s, s', o, r)
  {
    hide RunTargets, Terminal, LeaseFollows, CallsEnding, CancelCalls, CancelSteps, StepsOf, AdvancedTasks, AdvancedSessions;
    var (s', o) := AdvanceStep(s, run, target, expectedRevision);
    if o.Done? || o.Released? {
      OneRunLeases(s, s', o, run, r);
    } else {
      UntouchedLeases(s, s', o, r);
    }
  }

  lemma OtherLeases(s: State, c: Command, r: Id)
    requires Plain(c) && !c.Reconcile? && !c.Claim? && !c.Suspend? && !c.Advance?
    ensures LeaseFollows(s, Step(s, c).0, Step(s, c).1, r)
  {
    hide *;
    var run := OtherRuns(s, c);
    var (s', o) := Step(s, c);
    if s'.runs == s.runs {
      UntouchedLeases(s, s', o, r);
    } else {
      NewRunLeases(s, s', o, run, r);
    }
  }

  /** The steps that neither delegate, cancel, claim, wake, suspend nor move a run only ever add one. */
  lemma OtherRuns(s: State, c: Command) returns (run: Id)
    requires Plain(c) && !c.Reconcile? && !c.Claim? && !c.Suspend? && !c.Advance?
    ensures !Step(s, c).1.Claimed? && !Step(s, c).1.Released?
    ensures var s' := Step(s, c).0;
      s'.runs == s.runs
      || (run !in s.runs && run in s'.runs && s'.runs == s.runs[run := s'.runs[run]] && s'.runs[run].lease.None?)
  {
    run := if c.CreateRoot? || c.CreateRun? || c.RetryRun? then c.run else Uuid(0);
    if c.CreateTask? || c.MoveTask? || c.CreateRoot? || c.CreateRun? || c.RetryRun? {
      hide *;
      TaskStepAdds(s, c, run);
      AddedRun(s, Step(s, c).0, run);
      TaskStepAnswers(s, c);
    } else {
      hide SessionPolicy, SessionTools;
    }
  }

  lemma AddedRun(s: State, s': State, run: Id)
    requires AddsRun(s, s', run)
    ensures s'.runs == s.runs
         || (run !in s.runs && run in s'.runs && s'.runs == s.runs[run := s'.runs[run]] && s'.runs[run].lease.None?)
  {}

  lemma TaskStepAnswers(s: State, c: Command)
    requires c.CreateTask? || c.MoveTask? || c.CreateRoot? || c.CreateRun? || c.RetryRun?
    ensures !Step(s, c).1.Claimed? && !Step(s, c).1.Released?
  {
    hide WithRun, TaskTargets;
  }

  lemma UntouchedLeases(s: State, s': State, o: Outcome, r: Id)
    requires !o.Claimed? && !o.Released? && s'.runs == s.runs
    ensures LeaseFollows(s, s', o, r)
  {
    hide HoldsLease;
  }

  lemma NewRunLeases(s: State, s': State, o: Outcome, run: Id, r: Id)
    requires !o.Claimed? && !o.Released? && run !in s.runs && run in s'.runs && s'.runs[run].lease.None?
    requires s'.runs == s.runs[run := s'.runs[run]]
    ensures LeaseFollows(s, s', o, r)
  {
    hide HoldsLease;
  }

  /** The i-th command of `history` gave `r` to `worker` under `token`, and nothing after it, up to
      the n-th, took it away again. */
  ghost predicate HeldSince(history: seq<Command>, i: nat, n: nat, r: Id, worker: string, token: Id)
    requires i < n <= |history|
  {
    && Answer(history, i) == Claimed(r, worker, token)
    && forall k: nat {:trigger Answer(history, k)} :: i < k < n ==> !Drops(Answer(history, k), r)
  }

  lemma AnswerOfPrefix(history: seq<Command>, n: nat, i: nat)
    requires i < n <= |history|
    ensures Answer(history[..n], i) == Answer(history, i)
  {
    assert history[..n][..i] == history[..i];
  }

  lemma HeldSinceExtends(history: seq<Command>, i: nat, r: Id, worker: string, token: Id)
    requires |history| > 0 && i < |history| - 1
    requires HeldSince(history[..|history| - 1], i, |history| - 1, r, worker, token)
    requires !Drops(Answer(history, |history| - 1), r)
    ensures HeldSince(history, i, |history|, r, worker, token)
  {
    hide Answer, Drops;
    var n := |history| - 1;
    AnswerOfPrefix(history, n, i);
    forall k: nat | i < k < |history| ensures !Drops(Answer(history, k), r) {
      if k < n { AnswerOfPrefix(history, n, k); }
    }
  }

  /** A lease is always the one handed out by the latest claim of that run. */
  lemma {:induction false} LeaseHasClaim(history: seq<Command>, r: Id)
    requires r in After(history).runs && After(history).runs[r].lease.Some?
    ensures var lease := After(history).runs[r].lease.value;
      exists i: nat :: i < |history| && HeldSince(history, i, |history|, r, lease.owner, lease.token)
    decreases |history|
  {
    if history != [] {
      var n := |history| - 1;
      var s, c := After(history[..n]), history[n];
      Reachable(history[..n]);
      LeaseStep(s, c, r);
      assert Answer(history, n) == Step(s, c).1;
      assert After(history) == Step(s, c).0;
      var lease := After(history).runs[r].lease.value;
      hide Step, Inv, After, Answer;
      if Drops(Answer(history, n), r) {
        assert HeldSince(history, n, |history|, r, lease.owner, lease.token);
      } else {
        LeaseHasClaim(history[..n], r);
        var i: nat :| i < n && HeldSince(history[..n], i, n, r, lease.owner, lease.token);
        hide HeldSince;
        HeldSinceExtends(history, i, r, lease.owner, lease.token);
      }
    }
  }

  lemma MadeUnderLease(s: State, c: Command)
    requires Step(s, c).1.DelegationMade?
    ensures var o := Step(s, c).1; o.parent in s.runs && HoldsLease(s.runs[o.parent], o.worker, o.token)
    ensures var o := Step(s, c).1; Delegatable(s.runs[o.parent].status)
  {
    hide AdmissionUnderPolicy, WithKey, TreeCancel, TreeIds, Reconciled, ReadyIds, SessionPolicy, WithDelegation;
  }

  /** Fencing: an accepted delegation carries the worker and token of the most recent claim of
      that run, with no cancellation, wake, suspension, completion or later claim in between. */
  lemma FencedDelegation(history: seq<Command>, n: nat)
    requires n < |history| && Answer(history, n).DelegationMade?
    ensures var o := Answer(history, n);
      exists i: nat :: i < n && HeldSince(history, i, n, o.parent, o.worker, o.token)
  {
    var s, c := After(history[..n]), history[n];
    var o := Answer(history, n);
    MadeUnderLease(s, c);
    hide After, Step, Answer;
    LeaseHasClaim(history[..n], o.parent);
    var i: nat :| i < n && HeldSince(history[..n], i, n, o.parent, o.worker, o.token);
    forall k: nat | k < n ensures Answer(history[..n], k) == Answer(history, k) { AnswerOfPrefix(history, n, k); }
    assert HeldSince(history, i, n, o.parent, o.worker, o.token);
  }

  /** A stale token never delegates again: once the lease of the i-th claim has been dropped, and
      its token is not handed out a second time, no later delegation is accepted under it. */
  lemma StaleTokenRefused(history: seq<Command>, i: nat, j: nat, n: nat)
    requires i < j < n < |history| && Answer(history, i).Claimed?
    requires Drops(Answer(history, j), Answer(history, i).run)
    requires forall k: nat {:trigger Answer(history, k)} :: k < n && k != i && Answer(history, k).Claimed? ==>
      Answer(history, k).token != Answer(history, i).token
    ensures Answer(history, n).DelegationMade? && Answer(history, n).parent == Answer(history, i).run ==>
      Answer(history, n).token != Answer(history, i).token
  {
    hide Answer;
    if Answer(history, n).DelegationMade? && Answer(history, n).parent == Answer(history, i).run {
      FencedDelegation(history, n);
    }
  }

  // ----- the claim queue -----

  ghost predicate Least(s: State, group: set<Id>, r: Id) {
    r in group && forall q :: q in group && q != r ==> Before(s, r, q)
  }

  lemma {:induction false} LeastExists(s: State, group: set<Id>) returns (r: Id)
    requires group != {}
    ensures Least(s, group, r)
    decreases |group|
  {
    var x :| x in group;
    if group == {x} {
      return x;
    }
    var least := LeastExists(s, group - {x});
    r := if Before(s, x, least) then x else least;
    LeastOfBoth(s, group, x, least);
  }

  lemma LeastOfBoth(s: State, group: set<Id>, x: Id, least: Id)
    requires x in group && Least(s, group - {x}, least)
    ensures Least(s, group, if Before(s, x, least) then x else least)
  {
    forall q | q in group && q != x && q != least
      ensures Before(s, least, q) && (Before(s, x, least) ==> Before(s, x, q))
    {
      assert q in group - {x};
      BeforeOrders(s, x, least, q);
    }
    BeforeOrders(s, x, least, x);
    hide Before;
  }

  /** Any two runs are ordered, and the order is transitive. */
  lemma BeforeOrders(s: State, a: Id, b: Id, c: Id)
    ensures a != b ==> Before(s, a, b) || Before(s, b, a)
    ensures !(Before(s, a, b) && Before(s, b, a))
    ensures Before(s, a, b) && Before(s, b, c) ==> Before(s, a, c)
  {
    hide Priority, CreatedAt;
  }

  /** The claim order is a strict total order, so the next run is unique. */
  lemma NextIsUnique(s: State, now: int, locked: set<Id>, a: Id, b: Id)
    requires IsNext(s, now, locked, a) && IsNext(s, now, locked, b)
    ensures a == b
  {
    BeforeOrders(s, a, b, a);
    hide Free, Before;
  }

  /** A valid claim always takes a run when one is free: it is the first free run by priority
      (highest first), creation time and id; its old lease was absent or expired; nothing but its
      lease changes. With no free run, nothing happens. */
  lemma ClaimTakesLeast(s: State, worker: string, seconds: int, now: int, locked: set<Id>, token: Id)
    requires ValidClaim(worker, seconds)
    ensures var (s', o) := Step(s, Claim(worker, seconds, now, locked, token));
      && (FreeRuns(s, now, locked) == {} ==> s' == s && o == Done)
      && (FreeRuns(s, now, locked) != {} ==>
            && o.Claimed? && o.worker == worker && o.token == token
            && o.run in s.runs && o.run !in locked && Claimable(s.runs[o.run].status)
            && (s.runs[o.run].lease.Some? ==> s.runs[o.run].lease.value.expires <= now)
            && (forall q :: q in FreeRuns(s, now, locked) && q != o.run ==> Before(s, o.run, q))
            && s' == s.(runs := s.runs[o.run := s.runs[o.run].(lease := Some(Lease(worker, token, now + seconds)))]))
  {
    NextIsLeast(s, now, locked);
    hide Before, Claimable, NextRun, ValidClaim;
  }

  /** The run may be claimed: it is at work or about to be, nobody else holds its row, and its lease is
      absent or has run out. */
  predicate MayClaim(s: State, now: int, locked: set<Id>, r: Id) {
    && r in s.runs && r !in locked && s.runs[r].status in {Pending, Planning, Running, WaitingForTool} && s.runs[r].task in s.tasks
    && (s.runs[r].lease.Some? ==> s.runs[r].lease.value.expires <= now)
  }

  /** `a` comes before `b`: by the priority of its task, then by age, then by id. */
  predicate ComesFirst(s: State, a: Id, b: Id)
    requires a in s.runs && b in s.runs && s.runs[a].task in s.tasks && s.runs[b].task in s.tasks
  {
    var p, q := s.tasks[s.runs[a].task].priority, s.tasks[s.runs[b].task].priority;
    || p > q
    || (p == q && s.runs[a].createdAt < s.runs[b].createdAt)
    || (p == q && s.runs[a].createdAt == s.runs[b].createdAt && a.bits < b.bits)
  }

  /** A claim by a worker with a name of 1 to 200 characters for 5 to 3600 seconds takes the first run
      that may be claimed, leases it to the worker until then, and changes nothing else; without such a
      run, or otherwise, nothing changes. */
  lemma ClaimsExactly(s: State, worker: string, seconds: int, now: int, locked: set<Id>, token: Id)
    ensures var (s', o) := Step(s, Claim(worker, seconds, now, locked, token));
      if !(1 <= |worker| <= 200 && 5 <= seconds <= 3600) then s' == s && o == Invalid
      else if forall r :: !MayClaim(s, now, locked, r) then s' == s && o == Done
      else
        && o.Claimed? && o.worker == worker && o.token == token && MayClaim(s, now, locked, o.run)
        && (forall q :: MayClaim(s, now, locked, q) && q != o.run ==> ComesFirst(s, o.run, q))
        && s' == s.(runs := s.runs[o.run := s.runs[o.run].(lease := Some(Lease(worker, token, now + seconds)))])
  {
    forall r ensures r in FreeRuns(s, now, locked) <==> MayClaim(s, now, locked, r) {}
    if 1 <= |worker| <= 200 && 5 <= seconds <= 3600 {
      ClaimTakesLeast(s, worker, seconds, now, locked, token);
      var free := FreeRuns(s, now, locked);
      if free != {} {
        var r :| r in free;
        assert MayClaim(s, now, locked, r);
        var o := Step(s, Claim(worker, seconds, now, locked, token)).1;
        ClaimedIsFree(s, now, locked, o.run);
        forall q | MayClaim(s, now, locked, q) && q != o.run ensures ComesFirst(s, o.run, q) {
          BeforeMeans(s, o.run, q);
        }
      }
      hide Step, FreeRuns, Before, MayClaim, ComesFirst;
    } else {
      hide NextRun;
    }
  }

  lemma ClaimedIsFree(s: State, now: int, locked: set<Id>, r: Id)
    requires r in s.runs && r !in locked && Claimable(s.runs[r].status) && s.runs[r].task in s.tasks
    requires s.runs[r].lease.Some? ==> s.runs[r].lease.value.expires <= now
    ensures MayClaim(s, now, locked, r)
  {}

  lemma BeforeMeans(s: State, a: Id, b: Id)
    requires a in s.runs && b in s.runs && s.runs[a].task in s.tasks && s.runs[b].task in s.tasks
    ensures Before(s, a, b) <==> ComesFirst(s, a, b)
  {}

  lemma NextIsLeast(s: State, now: int, locked: set<Id>)
    ensures NextRun(s, now, locked).None? <==> FreeRuns(s, now, locked) == {}
    ensures NextRun(s, now, locked).Some? ==>
      var r := NextRun(s, now, locked).value;
      Free(s, now, locked, r) && forall q :: q in FreeRuns(s, now, locked) && q != r ==> Before(s, r, q)
  {
    var free := FreeRuns(s, now, locked);
    assert forall r :: r in free <==> Free(s, now, locked, r);
    hide Before, Free, FreeRuns;
    if free != {} {
      var r := LeastExists(s, free);
      assert IsNext(s, now, locked, r);
    }
  }

  // ----- the reconciler -----

  /** One reconciler pass wakes exactly the unlocked waiting parents that have delegations and none
      active; each woken run is running, unleased and at once claimable; nothing else moves. */
  lemma WakesExactly(history: seq<Command>, locked: set<Id>, r: Id, now: int)
    requires r in After(history).runs
    ensures var s := After(history);
      var (s', o) := Step(s, Reconcile(locked));
      && r in s'.runs
      && (r !in locked && s.runs[r].status == WaitingForSubagent
          && (exists c :: c in s.delegations && s.delegations[c].parent == r)
          && (forall c :: c in s.delegations && s.delegations[c].parent == r ==> !Active(s.delegations[c].status)) ==>
            s'.runs[r].status == Running && s'.runs[r].lease == None && Free(s', now, {}, r) && o.Released? && r in o.runs)
      && (r in locked || s.runs[r].status != WaitingForSubagent
          || (forall c :: c in s.delegations ==> s.delegations[c].parent != r)
          || (exists c :: c in s.delegations && s.delegations[c].parent == r && Active(s.delegations[c].status)) ==>
            s'.runs[r] == s.runs[r])
  {
    Reachable(history);
    var s := After(history);
    assert s.runs[r].task in s.tasks;
    ReadyMeans(s, locked, r);
    WakeRow(s, locked, r, now);
    hide *;
    assert Step(s, Reconcile(locked)) == (Reconciled(s, locked), Released(ReadyIds(s, locked))) by { ReconcileIs(s, locked); }
  }

  lemma ReconcileIs(s: State, locked: set<Id>)
    ensures Step(s, Reconcile(locked)) == (Reconciled(s, locked), Released(ReadyIds(s, locked)))
  {
    hide Reconciled, ReadyIds;
  }

  /** Readiness spelled out over the delegation rows. */
  lemma ReadyMeans(s: State, locked: set<Id>, r: Id)
    requires r in s.runs
    ensures r in ReadyIds(s, locked) <==>
      && r !in locked && s.runs[r].status == WaitingForSubagent
      && (exists c :: c in s.delegations && s.delegations[c].parent == r)
      && (forall c :: c in s.delegations && s.delegations[c].parent == r ==> !Active(s.delegations[c].status))
  {
    assert forall c :: c in ChildrenOf(s.delegations, r) <==> c in s.delegations && s.delegations[c].parent == r;
    assert forall c :: c in ActiveChildrenOf(s.delegations, r) <==>
      c in s.delegations && s.delegations[c].parent == r && Active(s.delegations[c].status);
    hide ChildrenOf, ActiveChildrenOf, Active;
  }

  /** What one reconciler pass does to one run. */
  lemma WakeRow(s: State, locked: set<Id>, r: Id, now: int)
    requires r in s.runs && s.runs[r].task in s.tasks
    ensures var s' := Reconciled(s, locked);
      && r in s'.runs
      && (r in ReadyIds(s, locked) ==>
            s'.runs[r].status == Running && s'.runs[r].lease == None && Free(s', now, {}, r))
      && (r !in ReadyIds(s, locked) ==> s'.runs[r] == s.runs[r])
  {
    hide ReadyIds;
  }

  /** Steps that may end `r`'s wait: a release (wake, cancellation, suspension, completion) or an explicit
      transition of `r`. */
  predicate EndsWait(c: Command, o: Outcome, r: Id) {
    (o.Released? && r in o.runs) || (c.Advance? && c.run == r)
  }

  lemma CancelStillWaits(s: State, root: Id, expectedRevision: nat, r: Id)
    requires r in s.runs && s.runs[r].status == WaitingForSubagent
    requires var o := CancelStep(s, root, expectedRevision).1; !(o.Released? && r in o.runs)
    ensures var s' := CancelStep(s, root, expectedRevision).0; r in s'.runs && s'.runs[r].status == WaitingForSubagent
  {
    CancelTables(s, root);
    hide TreeCancel, TreeIds, CancelDelegations, ReleaseLedgers, CancelSessions, CancelTasks;
  }

  lemma StillWaiting(s: State, c: Command, r: Id)
    requires Rows(s) && r in s.runs && s.runs[r].status == WaitingForSubagent && !EndsWait(c, Step(s, c).1, r)
    ensures r in Step(s, c).0.runs && Step(s, c).0.runs[r].status == WaitingForSubagent
  {
    hide Rows, DelegateStep, CancelStep, Reconciled, ReadyIds, ClaimStep, SuspendStep, AdvanceStep, CompleteStep, EndsWait;
    match c {
      case Delegate(request, catalog) => DelegateStillWaits(s, catalog, request, r);
      case CancelTree(root, revision) =>
        ReleaseEndsWait(c, CancelStep(s, root, revision).1, r);
        CancelStillWaits(s, root, revision, r);
      case Reconcile(locked) =>
        ReleaseEndsWait(c, Released(ReadyIds(s, locked)), r);
        ReconcileStillWaits(s, locked, r);
      case Claim(worker, seconds, now, locked, token) => ClaimStillWaits(s, worker, seconds, now, locked, token, r);
      case Suspend(run, worker, token, now) => SuspendStillWaits(s, run, worker, token, now, r);
      case Advance(run, target, revision) =>
        AdvanceEndsWait(c, AdvanceStep(s, run, target, revision).1, r);
        AdvanceStillWaits(s, run, target, revision, r);
      case Complete(run, worker, token, now, target, ended, usage, compaction) =>
        ReleaseEndsWait(c, CompleteStep(s, run, worker, token, now, target, ended, usage, compaction).1, r);
        CompleteStillWaits(s, run, worker, token, now, target, ended, usage, compaction, r);
      case _ => OtherStillWaits(s, c, r);
    }
  }

  lemma CompleteStillWaits(s: State, run: Id, worker: string, token: Id, now: int, target: RunStatus, ended: SessionStatus,
                           usage: Amounts, compaction: bool, r: Id)
    requires Rows(s) && r in s.runs && s.runs[r].status == WaitingForSubagent
    requires var o := CompleteStep(s, run, worker, token, now, target, ended, usage, compaction).1; !(o.Released? && r in o.runs)
    ensures var s' := CompleteStep(s, run, worker, token, now, target, ended, usage, compaction).0;
      r in s'.runs && s'.runs[r].status == WaitingForSubagent
  {
    hide Rows, CompleteStep, Advanced, WakeRun, EndDelegation, ActiveChild, Terminal;
    CompleteOutcome(s, run, worker, token, now, target, ended, usage, compaction);
  }

  lemma ReleaseEndsWait(c: Command, o: Outcome, r: Id)
    requires !EndsWait(c, o, r)
    ensures !(o.Released? && r in o.runs)
  {}

  lemma AdvanceEndsWait(c: Command, o: Outcome, r: Id)
    requires !EndsWait(c, o, r) && c.Advance?
    ensures c.run != r
  {}

  lemma DelegateStillWaits(s: State, cat: Catalog, q: Request, r: Id)
    requires Rows(s) && r in s.runs && s.runs[r].status == WaitingForSubagent
    ensures var s' := DelegateStep(s, cat, q).0; r in s'.runs && s'.runs[r].status == WaitingForSubagent
  {
    hide Rows, DelegateStep, ChildRun, HoldsLease, Delegatable, Active;
    DelegateOutcome(s, cat, q);
  }

  lemma ReconcileStillWaits(s: State, locked: set<Id>, r: Id)
    requires r in s.runs && s.runs[r].status == WaitingForSubagent && r !in ReadyIds(s, locked)
    ensures var s' := Reconciled(s, locked); r in s'.runs && s'.runs[r].status == WaitingForSubagent
  {
    hide ReadyIds;
  }

  lemma ClaimStillWaits(s: State, worker: string, seconds: int, now: int, locked: set<Id>, token: Id, r: Id)
    requires r in s.runs && s.runs[r].status == WaitingForSubagent
    ensures var s' := ClaimStep(s, worker, seconds, now, locked, token).0; r in s'.runs && s'.runs[r].status == WaitingForSubagent
  {
    hide NextRun, Before;
  }

  lemma SuspendStillWaits(s: State, run: Id, worker: string, token: Id, now: int, r: Id)
    requires r in s.runs && s.runs[r].status == WaitingForSubagent
    ensures var s' := SuspendStep(s, run, worker, token, now).0; r in s'.runs && s'.runs[r].status == WaitingForSubagent
  {
    hide HoldsLease;
  }

  lemma AdvanceStillWaits(s: State, run: Id, target: RunStatus, expectedRevision: nat, r: Id)
    requires r in s.runs && s.runs[r].status == WaitingForSubagent && run != r
    ensures var s' := AdvanceStep(s, run, target, expectedRevision).0; r in s'.runs && s'.runs[r].status == WaitingForSubagent
  {
    hide CallsEnding, CancelCalls, CancelSteps, StepsOf, AdvancedTasks, AdvancedSessions, Advanced, RunTargets;
  }

  lemma OtherStillWaits(s: State, c: Command, r: Id)
    requires Plain(c) && !c.Reconcile? && !c.Claim? && !c.Suspend? && !c.Advance?
    requires r in s.runs && s.runs[r].status == WaitingForSubagent
    ensures var s' := Step(s, c).0; r in s'.runs && s'.runs[r].status == WaitingForSubagent
  {
    hide *;
    var run := OtherRuns(s, c);
  }

  /** Children of a run that is not delegating only ever end. */
  lemma NoNewChildren(s: State, c: Command, r: Id)
    requires Rows(s) && Leased(s) && r in s.runs && s.runs[r].status == WaitingForSubagent
    ensures ChildrenOf(Step(s, c).0.delegations, r) == ChildrenOf(s.delegations, r)
    ensures ActiveChildrenOf(Step(s, c).0.delegations, r) <= ActiveChildrenOf(s.delegations, r)
  {
    hide *;
    if c.Delegate? {
      StepIsDelegate(s, c);
      NoNewChildrenInDelegate(s, c.catalog, c.request, r);
    } else if c.CancelTree? {
      StepIsCancel(s, c);
      NoNewChildrenInCancel(s, c.root, c.expectedRevision, r);
    } else if c.Complete? {
      StepIsComplete(s, c);
      CompleteEnds(s, c.run, c.worker, c.token, c.now, c.target, c.ended, c.usage, c.compaction);
      SameParents(s.delegations, Step(s, c).0.delegations);
      FewerActiveRows(s.delegations, Step(s, c).0.delegations, r);
    } else {
      OtherwisePlain(c);
      QuietTables(s, c);
    }
  }

  lemma NoNewChildrenInCancel(s: State, root: Id, expectedRevision: nat, r: Id)
    ensures ChildrenOf(CancelStep(s, root, expectedRevision).0.delegations, r) == ChildrenOf(s.delegations, r)
    ensures ActiveChildrenOf(CancelStep(s, root, expectedRevision).0.delegations, r) <= ActiveChildrenOf(s.delegations, r)
  {
    hide TreeCancel, TreeIds, ChildrenOf, ActiveChildrenOf, CancelRuns, ReleaseLedgers, CancelSessions, CancelTasks, CancelDelegations;
    CancelTables(s, root);
    FewerActive(s.delegations, TreeIds(s, root), r);
  }

  lemma FewerActive(ds: Delegations, ids: set<Id>, r: Id)
    ensures ChildrenOf(CancelDelegations(ds, ids), r) == ChildrenOf(ds, r)
    ensures ActiveChildrenOf(CancelDelegations(ds, ids), r) <= ActiveChildrenOf(ds, r)
  {
    hide CancelDelegations, ChildrenOf, ActiveChildrenOf, SameDefinitions, Active;
    CancelRowsPassGuard(ds, ids);
    SameParents(ds, CancelDelegations(ds, ids));
    FewerActiveRows(ds, CancelDelegations(ds, ids), r);
  }

  lemma FewerActiveRows(ds: Delegations, ds': Delegations, r: Id)
    requires SameDefinitions(ds, ds')
    requires forall c :: c in ds && Active(ds'[c].status) ==> Active(ds[c].status)
    ensures ActiveChildrenOf(ds', r) <= ActiveChildrenOf(ds, r)
  {
    SameRows(ds, ds');
    assert forall c :: c in ds ==> ds'[c].parent == ds[c].parent;
    hide SameDefinitions, Active;
  }

  lemma NoNewChildrenInDelegate(s: State, cat: Catalog, q: Request, r: Id)
    requires Rows(s) && r in s.runs && s.runs[r].status == WaitingForSubagent
    ensures ChildrenOf(DelegateStep(s, cat, q).0.delegations, r) == ChildrenOf(s.delegations, r)
    ensures ActiveChildrenOf(DelegateStep(s, cat, q).0.delegations, r) == ActiveChildrenOf(s.delegations, r)
  {
    DelegateOutcome(s, cat, q);
    hide Rows, DelegateStep, ChildrenOf, ActiveChildrenOf, HoldsLease, ChildRun, Active;
    var s' := DelegateStep(s, cat, q).0;
    if s' != s {
      assert q.run != r;
      GrantsOfNew(s.delegations, q.childRun, s'.delegations[q.childRun], r, Tokens);
    }
  }

  lemma EligibleStep(s: State, c: Command, r: Id)
    requires Rows(s) && Leased(s) && Eligible(s, r) && !EndsWait(c, Step(s, c).1, r)
    ensures Eligible(Step(s, c).0, r)
  {
    hide Step, Rows, Leased, ChildrenOf, ActiveChildrenOf;
    StillWaiting(s, c, r);
    NoNewChildren(s, c, r);
  }

  /** No lost wakeup: a parent that became ready stays ready through every later step, until a
      step that wakes, cancels or explicitly moves it. */
  lemma {:induction false} StaysReady(history: seq<Command>, later: seq<Command>, r: Id)
    requires Eligible(After(history), r)
    requires forall k: nat {:trigger Answer(history + later, k)} :: |history| <= k < |history + later| ==>
      !EndsWait((history + later)[k], Answer(history + later, k), r)
    ensures Eligible(After(history + later), r)
    decreases |later|
  {
    if later == [] {
      assert history + later == history;
    } else {
      var n := |later| - 1;
      var before, c := history + later[..n], later[n];
      var all := history + later;
      assert all == before + [c] && all[..|before|] == before;
      forall k: nat | |history| <= k < |before| ensures !EndsWait(before[k], Answer(before, k), r) {
        AnswerOfPrefix(all, |before|, k);
        assert Answer(all, k) == Answer(before, k) && all[k] == before[k];
      }
      StaysReady(history, later[..n], r);
      AfterStep(before, c);
      assert Answer(all, |before|) == Step(After(before), c).1;
      Reachable(before);
      var s := After(before);
      assert Rows(s) && Leased(s);
      hide After, Step, Answer, Eligible, Inv, Rows, Leased, EndsWait;
      EligibleStep(s, c, r);
    }
  }

  lemma ParentNotBelow(p: Parents, rel: Closure, d: Id)
    requires Exact(p, rel) && d in p
    ensures p[d] != d && Pair(d, p[d]) !in rel
  {
    UpZero(p, p[d]);
    assert Up(p, d, 1) == Some(p[d]);
    assert Pair(p[d], d) in rel;
    if Pair(d, p[d]) in rel { StoredTransitive(p, rel, d, p[d], d); }
  }

  lemma ParentOutsideTree(s: State, root: Id, p: Id)
    requires Closed(s) && root in s.delegations && s.delegations[root].parent == p
    ensures p !in TreeIds(s, root)
  {
    ParentNotBelow(ParentsOf(s.delegations), s.relations, root);
    hide Closed;
    OutsideTree(s, root, p);
  }

  lemma NoActiveChildLeft(ds: Delegations, ids: set<Id>, root: Id, p: Id)
    requires ActiveChildrenOf(ds, p) <= {root} && root in ids
    ensures ActiveChildrenOf(CancelDelegations(ds, ids), p) == {}
  {
    var ds' := CancelDelegations(ds, ids);
    forall c | c in ds' && ds'[c].parent == p ensures !Active(ds'[c].status) {
      if Active(ds[c].status) { assert c in ActiveChildrenOf(ds, p); }
    }
  }

  lemma LastChildCancelled(s: State, root: Id)
    requires Inv(s) && root in s.delegations && s.delegations[root].parent in s.runs
    requires s.runs[s.delegations[root].parent].status == WaitingForSubagent
    requires ActiveChildrenOf(s.delegations, s.delegations[root].parent) <= {root}
    ensures Eligible(TreeCancel(s, root), s.delegations[root].parent)
  {
    var p := s.delegations[root].parent;
    ParentOutsideTree(s, root, p);
    CancelRowFrame(s, root, p);
    CancelTables(s, root);
    CancelRowsPassGuard(s.delegations, TreeIds(s, root));
    SameParents(s.delegations, CancelDelegations(s.delegations, TreeIds(s, root)));
    NoActiveChildLeft(s.delegations, TreeIds(s, root), root, p);
    assert root in ChildrenOf(s.delegations, p);
    hide TreeCancel, TreeIds, CancelDelegations, CancelRuns, ReleaseLedgers, CancelSessions, CancelTasks, Inv,
         ChildrenOf, ActiveChildrenOf, SameDefinitions;
  }

  /** Cancelling the last active child makes its waiting parent ready, and the next reconciler pass
      that can lock it makes it running and claimable. */
  lemma CancelLastChildWakesParent(history: seq<Command>, root: Id, locked: set<Id>, now: int)
    requires var s := After(history);
      && root in s.runs && s.runs[root].status != Cancelled && root in s.delegations
      && s.delegations[root].parent in s.runs && s.delegations[root].parent !in locked
      && s.runs[s.delegations[root].parent].status == WaitingForSubagent
      && ActiveChildrenOf(s.delegations, s.delegations[root].parent) <= {root}
    ensures var s := After(history);
      var p := s.delegations[root].parent;
      var s' := After(history + [CancelTree(root, s.runs[root].revision)] + [Reconcile(locked)]);
      p in s'.runs && s'.runs[p].status == Running && s'.runs[p].lease == None && Free(s', now, {}, p)
  {
    Reachable(history);
    var s := After(history);
    var p, c := s.delegations[root].parent, CancelTree(root, s.runs[root].revision);
    CancelGoesThrough(s, root);
    LastChildCancelled(s, root);
    AfterStep(history, c);
    AfterStep(history + [c], Reconcile(locked));
    Reachable(history + [c]);
    hide After, TreeCancel, Step, Inv;
    EligibleIsWoken(After(history + [c]), locked, p, now);
  }

  lemma EligibleIsWoken(s: State, locked: set<Id>, r: Id, now: int)
    requires Inv(s) && Eligible(s, r) && r !in locked
    ensures var s' := Step(s, Reconcile(locked)).0;
      r in s'.runs && s'.runs[r].status == Running && s'.runs[r].lease == None && Free(s', now, {}, r)
  {
    assert OwnerRows(s);
    assert r in ReadyIds(s, locked);
    WakeRow(s, locked, r, now);
    ReconcileIs(s, locked);
    hide *;
  }

  // ----- what delegate does not check -----

  /** The same state with another expiry time on one run's lease. */
  function WithExpiry(s: State, r: Id, expires: int): (s': State)
    requires r in s.runs && s.runs[r].lease.Some?
  {
    s.(runs := s.runs[r := s.runs[r].(lease := Some(s.runs[r].lease.value.(expires := expires)))])
  }

  /** Everything the verdict reads, apart from the lease itself, is the same. */
  lemma ExpiryElsewhere(s: State, q: Request, target: string, policy: Doc, expires: int)
    requires q.run in s.runs && s.runs[q.run].lease.Some?
    ensures var s' := WithExpiry(s, q.run, expires);
      && TreeRefusal(s', q.run, target, policy) == TreeRefusal(s, q.run, target, policy)
      && LedgerOf(s', q.run) == LedgerOf(s, q.run)
      && (FreshIds(s', q) <==> FreshIds(s, q))
      && s'.runs[q.run].status == s.runs[q.run].status && s'.runs[q.run].task == s.runs[q.run].task
      && s'.delegations == s.delegations && s'.sessions == s.sessions && s'.tasks == s.tasks
  {
    var s' := WithExpiry(s, q.run, expires);
    forall a ensures a in s'.runs <==> a in s.runs {}
    forall a | a in s.runs ensures s'.runs[a].version == s.runs[a].version {}
    hide AncestorsOf, ChildrenOf, ActiveChildrenOf, Depths, PositiveInt, Get;
    assert Cyclic(s', q.run, target) <==> Cyclic(s, q.run, target);
  }

  /** `delegate` reads owner and token of the lease but never its expiry: the verdict is the same
      whatever the expiry, in particular for a lease that ran out long ago. */
  lemma ExpiryIgnored(s: State, cat: Catalog, q: Request, expires: int)
    requires q.run in s.runs && s.runs[q.run].lease.Some?
    ensures Admission(WithExpiry(s, q.run, expires), cat, q) == Admission(s, cat, q)
  {
    var s' := WithExpiry(s, q.run, expires);
    assert HoldsLease(s'.runs[q.run], q.worker, q.token) <==> HoldsLease(s.runs[q.run], q.worker, q.token);
    if q.run in s.sessions {
      ExpiryElsewhere(s, q, q.intent.target, s.sessions[q.run].policy, expires);
    }
    ExpiryElsewhere(s, q, q.intent.target, map[], expires);
    hide LedgerOf, FreshIds, WithKey, WithFingerprint, StringSet, TreeRefusal, HoldsLease, WithExpiry,
         PermissionsFor, ReserveRefusal, TargetReady, FingerprintOf, EnabledFor, Delegatable;
  }
}
