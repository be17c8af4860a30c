/** The coordination service as it runs: tables updated in place, row by row, with the loops and
    early exits of each transaction. Every method ends in the state its step function names. */
module CoordinationStore {
  import opened Foundation
  import opened MapSums
  import opened RunStates
  import opened Forest
  import opened CoordinationPolicy
  import opened Coordination
  import opened CoordinationInvariants
  import opened CoordinationHistories
  import opened CoordinationLeases

  // ----- one more row released -----

  /** Clamping after every row is the same as clamping the total once. */
  lemma ClampTwice(x: nat, a: int, b: nat)
    requires a >= 0
    ensures Less(Less(x, a), b) == Less(x, a + b)
  {}

  lemma OneMoreReleased(ds: Delegations, done: set<Id>, c: Id, p: Id, r: Resource)
    requires c in ds && Active(ds[c].status) && c !in done
    ensures ReleasedAmounts(ds, done + {c}, p, r)
         == ReleasedAmounts(ds, done, p, r) + (if ds[c].parent == p then Of(ds[c].grant, r) else 0)
    ensures ReleasedAmounts(ds, done, p, r) >= 0
  {
    var before, after := Only(Grants(ds, p, r), done), Only(Grants(ds, p, r), done + {c});
    assert forall x :: x in before ==> before[x] >= 0;
    if ds[c].parent == p {
      assert c !in before && after == before[c := Of(ds[c].grant, r)];
      SumInsert(before, c, Of(ds[c].grant, r));
    } else {
      assert after == before;
    }
    hide Sum;
    SumNonNegative(before);
  }

  lemma ReleasedSetGrows(ds: Delegations, done: set<Id>, c: Id, p: Id)
    requires c in ds && Active(ds[c].status) && c !in done
    ensures ReleasedBy(ds, done + {c}, p) == ReleasedBy(ds, done, p) + if ds[c].parent == p then {c} else {}
    ensures c !in ReleasedBy(ds, done, p)
  {}

  function ReleaseRow(l: Ledger, grant: Amounts): (l': Ledger) {
    l.(reserved := ClampedMinus(l.reserved, grant), revision := l.revision + 1)
  }

  /** Releasing one more grant on top of earlier ones. */
  lemma ReleaseRowAgain(l: Ledger, tokens: int, cost: int, tools: int, rows: nat, grant: Amounts)
    requires tokens >= 0 && cost >= 0 && tools >= 0
    ensures ReleaseRow(l.(reserved := Amounts(Less(l.reserved.tokens, tokens), Less(l.reserved.cost, cost), Less(l.reserved.tools, tools)),
                          revision := l.revision + rows), grant)
         == l.(reserved := Amounts(Less(l.reserved.tokens, tokens + grant.tokens), Less(l.reserved.cost, cost + grant.cost),
                                   Less(l.reserved.tools, tools + grant.tools)),
               revision := l.revision + (rows + 1))
  {
    ClampTwice(l.reserved.tokens, tokens, grant.tokens);
    ClampTwice(l.reserved.cost, cost, grant.cost);
    ClampTwice(l.reserved.tools, tools, grant.tools);
    hide Less;
  }

  lemma ReleaseStep(l: Ledger, ds: Delegations, done: set<Id>, c: Id, p: Id)
    requires c in ds && Active(ds[c].status) && c !in done
    ensures ds[c].parent == p ==>
      ReleaseLedger(l, ds, done + {c}, p) == ReleaseRow(ReleaseLedger(l, ds, done, p), ds[c].grant)
    ensures ds[c].parent != p ==> ReleaseLedger(l, ds, done + {c}, p) == ReleaseLedger(l, ds, done, p)
  {
    hide ReleasedAmounts, ReleasedBy, Less, Of, Active, ReleaseRow;
    var g := ds[c].grant;
    OneMoreReleased(ds, done, c, p, Tokens);
    OneMoreReleased(ds, done, c, p, Cost);
    OneMoreReleased(ds, done, c, p, ToolCalls);
    ReleasedSetGrows(ds, done, c, p);
    AmountsOf(g);
    if ds[c].parent == p {
      assert |ReleasedBy(ds, done + {c}, p)| == |ReleasedBy(ds, done, p)| + 1;
      ReleaseRowAgain(l, ReleasedAmounts(ds, done, p, Tokens), ReleasedAmounts(ds, done, p, Cost),
                      ReleasedAmounts(ds, done, p, ToolCalls), |ReleasedBy(ds, done, p)|, g);
    }
  }

  lemma AmountsOf(g: Amounts)
    ensures Of(g, Tokens) == g.tokens && Of(g, Cost) == g.cost && Of(g, ToolCalls) == g.tools
  {}

  lemma ReleasedAt(ledgers: map<Id, Ledger>, ds: Delegations, ids: set<Id>)
    ensures ReleaseLedgers(ledgers, ds, ids).Keys == ledgers.Keys
    ensures forall p :: p in ledgers ==> ReleaseLedgers(ledgers, ds, ids)[p] == ReleaseLedger(ledgers[p], ds, ids, p)
  {
    hide ReleaseLedger;
  }

  lemma ReleaseTableStep(ledgers: map<Id, Ledger>, ds: Delegations, done: set<Id>, c: Id)
    requires c in ds && Active(ds[c].status) && c !in done
    ensures var before, p := ReleaseLedgers(ledgers, ds, done), ds[c].parent;
      ReleaseLedgers(ledgers, ds, done + {c})
        == if p in before then before[p := ReleaseRow(before[p], ds[c].grant)] else before
  {
    ReleasedAt(ledgers, ds, done);
    ReleasedAt(ledgers, ds, done + {c});
    hide ReleaseLedgers, ReleaseLedger, ReleaseRow, Active;
    forall p | p in ledgers
      ensures ReleaseLedgers(ledgers, ds, done + {c})[p]
           == if ds[c].parent == p then ReleaseRow(ReleaseLedgers(ledgers, ds, done)[p], ds[c].grant)
              else ReleaseLedgers(ledgers, ds, done)[p]
    {
      ReleaseStep(ledgers[p], ds, done, c, p);
    }
  }

  /** Only active rows matter to a release. */
  lemma ReleaseActiveOnly(ledgers: map<Id, Ledger>, ds: Delegations, ids: set<Id>, active: set<Id>)
    requires active == set c | c in ds && c in ids && Active(ds[c].status)
    ensures ReleaseLedgers(ledgers, ds, active) == ReleaseLedgers(ledgers, ds, ids)
    ensures CancelDelegations(ds, active) == CancelDelegations(ds, ids)
  {
    ReleasedAt(ledgers, ds, active);
    ReleasedAt(ledgers, ds, ids);
    hide ReleaseLedgers, ReleaseLedger;
    forall p | p in ledgers
      ensures ReleaseLedger(ledgers[p], ds, active, p) == ReleaseLedger(ledgers[p], ds, ids, p)
    {
      SameRelease(ledgers[p], ds, ids, active, p);
    }
  }

  lemma SameRelease(l: Ledger, ds: Delegations, ids: set<Id>, active: set<Id>, p: Id)
    requires active == set c | c in ds && c in ids && Active(ds[c].status)
    ensures ReleaseLedger(l, ds, active, p) == ReleaseLedger(l, ds, ids, p)
  {
    assert ReleasedBy(ds, active, p) == ReleasedBy(ds, ids, p);
    forall r: Resource ensures ReleasedAmounts(ds, active, p, r) == ReleasedAmounts(ds, ids, p, r) {
      assert Only(Grants(ds, p, r), active) == Only(Grants(ds, p, r), ids);
    }
    hide ReleasedAmounts, ReleasedBy;
  }

  lemma NothingReleasedYet(ledgers: map<Id, Ledger>, ds: Delegations)
    ensures ReleaseLedgers(ledgers, ds, {}) == ledgers
    ensures CancelDelegations(ds, {}) == ds
  {
    forall p | p in ledgers ensures ReleaseLedger(ledgers[p], ds, {}, p) == ledgers[p] {
      assert ReleasedBy(ds, {}, p) == {};
      NothingReleased(ledgers[p], ds, {}, p);
    }
    hide ReleaseLedger;
  }

  /** One row per ancestor of the parent seen so far. */
  function AncestorRows(was: Closure, done: set<Pair>, parent: Id, child: Id, delegation: Id): (rows: Closure) {
    map k | k in was && k in done && k.descendant == parent ::
      Pair(k.ancestor, child) := Relation(was[k].depth + 1, false, delegation)
  }

  /** The table after the direct row and the rows of `done`. */
  function Inserted(was: Closure, done: set<Pair>, parent: Id, child: Id, delegation: Id): (rows: Closure) {
    was + AncestorRows(was, done, parent, child, delegation)[Pair(parent, child) := Relation(1, true, delegation)]
  }

  lemma RowsOneMore(was: Closure, done: set<Pair>, k: Pair, parent: Id, child: Id, delegation: Id)
    requires k in was && k.descendant == parent
    ensures AncestorRows(was, done + {k}, parent, child, delegation)
         == AncestorRows(was, done, parent, child, delegation)[Pair(k.ancestor, child) := Relation(was[k].depth + 1, false, delegation)]
  {
    hide AncestorRows;
    assert k == Pair(k.ancestor, parent);
    var mine, more := AncestorRows(was, done, parent, child, delegation), AncestorRows(was, done + {k}, parent, child, delegation);
    var mine' := mine[Pair(k.ancestor, child) := Relation(was[k].depth + 1, false, delegation)];
    forall x ensures (x in more <==> x in mine') && (x in more ==> more[x] == mine'[x]) {
      AncestorRow(was, done, parent, child, delegation, x);
      AncestorRow(was, done + {k}, parent, child, delegation, x);
    }
    assert more == mine';
  }

  lemma InsertOne(was: Closure, done: set<Pair>, k: Pair, parent: Id, child: Id, delegation: Id)
    requires k in was && k.descendant == parent && Pair(parent, parent) !in was
    ensures Inserted(was, done + {k}, parent, child, delegation)
         == Inserted(was, done, parent, child, delegation)[Pair(k.ancestor, child) := Relation(was[k].depth + 1, false, delegation)]
  {
    assert k.ancestor != parent by { assert k == Pair(k.ancestor, parent); }
    RowsOneMore(was, done, k, parent, child, delegation);
    hide AncestorRows;
    UpdatesCommute(was, AncestorRows(was, done, parent, child, delegation), Pair(k.ancestor, child),
                   Relation(was[k].depth + 1, false, delegation), Pair(parent, child), Relation(1, true, delegation));
  }

  lemma UpdatesCommute(was: Closure, rows: Closure, x: Pair, v: Relation, y: Pair, w: Relation)
    requires x != y
    ensures was + rows[x := v][y := w] == (was + rows[y := w])[x := v]
  {}

  lemma InsertNone(was: Closure, parent: Id, child: Id, delegation: Id)
    ensures Inserted(was, {}, parent, child, delegation) == was[Pair(parent, child) := Relation(1, true, delegation)]
  {
    assert AncestorRows(was, {}, parent, child, delegation) == map[];
    hide AncestorRows;
    assert map[][Pair(parent, child) := Relation(1, true, delegation)].Keys == {Pair(parent, child)};
  }

  lemma AncestorRow(was: Closure, done: set<Pair>, parent: Id, child: Id, delegation: Id, x: Pair)
    ensures x in AncestorRows(was, done, parent, child, delegation) <==>
      x.descendant == child && Pair(x.ancestor, parent) in was && Pair(x.ancestor, parent) in done
    ensures x in AncestorRows(was, done, parent, child, delegation) ==>
      AncestorRows(was, done, parent, child, delegation)[x] == Relation(was[Pair(x.ancestor, parent)].depth + 1, false, delegation)
  {
    if x in AncestorRows(was, done, parent, child, delegation) {
      var k :| k in was && k in done && k.descendant == parent && x == Pair(k.ancestor, child);
      assert k == Pair(x.ancestor, parent);
    }
    if x.descendant == child && Pair(x.ancestor, parent) in was && Pair(x.ancestor, parent) in done {
      assert Pair(x.ancestor, parent).descendant == parent && x == Pair(x.ancestor, child);
    }
  }

  lemma NewRow(was: Closure, parent: Id, child: Id, delegation: Id, x: Pair)
    ensures x in NewRows(was, parent, child, delegation) <==>
      x == Pair(parent, child) || (x.descendant == child && Pair(x.ancestor, parent) in was)
    ensures x in NewRows(was, parent, child, delegation) ==>
      NewRows(was, parent, child, delegation)[x]
        == if x == Pair(parent, child) then Relation(1, true, delegation)
           else Relation(was[Pair(x.ancestor, parent)].depth + 1, false, delegation)
  {
    if x in NewRows(was, parent, child, delegation) && x != Pair(parent, child) {
      var k :| k in was && k.descendant == parent && x == Pair(k.ancestor, child);
      assert k == Pair(x.ancestor, parent);
    }
    if x.descendant == child && Pair(x.ancestor, parent) in was {
      assert Pair(x.ancestor, parent).descendant == parent && x == Pair(x.ancestor, child);
    }
  }

  lemma InsertedAll(was: Closure, all: set<Pair>, parent: Id, child: Id, delegation: Id)
    requires forall k :: k in all <==> k in was && k.descendant == parent
    ensures Inserted(was, all, parent, child, delegation) == Grow(was, parent, child, delegation)
  {
    hide AncestorRows, NewRows;
    var mine, full := AncestorRows(was, all, parent, child, delegation)[Pair(parent, child) := Relation(1, true, delegation)],
                      NewRows(was, parent, child, delegation);
    forall x ensures (x in mine <==> x in full) && (x in mine ==> mine[x] == full[x]) {
      AncestorRow(was, all, parent, child, delegation, x);
      NewRow(was, parent, child, delegation, x);
      assert Pair(x.ancestor, parent) in all <==> Pair(x.ancestor, parent) in was;
    }
    assert mine == full;
  }

  /** The new state, write by write. */
  lemma DelegationIs(s: State, q: Request, permissions: Doc, ledger: Ledger)
    requires q.run in s.runs && q.run in s.sessions && s.runs[q.run].task in s.tasks
    requires ledger == if q.run in s.ledgers then s.ledgers[q.run] else DefaultLedger(s.runs[q.run])
    ensures WithDelegation(s, q, permissions) == State(
      s.runs[q.childRun := ChildRun(q)],
      s.delegations[q.childRun := NewDelegation(q, s.sessions[q.run].policy, permissions)],
      Grow(s.relations, q.run, q.childRun, q.delegation),
      s.ledgers[q.run := Reserved(ledger, q.intent.grant)][q.childRun := ChildLedger(q)],
      s.sessions,
      s.tasks[q.childTask := Task(TaskRunning, s.tasks[s.runs[q.run].task].priority, 1)],
      s.toolCalls, s.steps, s.approvals)
  {
    hide NewDelegation, ChildRun, ChildLedger, Reserved, DefaultLedger, Grow;
  }

  // ----- one more row cancelled -----

  lemma EndOneMore(ds: Delegations, done: set<Id>, c: Id)
    requires c in ds && Active(ds[c].status) && c !in done
    ensures c in CancelDelegations(ds, done) && CancelDelegations(ds, done)[c] == ds[c]
    ensures CancelDelegations(ds, done + {c}) == CancelDelegations(ds, done)[c := CancelDelegation(ds[c])]
  {
    hide CancelDelegation;
  }

  lemma NothingStoppedYet(runs: map<Id, Run>, sessions: map<Id, Session>, tasks: map<Id, Task>)
    ensures CancelRuns(runs, {}) == runs
    ensures CancelSessions(sessions, Stopped(runs, {})) == sessions
    ensures CancelTasks(tasks, TasksOf(runs, Stopped(runs, {}))) == tasks
  {
    assert Stopped(runs, {}) == {};
    assert TasksOf(runs, {}) == {};
  }

  lemma RunNotYetStopped(runs: map<Id, Run>, done: set<Id>, r: Id)
    requires r !in done
    ensures r in CancelRuns(runs, done) <==> r in runs
    ensures r in runs ==> CancelRuns(runs, done)[r] == runs[r]
  {}

  function StopSession(session: Session): (s: Session) {
    if session.status !in {SessionCompleted, SessionFailed, SessionCancelled}
    then session.(status := SessionCancelled, revision := session.revision + 1) else session
  }

  function StopTask(task: Task): (t: Task) {
    if task.status !in {TaskCompleted, TaskFailed, TaskCancelled}
    then task.(status := TaskCancelled, revision := task.revision + 1) else task
  }

  /** One more run of the tree: it, its session and its task stop, unless it had ended. */
  lemma StopOneMore(runs: map<Id, Run>, sessions: map<Id, Session>, tasks: map<Id, Task>, done: set<Id>, r: Id)
    requires r !in done
    ensures var now := r in runs && !Terminal(runs[r].status);
      var rs, ss, ts := CancelRuns(runs, done), CancelSessions(sessions, Stopped(runs, done)),
                        CancelTasks(tasks, TasksOf(runs, Stopped(runs, done)));
      && CancelRuns(runs, done + {r}) == (if now then rs[r := CancelRun(runs[r])] else rs)
      && CancelSessions(sessions, Stopped(runs, done + {r}))
           == (if now && r in ss then ss[r := StopSession(ss[r])] else ss)
      && CancelTasks(tasks, TasksOf(runs, Stopped(runs, done + {r})))
           == (if now && runs[r].task in ts then ts[runs[r].task := StopTask(ts[runs[r].task])] else ts)
  {
    var now := r in runs && !Terminal(runs[r].status);
    assert Stopped(runs, done + {r}) == Stopped(runs, done) + if now then {r} else {};
    assert r !in Stopped(runs, done);
    hide Stopped, CancelRun, Terminal;
    StopSessionStep(sessions, Stopped(runs, done), r);
    if now { StopTaskStep(runs, tasks, Stopped(runs, done), r); }
    hide CancelSessions, CancelTasks, TasksOf;
    assert Stopped(runs, done) + {} == Stopped(runs, done);
  }

  lemma StopSessionStep(sessions: map<Id, Session>, stopped: set<Id>, r: Id)
    requires r !in stopped
    ensures var ss := CancelSessions(sessions, stopped);
      CancelSessions(sessions, stopped + {r}) == if r in ss then ss[r := StopSession(ss[r])] else ss
  {}

  lemma StopTaskStep(runs: map<Id, Run>, tasks: map<Id, Task>, stopped: set<Id>, r: Id)
    requires r !in stopped && r in runs
    ensures var ts, t := CancelTasks(tasks, TasksOf(runs, stopped)), runs[r].task;
      CancelTasks(tasks, TasksOf(runs, stopped + {r})) == if t in ts then ts[t := StopTask(ts[t])] else ts
  {
    assert TasksOf(runs, stopped + {r}) == TasksOf(runs, stopped) + {runs[r].task};
    hide TasksOf;
  }

  function StopStep(step: RunStep): (t: RunStep) {
    if step.status in {StepPending, StepRunning, StepWaiting}
    then step.(status := StepCancelled, revision := step.revision + 1) else step
  }

  function StopStepIn(steps: map<Id, RunStep>, x: Id): (r: map<Id, RunStep>) {
    if x in steps then steps[x := StopStep(steps[x])] else steps
  }

  function StopCall(call: ToolCall): (t: ToolCall) {
    call.(status := CallCancelled, revision := call.revision + 1)
  }

  lemma CallOneMore(calls: map<Id, ToolCall>, steps: map<Id, RunStep>, done: set<Id>, t: Id)
    requires t in calls && t !in done
    ensures t in CancelCalls(calls, done) && CancelCalls(calls, done)[t] == calls[t]
    ensures CancelCalls(calls, done + {t}) == CancelCalls(calls, done)[t := StopCall(calls[t])]
    ensures CancelSteps(steps, StepsOf(calls, done + {t}))
         == StopStepIn(CancelSteps(steps, StepsOf(calls, done)), calls[t].step)
  {
    assert StepsOf(calls, done + {t}) == StepsOf(calls, done) + {calls[t].step};
    hide StepsOf;
  }

  // ----- the queue scan -----

  ghost function FreeAmong(s: State, now: int, locked: set<Id>, seen: set<Id>): (free: set<Id>) {
    set x | x in seen && Free(s, now, locked, x)
  }

  lemma LeastSoFar(s: State, now: int, locked: set<Id>, seen: set<Id>, r: Id, best: Option<Id>)
    requires r !in seen
    requires best.None? ==> forall x :: x in seen ==> !Free(s, now, locked, x)
    requires best.Some? ==> best.value in seen && Least(s, FreeAmong(s, now, locked, seen), best.value)
    ensures var next :=
        if Free(s, now, locked, r) && (best.None? || Before(s, r, best.value)) then Some(r) else best;
      && (next.None? ==> forall x :: x in seen + {r} ==> !Free(s, now, locked, x))
      && (next.Some? ==> next.value in seen + {r}
                         && Least(s, FreeAmong(s, now, locked, seen + {r}), next.value))
  {
    hide Free;
    var free, free' := FreeAmong(s, now, locked, seen), FreeAmong(s, now, locked, seen + {r});
    if !Free(s, now, locked, r) {
      assert free' == free;
    } else if best.Some? {
      assert free' - {r} == free;
      LeastOfBoth(s, free', r, best.value);
    } else {
      assert free' == {r};
      assert Least(s, free', r);
    }
  }

  lemma NextIs(s: State, now: int, locked: set<Id>, best: Option<Id>)
    requires best.None? ==> forall x :: x in s.runs ==> !Free(s, now, locked, x)
    requires best.Some? ==> Least(s, FreeAmong(s, now, locked, s.runs.Keys), best.value)
    ensures NextRun(s, now, locked) == best
    ensures best.Some? ==> best.value in s.runs
  {
    assert forall x :: Free(s, now, locked, x) ==> x in s.runs;
    hide Before, Free;
    if best.Some? {
      assert IsNext(s, now, locked, best.value);
      NextIsUnique(s, now, locked, best.value, NextRun(s, now, locked).value);
    }
  }

  /** `max` over a table scan. */
  lemma MaxIs(s: set<nat>, m: nat)
    requires s == {} ==> m == 0
    requires s != {} ==> m in s
    requires forall x :: x in s ==> x <= m
    ensures m == MaxOf(s)
  {}

  /** `deepest` is the greatest depth among the rows seen, 0 for none. */
  ghost predicate DeepestOf(rel: Closure, seen: set<Pair>, run: Id, deepest: nat) {
    && (forall k :: k in seen && k in rel && k.descendant == run ==> rel[k].depth <= deepest)
    && (deepest == 0 || exists k :: k in seen && k in rel && k.descendant == run && rel[k].depth == deepest)
  }

  lemma DeepestIsMax(rel: Closure, run: Id, deepest: nat)
    requires DeepestOf(rel, rel.Keys, run, deepest)
    ensures deepest == MaxOf(Depths(rel, run))
  {
    var depths := Depths(rel, run);
    hide MaxOf;
    forall d | d in depths ensures d <= deepest {
      var k :| k in rel && k.descendant == run && d == rel[k].depth;
    }
    if depths != {} && deepest == 0 {
      var d :| d in depths;
      assert d == 0;
    }
    if deepest != 0 {
      var k :| k in rel && k.descendant == run && rel[k].depth == deepest;
      assert deepest in depths;
    }
    MaxIs(depths, deepest);
  }

  lemma NothingOpen(calls: map<Id, ToolCall>, steps: map<Id, RunStep>)
    ensures CancelCalls(calls, {}) == calls && CancelSteps(steps, StepsOf(calls, {})) == steps
  {}

  lemma EndRunIs(s: State, run: Id, target: RunStatus, ended: SessionStatus, compaction: bool)
    requires run in s.runs && run in s.sessions
    ensures EndRun(s, run, target, ended, compaction)
         == State(s.runs[run := Advanced(s.runs[run], target)], s.delegations, s.relations, s.ledgers,
                  s.sessions[run := EndedSession(s.sessions[run], ended)],
                  EndedTasks(s.tasks, s.runs[run].task, target, run in s.delegations || compaction),
                  s.toolCalls, s.steps, s.approvals)
  {
    hide Advanced, EndedTasks, EndedSession;
  }

  lemma EndRunKeepsDelegations(s: State, run: Id, target: RunStatus, ended: SessionStatus, compaction: bool)
    requires run in s.runs && run in s.sessions
    ensures EndRun(s, run, target, ended, compaction).delegations == s.delegations
  {
    hide Advanced, EndedTasks;
  }

  class CoordinationStore {
    var runs: map<Id, Run>
    var delegations: Delegations
    var relations: Closure
    var ledgers: map<Id, Ledger>
    var sessions: map<Id, Session>
    var tasks: map<Id, Task>
    var toolCalls: map<Id, ToolCall>
    var steps: map<Id, RunStep>
    var approvals: map<Id, Approval>

    constructor ()
      ensures Tables() == EMPTY
    {
      runs, delegations, relations, ledgers, sessions := map[], map[], map[], map[], map[];
      tasks, toolCalls, steps, approvals := map[], map[], map[], map[];
    }

    ghost function Tables(): (s: State)
      reads this
    {
      State(runs, delegations, relations, ledgers, sessions, tasks, toolCalls, steps, approvals)
    }

    // ----- delegate -----

    /** `select max(depth)` over the ancestors of `run`. */
    method CurrentDepth(run: Id) returns (deepest: nat)
      ensures deepest == MaxOf(Depths(relations, run))
    {
      deepest := 0;
      var rest, seen: set<Pair> := relations.Keys, {};
      while rest != {}
        invariant seen + rest == relations.Keys && seen !! rest
        invariant DeepestOf(relations, seen, run, deepest)
        decreases rest
      {
        var k :| k in rest;
        if k.descendant == run && relations[k].depth > deepest { deepest := relations[k].depth; }
        rest, seen := rest - {k}, seen + {k};
      }
      assert seen == relations.Keys;
      DeepestIsMax(relations, run, deepest);
    }

    /** Whether the target version already runs at the parent or above it. */
    method VersionInAncestry(run: Id, target: string) returns (found: bool)
      ensures found <==> Cyclic(Tables(), run, target)
    {
      var rest, seen: set<Id> := AncestorsOf(relations, run) + {run}, {};
      ghost var all := rest;
      while rest != {}
        invariant seen + rest == all
        invariant forall a :: a in seen && a in runs ==> runs[a].version != target
        decreases rest
      {
        var a :| a in rest;
        if a in runs && runs[a].version == target { return true; }
        rest, seen := rest - {a}, seen + {a};
      }
      return false;
    }

    /** `_validate_tree` */
    method ValidateTree(run: Id, target: string, policy: Doc) returns (refusal: Option<Refusal>)
      ensures refusal == TreeRefusal(Tables(), run, target, policy)
    {
      hide Cyclic, Depths, MaxOf, PositiveInt, Get;
      var cycle := VersionInAncestry(run, target);
      if cycle { return Some(DelegationCycle); }
      var depth := CurrentDepth(run);
      if depth + 1 > PositiveInt(Get(policy, "max_depth")) { return Some(DepthExceeded); }
      if |ChildrenOf(delegations, run)| >= PositiveInt(Get(policy, "max_children")) { return Some(CountExceeded); }
      if |ActiveChildrenOf(delegations, run)| >= PositiveInt(Get(policy, "max_parallelism")) {
        return Some(ParallelismExceeded);
      }
      return None;
    }

    /** Everything `delegate` checks before its inserts, in its order. */
    method Admit(q: Request, cat: Catalog) returns (verdict: Verdict)
      requires Unique(Tables())
      ensures verdict == Admission(Tables(), cat, q)
    {
      hide TreeRefusal, ReserveRefusal, PermissionsFor, FingerprintOf, StringSet, EnabledFor, TargetReady, Get,
           WithFingerprint, Delegatable;
      if q.run !in runs { return Refuse(RunNotFound); }
      if !HoldsLease(runs[q.run], q.worker, q.token) { return Refuse(LeaseLost); }
      if !Delegatable(runs[q.run].status) { return Refuse(NotDelegatable); }
      var keyed := WithKey(delegations, q.run, q.intent.key);
      if keyed != {} {
        var existing :| existing in keyed;
        ghost var other := Existing(keyed);
        assert existing == other;
        return Replay(existing);
      }
      if q.run !in sessions { return Refuse(SessionRequired); }
      var policy, target := sessions[q.run].policy, q.intent.target;
      if !EnabledFor(policy) { return Refuse(CoordinationDisabled); }
      if target !in StringSet(Get(policy, "allowed_agent_version_ids")) { return Refuse(TargetDenied); }
      if WithFingerprint(delegations, q.run, FingerprintOf(q.intent)) != {} { return Refuse(DuplicateDelegation); }
      if target !in cat.versions || !cat.versions[target].published { return Refuse(VersionNotFound); }
      if !TargetReady(cat, target) { return Refuse(TargetNotReady); }
      var refusal := ValidateTree(q.run, target, policy);
      if refusal.Some? { return Refuse(refusal.value); }
      if runs[q.run].task !in tasks { return Refuse(TaskNotFound); }
      var ledger := if q.run in ledgers then ledgers[q.run] else DefaultLedger(runs[q.run]);
      refusal := ReserveRefusal(ledger, q.intent.grant, policy);
      if refusal.Some? { return Refuse(refusal.value); }
      var permissions := PermissionsFor(sessions[q.run], cat, q.intent);
      if permissions.Err? { return Refuse(PermissionRefused(permissions.error)); }
      var unused := q.childRun !in runs && q.childTask !in tasks
                   && forall c :: c in delegations ==> delegations[c].id != q.delegation;
      if !unused { return Refuse(IdCollision); }
      return Verdict.Admit(permissions.value);
    }

    /** `_insert_closure`: the direct row, then one row per ancestor of the parent. */
    method InsertClosure(parent: Id, child: Id, delegation: Id)
      requires Pair(parent, parent) !in relations
      modifies `relations
      ensures relations == Grow(old(relations), parent, child, delegation)
    {
      var was := relations;
      var rest := set k | k in was && k.descendant == parent;
      var done: set<Pair> := {};
      ghost var all := rest;
      relations := relations[Pair(parent, child) := Relation(1, true, delegation)];
      InsertNone(was, parent, child, delegation);
      hide Inserted, Grow;
      while rest != {}
        invariant done + rest == all && done !! rest
        invariant relations == Inserted(was, done, parent, child, delegation)
        decreases rest
      {
        var k :| k in rest;
        relations := relations[Pair(k.ancestor, child) := Relation(was[k].depth + 1, false, delegation)];
        InsertOne(was, done, k, parent, child, delegation);
        rest, done := rest - {k}, done + {k};
      }
      assert done == all;
      InsertedAll(was, all, parent, child, delegation);
    }

    /** The inserts of an admitted delegation. */
    method WriteDelegation(q: Request, permissions: Doc)
      requires q.run in runs && q.run in sessions && runs[q.run].task in tasks && Pair(q.run, q.run) !in relations
      modifies this
      ensures Tables() == WithDelegation(old(Tables()), q, permissions)
    {
      ghost var s := Tables();
      hide WithDelegation, NewDelegation, ChildRun, ChildLedger, Reserved, DefaultLedger, Grow;
      var parent := runs[q.run];
      var ledger := if q.run in ledgers then ledgers[q.run] else DefaultLedger(parent);
      ledgers := ledgers[q.run := Reserved(ledger, q.intent.grant)];
      tasks := tasks[q.childTask := Task(TaskRunning, tasks[parent.task].priority, 1)];
      runs := runs[q.childRun := ChildRun(q)];
      delegations := delegations[q.childRun := NewDelegation(q, sessions[q.run].policy, permissions)];
      ledgers := ledgers[q.childRun := ChildLedger(q)];
      InsertClosure(q.run, q.childRun, q.delegation);
      DelegationIs(s, q, permissions, ledger);
    }

    /** One delegation call. */
    method Delegate(q: Request, cat: Catalog) returns (o: Outcome)
      requires Unique(Tables()) && Acyclic(relations)
      modifies this
      ensures (Tables(), o) == DelegateStep(old(Tables()), cat, q)
    {
      hide Admission, WithDelegation;
      var verdict := Admit(q, cat);
      match verdict {
        case Refuse(why) => o := Refused(why);
        case Replay(child) => o := Replayed(child);
        case Admit(permissions) =>
          AdmissionMeans(Tables(), cat, q);
          AdmittedRunIsLive(Tables(), cat, q, permissions);
          hide Admitted;
          WriteDelegation(q, permissions);
          o := DelegationMade(q.run, q.childRun, q.worker, q.token);
      }
    }

    // ----- cancel_tree -----

    /** `_release_reserved_budget` and the status write, for each active delegation in turn. */
    method EndDelegations(ids: set<Id>)
      modifies `delegations, `ledgers
      ensures delegations == CancelDelegations(old(delegations), ids)
      ensures ledgers == ReleaseLedgers(old(ledgers), old(delegations), ids)
    {
      ghost var ds, ls := delegations, ledgers;
      var rest := set c | c in delegations && c in ids && Active(delegations[c].status);
      ghost var active, done: set<Id> := rest, {};
      NothingReleasedYet(ledgers, delegations);
      ReleaseActiveOnly(ledgers, delegations, ids, rest);
      hide ReleaseLedgers, CancelDelegations, CancelDelegation, ReleaseRow, Active;
      while rest != {}
        invariant done + rest == active && done !! rest
        invariant forall c :: c in active ==> c in ds && Active(ds[c].status)
        invariant delegations == CancelDelegations(ds, done)
        invariant ledgers == ReleaseLedgers(ls, ds, done)
        decreases rest
      {
        var c :| c in rest;
        ReleaseTableStep(ls, ds, done, c);
        EndOneMore(ds, done, c);
        var d := delegations[c];
        if d.parent in ledgers { ledgers := ledgers[d.parent := ReleaseRow(ledgers[d.parent], d.grant)]; }
        delegations := delegations[c := CancelDelegation(d)];
        rest, done := rest - {c}, done + {c};
      }
      assert done == active;
    }

    /** Stops every run of the tree that is still going, its session and its task. */
    method StopRuns(ids: set<Id>)
      modifies `runs, `sessions, `tasks
      ensures runs == CancelRuns(old(runs), ids)
      ensures sessions == CancelSessions(old(sessions), Stopped(old(runs), ids))
      ensures tasks == CancelTasks(old(tasks), TasksOf(old(runs), Stopped(old(runs), ids)))
    {
      ghost var rs, ss, ts := runs, sessions, tasks;
      var rest := ids;
      ghost var done: set<Id> := {};
      NothingStoppedYet(rs, ss, ts);
      hide CancelRuns, CancelSessions, CancelTasks, TasksOf, Stopped;
      while rest != {}
        invariant done + rest == ids && done !! rest
        invariant runs == CancelRuns(rs, done)
        invariant sessions == CancelSessions(ss, Stopped(rs, done))
        invariant tasks == CancelTasks(ts, TasksOf(rs, Stopped(rs, done)))
        decreases rest
      {
        var r :| r in rest;
        RunNotYetStopped(rs, done, r);
        StopOneMore(rs, ss, ts, done, r);
        if r in runs && !Terminal(runs[r].status) {
          runs := runs[r := CancelRun(runs[r])];
          if r in sessions && sessions[r].status !in {SessionCompleted, SessionFailed, SessionCancelled} {
            sessions := sessions[r := sessions[r].(status := SessionCancelled, revision := sessions[r].revision + 1)];
          }
          var t := runs[r].task;
          if t in tasks && tasks[t].status !in {TaskCompleted, TaskFailed, TaskCancelled} {
            tasks := tasks[t := tasks[t].(status := TaskCancelled, revision := tasks[t].revision + 1)];
          }
        }
        rest, done := rest - {r}, done + {r};
      }
      assert done == ids;
    }

    /** Cancels the open tool calls of the tree, each with its step. */
    method CancelToolCalls(ids: set<Id>)
      modifies `toolCalls, `steps
      ensures toolCalls == CancelCalls(old(toolCalls), OpenCalls(old(toolCalls), ids))
      ensures steps == CancelSteps(old(steps), StepsOf(old(toolCalls), OpenCalls(old(toolCalls), ids)))
    {
      ghost var calls, was := toolCalls, steps;
      var rest := OpenCalls(toolCalls, ids);
      ghost var open, done: set<Id> := rest, {};
      NothingOpen(calls, was);
      assert open <= calls.Keys;
      hide CancelCalls, CancelSteps, StepsOf, OpenCalls, StopStepIn, StopCall;
      while rest != {}
        invariant done + rest == open && done !! rest
        invariant toolCalls == CancelCalls(calls, done)
        invariant steps == CancelSteps(was, StepsOf(calls, done))
        decreases rest
      {
        var t :| t in rest;
        CallOneMore(calls, was, done, t);
        CancelOneCall(t);
        rest, done := rest - {t}, done + {t};
      }
      assert done == open;
    }

    /** One tool call, and its step if that is unfinished. */
    method CancelOneCall(t: Id)
      requires t in toolCalls
      modifies `toolCalls, `steps
      ensures toolCalls == old(toolCalls)[t := StopCall(old(toolCalls)[t])]
      ensures steps == StopStepIn(old(steps), old(toolCalls)[t].step)
    {
      var call := toolCalls[t];
      toolCalls := toolCalls[t := call.(status := CallCancelled, revision := call.revision + 1)];
      if call.step in steps && steps[call.step].status in {StepPending, StepRunning, StepWaiting} {
        steps := steps[call.step := steps[call.step].(status := StepCancelled, revision := steps[call.step].revision + 1)];
      }
    }

    /** Withdraws the open approval requests of the tree. */
    method WithdrawApprovals(ids: set<Id>)
      modifies `approvals
      ensures approvals == CancelApprovals(old(approvals), ids)
    {
      ghost var was := approvals;
      var rest := set a | a in approvals && approvals[a].run in ids && approvals[a].status == ApprovalRequested;
      ghost var open := rest;
      while rest != {}
        invariant rest <= open && approvals.Keys == was.Keys
        invariant forall a :: a in was && (a in rest || a !in open) ==> approvals[a] == was[a]
        invariant forall a :: a in open && a !in rest ==>
          approvals[a] == was[a].(status := ApprovalCancelled, revision := was[a].revision + 1)
        decreases rest
      {
        var a :| a in rest;
        approvals := approvals[a := approvals[a].(status := ApprovalCancelled, revision := approvals[a].revision + 1)];
        rest := rest - {a};
      }
    }

    /** The writes of a cancellation, table by table. */
    method WriteCancel(root: Id, ids: set<Id>)
      requires ids == TreeIds(Tables(), root)
      modifies this
      ensures Tables() == TreeCancel(old(Tables()), root)
    {
      hide TreeIds, Stopped, CancelRuns, CancelDelegations, ReleaseLedgers, CancelSessions, CancelTasks, TasksOf,
           OpenCalls, CancelCalls, StepsOf, CancelSteps, CancelApprovals;
      EndDelegations(ids);
      StopRuns(ids);
      CancelToolCalls(ids);
      WithdrawApprovals(ids);
    }

    /** Cancels a run with everything below it. */
    method CancelTree(root: Id, expectedRevision: nat) returns (o: Outcome)
      modifies this
      ensures (Tables(), o) == CancelStep(old(Tables()), root, expectedRevision)
    {
      hide TreeCancel, Stopped, DescendantsOf;
      if root !in runs { return Refused(RunNotFound); }
      if runs[root].status == Cancelled { return Done; }
      if expectedRevision != runs[root].revision {
        return Conflict(RevisionConflict(expectedRevision, runs[root].revision));
      }
      var ids := {root} + DescendantsOf(relations, root);
      o := Released(Stopped(runs, ids));
      WriteCancel(root, ids);
    }

    // ----- transition_run -----

    method EndSession(run: Id, target: RunStatus)
      modifies `sessions
      ensures sessions == AdvancedSessions(old(sessions), run, target)
    {
      if target == Cancelled && run in sessions {
        sessions := sessions[run := sessions[run].(status := SessionCancelled, revision := sessions[run].revision + 1)];
      }
    }

    method EndCalls(run: Id, target: RunStatus)
      modifies `toolCalls, `steps
      ensures toolCalls == CancelCalls(old(toolCalls), CallsEnding(old(toolCalls), run, target))
      ensures steps == CancelSteps(old(steps), StepsOf(old(toolCalls), CallsEnding(old(toolCalls), run, target)))
    {
      NothingOpen(toolCalls, steps);
      hide OpenCalls, CancelCalls, StepsOf, CancelSteps;
      if target == Cancelled { CancelToolCalls({run}); }
    }

    /** The running task of a run that completes goes to review, that of a cancelled run ends. */
    method MoveTaskOn(t: Id, target: RunStatus)
      modifies `tasks
      ensures tasks == AdvancedTasks(old(tasks), t, target)
    {
      if t in tasks && tasks[t].status == TaskRunning {
        if target == Completed {
          tasks := tasks[t := tasks[t].(status := TaskWaitingForReview, revision := tasks[t].revision + 1)];
        } else if target == Cancelled {
          tasks := tasks[t := tasks[t].(status := TaskCancelled, revision := tasks[t].revision + 1)];
        }
      }
    }

    /** The writes of a transition: completing or cancelling the run moves its running task, and
        cancelling it ends its session and its open tool calls. */
    method WriteAdvance(run: Id, target: RunStatus)
      requires run in runs
      modifies `runs, `sessions, `tasks, `toolCalls, `steps
      ensures Tables() == AdvancedTables(old(Tables()), run, target)
    {
      hide AdvancedSessions, AdvancedTasks, CallsEnding, CancelCalls, StepsOf, CancelSteps, Advanced;
      var t := runs[run].task;
      runs := runs[run := Advanced(runs[run], target)];
      EndSession(run, target);
      EndCalls(run, target);
      MoveTaskOn(t, target);
    }

    /** Moves one run along the table. */
    method AdvanceRun(run: Id, target: RunStatus, expectedRevision: nat) returns (o: Outcome)
      modifies `runs, `sessions, `tasks, `toolCalls, `steps
      ensures (Tables(), o) == AdvanceStep(old(Tables()), run, target, expectedRevision)
    {
      hide AdvancedTables, RunTargets;
      if run !in runs { return Refused(RunNotFound); }
      if expectedRevision != runs[run].revision {
        return Conflict(RevisionConflict(expectedRevision, runs[run].revision));
      }
      var next := TransitionRun(runs[run].status, target);
      if next.Err? { return Conflict(next.error); }
      WriteAdvance(run, next.value);
      o := if Terminal(target) then Released({run}) else Done;
    }

    // ----- complete_claim -----

    /** The finished run, its session and its task. */
    method FinishRun(run: Id, target: RunStatus, ended: SessionStatus, compaction: bool)
      requires run in runs && run in sessions
      modifies `runs, `sessions, `tasks
      ensures Tables() == EndRun(old(Tables()), run, target, ended, compaction)
    {
      hide Advanced, EndedTasks, EndedSession, EndRun;
      EndRunIs(Tables(), run, target, ended, compaction);
      var t, final := runs[run].task, run in delegations || compaction;
      EndTask(t, target, final);
      runs := runs[run := Advanced(runs[run], target)];
      sessions := sessions[run := EndedSession(sessions[run], ended)];
    }

    /** The running task of a finished run. */
    method EndTask(t: Id, target: RunStatus, final: bool)
      modifies `tasks
      ensures tasks == EndedTasks(old(tasks), t, target, final)
    {
      if t in tasks && tasks[t].status == TaskRunning {
        var status := if target == Completed then (if final then TaskCompleted else TaskWaitingForReview)
                      else if target == Cancelled then TaskCancelled else TaskFailed;
        tasks := tasks[t := tasks[t].(status := status, revision := tasks[t].revision + 1)];
      }
    }

    /** Ends the delegation of a finished child and settles its grant. */
    method SettleChild(run: Id, target: RunStatus, charge: Amounts)
      requires run in delegations
      modifies `delegations, `ledgers
      ensures Tables() == Settle(old(Tables()), run, target, charge)
    {
      hide ChargedRow, SettledRow, EndDelegation;
      var d := delegations[run];
      delegations := delegations[run := EndDelegation(d, target)];
      if run in ledgers { ledgers := ledgers[run := ChargedRow(ledgers[run], charge)]; }
      if d.parent in ledgers { ledgers := ledgers[d.parent := SettledRow(ledgers[d.parent], d.grant, charge)]; }
    }

    /** Wakes the parent if it waits and none of its delegations is active. */
    method WakeIfLast(p: Id) returns (woken: bool)
      modifies `runs, `sessions
      ensures Tables() == WakeParent(old(Tables()), p) && woken == WaitsForNone(old(Tables()), p)
    {
      hide ActiveChildrenOf, WakeRun;
      woken := ActiveChildrenOf(delegations, p) == {} && p in runs && runs[p].status == WaitingForSubagent;
      if woken {
        runs := runs[p := WakeRun(runs[p])];
        if p in sessions {
          sessions := sessions[p := sessions[p].(status := SessionPaused, revision := sessions[p].revision + 1)];
        }
      }
    }

    /** The worker that holds the lease ends its run. A settlement that the ledger's CHECK constraints
        refuse rolls the whole transaction back. */
    method CompleteClaim(run: Id, worker: string, token: Id, now: int, target: RunStatus, ended: SessionStatus,
                         usage: Amounts, compaction: bool) returns (o: Outcome)
      modifies this
      ensures (Tables(), o) == CompleteStep(old(Tables()), run, worker, token, now, target, ended, usage, compaction)
    {
      hide EndRun, Settle, WakeParent, WaitsForNone, SettlementPasses, Charge, Terminal, Active;
      if !Terminal(target) { return Invalid; }
      if run !in runs || !HoldsLease(runs[run], worker, token) || runs[run].lease.value.expires <= now { return Refused(LeaseLost); }
      if Terminal(runs[run].status) { return Done; }
      if run !in sessions { return Refused(LeaseLost); }
      var child := run in delegations && Active(delegations[run].status);
      if child && !SettlementPasses(ledgers, run, delegations[run], Charge(usage, delegations[run].grant)) {
        return Invalid;
      }
      ghost var s := Tables();
      EndRunKeepsDelegations(s, run, target, ended, compaction);
      FinishRun(run, target, ended, compaction);
      if child {
        var d := delegations[run];
        SettleChild(run, target, Charge(usage, d.grant));
        var woken := WakeIfLast(d.parent);
        o := Released({run} + if woken then {d.parent} else {});
      } else {
        o := Released({run});
      }
    }

    // ----- claim_next_run and reconcile_coordination_waiters -----

    /** Takes the first claimable row in queue order. */
    method ClaimNextRun(worker: string, seconds: int, now: int, locked: set<Id>, token: Id) returns (o: Outcome)
      modifies `runs
      ensures (Tables(), o) == ClaimStep(old(Tables()), worker, seconds, now, locked, token)
    {
      if !ValidClaim(worker, seconds) { return Invalid; }
      ghost var s := Tables();
      hide Before, Free, ValidClaim, ClaimedRun;
      var rest := runs.Keys;
      var best: Option<Id> := None;
      ghost var seen: set<Id> := {};
      while rest != {}
        invariant seen + rest == runs.Keys && seen !! rest && Tables() == s
        invariant best.None? ==> forall r :: r in seen ==> !Free(s, now, locked, r)
        invariant best.Some? ==> best.value in seen && Least(s, FreeAmong(s, now, locked, seen), best.value)
        decreases rest
      {
        var r :| r in rest;
        var free := IsFree(now, locked, r);
        var ahead := false;
        if free && best.Some? { ahead := IsBefore(r, best.value); }
        LeastSoFar(s, now, locked, seen, r, best);
        if free && (best.None? || ahead) { best := Some(r); }
        rest, seen := rest - {r}, seen + {r};
      }
      NextIs(s, now, locked, best);
      match best
      case None => o := Done;
      case Some(r) =>
        runs := runs[r := ClaimedRun(runs[r], worker, token, now + seconds)];
        o := Claimed(r, worker, token);
    }

    method IsFree(now: int, locked: set<Id>, r: Id) returns (free: bool)
      ensures free <==> Free(Tables(), now, locked, r)
    {
      free := r in runs && r !in locked && Claimable(runs[r].status) && runs[r].task in tasks
              && (runs[r].lease.None? || runs[r].lease.value.expires <= now);
    }

    method IsBefore(a: Id, b: Id) returns (before: bool)
      requires a in runs && b in runs && runs[a].task in tasks && runs[b].task in tasks
      ensures before <==> Before(Tables(), a, b)
    {
      var x, y := tasks[runs[a].task].priority, tasks[runs[b].task].priority;
      before := x > y || (x == y && (runs[a].createdAt < runs[b].createdAt
                                     || (runs[a].createdAt == runs[b].createdAt && a.bits < b.bits)));
    }

    /** Wakes every unlocked waiting parent whose delegations have all ended. */
    method ReconcileWaiters(locked: set<Id>) returns (o: Outcome)
      modifies `runs, `sessions
      ensures (Tables(), o) == (Reconciled(old(Tables()), locked), Released(ReadyIds(old(Tables()), locked)))
    {
      var ready := set r | r in runs && r !in locked && runs[r].status == WaitingForSubagent
                           && ChildrenOf(delegations, r) != {} && ActiveChildrenOf(delegations, r) == {};
      assert ready == ReadyIds(Tables(), locked) by { hide ChildrenOf, ActiveChildrenOf; }
      hide ReadyIds;
      runs := map r | r in runs :: if r in ready then WakeRun(runs[r]) else runs[r];
      sessions := map r | r in sessions ::
        if r in ready && sessions[r].status == Suspended
        then sessions[r].(status := SessionPaused, revision := sessions[r].revision + 1)
        else sessions[r];
      o := Released(ready);
    }
  }
}
