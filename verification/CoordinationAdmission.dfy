/** Exactly when a delegation is accepted, in terms of true parent links and of the grants that are
    still active, not of the closure table and the ledger columns the service reads. */
module CoordinationAdmission {
  import opened Foundation
  import opened MapSums
  import opened RunStates
  import opened Forest
  import opened CoordinationPolicy
  import opened PolicyChains
  import opened Coordination
  import opened CoordinationInvariants
  import opened CoordinationTheorems
  import opened CoordinationLimits

  /** The checks of `delegate`, taken together. */
  lemma PassesEveryCheck(s: State, cat: Catalog, q: Request)
    ensures Admission(s, cat, q).Admit? <==>
      && q.run in s.runs && q.run in s.sessions && s.runs[q.run].task in s.tasks
      && HoldsLease(s.runs[q.run], q.worker, q.token) && Delegatable(s.runs[q.run].status)
      && EnabledFor(s.sessions[q.run].policy)
      && q.intent.target in StringSet(Get(s.sessions[q.run].policy, "allowed_agent_version_ids"))
      && WithKey(s.delegations, q.run, q.intent.key) == {}
      && WithFingerprint(s.delegations, q.run, FingerprintOf(q.intent)) == {}
      && q.intent.target in cat.versions && cat.versions[q.intent.target].published && TargetReady(cat, q.intent.target)
      && TreeRefusal(s, q.run, q.intent.target, s.sessions[q.run].policy).None?
      && ReserveRefusal(LedgerOf(s, q.run), q.intent.grant, s.sessions[q.run].policy).None?
      && PermissionsFor(s.sessions[q.run], cat, q.intent).Ok?
      && FreshIds(s, q)
  {
    hide TreeRefusal, ReserveRefusal, PermissionsFor, HoldsLease, Delegatable, FreshIds, StringSet, EnabledFor, Get,
         TargetReady, LedgerOf, FingerprintOf, WithKey, WithFingerprint;
  }

  lemma AdmittedIsMade(s: State, cat: Catalog, q: Request)
    requires Admission(s, cat, q).Admit?
    ensures Step(s, Delegate(q, cat)).1 == DelegationMade(q.run, q.childRun, q.worker, q.token)
  {
    hide Admission, WithDelegation;
  }

  // ----- the tree check -----

  /** Some run on the upward path, the run itself included, runs the target version. */
  ghost predicate RunsAbove(s: State, run: Id, target: string) {
    exists k: nat :: Up(ParentsOf(s.delegations), run, k).Some? && RunsVersion(s, Up(ParentsOf(s.delegations), run, k).value, target)
  }

  predicate RunsVersion(s: State, r: Id, target: string) { r in s.runs && s.runs[r].version == target }

  /** Some upward path from the run, and one link more for the child, is longer than the limit. */
  ghost predicate TooDeep(s: State, run: Id, limit: int) {
    exists k: nat :: Up(ParentsOf(s.delegations), run, k).Some? && k + 1 > limit
  }

  lemma StoredAncestor(s: State, run: Id, a: Id)
    requires Closed(s)
    ensures a in AncestorsOf(s.relations, run) + {run} <==> InSubtree(ParentsOf(s.delegations), a, run)
  {
    SubtreeIsStored(ParentsOf(s.delegations), s.relations, a, run);
    hide Exact, InSubtree;
    if Pair(a, run) in s.relations {
      assert Pair(a, run).descendant == run && Pair(a, run).ancestor == a;
    }
    if a in AncestorsOf(s.relations, run) {
      var k :| k in s.relations && k.descendant == run && k.ancestor == a;
      assert k == Pair(a, run);
    }
  }

  /** The cycle check over the closure table looks at the true upward path. */
  lemma CyclicExactly(s: State, run: Id, target: string)
    requires Closed(s)
    ensures Cyclic(s, run, target) <==> RunsAbove(s, run, target)
  {
    hide Closed, Up, ParentsOf, AncestorsOf;
    var p := ParentsOf(s.delegations);
    if Cyclic(s, run, target) {
      var a :| a in AncestorsOf(s.relations, run) + {run} && a in s.runs && s.runs[a].version == target;
      StoredAncestor(s, run, a);
      var k: nat :| Up(p, run, k) == Some(a);
      assert RunsVersion(s, Up(p, run, k).value, target);
    }
    if RunsAbove(s, run, target) {
      var k: nat :| Up(p, run, k).Some? && RunsVersion(s, Up(p, run, k).value, target);
      assert InSubtree(p, Up(p, run, k).value, run);
      StoredAncestor(s, run, Up(p, run, k).value);
    }
  }

  lemma StoredDepth(s: State, run: Id, k: nat)
    requires Closed(s) && k >= 1
    ensures k in Depths(s.relations, run) <==> Up(ParentsOf(s.delegations), run, k).Some?
  {
    var p := ParentsOf(s.delegations);
    hide Up, ParentsOf;
    if Up(p, run, k).Some? {
      assert Pair(Up(p, run, k).value, run).descendant == run;
    }
    if k in Depths(s.relations, run) {
      var row :| row in s.relations && row.descendant == run && s.relations[row].depth == k;
      assert row == Pair(row.ancestor, run);
    }
  }

  lemma DepthsArePositive(s: State, run: Id, k: nat)
    requires Closed(s) && k in Depths(s.relations, run)
    ensures k >= 1
  {
    var row :| row in s.relations && row.descendant == run && s.relations[row].depth == k;
    assert row == Pair(row.ancestor, run);
    hide Up;
  }

  /** The greatest stored depth is the length of the true upward path. */
  lemma DeepExactly(s: State, run: Id, limit: int)
    requires Closed(s)
    ensures MaxOf(Depths(s.relations, run)) + 1 > limit <==> TooDeep(s, run, limit)
  {
    var p, depths := ParentsOf(s.delegations), Depths(s.relations, run);
    var m := MaxOf(depths);
    UpZero(p, run);
    if m in depths { DepthsArePositive(s, run, m); StoredDepth(s, run, m); }
    if TooDeep(s, run, limit) {
      var k: nat :| Up(p, run, k).Some? && k + 1 > limit;
      if k >= 1 { StoredDepth(s, run, k); }
    }
    hide *;
    assert Up(p, run, 0).Some?;
    if m + 1 > limit && !TooDeep(s, run, limit) { DeepEnough(s, run, limit, m); }
  }

  lemma DeepEnough(s: State, run: Id, limit: int, k: nat)
    requires Up(ParentsOf(s.delegations), run, k).Some? && k + 1 > limit
    ensures TooDeep(s, run, limit)
  {
    hide Up, ParentsOf;
  }

  // ----- the budget check -----

  /** What a run may still grant: its limit covers what it and its settled children consumed, the
      grants of its active delegations, and one more grant. */
  ghost predicate CanGrant(s: State, run: Id, grant: Amounts, r: Resource)
    requires run in s.runs
  {
    var l := LedgerOf(s, run);
    Of(l.direct, r) + Of(l.childConsumed, r) + Sum(Grants(s.delegations, run, r)) + Of(grant, r) <= Of(l.limit, r)
  }

  lemma ReserveExactly(s: State, run: Id, grant: Amounts, policy: Doc)
    requires Rows(s) && Recounted(s) && run in s.runs
    requires |ChildrenOf(s.delegations, run)| < PositiveInt(Get(policy, "max_children"))
    ensures ReserveRefusal(LedgerOf(s, run), grant, policy).None? <==> forall r: Resource :: CanGrant(s, run, grant, r)
  {
    hide *;
    ParentLedgerExact(s, run);
    LedgerCounts(LedgerOf(s, run), s.delegations, run);
    forall r: Resource
      ensures CanGrant(s, run, grant, r) <==> Fits(LedgerOf(s, run), grant, r)
    {
      GrantFits(s, run, grant, r);
    }
    NoRefusal(LedgerOf(s, run), grant, policy);
  }

  predicate Fits(l: Ledger, grant: Amounts, r: Resource) { Committed(l, r) + Of(grant, r) <= Of(l.limit, r) }

  lemma LedgerCounts(l: Ledger, ds: Delegations, run: Id)
    requires LedgerExact(l, ds, run)
    ensures l.childCount == |ChildrenOf(ds, run)|
    ensures forall r: Resource :: Of(l.reserved, r) == Sum(Grants(ds, run, r))
  {
    hide Sum, Grants, ChildrenOf, WithinLimits, Of;
  }

  lemma GrantFits(s: State, run: Id, grant: Amounts, r: Resource)
    requires run in s.runs && Of(LedgerOf(s, run).reserved, r) == Sum(Grants(s.delegations, run, r))
    ensures CanGrant(s, run, grant, r) <==> Fits(LedgerOf(s, run), grant, r)
  {
    hide Sum, Grants, LedgerOf, Of;
  }

  lemma NoRefusal(l: Ledger, grant: Amounts, policy: Doc)
    requires l.childCount < PositiveInt(Get(policy, "max_children"))
    ensures ReserveRefusal(l, grant, policy).None? <==> forall r: Resource :: Fits(l, grant, r)
  {
    hide PositiveInt, Get;
    assert (forall r: Resource :: Fits(l, grant, r)) <==> Fits(l, grant, Tokens) && Fits(l, grant, Cost) && Fits(l, grant, ToolCalls);
  }

  // ----- all of it -----

  /** The tree check passes: no version repeats on the true upward path, the path leaves room for
      one more link, and children and active children are below their limits. */
  ghost predicate RoomInTree(s: State, run: Id, target: string, policy: Doc) {
    && !RunsAbove(s, run, target)
    && !TooDeep(s, run, PositiveInt(Get(policy, "max_depth")))
    && |ChildrenOf(s.delegations, run)| < PositiveInt(Get(policy, "max_children"))
    && |ActiveChildrenOf(s.delegations, run)| < PositiveInt(Get(policy, "max_parallelism"))
  }

  lemma TreeExactly(s: State, run: Id, target: string, policy: Doc)
    requires Closed(s)
    ensures TreeRefusal(s, run, target, policy).None? <==> RoomInTree(s, run, target, policy)
  {
    CyclicExactly(s, run, target);
    DeepExactly(s, run, PositiveInt(Get(policy, "max_depth")));
    hide Closed, Cyclic, RunsAbove, TooDeep, MaxOf, Depths, PositiveInt, Get, ChildrenOf, ActiveChildrenOf;
  }

  /** After any history `_validate_tree` names the first limit that true parent links exceed. */
  lemma TreeRefusalExactly(history: seq<Command>, run: Id, target: string, policy: Doc)
    ensures var s := After(history);
      TreeRefusal(s, run, target, policy) ==
        if RunsAbove(s, run, target) then Some(DelegationCycle)
        else if TooDeep(s, run, PositiveInt(Get(policy, "max_depth"))) then Some(DepthExceeded)
        else if |ChildrenOf(s.delegations, run)| >= PositiveInt(Get(policy, "max_children")) then Some(CountExceeded)
        else if |ActiveChildrenOf(s.delegations, run)| >= PositiveInt(Get(policy, "max_parallelism")) then Some(ParallelismExceeded)
        else None
  {
    Reachable(history);
    var s := After(history);
    assert Closed(s);
    CyclicExactly(s, run, target);
    DeepExactly(s, run, PositiveInt(Get(policy, "max_depth")));
    hide After, Inv, Closed, Cyclic, RunsAbove, TooDeep, MaxOf, Depths, PositiveInt, Get, ChildrenOf, ActiveChildrenOf;
  }

  /** The parent made no delegation with the same key or the same content before. */
  predicate NotYetAsked(s: State, q: Request) {
    forall c :: c in s.delegations && s.delegations[c].parent == q.run ==>
      s.delegations[c].key != q.intent.key && s.delegations[c].fingerprint != FingerprintOf(q.intent)
  }

  lemma NotYetAskedExactly(s: State, q: Request)
    ensures NotYetAsked(s, q) <==>
      WithKey(s.delegations, q.run, q.intent.key) == {} && WithFingerprint(s.delegations, q.run, FingerprintOf(q.intent)) == {}
  {
    forall c ensures c in WithKey(s.delegations, q.run, q.intent.key) <==>
      c in s.delegations && s.delegations[c].parent == q.run && s.delegations[c].key == q.intent.key {}
    forall c ensures c in WithFingerprint(s.delegations, q.run, FingerprintOf(q.intent)) <==>
      c in s.delegations && s.delegations[c].parent == q.run && s.delegations[c].fingerprint == FingerprintOf(q.intent) {}
    hide WithKey, WithFingerprint, FingerprintOf;
  }

  /** The request comes from the run's lease holder, and the run's policy lists the target. */
  predicate MayAsk(s: State, q: Request) {
    && q.run in s.runs && q.run in s.sessions
    && s.runs[q.run].lease.Some? && s.runs[q.run].lease.value.owner == q.worker && s.runs[q.run].lease.value.token == q.token
    && s.runs[q.run].status in {Planning, Running, WaitingForTool}
    && Get(s.sessions[q.run].policy, "version") == Int(1) && Get(s.sessions[q.run].policy, "enabled") == Bool(true)
    && q.intent.target in StringSet(Get(s.sessions[q.run].policy, "allowed_agent_version_ids"))
  }

  lemma MayAskExactly(s: State, q: Request)
    ensures MayAsk(s, q) <==>
      && q.run in s.runs && q.run in s.sessions
      && HoldsLease(s.runs[q.run], q.worker, q.token) && Delegatable(s.runs[q.run].status)
      && EnabledFor(s.sessions[q.run].policy)
      && q.intent.target in StringSet(Get(s.sessions[q.run].policy, "allowed_agent_version_ids"))
  {
    hide StringSet, Get;
  }

  /** What the run and its settled children used up. */
  ghost function Used(s: State, run: Id, r: Resource): (n: nat) {
    if run in s.ledgers then Of(s.ledgers[run].direct, r) + Of(s.ledgers[run].childConsumed, r) else 0
  }

  /** The budget a run lives on: the grant of the delegation that made it, or its own budget columns. */
  ghost predicate BudgetOf(s: State, run: Id, budget: Amounts)
    requires run in s.runs
  {
    if run in s.delegations then budget == s.delegations[run].grant else OwnBudget(s.runs[run], budget)
  }

  /** The run's budget covers what was used, the grants of its active delegations and one more grant. */
  ghost predicate MayGrant(s: State, run: Id, grant: Amounts)
    requires run in s.runs
  {
    exists budget :: BudgetOf(s, run, budget)
      && forall r: Resource :: Used(s, run, r) + Sum(Grants(s.delegations, run, r)) + Of(grant, r) <= Of(budget, r)
  }

  lemma GrantExactly(history: seq<Command>, run: Id, grant: Amounts)
    requires run in After(history).runs
    ensures var s := After(history); MayGrant(s, run, grant) <==> forall r: Resource :: CanGrant(s, run, grant, r)
  {
    hide *;
    LimitsAreBudgets(history, run);
    BudgetIs(After(history), run, LedgerOf(After(history), run).limit);
    GrantWithin(After(history), run, grant);
  }

  lemma BudgetIs(s: State, run: Id, budget: Amounts)
    requires run in s.runs
    ensures BudgetOf(s, run, budget) <==>
      (run in s.delegations ==> budget == s.delegations[run].grant) && (run !in s.delegations ==> OwnBudget(s.runs[run], budget))
  {
    hide OwnBudget;
  }

  lemma GrantWithin(s: State, run: Id, grant: Amounts)
    requires run in s.runs && BudgetOf(s, run, LedgerOf(s, run).limit)
    ensures MayGrant(s, run, grant) <==> forall r: Resource :: CanGrant(s, run, grant, r)
  {
    forall r: Resource
      ensures CanGrant(s, run, grant, r) <==>
        Used(s, run, r) + Sum(Grants(s.delegations, run, r)) + Of(grant, r) <= Of(LedgerOf(s, run).limit, r)
    {
      UsedIs(s, run, r);
      hide Sum, Grants, LedgerOf, Used;
    }
    if MayGrant(s, run, grant) {
      var budget :| BudgetOf(s, run, budget)
        && forall r: Resource :: Used(s, run, r) + Sum(Grants(s.delegations, run, r)) + Of(grant, r) <= Of(budget, r);
      SameBudget(s, run, budget, LedgerOf(s, run).limit);
    }
    hide CanGrant, Used, Sum, Grants, LedgerOf, BudgetOf, Of;
  }

  lemma UsedIs(s: State, run: Id, r: Resource)
    requires run in s.runs
    ensures Used(s, run, r) == Of(LedgerOf(s, run).direct, r) + Of(LedgerOf(s, run).childConsumed, r)
  {}

  lemma SameBudget(s: State, run: Id, a: Amounts, b: Amounts)
    requires run in s.runs && BudgetOf(s, run, a) && BudgetOf(s, run, b)
    ensures a == b
  {}

  /** The target is a published version and the current one of a ready agent. */
  predicate Ready(cat: Catalog, target: string) {
    && target in cat.versions && cat.versions[target].published && cat.versions[target].agent in cat.agents
    && cat.agents[cat.versions[target].agent].currentVersion == target && cat.agents[cat.versions[target].agent].ready
  }

  /** The target version keeps to the session's endpoint and model, and the restriction on secrets can
      be read. */
  predicate Permitted(session: Session, cat: Catalog, intent: Intent)
    requires intent.target in cat.versions
  {
    && Inherits(session.endpoint, cat.versions[intent.target].endpoint) && Inherits(session.model, cat.versions[intent.target].model)
    && ("secrets" in intent.restrictions ==> Iterable(intent.restrictions["secrets"]))
  }

  lemma PermittedExactly(session: Session, cat: Catalog, intent: Intent)
    requires intent.target in cat.versions
    ensures PermissionsFor(session, cat, intent).Ok? <==> Permitted(session, cat, intent)
  {
    var v := cat.versions[intent.target];
    PermissionsExist(session.tools, session.endpoint, session.model, v.toolPolicy["model_endpoint_id" := v.endpoint]["model" := v.model],
                     intent.restrictions, session.policy);
    hide PermissionSnapshot, Inherits, Iterable;
  }

  /** None of the three ids is in use. */
  predicate Unused(s: State, q: Request) {
    q.childRun !in s.runs && q.childTask !in s.tasks && forall c :: c in s.delegations ==> s.delegations[c].id != q.delegation
  }

  /** After any history a delegation is accepted if and only if the caller may ask for this target and
      has not asked before, the target is published, current and ready, the true tree has room for
      one more child, the run's budget covers consumption, active grants and the new grant, the
      target's endpoint, model and secrets are permitted, and the new ids are unused. */
  lemma AdmitsExactly(history: seq<Command>, cat: Catalog, q: Request)
    ensures var s := After(history);
      Step(s, Delegate(q, cat)).1.DelegationMade? <==>
        && MayAsk(s, q) && NotYetAsked(s, q) && Ready(cat, q.intent.target)
        && RoomInTree(s, q.run, q.intent.target, s.sessions[q.run].policy)
        && MayGrant(s, q.run, q.intent.grant) && Permitted(s.sessions[q.run], cat, q.intent) && Unused(s, q)
  {
    hide *;
    Reachable(history);
    var s := After(history);
    AdmitsExactlyIn(s, cat, q);
    MayAskMeans(s, q);
    if q.run in s.runs { GrantExactly(history, q.run, q.intent.grant); }
    if q.run in s.sessions && q.intent.target in cat.versions { PermittedExactly(s.sessions[q.run], cat, q.intent); }
    ReadyMeans(cat, q.intent.target);
    UnusedMeans(s, q);
  }

  lemma MayAskMeans(s: State, q: Request)
    ensures MayAsk(s, q) ==> q.run in s.runs && q.run in s.sessions
  {
    hide StringSet, Get;
  }

  lemma ReadyMeans(cat: Catalog, target: string)
    ensures Ready(cat, target) <==> target in cat.versions && cat.versions[target].published && TargetReady(cat, target)
  {}

  lemma UnusedMeans(s: State, q: Request)
    ensures Unused(s, q) <==> FreshIds(s, q)
  {}

  lemma AdmitsExactlyIn(s: State, cat: Catalog, q: Request)
    requires Inv(s)
    ensures Step(s, Delegate(q, cat)).1.DelegationMade? <==>
        && MayAsk(s, q) && NotYetAsked(s, q)
        && q.intent.target in cat.versions && cat.versions[q.intent.target].published && TargetReady(cat, q.intent.target)
        && RoomInTree(s, q.run, q.intent.target, s.sessions[q.run].policy)
        && (forall r: Resource :: CanGrant(s, q.run, q.intent.grant, r))
        && PermissionsFor(s.sessions[q.run], cat, q.intent).Ok?
        && FreshIds(s, q)
  {
    PassesEveryCheck(s, cat, q);
    MadeIffAdmitted(s, cat, q);
    NotYetAskedExactly(s, q);
    MayAskExactly(s, q);
    assert Rows(s) && Closed(s) && Recounted(s);
    assert q.run in s.runs ==> s.runs[q.run].task in s.tasks;
    if MayAsk(s, q) {
      var policy := s.sessions[q.run].policy;
      TreeExactly(s, q.run, q.intent.target, policy);
      if RoomInTree(s, q.run, q.intent.target, policy) {
        RoomForChild(s, q.run, q.intent.target, policy);
        ReserveExactly(s, q.run, q.intent.grant, policy);
      }
    }
    hide Inv, Step, Admission, MayAsk, NotYetAsked, RoomInTree, CanGrant, TargetReady, FreshIds, PermissionsFor, ReserveRefusal,
         TreeRefusal, HoldsLease, Delegatable, EnabledFor, StringSet, Get, FingerprintOf, WithKey, WithFingerprint, LedgerOf;
  }

  lemma RoomForChild(s: State, run: Id, target: string, policy: Doc)
    requires RoomInTree(s, run, target, policy)
    ensures |ChildrenOf(s.delegations, run)| < PositiveInt(Get(policy, "max_children"))
  {
    hide RunsAbove, TooDeep, ChildrenOf, ActiveChildrenOf, PositiveInt;
  }

  lemma MadeIffAdmitted(s: State, cat: Catalog, q: Request)
    ensures Step(s, Delegate(q, cat)).1.DelegationMade? <==> Admission(s, cat, q).Admit?
  {
    hide Admission, WithDelegation;
  }
}
