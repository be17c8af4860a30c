/** What a delegation call answers and writes: every refusal names a reason that holds, a call that is
    sent again is replayed, and an accepted one writes exactly its rows. */
module CoordinationAnswers {
  import opened Foundation
  import opened RunStates
  import opened Forest
  import opened CoordinationPolicy
  import opened PolicyChains
  import opened Coordination
  import opened CoordinationInvariants
  import opened CoordinationCancel
  import opened CoordinationSettlement
  import opened CoordinationTheorems
  import opened CoordinationHistories
  import opened CoordinationLimits
  import opened CoordinationAdmission

  // ----- the duplicate guard -----

  const BLANKS: set<char> := {' ', '\t', '\n', '\r'}

  /** `Strip` cuts exactly the blank characters at both ends off. */
  lemma {:induction false} StripExactly(text: string) returns (i: nat, j: nat)
    ensures i <= j <= |text| && Strip(text) == text[i..j]
    ensures forall k :: 0 <= k < i || j <= k < |text| ==> text[k] in BLANKS
    ensures i < j ==> text[i] !in BLANKS && text[j - 1] !in BLANKS
    decreases |text|
  {
    i, j := 0, |text|;
    if text != "" && Blank(text[0]) {
      i, j := StripExactly(text[1..]);
      SliceOfRest(text, i, j);
      i, j := i + 1, j + 1;
    } else if text != "" && Blank(text[|text| - 1]) {
      i, j := StripExactly(text[..|text| - 1]);
      assert text[..|text| - 1][i..j] == text[i..j];
    } else {
      assert text[..] == text;
    }
  }

  lemma SliceOfRest(text: string, i: nat, j: nat)
    requires text != "" && i <= j <= |text| - 1
    ensures text[1..][i..j] == text[i + 1..j + 1]
    ensures forall k :: 0 <= k < |text| - 1 ==> text[1..][k] == text[k + 1]
  {}

  /** Two intents are duplicates exactly when they agree in everything but key, grant, the order and
      repetition of references, and blanks around the objective. */
  lemma DuplicatesExactly(a: Intent, b: Intent)
    ensures FingerprintOf(a) == FingerprintOf(b) <==>
      && a.target == b.target && Strip(a.objective) == Strip(b.objective) && a.acceptance == b.acceptance
      && (forall ref :: ref in a.refs <==> ref in b.refs) && a.restrictions == b.restrictions && a.mode == b.mode
  {
    RefsExactly(a);
    RefsExactly(b);
    hide Strip;
  }

  lemma RefsExactly(a: Intent)
    ensures forall ref :: ref in FingerprintOf(a).refs <==> ref in a.refs
  {
    hide Strip;
  }

  // ----- refusals -----

  /** What makes `delegate` refuse, in terms of the rows and of true parent links. */
  ghost predicate DelegateRefusable(s: State, cat: Catalog, q: Request, why: Refusal) {
    match why
    case RunNotFound => q.run !in s.runs
    case LeaseLost => q.run in s.runs && !HoldsLease(s.runs[q.run], q.worker, q.token)
    case NotDelegatable => q.run in s.runs && s.runs[q.run].status !in {Planning, Running, WaitingForTool}
    case SessionRequired => q.run !in s.sessions
    case DuplicateDelegation => exists c :: c in s.delegations && s.delegations[c].parent == q.run && s.delegations[c].fingerprint == FingerprintOf(q.intent)
    case VersionNotFound => q.intent.target !in cat.versions || !cat.versions[q.intent.target].published
    case TargetNotReady => !Ready(cat, q.intent.target)
    case IdCollision => !Unused(s, q)
    case _ => q.run in s.runs && q.run in s.sessions && PolicyRefusable(s, cat, q, why)
  }

  ghost predicate PolicyRefusable(s: State, cat: Catalog, q: Request, why: Refusal)
    requires q.run in s.runs && q.run in s.sessions
  {
    var policy := s.sessions[q.run].policy;
    match why
    case CoordinationDisabled => Get(policy, "version") != Int(1) || Get(policy, "enabled") != Bool(true)
    case TargetDenied => q.intent.target !in StringSet(Get(policy, "allowed_agent_version_ids"))
    case DelegationCycle => RunsAbove(s, q.run, q.intent.target)
    case DepthExceeded => TooDeep(s, q.run, PositiveInt(Get(policy, "max_depth")))
    case CountExceeded => |ChildrenOf(s.delegations, q.run)| >= PositiveInt(Get(policy, "max_children"))
    case ParallelismExceeded => |ActiveChildrenOf(s.delegations, q.run)| >= PositiveInt(Get(policy, "max_parallelism"))
    case BudgetExceeded(r) => !CanGrant(s, q.run, q.intent.grant, r)
    case PermissionRefused(_) => q.intent.target in cat.versions && !Permitted(s.sessions[q.run], cat, q.intent)
    case _ => false
  }

  lemma RefusedReason(s: State, cat: Catalog, q: Request)
    requires Admission(s, cat, q).Refuse?
    ensures var why := Admission(s, cat, q).why;
      || (q.run in s.runs && q.run in s.sessions && AdmissionUnderPolicy(s, cat, q, s.sessions[q.run]) == Refuse(why))
      || (why in {RunNotFound, LeaseLost, NotDelegatable, SessionRequired} && DelegateRefusable(s, cat, q, why))
  {
    hide AdmissionUnderPolicy, WithKey, HoldsLease, PolicyRefusable;
  }

  /** The reason of a refusal under the policy, as the checks see it. */
  ghost predicate CheckedReason(s: State, cat: Catalog, q: Request, why: Refusal)
    requires q.run in s.runs && q.run in s.sessions
  {
    var policy, target := s.sessions[q.run].policy, q.intent.target;
    || (why == CoordinationDisabled && !EnabledFor(policy))
    || (why == TargetDenied && target !in StringSet(Get(policy, "allowed_agent_version_ids")))
    || (why == DuplicateDelegation && WithFingerprint(s.delegations, q.run, FingerprintOf(q.intent)) != {})
    || (why == VersionNotFound && (target !in cat.versions || !cat.versions[target].published))
    || (why == TargetNotReady && !TargetReady(cat, target))
    || TreeRefusal(s, q.run, target, policy) == Some(why)
    || (why == TaskNotFound && s.runs[q.run].task !in s.tasks)
    || ReserveRefusal(LedgerOf(s, q.run), q.intent.grant, policy) == Some(why)
    || (why.PermissionRefused? && target in cat.versions && PermissionsFor(s.sessions[q.run], cat, q.intent).Err?)
    || (why == IdCollision && !FreshIds(s, q))
  }

  lemma TreeRefusals(s: State, run: Id, target: string, policy: Doc)
    ensures TreeRefusal(s, run, target, policy) in
      {None, Some(DelegationCycle), Some(DepthExceeded), Some(CountExceeded), Some(ParallelismExceeded)}
  {
    hide Cyclic, MaxOf, Depths, ChildrenOf, ActiveChildrenOf, PositiveInt, Get;
  }

  lemma ReserveRefusals(l: Ledger, grant: Amounts, policy: Doc)
    ensures ReserveRefusal(l, grant, policy).Some? ==>
      ReserveRefusal(l, grant, policy).value == CountExceeded || ReserveRefusal(l, grant, policy).value.BudgetExceeded?
  {
    hide PositiveInt, Get, Committed;
  }

  lemma CheckedRefusal(s: State, cat: Catalog, q: Request)
    requires q.run in s.runs && q.run in s.sessions && AdmissionUnderPolicy(s, cat, q, s.sessions[q.run]).Refuse?
    ensures CheckedReason(s, cat, q, AdmissionUnderPolicy(s, cat, q, s.sessions[q.run]).why)
  {
    hide TreeRefusal, ReserveRefusal, PermissionsFor, FreshIds, StringSet, EnabledFor, Get, TargetReady, LedgerOf, FingerprintOf,
         WithFingerprint;
  }

  /** A budget refusal names a resource that is short, a count refusal a full session. */
  lemma ReserveReason(s: State, q: Request, policy: Doc, why: Refusal)
    requires Rows(s) && Recounted(s) && q.run in s.runs
    requires ReserveRefusal(LedgerOf(s, q.run), q.intent.grant, policy) == Some(why)
    ensures match why
      case CountExceeded => |ChildrenOf(s.delegations, q.run)| >= PositiveInt(Get(policy, "max_children"))
      case BudgetExceeded(r) => !CanGrant(s, q.run, q.intent.grant, r)
      case _ => false
  {
    hide *;
    ParentLedgerExact(s, q.run);
    LedgerCounts(LedgerOf(s, q.run), s.delegations, q.run);
    forall r: Resource ensures CanGrant(s, q.run, q.intent.grant, r) <==> Fits(LedgerOf(s, q.run), q.intent.grant, r) {
      GrantFits(s, q.run, q.intent.grant, r);
    }
    ShortResource(LedgerOf(s, q.run), q.intent.grant, policy, why);
  }

  lemma ShortResource(l: Ledger, grant: Amounts, policy: Doc, why: Refusal)
    requires ReserveRefusal(l, grant, policy) == Some(why)
    ensures match why
      case CountExceeded => l.childCount >= PositiveInt(Get(policy, "max_children"))
      case BudgetExceeded(r) => !Fits(l, grant, r)
      case _ => false
  {
    hide PositiveInt, Get;
  }

  /** A tree refusal names a limit that true parent links exceed. */
  lemma TreeReason(history: seq<Command>, run: Id, target: string, policy: Doc, why: Refusal)
    requires TreeRefusal(After(history), run, target, policy) == Some(why)
    ensures var s := After(history);
      match why
      case DelegationCycle => RunsAbove(s, run, target)
      case DepthExceeded => TooDeep(s, run, PositiveInt(Get(policy, "max_depth")))
      case CountExceeded => |ChildrenOf(s.delegations, run)| >= PositiveInt(Get(policy, "max_children"))
      case ParallelismExceeded => |ActiveChildrenOf(s.delegations, run)| >= PositiveInt(Get(policy, "max_parallelism"))
      case _ => false
  {
    TreeRefusalExactly(history, run, target, policy);
    hide After, RunsAbove, TooDeep, ChildrenOf, ActiveChildrenOf, PositiveInt, Get, TreeRefusal;
  }

  /** The reasons the checks see are the reasons of the rows. */
  lemma ReasonHolds(s: State, cat: Catalog, q: Request, why: Refusal)
    requires q.run in s.runs && q.run in s.sessions && s.runs[q.run].task in s.tasks && CheckedReason(s, cat, q, why)
    requires TreeRefusal(s, q.run, q.intent.target, s.sessions[q.run].policy) == Some(why) ==> PolicyRefusable(s, cat, q, why)
    requires ReserveRefusal(LedgerOf(s, q.run), q.intent.grant, s.sessions[q.run].policy) == Some(why) ==> PolicyRefusable(s, cat, q, why)
    requires PolicyRefusable(s, cat, q, why) ==> ByPolicy(why)
    requires q.intent.target in cat.versions ==>
      (PermissionsFor(s.sessions[q.run], cat, q.intent).Ok? <==> Permitted(s.sessions[q.run], cat, q.intent))
    ensures DelegateRefusable(s, cat, q, why)
  {
    hide *;
    ReadyMeans(cat, q.intent.target);
    UnusedMeans(s, q);
    DuplicateMeans(s, q.run, FingerprintOf(q.intent));
    if PolicyRefusable(s, cat, q, why) {
      RefusableByPolicy(s, cat, q, why);
    } else {
      RefusableByRows(s, cat, q, why);
    }
  }

  lemma RefusableByPolicy(s: State, cat: Catalog, q: Request, why: Refusal)
    requires q.run in s.runs && q.run in s.sessions && PolicyRefusable(s, cat, q, why) && ByPolicy(why)
    ensures DelegateRefusable(s, cat, q, why)
  {
    hide PolicyRefusable;
  }

  lemma RefusableByRows(s: State, cat: Catalog, q: Request, why: Refusal)
    requires q.run in s.runs && q.run in s.sessions && s.runs[q.run].task in s.tasks && CheckedReason(s, cat, q, why)
    requires TreeRefusal(s, q.run, q.intent.target, s.sessions[q.run].policy) != Some(why)
    requires ReserveRefusal(LedgerOf(s, q.run), q.intent.grant, s.sessions[q.run].policy) != Some(why)
    requires Ready(cat, q.intent.target) <==>
      q.intent.target in cat.versions && cat.versions[q.intent.target].published && TargetReady(cat, q.intent.target)
    requires Unused(s, q) <==> FreshIds(s, q)
    requires WithFingerprint(s.delegations, q.run, FingerprintOf(q.intent)) != {} ==>
      exists c :: c in s.delegations && s.delegations[c].parent == q.run && s.delegations[c].fingerprint == FingerprintOf(q.intent)
    requires q.intent.target in cat.versions ==>
      (PermissionsFor(s.sessions[q.run], cat, q.intent).Ok? <==> Permitted(s.sessions[q.run], cat, q.intent))
    ensures DelegateRefusable(s, cat, q, why)
  {
    hide TreeRefusal, ReserveRefusal, LedgerOf, PermissionsFor, Permitted, FreshIds, Unused, StringSet, Get, TargetReady, Ready,
         FingerprintOf, CanGrant, RunsAbove, TooDeep, ChildrenOf, ActiveChildrenOf, PositiveInt, WithFingerprint;
  }

  lemma DuplicateMeans(s: State, run: Id, f: Fingerprint)
    ensures WithFingerprint(s.delegations, run, f) != {} ==>
      exists c :: c in s.delegations && s.delegations[c].parent == run && s.delegations[c].fingerprint == f
  {
    if c :| c in WithFingerprint(s.delegations, run, f) {
      assert c in s.delegations && s.delegations[c].parent == run && s.delegations[c].fingerprint == f;
    }
  }

  /** Refusals that speak about the frozen policy, the tree or the budget. */
  predicate ByPolicy(why: Refusal) {
    why.CoordinationDisabled? || why.TargetDenied? || why.DelegationCycle? || why.DepthExceeded? || why.CountExceeded?
    || why.ParallelismExceeded? || why.BudgetExceeded? || why.PermissionRefused?
  }

  lemma TaskThere(s: State, run: Id)
    requires Rows(s) && run in s.runs
    ensures s.runs[run].task in s.tasks
  {
    hide DelegationRows, RelationRows;
  }

  lemma Distinguished(s: State, cat: Catalog, q: Request, why: Refusal)
    requires q.run in s.runs && q.run in s.sessions
    ensures PolicyRefusable(s, cat, q, why) ==> ByPolicy(why)
  {
    hide TooDeep, RunsAbove, CanGrant, ChildrenOf, ActiveChildrenOf, PositiveInt, Get, StringSet, Permitted;
  }

  lemma RefusableByTree(s: State, cat: Catalog, q: Request, why: Refusal)
    requires q.run in s.runs && q.run in s.sessions
    requires var policy := s.sessions[q.run].policy;
      match why
      case DelegationCycle => RunsAbove(s, q.run, q.intent.target)
      case DepthExceeded => TooDeep(s, q.run, PositiveInt(Get(policy, "max_depth")))
      case CountExceeded => |ChildrenOf(s.delegations, q.run)| >= PositiveInt(Get(policy, "max_children"))
      case ParallelismExceeded => |ActiveChildrenOf(s.delegations, q.run)| >= PositiveInt(Get(policy, "max_parallelism"))
      case BudgetExceeded(r) => !CanGrant(s, q.run, q.intent.grant, r)
      case _ => false
    ensures PolicyRefusable(s, cat, q, why)
  {
    hide TooDeep, RunsAbove, CanGrant, ChildrenOf, ActiveChildrenOf, PositiveInt, Get, StringSet, Permitted;
  }

  lemma PolicyReason(history: seq<Command>, cat: Catalog, q: Request, why: Refusal)
    requires var s := After(history); q.run in s.runs && q.run in s.sessions && CheckedReason(s, cat, q, why)
    requires !why.RunNotFound? && !why.LeaseLost? && !why.NotDelegatable? && !why.SessionRequired?
    ensures DelegateRefusable(After(history), cat, q, why)
  {
    hide *;
    Reachable(history);
    var s := After(history);
    InvParts(s);
    TaskThere(s, q.run);
    var policy := s.sessions[q.run].policy;
    if TreeRefusal(s, q.run, q.intent.target, policy) == Some(why) {
      TreeReason(history, q.run, q.intent.target, policy, why);
      RefusableByTree(s, cat, q, why);
    }
    if ReserveRefusal(LedgerOf(s, q.run), q.intent.grant, policy) == Some(why) {
      ReserveReason(s, q, policy, why);
      RefusableByTree(s, cat, q, why);
    }
    if q.intent.target in cat.versions { PermittedExactly(s.sessions[q.run], cat, q.intent); }
    Distinguished(s, cat, q, why);
    ReasonHolds(s, cat, q, why);
  }

  /** After any history a refused delegation changes nothing, and the reason it names holds of the rows
      and of the true tree. */
  lemma RefusalsHold(history: seq<Command>, cat: Catalog, q: Request)
    requires Step(After(history), Delegate(q, cat)).1.Refused?
    ensures var s := After(history);
      var (s', o) := Step(s, Delegate(q, cat));
      s' == s && DelegateRefusable(s, cat, q, o.why)
  {
    hide *;
    var s := After(history);
    RefusedStep(s, cat, q);
    RefusedReason(s, cat, q);
    var why := Admission(s, cat, q).why;
    if q.run in s.runs && q.run in s.sessions && AdmissionUnderPolicy(s, cat, q, s.sessions[q.run]) == Refuse(why) {
      CheckedRefusal(s, cat, q);
      CheckedApart(s, cat, q, why);
      PolicyReason(history, cat, q, why);
    }
  }

  lemma CheckedApart(s: State, cat: Catalog, q: Request, why: Refusal)
    requires q.run in s.runs && q.run in s.sessions && CheckedReason(s, cat, q, why)
    ensures !why.RunNotFound? && !why.LeaseLost? && !why.NotDelegatable? && !why.SessionRequired?
  {
    TreeRefusals(s, q.run, q.intent.target, s.sessions[q.run].policy);
    ReserveRefusals(LedgerOf(s, q.run), q.intent.grant, s.sessions[q.run].policy);
    hide TreeRefusal, ReserveRefusal, PermissionsFor, FreshIds, StringSet, EnabledFor, Get, TargetReady, LedgerOf, FingerprintOf,
         WithFingerprint;
  }

  lemma RefusedStep(s: State, cat: Catalog, q: Request)
    requires Step(s, Delegate(q, cat)).1.Refused?
    ensures Admission(s, cat, q) == Refuse(Step(s, Delegate(q, cat)).1.why) && Step(s, Delegate(q, cat)).0 == s
  {
    hide Admission, WithDelegation;
  }

  // ----- replays -----

  /** A key that already names a delegation of the run is never used twice: the lease holder of a run
      that may delegate is answered with the child that key made, whatever the call says otherwise,
      and nothing changes. */
  lemma DelegationReplays(history: seq<Command>, cat: Catalog, q: Request, c: Id)
    requires var s := After(history);
      && q.run in s.runs && HoldsLease(s.runs[q.run], q.worker, q.token) && s.runs[q.run].status in {Planning, Running, WaitingForTool}
      && c in s.delegations && s.delegations[c].parent == q.run && s.delegations[c].key == q.intent.key
    ensures Step(After(history), Delegate(q, cat)) == (After(history), Replayed(c))
  {
    hide *;
    Reachable(history);
    KeyedChild(After(history), q.run, q.intent.key, c);
    ReplayStep(After(history), cat, q, c);
  }

  lemma KeyedChild(s: State, run: Id, key: string, c: Id)
    requires Inv(s) && c in s.delegations && s.delegations[c].parent == run && s.delegations[c].key == key
    ensures WithKey(s.delegations, run, key) != {} && Existing(WithKey(s.delegations, run, key)) == c
  {
    assert Unique(s) by { hide Rows, Closed, Recounted, Accounted, Live, Leased, Lineage, Unique, Fanout, Authority; }
    hide Inv;
    assert c in WithKey(s.delegations, run, key);
    var other := Existing(WithKey(s.delegations, run, key));
    assert other in s.delegations && s.delegations[other].parent == run && s.delegations[other].key == key;
  }

  lemma ReplayStep(s: State, cat: Catalog, q: Request, c: Id)
    requires q.run in s.runs && HoldsLease(s.runs[q.run], q.worker, q.token) && s.runs[q.run].status in {Planning, Running, WaitingForTool}
    requires WithKey(s.delegations, q.run, q.intent.key) != {} && Existing(WithKey(s.delegations, q.run, q.intent.key)) == c
    ensures Step(s, Delegate(q, cat)) == (s, Replayed(c))
  {
    hide AdmissionUnderPolicy, WithDelegation, WithKey, HoldsLease;
  }

  lemma StepKeepsDefinitions(s: State, c: Command)
    requires Inv(s)
    ensures SameDefinitionsUpTo(s.delegations, Step(s, c).0.delegations)
  {
    hide *;
    InvParts(s);
    if c.Delegate? {
      StepIsDelegate(s, c);
      DelegateOutcome(s, c.catalog, c.request);
      DelegatedDefinitions(s, DelegateStep(s, c.catalog, c.request).0, c.request);
    } else if c.CancelTree? {
      StepIsCancel(s, c);
      CancelDefinitions(s, c.root, c.expectedRevision);
      DefinitionsUpTo(s.delegations, Step(s, c).0.delegations);
    } else if c.Complete? {
      StepIsComplete(s, c);
      CompleteEnds(s, c.run, c.worker, c.token, c.now, c.target, c.ended, c.usage, c.compaction);
      DefinitionsUpTo(s.delegations, Step(s, c).0.delegations);
    } else {
      OtherwisePlain(c);
      QuietTables(s, c);
      SameIsSame(s.delegations);
      DefinitionsUpTo(s.delegations, Step(s, c).0.delegations);
    }
  }

  /** Delegations keep who made them, under which key, and what they grant. */
  ghost predicate SameDefinitionsUpTo(ds: Delegations, ds': Delegations) {
    forall c :: c in ds ==>
      c in ds' && ds'[c].parent == ds[c].parent && ds'[c].key == ds[c].key && ds'[c].grant == ds[c].grant && ds'[c].policy == ds[c].policy
  }

  lemma DefinitionsUpTo(ds: Delegations, ds': Delegations)
    requires SameDefinitions(ds, ds')
    ensures SameDefinitionsUpTo(ds, ds')
  {}

  lemma DelegatedDefinitions(s: State, s': State, q: Request)
    requires s' == s || DelegateWrote(s, s', q)
    ensures SameDefinitionsUpTo(s.delegations, s'.delegations)
  {
    hide HoldsLease, Delegatable, ChildRun, Active;
  }

  lemma {:induction false} DefinitionsForGood(history: seq<Command>, later: seq<Command>)
    ensures SameDefinitionsUpTo(After(history).delegations, After(history + later).delegations)
    decreases |later|
  {
    if later == [] {
      assert history + later == history;
      hide After;
    } else {
      hide *;
      var n := |later| - 1;
      assert history + later == (history + later[..n]) + [later[n]];
      DefinitionsForGood(history, later[..n]);
      AfterStep(history + later[..n], later[n]);
      Reachable(history + later[..n]);
      StepKeepsDefinitions(After(history + later[..n]), later[n]);
      DefinitionsTwice(After(history).delegations, After(history + later[..n]).delegations, After(history + later).delegations);
    }
  }

  lemma DefinitionsTwice(a: Delegations, b: Delegations, c: Delegations)
    requires SameDefinitionsUpTo(a, b) && SameDefinitionsUpTo(b, c)
    ensures SameDefinitionsUpTo(a, c)
  {}

  lemma DefinedIn(ds: Delegations, ds': Delegations, c: Id)
    requires SameDefinitionsUpTo(ds, ds') && c in ds
    ensures c in ds' && ds'[c].parent == ds[c].parent && ds'[c].key == ds[c].key
  {}

  /** A delegation that was made and is asked for again under its key, any steps later and by whoever
      then holds the run's lease, is answered with the child that was made. */
  lemma ResentDelegationIsReplayed(history: seq<Command>, cat: Catalog, q: Request, later: seq<Command>, cat': Catalog, again: Request)
    requires Step(After(history), Delegate(q, cat)).1.DelegationMade? && again.run == q.run && again.intent.key == q.intent.key
    requires var s := After(history + [Delegate(q, cat)] + later);
      q.run in s.runs && HoldsLease(s.runs[q.run], again.worker, again.token) && s.runs[q.run].status in {Planning, Running, WaitingForTool}
    ensures var s := After(history + [Delegate(q, cat)] + later);
      Step(s, Delegate(again, cat')) == (s, Replayed(q.childRun))
  {
    hide *;
    var s := After(history);
    DelegationWritesExactly(s, cat, q);
    AfterStep(history, Delegate(q, cat));
    DefinitionsForGood(history + [Delegate(q, cat)], later);
    DefinedIn(After(history + [Delegate(q, cat)]).delegations, After(history + [Delegate(q, cat)] + later).delegations, q.childRun);
    AcceptedKey(After(history + [Delegate(q, cat)]).delegations[q.childRun], q, s.sessions[q.run]);
    DelegationReplays(history + [Delegate(q, cat)] + later, cat', again, q.childRun);
  }

  lemma AcceptedKey(d: Delegation, q: Request, session: Session)
    requires DelegationAccepted(d, q, session)
    ensures d.parent == q.run && d.key == q.intent.key
  {
    hide FingerprintOf;
  }

  // ----- what an accepted delegation writes -----

  /** The child's run: pending and unleased, of the target version, with the grant as its budget. */
  predicate ChildQueued(run: Run, q: Request) {
    && run.status == Pending && run.lease == None && run.version == q.intent.target && run.task == q.childTask && run.revision == 1
    && run.createdAt == q.now && OwnBudget(run, q.intent.grant)
  }

  /** The delegation row: accepted, under the parent's frozen policy. */
  predicate DelegationAccepted(d: Delegation, q: Request, session: Session) {
    && d.id == q.delegation && d.parent == q.run && d.target == q.intent.target && d.grant == q.intent.grant && d.key == q.intent.key
    && d.policy == session.policy && d.status == DelegationStatus.Accepted && d.revision == 1 && d.fingerprint == FingerprintOf(q.intent)
  }

  /** The parent's ledger reserves the grant and counts one more child; the child's opens with the grant
      as limit. */
  ghost predicate GrantReserved(s: State, s': State, q: Request)
    requires q.run in s.runs
  {
    && s'.ledgers.Keys == s.ledgers.Keys + {q.run, q.childRun}
    && (forall r :: r in s.ledgers && r != q.run && r != q.childRun ==> s'.ledgers[r] == s.ledgers[r])
    && s'.ledgers[q.childRun] == Ledger(q.intent.grant, Amounts(0, 0, 0), Amounts(0, 0, 0), Amounts(0, 0, 0), 0, 1)
    && var l, l' := LedgerOf(s, q.run), s'.ledgers[q.run];
       && l'.limit == l.limit && l'.direct == l.direct && l'.childConsumed == l.childConsumed
       && l'.childCount == l.childCount + 1 && l'.revision == l.revision + 1
       && l'.reserved == Amounts(l.reserved.tokens + q.intent.grant.tokens, l.reserved.cost + q.intent.grant.cost,
                                 l.reserved.tools + q.intent.grant.tools)
  }

  /** An accepted delegation adds the child's run, its task with the parent's priority, its delegation row
      and its ledger, reserves the grant with the parent, and changes no other row; sessions, calls,
      steps and approvals stay. The permissions it stores are those the session, the target version and
      the restriction leave. */
  lemma DelegationWritesExactly(s: State, cat: Catalog, q: Request)
    requires Step(s, Delegate(q, cat)).1.DelegationMade?
    ensures var (s', o) := Step(s, Delegate(q, cat));
      && o == DelegationMade(q.run, q.childRun, q.worker, q.token)
      && q.run in s.runs && q.run in s.sessions && s.runs[q.run].task in s.tasks && q.run != q.childRun
      && q.childRun in s'.runs && ChildQueued(s'.runs[q.childRun], q) && s'.runs == s.runs[q.childRun := s'.runs[q.childRun]]
      && s'.tasks == s.tasks[q.childTask := Task(TaskRunning, s.tasks[s.runs[q.run].task].priority, 1)]
      && q.childRun in s'.delegations && DelegationAccepted(s'.delegations[q.childRun], q, s.sessions[q.run])
      && s'.delegations == s.delegations[q.childRun := s'.delegations[q.childRun]]
      && GrantReserved(s, s', q) && s'.relations == Grow(s.relations, q.run, q.childRun, q.delegation)
      && s'.sessions == s.sessions && s'.toolCalls == s.toolCalls && s'.steps == s.steps && s'.approvals == s.approvals
      && q.intent.target in cat.versions
      && PermissionsFor(s.sessions[q.run], cat, q.intent) == Ok(s'.delegations[q.childRun].permissions)
  {
    hide *;
    MadeStep(s, cat, q);
    var permissions := Admission(s, cat, q).permissions;
    AdmissionMeans(s, cat, q);
    AdmittedInserts(s, cat, q, permissions);
    AdmittedPermissions(s, cat, q);
    InsertableRun(s, q);
    FreshRun(s, q);
    DelegationTables(s, q, permissions);
    DelegationRest(s, q, permissions);
    ChildIsQueued(q);
    RowIsAccepted(q, s.sessions[q.run], permissions);
    LedgersReserve(s, WithDelegation(s, q, permissions), q);
  }

  lemma FreshRun(s: State, q: Request)
    requires FreshIds(s, q) && q.run in s.runs
    ensures q.run != q.childRun
  {}

  lemma MadeStep(s: State, cat: Catalog, q: Request)
    requires Step(s, Delegate(q, cat)).1.DelegationMade?
    ensures Admission(s, cat, q).Admit? && Insertable(s, q)
    ensures Step(s, Delegate(q, cat)) ==
      (WithDelegation(s, q, Admission(s, cat, q).permissions), DelegationMade(q.run, q.childRun, q.worker, q.token))
  {
    hide Admission, WithDelegation, Insertable, Admitted;
    AdmissionMeans(s, cat, q);
    AdmittedInserts(s, cat, q, Admission(s, cat, q).permissions);
  }

  lemma AdmittedPermissions(s: State, cat: Catalog, q: Request)
    requires Admission(s, cat, q).Admit?
    ensures q.run in s.sessions && q.intent.target in cat.versions
    ensures PermissionsFor(s.sessions[q.run], cat, q.intent) == Ok(Admission(s, cat, q).permissions)
  {
    hide TreeRefusal, ReserveRefusal, PermissionsFor, HoldsLease, FreshIds, StringSet, EnabledFor, TargetReady, LedgerOf, FingerprintOf,
         WithKey, WithFingerprint, Get;
  }

  lemma DelegationRest(s: State, q: Request, permissions: Doc)
    requires Insertable(s, q)
    ensures var s' := WithDelegation(s, q, permissions);
      && s'.tasks == s.tasks[q.childTask := Task(TaskRunning, s.tasks[s.runs[q.run].task].priority, 1)]
      && s'.toolCalls == s.toolCalls && s'.steps == s.steps && s'.approvals == s.approvals
  {
    hide NewDelegation, ChildLedger, Reserved, LedgerOf, ChildRun;
  }

  lemma ChildIsQueued(q: Request)
    ensures ChildQueued(ChildRun(q), q)
  {}

  lemma RowIsAccepted(q: Request, session: Session, permissions: Doc)
    ensures DelegationAccepted(NewDelegation(q, session.policy, permissions), q, session)
    ensures NewDelegation(q, session.policy, permissions).permissions == permissions
  {
    hide FingerprintOf;
  }

  lemma LedgersReserve(s: State, s': State, q: Request)
    requires q.run in s.runs && q.run != q.childRun
    requires s'.ledgers == s.ledgers[q.run := Reserved(LedgerOf(s, q.run), q.intent.grant)][q.childRun := ChildLedger(q)]
    ensures GrantReserved(s, s', q)
  {
    hide LedgerOf;
  }

  // ----- the policy and tools of a session -----

  /** A session opens once per run. Its policy is enabled, and grants, only what the tenant's own section
      and the agent's policy both do, and for a delegated run the delegation's policy as well; its limits
      are the least of these, 0 when one is missing. A delegated run gets the delegation's permissions
      as its tools. */
  lemma SessionOpensExactly(s: State, run: Id, tenantSettings: Doc, agentPolicy: Value, tools: Doc, endpoint: Value, model: Value,
                            key: string, name: string)
    ensures var (s', o) := Step(s, Command.Prepare(run, tenantSettings, agentPolicy, tools, endpoint, model));
      var ok := run in s.runs && run !in s.sessions;
      && (!ok ==> s' == s && o == Invalid)
      && (ok ==>
            && o == Done && run in s'.sessions && s' == s.(sessions := s.sessions[run := s'.sessions[run]])
            && OpensUnder(s, s'.sessions[run], run, tenantSettings, agentPolicy, key, name)
            && s'.sessions[run].status == SessionRunning && s'.sessions[run].revision == 1
            && s'.sessions[run].endpoint == endpoint && s'.sessions[run].model == model
            && s'.sessions[run].tools == if run in s.delegations then s.delegations[run].permissions else tools)
  {
    hide *;
    PreparedStep(s, run, tenantSettings, agentPolicy, tools, endpoint, model);
    if run in s.runs && run !in s.sessions {
      OpenedUnder(s, Step(s, Command.Prepare(run, tenantSettings, agentPolicy, tools, endpoint, model)).0.sessions[run], run,
                  tenantSettings, agentPolicy, key, name);
    }
  }

  /** The policies a session is cut from: the tenant's section, the agent's, and the delegation's. */
  predicate Source(s: State, run: Id, tenantSettings: Doc, agentPolicy: Value, d: Doc) {
    || d == Section(tenantSettings, "coordination_policy")
    || d == (if agentPolicy.Dict? then agentPolicy.fields else map[])
    || (run in s.delegations && d == s.delegations[run].policy)
  }

  ghost predicate OpensUnder(s: State, session: Session, run: Id, tenantSettings: Doc, agentPolicy: Value, key: string, name: string) {
    && (IsTrue(Get(session.policy, "enabled")) <==>
          && (forall d :: Source(s, run, tenantSettings, agentPolicy, d) ==> IsTrue(Get(d, "enabled")))
          && !Wild(Section(tenantSettings, "coordination_policy")) && !Wild(if agentPolicy.Dict? then agentPolicy.fields else map[]))
    && (key in GRANTS ==>
          (name in StringSet(Get(session.policy, key)) <==>
             forall d :: Source(s, run, tenantSettings, agentPolicy, d) ==> name in StringSet(Get(d, key))))
    && (key in LIMITS ==>
          && (forall d :: Source(s, run, tenantSettings, agentPolicy, d) ==> PositiveInt(Get(session.policy, key)) <= PositiveInt(Get(d, key)))
          && (exists d :: Source(s, run, tenantSettings, agentPolicy, d) && PositiveInt(Get(session.policy, key)) == PositiveInt(Get(d, key))))
  }

  lemma PreparedStep(s: State, run: Id, tenantSettings: Doc, agentPolicy: Value, tools: Doc, endpoint: Value, model: Value)
    ensures var (s', o) := Step(s, Command.Prepare(run, tenantSettings, agentPolicy, tools, endpoint, model));
      var ok := run in s.runs && run !in s.sessions;
      && (!ok ==> s' == s && o == Invalid)
      && (ok ==>
            && o == Done && run in s'.sessions && s' == s.(sessions := s.sessions[run := s'.sessions[run]])
            && s'.sessions[run] == Session(SessionRunning, SessionPolicy(s, run, tenantSettings, agentPolicy),
                                           if run in s.delegations then s.delegations[run].permissions else tools, endpoint, model, 1))
  {
    hide SessionPolicy;
  }

  lemma OpenedUnder(s: State, session: Session, run: Id, tenantSettings: Doc, agentPolicy: Value, key: string, name: string)
    requires session.policy == SessionPolicy(s, run, tenantSettings, agentPolicy)
    ensures OpensUnder(s, session, run, tenantSettings, agentPolicy, key, name)
  {
    hide *;
    var own := BuildSnapshot(tenantSettings, agentPolicy);
    var tenant, agent := Section(tenantSettings, "coordination_policy"), if agentPolicy.Dict? then agentPolicy.fields else map[];
    SnapshotIsIntersection(tenantSettings, agentPolicy, key, name);
    CutFromTwo(own, tenant, agent, key, name);
    SessionPolicyIs(s, run, tenantSettings, agentPolicy);
    forall d
      ensures Source(s, run, tenantSettings, agentPolicy, d) <==>
        if run in s.delegations then d in [tenant, agent] + [s.delegations[run].policy] else d in [tenant, agent]
    {
      SourcesAre(s, run, tenantSettings, agentPolicy, d);
    }
    if run in s.delegations {
      var above := s.delegations[run].policy;
      NarrowPolicyExact(above, own);
      SmallerOfTwo(above, own, key);
      CutFromMore(session.policy, own, [tenant, agent], above, Wild(tenant) || Wild(agent), key, name);
      CutOpens(s, session, run, tenantSettings, agentPolicy, [tenant, agent] + [above], key, name);
    } else {
      CutOpens(s, session, run, tenantSettings, agentPolicy, [tenant, agent], key, name);
    }
  }

  lemma SessionPolicyIs(s: State, run: Id, tenantSettings: Doc, agentPolicy: Value)
    ensures SessionPolicy(s, run, tenantSettings, agentPolicy) ==
      var own := BuildSnapshot(tenantSettings, agentPolicy);
      if run in s.delegations then NarrowPolicy(s.delegations[run].policy, own) else own
  {
    hide BuildSnapshot, NarrowPolicy;
  }

  lemma SmallerOfTwo(a: Doc, b: Doc, key: string)
    ensures var n, m := PositiveInt(Get(a, key)), PositiveInt(Get(b, key));
      RestrictPositiveInt(Get(a, key), Get(b, key)) == if n == 0 || m == 0 then 0 else if n <= m then n else m
  {
    hide PositiveInt, Get;
  }

  /** A policy cut from a list of documents: enabled when all are and none of the first two is wild,
      granting what all grant, and limited by the least. */
  ghost predicate CutFrom(policy: Doc, docs: seq<Doc>, wild: bool, key: string, name: string) {
    && (IsTrue(Get(policy, "enabled")) <==> !wild && forall i :: 0 <= i < |docs| ==> IsTrue(Get(docs[i], "enabled")))
    && (key in GRANTS ==>
          (name in StringSet(Get(policy, key)) <==> forall i :: 0 <= i < |docs| ==> name in StringSet(Get(docs[i], key))))
    && (key in LIMITS ==>
          && (forall i :: 0 <= i < |docs| ==> PositiveInt(Get(policy, key)) <= PositiveInt(Get(docs[i], key)))
          && (exists i :: 0 <= i < |docs| && PositiveInt(Get(policy, key)) == PositiveInt(Get(docs[i], key))))
  }

  lemma CutFromTwo(policy: Doc, tenant: Doc, agent: Doc, key: string, name: string)
    requires IsTrue(Get(policy, "enabled")) <==> IsTrue(Get(tenant, "enabled")) && IsTrue(Get(agent, "enabled")) && !Wild(tenant) && !Wild(agent)
    requires key in GRANTS ==>
      (name in StringSet(Get(policy, key)) <==> name in StringSet(Get(tenant, key)) && name in StringSet(Get(agent, key)))
    requires key in LIMITS ==>
      var a, b := PositiveInt(Get(tenant, key)), PositiveInt(Get(agent, key));
      PositiveInt(Get(policy, key)) == if a == 0 || b == 0 then 0 else if a <= b then a else b
    ensures CutFrom(policy, [tenant, agent], Wild(tenant) || Wild(agent), key, name)
  {
    var docs := [tenant, agent];
    assert docs[0] == tenant && docs[1] == agent;
    hide Wild, StringSet, PositiveInt, Get, IsTrue, GRANTS, LIMITS;
  }

  lemma CutFromMore(policy: Doc, own: Doc, docs: seq<Doc>, d: Doc, wild: bool, key: string, name: string)
    requires CutFrom(own, docs, wild, key, name)
    requires IsTrue(Get(policy, "enabled")) <==> IsTrue(Get(d, "enabled")) && IsTrue(Get(own, "enabled"))
    requires key in GRANTS ==>
      (name in StringSet(Get(policy, key)) <==> name in StringSet(Get(d, key)) && name in StringSet(Get(own, key)))
    requires key in LIMITS ==>
      var a, b := PositiveInt(Get(d, key)), PositiveInt(Get(own, key));
      PositiveInt(Get(policy, key)) == if a == 0 || b == 0 then 0 else if a <= b then a else b
    ensures CutFrom(policy, docs + [d], wild, key, name)
  {
    var more := docs + [d];
    assert more[|docs|] == d && forall i :: 0 <= i < |docs| ==> more[i] == docs[i];
    hide StringSet, PositiveInt, Get, IsTrue, GRANTS, LIMITS;
  }

  lemma CutOpens(s: State, session: Session, run: Id, tenantSettings: Doc, agentPolicy: Value, docs: seq<Doc>, key: string, name: string)
    requires var tenant, agent := Section(tenantSettings, "coordination_policy"), if agentPolicy.Dict? then agentPolicy.fields else map[];
      CutFrom(session.policy, docs, Wild(tenant) || Wild(agent), key, name)
    requires forall i :: 0 <= i < |docs| ==> Source(s, run, tenantSettings, agentPolicy, docs[i])
    requires forall d :: Source(s, run, tenantSettings, agentPolicy, d) ==> d in docs
    ensures OpensUnder(s, session, run, tenantSettings, agentPolicy, key, name)
  {
    hide Section, Wild, StringSet, PositiveInt, Get, IsTrue, Source, GRANTS, LIMITS;
  }

  lemma SourcesAre(s: State, run: Id, tenantSettings: Doc, agentPolicy: Value, d: Doc)
    ensures var tenant, agent := Section(tenantSettings, "coordination_policy"), if agentPolicy.Dict? then agentPolicy.fields else map[];
      Source(s, run, tenantSettings, agentPolicy, d) <==>
        if run in s.delegations then d in [tenant, agent] + [s.delegations[run].policy] else d in [tenant, agent]
  {
    hide Section;
  }
}
