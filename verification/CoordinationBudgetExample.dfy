/** A concrete history in which a completion is refused: the child still holds back for a child of its
    own what it used up itself. */
module CoordinationBudgetExample {
  import opened Foundation
  import opened MapSums
  import opened RunStates
  import opened Forest
  import opened CoordinationPolicy
  import opened PolicyChains
  import opened Coordination
  import opened CoordinationAdmission
  import opened CoordinationInvariants
  import opened CoordinationTheorems
  import opened CoordinationCompletion
  import opened CoordinationHistories
  import opened CoordinationExample

  const PLAN_CHILD := Command.Advance(CHILD, Planning, 1)
  const GRANDCHILD := Uuid(12)
  const SHARE := Amounts(5, 0, 0)
  const ASK := Request(CHILD, "helper", HELPER, Intent("v3", "check the summary", map[], [], SHARE, map[], "parallel", "k2"),
                       Uuid(10), Uuid(11), GRANDCHILD, 2)

  /** The child is planning under its lease and has delegated nothing. */
  ghost predicate Asking(s: State) {
    OneChild(s, Planning, 2) && ChildSession(s) && s.runs[CHILD].lease == Some(Lease("helper", HELPER, 60))
  }

  lemma ChildPlans(s: State)
    requires OneChild(s, Pending, 1) && ChildSession(s) && s.runs[CHILD].lease == Some(Lease("helper", HELPER, 60))
    ensures Asking(Step(s, PLAN_CHILD).0)
  {
    PlanIs();
    hide *;
    ChildFacts(s, Pending, 1);
    Plans(s, CHILD);
    ChildStays(s, Step(s, PLAN_CHILD).0, Pending, 1);
    ChildSessionStays(s, Step(s, PLAN_CHILD).0);
    AskingIs(Step(s, PLAN_CHILD).0);
  }

  lemma PlanIs()
    ensures PLAN_CHILD == Command.Advance(CHILD, Planning, 1)
  {}

  lemma AskingIs(s: State)
    requires OneChild(s, Planning, 2) && ChildSession(s) && CHILD in s.runs && s.runs[CHILD].lease == Some(Lease("helper", HELPER, 60))
    ensures Asking(s)
  {}

  lemma Plans(s: State, run: Id)
    requires run in s.runs && s.runs[run].status == Pending && s.runs[run].revision == 1
    ensures var s' := Step(s, Command.Advance(run, Planning, 1)).0;
      && s'.runs == s.runs[run := s.runs[run].(status := Planning, revision := 2)]
      && s'.sessions == s.sessions && s'.tasks.Keys == s.tasks.Keys && s'.delegations == s.delegations && s'.ledgers == s.ledgers
  {
    hide CallsEnding, CancelCalls, StepsOf, CancelSteps;
  }

  // ----- the child's own delegation -----

  lemma ListedAndLimited(own: Doc)
    requires IsTrue(Get(own, "enabled")) && {"v2", "v3"} <= StringSet(Get(own, "allowed_agent_version_ids"))
    requires PositiveInt(Get(own, "max_depth")) == PositiveInt(Get(own, "max_children")) == PositiveInt(Get(own, "max_parallelism")) == 2
    ensures var p := NarrowPolicy(own, own);
      && EnabledFor(p) && "v3" in StringSet(Get(p, "allowed_agent_version_ids"))
      && PositiveInt(Get(p, "max_depth")) == PositiveInt(Get(p, "max_children")) == PositiveInt(Get(p, "max_parallelism")) == 2
  {
    NarrowPolicyExact(own, own);
    assert Get(NarrowPolicy(own, own), "version") == Int(1) by { hide StringSet, PositiveInt; }
    assert "allowed_agent_version_ids" in GRANTS && {"max_depth", "max_children", "max_parallelism"} <= LIMITS;
    hide NarrowPolicy, Get, StringSet, PositiveInt, IsTrue, GRANTS, LIMITS;
  }

  /** The upward path of the child is itself and then the root. */
  lemma PathOfChild(s: State, k: nat)
    requires s.delegations.Keys == {CHILD} && s.delegations[CHILD].parent == RUN && RUN != CHILD
    ensures Up(ParentsOf(s.delegations), CHILD, k) == if k == 0 then Some(CHILD) else if k == 1 then Some(RUN) else None
  {
    var p := ParentsOf(s.delegations);
    assert CHILD in p && p[CHILD] == RUN && RUN !in p;
    hide ParentsOf, RUN, CHILD;
    UpZero(p, CHILD);
    if k > 0 {
      assert Up(p, CHILD, k) == Up(p, RUN, k - 1);
      UpZero(p, RUN);
    }
  }

  lemma RoomForOneMore(s: State, policy: Doc)
    requires s.delegations.Keys == {CHILD} && s.delegations[CHILD].parent == RUN && RUN != CHILD
    requires s.runs.Keys == {RUN, CHILD} && s.runs[RUN].version == "v1" && s.runs[CHILD].version == "v2"
    requires PositiveInt(Get(policy, "max_depth")) == PositiveInt(Get(policy, "max_children")) == PositiveInt(Get(policy, "max_parallelism")) == 2
    ensures RoomInTree(s, CHILD, "v3", policy)
  {
    hide RUN, CHILD, PositiveInt, Get, Up, ParentsOf;
    forall k: nat ensures Up(ParentsOf(s.delegations), CHILD, k) == if k == 0 then Some(CHILD) else if k == 1 then Some(RUN) else None {
      PathOfChild(s, k);
    }
    NoChildrenNoGrants(s.delegations, CHILD);
    hide ChildrenOf, ActiveChildrenOf;
  }

  lemma ShareFits(s: State, r: Resource)
    requires CHILD in s.runs && CHILD in s.ledgers && s.ledgers[CHILD] == Ledger(GRANT, NOTHING, NOTHING, NOTHING, 0, 1)
    requires Sum(Grants(s.delegations, CHILD, r)) == 0
    ensures CanGrant(s, CHILD, SHARE, r)
  {
    hide Sum, Grants, CHILD;
  }

  lemma AskIsFresh(s: State)
    requires OneChild(s, Planning, 2)
    ensures FreshIds(s, ASK) && NotYetAsked(s, ASK)
    ensures s.delegations.Keys == {CHILD} && s.delegations[CHILD].parent == RUN && RUN != CHILD
    ensures s.runs.Keys == {RUN, CHILD} && s.runs[RUN].version == "v1" && s.runs[CHILD].version == "v2"
    ensures CHILD in s.ledgers && s.ledgers[CHILD] == Ledger(GRANT, NOTHING, NOTHING, NOTHING, 0, 1)
  {
    hide FingerprintOf, Own;
  }

  lemma AskFields()
    ensures ASK.run == CHILD && ASK.worker == "helper" && ASK.token == HELPER && ASK.childRun == GRANDCHILD
    ensures ASK.intent.target == "v3" && ASK.intent.grant == SHARE && ASK.intent.restrictions == map[]
    ensures "v3" in CATALOG.versions && CATALOG.versions["v3"].published && TargetReady(CATALOG, "v3")
  {}

  lemma AskerHolds(s: State)
    requires Asking(s)
    ensures CHILD in s.runs && CHILD in s.sessions && HoldsLease(s.runs[CHILD], "helper", HELPER) && Delegatable(s.runs[CHILD].status)
    ensures s.sessions[CHILD].policy == NarrowPolicy(Own(), Own()) && s.sessions[CHILD].endpoint == Null && s.sessions[CHILD].model == Null
  {
    hide Own, NarrowPolicy;
  }

  lemma MayAskIs(s: State)
    requires CHILD in s.runs && CHILD in s.sessions && HoldsLease(s.runs[CHILD], "helper", HELPER) && Delegatable(s.runs[CHILD].status)
    requires EnabledFor(s.sessions[CHILD].policy) && "v3" in StringSet(Get(s.sessions[CHILD].policy, "allowed_agent_version_ids"))
    ensures MayAsk(s, ASK)
  {
    AskFields();
    MayAskExactly(s, ASK);
    hide HoldsLease, Delegatable, EnabledFor, StringSet, Get, ASK, MayAsk;
  }

  lemma OwnAllows()
    ensures IsTrue(Get(Own(), "enabled")) && {"v2", "v3"} <= StringSet(Get(Own(), "allowed_agent_version_ids"))
    ensures PositiveInt(Get(Own(), "max_depth")) == PositiveInt(Get(Own(), "max_children")) == PositiveInt(Get(Own(), "max_parallelism")) == 2
  {
    PolicyAllows();
    hide BuildSnapshot, StringSet, PositiveInt, Get, IsTrue;
  }

  lemma AskAccepted(history: seq<Command>)
    requires Asking(After(history))
    ensures Step(After(history), Delegate(ASK, CATALOG)).1.DelegationMade?
  {
    hide *;
    var s := After(history);
    AskFields();
    AskerHolds(s);
    OwnAllows();
    ListedAndLimited(Own());
    var policy := s.sessions[CHILD].policy;
    AskingOneChild(s);
    AskIsFresh(s);
    MayAskIs(s);
    RoomForOneMore(s, policy);
    NoChildrenNoGrants(s.delegations, CHILD);
    forall r: Resource ensures CanGrant(s, CHILD, SHARE, r) { ShareFits(s, r); }
    PermissionsGranted(s.sessions[CHILD], ASK.intent);
    Reachable(history);
    AdmitsExactlyIn(s, CATALOG, ASK);
  }

  lemma AskingOneChild(s: State)
    requires Asking(s)
    ensures OneChild(s, Planning, 2)
  {}

  // ----- the refused completion -----

  /** What the delegation leaves of the child's own rows. */
  lemma ShareReserved(s: State)
    requires Asking(s) && DelegateStep(s, CATALOG, ASK).1.DelegationMade?
    ensures var s' := DelegateStep(s, CATALOG, ASK).0;
      && CHILD in s'.runs && s'.runs[CHILD] == s.runs[CHILD] && CHILD in s'.sessions
      && CHILD in s'.delegations && s'.delegations[CHILD] == s.delegations[CHILD]
      && CHILD in s'.ledgers && s'.ledgers[CHILD] == Ledger(GRANT, NOTHING, NOTHING, SHARE, 1, 2)
  {
    hide *;
    AskFields();
    AskingOneChild(s);
    AskIsFresh(s);
    AskerHolds(s);
    ShareIsWritten(s);
    var permissions := Admission(s, CATALOG, ASK).permissions;
    DelegationTables(s, ASK, permissions);
    ShareRow(s);
  }

  lemma ShareIsWritten(s: State)
    requires DelegateStep(s, CATALOG, ASK).1.DelegationMade?
    ensures Admission(s, CATALOG, ASK).Admit? && Insertable(s, ASK) && GRANDCHILD != CHILD
    ensures DelegateStep(s, CATALOG, ASK).0 == WithDelegation(s, ASK, Admission(s, CATALOG, ASK).permissions)
  {
    hide Admission, WithDelegation, Admitted, Insertable;
    AdmissionMeans(s, CATALOG, ASK);
    AdmittedInserts(s, CATALOG, ASK, Admission(s, CATALOG, ASK).permissions);
  }

  lemma ShareRow(s: State)
    requires CHILD in s.runs && CHILD in s.ledgers && s.ledgers[CHILD] == Ledger(GRANT, NOTHING, NOTHING, NOTHING, 0, 1)
    ensures Reserved(LedgerOf(s, CHILD), SHARE) == Ledger(GRANT, NOTHING, NOTHING, SHARE, 1, 2)
  {
    assert LedgerOf(s, CHILD) == s.ledgers[CHILD] by { hide CHILD, DefaultLedger; }
    hide CHILD, DefaultLedger, LedgerOf, SHARE;
    PlusNothing(SHARE);
  }

  lemma PlusNothing(grant: Amounts)
    ensures Plus(NOTHING, grant) == grant
  {}

  /** The child's usage no longer fits: it reserves 5 of its 10 tokens and used 7. */
  lemma ChildOverdrawn(s: State, s': State)
    requires Asking(s) && CHILD in s'.runs && s'.runs[CHILD] == s.runs[CHILD] && CHILD in s'.sessions
    requires CHILD in s'.delegations && s'.delegations[CHILD] == s.delegations[CHILD]
    requires CHILD in s'.ledgers && s'.ledgers[CHILD] == Ledger(GRANT, NOTHING, NOTHING, SHARE, 1, 2)
    ensures MayEnd(s', CHILD, "helper", HELPER, 0) && ActiveChild(s', CHILD) && !ChargeFits(s', CHILD, USED, Tokens)
    ensures Terminal(Failed)
  {
    hide Own, ChildSession, RUN, CHILD;
  }

  const FAIL := Command.Complete(CHILD, "helper", HELPER, 0, Failed, SessionFailed, USED, false)

  /** RUN's child is claimed, plans, and delegates half of its tokens on. */
  ghost function Shared(): (history: seq<Command>) { Worked() + [PLAN_CHILD] + [Delegate(ASK, CATALOG)] }

  lemma FailIs()
    ensures FAIL == Command.Complete(CHILD, "helper", HELPER, 0, Failed, SessionFailed, USED, false)
  {}

  lemma SharedChild()
    ensures var s := After(Shared());
      && MayEnd(s, CHILD, "helper", HELPER, 0) && ActiveChild(s, CHILD) && CHILD in s.ledgers && !ChargeFits(s, CHILD, USED, Tokens)
    ensures Terminal(Failed)
  {
    hide *;
    WorkedChild();
    var planned, made := Worked() + [PLAN_CHILD], Delegate(ASK, CATALOG);
    AfterStep(Worked(), PLAN_CHILD);
    ChildPlans(After(Worked()));
    AskAccepted(planned);
    StepIsDelegate(After(planned), made);
    ShareReserved(After(planned));
    AfterStep(planned, made);
    ChildOverdrawn(After(planned), After(planned + [made]));
    SharedIs();
  }

  lemma SharedIs()
    ensures Shared() == Worked() + [PLAN_CHILD] + [Delegate(ASK, CATALOG)]
  {}

  /** A delegated child that delegates half of its tokens on, uses more than the other half itself and
      then fails cannot end: the CHECK constraint of its own ledger refuses the whole transaction. */
  lemma CompletionRefused()
    ensures var s := After(Shared());
      && MayEnd(s, CHILD, "helper", HELPER, 0) && ActiveChild(s, CHILD)
      && Step(s, FAIL) == (s, Invalid)
  {
    hide *;
    SharedChild();
    FailIs();
    var s := After(Shared());
    CompletesExactly(Shared(), CHILD, "helper", HELPER, 0, Failed, SessionFailed, USED, false);
    StepIsComplete(s, FAIL);
    NotEnded(s, CHILD, "helper", HELPER, 0, Failed, SessionFailed, USED, false);
  }

  lemma NotEnded(s: State, run: Id, worker: string, token: Id, now: int, target: RunStatus, ended: SessionStatus,
                 usage: Amounts, compaction: bool)
    requires MayEnd(s, run, worker, token, now) && Terminal(target)
    requires !CompleteStep(s, run, worker, token, now, target, ended, usage, compaction).1.Released?
    ensures CompleteStep(s, run, worker, token, now, target, ended, usage, compaction) == (s, Invalid)
  {
    hide Completion, ReleasedByCompletion, SettlementPasses, Charge, HoldsLease, Terminal;
  }
}
