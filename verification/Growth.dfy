/** Governed growth: seven tables whose writes pass database guards, and the facts those guards
    imply together about every history of writes. */
module Growth {
  import opened Foundation
  import opened RunStates

  // ----- rows -----

  datatype Scope = TenantScope | ProjectScope(project: Id) | AgentScope(agent: Id)

  datatype MemoryStatus = MemoryCandidate | MemoryActive | MemoryInvalidated | MemoryExpired | MemoryDeleted

  datatype Memory = Memory(
    key: string, version: nat, kind: string, scope: Scope, content: string, contentHash: string,
    supersedes: Option<Id>, expiresAt: Option<int>,
    status: MemoryStatus, invalidatedAt: Option<int>, deletedAt: Option<int>)

  datatype VersionStatus = VersionDraft | VersionTesting | VersionPublished | VersionRejected

  datatype SkillVersion = SkillVersion(skill: Id, number: nat, content: string, contentHash: string, status: VersionStatus)

  datatype SkillStatus = SkillCandidate | SkillTesting | SkillApproved | SkillPublished | SkillDeprecated | SkillDisabled

  datatype Skill = Skill(name: string, scope: Scope, status: SkillStatus, current: Option<Id>)

  datatype Subject = OfMemory(memory: Id) | OfVersion(version: Id)

  /** `snapshot` stands for the hash of what the source captured. */
  datatype Source = Source(subject: Subject, agentVersion: string, snapshot: string)

  datatype EvaluationStatus = EvaluationPending | EvaluationCompleted | EvaluationFailed

  datatype Evaluation = Evaluation(
    subject: Subject, evaluator: string, contentHash: string, createdAt: int,
    status: EvaluationStatus, passed: Option<bool>)

  datatype ReviewStatus = ReviewRequested | ReviewApproved | ReviewRejected | ReviewCancelled | ReviewExpired

  /** One row of `approvals`; its action is always "publish". */
  datatype Review = Review(
    subject: Subject, contentHash: string, requester: string, expiresAt: Option<int>,
    status: ReviewStatus, reviewer: Option<string>)

  datatype DeploymentStatus = Deployed | Retired

  datatype Deployment = Deployment(skill: Id, version: Id, scope: Scope, rollout: nat, status: DeploymentStatus)

  datatype Tables = Tables(
    memories: map<Id, Memory>,
    versions: map<Id, SkillVersion>,
    skills: map<Id, Skill>,
    sources: map<Id, Source>,
    evaluations: map<Id, Evaluation>,
    reviews: map<Id, Review>,
    deployments: map<Id, Deployment>)

  const NO_ROWS := Tables(map[], map[], map[], map[], map[], map[], map[])

  // ----- guard_memory_write -----

  predicate MemoryMoves(was: MemoryStatus, now: MemoryStatus) {
    || (was == MemoryCandidate && now in {MemoryActive, MemoryDeleted})
    || (was == MemoryActive && now in {MemoryInvalidated, MemoryExpired, MemoryDeleted})
    || (was in {MemoryInvalidated, MemoryExpired} && now == MemoryDeleted)
  }

  /** The prior version a later version must name. */
  predicate Precedes(previous: Memory, next: Memory) {
    && previous.key == next.key && previous.version + 1 == next.version
    && previous.kind == next.kind && previous.scope == next.scope
  }

  predicate MemoryInsertOk(s: Tables, id: Id, m: Memory) {
    && id !in s.memories && m.version > 0 && m.status == MemoryCandidate
    && (m.version == 1 ==> m.supersedes.None?)
    && (m.version > 1 ==>
          m.supersedes.Some? && m.supersedes.value in s.memories && Precedes(s.memories[m.supersedes.value], m))
    && VersionFree(s, m)
  }

  /** `uq_memories_key_version` */
  predicate VersionFree(s: Tables, m: Memory) {
    forall other :: other in s.memories ==> s.memories[other].key != m.key || s.memories[other].version != m.version
  }

  /** Columns an update may not touch. */
  predicate SameMemory(was: Memory, now: Memory) {
    now.(status := was.status, invalidatedAt := was.invalidatedAt, deletedAt := was.deletedAt) == was
  }

  predicate HasSource(s: Tables, subject: Subject) {
    exists g :: g in s.sources && s.sources[g].subject == subject
  }

  predicate Passing(e: Evaluation, subject: Subject, hash: string) {
    e.subject == subject && e.contentHash == hash && e.status == EvaluationCompleted && e.passed == Some(true)
  }

  predicate HasPassing(s: Tables, subject: Subject, hash: string) {
    exists e :: e in s.evaluations && Passing(s.evaluations[e], subject, hash)
  }

  predicate Approves(a: Review, subject: Subject, hash: string) {
    a.subject == subject && a.contentHash == hash && a.status == ReviewApproved
  }

  predicate Unexpired(a: Review, now: int) { a.expiresAt.None? || a.expiresAt.value > now }

  predicate Independent(a: Review) { a.reviewer.Some? && a.reviewer.value != a.requester }

  predicate HasLiveApproval(s: Tables, subject: Subject, hash: string, now: int) {
    exists a :: a in s.reviews && Approves(s.reviews[a], subject, hash) && Unexpired(s.reviews[a], now)
  }

  /** `uq_memories_active_key` */
  predicate KeyFree(s: Tables, id: Id, m: Memory) {
    forall other :: other in s.memories && other != id ==>
      s.memories[other].key != m.key || s.memories[other].status != MemoryActive
  }

  predicate MemoryUpdateOk(s: Tables, id: Id, m: Memory, now: int) {
    && id in s.memories
    && var was := s.memories[id];
       && SameMemory(was, m)
       && (m.status == was.status || MemoryMoves(was.status, m.status))
       && was.status != MemoryDeleted
       && (m.status == MemoryActive && was.status != MemoryActive ==>
             HasSource(s, OfMemory(id)) && HasPassing(s, OfMemory(id), m.contentHash)
             && HasLiveApproval(s, OfMemory(id), m.contentHash, now))
       && (m.status == MemoryExpired ==> m.expiresAt.Some? && m.expiresAt.value <= now)
       && (m.status == MemoryInvalidated ==> m.invalidatedAt.Some?)
       && (m.status == MemoryDeleted ==> m.deletedAt.Some?)
       && (m.status == MemoryActive ==> KeyFree(s, id, m))
  }

  // ----- guard_skill_version_write and guard_skill_version_publish_policy -----

  predicate VersionInsertOk(s: Tables, id: Id, v: SkillVersion) {
    id !in s.versions && v.skill in s.skills && v.status == VersionDraft && NumberFree(s, v)
  }

  /** `uq_skill_versions_skill_version` */
  predicate NumberFree(s: Tables, v: SkillVersion) {
    forall other :: other in s.versions ==> s.versions[other].skill != v.skill || s.versions[other].number != v.number
  }

  predicate VersionMoves(was: VersionStatus, now: VersionStatus) {
    || (was == VersionDraft && now in {VersionTesting, VersionRejected})
    || (was == VersionTesting && now in {VersionPublished, VersionRejected})
  }

  predicate Terminated(e: Evaluation) { e.status in {EvaluationCompleted, EvaluationFailed} }

  /** ORDER BY created_at DESC, id DESC */
  predicate LaterEvaluation(s: Tables, a: Id, b: Id)
    requires a in s.evaluations && b in s.evaluations
  {
    s.evaluations[a].createdAt > s.evaluations[b].createdAt
    || (s.evaluations[a].createdAt == s.evaluations[b].createdAt && a.bits > b.bits)
  }

  /** No terminal evaluation of this content comes after `e`. */
  predicate Latest(s: Tables, e: Id, subject: Subject, hash: string)
    requires e in s.evaluations
  {
    forall other :: other in s.evaluations && other != e && s.evaluations[other].subject == subject
                    && s.evaluations[other].contentHash == hash && Terminated(s.evaluations[other])
      ==> LaterEvaluation(s, e, other)
  }

  /** The latest terminal evaluation of this content passed. */
  predicate LatestPasses(s: Tables, subject: Subject, hash: string) {
    exists e :: e in s.evaluations && Passing(s.evaluations[e], subject, hash) && Latest(s, e, subject, hash)
  }

  predicate HasIndependentApproval(s: Tables, subject: Subject, hash: string, now: int) {
    exists a :: a in s.reviews && Approves(s.reviews[a], subject, hash) && Independent(s.reviews[a]) && Unexpired(s.reviews[a], now)
  }

  predicate VersionUpdateOk(s: Tables, id: Id, v: SkillVersion, now: int) {
    && id in s.versions
    && var was := s.versions[id];
       && v.(status := was.status) == was
       && (v.status == was.status || VersionMoves(was.status, v.status))
       && was.status !in {VersionPublished, VersionRejected}
       && (v.status == VersionPublished ==>
             HasSource(s, OfVersion(id)) && HasPassing(s, OfVersion(id), v.contentHash)
             && HasLiveApproval(s, OfVersion(id), v.contentHash, now)
             && LatestPasses(s, OfVersion(id), v.contentHash)
             && HasIndependentApproval(s, OfVersion(id), v.contentHash, now))
  }

  // ----- guard_skill_write, guard_skill_stop_policy, guard_skill_pointer_policy -----

  predicate SkillInsertOk(s: Tables, id: Id, k: Skill) {
    id !in s.skills && k.status == SkillCandidate && k.current.None? && NameFree(s, k)
  }

  /** `uq_skills_tenant_name` */
  predicate NameFree(s: Tables, k: Skill) {
    forall other :: other in s.skills ==> s.skills[other].name != k.name
  }

  predicate SkillMoves(was: SkillStatus, now: SkillStatus) {
    || (was == SkillCandidate && now in {SkillTesting, SkillDisabled})
    || (was == SkillTesting && now in {SkillCandidate, SkillApproved, SkillDisabled})
    || (was == SkillApproved && now in {SkillPublished, SkillDisabled})
    || (was == SkillPublished && now in {SkillDeprecated, SkillDisabled})
    || (was == SkillDeprecated && now in {SkillPublished, SkillDisabled})
  }

  predicate HasCanary(s: Tables, skill: Id) {
    exists d :: d in s.deployments && s.deployments[d].skill == skill && s.deployments[d].status == Deployed
  }

  /** The version row exists, belongs to the skill and is published. */
  predicate PublishedVersionOf(s: Tables, skill: Id, version: Id) {
    version in s.versions && s.versions[version].skill == skill && s.versions[version].status == VersionPublished
  }

  predicate SkillUpdateOk(s: Tables, id: Id, k: Skill) {
    && id in s.skills
    && var was := s.skills[id];
       && k.name == was.name && k.scope == was.scope
       && (k.status == was.status || SkillMoves(was.status, k.status))
       && was.status != SkillDisabled
       && (k.status == SkillPublished ==> k.current.Some? && PublishedVersionOf(s, id, k.current.value))
       && (k.status in {SkillCandidate, SkillTesting, SkillApproved} ==> k.current.None?)
       && (k.current.Some? ==> k.current.value in s.versions && s.versions[k.current.value].skill == id)
       && (k.status != was.status && k.status in {SkillDeprecated, SkillDisabled} ==> !HasCanary(s, id))
       && (k.current != was.current ==> !HasCanary(s, id))
  }

  // ----- guard_growth_source_insert -----

  datatype SessionEnd = SessionLive | SessionEnded

  /** The rows a source names, as the guard finds them; an absent tool call or session is not checked. */
  datatype Origin = Origin(
    run: Option<RunStatus>, runVersion: string, step: Option<StepStatus>,
    call: Option<Option<ToolCallStatus>>, session: Option<Option<SessionEnd>>)

  predicate OriginEnded(o: Origin, agentVersion: string) {
    && o.run.Some? && Terminal(o.run.value) && o.runVersion == agentVersion
    && o.step.Some? && o.step.value in {StepCompleted, StepFailed, StepCancelled}
    && (o.call.Some? ==> o.call.value.Some? && o.call.value.value in {CallSucceeded, CallFailed, CallTimedOut, CallCancelled})
    && (o.session.Some? ==> o.session.value == Some(SessionEnded))
  }

  predicate SubjectExists(s: Tables, subject: Subject) {
    match subject case OfMemory(m) => m in s.memories case OfVersion(v) => v in s.versions
  }

  predicate SourceInsertOk(s: Tables, id: Id, g: Source, origin: Origin) {
    id !in s.sources && SubjectExists(s, g.subject) && OriginEnded(origin, g.agentVersion) && SnapshotFree(s, g)
  }

  /** `uq_growth_sources_memory_hash`, `uq_growth_sources_skill_hash` */
  predicate SnapshotFree(s: Tables, g: Source) {
    forall other :: other in s.sources ==> s.sources[other].subject != g.subject || s.sources[other].snapshot != g.snapshot
  }

  // ----- guard_evaluation_write and guard_approval_write -----

  function SubjectHash(s: Tables, subject: Subject): (hash: Option<string>) {
    match subject
    case OfMemory(m) => if m in s.memories then Some(s.memories[m].contentHash) else None
    case OfVersion(v) => if v in s.versions then Some(s.versions[v].contentHash) else None
  }

  predicate EvaluationInsertOk(s: Tables, id: Id, e: Evaluation) {
    id !in s.evaluations && SubjectHash(s, e.subject) == Some(e.contentHash) && e.status == EvaluationPending && ProfileFree(s, e)
  }

  /** `uq_evaluations_memory_profile`, `uq_evaluations_skill_profile` */
  predicate ProfileFree(s: Tables, e: Evaluation) {
    forall other :: other in s.evaluations ==>
      s.evaluations[other].subject != e.subject || s.evaluations[other].evaluator != e.evaluator
      || s.evaluations[other].contentHash != e.contentHash
  }

  predicate EvaluationUpdateOk(s: Tables, id: Id, e: Evaluation) {
    && id in s.evaluations
    && var was := s.evaluations[id];
       && SubjectHash(s, e.subject) == Some(e.contentHash)
       && e.subject == was.subject && e.evaluator == was.evaluator && e.contentHash == was.contentHash
       && was.status == EvaluationPending && e.status in {EvaluationCompleted, EvaluationFailed}
  }

  predicate ReviewInsertOk(s: Tables, id: Id, a: Review) {
    id !in s.reviews && SubjectHash(s, a.subject) == Some(a.contentHash) && a.status == ReviewRequested && RequestFree(s, a)
  }

  /** `uq_approvals_memory_requested`, `uq_approvals_skill_requested` */
  predicate RequestFree(s: Tables, a: Review) {
    forall other :: other in s.reviews ==>
      s.reviews[other].subject != a.subject || s.reviews[other].contentHash != a.contentHash
      || s.reviews[other].status != ReviewRequested
  }

  predicate ReviewUpdateOk(s: Tables, id: Id, a: Review) {
    && id in s.reviews
    && var was := s.reviews[id];
       && SubjectHash(s, a.subject) == Some(a.contentHash)
       && a.subject == was.subject && a.contentHash == was.contentHash
       && a.requester == was.requester && a.expiresAt == was.expiresAt
       && was.status == ReviewRequested && a.status != ReviewRequested
  }

  // ----- guard_skill_deployment_write and guard_skill_deployment_insert_policy -----

  /** A canary may not widen the skill's scope. */
  predicate Inside(owner: Scope, canary: Scope) {
    owner == TenantScope || owner == canary
  }

  predicate DeploymentInsertOk(s: Tables, id: Id, d: Deployment) {
    && id !in s.deployments && d.scope != TenantScope
    && PublishedVersionOf(s, d.skill, d.version) && d.status == Deployed
    && d.skill in s.skills && s.skills[d.skill].status == SkillPublished && s.skills[d.skill].current.Some?
    && Inside(s.skills[d.skill].scope, d.scope) && CanaryFree(s, d)
  }

  /** `uq_skill_deployments_project_active`, `uq_skill_deployments_agent_active` */
  predicate CanaryFree(s: Tables, d: Deployment) {
    forall other :: other in s.deployments ==>
      s.deployments[other].skill != d.skill || s.deployments[other].scope != d.scope || s.deployments[other].status != Deployed
  }

  predicate DeploymentUpdateOk(s: Tables, id: Id, d: Deployment) {
    && id in s.deployments
    && var was := s.deployments[id];
       && PublishedVersionOf(s, d.skill, d.version)
       && d.(status := was.status) == was
       && was.status == Deployed && d.status == Retired
  }

  // ----- writes and histories -----

  datatype Write =
    | InsertMemory(id: Id, memory: Memory)
    | UpdateMemory(id: Id, memory: Memory, now: int)
    | InsertVersion(id: Id, version: SkillVersion)
    | UpdateVersion(id: Id, version: SkillVersion, now: int)
    | InsertSkill(id: Id, skill: Skill)
    | UpdateSkill(id: Id, skill: Skill)
    | InsertSource(id: Id, source: Source, origin: Origin)
    | UpdateSource(id: Id, source: Source)
    | InsertEvaluation(id: Id, evaluation: Evaluation)
    | UpdateEvaluation(id: Id, evaluation: Evaluation)
    | InsertReview(id: Id, review: Review)
    | UpdateReview(id: Id, review: Review)
    | InsertDeployment(id: Id, deployment: Deployment)
    | UpdateDeployment(id: Id, deployment: Deployment)
    | DeleteRow(id: Id)

  /** What the guards, CHECKs and unique indexes accept. Sources never change, nothing is deleted. */
  predicate Accepted(s: Tables, w: Write) {
    match w
    case InsertMemory(id, memory) => MemoryInsertOk(s, id, memory)
    case UpdateMemory(id, memory, now) => MemoryUpdateOk(s, id, memory, now)
    case InsertVersion(id, version) => VersionInsertOk(s, id, version)
    case UpdateVersion(id, version, now) => VersionUpdateOk(s, id, version, now)
    case InsertSkill(id, skill) => SkillInsertOk(s, id, skill)
    case UpdateSkill(id, skill) => SkillUpdateOk(s, id, skill)
    case InsertSource(id, source, origin) => SourceInsertOk(s, id, source, origin)
    case UpdateSource(_, _) => false
    case InsertEvaluation(id, evaluation) => EvaluationInsertOk(s, id, evaluation)
    case UpdateEvaluation(id, evaluation) => EvaluationUpdateOk(s, id, evaluation)
    case InsertReview(id, review) => ReviewInsertOk(s, id, review)
    case UpdateReview(id, review) => ReviewUpdateOk(s, id, review)
    case InsertDeployment(id, deployment) => DeploymentInsertOk(s, id, deployment)
    case UpdateDeployment(id, deployment) => DeploymentUpdateOk(s, id, deployment)
    case DeleteRow(_) => false
  }

  // The row a write puts in place, table by table.

  function MemoriesAfter(rows: map<Id, Memory>, w: Write): (r: map<Id, Memory>) {
    match w
    case InsertMemory(id, row) => rows[id := row]
    case UpdateMemory(id, row, _) => rows[id := row]
    case _ => rows
  }

  function VersionsAfter(rows: map<Id, SkillVersion>, w: Write): (r: map<Id, SkillVersion>) {
    match w
    case InsertVersion(id, row) => rows[id := row]
    case UpdateVersion(id, row, _) => rows[id := row]
    case _ => rows
  }

  function SkillsAfter(rows: map<Id, Skill>, w: Write): (r: map<Id, Skill>) {
    match w
    case InsertSkill(id, row) => rows[id := row]
    case UpdateSkill(id, row) => rows[id := row]
    case _ => rows
  }

  function SourcesAfter(rows: map<Id, Source>, w: Write): (r: map<Id, Source>) {
    match w
    case InsertSource(id, row, _) => rows[id := row]
    case UpdateSource(id, row) => rows[id := row]
    case _ => rows
  }

  function EvaluationsAfter(rows: map<Id, Evaluation>, w: Write): (r: map<Id, Evaluation>) {
    match w
    case InsertEvaluation(id, row) => rows[id := row]
    case UpdateEvaluation(id, row) => rows[id := row]
    case _ => rows
  }

  function ReviewsAfter(rows: map<Id, Review>, w: Write): (r: map<Id, Review>) {
    match w
    case InsertReview(id, row) => rows[id := row]
    case UpdateReview(id, row) => rows[id := row]
    case _ => rows
  }

  function DeploymentsAfter(rows: map<Id, Deployment>, w: Write): (r: map<Id, Deployment>) {
    match w
    case InsertDeployment(id, row) => rows[id := row]
    case UpdateDeployment(id, row) => rows[id := row]
    case _ => rows
  }

  function Written(s: Tables, w: Write): (s': Tables) {
    Tables(MemoriesAfter(s.memories, w), VersionsAfter(s.versions, w), SkillsAfter(s.skills, w), SourcesAfter(s.sources, w),
           EvaluationsAfter(s.evaluations, w), ReviewsAfter(s.reviews, w), DeploymentsAfter(s.deployments, w))
  }

  function Apply(s: Tables, w: Write): (s': Tables) {
    if Accepted(s, w) then Written(s, w) else s
  }

  function Grown(history: seq<Write>): (s: Tables)
    decreases |history|
  {
    if history == [] then NO_ROWS
    else Apply(Grown(history[..|history| - 1]), history[|history| - 1])
  }
}

/** What every accepted write keeps, and the theorems over whole histories. */
module GrowthTheorems {
  import opened Foundation
  import opened Growth

  // ----- rows that never change -----

  /** How one write may change the rows that publication relied on. */
  ghost predicate EvidenceKept(s: Tables, s': Tables) {
    && (forall g :: g in s.sources ==> g in s'.sources && s'.sources[g] == s.sources[g])
    && (forall e :: e in s.evaluations && s.evaluations[e].status != EvaluationPending ==>
          e in s'.evaluations && s'.evaluations[e] == s.evaluations[e])
    && (forall a :: a in s.reviews && s.reviews[a].status != ReviewRequested ==>
          a in s'.reviews && s'.reviews[a] == s.reviews[a])
  }

  lemma AppliedIs(s: Tables, w: Write)
    ensures Apply(s, w) == if Accepted(s, w) then Written(s, w) else s
  {
    hide Accepted, Written;
  }

  /** Which tables a write leaves alone. */
  lemma SkillsUntouched(s: Tables, w: Write)
    requires !w.InsertSkill? && !w.UpdateSkill?
    ensures Written(s, w).skills == s.skills
  {}

  lemma VersionsUntouched(s: Tables, w: Write)
    requires !w.InsertVersion? && !w.UpdateVersion?
    ensures Written(s, w).versions == s.versions
  {}

  lemma DeploymentsUntouched(s: Tables, w: Write)
    requires !w.InsertDeployment? && !w.UpdateDeployment?
    ensures Written(s, w).deployments == s.deployments
  {}

  lemma MemoriesUntouched(s: Tables, w: Write)
    requires !w.InsertMemory? && !w.UpdateMemory?
    ensures Written(s, w).memories == s.memories
  {}

  lemma WriteKeepsEvidence(s: Tables, w: Write)
    ensures EvidenceKept(s, Apply(s, w))
  {
    hide MemoryInsertOk, MemoryUpdateOk, VersionInsertOk, VersionUpdateOk, SkillInsertOk, SkillUpdateOk,
         DeploymentInsertOk, DeploymentUpdateOk, SubjectHash, OriginEnded, SubjectExists;
  }

  /** A subject's content has a source, a completed passing evaluation and an approved publication. */
  ghost predicate Evidenced(s: Tables, subject: Subject, hash: string) {
    && (exists g :: g in s.sources && s.sources[g].subject == subject)
    && (exists e :: e in s.evaluations && s.evaluations[e].subject == subject && s.evaluations[e].contentHash == hash
                    && s.evaluations[e].status == EvaluationCompleted && s.evaluations[e].passed == Some(true))
    && (exists a :: a in s.reviews && s.reviews[a].subject == subject && s.reviews[a].contentHash == hash
                    && s.reviews[a].status == ReviewApproved)
  }

  /** The same, with a reviewer who is not the requester. */
  ghost predicate EvidencedIndependently(s: Tables, subject: Subject, hash: string) {
    && Evidenced(s, subject, hash)
    && (exists a :: a in s.reviews && s.reviews[a].subject == subject && s.reviews[a].contentHash == hash
                    && s.reviews[a].status == ReviewApproved
                    && s.reviews[a].reviewer.Some? && s.reviews[a].reviewer.value != s.reviews[a].requester)
  }

  /** An approval of the content that has not run out at `now`; `independent` asks for a reviewer
      other than the requester. */
  ghost predicate ApprovedAt(s: Tables, subject: Subject, hash: string, now: int, independent: bool) {
    exists a :: a in s.reviews && s.reviews[a].subject == subject && s.reviews[a].contentHash == hash
                && s.reviews[a].status == ReviewApproved
                && (s.reviews[a].expiresAt.Some? ==> now < s.reviews[a].expiresAt.value)
                && (independent ==> s.reviews[a].reviewer.Some? && s.reviews[a].reviewer.value != s.reviews[a].requester)
  }

  lemma ApprovedAtExactly(s: Tables, subject: Subject, hash: string, now: int)
    ensures HasLiveApproval(s, subject, hash, now) <==> ApprovedAt(s, subject, hash, now, false)
    ensures HasIndependentApproval(s, subject, hash, now) <==> ApprovedAt(s, subject, hash, now, true)
  {
    if HasLiveApproval(s, subject, hash, now) {
      var a :| a in s.reviews && Approves(s.reviews[a], subject, hash) && Unexpired(s.reviews[a], now);
    }
    if HasIndependentApproval(s, subject, hash, now) {
      var a :| a in s.reviews && Approves(s.reviews[a], subject, hash) && Independent(s.reviews[a]) && Unexpired(s.reviews[a], now);
    }
  }

  predicate TerminalFor(e: Evaluation, subject: Subject, hash: string) {
    e.subject == subject && e.contentHash == hash && e.status in {EvaluationCompleted, EvaluationFailed}
  }

  /** The newest completed or failed evaluation of the content passed; of two made at the same time
      the one with the greater id is newer. */
  ghost predicate NewestPassed(s: Tables, subject: Subject, hash: string) {
    exists e ::
      && e in s.evaluations && TerminalFor(s.evaluations[e], subject, hash)
      && s.evaluations[e].status == EvaluationCompleted && s.evaluations[e].passed == Some(true)
      && forall other :: other in s.evaluations && other != e && TerminalFor(s.evaluations[other], subject, hash) ==>
           || s.evaluations[other].createdAt < s.evaluations[e].createdAt
           || (s.evaluations[other].createdAt == s.evaluations[e].createdAt && other.bits < e.bits)
  }

  lemma NewestPassedExactly(s: Tables, subject: Subject, hash: string)
    ensures LatestPasses(s, subject, hash) <==> NewestPassed(s, subject, hash)
    ensures LatestPasses(s, subject, hash) ==> HasPassing(s, subject, hash)
  {
    if LatestPasses(s, subject, hash) {
      var e :| e in s.evaluations && Passing(s.evaluations[e], subject, hash) && Latest(s, e, subject, hash);
      assert TerminalFor(s.evaluations[e], subject, hash);
    }
    if NewestPassed(s, subject, hash) {
      var e :|
        && e in s.evaluations && TerminalFor(s.evaluations[e], subject, hash)
        && s.evaluations[e].status == EvaluationCompleted && s.evaluations[e].passed == Some(true)
        && forall other :: other in s.evaluations && other != e && TerminalFor(s.evaluations[other], subject, hash) ==>
             || s.evaluations[other].createdAt < s.evaluations[e].createdAt
             || (s.evaluations[other].createdAt == s.evaluations[e].createdAt && other.bits < e.bits);
      assert Passing(s.evaluations[e], subject, hash);
      forall other | other in s.evaluations && other != e && s.evaluations[other].subject == subject
                     && s.evaluations[other].contentHash == hash && Terminated(s.evaluations[other])
        ensures LaterEvaluation(s, e, other)
      {
        assert TerminalFor(s.evaluations[other], subject, hash);
      }
    }
  }

  lemma EvidenceStays(s: Tables, s': Tables, subject: Subject, hash: string)
    requires EvidenceKept(s, s')
    ensures Evidenced(s, subject, hash) ==> Evidenced(s', subject, hash)
    ensures EvidencedIndependently(s, subject, hash) ==> EvidencedIndependently(s', subject, hash)
  {}

  // ----- invariants -----

  predicate Published(m: Memory) { m.status in {MemoryActive, MemoryInvalidated, MemoryExpired} }

  ghost predicate MemoriesEvidenced(s: Tables) {
    forall m :: m in s.memories && Published(s.memories[m]) ==> Evidenced(s, OfMemory(m), s.memories[m].contentHash)
  }

  ghost predicate VersionsEvidenced(s: Tables) {
    forall v :: v in s.versions && s.versions[v].status == VersionPublished ==>
      EvidencedIndependently(s, OfVersion(v), s.versions[v].contentHash)
  }

  /** A memory's version 1 supersedes nothing, every later one its direct predecessor. */
  ghost predicate Linked(memories: map<Id, Memory>, m: Id)
    requires m in memories
  {
    && memories[m].version >= 1
    && (memories[m].version == 1 ==> memories[m].supersedes.None?)
    && (memories[m].version > 1 ==>
          && memories[m].supersedes.Some? && memories[m].supersedes.value in memories
          && Precedes(memories[memories[m].supersedes.value], memories[m]))
  }

  ghost predicate Links(memories: map<Id, Memory>) {
    forall m :: m in memories ==> Linked(memories, m)
  }

  ghost predicate VersionsDiffer(memories: map<Id, Memory>) {
    forall a, b :: a in memories && b in memories && a != b ==>
      memories[a].key != memories[b].key || memories[a].version != memories[b].version
  }

  ghost predicate OneActive(memories: map<Id, Memory>) {
    forall a, b :: a in memories && b in memories && a != b && memories[a].key == memories[b].key ==>
      !(memories[a].status == MemoryActive && memories[b].status == MemoryActive)
  }

  ghost predicate Chained(memories: map<Id, Memory>) {
    Links(memories) && VersionsDiffer(memories) && OneActive(memories)
  }

  lemma LinkMeans(memories: map<Id, Memory>, m: Id)
    requires Chained(memories) && m in memories
    ensures memories[m].version >= 1
    ensures memories[m].version == 1 ==> memories[m].supersedes.None?
    ensures memories[m].version > 1 ==>
      && memories[m].supersedes.Some? && memories[m].supersedes.value in memories
      && var before := memories[memories[m].supersedes.value];
         before.version + 1 == memories[m].version && before.key == memories[m].key
         && before.kind == memories[m].kind && before.scope == memories[m].scope
  {
    assert Linked(memories, m);
    hide Chained;
  }

  /** What an active canary relies on. */
  ghost predicate CanarySafe(s: Tables, d: Deployment) {
    && d.skill in s.skills && s.skills[d.skill].status == SkillPublished
    && s.skills[d.skill].current.Some? && PublishedVersionOf(s, d.skill, s.skills[d.skill].current.value)
    && PublishedVersionOf(s, d.skill, d.version) && Inside(s.skills[d.skill].scope, d.scope)
  }

  ghost predicate CanariesSafe(s: Tables) {
    forall d :: d in s.deployments && s.deployments[d].status == Deployed ==> CanarySafe(s, s.deployments[d])
  }

  /** Published skills point at a published version of their own. */
  ghost predicate PointersSafe(s: Tables) {
    forall k :: k in s.skills && s.skills[k].status == SkillPublished ==>
      s.skills[k].current.Some? && PublishedVersionOf(s, k, s.skills[k].current.value)
  }

  ghost predicate Governed(s: Tables) {
    MemoriesEvidenced(s) && VersionsEvidenced(s) && Chained(s.memories) && CanariesSafe(s) && PointersSafe(s)
  }

  lemma PublishingIsEvidenced(s: Tables, id: Id, m: Memory, now: int)
    requires MemoryUpdateOk(s, id, m, now) && MemoriesEvidenced(s) && Published(m)
    ensures Evidenced(s, OfMemory(id), m.contentHash)
  {
    hide KeyFree, Unexpired;
    if Published(s.memories[id]) { assert Evidenced(s, OfMemory(id), s.memories[id].contentHash); }
  }

  lemma MemoriesStayEvidenced(s: Tables, w: Write)
    requires MemoriesEvidenced(s) && Accepted(s, w)
    ensures MemoriesEvidenced(Written(s, w))
  {
    var s' := Written(s, w);
    WriteKeepsEvidence(s, w);
    if w.UpdateMemory? && Published(w.memory) { PublishingIsEvidenced(s, w.id, w.memory, w.now); }
    MemoryRows(s, w);
    hide Written, Accepted, EvidenceKept, Evidenced, Published;
    forall m | m in s'.memories && Published(s'.memories[m])
      ensures Evidenced(s', OfMemory(m), s'.memories[m].contentHash)
    {
      EvidenceStays(s, s', OfMemory(m), s'.memories[m].contentHash);
    }
  }

  /** Where the memory rows after a write come from. */
  lemma MemoryRows(s: Tables, w: Write)
    requires Accepted(s, w)
    ensures var s' := Written(s, w);
      && (forall m :: m in s'.memories && (w.UpdateMemory? ==> m != w.id) && Published(s'.memories[m]) ==>
            m in s.memories && s'.memories[m] == s.memories[m])
      && (w.UpdateMemory? ==> s'.memories[w.id] == w.memory)
      && Apply(s, w) == s'
  {
    hide MemoryUpdateOk, VersionFree, Precedes, VersionUpdateOk, SkillUpdateOk, SourceInsertOk, EvaluationUpdateOk, ReviewUpdateOk,
         DeploymentInsertOk, DeploymentUpdateOk, EvaluationInsertOk, ReviewInsertOk, SkillInsertOk, VersionInsertOk;
  }

  lemma VersionsStayEvidenced(s: Tables, w: Write)
    requires VersionsEvidenced(s) && Accepted(s, w)
    ensures VersionsEvidenced(Written(s, w))
  {
    var s' := Written(s, w);
    WriteKeepsEvidence(s, w);
    if w.UpdateVersion? && w.version.status == VersionPublished { PublishingIsReviewed(s, w.id, w.version, w.now); }
    VersionRows(s, w);
    hide Written, Accepted, EvidenceKept, EvidencedIndependently;
    forall v | v in s'.versions && s'.versions[v].status == VersionPublished
      ensures EvidencedIndependently(s', OfVersion(v), s'.versions[v].contentHash)
    {
      EvidenceStays(s, s', OfVersion(v), s'.versions[v].contentHash);
    }
  }

  lemma PublishingIsReviewed(s: Tables, id: Id, v: SkillVersion, now: int)
    requires VersionUpdateOk(s, id, v, now) && v.status == VersionPublished
    ensures EvidencedIndependently(s, OfVersion(id), v.contentHash)
  {
    hide LatestPasses, Unexpired;
  }

  lemma VersionRows(s: Tables, w: Write)
    requires Accepted(s, w)
    ensures var s' := Written(s, w);
      && (forall v :: v in s'.versions && (w.UpdateVersion? ==> v != w.id) && s'.versions[v].status == VersionPublished ==>
            v in s.versions && s'.versions[v] == s.versions[v])
      && (w.UpdateVersion? ==> s'.versions[w.id] == w.version)
      && (forall v :: v in s.versions ==> v in s'.versions && s'.versions[v].skill == s.versions[v].skill)
      && (forall v :: v in s.versions && s.versions[v].status == VersionPublished ==> s'.versions[v] == s.versions[v])
      && Apply(s, w) == s'
  {
    hide MemoryUpdateOk, MemoryInsertOk, SkillUpdateOk, SourceInsertOk, EvaluationUpdateOk, ReviewUpdateOk,
         DeploymentInsertOk, DeploymentUpdateOk, EvaluationInsertOk, ReviewInsertOk, SkillInsertOk,
         HasSource, HasPassing, HasLiveApproval, LatestPasses, HasIndependentApproval;
  }

  // ----- memory chains -----

  lemma InsertKeepsLinks(s: Tables, id: Id, m: Memory, x: Id)
    requires Chained(s.memories) && MemoryInsertOk(s, id, m) && (x in s.memories || x == id)
    ensures Linked(s.memories[id := m], x)
  {
    hide Precedes, VersionFree;
    if x == id {
      hide Chained;
    } else {
      assert id !in s.memories && Linked(s.memories, x);
      hide Chained, MemoryInsertOk;
    }
  }

  lemma InsertKeepsLinked(s: Tables, id: Id, m: Memory)
    requires Chained(s.memories) && MemoryInsertOk(s, id, m)
    ensures Links(s.memories[id := m])
  {
    hide Linked, Chained, MemoryInsertOk;
    var memories' := s.memories[id := m];
    forall x | x in memories' ensures Linked(memories', x) {
      InsertKeepsLinks(s, id, m, x);
    }
  }

  lemma InsertKeepsChain(s: Tables, id: Id, m: Memory)
    requires Chained(s.memories) && MemoryInsertOk(s, id, m)
    ensures Chained(s.memories[id := m])
  {
    hide Links, Precedes;
    InsertKeepsLinked(s, id, m);
  }

  lemma RowUpdateKeepsLinks(memories: map<Id, Memory>, id: Id, m: Memory, x: Id)
    requires Links(memories) && id in memories && x in memories
    requires m.key == memories[id].key && m.version == memories[id].version && m.supersedes == memories[id].supersedes
    requires m.kind == memories[id].kind && m.scope == memories[id].scope
    ensures Linked(memories[id := m], x)
  {
    assert Linked(memories, x);
    hide Links;
  }

  lemma RowUpdateKeepsChain(memories: map<Id, Memory>, id: Id, m: Memory)
    requires Chained(memories) && id in memories
    requires m.key == memories[id].key && m.version == memories[id].version && m.supersedes == memories[id].supersedes
    requires m.kind == memories[id].kind && m.scope == memories[id].scope
    requires m.status == MemoryActive ==>
      forall other :: other in memories && other != id ==> memories[other].key != m.key || memories[other].status != MemoryActive
    ensures Chained(memories[id := m])
  {
    hide Linked;
    var memories' := memories[id := m];
    assert Links(memories') by {
      forall x | x in memories' ensures Linked(memories', x) { RowUpdateKeepsLinks(memories, id, m, x); }
    }
    assert memories'.Keys == memories.Keys;
    hide Links;
  }

  lemma UpdateKeepsChain(s: Tables, id: Id, m: Memory, now: int)
    requires Chained(s.memories) && MemoryUpdateOk(s, id, m, now)
    ensures Chained(s.memories[id := m])
  {
    if m.status == MemoryActive { assert KeyFree(s, id, m); }
    hide HasSource, HasPassing, HasLiveApproval, MemoryMoves, Chained;
    RowUpdateKeepsChain(s.memories, id, m);
  }

  lemma StaysChained(s: Tables, w: Write)
    requires Chained(s.memories) && Accepted(s, w)
    ensures Chained(Written(s, w).memories)
  {
    hide Chained, MemoryInsertOk, MemoryUpdateOk;
    match w {
      case InsertMemory(id, memory) => InsertKeepsChain(s, id, memory);
      case UpdateMemory(id, memory, now) => UpdateKeepsChain(s, id, memory, now);
      case _ =>
    }
  }

  // ----- canaries -----

  lemma PublishedStays(s: Tables, w: Write, skill: Id, version: Id)
    requires Accepted(s, w) && PublishedVersionOf(s, skill, version)
    ensures PublishedVersionOf(Written(s, w), skill, version)
  {
    VersionRows(s, w);
    hide Written, Accepted;
  }

  /** What one write may do to a skill with an active canary: nothing that matters to the canary. */
  ghost predicate SkillHeld(was: Skill, now: Skill) {
    now.scope == was.scope && now.current == was.current && (was.status == SkillPublished ==> now.status == SkillPublished)
  }

  lemma CanaryHoldsSkill(s: Tables, w: Write, d: Id)
    requires Accepted(s, w) && d in s.deployments && s.deployments[d].status == Deployed && s.deployments[d].skill in s.skills
    ensures var s' := Written(s, w);
      s.deployments[d].skill in s'.skills && SkillHeld(s.skills[s.deployments[d].skill], s'.skills[s.deployments[d].skill])
  {
    assert HasCanary(s, s.deployments[d].skill);
    hide HasCanary, MemoryUpdateOk, MemoryInsertOk, VersionUpdateOk, SourceInsertOk, EvaluationUpdateOk, ReviewUpdateOk,
         DeploymentInsertOk, DeploymentUpdateOk, EvaluationInsertOk, ReviewInsertOk, VersionInsertOk;
  }

  lemma DeploymentRows(s: Tables, w: Write)
    requires Accepted(s, w)
    ensures var s' := Written(s, w);
      forall d :: d in s'.deployments && s'.deployments[d].status == Deployed ==>
        (d in s.deployments && s'.deployments[d] == s.deployments[d])
        || (w.InsertDeployment? && d == w.id && s'.deployments[d] == w.deployment)
  {
    hide MemoryUpdateOk, MemoryInsertOk, VersionUpdateOk, SourceInsertOk, EvaluationUpdateOk, ReviewUpdateOk, SkillUpdateOk,
         SkillInsertOk, EvaluationInsertOk, ReviewInsertOk, VersionInsertOk, DeploymentInsertOk;
  }

  lemma InsertedCanaryIsSafe(s: Tables, id: Id, d: Deployment)
    requires PointersSafe(s) && DeploymentInsertOk(s, id, d)
    ensures CanarySafe(s.(deployments := s.deployments[id := d]), d)
  {}

  lemma CanaryStaysSafe(s: Tables, w: Write, d: Id)
    requires Accepted(s, w) && d in s.deployments && s.deployments[d].status == Deployed && CanarySafe(s, s.deployments[d])
    ensures CanarySafe(Written(s, w), s.deployments[d])
  {
    var row := s.deployments[d];
    CanaryHoldsSkill(s, w, d);
    PublishedStays(s, w, row.skill, row.version);
    PublishedStays(s, w, row.skill, s.skills[row.skill].current.value);
    hide Written, Accepted, PublishedVersionOf, Inside;
  }

  lemma CanariesStaySafe(s: Tables, w: Write)
    requires CanariesSafe(s) && PointersSafe(s) && Accepted(s, w)
    ensures CanariesSafe(Written(s, w))
  {
    var s' := Written(s, w);
    DeploymentRows(s, w);
    if w.InsertDeployment? { InsertedCanaryIsSafe(s, w.id, w.deployment); }
    forall d | d in s'.deployments && s'.deployments[d].status == Deployed ensures CanarySafe(s', s'.deployments[d]) {
      if d in s.deployments && s'.deployments[d] == s.deployments[d] { CanaryStaysSafe(s, w, d); }
    }
    hide CanarySafe, Written, Accepted;
  }

  lemma PointersStaySafe(s: Tables, w: Write)
    requires PointersSafe(s) && Accepted(s, w)
    ensures PointersSafe(Written(s, w))
  {
    var s' := Written(s, w);
    SkillRows(s, w);
    hide Written, Accepted, PublishedVersionOf;
    forall k | k in s'.skills && s'.skills[k].status == SkillPublished
      ensures s'.skills[k].current.Some? && PublishedVersionOf(s', k, s'.skills[k].current.value)
    {
      PublishedStays(s, w, k, s'.skills[k].current.value);
    }
  }

  lemma SkillRows(s: Tables, w: Write)
    requires PointersSafe(s) && Accepted(s, w)
    ensures var s' := Written(s, w);
      forall k :: k in s'.skills && s'.skills[k].status == SkillPublished ==>
        s'.skills[k].current.Some? && PublishedVersionOf(s, k, s'.skills[k].current.value)
  {
    if w.InsertSkill? {
      assert SkillInsertOk(s, w.id, w.skill);
      assert Written(s, w).skills == s.skills[w.id := w.skill];
    } else if w.UpdateSkill? {
      assert SkillUpdateOk(s, w.id, w.skill);
      assert Written(s, w).skills == s.skills[w.id := w.skill];
    } else {
      SkillsUntouched(s, w);
    }
    hide Accepted, Written, HasCanary, PublishedVersionOf, SkillMoves;
  }

  lemma WriteKeeps(s: Tables, w: Write)
    requires Governed(s)
    ensures Governed(Apply(s, w))
  {
    hide MemoriesEvidenced, VersionsEvidenced, Chained, CanariesSafe, PointersSafe, Written, Accepted;
    if Accepted(s, w) {
      MemoriesStayEvidenced(s, w);
      VersionsStayEvidenced(s, w);
      StaysChained(s, w);
      CanariesStaySafe(s, w);
      PointersStaySafe(s, w);
    }
  }

  /** Every history of guarded writes keeps all the facts. */
  lemma {:induction false} AlwaysGoverned(history: seq<Write>)
    ensures Governed(Grown(history))
    decreases |history|
  {
    if history != [] {
      AlwaysGoverned(history[..|history| - 1]);
      hide Governed, Apply;
      WriteKeeps(Grown(history[..|history| - 1]), history[|history| - 1]);
    }
  }

  lemma GrownStep(history: seq<Write>, w: Write)
    ensures Grown(history + [w]) == Apply(Grown(history), w)
  {
    assert (history + [w])[..|history|] == history;
    hide Apply;
  }

  // ----- evidence outlives publication -----

  lemma MemoriesKeepHash(s: Tables, w: Write)
    requires Accepted(s, w)
    ensures var s' := Written(s, w);
      forall m :: m in s.memories ==> m in s'.memories && s'.memories[m].contentHash == s.memories[m].contentHash
  {
    if w.InsertMemory? {
      assert MemoryInsertOk(s, w.id, w.memory);
      assert Written(s, w).memories == s.memories[w.id := w.memory];
    } else if w.UpdateMemory? {
      assert MemoryUpdateOk(s, w.id, w.memory, w.now);
      assert Written(s, w).memories == s.memories[w.id := w.memory];
    } else {
      MemoriesUntouched(s, w);
    }
    hide Accepted, Written, HasSource, HasPassing, HasLiveApproval, KeyFree, VersionFree, MemoryMoves, Precedes;
  }

  lemma VersionsKeepHash(s: Tables, w: Write)
    requires Accepted(s, w)
    ensures var s' := Written(s, w);
      forall v :: v in s.versions ==> v in s'.versions && s'.versions[v].contentHash == s.versions[v].contentHash
  {
    if w.InsertVersion? {
      assert VersionInsertOk(s, w.id, w.version);
      assert Written(s, w).versions == s.versions[w.id := w.version];
    } else if w.UpdateVersion? {
      assert VersionUpdateOk(s, w.id, w.version, w.now);
      assert Written(s, w).versions == s.versions[w.id := w.version];
    } else {
      VersionsUntouched(s, w);
    }
    hide Accepted, Written, HasSource, HasPassing, HasLiveApproval, LatestPasses, HasIndependentApproval, VersionMoves;
  }

  lemma RowsKeepHash(s: Tables, w: Write)
    ensures var s' := Apply(s, w);
      && (forall m :: m in s.memories ==> m in s'.memories && s'.memories[m].contentHash == s.memories[m].contentHash)
      && (forall v :: v in s.versions ==> v in s'.versions && s'.versions[v].contentHash == s.versions[v].contentHash)
  {
    AppliedIs(s, w);
    hide *;
    if Accepted(s, w) {
      MemoriesKeepHash(s, w);
      VersionsKeepHash(s, w);
    }
  }

  lemma {:induction false} EvidencePersists(history: seq<Write>, later: seq<Write>, subject: Subject, hash: string)
    ensures Evidenced(Grown(history), subject, hash) ==> Evidenced(Grown(history + later), subject, hash)
    ensures EvidencedIndependently(Grown(history), subject, hash) ==>
      EvidencedIndependently(Grown(history + later), subject, hash)
    decreases |later|
  {
    if later == [] {
      assert history + later == history;
    } else {
      var n := |later| - 1;
      assert history + later == (history + later[..n]) + [later[n]];
      hide *;
      EvidencePersists(history, later[..n], subject, hash);
      GrownStep(history + later[..n], later[n]);
      WriteKeepsEvidence(Grown(history + later[..n]), later[n]);
      EvidenceStays(Grown(history + later[..n]), Grown(history + later), subject, hash);
    }
  }

  lemma {:induction false} HashPersists(history: seq<Write>, later: seq<Write>)
    ensures var s, s' := Grown(history), Grown(history + later);
      && (forall m :: m in s.memories ==> m in s'.memories && s'.memories[m].contentHash == s.memories[m].contentHash)
      && (forall v :: v in s.versions ==> v in s'.versions && s'.versions[v].contentHash == s.versions[v].contentHash)
    decreases |later|
  {
    if later == [] {
      assert history + later == history;
    } else {
      var n := |later| - 1;
      assert history + later == (history + later[..n]) + [later[n]];
      hide *;
      HashPersists(history, later[..n]);
      GrownStep(history + later[..n], later[n]);
      RowsKeepHash(Grown(history + later[..n]), later[n]);
    }
  }

  /** Whatever was once published keeps its evidence for ever, for the content it still has: a
      memory that was active, invalidated or expired at any point (even if it is deleted later), and
      a skill version that was published, whose approval came from someone else than the requester. */
  lemma EvidenceOutlivesPublication(history: seq<Write>, later: seq<Write>, id: Id)
    ensures var s, s' := Grown(history), Grown(history + later);
      && (id in s.memories && Published(s.memories[id]) ==>
            id in s'.memories && Evidenced(s', OfMemory(id), s'.memories[id].contentHash))
      && (id in s.versions && s.versions[id].status == VersionPublished ==>
            id in s'.versions && EvidencedIndependently(s', OfVersion(id), s'.versions[id].contentHash))
  {
    var s := Grown(history);
    AlwaysGoverned(history);
    assert MemoriesEvidenced(s) && VersionsEvidenced(s);
    HashPersists(history, later);
    hide Grown, Governed, Evidenced, EvidencedIndependently, Published;
    if id in s.memories { EvidencePersists(history, later, OfMemory(id), s.memories[id].contentHash); }
    if id in s.versions { EvidencePersists(history, later, OfVersion(id), s.versions[id].contentHash); }
  }

  /** The i-th write of a history published version `v`, and at that moment its latest terminal
      evaluation had passed and an unexpired approval by someone else was in place. */
  ghost predicate PublishedAt(history: seq<Write>, i: nat, v: Id)
    requires i < |history|
  {
    var s, w := Grown(history[..i]), history[i];
    && w.UpdateVersion? && w.id == v && w.version.status == VersionPublished && Accepted(s, w)
    && NewestPassed(s, OfVersion(v), w.version.contentHash)
    && ApprovedAt(s, OfVersion(v), w.version.contentHash, w.now, true)
  }

  lemma VersionPublishedBy(s: Tables, w: Write, v: Id)
    requires v in Apply(s, w).versions && Apply(s, w).versions[v].status == VersionPublished
    ensures (v in s.versions && s.versions[v].status == VersionPublished)
         || (w.UpdateVersion? && w.id == v && w.version.status == VersionPublished && Accepted(s, w)
             && NewestPassed(s, OfVersion(v), w.version.contentHash)
             && ApprovedAt(s, OfVersion(v), w.version.contentHash, w.now, true))
  {
    AppliedIs(s, w);
    if Accepted(s, w) {
      if w.InsertVersion? {
        assert VersionInsertOk(s, w.id, w.version);
        assert Written(s, w).versions == s.versions[w.id := w.version];
      } else if w.UpdateVersion? {
        assert VersionUpdateOk(s, w.id, w.version, w.now);
        assert Written(s, w).versions == s.versions[w.id := w.version];
        NewestPassedExactly(s, OfVersion(w.id), w.version.contentHash);
        ApprovedAtExactly(s, OfVersion(w.id), w.version.contentHash, w.now);
      } else {
        VersionsUntouched(s, w);
      }
    }
    hide Accepted, Written, Apply, HasSource, HasPassing, HasLiveApproval, LatestPasses, HasIndependentApproval, VersionMoves,
         NewestPassed, ApprovedAt;
  }

  /** Every published version was published by one write of the history, on the strength of its then
      latest evaluation and an independent approval. */
  lemma {:induction false} PublishedOnLatest(history: seq<Write>, v: Id) returns (i: nat)
    requires v in Grown(history).versions && Grown(history).versions[v].status == VersionPublished
    ensures i < |history| && PublishedAt(history, i, v)
    decreases |history|
  {
    var n := |history| - 1;
    VersionPublishedBy(Grown(history[..n]), history[n], v);
    hide Apply, Accepted, NewestPassed, ApprovedAt;
    if v in Grown(history[..n]).versions && Grown(history[..n]).versions[v].status == VersionPublished {
      i := PublishedOnLatest(history[..n], v);
      assert history[..n][..i] == history[..i];
    } else {
      i := n;
    }
  }

  // ----- recorded times -----

  /** The status of a memory is backed by the time column it needs. */
  predicate Stamped(m: Memory) {
    && (m.status == MemoryInvalidated ==> m.invalidatedAt.Some?)
    && (m.status == MemoryDeleted ==> m.deletedAt.Some?)
    && (m.status == MemoryExpired ==> m.expiresAt.Some?)
  }

  lemma WriteStamps(s: Tables, w: Write)
    requires forall m :: m in s.memories ==> Stamped(s.memories[m])
    ensures forall m :: m in Apply(s, w).memories ==> Stamped(Apply(s, w).memories[m])
  {
    AppliedIs(s, w);
    if Accepted(s, w) {
      if w.InsertMemory? {
        assert MemoryInsertOk(s, w.id, w.memory);
        assert Written(s, w).memories == s.memories[w.id := w.memory];
      } else if w.UpdateMemory? {
        assert MemoryUpdateOk(s, w.id, w.memory, w.now);
        assert Written(s, w).memories == s.memories[w.id := w.memory];
      } else {
        MemoriesUntouched(s, w);
      }
    }
    hide Accepted, Written, Apply, HasSource, HasPassing, HasLiveApproval, KeyFree, VersionFree, Precedes;
  }

  /** In every reachable state an invalidated or deleted memory carries the time it happened, and an
      expired one had an expiry. */
  lemma {:induction false} MemoriesStamped(history: seq<Write>, m: Id)
    requires m in Grown(history).memories
    ensures Stamped(Grown(history).memories[m])
    decreases |history|
  {
    var before := history[..|history| - 1];
    forall x | x in Grown(before).memories ensures Stamped(Grown(before).memories[x]) { MemoriesStamped(before, x); }
    hide Apply, Stamped;
    WriteStamps(Grown(before), history[|history| - 1]);
  }

  // ----- linear version chains -----

  function VersionsOfKey(memories: map<Id, Memory>, key: string): (versions: set<nat>) {
    set m | m in memories && memories[m].key == key :: memories[m].version
  }

  /** The version `steps` supersedes-links before `m`. */
  function Superseded(memories: map<Id, Memory>, m: Id, steps: nat): (before: Option<Id>)
    decreases steps
  {
    if steps == 0 then Some(m)
    else if m in memories && memories[m].supersedes.Some? then Superseded(memories, memories[m].supersedes.value, steps - 1)
    else None
  }

  lemma SupersededStep(memories: map<Id, Memory>, m: Id, steps: nat)
    ensures Superseded(memories, m, steps)
         == if steps == 0 then Some(m)
            else if m in memories && memories[m].supersedes.Some? then Superseded(memories, memories[m].supersedes.value, steps - 1)
            else None
  {}

  /** Following the links goes down one version at a time and never leaves the key, type or scope. */
  lemma {:induction false} ChainGoesDown(memories: map<Id, Memory>, m: Id, steps: nat)
    requires Chained(memories) && m in memories && steps < memories[m].version
    ensures Superseded(memories, m, steps).Some? && Superseded(memories, m, steps).value in memories
    ensures var earlier := memories[Superseded(memories, m, steps).value];
      && earlier.version == memories[m].version - steps && earlier.key == memories[m].key
      && earlier.kind == memories[m].kind && earlier.scope == memories[m].scope
    decreases steps
  {
    hide *;
    LinkMeans(memories, m);
    SupersededStep(memories, m, steps);
    if steps > 0 {
      ChainGoesDown(memories, memories[m].supersedes.value, steps - 1);
    }
  }

  lemma {:induction false} LinksStop(memories: map<Id, Memory>, m: Id, steps: nat)
    requires Chained(memories) && m in memories && steps >= memories[m].version
    ensures Superseded(memories, m, steps) == None
    decreases steps
  {
    hide *;
    LinkMeans(memories, m);
    SupersededStep(memories, m, steps);
    if memories[m].version > 1 { LinksStop(memories, memories[m].supersedes.value, steps - 1); }
  }

  /** In every reachable state: following supersedes links from version v reaches version 1 in v - 1
      steps and then ends, with key, type and scope constant on the way. */
  lemma ChainReachesFirst(history: seq<Write>, m: Id, steps: nat)
    requires m in Grown(history).memories
    ensures var memories := Grown(history).memories;
      var v := memories[m].version;
      && v >= 1
      && (Superseded(memories, m, steps).Some? <==> steps < v)
      && (steps < v ==>
            var before := Superseded(memories, m, steps).value;
            && before in memories && memories[before].version == v - steps && memories[before].key == memories[m].key
            && memories[before].kind == memories[m].kind && memories[before].scope == memories[m].scope)
  {
    AlwaysGoverned(history);
    var memories := Grown(history).memories;
    assert Chained(memories);
    assert Linked(memories, m);
    hide *;
    if steps < memories[m].version { ChainGoesDown(memories, m, steps); } else { LinksStop(memories, m, steps); }
  }

  lemma VersionsBelow(memories: map<Id, Memory>, m: Id, v: nat)
    requires Chained(memories) && m in memories && 1 <= v <= memories[m].version
    ensures v in VersionsOfKey(memories, memories[m].key)
  {
    hide *;
    ChainGoesDown(memories, m, memories[m].version - v);
    StoredVersion(memories, Superseded(memories, m, memories[m].version - v).value);
  }

  lemma StoredVersion(memories: map<Id, Memory>, m: Id)
    requires m in memories
    ensures memories[m].version in VersionsOfKey(memories, memories[m].key)
  {}

  /** The greatest version of a non-empty set. */
  lemma {:induction false} GreatestVersion(versions: set<nat>) returns (n: nat)
    requires versions != {}
    ensures n in versions && forall v :: v in versions ==> v <= n
    decreases versions
  {
    n :| n in versions;
    if versions != {n} {
      var rest := GreatestVersion(versions - {n});
      assert forall v :: v in versions ==> v == n || v in versions - {n};
      if rest > n { n := rest; }
    }
  }

  /** In every reachable state the versions stored for a key are exactly 1..n, each once, and at most
      one of them is active. */
  lemma VersionsAreContiguous(history: seq<Write>, key: string) returns (n: nat)
    ensures var memories := Grown(history).memories;
      && (forall v: nat :: v in VersionsOfKey(memories, key) <==> 1 <= v <= n)
      && (forall a, b :: a in memories && b in memories && memories[a].key == key && memories[b].key == key && a != b ==>
            memories[a].version != memories[b].version
            && !(memories[a].status == MemoryActive && memories[b].status == MemoryActive))
  {
    AlwaysGoverned(history);
    var memories := Grown(history).memories;
    assert Chained(memories);
    hide Grown, Governed, Linked;
    n := 0;
    if VersionsOfKey(memories, key) != {} {
      n := GreatestVersion(VersionsOfKey(memories, key));
      var top :| top in memories && memories[top].key == key && memories[top].version == n;
      forall v: nat | 1 <= v <= n ensures v in VersionsOfKey(memories, key) { VersionsBelow(memories, top, v); }
      forall v | v in VersionsOfKey(memories, key) ensures v >= 1 { VersionsPositive(memories, key, v); }
    }
  }

  lemma VersionsPositive(memories: map<Id, Memory>, key: string, v: nat)
    requires Chained(memories) && v in VersionsOfKey(memories, key)
    ensures v >= 1
  {
    var m :| m in memories && memories[m].key == key && memories[m].version == v;
    assert Linked(memories, m);
  }

  // ----- canaries -----

  /** In every reachable state an active canary belongs to a published skill with a published current
      version, runs a published version of that skill, and stays inside the skill's scope. */
  lemma CanariesAlwaysSafe(history: seq<Write>, d: Id)
    requires d in Grown(history).deployments && Grown(history).deployments[d].status == Deployed
    ensures var s := Grown(history);
      var row := s.deployments[d];
      && row.skill in s.skills && s.skills[row.skill].status == SkillPublished && s.skills[row.skill].current.Some?
      && (s.skills[row.skill].scope == TenantScope || s.skills[row.skill].scope == row.scope)
      && (forall v :: v in {row.version, s.skills[row.skill].current.value} ==>
            v in s.versions && s.versions[v].skill == row.skill && s.versions[v].status == VersionPublished)
  {
    AlwaysGoverned(history);
    assert CanariesSafe(Grown(history));
  }

  lemma CanaryOnlyAges(s: Tables, w: Write, d: Id)
    requires d in s.deployments
    ensures var s' := Apply(s, w);
      && d in s'.deployments && s'.deployments[d].skill == s.deployments[d].skill
      && (s'.deployments[d].status == Deployed ==> s.deployments[d].status == Deployed)
  {
    AppliedIs(s, w);
    if Accepted(s, w) {
      if w.InsertDeployment? {
        assert DeploymentInsertOk(s, w.id, w.deployment);
        assert Written(s, w).deployments == s.deployments[w.id := w.deployment];
      } else if w.UpdateDeployment? {
        assert DeploymentUpdateOk(s, w.id, w.deployment);
        assert Written(s, w).deployments == s.deployments[w.id := w.deployment];
      } else {
        DeploymentsUntouched(s, w);
      }
    }
    hide Accepted, Written, Apply, PublishedVersionOf, Inside;
  }

  /** The stable pointer does not move while a canary is active: a canary that is still active after
      any later writes sees the very pointer it saw before them. */
  lemma {:induction false} PointerHeldByCanary(history: seq<Write>, later: seq<Write>, d: Id)
    requires d in Grown(history).deployments && d in Grown(history + later).deployments
    requires Grown(history + later).deployments[d].status == Deployed
    ensures var s, s' := Grown(history), Grown(history + later);
      var skill := s.deployments[d].skill;
      && s.deployments[d].status == Deployed && s'.deployments[d].skill == skill
      && skill in s.skills && skill in s'.skills && s'.skills[skill].current == s.skills[skill].current
    decreases |later|
  {
    if later == [] {
      assert history + later == history;
      CanariesAlwaysSafe(history, d);
      hide Grown;
    } else {
      var n := |later| - 1;
      var before := history + later[..n];
      assert history + later == before + [later[n]];
      StillThere(history, later[..n], d);
      GrownStep(before, later[n]);
      CanaryOnlyAges(Grown(before), later[n], d);
      hide *;
      PointerHeldByCanary(history, later[..n], d);
      PointerHeldOnce(Grown(before), later[n], d);
    }
  }

  lemma PointerHeldOnce(s: Tables, w: Write, d: Id)
    requires d in s.deployments && s.deployments[d].status == Deployed && s.deployments[d].skill in s.skills
    ensures var s' := Apply(s, w);
      s.deployments[d].skill in s'.skills
      && s'.skills[s.deployments[d].skill].current == s.skills[s.deployments[d].skill].current
  {
    hide Accepted, Written;
    if Accepted(s, w) { CanaryHoldsSkill(s, w, d); }
  }

  lemma {:induction false} StillThere(history: seq<Write>, later: seq<Write>, d: Id)
    requires d in Grown(history).deployments
    ensures d in Grown(history + later).deployments
    decreases |later|
  {
    if later == [] {
      assert history + later == history;
    } else {
      var n := |later| - 1;
      assert history + later == (history + later[..n]) + [later[n]];
      StillThere(history, later[..n], d);
      GrownStep(history + later[..n], later[n]);
      hide Grown, Apply;
      CanaryOnlyAges(Grown(history + later[..n]), later[n], d);
    }
  }
}
