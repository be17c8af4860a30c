/** Exactly which writes the growth guards accept, in terms of the rows alone. */
module GrowthWrites {
  import opened Foundation
  import opened RunStates
  import opened Growth
  import opened GrowthTheorems

  /** The memory's content, scope, version, predecessor and expiry are the same. */
  predicate SameMemoryContent(was: Memory, m: Memory) {
    && m.key == was.key && m.version == was.version && m.kind == was.kind && m.scope == was.scope && m.content == was.content
    && m.contentHash == was.contentHash && m.supersedes == was.supersedes && m.expiresAt == was.expiresAt
  }

  /** The status moves a memory may make, itself included while it is not deleted. */
  const MEMORY_MOVES: set<(MemoryStatus, MemoryStatus)> := {
    (MemoryCandidate, MemoryCandidate), (MemoryCandidate, MemoryActive), (MemoryCandidate, MemoryDeleted),
    (MemoryActive, MemoryActive), (MemoryActive, MemoryInvalidated), (MemoryActive, MemoryExpired), (MemoryActive, MemoryDeleted),
    (MemoryInvalidated, MemoryInvalidated), (MemoryInvalidated, MemoryDeleted),
    (MemoryExpired, MemoryExpired), (MemoryExpired, MemoryDeleted)}

  predicate OtherActive(s: Tables, id: Id, key: string) {
    exists other :: other in s.memories && other != id && s.memories[other].key == key && s.memories[other].status == MemoryActive
  }

  /** A memory becomes active if and only if it is a candidate of unchanged content with a source, a
      passed evaluation and an approval of that content that has not run out, and no other version of
      it is active. */
  lemma ActivatesExactly(s: Tables, id: Id, m: Memory, now: int)
    requires id in s.memories && s.memories[id].status != MemoryActive && m.status == MemoryActive
    ensures Accepted(s, UpdateMemory(id, m, now)) <==>
      && s.memories[id].status == MemoryCandidate && SameMemoryContent(s.memories[id], m)
      && Evidenced(s, OfMemory(id), m.contentHash) && ApprovedAt(s, OfMemory(id), m.contentHash, now, false)
      && !OtherActive(s, id, m.key)
  {
    var subject, hash := OfMemory(id), m.contentHash;
    ApprovedAtExactly(s, subject, hash, now);
    EvidencedExactly(s, subject, hash, now);
    OtherActiveExactly(s, id, m);
    hide Evidenced, ApprovedAt, HasSource, HasPassing, HasLiveApproval, KeyFree, OtherActive;
  }

  lemma OtherActiveExactly(s: Tables, id: Id, m: Memory)
    ensures KeyFree(s, id, m) <==> !OtherActive(s, id, m.key)
  {}

  lemma EvidencedExactly(s: Tables, subject: Subject, hash: string, now: int)
    ensures HasSource(s, subject) <==> exists g :: g in s.sources && s.sources[g].subject == subject
    ensures ApprovedAt(s, subject, hash, now, false) ==>
      (Evidenced(s, subject, hash) <==> HasSource(s, subject) && HasPassing(s, subject, hash))
  {
    if HasPassing(s, subject, hash) {
      var e :| e in s.evaluations && Passing(s.evaluations[e], subject, hash);
    }
    if e :| e in s.evaluations && s.evaluations[e].subject == subject && s.evaluations[e].contentHash == hash
            && s.evaluations[e].status == EvaluationCompleted && s.evaluations[e].passed == Some(true) {
      assert Passing(s.evaluations[e], subject, hash);
    }
  }

  /** Every other update of a memory is accepted if and only if it keeps the content, makes an allowed
      move, and brings the time its new status needs; an active memory stays the only active one. */
  lemma MemoryWritesExactly(s: Tables, id: Id, m: Memory, now: int)
    requires id in s.memories && !(s.memories[id].status != MemoryActive && m.status == MemoryActive)
    ensures Accepted(s, UpdateMemory(id, m, now)) <==>
      && SameMemoryContent(s.memories[id], m) && (s.memories[id].status, m.status) in MEMORY_MOVES
      && (m.status == MemoryInvalidated ==> m.invalidatedAt.Some?) && (m.status == MemoryDeleted ==> m.deletedAt.Some?)
      && (m.status == MemoryExpired ==> m.expiresAt.Some? && m.expiresAt.value <= now)
      && (m.status == MemoryActive ==> !OtherActive(s, id, m.key))
  {
    OtherActiveExactly(s, id, m);
    MovesExactly(s.memories[id].status, m.status);
    hide HasSource, HasPassing, HasLiveApproval, KeyFree, OtherActive, MemoryMoves, MEMORY_MOVES;
  }

  lemma MovesExactly(was: MemoryStatus, now: MemoryStatus)
    ensures (was, now) in MEMORY_MOVES <==> was != MemoryDeleted && (now == was || MemoryMoves(was, now))
  {}

  /** A memory is inserted if and only if it is a new candidate whose version follows on the one it
      supersedes: version 1 supersedes nothing, version n > 1 the stored version n - 1 of the same key,
      type and scope. */
  lemma MemoryInsertsExactly(s: Tables, id: Id, m: Memory)
    ensures Accepted(s, InsertMemory(id, m)) <==>
      && id !in s.memories && m.status == MemoryCandidate
      && (forall other :: other in s.memories ==> !(s.memories[other].key == m.key && s.memories[other].version == m.version))
      && ((m.version == 1 && m.supersedes.None?)
          || (m.version > 1 && m.supersedes.Some? && m.supersedes.value in s.memories
              && var before := s.memories[m.supersedes.value];
                 before.key == m.key && before.version == m.version - 1 && before.kind == m.kind && before.scope == m.scope))
  {}

  /** A skill version is published if and only if it is in testing and unchanged, it has a source, its
      newest finished evaluation passed, and someone other than the requester approved its content in
      an approval that has not run out. */
  lemma PublishesExactly(s: Tables, id: Id, v: SkillVersion, now: int)
    requires v.status == VersionPublished
    ensures Accepted(s, UpdateVersion(id, v, now)) <==>
      && id in s.versions && s.versions[id].status == VersionTesting
      && v.skill == s.versions[id].skill && v.number == s.versions[id].number && v.content == s.versions[id].content
      && v.contentHash == s.versions[id].contentHash
      && (exists g :: g in s.sources && s.sources[g].subject == OfVersion(id))
      && NewestPassed(s, OfVersion(id), v.contentHash) && ApprovedAt(s, OfVersion(id), v.contentHash, now, true)
  {
    var subject, hash := OfVersion(id), v.contentHash;
    ApprovedAtExactly(s, subject, hash, now);
    NewestPassedExactly(s, subject, hash);
    EvidencedExactly(s, subject, hash, now);
    IndependentIsLive(s, subject, hash, now);
    hide NewestPassed, ApprovedAt, HasSource, HasPassing, HasLiveApproval, LatestPasses, HasIndependentApproval;
  }

  lemma IndependentIsLive(s: Tables, subject: Subject, hash: string, now: int)
    ensures ApprovedAt(s, subject, hash, now, true) ==> ApprovedAt(s, subject, hash, now, false)
  {}

  /** A version starts as a draft under a number of its skill that is not taken. */
  lemma VersionInsertsExactly(s: Tables, id: Id, v: SkillVersion)
    ensures Accepted(s, InsertVersion(id, v)) <==>
      && id !in s.versions && v.skill in s.skills && v.status == VersionDraft
      && (forall x :: x in s.versions ==> !(s.versions[x].skill == v.skill && s.versions[x].number == v.number))
  {}

  /** A skill starts as a candidate without a version, under a name that is not taken. */
  lemma SkillInsertsExactly(s: Tables, id: Id, k: Skill)
    ensures Accepted(s, InsertSkill(id, k)) <==>
      && id !in s.skills && k.status == SkillCandidate && k.current == None && (forall x :: x in s.skills ==> s.skills[x].name != k.name)
  {}

  /** Every other update of a skill version is accepted if and only if it keeps the content and stays
      in draft or testing, goes from draft to testing, or rejects. */
  lemma VersionWritesExactly(s: Tables, id: Id, v: SkillVersion, now: int)
    requires v.status != VersionPublished
    ensures Accepted(s, UpdateVersion(id, v, now)) <==>
      && id in s.versions && v.(status := s.versions[id].status) == s.versions[id]
      && (s.versions[id].status, v.status) in {
           (VersionDraft, VersionDraft), (VersionDraft, VersionTesting), (VersionDraft, VersionRejected),
           (VersionTesting, VersionTesting), (VersionTesting, VersionRejected)}
  {
    hide HasSource, HasPassing, HasLiveApproval, LatestPasses, HasIndependentApproval;
  }

  /** The status moves a skill may make, itself included while it is not disabled. */
  const SKILL_MOVES: set<(SkillStatus, SkillStatus)> := {
    (SkillCandidate, SkillCandidate), (SkillCandidate, SkillTesting), (SkillCandidate, SkillDisabled),
    (SkillTesting, SkillTesting), (SkillTesting, SkillCandidate), (SkillTesting, SkillApproved), (SkillTesting, SkillDisabled),
    (SkillApproved, SkillApproved), (SkillApproved, SkillPublished), (SkillApproved, SkillDisabled),
    (SkillPublished, SkillPublished), (SkillPublished, SkillDeprecated), (SkillPublished, SkillDisabled),
    (SkillDeprecated, SkillDeprecated), (SkillDeprecated, SkillPublished), (SkillDeprecated, SkillDisabled)}

  lemma SkillMovesExactly(was: SkillStatus, now: SkillStatus)
    ensures (was, now) in SKILL_MOVES <==> was != SkillDisabled && (now == was || SkillMoves(was, now))
  {}

  predicate CanaryRuns(s: Tables, skill: Id) {
    exists d :: d in s.deployments && s.deployments[d].skill == skill && s.deployments[d].status == Deployed
  }

  lemma CanaryRunsExactly(s: Tables, skill: Id)
    ensures CanaryRuns(s, skill) <==> HasCanary(s, skill)
  {}

  /** A skill is updated if and only if name and scope stay, the move is allowed, its pointer names a
      version of its own (none before it is published, a published one while it is), and no canary of
      it runs when it is stopped or its pointer moves. */
  lemma SkillWritesExactly(s: Tables, id: Id, k: Skill)
    requires id in s.skills
    ensures Accepted(s, UpdateSkill(id, k)) <==>
      var was := s.skills[id];
      && k.name == was.name && k.scope == was.scope && (was.status, k.status) in SKILL_MOVES
      && (k.status in {SkillCandidate, SkillTesting, SkillApproved} ==> k.current.None?)
      && (k.status == SkillPublished ==> k.current.Some?)
      && (k.current.Some? ==>
            k.current.value in s.versions && s.versions[k.current.value].skill == id
            && (k.status == SkillPublished ==> s.versions[k.current.value].status == VersionPublished))
      && (CanaryRuns(s, id) ==> k.current == was.current && (k.status == was.status || k.status !in {SkillDeprecated, SkillDisabled}))
  {
    CanaryRunsExactly(s, id);
    SkillMovesExactly(s.skills[id].status, k.status);
    hide CanaryRuns, HasCanary, SKILL_MOVES, SkillMoves;
  }

  /** A canary starts if and only if it runs a published version of a published skill, for a project or
      an agent inside the skill's own scope where no other one runs; the only update of a canary retires it. */
  lemma CanaryWritesExactly(s: Tables, id: Id, d: Deployment)
    ensures Accepted(s, InsertDeployment(id, d)) <==>
      && id !in s.deployments && d.status == Deployed && d.scope != TenantScope
      && d.version in s.versions && s.versions[d.version].skill == d.skill && s.versions[d.version].status == VersionPublished
      && d.skill in s.skills && s.skills[d.skill].status == SkillPublished && s.skills[d.skill].current.Some?
      && s.skills[d.skill].scope in {TenantScope, d.scope}
      && (forall x :: x in s.deployments && s.deployments[x].skill == d.skill && s.deployments[x].scope == d.scope ==>
            s.deployments[x].status == Retired)
    ensures Accepted(s, UpdateDeployment(id, d)) <==>
      && id in s.deployments && s.deployments[id].status == Deployed && d == s.deployments[id].(status := Retired)
      && d.version in s.versions && s.versions[d.version].skill == d.skill && s.versions[d.version].status == VersionPublished
  {}

  /** The stored content the subject has. */
  predicate ContentIs(s: Tables, subject: Subject, hash: string) {
    match subject
    case OfMemory(m) => m in s.memories && s.memories[m].contentHash == hash
    case OfVersion(v) => v in s.versions && s.versions[v].contentHash == hash
  }

  /** The same evaluator on the same content. */
  predicate SameProfile(a: Evaluation, b: Evaluation) {
    a.subject == b.subject && a.evaluator == b.evaluator && a.contentHash == b.contentHash
  }

  /** An evaluation starts pending, for the stored content, once per evaluator; it is written once more,
      to end, and keeps who judged what. */
  lemma EvaluationWritesExactly(s: Tables, id: Id, e: Evaluation)
    ensures Accepted(s, InsertEvaluation(id, e)) <==>
      && id !in s.evaluations && e.status == EvaluationPending && ContentIs(s, e.subject, e.contentHash)
      && (forall x :: x in s.evaluations ==> !SameProfile(s.evaluations[x], e))
    ensures Accepted(s, UpdateEvaluation(id, e)) <==>
      && id in s.evaluations && s.evaluations[id].status == EvaluationPending && e.status != EvaluationPending
      && SameProfile(s.evaluations[id], e) && ContentIs(s, e.subject, e.contentHash)
  {}

  /** A request about the same content. */
  predicate SameRequest(a: Review, b: Review) { a.subject == b.subject && a.contentHash == b.contentHash }

  /** An approval starts requested, for the stored content, one open request at a time; it is written
      once more, to end, and keeps content, requester and expiry. */
  lemma ReviewWritesExactly(s: Tables, id: Id, a: Review)
    ensures Accepted(s, InsertReview(id, a)) <==>
      && id !in s.reviews && a.status == ReviewRequested && ContentIs(s, a.subject, a.contentHash)
      && (forall x :: x in s.reviews && s.reviews[x].status == ReviewRequested ==> !SameRequest(s.reviews[x], a))
    ensures Accepted(s, UpdateReview(id, a)) <==>
      && id in s.reviews && s.reviews[id].status == ReviewRequested && a.status != ReviewRequested
      && SameRequest(s.reviews[id], a) && a.requester == s.reviews[id].requester && a.expiresAt == s.reviews[id].expiresAt
      && ContentIs(s, a.subject, a.contentHash)
  {}

  /** A source is accepted once, for a stored subject, if and only if the run it names is over and ran
      the named agent version, its step is over, and the tool call and session it names, if any, are. */
  lemma SourceWritesExactly(s: Tables, id: Id, g: Source, origin: Origin)
    ensures Accepted(s, InsertSource(id, g, origin)) <==>
      && id !in s.sources && (exists hash :: ContentIs(s, g.subject, hash))
      && (forall x :: x in s.sources ==> !(s.sources[x].subject == g.subject && s.sources[x].snapshot == g.snapshot))
      && origin.run in {Some(Completed), Some(Failed), Some(Cancelled), Some(TimedOut)} && origin.runVersion == g.agentVersion
      && origin.step in {Some(StepCompleted), Some(StepFailed), Some(StepCancelled)}
      && origin.call in {None, Some(Some(CallSucceeded)), Some(Some(CallFailed)), Some(Some(CallTimedOut)), Some(Some(CallCancelled))}
      && origin.session in {None, Some(Some(SessionEnded))}
    ensures !Accepted(s, UpdateSource(id, g))
  {
    SubjectStored(s, g.subject);
    EndedExactly(origin, g.agentVersion);
    hide SubjectExists, ContentIs, OriginEnded;
  }

  lemma SubjectStored(s: Tables, subject: Subject)
    ensures SubjectExists(s, subject) <==> exists hash :: ContentIs(s, subject, hash)
  {
    match subject {
      case OfMemory(m) => if m in s.memories { assert ContentIs(s, subject, s.memories[m].contentHash); }
      case OfVersion(v) => if v in s.versions { assert ContentIs(s, subject, s.versions[v].contentHash); }
    }
  }

  lemma EndedExactly(origin: Origin, agentVersion: string)
    ensures OriginEnded(origin, agentVersion) <==>
      && origin.run in {Some(Completed), Some(Failed), Some(Cancelled), Some(TimedOut)} && origin.runVersion == agentVersion
      && origin.step in {Some(StepCompleted), Some(StepFailed), Some(StepCancelled)}
      && origin.call in {None, Some(Some(CallSucceeded)), Some(Some(CallFailed)), Some(Some(CallTimedOut)), Some(Some(CallCancelled))}
      && origin.session in {None, Some(Some(SessionEnded))}
  {}

  /** An accepted write puts its row in place and touches nothing else; a refused one changes nothing. */
  lemma WritesTakeEffect(s: Tables, w: Write)
    ensures !Accepted(s, w) ==> Apply(s, w) == s
    ensures Accepted(s, w) ==>
      && !w.DeleteRow? && !w.UpdateSource?
      && (w.InsertMemory? || w.UpdateMemory? ==> Apply(s, w) == s.(memories := s.memories[w.id := w.memory]))
      && (w.InsertVersion? || w.UpdateVersion? ==> Apply(s, w) == s.(versions := s.versions[w.id := w.version]))
      && (w.InsertSkill? || w.UpdateSkill? ==> Apply(s, w) == s.(skills := s.skills[w.id := w.skill]))
      && (w.InsertSource? ==> Apply(s, w) == s.(sources := s.sources[w.id := w.source]))
      && (w.InsertEvaluation? || w.UpdateEvaluation? ==> Apply(s, w) == s.(evaluations := s.evaluations[w.id := w.evaluation]))
      && (w.InsertReview? || w.UpdateReview? ==> Apply(s, w) == s.(reviews := s.reviews[w.id := w.review]))
      && (w.InsertDeployment? || w.UpdateDeployment? ==> Apply(s, w) == s.(deployments := s.deployments[w.id := w.deployment]))
  {
    AppliedIs(s, w);
    hide MemoryInsertOk, MemoryUpdateOk, VersionInsertOk, VersionUpdateOk, SkillInsertOk, SkillUpdateOk, SourceInsertOk,
         EvaluationInsertOk, EvaluationUpdateOk, ReviewInsertOk, ReviewUpdateOk, DeploymentInsertOk, DeploymentUpdateOk, Apply;
  }

  // ----- the write that made a memory active -----

  /** The i-th write of a history made memory `m` active, and at that moment it had a source, a passed
      evaluation and an approval that had not run out, all for the content it still has. */
  ghost predicate ActivatedAt(history: seq<Write>, i: nat, m: Id, hash: string)
    requires i < |history|
  {
    var s, w := Grown(history[..i]), history[i];
    && w.UpdateMemory? && w.id == m && w.memory.status == MemoryActive && w.memory.contentHash == hash
    && m in s.memories && s.memories[m].status == MemoryCandidate && Accepted(s, w)
    && Evidenced(s, OfMemory(m), hash) && ApprovedAt(s, OfMemory(m), hash, w.now, false)
  }

  /** Every memory that was ever active was made so by one such write. */
  lemma {:induction false} ActivatedOnApproval(history: seq<Write>, m: Id) returns (i: nat)
    requires m in Grown(history).memories && Grown(history).memories[m].status in {MemoryActive, MemoryInvalidated, MemoryExpired}
    ensures i < |history| && ActivatedAt(history, i, m, Grown(history).memories[m].contentHash)
    decreases |history|
  {
    var n := |history| - 1;
    var s, w := Grown(history[..n]), history[n];
    MemoryMadeBy(s, w, m);
    hide *;
    GrownLast(history);
    if m in s.memories && s.memories[m].status in {MemoryActive, MemoryInvalidated, MemoryExpired} {
      i := ActivatedOnApproval(history[..n], m);
      assert history[..n][..i] == history[..i] && history[..n][i] == history[i];
      ActivatedEarlier(history, i, m, s.memories[m].contentHash);
    } else {
      i := n;
      ActivatesExactly(s, m, w.memory, w.now);
      ActivatedNow(history, m);
    }
  }

  lemma GrownLast(history: seq<Write>)
    requires history != []
    ensures Grown(history) == Apply(Grown(history[..|history| - 1]), history[|history| - 1])
  {
    hide Apply;
  }

  lemma ActivatedEarlier(history: seq<Write>, i: nat, m: Id, hash: string)
    requires i < |history| - 1 && ActivatedAt(history[..|history| - 1], i, m, hash)
    requires history[..|history| - 1][..i] == history[..i]
    ensures ActivatedAt(history, i, m, hash)
  {
    hide Accepted, Evidenced, ApprovedAt, Grown;
  }

  lemma ActivatedNow(history: seq<Write>, m: Id)
    requires history != []
    requires var s, w := Grown(history[..|history| - 1]), history[|history| - 1];
      && w.UpdateMemory? && w.id == m && w.memory.status == MemoryActive && m in s.memories && s.memories[m].status == MemoryCandidate
      && Accepted(s, w) && Evidenced(s, OfMemory(m), w.memory.contentHash)
      && ApprovedAt(s, OfMemory(m), w.memory.contentHash, w.now, false)
    ensures ActivatedAt(history, |history| - 1, m, history[|history| - 1].memory.contentHash)
  {
    hide Accepted, Evidenced, ApprovedAt, Grown;
  }

  lemma MemoryMadeBy(s: Tables, w: Write, m: Id)
    requires m in Apply(s, w).memories && Apply(s, w).memories[m].status in {MemoryActive, MemoryInvalidated, MemoryExpired}
    ensures (m in s.memories && s.memories[m].status in {MemoryActive, MemoryInvalidated, MemoryExpired}
             && s.memories[m].contentHash == Apply(s, w).memories[m].contentHash)
         || (w.UpdateMemory? && w.id == m && w.memory.status == MemoryActive && Accepted(s, w)
             && m in s.memories && s.memories[m].status == MemoryCandidate && Apply(s, w).memories[m] == w.memory)
  {
    AppliedIs(s, w);
    if Accepted(s, w) {
      if w.InsertMemory? {
        assert MemoryInsertOk(s, w.id, w.memory);
        assert Written(s, w).memories == s.memories[w.id := w.memory];
      } else if w.UpdateMemory? {
        assert MemoryUpdateOk(s, w.id, w.memory, w.now);
        assert Written(s, w).memories == s.memories[w.id := w.memory];
      } else {
        MemoriesUntouched(s, w);
      }
    }
    hide Accepted, Written, Apply, HasSource, HasPassing, HasLiveApproval, KeyFree, VersionFree, Precedes;
  }

  // ----- what stays unique -----

  ghost predicate NamesDiffer(skills: map<Id, Skill>) {
    forall a, b :: a in skills && b in skills && a != b ==> skills[a].name != skills[b].name
  }

  ghost predicate NumbersDiffer(versions: map<Id, SkillVersion>) {
    forall a, b :: a in versions && b in versions && a != b && versions[a].skill == versions[b].skill ==>
      versions[a].number != versions[b].number
  }

  ghost predicate SourcesDiffer(sources: map<Id, Source>) {
    forall a, b :: a in sources && b in sources && a != b && sources[a].subject == sources[b].subject ==>
      sources[a].snapshot != sources[b].snapshot
  }

  ghost predicate JudgedOnce(evaluations: map<Id, Evaluation>) {
    forall a, b :: a in evaluations && b in evaluations && a != b ==> !SameProfile(evaluations[a], evaluations[b])
  }

  ghost predicate OneRequestOpen(reviews: map<Id, Review>) {
    forall a, b :: a in reviews && b in reviews && a != b && SameRequest(reviews[a], reviews[b]) ==>
      reviews[a].status != ReviewRequested || reviews[b].status != ReviewRequested
  }

  ghost predicate OneCanaryEach(deployments: map<Id, Deployment>) {
    forall a, b :: a in deployments && b in deployments && a != b
                   && deployments[a].skill == deployments[b].skill && deployments[a].scope == deployments[b].scope ==>
      deployments[a].status == Retired || deployments[b].status == Retired
  }

  ghost predicate Unique(s: Tables) {
    NamesDiffer(s.skills) && NumbersDiffer(s.versions) && SourcesDiffer(s.sources) && JudgedOnce(s.evaluations)
    && OneRequestOpen(s.reviews) && OneCanaryEach(s.deployments)
  }

  lemma WriteKeepsUnique(s: Tables, w: Write)
    requires Unique(s)
    ensures Unique(Apply(s, w))
  {
    hide NamesDiffer, NumbersDiffer, SourcesDiffer, JudgedOnce, OneRequestOpen, OneCanaryEach, Apply, Accepted;
    WritesTakeEffect(s, w);
    if Accepted(s, w) {
      match w {
        case InsertSkill(id, skill) => SkillStaysUnique(s, w);
        case UpdateSkill(id, skill) => SkillStaysUnique(s, w);
        case InsertVersion(id, version) => VersionStaysUnique(s, w);
        case UpdateVersion(id, version, now) => VersionStaysUnique(s, w);
        case InsertSource(id, source, origin) => SourceStaysUnique(s, w);
        case InsertEvaluation(id, evaluation) => EvaluationStaysUnique(s, w);
        case UpdateEvaluation(id, evaluation) => EvaluationStaysUnique(s, w);
        case InsertReview(id, review) => ReviewStaysUnique(s, w);
        case UpdateReview(id, review) => ReviewStaysUnique(s, w);
        case InsertDeployment(id, deployment) => CanaryStaysUnique(s, w);
        case UpdateDeployment(id, deployment) => CanaryStaysUnique(s, w);
        case _ =>
      }
    }
  }

  lemma SkillStaysUnique(s: Tables, w: Write)
    requires (w.InsertSkill? || w.UpdateSkill?) && Accepted(s, w) && NamesDiffer(s.skills)
    ensures NamesDiffer(s.skills[w.id := w.skill])
  {
    hide HasCanary, SkillMoves, PublishedVersionOf;
  }

  lemma VersionStaysUnique(s: Tables, w: Write)
    requires (w.InsertVersion? || w.UpdateVersion?) && Accepted(s, w) && NumbersDiffer(s.versions)
    ensures NumbersDiffer(s.versions[w.id := w.version])
  {
    hide HasSource, HasPassing, HasLiveApproval, LatestPasses, HasIndependentApproval, VersionMoves;
  }

  lemma SourceStaysUnique(s: Tables, w: Write)
    requires w.InsertSource? && Accepted(s, w) && SourcesDiffer(s.sources)
    ensures SourcesDiffer(s.sources[w.id := w.source])
  {
    hide OriginEnded, SubjectExists;
  }

  lemma EvaluationStaysUnique(s: Tables, w: Write)
    requires (w.InsertEvaluation? || w.UpdateEvaluation?) && Accepted(s, w) && JudgedOnce(s.evaluations)
    ensures JudgedOnce(s.evaluations[w.id := w.evaluation])
  {
    hide SubjectHash;
  }

  lemma ReviewStaysUnique(s: Tables, w: Write)
    requires (w.InsertReview? || w.UpdateReview?) && Accepted(s, w) && OneRequestOpen(s.reviews)
    ensures OneRequestOpen(s.reviews[w.id := w.review])
  {
    hide SubjectHash;
  }

  lemma CanaryStaysUnique(s: Tables, w: Write)
    requires (w.InsertDeployment? || w.UpdateDeployment?) && Accepted(s, w) && OneCanaryEach(s.deployments)
    ensures OneCanaryEach(s.deployments[w.id := w.deployment])
  {
    hide PublishedVersionOf, Inside;
  }

  /** After every history skill names, version numbers of a skill and sources of a subject are unique, an
      evaluator judged a content once at most, one request at most is open about a content, and one
      canary at most runs per skill and scope. */
  lemma {:induction false} AlwaysUnique(history: seq<Write>)
    ensures Unique(Grown(history))
    decreases |history|
  {
    if history != [] {
      AlwaysUnique(history[..|history| - 1]);
      hide Unique, Apply;
      WriteKeepsUnique(Grown(history[..|history| - 1]), history[|history| - 1]);
    }
  }
}
