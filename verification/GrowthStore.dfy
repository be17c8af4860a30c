/** The guarded tables as the database runs them: each write passes its trigger, check by check, and
    only then replaces the row. */
module GrowthStore {
  import opened Foundation
  import opened RunStates
  import opened Growth

  class GrowthTables {
    var memories: map<Id, Memory>
    var versions: map<Id, SkillVersion>
    var skills: map<Id, Skill>
    var sources: map<Id, Source>
    var evaluations: map<Id, Evaluation>
    var reviews: map<Id, Review>
    var deployments: map<Id, Deployment>

    constructor ()
      ensures Model() == NO_ROWS
    {
      memories, versions, skills, sources := map[], map[], map[], map[];
      evaluations, reviews, deployments := map[], map[], map[];
    }

    ghost function Model(): (s: Tables)
      reads this
    {
      Tables(memories, versions, skills, sources, evaluations, reviews, deployments)
    }

    method WriteMemory(id: Id, m: Memory, inserting: bool, now: int) returns (ok: bool)
      modifies `memories
      ensures var w := if inserting then InsertMemory(id, m) else UpdateMemory(id, m, now);
        ok == Accepted(old(Model()), w) && Model() == Apply(old(Model()), w)
    {
      hide HasSource, HasPassing, HasLiveApproval, MemoryMoves, VersionFree, KeyFree;
      if inserting {
        if id in memories || m.version == 0 || m.status != MemoryCandidate { return false; }
        if m.version == 1 && m.supersedes.Some? { return false; }
        if m.version > 1 {
          if m.supersedes.None? || m.supersedes.value !in memories { return false; }
          var previous := memories[m.supersedes.value];
          if previous.key != m.key || previous.version + 1 != m.version || previous.kind != m.kind
             || previous.scope != m.scope { return false; }
        }
        var clash := exists other :: other in memories && memories[other].key == m.key && memories[other].version == m.version;
        VersionFreeIs(Model(), m);
        if clash { return false; }
        memories := memories[id := m];
        return true;
      }
      if id !in memories { return false; }
      var was := memories[id];
      if m.(status := was.status, invalidatedAt := was.invalidatedAt, deletedAt := was.deletedAt) != was { return false; }
      if m.status != was.status && !MemoryMoves(was.status, m.status) { return false; }
      if was.status == MemoryDeleted { return false; }
      if m.status == MemoryActive && was.status != MemoryActive {
        var evidence := EvidenceOfMemory(id, m.contentHash, now);
        if !evidence { return false; }
      }
      if m.status == MemoryExpired && (m.expiresAt.None? || m.expiresAt.value > now) { return false; }
      if m.status == MemoryInvalidated && m.invalidatedAt.None? { return false; }
      if m.status == MemoryDeleted && m.deletedAt.None? { return false; }
      if m.status == MemoryActive {
        var clash := exists other :: other in memories && other != id && memories[other].key == m.key
                                     && memories[other].status == MemoryActive;
        KeyFreeIs(Model(), id, m);
        if clash { return false; }
      }
      memories := memories[id := m];
      return true;
    }

    /** The three EXISTS queries of a publication. */
    method EvidenceOfMemory(id: Id, hash: string, now: int) returns (found: bool)
      ensures found <==> HasSource(Model(), OfMemory(id)) && HasPassing(Model(), OfMemory(id), hash)
                         && HasLiveApproval(Model(), OfMemory(id), hash, now)
    {
      var subject := OfMemory(id);
      var source := exists g :: g in sources && sources[g].subject == subject;
      var passing := exists e :: e in evaluations && Passing(evaluations[e], subject, hash);
      var approved := exists a :: a in reviews && Approves(reviews[a], subject, hash) && Unexpired(reviews[a], now);
      found := source && passing && approved;
    }

    method WriteVersion(id: Id, v: SkillVersion, inserting: bool, now: int) returns (ok: bool)
      modifies `versions
      ensures var w := if inserting then InsertVersion(id, v) else UpdateVersion(id, v, now);
        ok == Accepted(old(Model()), w) && Model() == Apply(old(Model()), w)
    {
      hide HasSource, HasPassing, HasLiveApproval, LatestPasses, HasIndependentApproval, VersionMoves;
      if inserting {
        if id in versions || v.skill !in skills || v.status != VersionDraft { return false; }
        var clash := exists other :: other in versions && versions[other].skill == v.skill && versions[other].number == v.number;
        assert clash == !NumberFree(Model(), v);
        if clash { return false; }
        versions := versions[id := v];
        return true;
      }
      if id !in versions { return false; }
      var was := versions[id];
      if v.(status := was.status) != was { return false; }
      if v.status != was.status && !VersionMoves(was.status, v.status) { return false; }
      if was.status in {VersionPublished, VersionRejected} { return false; }
      if v.status == VersionPublished {
        var evidence := EvidenceOfVersion(id, v.contentHash, now);
        if !evidence { return false; }
      }
      versions := versions[id := v];
      return true;
    }

    /** The publication evidence and the review policy of a skill version. */
    method EvidenceOfVersion(id: Id, hash: string, now: int) returns (found: bool)
      ensures found <==>
        && HasSource(Model(), OfVersion(id)) && HasPassing(Model(), OfVersion(id), hash)
        && HasLiveApproval(Model(), OfVersion(id), hash, now)
        && LatestPasses(Model(), OfVersion(id), hash) && HasIndependentApproval(Model(), OfVersion(id), hash, now)
    {
      var subject := OfVersion(id);
      var source := exists g :: g in sources && sources[g].subject == subject;
      if !source { return false; }
      var latest := LatestTerminal(subject, hash);
      if latest.None? || evaluations[latest.value].status != EvaluationCompleted
         || evaluations[latest.value].passed != Some(true) { return false; }
      assert Passing(evaluations[latest.value], subject, hash) && Latest(Model(), latest.value, subject, hash);
      var independent := exists a :: a in reviews && Approves(reviews[a], subject, hash)
                                     && Independent(reviews[a]) && Unexpired(reviews[a], now);
      return independent;
    }

    /** ORDER BY created_at DESC, id DESC LIMIT 1 over the terminal evaluations of one content. */
    method LatestTerminal(subject: Subject, hash: string) returns (latest: Option<Id>)
      ensures latest.None? ==> forall e :: e in evaluations ==> !TerminalOf(evaluations[e], subject, hash)
      ensures latest.Some? ==>
        latest.value in evaluations && TerminalOf(evaluations[latest.value], subject, hash)
        && Latest(Model(), latest.value, subject, hash)
      ensures LatestPasses(Model(), subject, hash) ==>
        latest.Some? && Passing(evaluations[latest.value], subject, hash)
    {
      latest := None;
      var rest: set<Id> := evaluations.Keys;
      ghost var seen: set<Id> := {};
      while rest != {}
        invariant seen + rest == evaluations.Keys && seen !! rest
        invariant latest.None? ==> forall e :: e in seen ==> !TerminalOf(evaluations[e], subject, hash)
        invariant latest.Some? ==>
          latest.value in seen && TerminalOf(evaluations[latest.value], subject, hash)
          && forall e :: e in seen && e != latest.value && TerminalOf(evaluations[e], subject, hash) ==>
               LaterEvaluation(Model(), latest.value, e)
        decreases rest
      {
        var e :| e in rest;
        if TerminalOf(evaluations[e], subject, hash) {
          var take := latest.None?;
          if latest.Some? {
            take := evaluations[e].createdAt > evaluations[latest.value].createdAt
                    || (evaluations[e].createdAt == evaluations[latest.value].createdAt && e.bits > latest.value.bits);
          }
          if take { latest := Some(e); }
        }
        rest, seen := rest - {e}, seen + {e};
      }
      assert seen == evaluations.Keys;
    }

    method WriteSkill(id: Id, k: Skill, inserting: bool) returns (ok: bool)
      modifies `skills
      ensures var w := if inserting then InsertSkill(id, k) else UpdateSkill(id, k);
        ok == Accepted(old(Model()), w) && Model() == Apply(old(Model()), w)
    {
      hide SkillMoves;
      if inserting {
        if id in skills || k.status != SkillCandidate || k.current.Some? { return false; }
        var clash := exists other :: other in skills && skills[other].name == k.name;
        assert clash == !NameFree(Model(), k);
        if clash { return false; }
        skills := skills[id := k];
        return true;
      }
      if id !in skills { return false; }
      var was := skills[id];
      if k.name != was.name || k.scope != was.scope { return false; }
      if k.status != was.status && !SkillMoves(was.status, k.status) { return false; }
      if was.status == SkillDisabled { return false; }
      if k.current.Some? && (k.current.value !in versions || versions[k.current.value].skill != id) { return false; }
      if k.status == SkillPublished {
        if k.current.None? || versions[k.current.value].status != VersionPublished { return false; }
      } else if k.status in {SkillCandidate, SkillTesting, SkillApproved} && k.current.Some? {
        return false;
      }
      var canary := exists d :: d in deployments && deployments[d].skill == id && deployments[d].status == Deployed;
      assert canary == HasCanary(Model(), id);
      if canary && ((k.status != was.status && k.status in {SkillDeprecated, SkillDisabled}) || k.current != was.current) {
        return false;
      }
      skills := skills[id := k];
      return true;
    }

    method WriteSource(id: Id, g: Source, origin: Origin, inserting: bool) returns (ok: bool)
      modifies `sources
      ensures var w := if inserting then InsertSource(id, g, origin) else UpdateSource(id, g);
        ok == Accepted(old(Model()), w) && Model() == Apply(old(Model()), w)
    {
      if !inserting || id in sources || !SubjectExists(Tables(memories, versions, skills, sources, evaluations, reviews, deployments), g.subject) {
        return false;
      }
      if origin.run.None? || !Terminal(origin.run.value) || origin.runVersion != g.agentVersion { return false; }
      if origin.step.None? || origin.step.value !in {StepCompleted, StepFailed, StepCancelled} { return false; }
      if origin.call.Some? && (origin.call.value.None?
           || origin.call.value.value !in {CallSucceeded, CallFailed, CallTimedOut, CallCancelled}) { return false; }
      if origin.session.Some? && origin.session.value != Some(SessionEnded) { return false; }
      var clash := exists other :: other in sources && sources[other].subject == g.subject && sources[other].snapshot == g.snapshot;
      assert clash == !SnapshotFree(Model(), g);
      if clash { return false; }
      sources := sources[id := g];
      return true;
    }

    method HashOf(subject: Subject) returns (hash: Option<string>)
      ensures hash == SubjectHash(Model(), subject)
    {
      match subject
      case OfMemory(m) => hash := if m in memories then Some(memories[m].contentHash) else None;
      case OfVersion(v) => hash := if v in versions then Some(versions[v].contentHash) else None;
    }

    method WriteEvaluation(id: Id, e: Evaluation, inserting: bool) returns (ok: bool)
      modifies `evaluations
      ensures var w := if inserting then InsertEvaluation(id, e) else UpdateEvaluation(id, e);
        ok == Accepted(old(Model()), w) && Model() == Apply(old(Model()), w)
    {
      var hash := HashOf(e.subject);
      hide SubjectHash;
      if hash != Some(e.contentHash) { return false; }
      if inserting {
        if id in evaluations || e.status != EvaluationPending { return false; }
        var clash := exists other :: other in evaluations && evaluations[other].subject == e.subject
                                     && evaluations[other].evaluator == e.evaluator && evaluations[other].contentHash == e.contentHash;
        assert clash == !ProfileFree(Model(), e);
        if clash { return false; }
      } else {
        if id !in evaluations { return false; }
        var was := evaluations[id];
        if e.subject != was.subject || e.evaluator != was.evaluator || e.contentHash != was.contentHash { return false; }
        if was.status != EvaluationPending || e.status !in {EvaluationCompleted, EvaluationFailed} { return false; }
      }
      evaluations := evaluations[id := e];
      return true;
    }

    method WriteReview(id: Id, a: Review, inserting: bool) returns (ok: bool)
      modifies `reviews
      ensures var w := if inserting then InsertReview(id, a) else UpdateReview(id, a);
        ok == Accepted(old(Model()), w) && Model() == Apply(old(Model()), w)
    {
      var hash := HashOf(a.subject);
      hide SubjectHash;
      if hash != Some(a.contentHash) { return false; }
      if inserting {
        if id in reviews || a.status != ReviewRequested { return false; }
        var clash := exists other :: other in reviews && reviews[other].subject == a.subject
                                     && reviews[other].contentHash == a.contentHash && reviews[other].status == ReviewRequested;
        assert clash == !RequestFree(Model(), a);
        if clash { return false; }
      } else {
        if id !in reviews { return false; }
        var was := reviews[id];
        if a.subject != was.subject || a.contentHash != was.contentHash || a.requester != was.requester
           || a.expiresAt != was.expiresAt { return false; }
        if was.status != ReviewRequested || a.status == ReviewRequested { return false; }
      }
      reviews := reviews[id := a];
      return true;
    }

    method WriteDeployment(id: Id, d: Deployment, inserting: bool) returns (ok: bool)
      modifies `deployments
      ensures var w := if inserting then InsertDeployment(id, d) else UpdateDeployment(id, d);
        ok == Accepted(old(Model()), w) && Model() == Apply(old(Model()), w)
    {
      if d.version !in versions || versions[d.version].skill != d.skill || versions[d.version].status != VersionPublished {
        return false;
      }
      if inserting {
        if id in deployments || d.scope == TenantScope || d.status != Deployed { return false; }
        if d.skill !in skills || skills[d.skill].status != SkillPublished || skills[d.skill].current.None? { return false; }
        if skills[d.skill].scope != TenantScope && skills[d.skill].scope != d.scope { return false; }
        var clash := exists other :: other in deployments && deployments[other].skill == d.skill
                                     && deployments[other].scope == d.scope && deployments[other].status == Deployed;
        assert clash == !CanaryFree(Model(), d);
        if clash { return false; }
      } else {
        if id !in deployments { return false; }
        var was := deployments[id];
        if d.(status := was.status) != was || was.status != Deployed || d.status != Retired { return false; }
      }
      deployments := deployments[id := d];
      return true;
    }
  }

  /** A terminal evaluation of this content. */
  predicate TerminalOf(e: Evaluation, subject: Subject, hash: string) {
    e.subject == subject && e.contentHash == hash && Terminated(e)
  }

  lemma VersionFreeIs(s: Tables, m: Memory)
    ensures VersionFree(s, m) <==>
      !exists other :: other in s.memories && s.memories[other].key == m.key && s.memories[other].version == m.version
  {}

  lemma KeyFreeIs(s: Tables, id: Id, m: Memory)
    ensures KeyFree(s, id, m) <==>
      !exists other :: other in s.memories && other != id && s.memories[other].key == m.key
                       && s.memories[other].status == MemoryActive
  {}
}
