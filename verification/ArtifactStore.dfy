/** The artifact and attachment services as they run: each transaction and each storage call changes
    the tables and the object store in place. */
module ArtifactStore {
  import opened Foundation
  import opened MapSums
  import opened Artifacts
  import opened ArtifactTheorems

  /** The unique key finds one row at most. */
  lemma OneArtifact(artifacts: map<Id, Artifact>, run: Id, key: Key, a: Id)
    requires UniqueKeys(artifacts) && a in WithKey(artifacts, run, key)
    ensures TheOne(WithKey(artifacts, run, key)) == a
  {}

  lemma OneAttachment(rows: map<Id, Attachment>, conversation: Id, key: string, x: Id)
    requires UniqueAttachments(rows) && x in Keyed(rows, conversation, key)
    ensures TheOne(Keyed(rows, conversation, key)) == x
  {}

  lemma OwnerReads(s: State, run: Id, a: Id, data: Bytes)
    requires a in s.artifacts && s.artifacts[a].owner == run && s.artifacts[a].status == Available
    requires s.artifacts[a].objectKey == Some(Final(Sha256(data))) && s.artifacts[a].sha == Some(Sha256(data))
    requires s.artifacts[a].size == Some(|data|) && Final(Sha256(data)) in s.objects && s.objects[Final(Sha256(data))] == data
    ensures forall now: int :: ReadForRun(s, run, true, a, now) == Bytes_(data)
  {}

  const LOOKS: nat := 300

  /** `_wait_for_replay`: up to 300 looks at the row another caller is uploading. It answers on the
      first look that finds the row gone, available or failed, and gives up only if all 300 find it
      still uploading. */
  method WaitForReplay(a: Id, looks: nat -> Option<Artifact>) returns (o: Outcome)
    ensures o == Refused(UploadIncomplete) ==>
      forall i: nat :: i < LOOKS ==> looks(i).Some? && Replay(looks(i).value, a).Waiting?
    ensures o != Refused(UploadIncomplete) ==>
      exists i: nat :: i < LOOKS && (forall j: nat :: j < i ==> looks(j).Some? && Replay(looks(j).value, a).Waiting?)
        && o == (if looks(i).None? then Refused(NotFound) else Replay(looks(i).value, a)) && !o.Waiting?
  {
    for i := 0 to LOOKS
      invariant forall j: nat :: j < i ==> looks(j).Some? && Replay(looks(j).value, a).Waiting?
    {
      var row := looks(i);
      if row.None? { return Refused(NotFound); }
      if row.value.status == Available { return Stored(row.value.owner, row.value.key, a); }
      if row.value.status == UploadFailed { return Refused(UploadHasFailed); }
    }
    return Refused(UploadIncomplete);
  }

  class ArtifactTables {
    const limits: Limits
    var artifacts: map<Id, Artifact>
    var links: map<LinkKey, Link>
    var attachments: map<Id, Attachment>
    var objects: map<ObjectKey, Bytes>
    var uploads: map<Id, Upload>
    var parents: map<Id, Id>

    constructor (limits: Limits)
      ensures Model() == Initial(limits)
    {
      this.limits := limits;
      artifacts, links, attachments, objects, uploads, parents := map[], map[], map[], map[], map[], map[];
    }

    ghost function Model(): (s: State)
      reads this
    {
      State(limits, artifacts, links, attachments, objects, uploads, parents)
    }

    /** The opening transaction of an upload, under the lock of its key. */
    method BeginUpload(run: Id, key: Key, a: Id, name: string, data: Bytes, share: bool, runKnown: bool) returns (o: Outcome)
      requires UniqueKeys(artifacts)
      modifies this
      ensures (Model(), o) == BeginStep(old(Model()), run, key, a, name, data, share, runKnown)
    {
      hide UniqueKeys;
      if |data| > limits.maxBytes { return Refused(TooLarge); }
      var keyed := WithKey(artifacts, run, key);
      if keyed != {} {
        var existing :| existing in keyed;
        OneArtifact(artifacts, run, key, existing);
        var row := artifacts[existing];
        if row.status == Available { return Stored(row.owner, row.key, existing); }
        if row.status == UploadFailed { return Refused(UploadHasFailed); }
        return Waiting(existing);
      }
      if !runKnown { return Refused(NotFound); }
      if a in artifacts { return Refused(IdTaken); }
      artifacts := artifacts[a := Artifact(run, key, name, Uploading, Some(Temp(a)), None, None, None, 1)];
      uploads := uploads[a := Upload(data, Begun, share)];
      o := Begin(a);
    }

    method StoreTemp(a: Id) returns (o: Outcome)
      modifies this
      ensures (Model(), o) == PutTempStep(old(Model()), a)
    {
      if a !in uploads || uploads[a].phase != Begun { return Refused(OutOfOrder); }
      objects := objects[Temp(a) := uploads[a].data];
      uploads := uploads[a := uploads[a].(phase := TempStored)];
      o := Fine;
    }

    /** The two calls of `promote`. */
    method CopyToFinal(a: Id) returns (o: Outcome)
      modifies this
      ensures (Model(), o) == CopyFinalStep(old(Model()), a)
    {
      if a !in uploads || uploads[a].phase != TempStored { return Refused(OutOfOrder); }
      if Temp(a) !in objects { return Refused(ObjectMissing); }
      objects := objects[Final(Sha256(uploads[a].data)) := objects[Temp(a)]];
      uploads := uploads[a := uploads[a].(phase := Copied)];
      o := Fine;
    }

    method RemoveTempObject(a: Id) returns (o: Outcome)
      modifies this
      ensures (Model(), o) == RemoveTempStep(old(Model()), a)
    {
      if a !in uploads || uploads[a].phase != Copied { return Refused(OutOfOrder); }
      objects := objects - {Temp(a)};
      uploads := uploads[a := uploads[a].(phase := TempGone)];
      o := Fine;
    }

    /** The closing transaction: the row becomes available and may be shared with the direct parent. */
    method FinishUpload(a: Id) returns (o: Outcome)
      modifies this
      ensures (Model(), o) == FinaliseStep(old(Model()), a)
    {
      if a !in uploads || uploads[a].phase != TempGone { return Refused(OutOfOrder); }
      if a !in artifacts { return Refused(NotFound); }
      if artifacts[a].status != Uploading { return Refused(NotAvailable); }
      var up, row := uploads[a], artifacts[a];
      var digest := Sha256(up.data);
      artifacts := artifacts[a := row.(status := Available, tempKey := None, objectKey := Some(Final(digest)),
                                       sha := Some(digest), size := Some(|up.data|), revision := row.revision + 1)];
      if up.share && row.owner in parents {
        var parent := parents[row.owner];
        if LinkKey(a, parent) !in links { links := links[LinkKey(a, parent) := Link(true, None)]; }
      }
      uploads := uploads - {a};
      o := Stored(row.owner, row.key, a);
    }

    /** The clean-up transaction after an error. */
    method FailUpload(a: Id) returns (o: Outcome)
      modifies this
      ensures (Model(), o) == MarkFailedStep(old(Model()), a)
    {
      if a !in uploads { return Refused(OutOfOrder); }
      if a in artifacts && artifacts[a].status == Uploading {
        artifacts := artifacts[a := artifacts[a].(status := UploadFailed, tempKey := None, revision := artifacts[a].revision + 1)];
      }
      uploads := uploads - {a};
      o := Refused(UploadHasFailed);
    }

    /** One upload with nothing in between: a new key is stored with exactly the given bytes, readable
        at once by its owner. */
    method StoreRuntimeArtifact(run: Id, key: Key, a: Id, name: string, data: Bytes, share: bool, runKnown: bool) returns (o: Outcome)
      requires UniqueKeys(artifacts)
      modifies this
      ensures !o.Begin?
      ensures old(|data| <= limits.maxBytes && WithKey(artifacts, run, key) == {} && runKnown && a !in artifacts) ==>
        && o == Stored(run, key, a)
        && a in artifacts && artifacts[a].sha == Some(Sha256(data))
        && forall now: int :: ReadForRun(Model(), run, true, a, now) == Bytes_(data)
    {
      o := BeginUpload(run, key, a, name, data, share, runKnown);
      if o.Begin? {
        assert a in artifacts && artifacts[a].owner == run && artifacts[a].key == key;
        assert artifacts[a].status == Uploading && uploads[a] == Upload(data, Begun, share);
        hide WithKey, UniqueKeys, Replay, BeginStep;
        var step := StoreTemp(a);
        step := CopyToFinal(a);
        step := RemoveTempObject(a);
        assert uploads[a] == Upload(data, TempGone, share);
        assert Final(Sha256(data)) in objects && objects[Final(Sha256(data))] == data;
        hide PutTempStep, CopyFinalStep, RemoveTempStep, ReadForRun;
        o := FinishUpload(a);
        OwnerReads(Model(), run, a, data);
      }
    }

    /** `read_for_run` */
    method ReadArtifact(run: Id, runKnown: bool, a: Id, now: int) returns (o: Outcome)
      ensures o == ReadForRun(Model(), run, runKnown, a, now)
    {
      if !runKnown { return Refused(NotFound); }
      if a !in artifacts || artifacts[a].status != Available { return Refused(NotFound); }
      var row := artifacts[a];
      if row.owner != run {
        var link := LinkKey(a, run);
        if link !in links || !links[link].active || (links[link].expiresAt.Some? && links[link].expiresAt.value <= now) {
          return Refused(AccessDenied);
        }
      }
      if row.objectKey.None? { return Refused(NotAvailable); }
      if row.objectKey.value !in objects { return Refused(ObjectMissing); }
      var data := objects[row.objectKey.value];
      if Some(Sha256(data)) != row.sha || Some(|data|) != row.size { return Refused(IntegrityFailed); }
      o := Bytes_(data);
    }

    /** Marks overdue staged rows of one conversation as expired, row by row. */
    method ExpireOverdue(conversation: Id, now: int)
      modifies `attachments
      ensures attachments == ExpireStaged(old(attachments), conversation, now)
    {
      ghost var was := attachments;
      var rest := set x | x in attachments && attachments[x].conversation == conversation && attachments[x].status == Staged;
      while rest != {}
        invariant attachments.Keys == was.Keys && rest <= was.Keys
        invariant forall x :: x in rest ==> attachments[x] == was[x]
        invariant forall x :: x in was && x !in rest ==>
          attachments[x] == if was[x].conversation == conversation then ExpireRow(was[x], now) else was[x]
        decreases rest
      {
        var x :| x in rest;
        if attachments[x].expiresAt <= now {
          attachments := attachments[x := attachments[x].(status := Expired, revision := attachments[x].revision + 1)];
        }
        rest := rest - {x};
      }
    }

    /** The bytes currently staged. */
    method TotalSize(sizes: map<Id, int>) returns (total: int)
      ensures total == Sum(sizes)
    {
      hide Sum;
      var rest := sizes;
      total := 0;
      while rest.Keys != {}
        invariant total + Sum(rest) == Sum(sizes)
        decreases |rest|
      {
        var x :| x in rest.Keys;
        SumRemove(rest, x);
        total := total + rest[x];
        rest := rest - {x};
      }
      SumZero(rest);
    }

    /** The staging limits, over the rows that are still staged. */
    method LimitRefusal(conversation: Id, bytes: nat) returns (refusal: Option<Refusal>)
      ensures var sizes := StagedSizes(attachments, conversation);
        refusal == if |sizes| >= limits.maxCount then Some(TooMany)
                   else if Sum(sizes) + bytes > limits.maxTotalBytes then Some(TotalTooLarge)
                   else None
    {
      hide Sum;
      var staged := StagedSizes(attachments, conversation);
      if |staged| >= limits.maxCount { return Some(TooMany); }
      var total := TotalSize(staged);
      refusal := if total + bytes > limits.maxTotalBytes then Some(TotalTooLarge) else None;
    }

    /** Stores the bytes under their hash, by way of a temporary object. */
    method StoreObject(id: Id, data: Bytes)
      modifies `objects
      ensures objects == Uploaded(old(objects), id, data, None)
    {
      objects := objects[TempAttachment(id) := data];
      objects := objects[Final(Sha256(data)) := objects[TempAttachment(id)]];
      objects := objects - {TempAttachment(id)};
    }

    /** `upload` of an attachment that is not lost on the way; a refusal rolls the expiries back. */
    method UploadAttachment(conversation: Id, active: Option<bool>, id: Id, key: string, name: string, contentType: string,
                            data: Bytes, now: int) returns (o: Outcome)
      requires UniqueAttachments(attachments)
      modifies this
      ensures (Model(), o) == AttachStep(old(Model()), conversation, active, id, key, name, contentType, data, now, None)
    {
      hide UniqueAttachments, Sum, ExpireStaged, StagedSizes, Uploaded;
      if |data| > limits.maxAttachmentBytes { return Refused(TooLarge); }
      if active.None? { return Refused(NotFound); }
      if !active.value { return Refused(Archived); }
      var keyed := Keyed(attachments, conversation, key);
      if keyed != {} {
        var existing :| existing in keyed;
        OneAttachment(attachments, conversation, key, existing);
        var row := attachments[existing];
        if row.name != name || row.contentType != contentType || row.sha != Sha256(data) || row.size != |data| {
          return Refused(KeyReused);
        }
        return Attached(existing);
      }
      hide Keyed;
      var before := attachments;
      ExpireColumns(attachments, conversation, now);
      ExpireOverdue(conversation, now);
      var refusal := LimitRefusal(conversation, |data|);
      if refusal.None? && id in attachments { refusal := Some(IdTaken); }
      if refusal.Some? {
        attachments := before;
        return Refused(refusal.value);
      }
      StoreObject(id, data);
      attachments := attachments[id := Attachment(conversation, key, name, contentType, Final(Sha256(data)), Sha256(data),
                                                  |data|, Staged, now + limits.ttl, None, None, 1)];
      o := Attached(id);
    }
  }
}
