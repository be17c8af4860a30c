/** What every step of the artifact store keeps, whatever comes between the steps of an upload. */
module ArtifactTheorems {
  import opened Foundation
  import opened MapSums
  import opened Artifacts

  // ----- the invariant -----

  /** Every hash-named object holds the bytes of its name. */
  ghost predicate ContentAddressed(objects: map<ObjectKey, Bytes>) {
    forall d: Digest :: Final(d) in objects ==> objects[Final(d)] == d.bytes
  }

  /** An upload in progress: its temporary object holds its data, and once it has copied, the final
      object is there. */
  ghost predicate UploadSound(objects: map<ObjectKey, Bytes>, a: Id, up: Upload) {
    && (Temp(a) in objects ==> objects[Temp(a)] == up.data)
    && (up.phase in {Copied, TempGone} ==> Final(Sha256(up.data)) in objects)
  }

  ghost predicate UploadsSound(s: State) {
    && (forall a :: a in s.uploads ==> a in s.artifacts && UploadSound(s.objects, a, s.uploads[a]))
    && (forall a :: Temp(a) in s.objects ==> a in s.artifacts)
  }

  /** An available row names an existing object with its hash and size. */
  ghost predicate RowSound(objects: map<ObjectKey, Bytes>, row: Artifact) {
    row.status == Available ==>
      && row.sha.Some? && row.objectKey == Some(Final(row.sha.value)) && Final(row.sha.value) in objects
      && row.size == Some(|row.sha.value.bytes|)
  }

  ghost predicate RowsSound(artifacts: map<Id, Artifact>, objects: map<ObjectKey, Bytes>) {
    forall a :: a in artifacts ==> RowSound(objects, artifacts[a])
  }

  ghost predicate AttachmentSound(objects: map<ObjectKey, Bytes>, row: Attachment) {
    row.objectKey == Final(row.sha) && Final(row.sha) in objects && row.size == |row.sha.bytes|
  }

  ghost predicate AttachmentsSound(attachments: map<Id, Attachment>, objects: map<ObjectKey, Bytes>) {
    forall x :: x in attachments ==> AttachmentSound(objects, attachments[x])
  }

  /** `uq_artifacts_run_idempotency` */
  ghost predicate UniqueKeys(artifacts: map<Id, Artifact>) {
    forall a, b :: a in artifacts && b in artifacts && a != b ==>
      artifacts[a].owner != artifacts[b].owner || artifacts[a].key != artifacts[b].key
  }

  /** Links only go to the direct parent of the owner. */
  ghost predicate LinksDirect(s: State) {
    forall k :: k in s.links ==>
      k.artifact in s.artifacts && s.artifacts[k.artifact].owner in s.parents
      && s.parents[s.artifacts[k.artifact].owner] == k.grantee
  }

  ghost predicate Inv(s: State) {
    ContentAddressed(s.objects) && UploadsSound(s) && RowsSound(s.artifacts, s.objects)
    && AttachmentsSound(s.attachments, s.objects) && UniqueKeys(s.artifacts) && LinksDirect(s)
  }

  // ----- what never changes -----

  /** Final objects stay. */
  ghost predicate FinalsKept(objects: map<ObjectKey, Bytes>, objects': map<ObjectKey, Bytes>) {
    forall d: Digest :: Final(d) in objects ==> Final(d) in objects'
  }

  /** Rows keep owner and key; terminal rows never change (the guard of the artifact table). */
  ghost predicate ArtifactsKept(artifacts: map<Id, Artifact>, artifacts': map<Id, Artifact>) {
    forall a :: a in artifacts ==>
      && a in artifacts' && artifacts'[a].owner == artifacts[a].owner && artifacts'[a].key == artifacts[a].key
      && artifacts'[a].name == artifacts[a].name
      && (artifacts[a].status != Uploading ==> artifacts'[a] == artifacts[a])
  }

  ghost predicate Kept(s: State, s': State) {
    FinalsKept(s.objects, s'.objects) && ArtifactsKept(s.artifacts, s'.artifacts)
    && forall c :: c in s.parents ==> c in s'.parents && s'.parents[c] == s.parents[c]
  }

  lemma KeptSame(s: State)
    ensures Kept(s, s)
  {}

  lemma BeginKept(s: State, run: Id, key: Key, a: Id, name: string, data: Bytes, share: bool, runKnown: bool)
    ensures Kept(s, BeginStep(s, run, key, a, name, data, share, runKnown).0)
  {
    hide WithKey, Replay;
  }

  lemma ObjectsKept(s: State, c: Command)
    requires c.PutTemp? || c.CopyFinal? || c.RemoveTemp? || c.DropTemp? || c.Crash? || c.Poll? || c.Delegated?
    ensures Kept(s, Step(s, c).0)
  {
    hide Kept, PutTempStep, CopyFinalStep, RemoveTempStep, DropTempStep, PollStep;
    match c {
      case PutTemp(a) => PutTempKept(s, a);
      case CopyFinal(a) => CopyFinalKept(s, a);
      case RemoveTemp(a) => RemoveTempKept(s, a);
      case DropTemp(a) => DropTempKept(s, a);
      case Crash(a) => CrashKept(s, a);
      case Poll(_) => KeptSame(s);
      case Delegated(child, parent) =>
        KeptSame(s);
        if child !in s.parents { DelegatedKept(s, child, parent); }
    }
  }

  lemma PutTempKept(s: State, a: Id)
    ensures Kept(s, PutTempStep(s, a).0)
  {}

  lemma CopyFinalKept(s: State, a: Id)
    ensures Kept(s, CopyFinalStep(s, a).0)
  {}

  lemma RemoveTempKept(s: State, a: Id)
    ensures Kept(s, RemoveTempStep(s, a).0)
  {}

  lemma DropTempKept(s: State, a: Id)
    ensures Kept(s, DropTempStep(s, a).0)
  {}

  lemma CrashKept(s: State, a: Id)
    ensures Kept(s, s.(uploads := s.uploads - {a}))
  {}

  lemma DelegatedKept(s: State, child: Id, parent: Id)
    requires child !in s.parents
    ensures Kept(s, s.(parents := s.parents[child := parent]))
  {}

  lemma RowsKept(s: State, c: Command)
    requires c.Finalise? || c.MarkFailed?
    ensures Kept(s, Step(s, c).0)
  {
    hide Kept, FinaliseStep, MarkFailedStep;
    if c.Finalise? { FinaliseIsKept(s, c.artifact); } else { MarkFailedIsKept(s, c.artifact); }
  }

  lemma AttachKept(s: State, c: Command)
    requires c.Attach? || c.ListAttachments? || c.DiscardAttachment?
    ensures Kept(s, Step(s, c).0)
  {
    if c.Attach? {
      AttachMeans(s, c);
      UploadedFinals(s.objects, c.attachment, c.data, c.lost);
      hide Step, Uploaded, ExpireStaged;
    } else {
      hide ExpireStaged;
    }
  }

  lemma UploadedFinals(objects: map<ObjectKey, Bytes>, id: Id, data: Bytes, lost: Option<Phase>)
    ensures FinalsKept(objects, Uploaded(objects, id, data, lost))
  {}

  lemma CopiesKept(s: State, c: Command)
    requires c.ConsumeStaged? || c.CopyForRetry?
    ensures Kept(s, Step(s, c).0)
  {
    hide Kept, ConsumeStep, CopyStep;
    if c.ConsumeStaged? {
      ConsumeIsKept(s, c.conversation, c.turn, c.run, c.now, c.ids);
    } else {
      CopyIsKept(s, c.turn, c.refs, c.newRun, c.ids);
    }
  }

  lemma StepKept(s: State, c: Command)
    ensures Kept(s, Step(s, c).0)
  {
    hide Kept, BeginStep;
    match c {
      case BeginUpload(run, key, artifact, name, data, share, runKnown) => BeginKept(s, run, key, artifact, name, data, share, runKnown);
      case Finalise(_) => RowsKept(s, c);
      case MarkFailed(_) => RowsKept(s, c);
      case Attach(_, _, _, _, _, _, _, _, _) => AttachKept(s, c);
      case ListAttachments(_, _) => AttachKept(s, c);
      case DiscardAttachment(_, _) => AttachKept(s, c);
      case ConsumeStaged(_, _, _, _, _) => CopiesKept(s, c);
      case CopyForRetry(_, _, _, _) => CopiesKept(s, c);
      case _ => ObjectsKept(s, c);
    }
  }

  // ----- pieces carried over by what is kept -----

  lemma RowsCarry(artifacts: map<Id, Artifact>, artifacts': map<Id, Artifact>, objects: map<ObjectKey, Bytes>, objects': map<ObjectKey, Bytes>)
    requires RowsSound(artifacts, objects) && FinalsKept(objects, objects')
    requires forall a :: a in artifacts' ==> (a in artifacts && artifacts'[a] == artifacts[a]) || RowSound(objects', artifacts'[a])
    ensures RowsSound(artifacts', objects')
  {
    forall a | a in artifacts' ensures RowSound(objects', artifacts'[a]) {
      if a in artifacts && artifacts'[a] == artifacts[a] { assert RowSound(objects, artifacts[a]); }
    }
  }

  lemma AttachmentsCarry(rows: map<Id, Attachment>, rows': map<Id, Attachment>, objects: map<ObjectKey, Bytes>, objects': map<ObjectKey, Bytes>)
    requires AttachmentsSound(rows, objects) && FinalsKept(objects, objects')
    requires forall x :: x in rows' ==>
      (x in rows && rows'[x].objectKey == rows[x].objectKey && rows'[x].sha == rows[x].sha && rows'[x].size == rows[x].size)
      || AttachmentSound(objects', rows'[x])
    ensures AttachmentsSound(rows', objects')
  {
    forall x | x in rows' ensures AttachmentSound(objects', rows'[x]) {
      if x in rows { assert AttachmentSound(objects, rows[x]); }
    }
  }

  lemma LinksCarry(s: State, s': State)
    requires LinksDirect(s) && Kept(s, s') && s'.links == s.links
    ensures LinksDirect(s')
  {
    hide FinalsKept;
  }

  /** The parts of the invariant a step leaves alone when it touches neither rows nor objects. */
  lemma InvIs(s: State)
    requires ContentAddressed(s.objects) && UploadsSound(s) && RowsSound(s.artifacts, s.objects)
    requires AttachmentsSound(s.attachments, s.objects) && UniqueKeys(s.artifacts) && LinksDirect(s)
    ensures Inv(s)
  {
    hide ContentAddressed, UploadsSound, RowsSound, AttachmentsSound, UniqueKeys, LinksDirect;
  }

  // ----- uploads -----

  lemma BeginKeeps(s: State, run: Id, key: Key, a: Id, name: string, data: Bytes, share: bool, runKnown: bool)
    requires Inv(s)
    ensures Inv(BeginStep(s, run, key, a, name, data, share, runKnown).0)
  {
    var s' := BeginStep(s, run, key, a, name, data, share, runKnown).0;
    BeginKept(s, run, key, a, name, data, share, runKnown);
    if s' != s {
      assert a !in s.artifacts && WithKey(s.artifacts, run, key) == {};
      forall x | x in s.artifacts ensures s.artifacts[x].owner != run || s.artifacts[x].key != key {
        assert x !in WithKey(s.artifacts, run, key);
      }
      hide WithKey, Replay;
      RowsCarry(s.artifacts, s'.artifacts, s.objects, s'.objects);
      LinksCarry(s, s');
      assert UploadsSound(s');
      hide ContentAddressed, UploadsSound, RowsSound, AttachmentsSound, LinksDirect, Kept;
      InvIs(s');
    }
  }

  lemma StorageKeeps(s: State, s': State, a: Id, up: Upload)
    requires Inv(s) && a in s.uploads && up.data == s.uploads[a].data && Kept(s, s')
    requires s' == s.(objects := s'.objects, uploads := s.uploads[a := up])
    requires ContentAddressed(s'.objects) && UploadSound(s'.objects, a, up)
    requires forall x :: x != a && Temp(x) in s'.objects ==> Temp(x) in s.objects && s'.objects[Temp(x)] == s.objects[Temp(x)]
    ensures Inv(s')
  {
    hide ContentAddressed, UploadsSound, RowsSound, AttachmentsSound, LinksDirect, UniqueKeys, UploadSound, FinalsKept, ArtifactsKept;
    RowsCarry(s.artifacts, s'.artifacts, s.objects, s'.objects);
    AttachmentsCarry(s.attachments, s'.attachments, s.objects, s'.objects);
    LinksCarry(s, s');
    UploadsCarry(s, s', a, up);
    InvIs(s');
  }

  lemma UploadsCarry(s: State, s': State, a: Id, up: Upload)
    requires UploadsSound(s) && a in s.uploads && up.data == s.uploads[a].data && FinalsKept(s.objects, s'.objects)
    requires s' == s.(objects := s'.objects, uploads := s.uploads[a := up]) && UploadSound(s'.objects, a, up)
    requires forall x :: x != a && Temp(x) in s'.objects ==> Temp(x) in s.objects && s'.objects[Temp(x)] == s.objects[Temp(x)]
    ensures UploadsSound(s')
  {}

  lemma PutTempKeeps(s: State, a: Id)
    requires Inv(s)
    ensures Inv(PutTempStep(s, a).0)
  {
    var s' := PutTempStep(s, a).0;
    if InPhase(s, a, Begun) {
      StorageKeeps(s, s', a, s.uploads[a].(phase := TempStored));
    }
  }

  lemma CopyFinalKeeps(s: State, a: Id)
    requires Inv(s)
    ensures Inv(CopyFinalStep(s, a).0)
  {
    var s' := CopyFinalStep(s, a).0;
    if InPhase(s, a, TempStored) && Temp(a) in s.objects {
      assert UploadSound(s.objects, a, s.uploads[a]);
      StorageKeeps(s, s', a, s.uploads[a].(phase := Copied));
    }
  }

  lemma RemoveTempKeeps(s: State, a: Id)
    requires Inv(s)
    ensures Inv(RemoveTempStep(s, a).0)
  {
    var s' := RemoveTempStep(s, a).0;
    if InPhase(s, a, Copied) {
      assert UploadSound(s.objects, a, s.uploads[a]);
      StorageKeeps(s, s', a, s.uploads[a].(phase := TempGone));
    }
  }

  lemma DropTempKeeps(s: State, a: Id)
    requires Inv(s)
    ensures Inv(DropTempStep(s, a).0)
  {
    var s' := DropTempStep(s, a).0;
    if a in s.uploads {
      assert UploadSound(s.objects, a, s.uploads[a]);
      StorageKeeps(s, s', a, s.uploads[a]);
    }
  }

  /** Steps that move one row on, drop its upload and perhaps add a link to the direct parent. */
  lemma RowMovesOn(s: State, s': State, a: Id)
    requires Inv(s) && a in s.artifacts && a in s'.artifacts && Kept(s, s')
    requires s' == s.(artifacts := s.artifacts[a := s'.artifacts[a]], links := s'.links, uploads := s.uploads - {a})
    requires RowSound(s.objects, s'.artifacts[a])
    requires forall k :: k in s'.links && k !in s.links ==>
      k.artifact == a && s.artifacts[a].owner in s.parents && s.parents[s.artifacts[a].owner] == k.grantee
    ensures Inv(s')
  {
    RowsCarry(s.artifacts, s'.artifacts, s.objects, s'.objects);
    assert UploadsSound(s');
    assert LinksDirect(s');
    assert UniqueKeys(s'.artifacts);
    hide ContentAddressed, UploadsSound, RowsSound, AttachmentsSound, LinksDirect, Kept, UploadSound, UniqueKeys;
    InvIs(s');
  }

  lemma FinaliseMeans(s: State, a: Id)
    ensures var s' := FinaliseStep(s, a).0;
      s' == s
      || (InPhase(s, a, TempGone) && a in s.artifacts && a in s'.artifacts
          && s' == s.(artifacts := s.artifacts[a := s'.artifacts[a]], links := s'.links, uploads := s.uploads - {a})
          && s'.artifacts[a].sha == Some(Sha256(s.uploads[a].data))
          && s'.artifacts[a].objectKey == Some(Final(Sha256(s.uploads[a].data)))
          && s'.artifacts[a].size == Some(|s.uploads[a].data|)
          && forall k :: k in s'.links && k !in s.links ==>
               k.artifact == a && s.artifacts[a].owner in s.parents && s.parents[s.artifacts[a].owner] == k.grantee)
  {}

  lemma FinaliseKeeps(s: State, a: Id)
    requires Inv(s)
    ensures Inv(FinaliseStep(s, a).0)
  {
    var s' := FinaliseStep(s, a).0;
    FinaliseIsKept(s, a);
    FinaliseMeans(s, a);
    assert InPhase(s, a, TempGone) ==> UploadSound(s.objects, a, s.uploads[a]);
    hide Inv, Kept, FinaliseStep;
    if s' != s {
      RowMovesOn(s, s', a);
    }
  }

  lemma FinaliseIsKept(s: State, a: Id)
    ensures Kept(s, FinaliseStep(s, a).0)
  {
    hide Shared;
  }

  lemma MarkFailedIsKept(s: State, a: Id)
    ensures Kept(s, MarkFailedStep(s, a).0)
  {}

  lemma MarkFailedMeans(s: State, a: Id)
    requires a in s.uploads ==> a in s.artifacts
    ensures var s' := MarkFailedStep(s, a).0;
      s' == s
      || (a in s.artifacts && a in s'.artifacts
          && s' == s.(artifacts := s.artifacts[a := s'.artifacts[a]], links := s'.links, uploads := s.uploads - {a})
          && s'.links == s.links
          && (s'.artifacts[a] == s.artifacts[a] || s'.artifacts[a].status == UploadFailed))
  {
    if a in s.artifacts { assert s.artifacts == s.artifacts[a := s.artifacts[a]]; }
  }

  lemma MarkFailedKeeps(s: State, a: Id)
    requires Inv(s)
    ensures Inv(MarkFailedStep(s, a).0)
  {
    var s' := MarkFailedStep(s, a).0;
    MarkFailedIsKept(s, a);
    MarkFailedMeans(s, a);
    assert a in s.artifacts ==> RowSound(s.objects, s.artifacts[a]);
    hide Inv, Kept, MarkFailedStep;
    if s' != s {
      RowMovesOn(s, s', a);
    }
  }

  // ----- attachments and shared rows -----

  lemma ExpireColumns(rows: map<Id, Attachment>, conversation: Id, now: int)
    ensures var rows' := ExpireStaged(rows, conversation, now);
      && rows'.Keys == rows.Keys
      && forall x :: x in rows ==>
           rows'[x].objectKey == rows[x].objectKey && rows'[x].sha == rows[x].sha && rows'[x].size == rows[x].size
  {}

  lemma UploadedObjects(objects: map<ObjectKey, Bytes>, id: Id, data: Bytes, lost: Option<Phase>)
    requires ContentAddressed(objects)
    ensures var objects' := Uploaded(objects, id, data, lost);
      && ContentAddressed(objects') && FinalsKept(objects, objects')
      && (lost.None? ==> Final(Sha256(data)) in objects')
      && forall a :: (Temp(a) in objects' <==> Temp(a) in objects)
                     && (Temp(a) in objects ==> objects'[Temp(a)] == objects[Temp(a)])
  {}

  /** Steps that write attachments and hash-named objects only. */
  lemma AttachmentsKeep(s: State, s': State)
    requires Inv(s) && s' == s.(objects := s'.objects, attachments := s'.attachments)
    requires ContentAddressed(s'.objects) && FinalsKept(s.objects, s'.objects)
    requires forall a :: (Temp(a) in s'.objects <==> Temp(a) in s.objects)
                         && (Temp(a) in s.objects ==> s'.objects[Temp(a)] == s.objects[Temp(a)])
    requires AttachmentsSound(s'.attachments, s'.objects)
    ensures Inv(s')
  {
    RowsCarry(s.artifacts, s'.artifacts, s.objects, s'.objects);
    assert UploadsSound(s');
    assert LinksDirect(s');
    hide ContentAddressed, UploadsSound, RowsSound, AttachmentsSound, LinksDirect, UploadSound, UniqueKeys;
    InvIs(s');
  }

  lemma AttachMeans(s: State, c: Command)
    requires c.Attach?
    ensures var s' := Step(s, c).0;
      || s' == s
      || (s' == s.(objects := Uploaded(s.objects, c.attachment, c.data, c.lost)) && c.lost.Some?)
      || (c.lost.None? && s' == s.(objects := Uploaded(s.objects, c.attachment, c.data, None), attachments := s'.attachments)
          && s'.attachments == ExpireStaged(s.attachments, c.conversation, c.now)
               [c.attachment := Attachment(c.conversation, c.attachKey, c.name, c.contentType, Final(Sha256(c.data)), Sha256(c.data),
                                           |c.data|, Staged, c.now + s.limits.ttl, None, None, 1)])
  {
    hide Keyed, ExpireStaged, StagedSizes, Sum, Uploaded;
  }

  lemma AttachKeeps(s: State, c: Command)
    requires Inv(s) && c.Attach?
    ensures Inv(Step(s, c).0)
  {
    var s' := Step(s, c).0;
    AttachMeans(s, c);
    UploadedObjects(s.objects, c.attachment, c.data, c.lost);
    ExpireColumns(s.attachments, c.conversation, c.now);
    hide Step, ExpireStaged, Uploaded, ContentAddressed;
    if s' != s {
      AttachmentsCarry(s.attachments, s'.attachments, s.objects, s'.objects);
      hide Inv, FinalsKept, AttachmentsSound;
      AttachmentsKeep(s, s');
    }
  }

  lemma ExpiryKeeps(s: State, conversation: Id, now: int)
    requires Inv(s)
    ensures Inv(s.(attachments := ExpireStaged(s.attachments, conversation, now)))
  {
    var s' := s.(attachments := ExpireStaged(s.attachments, conversation, now));
    ExpireColumns(s.attachments, conversation, now);
    hide ExpireStaged;
    AttachmentsCarry(s.attachments, s'.attachments, s.objects, s'.objects);
    AttachmentsKeep(s, s');
  }

  lemma DiscardKeeps(s: State, conversation: Id, id: Id)
    requires Inv(s)
    ensures Inv(DiscardStep(s, conversation, id).0)
  {
    var s' := DiscardStep(s, conversation, id).0;
    if s' != s {
      AttachmentsCarry(s.attachments, s'.attachments, s.objects, s'.objects);
      AttachmentsKeep(s, s');
    }
  }

  /** New rows for one fresh run, each with sound content and a key of its own. */
  lemma SharedRowsKeep(s: State, s': State, run: Id)
    requires Inv(s) && NoArtifactsOf(s, run) && Kept(s, s')
    requires s' == s.(artifacts := s'.artifacts, attachments := s'.attachments)
    requires AttachmentsSound(s'.attachments, s'.objects)
    requires forall a :: a in s.artifacts ==> a in s'.artifacts && s'.artifacts[a] == s.artifacts[a]
    requires forall a :: a in s'.artifacts && a !in s.artifacts ==>
      s'.artifacts[a].owner == run && RowSound(s.objects, s'.artifacts[a])
    requires forall a, b :: a in s'.artifacts && b in s'.artifacts && a !in s.artifacts && b !in s.artifacts && a != b ==>
      s'.artifacts[a].key != s'.artifacts[b].key
    ensures Inv(s')
  {
    RowsCarry(s.artifacts, s'.artifacts, s.objects, s'.objects);
    LinksCarry(s, s');
    assert UploadsSound(s');
    assert UniqueKeys(s'.artifacts);
    hide ContentAddressed, UploadsSound, RowsSound, AttachmentsSound, LinksDirect, UploadSound, UniqueKeys, Kept;
    InvIs(s');
  }

  /** Rows added for one run: all its own, sound, and with different keys. */
  ghost predicate AddedFor(added: map<Id, Artifact>, run: Id, objects: map<ObjectKey, Bytes>) {
    && (forall a :: a in added ==> added[a].owner == run && RowSound(objects, added[a]))
    && (forall a, b :: a in added && b in added && a != b ==> added[a].key != added[b].key)
  }

  lemma TurnRowsAdded(rows: map<Id, Attachment>, staged: set<Id>, run: Id, ids: map<Id, Id>, objects: map<ObjectKey, Bytes>)
    requires staged <= rows.Keys && OwnIds(staged, ids) && AttachmentsSound(rows, objects)
    ensures AddedFor(TurnRows(rows, staged, run, ids), run, objects)
    ensures forall a :: a in TurnRows(rows, staged, run, ids) ==> exists x :: x in staged && a == ids[x]
  {
    var added := TurnRows(rows, staged, run, ids);
    forall a | a in added
      ensures exists x :: x in staged && a == ids[x] && added[a] == FromAttachment(rows[x], x, run)
      ensures RowSound(objects, added[a])
    {
      var x :| x in staged && a == ids[x];
      assert AttachmentSound(objects, rows[x]);
    }
    hide TurnRows, RowSound, AttachmentSound;
  }

  lemma RetryRowsAdded(artifacts: map<Id, Artifact>, sources: set<Id>, turn: Id, newRun: Id, ids: map<Id, Id>, objects: map<ObjectKey, Bytes>)
    requires sources <= artifacts.Keys && OwnIds(sources, ids) && RowsSound(artifacts, objects)
    requires forall x :: x in sources ==> artifacts[x].status == Available
    ensures AddedFor(RetryRows(artifacts, sources, turn, newRun, ids), newRun, objects)
    ensures forall a :: a in RetryRows(artifacts, sources, turn, newRun, ids) ==> exists x :: x in sources && a == ids[x]
  {
    var added := RetryRows(artifacts, sources, turn, newRun, ids);
    forall a | a in added
      ensures exists x :: x in sources && a == ids[x] && added[a] == ForRetry(artifacts[x], turn, x, newRun)
      ensures RowSound(objects, added[a])
    {
      var x :| x in sources && a == ids[x];
      assert RowSound(objects, artifacts[x]);
    }
    hide RetryRows, RowSound;
  }

  lemma AddedRowsKeep(s: State, s': State, added: map<Id, Artifact>, run: Id)
    requires Inv(s) && NoArtifactsOf(s, run) && Kept(s, s') && AddedFor(added, run, s.objects)
    requires forall a :: a in added ==> a !in s.artifacts
    requires s' == s.(artifacts := s.artifacts + added, attachments := s'.attachments)
    requires AttachmentsSound(s'.attachments, s'.objects)
    ensures Inv(s')
  {
    hide Inv, Kept, AttachmentsSound, NoArtifactsOf, RowSound;
    SharedRowsKeep(s, s', run);
  }

  lemma ConsumedSound(rows: map<Id, Attachment>, rows': map<Id, Attachment>, objects: map<ObjectKey, Bytes>)
    requires AttachmentsSound(rows, objects) && rows'.Keys == rows.Keys
    requires forall x :: x in rows ==>
      rows'[x].objectKey == rows[x].objectKey && rows'[x].sha == rows[x].sha && rows'[x].size == rows[x].size
    ensures AttachmentsSound(rows', objects)
  {
    AttachmentsCarry(rows, rows', objects, objects);
  }

  lemma ConsumeMeans(s: State, conversation: Id, turn: Id, run: Id, now: int, ids: map<Id, Id>)
    ensures var s' := ConsumeStep(s, conversation, turn, run, now, ids).0;
      var rows := ExpireStaged(s.attachments, conversation, now);
      var staged := StagedIn(rows, conversation);
      && staged <= rows.Keys
      && (s' == s
          || (FreshIds(s, staged, ids) && NoArtifactsOf(s, run) && s'.attachments.Keys == rows.Keys
              && s' == s.(artifacts := s.artifacts + TurnRows(rows, staged, run, ids), attachments := s'.attachments)
              && forall x :: x in rows ==>
                   s'.attachments[x].objectKey == rows[x].objectKey && s'.attachments[x].sha == rows[x].sha
                   && s'.attachments[x].size == rows[x].size))
  {
    hide ExpireStaged, TurnRows, NoArtifactsOf;
  }

  lemma ConsumeKeeps(s: State, conversation: Id, turn: Id, run: Id, now: int, ids: map<Id, Id>)
    requires Inv(s)
    ensures Inv(ConsumeStep(s, conversation, turn, run, now, ids).0)
  {
    var s' := ConsumeStep(s, conversation, turn, run, now, ids).0;
    var rows := ExpireStaged(s.attachments, conversation, now);
    var staged := StagedIn(rows, conversation);
    ConsumeIsKept(s, conversation, turn, run, now, ids);
    ConsumeMeans(s, conversation, turn, run, now, ids);
    ExpireColumns(s.attachments, conversation, now);
    InvGives(s);
    hide Inv, ConsumeStep, ExpireStaged, StagedIn, Kept, AttachmentsSound, NoArtifactsOf, RowSound, TurnRows, AddedFor, RowsSound;
    ConsumedSound(s.attachments, rows, s.objects);
    if s' != s {
      TurnRowsAdded(rows, staged, run, ids, s.objects);
      ConsumedSound(rows, s'.attachments, s.objects);
      AddedRowsKeep(s, s', TurnRows(rows, staged, run, ids), run);
    }
  }

  lemma ConsumeIsKept(s: State, conversation: Id, turn: Id, run: Id, now: int, ids: map<Id, Id>)
    ensures Kept(s, ConsumeStep(s, conversation, turn, run, now, ids).0)
  {
    var rows := ExpireStaged(s.attachments, conversation, now);
    var staged := StagedIn(rows, conversation);
    ConsumeMeans(s, conversation, turn, run, now, ids);
    if FreshIds(s, staged, ids) { TurnRowsFresh(s, rows, staged, run, ids); }
    KeptSame(s);
    hide Kept, ConsumeStep, ExpireStaged, StagedIn, TurnRows, FreshIds, NoArtifactsOf;
    var s' := ConsumeStep(s, conversation, turn, run, now, ids).0;
    if s' != s { AddedKept(s, s', TurnRows(rows, staged, run, ids)); }
  }

  lemma TurnRowsFresh(s: State, rows: map<Id, Attachment>, staged: set<Id>, run: Id, ids: map<Id, Id>)
    requires staged <= rows.Keys && FreshIds(s, staged, ids)
    ensures OwnIds(staged, ids)
    ensures forall a :: a in TurnRows(rows, staged, run, ids) ==> a !in s.artifacts
  {}

  lemma AddedKept(s: State, s': State, added: map<Id, Artifact>)
    requires s' == s.(artifacts := s.artifacts + added, attachments := s'.attachments)
    requires forall a :: a in added ==> a !in s.artifacts
    ensures Kept(s, s')
  {}

  lemma CopyIsKept(s: State, turn: Id, refs: set<Id>, newRun: Id, ids: map<Id, Id>)
    ensures Kept(s, CopyStep(s, turn, refs, newRun, ids).0)
  {
    RetryRowsFresh(s, turn, refs, newRun, ids);
    hide AvailableOf, RetryRows;
  }

  lemma RetryRowsFresh(s: State, turn: Id, refs: set<Id>, newRun: Id, ids: map<Id, Id>)
    ensures AvailableOf(s, refs) <= s.artifacts.Keys
    ensures FreshIds(s, AvailableOf(s, refs), ids) ==>
      forall a :: a in RetryRows(s.artifacts, AvailableOf(s, refs), turn, newRun, ids) ==> a !in s.artifacts
  {}

  lemma CopyKeeps(s: State, turn: Id, refs: set<Id>, newRun: Id, ids: map<Id, Id>)
    requires Inv(s)
    ensures Inv(CopyStep(s, turn, refs, newRun, ids).0)
  {
    var s' := CopyStep(s, turn, refs, newRun, ids).0;
    var sources := AvailableOf(s, refs);
    CopyIsKept(s, turn, refs, newRun, ids);
    RetryRowsFresh(s, turn, refs, newRun, ids);
    InvGives(s);
    assert forall x :: x in sources ==> s.artifacts[x].status == Available;
    hide Inv, Kept, AttachmentsSound, NoArtifactsOf, RowSound, RetryRows, AddedFor, AvailableOf, RowsSound;
    if FreshIds(s, sources, ids) && NoArtifactsOf(s, newRun) {
      RetryRowsAdded(s.artifacts, sources, turn, newRun, ids, s.objects);
      AddedRowsKeep(s, s', RetryRows(s.artifacts, sources, turn, newRun, ids), newRun);
    }
  }

  lemma InvGives(s: State)
    requires Inv(s)
    ensures AttachmentsSound(s.attachments, s.objects) && RowsSound(s.artifacts, s.objects)
  {}

  lemma CrashKeeps(s: State, a: Id)
    requires Inv(s)
    ensures Inv(s.(uploads := s.uploads - {a}))
  {}

  lemma DelegatedKeeps(s: State, child: Id, parent: Id)
    requires Inv(s) && child !in s.parents
    ensures Inv(s.(parents := s.parents[child := parent]))
  {}

  // ----- every reachable state -----

  lemma StepKeeps(s: State, c: Command)
    requires Inv(s)
    ensures Inv(Step(s, c).0)
  {
    hide Inv, BeginStep, PutTempStep, CopyFinalStep, RemoveTempStep, FinaliseStep, DropTempStep, MarkFailedStep, DiscardStep,
         AttachStep, ConsumeStep, CopyStep, ExpireStaged;
    match c {
      case BeginUpload(run, key, artifact, name, data, share, runKnown) => BeginKeeps(s, run, key, artifact, name, data, share, runKnown);
      case PutTemp(artifact) => PutTempKeeps(s, artifact);
      case CopyFinal(artifact) => CopyFinalKeeps(s, artifact);
      case RemoveTemp(artifact) => RemoveTempKeeps(s, artifact);
      case Finalise(artifact) => FinaliseKeeps(s, artifact);
      case DropTemp(artifact) => DropTempKeeps(s, artifact);
      case MarkFailed(artifact) => MarkFailedKeeps(s, artifact);
      case Crash(artifact) => CrashKeeps(s, artifact);
      case Poll(_) =>
      case Attach(_, _, _, _, _, _, _, _, _) => AttachKeeps(s, c);
      case ListAttachments(conversation, now) => ExpiryKeeps(s, conversation, now);
      case DiscardAttachment(conversation, attachment) => DiscardKeeps(s, conversation, attachment);
      case ConsumeStaged(conversation, turn, run, now, ids) => ConsumeKeeps(s, conversation, turn, run, now, ids);
      case CopyForRetry(turn, refs, newRun, ids) => CopyKeeps(s, turn, refs, newRun, ids);
      case Delegated(child, parent) => if child !in s.parents { DelegatedKeeps(s, child, parent); }
    }
  }

  lemma {:induction false} Reachable(limits: Limits, history: seq<Command>)
    ensures Inv(After(limits, history))
    decreases |history|
  {
    if history == [] {
      assert Inv(Initial(limits));
    } else {
      Reachable(limits, history[..|history| - 1]);
      hide Inv, Step;
      StepKeeps(After(limits, history[..|history| - 1]), history[|history| - 1]);
    }
  }

  // ----- theorems -----

  /** Whatever interleaving of uploads, attachments, turns and retries came before: every available
      artifact's object exists and has the recorded hash and size, so a read by the owner or by a run
      with a live link returns the bytes, and the missing-object, unavailable and integrity failures
      of a read are unreachable. */
  lemma ReadsNeverFail(limits: Limits, history: seq<Command>, run: Id, runKnown: bool, a: Id, now: int)
    ensures var s := After(limits, history);
      var o := ReadForRun(s, run, runKnown, a, now);
      && o !in {Refused(IntegrityFailed), Refused(ObjectMissing), Refused(NotAvailable)}
      && (o.Bytes_? <==>
            && runKnown && a in s.artifacts && s.artifacts[a].status == Available
            && (s.artifacts[a].owner == run
                || (LinkKey(a, run) in s.links && s.links[LinkKey(a, run)].active
                    && (s.links[LinkKey(a, run)].expiresAt.Some? ==> s.links[LinkKey(a, run)].expiresAt.value > now))))
      && (o.Bytes_? ==> s.artifacts[a].sha == Some(Sha256(o.data)) && s.artifacts[a].size == Some(|o.data|))
  {
    Reachable(limits, history);
    var s := After(limits, history);
    if a in s.artifacts { assert RowSound(s.objects, s.artifacts[a]); }
    assert ContentAddressed(s.objects);
    hide After, Inv;
  }

  /** A run other than the owner holds a link only if it is the owner's direct parent. */
  lemma OnlyParentHoldsLink(limits: Limits, history: seq<Command>, a: Id, grantee: Id)
    requires LinkKey(a, grantee) in After(limits, history).links
    ensures var s := After(limits, history);
      a in s.artifacts && s.artifacts[a].owner in s.parents && s.parents[s.artifacts[a].owner] == grantee
  {
    Reachable(limits, history);
    var s := After(limits, history);
    assert LinksDirect(s);
    assert LinkKey(a, grantee).artifact == a && LinkKey(a, grantee).grantee == grantee;
    hide After, Inv;
  }

  lemma AfterStep(limits: Limits, history: seq<Command>, c: Command)
    ensures After(limits, history + [c]) == Step(After(limits, history), c).0
  {
    assert (history + [c])[..|history|] == history;
    hide Step;
  }

  lemma KeptTwice(s: State, t: State, u: State)
    requires Kept(s, t) && Kept(t, u)
    ensures Kept(s, u)
  {}

  lemma {:induction false} KeptForGood(limits: Limits, history: seq<Command>, later: seq<Command>)
    ensures Kept(After(limits, history), After(limits, history + later))
    decreases |later|
  {
    if later == [] {
      assert history + later == history;
      KeptSame(After(limits, history));
    } else {
      var n := |later| - 1;
      assert history + later == (history + later[..n]) + [later[n]];
      hide *;
      KeptForGood(limits, history, later[..n]);
      AfterStep(limits, history + later[..n], later[n]);
      StepKept(After(limits, history + later[..n]), later[n]);
      KeptTwice(After(limits, history), After(limits, history + later[..n]), After(limits, history + later));
    }
  }

  /** Once available, an artifact's row never changes again and its bytes stay readable for ever,
      even while other rows share them. */
  lemma AvailableForGood(limits: Limits, history: seq<Command>, later: seq<Command>, a: Id)
    requires var s := After(limits, history); a in s.artifacts && s.artifacts[a].status == Available
    ensures var s, s' := After(limits, history), After(limits, history + later);
      && a in s'.artifacts && s'.artifacts[a] == s.artifacts[a] && s.artifacts[a].objectKey.Some?
      && s.artifacts[a].objectKey.value in s.objects && s.artifacts[a].objectKey.value in s'.objects
      && s'.objects[s.artifacts[a].objectKey.value] == s.objects[s.artifacts[a].objectKey.value]
  {
    Reachable(limits, history);
    Reachable(limits, history + later);
    KeptForGood(limits, history, later);
    var s, s' := After(limits, history), After(limits, history + later);
    assert RowSound(s.objects, s.artifacts[a]);
    assert ContentAddressed(s.objects) && ContentAddressed(s'.objects);
    hide After, Inv;
  }

  lemma StoredMeans(s: State, c: Command)
    requires Inv(s) && Step(s, c).1.Stored?
    ensures var (s', o) := Step(s, c);
      o.artifact in s'.artifacts && s'.artifacts[o.artifact].owner == o.run && s'.artifacts[o.artifact].key == o.key
      && s'.artifacts[o.artifact].status == Available
  {
    hide Inv, Keyed, ExpireStaged, StagedSizes, Sum, Uploaded, StagedIn, AvailableOf, FromAttachment, ForRetry, Shared;
  }

  /** Idempotency: all callers that are told "stored" for one run and key, at whatever points of the
      history and whether they uploaded, replayed or waited, are told the same artifact, and its row
      is the same for all of them. */
  lemma SameArtifactForAll(limits: Limits, history: seq<Command>, i: nat, j: nat)
    requires i <= j < |history| && Answer(limits, history, i).Stored? && Answer(limits, history, j).Stored?
    requires Answer(limits, history, i).run == Answer(limits, history, j).run
    requires Answer(limits, history, i).key == Answer(limits, history, j).key
    ensures Answer(limits, history, i).artifact == Answer(limits, history, j).artifact
    ensures var a := Answer(limits, history, i).artifact;
      var s, s' := After(limits, history[..i + 1]), After(limits, history[..j + 1]);
      a in s.artifacts && a in s'.artifacts && s'.artifacts[a] == s.artifacts[a]
  {
    hide After, Answer, Inv, FinalsKept;
    StoredAt(limits, history, i);
    StoredAt(limits, history, j);
    KeptForGood(limits, history[..i + 1], history[i + 1..j + 1]);
    assert history[..i + 1] + history[i + 1..j + 1] == history[..j + 1];
    Reachable(limits, history[..j + 1]);
    OneRowPerKey(After(limits, history[..j + 1]), Answer(limits, history, i).artifact, Answer(limits, history, j).artifact);
  }

  lemma OneRowPerKey(s: State, a: Id, b: Id)
    requires Inv(s)
    requires a in s.artifacts && b in s.artifacts
    requires s.artifacts[a].owner == s.artifacts[b].owner && s.artifacts[a].key == s.artifacts[b].key
    ensures a == b
  {}

  /** The artifact a "stored" answer names is an available row of that run and key. */
  ghost predicate HoldsStored(s: State, o: Outcome)
    requires o.Stored?
  {
    o.artifact in s.artifacts && s.artifacts[o.artifact].owner == o.run && s.artifacts[o.artifact].key == o.key
    && s.artifacts[o.artifact].status == Available
  }

  lemma StoredAfter(limits: Limits, prefix: seq<Command>, c: Command, o: Outcome)
    requires o.Stored? && Step(After(limits, prefix), c).1 == o
    ensures HoldsStored(After(limits, prefix + [c]), o)
  {
    Reachable(limits, prefix);
    AfterStep(limits, prefix, c);
    hide After, Step, Inv;
    StoredMeans(After(limits, prefix), c);
  }

  lemma StoredAt(limits: Limits, history: seq<Command>, i: nat)
    requires i < |history| && Answer(limits, history, i).Stored?
    ensures HoldsStored(After(limits, history[..i + 1]), Answer(limits, history, i))
  {
    hide *;
    AnswerIs(limits, history, i);
    assert history[..i + 1] == history[..i] + [history[i]];
    StoredAfter(limits, history[..i], history[i], Answer(limits, history, i));
  }

  lemma AnswerIs(limits: Limits, history: seq<Command>, i: nat)
    requires i < |history|
    ensures Answer(limits, history, i) == Step(After(limits, history[..i]), history[i]).1
  {
    hide Step, After;
  }

  // ----- staging limits -----

  ghost predicate Staging(s: State) {
    forall c ::
      |StagedSizes(s.attachments, c)| <= s.limits.maxCount && Sum(StagedSizes(s.attachments, c)) <= s.limits.maxTotalBytes
  }

  /** Dropping entries never raises a sum of sizes. */
  lemma FewerStaged(m: map<Id, int>, m': map<Id, int>)
    requires m'.Keys <= m.Keys && forall x :: x in m' ==> m'[x] == m[x]
    requires forall x :: x in m ==> m[x] >= 0
    ensures |m'| <= |m| && Sum(m') <= Sum(m)
  {
    SumSplit(m, m'.Keys);
    assert Only(m, m'.Keys) == m';
    SubsetSize(m'.Keys, m.Keys);
    assert |m'| == |m'.Keys| && |m| == |m.Keys|;
    hide Sum;
    var rest := m - m'.Keys;
    forall x | x in rest ensures rest[x] >= 0 {}
    SumNonNegative(rest);
  }

  /** A row that was not staged does not become staged, and staged rows keep conversation and size. */
  ghost predicate OnlyUnstages(rows: map<Id, Attachment>, rows': map<Id, Attachment>) {
    forall x :: x in rows' && rows'[x].status == Staged ==>
      x in rows && rows[x].status == Staged && rows[x].conversation == rows'[x].conversation && rows[x].size == rows'[x].size
  }

  lemma UnstagingFits(rows: map<Id, Attachment>, rows': map<Id, Attachment>, c: Id)
    requires OnlyUnstages(rows, rows')
    ensures |StagedSizes(rows', c)| <= |StagedSizes(rows, c)| && Sum(StagedSizes(rows', c)) <= Sum(StagedSizes(rows, c))
  {
    FewerStaged(StagedSizes(rows, c), StagedSizes(rows', c));
  }

  lemma ExpiryUnstages(rows: map<Id, Attachment>, conversation: Id, now: int)
    ensures OnlyUnstages(rows, ExpireStaged(rows, conversation, now))
  {}

  lemma NewRowStaged(rows: map<Id, Attachment>, id: Id, row: Attachment, c: Id)
    requires id !in rows && row.status == Staged
    ensures c != row.conversation ==> StagedSizes(rows[id := row], c) == StagedSizes(rows, c)
    ensures c == row.conversation ==>
      |StagedSizes(rows[id := row], c)| == |StagedSizes(rows, c)| + 1
      && Sum(StagedSizes(rows[id := row], c)) == Sum(StagedSizes(rows, c)) + row.size
  {
    var m, m' := StagedSizes(rows, c), StagedSizes(rows[id := row], c);
    if c == row.conversation {
      assert m' == m[id := row.size] && id !in m;
      hide Sum, StagedSizes;
      SumInsert(m, id, row.size);
      OneMoreKey(m, id, row.size);
    } else {
      assert m' == m;
    }
  }

  lemma OneMoreKey(m: map<Id, int>, k: Id, v: int)
    requires k !in m
    ensures |m[k := v]| == |m| + 1
  {
    assert m[k := v].Keys == m.Keys + {k};
    assert |m[k := v]| == |m[k := v].Keys| && |m| == |m.Keys|;
  }

  lemma AttachStages(s: State, c: Command)
    requires Staging(s) && c.Attach?
    ensures Staging(Step(s, c).0)
  {
    var s' := Step(s, c).0;
    AttachFits(s, c);
    var rows := ExpireStaged(s.attachments, c.conversation, c.now);
    ExpiryUnstages(s.attachments, c.conversation, c.now);
    if s'.attachments != s.attachments {
      forall x
        ensures |StagedSizes(s'.attachments, x)| <= s.limits.maxCount && Sum(StagedSizes(s'.attachments, x)) <= s.limits.maxTotalBytes
      {
        UnstagingFits(s.attachments, rows, x);
        NewRowStaged(rows, c.attachment, s'.attachments[c.attachment], x);
        hide Step, StagedSizes, Sum, ExpireStaged;
      }
    }
    hide Step, StagedSizes, Sum, ExpireStaged;
  }

  lemma AttachFits(s: State, c: Command)
    requires c.Attach?
    ensures var s' := Step(s, c).0;
      var rows := ExpireStaged(s.attachments, c.conversation, c.now);
      && s'.limits == s.limits
      && (s'.attachments == s.attachments
          || (c.attachment !in rows && c.attachment in s'.attachments
              && s'.attachments == rows[c.attachment := s'.attachments[c.attachment]]
              && s'.attachments[c.attachment].status == Staged && s'.attachments[c.attachment].conversation == c.conversation
              && s'.attachments[c.attachment].size == |c.data|
              && |StagedSizes(rows, c.conversation)| < s.limits.maxCount
              && Sum(StagedSizes(rows, c.conversation)) + |c.data| <= s.limits.maxTotalBytes))
  {
    ExpireColumns(s.attachments, c.conversation, c.now);
    AttachMeans(s, c);
    AttachChecks(s, c);
    hide Step, ExpireStaged, StagedSizes, Sum, Uploaded;
  }

  lemma AttachChecks(s: State, c: Command)
    requires c.Attach?
    ensures var rows := ExpireStaged(s.attachments, c.conversation, c.now);
      Step(s, c).0.attachments == s.attachments
      || (c.attachment !in s.attachments
          && |StagedSizes(rows, c.conversation)| < s.limits.maxCount
          && Sum(StagedSizes(rows, c.conversation)) + |c.data| <= s.limits.maxTotalBytes)
  {
    hide Keyed, ExpireStaged, StagedSizes, Sum, Uploaded;
  }

  lemma OtherwiseUnstages(s: State, c: Command)
    requires !c.Attach?
    ensures Step(s, c).0.limits == s.limits && OnlyUnstages(s.attachments, Step(s, c).0.attachments)
  {
    hide BeginStep, PutTempStep, CopyFinalStep, RemoveTempStep, FinaliseStep, DropTempStep, MarkFailedStep, DiscardStep,
         AttachStep, ConsumeStep, CopyStep, ExpireStaged;
    match c {
      case ListAttachments(conversation, now) => ExpiryUnstages(s.attachments, conversation, now);
      case DiscardAttachment(conversation, attachment) => DiscardUnstages(s, conversation, attachment);
      case ConsumeStaged(conversation, turn, run, now, ids) => ConsumeUnstages(s, conversation, turn, run, now, ids);
      case _ => RowsUntouched(s, c);
    }
  }

  lemma DiscardUnstages(s: State, conversation: Id, id: Id)
    ensures DiscardStep(s, conversation, id).0.limits == s.limits
    ensures OnlyUnstages(s.attachments, DiscardStep(s, conversation, id).0.attachments)
  {
    hide OnlyUnstages;
    NothingUnstages(s.attachments);
    if id in s.attachments {
      OneUnstages(s.attachments, id, s.attachments[id].(status := Discarded, revision := s.attachments[id].revision + 1));
    }
  }

  lemma NothingUnstages(rows: map<Id, Attachment>)
    ensures OnlyUnstages(rows, rows)
  {}

  lemma OneUnstages(rows: map<Id, Attachment>, id: Id, row: Attachment)
    requires row.status != Staged
    ensures OnlyUnstages(rows, rows[id := row])
  {}

  lemma ConsumeUnstages(s: State, conversation: Id, turn: Id, run: Id, now: int, ids: map<Id, Id>)
    ensures var s' := ConsumeStep(s, conversation, turn, run, now, ids).0;
      s'.limits == s.limits && OnlyUnstages(s.attachments, s'.attachments)
  {
    ExpiryUnstages(s.attachments, conversation, now);
    hide ExpireStaged, TurnRows, FreshIds, NoArtifactsOf;
  }

  lemma RowsUntouched(s: State, c: Command)
    requires !c.Attach? && !c.ListAttachments? && !c.DiscardAttachment? && !c.ConsumeStaged?
    ensures Step(s, c).0.limits == s.limits && Step(s, c).0.attachments == s.attachments
  {
    hide WithKey, Replay, AvailableOf, Shared, RetryRows, FreshIds, NoArtifactsOf;
  }

  /** In every reachable state no conversation has more staged attachments, or more staged bytes, than
      the configured limits. */
  lemma {:induction false} StagedWithinLimits(limits: Limits, history: seq<Command>, c: Id)
    ensures var s := After(limits, history);
      && s.limits == limits
      && |StagedSizes(s.attachments, c)| <= limits.maxCount && Sum(StagedSizes(s.attachments, c)) <= limits.maxTotalBytes
    decreases |history|
  {
    if history == [] {
      assert StagedSizes(map[], c) == map[];
    } else {
      var n := |history| - 1;
      var s, cmd := After(limits, history[..n]), history[n];
      forall x ensures s.limits == limits && |StagedSizes(s.attachments, x)| <= limits.maxCount
                       && Sum(StagedSizes(s.attachments, x)) <= limits.maxTotalBytes
      {
        StagedWithinLimits(limits, history[..n], x);
      }
      assert Staging(s);
      assert After(limits, history) == Step(s, cmd).0;
      hide After, Step, StagedSizes, Sum;
      if cmd.Attach? {
        AttachStages(s, cmd);
        AttachFits(s, cmd);
      } else {
        OtherwiseUnstages(s, cmd);
        UnstagingFits(s.attachments, Step(s, cmd).0.attachments, c);
      }
    }
  }

  // ----- attachment keys -----

  /** At most one attachment per conversation and idempotency key. */
  ghost predicate UniqueAttachments(rows: map<Id, Attachment>) {
    forall x, y :: x in rows && y in rows && x != y ==> rows[x].conversation != rows[y].conversation || rows[x].key != rows[y].key
  }

  ghost predicate SameKeys(rows: map<Id, Attachment>, rows': map<Id, Attachment>) {
    rows'.Keys == rows.Keys && forall x :: x in rows ==> rows'[x].conversation == rows[x].conversation && rows'[x].key == rows[x].key
  }

  lemma ExpirySameKeys(rows: map<Id, Attachment>, conversation: Id, now: int)
    ensures SameKeys(rows, ExpireStaged(rows, conversation, now))
  {}

  lemma OtherwiseSameKeys(s: State, c: Command)
    requires !c.Attach?
    ensures SameKeys(s.attachments, Step(s, c).0.attachments)
  {
    hide BeginStep, PutTempStep, CopyFinalStep, RemoveTempStep, FinaliseStep, DropTempStep, MarkFailedStep, DiscardStep,
         AttachStep, ConsumeStep, CopyStep, ExpireStaged;
    match c {
      case ListAttachments(conversation, now) => ExpirySameKeys(s.attachments, conversation, now);
      case DiscardAttachment(conversation, attachment) => DiscardSameKeys(s, conversation, attachment);
      case ConsumeStaged(conversation, turn, run, now, ids) => ConsumeSameKeys(s, conversation, turn, run, now, ids);
      case _ => RowsUntouched(s, c);
    }
  }

  lemma DiscardSameKeys(s: State, conversation: Id, id: Id)
    ensures SameKeys(s.attachments, DiscardStep(s, conversation, id).0.attachments)
  {
    hide SameKeys;
    NoKeyChanges(s.attachments);
    if id in s.attachments {
      KeyStays(s.attachments, id, s.attachments[id].(status := Discarded, revision := s.attachments[id].revision + 1));
    }
  }

  lemma NoKeyChanges(rows: map<Id, Attachment>)
    ensures SameKeys(rows, rows)
  {}

  lemma KeyStays(rows: map<Id, Attachment>, id: Id, row: Attachment)
    requires id in rows && row.conversation == rows[id].conversation && row.key == rows[id].key
    ensures SameKeys(rows, rows[id := row])
  {}

  lemma ConsumeSameKeys(s: State, conversation: Id, turn: Id, run: Id, now: int, ids: map<Id, Id>)
    ensures SameKeys(s.attachments, ConsumeStep(s, conversation, turn, run, now, ids).0.attachments)
  {
    ExpirySameKeys(s.attachments, conversation, now);
    hide ExpireStaged, TurnRows, FreshIds, NoArtifactsOf;
  }

  lemma AttachStaysUnique(s: State, c: Command)
    requires c.Attach? && UniqueAttachments(s.attachments)
    ensures UniqueAttachments(Step(s, c).0.attachments)
  {
    AttachMeans(s, c);
    ExpirySameKeys(s.attachments, c.conversation, c.now);
    if Step(s, c).0.attachments != s.attachments {
      forall x | x in s.attachments ensures s.attachments[x].conversation != c.conversation || s.attachments[x].key != c.attachKey {
        assert x !in Keyed(s.attachments, c.conversation, c.attachKey);
      }
    }
    hide Step, ExpireStaged, Uploaded, Keyed;
  }

  /** In every reachable state an idempotency key names at most one attachment of a conversation, so
      every replayed upload is answered with the same row. */
  lemma {:induction false} AttachmentsUnique(limits: Limits, history: seq<Command>)
    ensures UniqueAttachments(After(limits, history).attachments)
    decreases |history|
  {
    if history != [] {
      var n := |history| - 1;
      AttachmentsUnique(limits, history[..n]);
      hide Step;
      if history[n].Attach? {
        AttachStaysUnique(After(limits, history[..n]), history[n]);
      } else {
        OtherwiseSameKeys(After(limits, history[..n]), history[n]);
      }
    }
  }
}
