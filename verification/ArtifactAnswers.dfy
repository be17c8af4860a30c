/** What the artifact and attachment services answer and keep, after any history and in terms of the
    caller's own bytes. */
module ArtifactAnswers {
  import opened Foundation
  import opened MapSums
  import opened Artifacts
  import opened ArtifactTheorems

  // ----- attachment uploads -----

  /** The row says what the call said. */
  ghost predicate Carries(row: Attachment, cmd: Command)
    requires cmd.Attach?
  {
    && row.conversation == cmd.conversation && row.key == cmd.attachKey && row.name == cmd.name
    && row.contentType == cmd.contentType && row.sha == Sha256(cmd.data) && row.size == |cmd.data|
  }

  /** Whatever came before, an answered upload names a row that carries the call's conversation, key,
      name, type, hash and size, and whose object holds the caller's bytes. */
  lemma AttachedCarriesUpload(limits: Limits, history: seq<Command>, cmd: Command)
    requires cmd.Attach? && Step(After(limits, history), cmd).1.Attached?
    ensures var (s', o) := Step(After(limits, history), cmd);
      && o.attachment in s'.attachments && Carries(s'.attachments[o.attachment], cmd)
      && s'.attachments[o.attachment].objectKey in s'.objects
      && s'.objects[s'.attachments[o.attachment].objectKey] == cmd.data
  {
    hide *;
    Reachable(limits, history);
    var s := After(limits, history);
    AttachedRow(s, cmd);
    StepKeeps(s, cmd);
    RowHasBytes(Step(s, cmd).0, Step(s, cmd).1.attachment, cmd);
  }

  lemma AttachedRow(s: State, cmd: Command)
    requires cmd.Attach? && Step(s, cmd).1.Attached?
    ensures var (s', o) := Step(s, cmd); o.attachment in s'.attachments && Carries(s'.attachments[o.attachment], cmd)
  {
    hide StagedSizes, Sum, Uploaded;
  }

  lemma RowHasBytes(s: State, x: Id, cmd: Command)
    requires Inv(s) && x in s.attachments && cmd.Attach? && Carries(s.attachments[x], cmd)
    ensures s.attachments[x].objectKey in s.objects && s.objects[s.attachments[x].objectKey] == cmd.data
  {
    assert AttachmentSound(s.objects, s.attachments[x]) && ContentAddressed(s.objects);
    hide Inv;
  }

  /** A key that already names an attachment of the conversation never makes another one: the call is
      answered with that row if name, type and bytes are the same, refused if not, and changes nothing. */
  lemma AttachReplaysExactly(limits: Limits, history: seq<Command>, cmd: Command, x: Id)
    requires cmd.Attach? && |cmd.data| <= limits.maxAttachmentBytes && cmd.active == Some(true)
    requires var s := After(limits, history);
      x in s.attachments && s.attachments[x].conversation == cmd.conversation && s.attachments[x].key == cmd.attachKey
    ensures var s := After(limits, history);
      Step(s, cmd) == (s, if Carries(s.attachments[x], cmd) then Attached(x) else Refused(KeyReused))
  {
    hide *;
    StagedWithinLimits(limits, history, cmd.conversation);
    AttachmentsUnique(limits, history);
    KeyedRow(After(limits, history).attachments, cmd.conversation, cmd.attachKey, x);
    ReplayedRow(After(limits, history), cmd, x);
  }

  lemma KeyedRow(rows: map<Id, Attachment>, conversation: Id, key: string, x: Id)
    requires UniqueAttachments(rows) && x in rows && rows[x].conversation == conversation && rows[x].key == key
    ensures Keyed(rows, conversation, key) != {} && TheOne(Keyed(rows, conversation, key)) == x
  {
    assert x in Keyed(rows, conversation, key);
    assert TheOne(Keyed(rows, conversation, key)) in Keyed(rows, conversation, key);
  }

  lemma ReplayedRow(s: State, cmd: Command, x: Id)
    requires cmd.Attach? && |cmd.data| <= s.limits.maxAttachmentBytes && cmd.active == Some(true)
    requires Keyed(s.attachments, cmd.conversation, cmd.attachKey) != {}
    requires TheOne(Keyed(s.attachments, cmd.conversation, cmd.attachKey)) == x
    requires x in s.attachments && s.attachments[x].conversation == cmd.conversation && s.attachments[x].key == cmd.attachKey
    ensures Step(s, cmd) == (s, if Carries(s.attachments[x], cmd) then Attached(x) else Refused(KeyReused))
  {
    hide Keyed, TheOne, StagedSizes, Sum, Uploaded, ExpireStaged;
  }

  /** Sizes of the attachments of a conversation that are staged and not overdue. */
  ghost function StagedNow(rows: map<Id, Attachment>, conversation: Id, now: int): (m: map<Id, int>) {
    map x | x in rows && rows[x].conversation == conversation && rows[x].status == Staged && rows[x].expiresAt > now :: rows[x].size
  }

  lemma StagedNowExactly(rows: map<Id, Attachment>, conversation: Id, now: int)
    ensures StagedSizes(ExpireStaged(rows, conversation, now), conversation) == StagedNow(rows, conversation, now)
  {}

  ghost predicate KeyTaken(s: State, conversation: Id, key: string) {
    exists x :: x in s.attachments && s.attachments[x].conversation == conversation && s.attachments[x].key == key
  }

  lemma KeyTakenExactly(s: State, conversation: Id, key: string)
    ensures Keyed(s.attachments, conversation, key) != {} <==> KeyTaken(s, conversation, key)
  {
    if KeyTaken(s, conversation, key) {
      var x :| x in s.attachments && s.attachments[x].conversation == conversation && s.attachments[x].key == key;
      assert x in Keyed(s.attachments, conversation, key);
    }
    if Keyed(s.attachments, conversation, key) != {} {
      var x :| x in Keyed(s.attachments, conversation, key);
    }
  }

  /** A new key is taken if and only if the bytes fit, the conversation is active, what is staged and
      not overdue leaves room for one more attachment and its bytes, the id is unused, and the upload
      is not lost. The overdue rows expire with it, and all other rows stay. */
  lemma AttachesExactly(s: State, cmd: Command)
    requires cmd.Attach? && !KeyTaken(s, cmd.conversation, cmd.attachKey)
    ensures var (s', o) := Step(s, cmd);
      && (o.Attached? <==>
            && |cmd.data| <= s.limits.maxAttachmentBytes && cmd.active == Some(true)
            && |StagedNow(s.attachments, cmd.conversation, cmd.now)| < s.limits.maxCount
            && Sum(StagedNow(s.attachments, cmd.conversation, cmd.now)) + |cmd.data| <= s.limits.maxTotalBytes
            && cmd.attachment !in s.attachments && cmd.lost.None?)
      && (o.Attached? ==>
            && o.attachment == cmd.attachment && s'.attachments.Keys == s.attachments.Keys + {cmd.attachment}
            && s'.attachments[cmd.attachment].status == Staged
            && s'.attachments[cmd.attachment].expiresAt == cmd.now + s.limits.ttl
            && ExpiredRows(s.attachments, s'.attachments, cmd.conversation, cmd.now))
      && (!o.Attached? ==> s'.attachments == s.attachments && s'.artifacts == s.artifacts)
  {
    hide *;
    KeyTakenExactly(s, cmd.conversation, cmd.attachKey);
    StagedNowExactly(s.attachments, cmd.conversation, cmd.now);
    ExpiresExactly(s.attachments, cmd.conversation, cmd.now);
    AttachAccepted(s, cmd);
    if Step(s, cmd).1.Attached? { AttachWrites(s, cmd); }
  }

  lemma AttachAccepted(s: State, cmd: Command)
    requires cmd.Attach? && Keyed(s.attachments, cmd.conversation, cmd.attachKey) == {}
    ensures var (s', o) := Step(s, cmd);
      var sizes := StagedSizes(ExpireStaged(s.attachments, cmd.conversation, cmd.now), cmd.conversation);
      && (o.Attached? <==>
            && |cmd.data| <= s.limits.maxAttachmentBytes && cmd.active == Some(true)
            && |sizes| < s.limits.maxCount && Sum(sizes) + |cmd.data| <= s.limits.maxTotalBytes
            && cmd.attachment !in s.attachments && cmd.lost.None?)
      && (!o.Attached? ==> s'.attachments == s.attachments && s'.artifacts == s.artifacts)
  {
    hide Keyed, TheOne, StagedSizes, Sum, Uploaded, ExpireStaged;
  }

  lemma AttachWrites(s: State, cmd: Command)
    requires cmd.Attach? && Keyed(s.attachments, cmd.conversation, cmd.attachKey) == {} && Step(s, cmd).1.Attached?
    requires ExpiredRows(s.attachments, ExpireStaged(s.attachments, cmd.conversation, cmd.now), cmd.conversation, cmd.now)
    requires ExpireStaged(s.attachments, cmd.conversation, cmd.now).Keys == s.attachments.Keys
    ensures var (s', o) := Step(s, cmd);
      && o.attachment == cmd.attachment && s'.attachments.Keys == s.attachments.Keys + {cmd.attachment}
      && s'.attachments[cmd.attachment].status == Staged
      && s'.attachments[cmd.attachment].expiresAt == cmd.now + s.limits.ttl
      && ExpiredRows(s.attachments, s'.attachments, cmd.conversation, cmd.now)
  {
    var rows := ExpireStaged(s.attachments, cmd.conversation, cmd.now);
    AttachedTables(s, cmd);
    hide Step, Keyed, ExpireStaged;
  }

  lemma AttachedTables(s: State, cmd: Command)
    requires cmd.Attach? && Keyed(s.attachments, cmd.conversation, cmd.attachKey) == {} && Step(s, cmd).1.Attached?
    ensures var (s', o) := Step(s, cmd);
      && o.attachment == cmd.attachment && cmd.attachment !in s.attachments
      && s'.attachments == ExpireStaged(s.attachments, cmd.conversation, cmd.now)
           [cmd.attachment := Attachment(cmd.conversation, cmd.attachKey, cmd.name, cmd.contentType, Final(Sha256(cmd.data)),
                                         Sha256(cmd.data), |cmd.data|, Staged, cmd.now + s.limits.ttl, None, None, 1)]
  {
    hide Keyed, TheOne, StagedSizes, Sum, Uploaded, ExpireStaged;
  }

  /** Of the old rows exactly the overdue staged ones of the conversation became expired. */
  ghost predicate ExpiredRows(rows: map<Id, Attachment>, rows': map<Id, Attachment>, conversation: Id, now: int) {
    forall x :: x in rows ==>
      && x in rows'
      && rows'[x] == if rows[x].conversation == conversation && rows[x].status == Staged && rows[x].expiresAt <= now
                     then rows[x].(status := Expired, revision := rows[x].revision + 1) else rows[x]
  }

  lemma ExpiresExactly(rows: map<Id, Attachment>, conversation: Id, now: int)
    ensures ExpireStaged(rows, conversation, now).Keys == rows.Keys
    ensures ExpiredRows(rows, ExpireStaged(rows, conversation, now), conversation, now)
  {}

  // ----- attachment rows for good -----

  /** The columns of an attachment that no step writes. */
  ghost predicate SameFile(was: Attachment, now: Attachment) {
    && now.conversation == was.conversation && now.key == was.key && now.name == was.name && now.contentType == was.contentType
    && now.sha == was.sha && now.size == was.size && now.objectKey == was.objectKey
  }

  ghost predicate FilesKept(s: State, s': State) {
    forall x :: x in s.attachments ==> x in s'.attachments && SameFile(s.attachments[x], s'.attachments[x])
  }

  lemma StepKeepsFiles(s: State, cmd: Command)
    ensures FilesKept(s, Step(s, cmd).0)
  {
    hide FilesKept, BeginStep, PutTempStep, CopyFinalStep, RemoveTempStep, FinaliseStep, DropTempStep, MarkFailedStep, DiscardStep,
         AttachStep, ConsumeStep, CopyStep, ExpireStaged;
    match cmd {
      case Attach(_, _, _, _, _, _, _, _, _) => AttachKeepsFiles(s, cmd);
      case ListAttachments(conversation, now) => ExpiryKeepsFiles(s, conversation, now);
      case DiscardAttachment(conversation, attachment) => DiscardKeepsFiles(s, conversation, attachment);
      case ConsumeStaged(conversation, turn, run, now, ids) => ConsumeKeepsFiles(s, conversation, turn, run, now, ids);
      case _ =>
        RowsUntouched(s, cmd);
        SameFiles(s, Step(s, cmd).0);
    }
  }

  lemma SameFiles(s: State, s': State)
    requires s'.attachments == s.attachments
    ensures FilesKept(s, s')
  {}

  lemma AttachKeepsFiles(s: State, cmd: Command)
    requires cmd.Attach?
    ensures FilesKept(s, Step(s, cmd).0)
  {
    AttachMeans(s, cmd);
    AttachFits(s, cmd);
    ExpiresExactly(s.attachments, cmd.conversation, cmd.now);
    hide Step, ExpireStaged, Uploaded, StagedSizes, Sum;
  }

  lemma ExpiryKeepsFiles(s: State, conversation: Id, now: int)
    ensures FilesKept(s, s.(attachments := ExpireStaged(s.attachments, conversation, now)))
  {}

  lemma DiscardKeepsFiles(s: State, conversation: Id, id: Id)
    ensures FilesKept(s, DiscardStep(s, conversation, id).0)
  {}

  lemma ConsumeKeepsFiles(s: State, conversation: Id, turn: Id, run: Id, now: int, ids: map<Id, Id>)
    ensures FilesKept(s, ConsumeStep(s, conversation, turn, run, now, ids).0)
  {
    var rows := ExpireStaged(s.attachments, conversation, now);
    ExpiresExactly(s.attachments, conversation, now);
    ConsumeChanges(s, conversation, turn, run, now, ids);
    hide ConsumeStep, ExpireStaged;
  }

  lemma ConsumeChanges(s: State, conversation: Id, turn: Id, run: Id, now: int, ids: map<Id, Id>)
    ensures var rows := ExpireStaged(s.attachments, conversation, now);
      var rows' := ConsumeStep(s, conversation, turn, run, now, ids).0.attachments;
      rows' == s.attachments || (rows'.Keys == rows.Keys && forall x :: x in rows ==> SameFile(rows[x], rows'[x]))
  {
    hide ExpireStaged, TurnRows, FreshIds, NoArtifactsOf, StagedIn;
  }

  lemma {:induction false} FilesForGood(limits: Limits, history: seq<Command>, later: seq<Command>)
    ensures FilesKept(After(limits, history), After(limits, history + later))
    decreases |later|
  {
    if later == [] {
      assert history + later == history;
      SameFiles(After(limits, history), After(limits, history));
    } else {
      var n := |later| - 1;
      assert history + later == (history + later[..n]) + [later[n]];
      hide *;
      FilesForGood(limits, history, later[..n]);
      AfterStep(limits, history + later[..n], later[n]);
      StepKeepsFiles(After(limits, history + later[..n]), later[n]);
      FilesTwice(After(limits, history), After(limits, history + later[..n]), After(limits, history + later));
    }
  }

  lemma FilesTwice(s: State, t: State, u: State)
    requires FilesKept(s, t) && FilesKept(t, u)
    ensures FilesKept(s, u)
  {}

  lemma FileKept(s: State, s': State, x: Id, cmd: Command)
    requires FilesKept(s, s') && x in s.attachments && cmd.Attach? && Carries(s.attachments[x], cmd)
    ensures x in s'.attachments && Carries(s'.attachments[x], cmd)
  {}

  lemma CarriesKey(row: Attachment, cmd: Command)
    requires cmd.Attach? && Carries(row, cmd)
    ensures row.conversation == cmd.conversation && row.key == cmd.attachKey
  {}

  lemma SameCallCarries(row: Attachment, cmd: Command, again: Command)
    requires cmd.Attach? && again.Attach? && Carries(row, cmd)
    requires again.conversation == cmd.conversation && again.attachKey == cmd.attachKey
    requires again.name == cmd.name && again.contentType == cmd.contentType && again.data == cmd.data
    ensures Carries(row, again)
  {}

  /** An answered upload that is sent again, any steps later while the conversation is active, is
      answered with the same attachment, and nothing changes. */
  lemma ResentAttachmentIsReplayed(limits: Limits, history: seq<Command>, cmd: Command, later: seq<Command>, again: Command)
    requires cmd.Attach? && again.Attach? && Step(After(limits, history), cmd).1.Attached?
    requires again.conversation == cmd.conversation && again.attachKey == cmd.attachKey
    requires again.name == cmd.name && again.contentType == cmd.contentType && again.data == cmd.data
    requires again.active == Some(true) && |cmd.data| <= limits.maxAttachmentBytes
    ensures var s := After(limits, history + [cmd] + later);
      Step(s, again) == (s, Attached(Step(After(limits, history), cmd).1.attachment))
  {
    hide *;
    var x := Step(After(limits, history), cmd).1.attachment;
    AttachedCarriesUpload(limits, history, cmd);
    AfterStep(limits, history, cmd);
    FilesForGood(limits, history + [cmd], later);
    var s := After(limits, history + [cmd] + later);
    FileKept(After(limits, history + [cmd]), s, x, cmd);
    SameCallCarries(s.attachments[x], cmd, again);
    CarriesKey(s.attachments[x], cmd);
    AttachReplaysExactly(limits, history + [cmd] + later, again, x);
  }

  // ----- what a turn's run gets to read -----

  /** The attachments a turn takes: staged for the conversation and not overdue. */
  predicate Taken(rows: map<Id, Attachment>, conversation: Id, now: int, x: Id) {
    x in rows && rows[x].conversation == conversation && rows[x].status == Staged && rows[x].expiresAt > now
  }

  /** The artifact of `run` that stands for the attachment: same name and the same stored bytes. */
  predicate StandsFor(a: Artifact, run: Id, row: Attachment) {
    && a.owner == run && a.status == Available && a.name == row.name
    && a.objectKey == Some(row.objectKey) && a.sha == Some(row.sha) && a.size == Some(row.size)
  }

  /** A turn takes exactly the attachments that are staged for its conversation and not overdue: each is
      consumed by the turn, and the turn's run owns an artifact for each and no other. */
  lemma ConsumesExactly(s: State, conversation: Id, turn: Id, run: Id, now: int, ids: map<Id, Id>)
    requires Step(s, ConsumeStaged(conversation, turn, run, now, ids)).1 == Fine
    ensures var s' := Step(s, ConsumeStaged(conversation, turn, run, now, ids)).0;
      && (forall x :: Taken(s.attachments, conversation, now, x) ==>
            && x in ids && ids[x] in s'.artifacts && StandsFor(s'.artifacts[ids[x]], run, s.attachments[x])
            && x in s'.attachments && s'.attachments[x].status == Consumed && s'.attachments[x].turn == Some(turn)
            && s'.attachments[x].artifact == Some(ids[x]))
      && (forall a :: a in s'.artifacts && s'.artifacts[a].owner == run ==>
            exists x :: Taken(s.attachments, conversation, now, x) && x in ids && ids[x] == a)
      && (forall a :: a in s.artifacts ==> a in s'.artifacts && s'.artifacts[a] == s.artifacts[a])
  {
    var rows := ExpireStaged(s.attachments, conversation, now);
    var staged := StagedIn(rows, conversation);
    ConsumeWrites(s, conversation, turn, run, now, ids);
    TakenExactly(s.attachments, conversation, now);
    TurnRowsExactly(rows, staged, run, ids);
    hide Step, ExpireStaged, StagedIn, TurnRows;
  }

  lemma TakenExactly(rows: map<Id, Attachment>, conversation: Id, now: int)
    ensures var later := ExpireStaged(rows, conversation, now);
      forall x :: (x in StagedIn(later, conversation) <==> Taken(rows, conversation, now, x))
                  && (x in StagedIn(later, conversation) ==> x in rows && x in later && later[x] == rows[x])
  {}

  lemma TurnRowsExactly(rows: map<Id, Attachment>, staged: set<Id>, run: Id, ids: map<Id, Id>)
    requires staged <= rows.Keys && OwnIds(staged, ids)
    ensures forall x :: x in staged ==>
      ids[x] in TurnRows(rows, staged, run, ids) && StandsFor(TurnRows(rows, staged, run, ids)[ids[x]], run, rows[x])
    ensures forall a :: a in TurnRows(rows, staged, run, ids) ==> exists x :: x in staged && ids[x] == a
  {}

  lemma ConsumeWrites(s: State, conversation: Id, turn: Id, run: Id, now: int, ids: map<Id, Id>)
    requires Step(s, ConsumeStaged(conversation, turn, run, now, ids)).1 == Fine
    ensures var s' := Step(s, ConsumeStaged(conversation, turn, run, now, ids)).0;
      var rows := ExpireStaged(s.attachments, conversation, now);
      var staged := StagedIn(rows, conversation);
      && staged <= rows.Keys && OwnIds(staged, ids) && NoArtifactsOf(s, run)
      && (forall a :: a in TurnRows(rows, staged, run, ids) ==> a !in s.artifacts)
      && s'.artifacts == s.artifacts + TurnRows(rows, staged, run, ids)
      && forall x :: x in staged ==>
           x in s'.attachments && s'.attachments[x].status == Consumed && s'.attachments[x].turn == Some(turn)
           && s'.attachments[x].artifact == Some(ids[x])
  {
    hide *;
    var rows := ExpireStaged(s.attachments, conversation, now);
    var staged := StagedIn(rows, conversation);
    StagedAreRows(rows, conversation);
    ConsumeAccepted(s, conversation, turn, run, now, ids);
    TurnRowsFresh(s, rows, staged, run, ids);
    ConsumedArtifacts(s, conversation, turn, run, now, ids);
    ConsumedRows(s, conversation, turn, run, now, ids);
  }

  lemma StagedAreRows(rows: map<Id, Attachment>, conversation: Id)
    ensures StagedIn(rows, conversation) <= rows.Keys
  {}

  lemma ConsumeAccepted(s: State, conversation: Id, turn: Id, run: Id, now: int, ids: map<Id, Id>)
    requires Step(s, ConsumeStaged(conversation, turn, run, now, ids)).1 == Fine
    ensures FreshIds(s, StagedIn(ExpireStaged(s.attachments, conversation, now), conversation), ids) && NoArtifactsOf(s, run)
  {
    hide ExpireStaged, TurnRows, NoArtifactsOf, FreshIds, StagedIn;
  }

  lemma ConsumedArtifacts(s: State, conversation: Id, turn: Id, run: Id, now: int, ids: map<Id, Id>)
    requires Step(s, ConsumeStaged(conversation, turn, run, now, ids)).1 == Fine
    requires OwnIds(StagedIn(ExpireStaged(s.attachments, conversation, now), conversation), ids)
    ensures var rows := ExpireStaged(s.attachments, conversation, now);
      && StagedIn(rows, conversation) <= rows.Keys
      && Step(s, ConsumeStaged(conversation, turn, run, now, ids)).0.artifacts
           == s.artifacts + TurnRows(rows, StagedIn(rows, conversation), run, ids)
  {
    hide ExpireStaged, TurnRows, NoArtifactsOf, FreshIds, OwnIds;
  }

  lemma ConsumedRows(s: State, conversation: Id, turn: Id, run: Id, now: int, ids: map<Id, Id>)
    requires Step(s, ConsumeStaged(conversation, turn, run, now, ids)).1 == Fine
    requires OwnIds(StagedIn(ExpireStaged(s.attachments, conversation, now), conversation), ids)
    ensures var s' := Step(s, ConsumeStaged(conversation, turn, run, now, ids)).0;
      forall x :: x in StagedIn(ExpireStaged(s.attachments, conversation, now), conversation) ==>
        x in s'.attachments && s'.attachments[x].status == Consumed && s'.attachments[x].turn == Some(turn)
        && s'.attachments[x].artifact == Some(ids[x])
  {
    hide ExpireStaged, TurnRows, NoArtifactsOf, FreshIds;
  }

  /** An owner reads an available artifact's bytes, by the name its hash gives them. */
  lemma OwnerReads(s: State, run: Id, a: Id, data: Bytes, now: int)
    requires Inv(s) && a in s.artifacts && s.artifacts[a].owner == run && s.artifacts[a].status == Available
    requires s.artifacts[a].sha == Some(Sha256(data))
    ensures ReadForRun(s, run, true, a, now) == Bytes_(data)
  {
    assert RowSound(s.objects, s.artifacts[a]) && ContentAddressed(s.objects);
    hide Inv;
  }

  lemma StandsForBytes(a: Artifact, run: Id, row: Attachment, cmd: Command)
    requires StandsFor(a, run, row) && cmd.Attach? && Carries(row, cmd)
    ensures a.owner == run && a.status == Available && a.sha == Some(Sha256(cmd.data)) && a.name == cmd.name
  {}

  lemma KeptRow(s: State, s': State, a: Id)
    requires Kept(s, s') && a in s.artifacts && s.artifacts[a].status == Available
    ensures a in s'.artifacts && s'.artifacts[a] == s.artifacts[a]
  {}

  /** End to end: the bytes of an answered upload that is still staged, and not overdue, when a turn is
      created are the bytes the turn's run reads under the artifact made of it, at every later point. */
  lemma AttachedBytesReachRun(limits: Limits, history: seq<Command>, cmd: Command, between: seq<Command>,
                              turn: Id, run: Id, now: int, ids: map<Id, Id>, later: seq<Command>, at: int)
    requires cmd.Attach? && Step(After(limits, history), cmd).1.Attached?
    requires var s := After(limits, history + [cmd] + between);
      && Step(s, ConsumeStaged(cmd.conversation, turn, run, now, ids)).1 == Fine
      && Taken(s.attachments, cmd.conversation, now, Step(After(limits, history), cmd).1.attachment)
    ensures var x := Step(After(limits, history), cmd).1.attachment;
      var end := After(limits, history + [cmd] + between + [ConsumeStaged(cmd.conversation, turn, run, now, ids)] + later);
      x in ids && ReadForRun(end, run, true, ids[x], at) == Bytes_(cmd.data) && end.artifacts[ids[x]].name == cmd.name
  {
    hide *;
    var x := Step(After(limits, history), cmd).1.attachment;
    var consume := ConsumeStaged(cmd.conversation, turn, run, now, ids);
    AttachedCarriesUpload(limits, history, cmd);
    AfterStep(limits, history, cmd);
    FilesForGood(limits, history + [cmd], between);
    var s := After(limits, history + [cmd] + between);
    FileKept(After(limits, history + [cmd]), s, x, cmd);
    ConsumesExactly(s, cmd.conversation, turn, run, now, ids);
    AfterStep(limits, history + [cmd] + between, consume);
    var s' := After(limits, history + [cmd] + between + [consume]);
    StandsForBytes(s'.artifacts[ids[x]], run, s.attachments[x], cmd);
    KeptForGood(limits, history + [cmd] + between + [consume], later);
    var end := After(limits, history + [cmd] + between + [consume] + later);
    KeptRow(s', end, ids[x]);
    Reachable(limits, history + [cmd] + between + [consume] + later);
    OwnerReads(end, run, ids[x], cmd.data, at);
  }

  // ----- what a retried run gets to read -----

  /** The new run of a retry owns exactly one copy of each available artifact the turn refers to, and
      reads the bytes the old owner reads. */
  lemma RetryCopiesExactly(limits: Limits, history: seq<Command>, turn: Id, refs: set<Id>, newRun: Id, ids: map<Id, Id>, a: Id, at: int)
    requires Step(After(limits, history), CopyForRetry(turn, refs, newRun, ids)).1 == Fine
    ensures var (s, s') := (After(limits, history), Step(After(limits, history), CopyForRetry(turn, refs, newRun, ids)).0);
      && (a in refs && a in s.artifacts && s.artifacts[a].status == Available ==>
            && a in ids && ids[a] in s'.artifacts && s'.artifacts[ids[a]].name == s.artifacts[a].name
            && ReadForRun(s', newRun, true, ids[a], at) == ReadForRun(s, s.artifacts[a].owner, true, a, at)
            && ReadForRun(s', newRun, true, ids[a], at).Bytes_?)
      && (forall b :: b in s'.artifacts && s'.artifacts[b].owner == newRun ==>
            exists x :: x in refs && x in s.artifacts && s.artifacts[x].status == Available && x in ids && ids[x] == b)
  {
    hide *;
    Reachable(limits, history);
    var s, cmd := After(limits, history), CopyForRetry(turn, refs, newRun, ids);
    StepKeeps(s, cmd);
    CopyWrites(s, turn, refs, newRun, ids);
    if a in refs && a in s.artifacts && s.artifacts[a].status == Available {
      var data := AvailableBytes(s, a);
      OwnerReads(s, s.artifacts[a].owner, a, data, at);
      OwnerReads(Step(s, cmd).0, newRun, ids[a], data, at);
    }
  }

  lemma AvailableBytes(s: State, a: Id) returns (data: Bytes)
    requires Inv(s) && a in s.artifacts && s.artifacts[a].status == Available
    ensures s.artifacts[a].sha == Some(Sha256(data))
  {
    assert RowSound(s.objects, s.artifacts[a]);
    data := s.artifacts[a].sha.value.bytes;
    hide Inv;
  }

  lemma CopyWrites(s: State, turn: Id, refs: set<Id>, newRun: Id, ids: map<Id, Id>)
    requires Step(s, CopyForRetry(turn, refs, newRun, ids)).1 == Fine
    ensures var s' := Step(s, CopyForRetry(turn, refs, newRun, ids)).0;
      && (forall x :: x in refs && x in s.artifacts && s.artifacts[x].status == Available ==>
            && x in ids && ids[x] in s'.artifacts && s'.artifacts[ids[x]].owner == newRun
            && s'.artifacts[ids[x]].status == Available && s'.artifacts[ids[x]].name == s.artifacts[x].name
            && s'.artifacts[ids[x]].sha == s.artifacts[x].sha)
      && (forall b :: b in s'.artifacts && s'.artifacts[b].owner == newRun ==>
            exists x :: x in refs && x in s.artifacts && s.artifacts[x].status == Available && x in ids && ids[x] == b)
  {
    RetryRowsFresh(s, turn, refs, newRun, ids);
    RetryRowsExactly(s.artifacts, AvailableOf(s, refs), turn, newRun, ids);
    hide RetryRows;
  }

  lemma RetryRowsExactly(artifacts: map<Id, Artifact>, sources: set<Id>, turn: Id, newRun: Id, ids: map<Id, Id>)
    ensures sources <= artifacts.Keys && OwnIds(sources, ids) ==>
      && (forall x :: x in sources ==>
            ids[x] in RetryRows(artifacts, sources, turn, newRun, ids)
            && RetryRows(artifacts, sources, turn, newRun, ids)[ids[x]] == ForRetry(artifacts[x], turn, x, newRun))
      && (forall b :: b in RetryRows(artifacts, sources, turn, newRun, ids) ==> exists x :: x in sources && ids[x] == b)
  {
    hide ForRetry;
  }

  // ----- runtime uploads -----

  /** An upload begins if and only if the bytes fit, the run has no artifact under the key, the run
      exists and the id is unused. A taken key is answered by the row there is: its artifact when it
      is available, a failure when it failed, and a wait when it is still uploading. */
  lemma BeginsExactly(limits: Limits, history: seq<Command>, cmd: Command)
    requires cmd.BeginUpload?
    ensures var s := After(limits, history);
      var (s', o) := Step(s, cmd);
      && (o == Begin(cmd.artifact) <==>
            && |cmd.data| <= s.limits.maxBytes && cmd.runKnown && cmd.artifact !in s.artifacts
            && forall a :: a in s.artifacts ==> s.artifacts[a].owner != cmd.run || s.artifacts[a].key != cmd.key)
      && (o != Begin(cmd.artifact) ==> s' == s)
      && (forall a :: a in s.artifacts && s.artifacts[a].owner == cmd.run && s.artifacts[a].key == cmd.key
                      && |cmd.data| <= s.limits.maxBytes ==>
            && (s.artifacts[a].status == Available ==> o == Stored(cmd.run, cmd.key, a))
            && (s.artifacts[a].status == UploadFailed ==> o == Refused(UploadHasFailed))
            && (s.artifacts[a].status == Uploading ==> o == Waiting(a)))
      && (|cmd.data| > s.limits.maxBytes ==> o == Refused(TooLarge))
  {
    hide *;
    Reachable(limits, history);
    BeginAnswers(After(limits, history), cmd);
  }

  lemma BeginAnswers(s: State, cmd: Command)
    requires cmd.BeginUpload? && Inv(s)
    ensures var (s', o) := Step(s, cmd);
      && (o == Begin(cmd.artifact) <==>
            && |cmd.data| <= s.limits.maxBytes && cmd.runKnown && cmd.artifact !in s.artifacts
            && forall a :: a in s.artifacts ==> s.artifacts[a].owner != cmd.run || s.artifacts[a].key != cmd.key)
      && (o != Begin(cmd.artifact) ==> s' == s)
      && (forall a :: a in s.artifacts && s.artifacts[a].owner == cmd.run && s.artifacts[a].key == cmd.key
                      && |cmd.data| <= s.limits.maxBytes ==>
            && (s.artifacts[a].status == Available ==> o == Stored(cmd.run, cmd.key, a))
            && (s.artifacts[a].status == UploadFailed ==> o == Refused(UploadHasFailed))
            && (s.artifacts[a].status == Uploading ==> o == Waiting(a)))
      && (|cmd.data| > s.limits.maxBytes ==> o == Refused(TooLarge))
  {
    var keyed := WithKey(s.artifacts, cmd.run, cmd.key);
    assert forall a :: a in keyed <==> a in s.artifacts && s.artifacts[a].owner == cmd.run && s.artifacts[a].key == cmd.key;
    forall a, b | a in keyed && b in keyed ensures a == b { OneRowPerKey(s, a, b); }
    hide Inv, WithKey;
  }

  /** The artifact an upload opened: while it uploads, the process still holds the caller's bytes; once
      it is available, its hash is theirs, and the parent it was shared with holds a live link. */
  ghost predicate Tracked(s: State, a: Id, cmd: Command, parent: Option<Id>)
    requires cmd.BeginUpload?
  {
    && a in s.artifacts && s.artifacts[a].owner == cmd.run && s.artifacts[a].key == cmd.key && s.artifacts[a].name == cmd.name
    && s.artifacts[a].status in {Uploading, Available, UploadFailed}
    && (a in s.uploads ==> s.uploads[a].data == cmd.data && s.uploads[a].share == cmd.share)
    && (parent.Some? ==> cmd.run in s.parents && s.parents[cmd.run] == parent.value)
    && (s.artifacts[a].status == Available ==>
          && s.artifacts[a].sha == Some(Sha256(cmd.data))
          && (cmd.share && parent.Some? ==> LinkKey(a, parent.value) in s.links && s.links[LinkKey(a, parent.value)] == Link(true, None)))
  }

  /** Every link there is was given active and without an end. */
  ghost predicate LinksLive(s: State) {
    forall k :: k in s.links ==> s.links[k] == Link(true, None)
  }

  lemma StepKeepsLinks(s: State, c: Command)
    requires LinksLive(s)
    ensures LinksLive(Step(s, c).0) && s.links.Keys <= Step(s, c).0.links.Keys
  {
    hide WithKey, Replay, Keyed, TheOne, ExpireStaged, StagedSizes, Sum, Uploaded, StagedIn, AvailableOf, TurnRows, RetryRows, FreshIds,
         NoArtifactsOf;
  }

  lemma {:induction false} LinksAlwaysLive(limits: Limits, history: seq<Command>)
    ensures LinksLive(After(limits, history))
    decreases |history|
  {
    if history != [] {
      var n := |history| - 1;
      LinksAlwaysLive(limits, history[..n]);
      hide Step, LinksLive;
      StepKeepsLinks(After(limits, history[..n]), history[n]);
    }
  }

  lemma BeginTracks(s: State, cmd: Command, parent: Option<Id>)
    requires cmd.BeginUpload? && Step(s, cmd).1.Begin?
    requires parent.Some? ==> cmd.run in s.parents && s.parents[cmd.run] == parent.value
    ensures Step(s, cmd).1.artifact == cmd.artifact && Tracked(Step(s, cmd).0, cmd.artifact, cmd, parent)
  {
    hide WithKey;
  }

  lemma StepTracks(s: State, c: Command, a: Id, cmd: Command, parent: Option<Id>)
    requires cmd.BeginUpload? && Tracked(s, a, cmd, parent) && LinksLive(s)
    ensures Tracked(Step(s, c).0, a, cmd, parent)
  {
    hide *;
    StepKept(s, c);
    StepKeepsLinks(s, c);
    TrackedParts(s, a, cmd, parent);
    if c.Finalise? && c.artifact == a {
      FinaliseTracks(s, a, cmd, parent);
    } else {
      OtherwiseUploads(s, c, a);
      TrackedOn(s, Step(s, c).0, a, cmd, parent);
    }
  }

  lemma TrackedParts(s: State, a: Id, cmd: Command, parent: Option<Id>)
    requires cmd.BeginUpload? && Tracked(s, a, cmd, parent)
    ensures a in s.artifacts && s.artifacts[a].status in {Uploading, Available, UploadFailed}
  {}

  lemma FinaliseTracks(s: State, a: Id, cmd: Command, parent: Option<Id>)
    requires cmd.BeginUpload? && Tracked(s, a, cmd, parent) && LinksLive(s)
    ensures Tracked(Step(s, Finalise(a)).0, a, cmd, parent)
  {}

  /** No other step makes the artifact available or gives its upload other bytes. */
  lemma OtherwiseUploads(s: State, c: Command, a: Id)
    requires a in s.artifacts && s.artifacts[a].status in {Uploading, Available, UploadFailed} && !(c.Finalise? && c.artifact == a)
    ensures var s' := Step(s, c).0;
      && a in s'.artifacts && (s'.artifacts[a].status == s.artifacts[a].status || s'.artifacts[a].status == UploadFailed)
      && (a in s'.uploads ==> a in s.uploads && s'.uploads[a].data == s.uploads[a].data && s'.uploads[a].share == s.uploads[a].share)
  {
    hide WithKey, Replay, Keyed, TheOne, ExpireStaged, StagedSizes, Sum, Uploaded, StagedIn, AvailableOf, FreshIds, NoArtifactsOf, Shared,
         TurnRows, RetryRows, BeginStep, FinaliseStep, MarkFailedStep, AttachStep, ConsumeStep, CopyStep, PutTempStep, CopyFinalStep,
         RemoveTempStep, DropTempStep;
    match c {
      case BeginUpload(run, key, artifact, name, data, share, runKnown) => BeginElsewhere(s, c, a);
      case Finalise(x) => FinaliseElsewhere(s, x, a);
      case MarkFailed(x) => FailElsewhere(s, x, a);
      case Attach(_, _, _, _, _, _, _, _, _) => AttachLeavesUploads(s, c);
      case ConsumeStaged(conversation, turn, run, now, ids) => ConsumeLeavesUploads(s, conversation, turn, run, now, ids, a);
      case CopyForRetry(turn, refs, newRun, ids) => CopyLeavesUploads(s, turn, refs, newRun, ids, a);
      case PutTemp(x) => StorageLeavesUploads(s, c);
      case CopyFinal(x) => StorageLeavesUploads(s, c);
      case RemoveTemp(x) => StorageLeavesUploads(s, c);
      case DropTemp(x) => StorageLeavesUploads(s, c);
      case _ =>
    }
  }

  lemma BeginElsewhere(s: State, c: Command, a: Id)
    requires c.BeginUpload? && a in s.artifacts
    ensures var s' := Step(s, c).0;
      && a in s'.artifacts && s'.artifacts[a] == s.artifacts[a]
      && (a in s'.uploads ==> a in s.uploads && s'.uploads[a] == s.uploads[a])
  {
    hide WithKey, Replay;
  }

  lemma FinaliseElsewhere(s: State, x: Id, a: Id)
    requires x != a && a in s.artifacts
    ensures var s' := FinaliseStep(s, x).0;
      && a in s'.artifacts && s'.artifacts[a] == s.artifacts[a]
      && (a in s'.uploads ==> a in s.uploads && s'.uploads[a] == s.uploads[a])
  {
    hide Shared;
  }

  lemma FailElsewhere(s: State, x: Id, a: Id)
    requires a in s.artifacts
    ensures var s' := MarkFailedStep(s, x).0;
      && a in s'.artifacts && (s'.artifacts[a] == s.artifacts[a] || s'.artifacts[a].status == UploadFailed)
      && (a in s'.uploads ==> a in s.uploads && s'.uploads[a] == s.uploads[a])
  {}

  lemma AttachLeavesUploads(s: State, c: Command)
    requires c.Attach?
    ensures Step(s, c).0.artifacts == s.artifacts && Step(s, c).0.uploads == s.uploads
  {
    hide Keyed, TheOne, ExpireStaged, StagedSizes, Sum, Uploaded;
  }

  lemma ConsumeLeavesUploads(s: State, conversation: Id, turn: Id, run: Id, now: int, ids: map<Id, Id>, a: Id)
    requires a in s.artifacts
    ensures var s' := ConsumeStep(s, conversation, turn, run, now, ids).0;
      s'.uploads == s.uploads && a in s'.artifacts && s'.artifacts[a] == s.artifacts[a]
  {
    var rows := ExpireStaged(s.attachments, conversation, now);
    var staged := StagedIn(rows, conversation);
    if FreshIds(s, staged, ids) { TurnRowsFresh(s, rows, staged, run, ids); }
    hide ExpireStaged, StagedIn, TurnRows, FreshIds, NoArtifactsOf;
    ConsumeMeans(s, conversation, turn, run, now, ids);
  }

  lemma CopyLeavesUploads(s: State, turn: Id, refs: set<Id>, newRun: Id, ids: map<Id, Id>, a: Id)
    requires a in s.artifacts
    ensures var s' := CopyStep(s, turn, refs, newRun, ids).0;
      s'.uploads == s.uploads && a in s'.artifacts && s'.artifacts[a] == s.artifacts[a]
  {
    RetryRowsFresh(s, turn, refs, newRun, ids);
    hide AvailableOf, RetryRows, NoArtifactsOf;
  }

  lemma StorageLeavesUploads(s: State, c: Command)
    requires c.PutTemp? || c.CopyFinal? || c.RemoveTemp? || c.DropTemp?
    ensures var s' := Step(s, c).0; s'.artifacts == s.artifacts && SameUploads(s, s')
  {
    hide PutTempStep, CopyFinalStep, RemoveTempStep, DropTempStep, SameUploads;
    match c {
      case PutTemp(x) => PutTempLeavesUploads(s, x);
      case CopyFinal(x) => CopyFinalLeavesUploads(s, x);
      case RemoveTemp(x) => RemoveTempLeavesUploads(s, x);
      case DropTemp(x) => DropTempLeavesUploads(s, x);
    }
  }

  ghost predicate SameUploads(s: State, s': State) {
    forall a :: a in s'.uploads ==> a in s.uploads && s'.uploads[a].data == s.uploads[a].data && s'.uploads[a].share == s.uploads[a].share
  }

  lemma PutTempLeavesUploads(s: State, x: Id)
    ensures PutTempStep(s, x).0.artifacts == s.artifacts && SameUploads(s, PutTempStep(s, x).0)
  {}

  lemma CopyFinalLeavesUploads(s: State, x: Id)
    ensures CopyFinalStep(s, x).0.artifacts == s.artifacts && SameUploads(s, CopyFinalStep(s, x).0)
  {}

  lemma RemoveTempLeavesUploads(s: State, x: Id)
    ensures RemoveTempStep(s, x).0.artifacts == s.artifacts && SameUploads(s, RemoveTempStep(s, x).0)
  {}

  lemma DropTempLeavesUploads(s: State, x: Id)
    ensures DropTempStep(s, x).0.artifacts == s.artifacts && SameUploads(s, DropTempStep(s, x).0)
  {}

  lemma TrackedOn(s: State, s': State, a: Id, cmd: Command, parent: Option<Id>)
    requires cmd.BeginUpload? && Tracked(s, a, cmd, parent) && Kept(s, s') && LinksLive(s') && s.links.Keys <= s'.links.Keys
    requires a in s'.artifacts && (s'.artifacts[a].status == s.artifacts[a].status || s'.artifacts[a].status == UploadFailed)
    requires a in s'.uploads ==> a in s.uploads && s'.uploads[a].data == s.uploads[a].data && s'.uploads[a].share == s.uploads[a].share
    ensures Tracked(s', a, cmd, parent)
  {
    hide FinalsKept;
  }

  lemma {:induction false} TrackedForGood(limits: Limits, history: seq<Command>, cmd: Command, parent: Option<Id>, later: seq<Command>)
    requires cmd.BeginUpload? && Step(After(limits, history), cmd).1.Begin?
    requires var s := After(limits, history); parent.Some? ==> cmd.run in s.parents && s.parents[cmd.run] == parent.value
    ensures Tracked(After(limits, history + [cmd] + later), cmd.artifact, cmd, parent)
    decreases |later|
  {
    hide *;
    if later == [] {
      assert history + [cmd] + later == history + [cmd];
      AfterStep(limits, history, cmd);
      BeginTracks(After(limits, history), cmd, parent);
    } else {
      var n := |later| - 1;
      assert history + [cmd] + later == (history + [cmd] + later[..n]) + [later[n]];
      TrackedForGood(limits, history, cmd, parent, later[..n]);
      AfterStep(limits, history + [cmd] + later[..n], later[n]);
      LinksAlwaysLive(limits, history + [cmd] + later[..n]);
      StepTracks(After(limits, history + [cmd] + later[..n]), later[n], cmd.artifact, cmd, parent);
    }
  }

  /** End to end: once the artifact of an upload is available, whatever came between its steps, its
      owner reads exactly the bytes the upload was called with at every point; so does the owner's
      direct parent, if the upload asked for sharing and the parent was known when it began. */
  lemma UploadedBytesAreRead(limits: Limits, history: seq<Command>, cmd: Command, later: seq<Command>, at: int)
    requires cmd.BeginUpload? && Step(After(limits, history), cmd).1.Begin?
    requires var s := After(limits, history + [cmd] + later);
      cmd.artifact in s.artifacts && s.artifacts[cmd.artifact].status == Available
    ensures var begun, s := After(limits, history), After(limits, history + [cmd] + later);
      && s.artifacts[cmd.artifact].owner == cmd.run && s.artifacts[cmd.artifact].name == cmd.name
      && ReadForRun(s, cmd.run, true, cmd.artifact, at) == Bytes_(cmd.data)
      && (cmd.share && cmd.run in begun.parents ==>
            ReadForRun(s, begun.parents[cmd.run], true, cmd.artifact, at) == Bytes_(cmd.data))
  {
    hide *;
    var begun, s := After(limits, history), After(limits, history + [cmd] + later);
    var parent := if cmd.run in begun.parents then Some(begun.parents[cmd.run]) else None;
    TrackedForGood(limits, history, cmd, parent, later);
    Reachable(limits, history + [cmd] + later);
    TrackedReads(s, cmd.artifact, cmd, parent, at);
  }

  lemma TrackedReads(s: State, a: Id, cmd: Command, parent: Option<Id>, at: int)
    requires Inv(s) && cmd.BeginUpload? && Tracked(s, a, cmd, parent) && s.artifacts[a].status == Available
    ensures s.artifacts[a].owner == cmd.run && s.artifacts[a].name == cmd.name
    ensures ReadForRun(s, cmd.run, true, a, at) == Bytes_(cmd.data)
    ensures cmd.share && parent.Some? ==> ReadForRun(s, parent.value, true, a, at) == Bytes_(cmd.data)
  {
    assert RowSound(s.objects, s.artifacts[a]) && ContentAddressed(s.objects);
    hide Inv;
  }

  /** Whoever is told "stored" for a run and key, whether by uploading, replaying or waiting, reads the
      bytes of the call that opened the upload. */
  lemma EveryoneReadsFirstUpload(limits: Limits, history: seq<Command>, i: nat, j: nat, at: int)
    requires i < j < |history| && history[i].BeginUpload? && Answer(limits, history, i).Begin? && Answer(limits, history, j).Stored?
    requires Answer(limits, history, j).run == history[i].run && Answer(limits, history, j).key == history[i].key
    ensures Answer(limits, history, j).artifact == history[i].artifact
    ensures ReadForRun(After(limits, history), history[i].run, true, history[i].artifact, at) == Bytes_(history[i].data)
  {
    hide *;
    var cmd := history[i];
    AnswerIs(limits, history, i);
    var between, later := history[i + 1..j + 1], history[i + 1..];
    assert history[..i] + [cmd] + between == history[..j + 1];
    assert history[..i] + [cmd] + later == history;
    TrackedForGood(limits, history[..i], cmd, None, between);
    StoredAt(limits, history, j);
    Reachable(limits, history[..j + 1]);
    StoredIsTracked(After(limits, history[..j + 1]), Answer(limits, history, j), cmd);
    KeptForGood(limits, history[..j + 1], history[j + 1..]);
    assert history[..j + 1] + history[j + 1..] == history;
    KeptRow(After(limits, history[..j + 1]), After(limits, history), cmd.artifact);
    UploadedBytesAreRead(limits, history[..i], cmd, later, at);
  }

  lemma StoredIsTracked(s: State, o: Outcome, cmd: Command)
    requires Inv(s) && o.Stored? && HoldsStored(s, o) && cmd.BeginUpload? && Tracked(s, cmd.artifact, cmd, None)
    requires o.run == cmd.run && o.key == cmd.key
    ensures o.artifact == cmd.artifact && cmd.artifact in s.artifacts && s.artifacts[cmd.artifact].status == Available
  {
    OneRowPerKey(s, o.artifact, cmd.artifact);
    hide Inv;
  }

  // ----- discarding -----

  /** A staged attachment of the conversation, and no other, can be discarded; nothing else changes. */
  lemma DiscardsExactly(s: State, conversation: Id, x: Id)
    ensures var (s', o) := Step(s, DiscardAttachment(conversation, x));
      && (o == Fine <==> x in s.attachments && s.attachments[x].conversation == conversation && s.attachments[x].status == Staged)
      && (o == Fine ==> s' == s.(attachments := s.attachments[x := s.attachments[x].(status := Discarded, revision := s.attachments[x].revision + 1)]))
      && (o != Fine ==> s' == s)
  {}

  // ----- failures and looks -----

  /** Clean-up after an error: a row that is still uploading becomes failed, any other stays. */
  lemma FailsExactly(s: State, a: Id)
    requires a in s.uploads && a in s.artifacts
    ensures var (s', o) := Step(s, MarkFailed(a));
      && o == Refused(UploadHasFailed) && a in s'.artifacts && s'.artifacts == s.artifacts[a := s'.artifacts[a]]
      && s' == s.(artifacts := s'.artifacts, uploads := s.uploads - {a})
      && s'.artifacts[a] == if s.artifacts[a].status == Uploading
                            then s.artifacts[a].(status := UploadFailed, tempKey := None, revision := s.artifacts[a].revision + 1)
                            else s.artifacts[a]
  {
    assert s.artifacts == s.artifacts[a := s.artifacts[a]];
  }

  /** One look of a waiting caller: only an available row is an answer, only a failed or missing one an
      error, and a look changes nothing. */
  lemma LooksExactly(s: State, a: Id)
    ensures var (s', o) := Step(s, Poll(a));
      && s' == s
      && (a !in s.artifacts ==> o == Refused(NotFound))
      && (a in s.artifacts ==>
            match s.artifacts[a].status
            case Available => o == Stored(s.artifacts[a].owner, s.artifacts[a].key, a)
            case UploadFailed => o == Refused(UploadHasFailed)
            case _ => o == Waiting(a))
  {}
}
