/** The content-addressed artifact store: metadata rows, an object store with temporary and
    hash-named keys, and uploads that run in separate steps any other operation may come between. */
module Artifacts {
  import opened Foundation
  import opened MapSums

  newtype Byte = x: int | 0 <= x < 256
  type Bytes = seq<Byte>

  /** SHA-256 as a name for the bytes themselves: equal digests mean equal bytes. */
  datatype Digest = Sha256(bytes: Bytes)

  /** Object keys: one temporary key per upload, one final key per content. */
  datatype ObjectKey = Temp(artifact: Id) | TempAttachment(attachment: Id) | Final(digest: Digest)

  /** Idempotency keys: given by the caller, or built from an attachment or a retried artifact. */
  datatype Key = Named(text: string) | OfAttachment(attachment: Id) | OfRetry(turn: Id, original: Id)

  datatype ArtifactStatus = Uploading | Available | UploadFailed | Removed

  datatype Artifact = Artifact(
    owner: Id, key: Key, name: string, status: ArtifactStatus, tempKey: Option<ObjectKey>,
    objectKey: Option<ObjectKey>, sha: Option<Digest>, size: Option<nat>, revision: nat)

  datatype AttachmentStatus = Staged | Consumed | Expired | Discarded

  datatype Attachment = Attachment(
    conversation: Id, key: string, name: string, contentType: string, objectKey: ObjectKey, sha: Digest, size: nat,
    status: AttachmentStatus, expiresAt: int, turn: Option<Id>, artifact: Option<Id>, revision: nat)

  datatype LinkKey = LinkKey(artifact: Id, grantee: Id)
  datatype Link = Link(active: bool, expiresAt: Option<int>)

  /** What the uploading process has done so far. */
  datatype Phase = Begun | TempStored | Copied | TempGone

  datatype Upload = Upload(data: Bytes, phase: Phase, share: bool)

  datatype Limits = Limits(maxBytes: nat, maxAttachmentBytes: nat, maxCount: nat, maxTotalBytes: nat, ttl: int)

  datatype State = State(
    limits: Limits,
    artifacts: map<Id, Artifact>,
    links: map<LinkKey, Link>,
    attachments: map<Id, Attachment>,
    objects: map<ObjectKey, Bytes>,
    uploads: map<Id, Upload>,
    parents: map<Id, Id>)

  function Initial(limits: Limits): (s: State) {
    State(limits, map[], map[], map[], map[], map[], map[])
  }

  datatype Refusal =
    | TooLarge | NotFound | UploadHasFailed | UploadIncomplete | AccessDenied | NotAvailable | IntegrityFailed | ObjectMissing
    | Archived | KeyReused | TooMany | TotalTooLarge | NotStaged | IdTaken | OutOfOrder

  datatype Outcome =
    | Stored(run: Id, key: Key, artifact: Id)
    | Begin(artifact: Id)
    | Waiting(artifact: Id)
    | Attached(attachment: Id)
    | Bytes_(data: Bytes)
    | Fine
    | Refused(why: Refusal)

  datatype Command =
    | BeginUpload(run: Id, key: Key, artifact: Id, name: string, data: Bytes, share: bool, runKnown: bool)
    | PutTemp(artifact: Id)
    | CopyFinal(artifact: Id)
    | RemoveTemp(artifact: Id)
    | Finalise(artifact: Id)
    | DropTemp(artifact: Id)
    | MarkFailed(artifact: Id)
    | Crash(artifact: Id)
    | Poll(artifact: Id)
    | Attach(conversation: Id, active: Option<bool>, attachment: Id, attachKey: string, name: string, contentType: string,
             data: Bytes, now: int, lost: Option<Phase>)
    | ListAttachments(conversation: Id, now: int)
    | DiscardAttachment(conversation: Id, attachment: Id)
    | ConsumeStaged(conversation: Id, turn: Id, run: Id, now: int, ids: map<Id, Id>)
    | CopyForRetry(turn: Id, refs: set<Id>, newRun: Id, ids: map<Id, Id>)
    | Delegated(child: Id, parent: Id)

  // ----- store_runtime_artifact, step by step -----

  function WithKey(artifacts: map<Id, Artifact>, run: Id, key: Key): (s: set<Id>) {
    set a | a in artifacts && artifacts[a].owner == run && artifacts[a].key == key
  }

  /** The only row for this run and key. */
  ghost function TheOne(keyed: set<Id>): (a: Id)
    requires keyed != {}
    ensures a in keyed
  {
    var a :| a in keyed; a
  }

  /** What a caller with a taken key is told. */
  function Replay(row: Artifact, a: Id): (o: Outcome) {
    match row.status
    case Available => Stored(row.owner, row.key, a)
    case UploadFailed => Refused(UploadHasFailed)
    case _ => Waiting(a)
  }

  ghost function BeginStep(s: State, run: Id, key: Key, a: Id, name: string, data: Bytes, share: bool, runKnown: bool)
    : (r: (State, Outcome))
  {
    if |data| > s.limits.maxBytes then (s, Refused(TooLarge))
    else if WithKey(s.artifacts, run, key) != {} then
      var existing := TheOne(WithKey(s.artifacts, run, key));
      (s, Replay(s.artifacts[existing], existing))
    else if !runKnown then (s, Refused(NotFound))
    else if a in s.artifacts then (s, Refused(IdTaken))
    else
      (s.(artifacts := s.artifacts[a := Artifact(run, key, name, Uploading, Some(Temp(a)), None, None, None, 1)],
          uploads := s.uploads[a := Upload(data, Begun, share)]),
       Begin(a))
  }

  function InPhase(s: State, a: Id, phase: Phase): (b: bool) { a in s.uploads && s.uploads[a].phase == phase }

  function Advance(s: State, a: Id, phase: Phase, objects: map<ObjectKey, Bytes>): (s': State)
    requires a in s.uploads
  {
    s.(objects := objects, uploads := s.uploads[a := s.uploads[a].(phase := phase)])
  }

  function PutTempStep(s: State, a: Id): (r: (State, Outcome)) {
    if !InPhase(s, a, Begun) then (s, Refused(OutOfOrder))
    else (Advance(s, a, TempStored, s.objects[Temp(a) := s.uploads[a].data]), Fine)
  }

  /** The copy half of `promote`; it fails when the temporary object is gone. */
  function CopyFinalStep(s: State, a: Id): (r: (State, Outcome)) {
    if !InPhase(s, a, TempStored) then (s, Refused(OutOfOrder))
    else if Temp(a) !in s.objects then (s, Refused(ObjectMissing))
    else (Advance(s, a, Copied, s.objects[Final(Sha256(s.uploads[a].data)) := s.objects[Temp(a)]]), Fine)
  }

  function RemoveTempStep(s: State, a: Id): (r: (State, Outcome)) {
    if !InPhase(s, a, Copied) then (s, Refused(OutOfOrder))
    else (Advance(s, a, TempGone, s.objects - {Temp(a)}), Fine)
  }

  /** `_share_locked` towards the direct parent; an existing link is kept. */
  function Shared(links: map<LinkKey, Link>, a: Id, parent: Id): (r: map<LinkKey, Link>) {
    if LinkKey(a, parent) in links then links else links[LinkKey(a, parent) := Link(true, None)]
  }

  /** The closing transaction; the row guard refuses rows that are no longer uploading. */
  function FinaliseStep(s: State, a: Id): (r: (State, Outcome)) {
    if !InPhase(s, a, TempGone) then (s, Refused(OutOfOrder))
    else if a !in s.artifacts then (s, Refused(NotFound))
    else if s.artifacts[a].status != Uploading then (s, Refused(NotAvailable))
    else
      var row, up := s.artifacts[a], s.uploads[a];
      var digest := Sha256(up.data);
      (s.(artifacts := s.artifacts[a := row.(status := Available, tempKey := None, objectKey := Some(Final(digest)),
                                             sha := Some(digest), size := Some(|up.data|), revision := row.revision + 1)],
          links := if up.share && row.owner in s.parents then Shared(s.links, a, s.parents[row.owner]) else s.links,
          uploads := s.uploads - {a}),
       Stored(row.owner, row.key, a))
  }

  /** The clean-up after an error: the temporary object may or may not go away. */
  function DropTempStep(s: State, a: Id): (r: (State, Outcome)) {
    if a !in s.uploads then (s, Refused(OutOfOrder)) else (s.(objects := s.objects - {Temp(a)}), Fine)
  }

  function MarkFailedStep(s: State, a: Id): (r: (State, Outcome)) {
    if a !in s.uploads then (s, Refused(OutOfOrder))
    else
      (s.(artifacts := if a in s.artifacts && s.artifacts[a].status == Uploading
                       then s.artifacts[a := s.artifacts[a].(status := UploadFailed, tempKey := None,
                                                             revision := s.artifacts[a].revision + 1)]
                       else s.artifacts,
          uploads := s.uploads - {a}),
       Refused(UploadHasFailed))
  }

  /** One look of `_wait_for_replay`. */
  function PollStep(s: State, a: Id): (o: Outcome) {
    if a !in s.artifacts then Refused(NotFound) else Replay(s.artifacts[a], a)
  }

  // ----- read_for_run -----

  predicate MayRead(s: State, run: Id, a: Id, now: int)
    requires a in s.artifacts
  {
    s.artifacts[a].owner == run
    || (LinkKey(a, run) in s.links && s.links[LinkKey(a, run)].active
        && (s.links[LinkKey(a, run)].expiresAt.None? || s.links[LinkKey(a, run)].expiresAt.value > now))
  }

  /** `read_for_run`; whether the reading run exists is a parameter. */
  function ReadForRun(s: State, run: Id, runKnown: bool, a: Id, now: int): (o: Outcome) {
    if !runKnown then Refused(NotFound)
    else if a !in s.artifacts || s.artifacts[a].status != Available then Refused(NotFound)
    else if !MayRead(s, run, a, now) then Refused(AccessDenied)
    else if s.artifacts[a].objectKey.None? then Refused(NotAvailable)
    else if s.artifacts[a].objectKey.value !in s.objects then Refused(ObjectMissing)
    else
      var data := s.objects[s.artifacts[a].objectKey.value];
      if Some(Sha256(data)) != s.artifacts[a].sha || Some(|data|) != s.artifacts[a].size then Refused(IntegrityFailed)
      else Bytes_(data)
  }

  // ----- attachments -----

  function ExpireRow(row: Attachment, now: int): (r: Attachment) {
    if row.status == Staged && row.expiresAt <= now then row.(status := Expired, revision := row.revision + 1) else row
  }

  function ExpireStaged(rows: map<Id, Attachment>, conversation: Id, now: int): (r: map<Id, Attachment>) {
    map x | x in rows :: if rows[x].conversation == conversation then ExpireRow(rows[x], now) else rows[x]
  }

  /** Sizes of the staged rows of one conversation. */
  function StagedSizes(rows: map<Id, Attachment>, conversation: Id): (m: map<Id, int>) {
    map x | x in rows && rows[x].conversation == conversation && rows[x].status == Staged :: rows[x].size
  }

  function Keyed(rows: map<Id, Attachment>, conversation: Id, key: string): (s: set<Id>) {
    set x | x in rows && rows[x].conversation == conversation && rows[x].key == key
  }

  /** What the object store holds after the storage steps of an upload, up to where it got lost. */
  function Uploaded(objects: map<ObjectKey, Bytes>, id: Id, data: Bytes, lost: Option<Phase>): (r: map<ObjectKey, Bytes>) {
    match lost
    case Some(Begun) => objects
    case Some(TempStored) => objects[TempAttachment(id) := data]
    case Some(Copied) => objects[TempAttachment(id) := data][Final(Sha256(data)) := data]
    case _ => objects[Final(Sha256(data)) := data] - {TempAttachment(id)}
  }

  /** `upload`: one transaction under the key's lock, with the storage steps inside it. When it gets
      lost on the way the rows roll back but the objects stay. */
  ghost function AttachStep(s: State, conversation: Id, active: Option<bool>, id: Id, key: string, name: string,
                            contentType: string, data: Bytes, now: int, lost: Option<Phase>) : (r: (State, Outcome))
  {
    if |data| > s.limits.maxAttachmentBytes then (s, Refused(TooLarge))
    else if active.None? then (s, Refused(NotFound))
    else if !active.value then (s, Refused(Archived))
    else if Keyed(s.attachments, conversation, key) != {} then
      var existing := TheOne(Keyed(s.attachments, conversation, key));
      var row := s.attachments[existing];
      (s, if row.name == name && row.contentType == contentType && row.sha == Sha256(data) && row.size == |data|
          then Attached(existing) else Refused(KeyReused))
    else
      var rows := ExpireStaged(s.attachments, conversation, now);
      var sizes := StagedSizes(rows, conversation);
      if |sizes| >= s.limits.maxCount then (s, Refused(TooMany))
      else if Sum(sizes) + |data| > s.limits.maxTotalBytes then (s, Refused(TotalTooLarge))
      else if id in s.attachments then (s, Refused(IdTaken))
      else if lost.Some? then (s.(objects := Uploaded(s.objects, id, data, lost)), Refused(ObjectMissing))
      else
        (s.(objects := Uploaded(s.objects, id, data, None),
            attachments := rows[id := Attachment(conversation, key, name, contentType, Final(Sha256(data)), Sha256(data),
                                                 |data|, Staged, now + s.limits.ttl, None, None, 1)]),
         Attached(id))
  }

  function DiscardStep(s: State, conversation: Id, id: Id): (r: (State, Outcome)) {
    if id !in s.attachments || s.attachments[id].conversation != conversation then (s, Refused(NotFound))
    else if s.attachments[id].status != Staged then (s, Refused(NotStaged))
    else
      (s.(attachments := s.attachments[id := s.attachments[id].(status := Discarded, revision := s.attachments[id].revision + 1)]),
       Fine)
  }

  /** A different new id for every source row. */
  predicate OwnIds(sources: set<Id>, ids: map<Id, Id>) {
    && (forall x :: x in sources ==> x in ids)
    && (forall x, y :: x in sources && y in sources && x != y ==> ids[x] != ids[y])
  }

  predicate FreshIds(s: State, sources: set<Id>, ids: map<Id, Id>) {
    OwnIds(sources, ids) && forall x :: x in sources ==> ids[x] !in s.artifacts
  }

  function StagedIn(rows: map<Id, Attachment>, conversation: Id): (s: set<Id>) {
    set x | x in rows && rows[x].conversation == conversation && rows[x].status == Staged
  }

  predicate NoArtifactsOf(s: State, run: Id) {
    forall a :: a in s.artifacts ==> s.artifacts[a].owner != run
  }

  /** The artifact row `create_turn` makes of a staged attachment: its bytes are shared, not copied. */
  function FromAttachment(row: Attachment, id: Id, run: Id): (a: Artifact) {
    Artifact(run, OfAttachment(id), row.name, Available, None, Some(row.objectKey), Some(row.sha), Some(row.size), 1)
  }

  function TurnRows(rows: map<Id, Attachment>, staged: set<Id>, run: Id, ids: map<Id, Id>): (added: map<Id, Artifact>)
    requires staged <= rows.Keys && OwnIds(staged, ids)
  {
    map x | x in staged :: ids[x] := FromAttachment(rows[x], x, run)
  }

  /** The attachment part of `create_turn`; `run` is the run the transaction has just created. */
  function ConsumeStep(s: State, conversation: Id, turn: Id, run: Id, now: int, ids: map<Id, Id>): (r: (State, Outcome)) {
    var rows := ExpireStaged(s.attachments, conversation, now);
    var staged := StagedIn(rows, conversation);
    if !FreshIds(s, staged, ids) || !NoArtifactsOf(s, run) then (s, Refused(IdTaken))
    else
      (s.(artifacts := s.artifacts + TurnRows(rows, staged, run, ids),
          attachments := map x | x in rows ::
            if x in staged then rows[x].(status := Consumed, turn := Some(turn), artifact := Some(ids[x]), revision := rows[x].revision + 1)
            else rows[x]),
       Fine)
  }

  function AvailableOf(s: State, refs: set<Id>): (r: set<Id>) {
    set a | a in refs && a in s.artifacts && s.artifacts[a].status == Available
  }

  /** The row `retry_turn` makes of an available referenced artifact for the new run. */
  function ForRetry(row: Artifact, turn: Id, original: Id, newRun: Id): (a: Artifact) {
    Artifact(newRun, OfRetry(turn, original), row.name, Available, None, row.objectKey, row.sha, row.size, 1)
  }

  function RetryRows(artifacts: map<Id, Artifact>, sources: set<Id>, turn: Id, newRun: Id, ids: map<Id, Id>)
    : (added: map<Id, Artifact>)
    requires sources <= artifacts.Keys && OwnIds(sources, ids)
  {
    map x | x in sources :: ids[x] := ForRetry(artifacts[x], turn, x, newRun)
  }

  /** The artifact part of `retry_turn`; `newRun` is the run the transaction has just created. */
  function CopyStep(s: State, turn: Id, refs: set<Id>, newRun: Id, ids: map<Id, Id>): (r: (State, Outcome)) {
    var sources := AvailableOf(s, refs);
    if !FreshIds(s, sources, ids) || !NoArtifactsOf(s, newRun) then (s, Refused(IdTaken))
    else
      (s.(artifacts := s.artifacts + RetryRows(s.artifacts, sources, turn, newRun, ids)), Fine)
  }

  ghost function Step(s: State, c: Command): (r: (State, Outcome)) {
    match c
    case BeginUpload(run, key, artifact, name, data, share, runKnown) => BeginStep(s, run, key, artifact, name, data, share, runKnown)
    case PutTemp(artifact) => PutTempStep(s, artifact)
    case CopyFinal(artifact) => CopyFinalStep(s, artifact)
    case RemoveTemp(artifact) => RemoveTempStep(s, artifact)
    case Finalise(artifact) => FinaliseStep(s, artifact)
    case DropTemp(artifact) => DropTempStep(s, artifact)
    case MarkFailed(artifact) => MarkFailedStep(s, artifact)
    case Crash(artifact) => (s.(uploads := s.uploads - {artifact}), Fine)
    case Poll(artifact) => (s, PollStep(s, artifact))
    case Attach(conversation, active, attachment, attachKey, name, contentType, data, now, lost) =>
      AttachStep(s, conversation, active, attachment, attachKey, name, contentType, data, now, lost)
    case ListAttachments(conversation, now) => (s.(attachments := ExpireStaged(s.attachments, conversation, now)), Fine)
    case DiscardAttachment(conversation, attachment) => DiscardStep(s, conversation, attachment)
    case ConsumeStaged(conversation, turn, run, now, ids) => ConsumeStep(s, conversation, turn, run, now, ids)
    case CopyForRetry(turn, refs, newRun, ids) => CopyStep(s, turn, refs, newRun, ids)
    case Delegated(child, parent) =>
      if child in s.parents then (s, Refused(IdTaken)) else (s.(parents := s.parents[child := parent]), Fine)
  }

  ghost function After(limits: Limits, history: seq<Command>): (s: State)
    decreases |history|
  {
    if history == [] then Initial(limits)
    else Step(After(limits, history[..|history| - 1]), history[|history| - 1]).0
  }

  ghost function Answer(limits: Limits, history: seq<Command>, i: nat): (o: Outcome)
    requires i < |history|
  {
    Step(After(limits, history[..i]), history[i]).1
  }
}
