/** What every transaction of the conversation protocol keeps, and the theorems over all histories. */
module ConversationTheorems {
  import opened Foundation
  import opened RunStates
  import opened Conversations

  // ----- the invariant -----

  /** A turn's conversation, task and current run exist and belong together. */
  ghost predicate TurnRow(s: Tables, turn: Turn) {
    && turn.conversation in s.conversations
    && turn.run in s.runs && s.runs[turn.run].task == turn.task
    && turn.task in s.tasks && s.tasks[turn.task].compacts.None?
  }

  ghost predicate TurnRows(s: Tables) {
    forall t :: t in s.turns ==> TurnRow(s, s.turns[t])
  }

  /** The UNIQUE constraints of the turn table. */
  ghost predicate Apart(x: Turn, y: Turn) {
    && x.run != y.run && x.task != y.task
    && (x.conversation == y.conversation ==> x.sequence != y.sequence && x.key != y.key)
  }

  ghost predicate Distinct(turns: map<Id, Turn>) {
    forall a, b :: a in turns && b in turns && a != b ==> Apart(turns[a], turns[b])
  }

  /** Sequences start at 1 and have no holes. */
  ghost predicate HasPredecessor(turns: map<Id, Turn>, t: Id)
    requires t in turns
  {
    && turns[t].sequence >= 1
    && (turns[t].sequence > 1 ==>
          exists p :: p in turns && turns[p].conversation == turns[t].conversation && turns[p].sequence == turns[t].sequence - 1)
  }

  ghost predicate Numbered(turns: map<Id, Turn>) {
    forall t :: t in turns ==> HasPredecessor(turns, t)
  }

  /** `last_turn_id` is the turn with the greatest sequence. */
  ghost predicate PointsAtLast(turns: map<Id, Turn>, c: Id, last: Option<Id>) {
    && (last.None? ==> forall t :: t in turns ==> turns[t].conversation != c)
    && (last.Some? ==>
          && last.value in turns && turns[last.value].conversation == c
          && forall t :: t in turns && turns[t].conversation == c ==> turns[t].sequence <= turns[last.value].sequence)
  }

  ghost predicate Pointed(s: Tables) {
    forall c :: c in s.conversations ==> PointsAtLast(s.turns, c, s.conversations[c].lastTurn)
  }

  predicate Before(x: Turn, y: Turn) { x.conversation == y.conversation && x.sequence < y.sequence }

  /** Only the newest turn of a conversation may still run. */
  ghost predicate EarlierDone(turns: map<Id, Turn>, runs: map<Id, Run>) {
    forall a, b :: a in turns && b in turns && Before(turns[a], turns[b]) && turns[a].run in runs ==>
      Terminal(runs[turns[a].run].status)
  }

  /** A run that retries another replaces a failed or timed-out run of its task, with a higher attempt. */
  predicate NewLink(runs: map<Id, Run>, run: Run) {
    run.retryOf.Some? ==>
      var y := run.retryOf.value;
      y in runs && runs[y].status in {Failed, TimedOut} && runs[y].task == run.task && runs[y].attempt < run.attempt
  }

  ghost predicate RetryLink(runs: map<Id, Run>, r: Id)
    requires r in runs
  {
    NewLink(runs, runs[r])
  }

  ghost predicate RetryLinks(runs: map<Id, Run>) {
    forall r :: r in runs ==> RetryLink(runs, r)
  }

  /** The turn's columns are the projection of its current run. */
  ghost predicate Mirrored(turns: map<Id, Turn>, runs: map<Id, Run>) {
    forall t :: t in turns && turns[t].run in runs ==> turns[t].view == Projection(runs[turns[t].run])
  }

  /** Nothing runs in an archived conversation. */
  ghost predicate ArchivedQuiet(s: Tables) {
    forall t :: t in s.turns && s.turns[t].conversation in s.conversations && s.turns[t].run in s.runs
                && s.conversations[s.turns[t].conversation].status == ConversationArchived ==>
      Terminal(s.runs[s.turns[t].run].status)
  }

  ghost predicate Inv(s: Tables) {
    TurnRows(s) && Distinct(s.turns) && Numbered(s.turns) && Pointed(s) && EarlierDone(s.turns, s.runs)
    && RetryLinks(s.runs) && Mirrored(s.turns, s.runs) && ArchivedQuiet(s)
  }

  // ----- steps that write no turn -----

  /** Turns stay; conversations keep their pointer; runs and tasks are only added or moved on. */
  ghost predicate Calm(s: Tables, s': Tables) {
    && s'.turns == s.turns
    && (forall c :: c in s.conversations ==> c in s'.conversations && s'.conversations[c].lastTurn == s.conversations[c].lastTurn)
    && (forall c :: c in s'.conversations && c !in s.conversations ==>
          s'.conversations[c].lastTurn.None? && s'.conversations[c].status == ConversationActive)
    && (forall r :: r in s.runs ==> r in s'.runs && s'.runs[r] == s.runs[r])
    && (forall r :: r in s'.runs && r !in s.runs ==> NewLink(s.runs, s'.runs[r]))
    && (forall t :: t in s.tasks ==> t in s'.tasks && s'.tasks[t].compacts == s.tasks[t].compacts)
  }

  /** Conversations are archived only when nothing of theirs runs. */
  ghost predicate ArchivesQuietly(s: Tables, s': Tables) {
    forall c :: c in s.conversations && c in s'.conversations && s'.conversations[c].status == ConversationArchived ==>
      s.conversations[c].status == ConversationArchived || !RunActive(s, c)
  }

  lemma CalmRows(s: Tables, s': Tables)
    requires TurnRows(s) && Pointed(s) && Calm(s, s')
    ensures TurnRows(s') && Pointed(s')
  {
    forall c | c in s'.conversations ensures PointsAtLast(s'.turns, c, s'.conversations[c].lastTurn) {
      if c !in s.conversations {
        forall t | t in s.turns ensures s.turns[t].conversation != c { assert TurnRow(s, s.turns[t]); }
      }
    }
  }

  lemma CalmRuns(s: Tables, s': Tables)
    requires TurnRows(s) && EarlierDone(s.turns, s.runs) && RetryLinks(s.runs) && Mirrored(s.turns, s.runs) && Calm(s, s')
    ensures EarlierDone(s'.turns, s'.runs) && RetryLinks(s'.runs) && Mirrored(s'.turns, s'.runs)
  {
    forall t | t in s.turns ensures s.turns[t].run in s.runs { assert TurnRow(s, s.turns[t]); }
    CalmLinks(s.runs, s'.runs);
    hide TurnRows, Projection, Terminal, RetryLinks;
  }

  lemma CalmLinks(runs: map<Id, Run>, runs': map<Id, Run>)
    requires RetryLinks(runs)
    requires forall r :: r in runs ==> r in runs' && runs'[r] == runs[r]
    requires forall r :: r in runs' && r !in runs ==> NewLink(runs, runs'[r])
    ensures RetryLinks(runs')
  {
    forall r | r in runs' ensures RetryLink(runs', r) {
      if r in runs { assert RetryLink(runs, r); }
    }
  }

  /** When the last run is over, every turn run of the conversation is. */
  lemma AllTurnsDone(s: Tables, c: Id, t: Id)
    requires Inv(s) && c in s.conversations && !RunActive(s, c) && t in s.turns && s.turns[t].conversation == c
    ensures s.turns[t].run in s.runs && Terminal(s.runs[s.turns[t].run].status)
  {
    assert TurnRow(s, s.turns[t]);
    assert PointsAtLast(s.turns, c, s.conversations[c].lastTurn);
    var last := s.conversations[c].lastTurn.value;
    assert TurnRow(s, s.turns[last]);
    if t != last { assert Apart(s.turns[t], s.turns[last]); }
    hide Terminal, Distinct, Numbered, RetryLinks, Mirrored, ArchivedQuiet, TurnRows, Pointed;
  }

  lemma CalmArchives(s: Tables, s': Tables)
    requires Inv(s) && Calm(s, s') && ArchivesQuietly(s, s')
    ensures ArchivedQuiet(s')
  {
    forall t | t in s'.turns && s'.turns[t].conversation in s'.conversations && s'.turns[t].run in s'.runs
               && s'.conversations[s'.turns[t].conversation].status == ConversationArchived
      ensures Terminal(s'.runs[s'.turns[t].run].status)
    {
      var c := s.turns[t].conversation;
      assert TurnRow(s, s.turns[t]);
      if !RunActive(s, c) { AllTurnsDone(s, c, t); }
    }
  }

  lemma CalmKeeps(s: Tables, s': Tables)
    requires Inv(s) && Calm(s, s') && ArchivesQuietly(s, s')
    ensures Inv(s')
  {
    CalmRows(s, s');
    CalmRuns(s, s');
    CalmArchives(s, s');
    assert s'.turns == s.turns;
    hide TurnRows, Distinct, Numbered, Pointed, EarlierDone, RetryLinks, Mirrored, ArchivedQuiet, Calm, ArchivesQuietly;
  }

  predicate WritesTurns(c: Command) { c.CreateTurn? || c.RetryTurn? || c.UpdateRun? }

  lemma CalmStep(s: Tables, c: Command)
    requires !WritesTurns(c)
    ensures Calm(s, Step(s, c).0) && ArchivesQuietly(s, Step(s, c).0)
  {
    hide RunActive, CompactionActive, Markers, Compactable, TaskTargets, IsMaxAttempt, Calm, ArchivesQuietly,
         OtherRunStep, RetryRunStep, CompactStep, PatchStep, UpdateTaskStep;
    match c {
      case Patch(conversation, expectedRevision, newStatus) => CalmPatch(s, conversation, expectedRevision, newStatus);
      case Compact(conversation, task, run, key) => CalmCompact(s, conversation, task, run, key);
      case RetryRun(id, previous, ready) => CalmRetryRun(s, id, previous, ready);
      case OtherRun(id, task, ready) => CalmOtherRun(s, id, task, ready);
      case UpdateTask(id, taskStatus) => CalmUpdateTask(s, id, taskStatus);
      case _ => CalmConversation(s, c);
    }
  }

  lemma CalmPatch(s: Tables, c: Id, expectedRevision: nat, status: Option<ConversationStatus>)
    ensures var s' := PatchStep(s, c, expectedRevision, status).0; Calm(s, s') && ArchivesQuietly(s, s')
  {
    hide RunActive;
  }

  lemma CalmCompact(s: Tables, c: Id, task: Id, run: Id, key: string)
    ensures var s' := CompactStep(s, c, task, run, key).0; Calm(s, s') && ArchivesQuietly(s, s')
  {
    hide RunActive, CompactionActive, Markers, Compactable;
  }

  lemma CalmOtherRun(s: Tables, id: Id, task: Id, ready: Readiness)
    ensures var s' := OtherRunStep(s, id, task, ready).0; Calm(s, s') && ArchivesQuietly(s, s')
  {
    hide RunActive, IsMaxAttempt;
  }

  lemma CalmRetryRun(s: Tables, id: Id, previous: Id, ready: Readiness)
    ensures var s' := RetryRunStep(s, id, previous, ready).0; Calm(s, s') && ArchivesQuietly(s, s')
  {
    if RetryRunStep(s, id, previous, ready).1.Done? {
      var task := s.runs[previous].task;
      assert s.runs[previous].attempt <= MaxAttempt(s.runs, task);
      assert NewLink(s.runs, NewRun(task, MaxAttempt(s.runs, task) + 1, Some(previous)));
    }
    hide RunActive, IsMaxAttempt, NewLink;
  }

  lemma CalmUpdateTask(s: Tables, id: Id, status: TaskStatus)
    ensures var s' := UpdateTaskStep(s, id, status).0; Calm(s, s') && ArchivesQuietly(s, s')
  {
    hide RunActive, TaskTargets;
  }

  lemma CalmConversation(s: Tables, c: Command)
    requires c.CreateConversation? || c.Summarise?
    ensures var s' := Step(s, c).0; Calm(s, s') && ArchivesQuietly(s, s')
  {
    hide RunActive;
  }

  // ----- create_turn -----

  lemma NewTurnApart(s: Tables, turn: Id, row: Turn)
    requires TurnRows(s) && Distinct(s.turns) && turn !in s.turns && row.run !in s.runs && row.task !in s.tasks
    requires WithKey(s.turns, row.conversation, row.key) == {}
    requires row.sequence >= 1 && IsMaxSequence(s.turns, row.conversation, row.sequence - 1)
    ensures Distinct(s.turns[turn := row])
  {
    forall t | t in s.turns ensures Apart(s.turns[t], row) {
      assert TurnRow(s, s.turns[t]);
      assert t !in WithKey(s.turns, row.conversation, row.key);
    }
    hide TurnRows, WithKey;
  }

  lemma NewTurnNumbered(turns: map<Id, Turn>, turn: Id, row: Turn)
    requires Numbered(turns) && turn !in turns && row.sequence >= 1
    requires IsMaxSequence(turns, row.conversation, row.sequence - 1)
    ensures Numbered(turns[turn := row])
  {
    var turns' := turns[turn := row];
    forall t | t in turns' ensures HasPredecessor(turns', t) {
      if t != turn {
        assert HasPredecessor(turns, t);
        if turns[t].sequence > 1 {
          var p :| p in turns && turns[p].conversation == turns[t].conversation && turns[p].sequence == turns[t].sequence - 1;
          assert p in turns' && turns'[p] == turns[p];
        }
      } else if row.sequence > 1 {
        var p :| p in turns && turns[p].conversation == row.conversation && turns[p].sequence == row.sequence - 1;
        assert p in turns' && turns'[p] == turns[p];
      }
    }
  }

  lemma NewTurnPointed(s: Tables, turn: Id, row: Turn, conversation: Conversation)
    requires Pointed(s) && turn !in s.turns && row.conversation in s.conversations && conversation.lastTurn == Some(turn)
    requires row.sequence >= 1 && IsMaxSequence(s.turns, row.conversation, row.sequence - 1)
    ensures Pointed(s.(turns := s.turns[turn := row], conversations := s.conversations[row.conversation := conversation]))
  {
    var turns', conversations' := s.turns[turn := row], s.conversations[row.conversation := conversation];
    forall c | c in conversations' ensures PointsAtLast(turns', c, conversations'[c].lastTurn) {
      if c != row.conversation { assert PointsAtLast(s.turns, c, s.conversations[c].lastTurn); }
    }
  }

  /** A new turn joins only when every turn before it is over. */
  lemma NewTurnEarlierDone(s: Tables, turn: Id, row: Turn, run: Run)
    requires Inv(s) && turn !in s.turns && row.conversation in s.conversations && !RunActive(s, row.conversation)
    requires row.run !in s.runs && row.sequence >= 1 && IsMaxSequence(s.turns, row.conversation, row.sequence - 1)
    ensures EarlierDone(s.turns[turn := row], s.runs[row.run := run])
  {
    hide Inv, Terminal, RunActive;
    InvGives(s);
    PartsGive(s);
    hide InvParts, TurnRows, Distinct, Numbered, Pointed, RetryLinks, ArchivedQuiet, Mirrored;
    RunsOfTurns(s);
    forall t | t in s.turns && s.turns[t].conversation == row.conversation
      ensures s.turns[t].sequence < row.sequence && Terminal(s.runs[s.turns[t].run].status)
    {
      AllTurnsDone(s, row.conversation, t);
    }
    hide IsMaxSequence;
  }

  lemma NewRunLinks(runs: map<Id, Run>, r: Id, run: Run)
    requires RetryLinks(runs) && r !in runs && NewLink(runs, run)
    ensures RetryLinks(runs[r := run])
  {
    CalmLinks(runs, runs[r := run]);
  }

  /** What an accepted `create_turn` leaves behind. */
  ghost predicate TurnCreated(s: Tables, s': Tables, turn: Id, row: Turn) {
    && row.conversation in s.conversations && s.conversations[row.conversation].status == ConversationActive
    && !RunActive(s, row.conversation) && !CompactionActive(s, row.conversation)
    && WithKey(s.turns, row.conversation, row.key) == {}
    && turn !in s.turns && row.task !in s.tasks && row.run !in s.runs && row.view == QUEUED
    && row.sequence >= 1 && IsMaxSequence(s.turns, row.conversation, row.sequence - 1)
    && s'.conversations.Keys == s.conversations.Keys
    && s'.conversations == s.conversations[row.conversation := s'.conversations[row.conversation]]
    && s'.conversations[row.conversation].lastTurn == Some(turn)
    && s'.conversations[row.conversation].status == ConversationActive
    && s'.turns == s.turns[turn := row]
    && s'.runs == s.runs[row.run := NewRun(row.task, 1, None)]
    && s'.tasks == s.tasks[row.task := Task(TaskRunning, None)]
  }

  lemma CreateTurnMeans(s: Tables, c: Command)
    requires c.CreateTurn?
    ensures Step(s, c).0 == s
         || TurnCreated(s, Step(s, c).0, c.turn,
              Turn(c.conversation, MaxSequence(s.turns, c.conversation) + 1, c.userInput, c.task, c.run, QUEUED, c.key, 1))
  {
    hide RunActive, CompactionActive, WithKey, IsMaxSequence, NewRun;
  }

  lemma NewTurnRows(s: Tables, s': Tables, turn: Id, row: Turn)
    requires TurnRows(s) && TurnCreated(s, s', turn, row)
    ensures TurnRows(s')
  {
    forall t | t in s'.turns ensures TurnRow(s', s'.turns[t]) {
      if t != turn { assert TurnRow(s, s.turns[t]); }
    }
  }

  lemma NewTurnMirrored(s: Tables, s': Tables, turn: Id, row: Turn)
    requires TurnRows(s) && Mirrored(s.turns, s.runs) && ArchivedQuiet(s) && TurnCreated(s, s', turn, row)
    ensures Mirrored(s'.turns, s'.runs) && ArchivedQuiet(s')
  {
    forall t | t in s.turns ensures s.turns[t].run in s.runs && s.turns[t].conversation in s.conversations {
      assert TurnRow(s, s.turns[t]);
    }
    hide TurnRows, RunActive, CompactionActive, IsMaxSequence, WithKey, Terminal;
  }

  lemma CreateTurnKeeps(s: Tables, s': Tables, turn: Id, row: Turn)
    requires Inv(s) && TurnCreated(s, s', turn, row)
    ensures Inv(s')
  {
    NewTurnRows(s, s', turn, row);
    NewTurnMirrored(s, s', turn, row);
    NewTurnApart(s, turn, row);
    NewTurnNumbered(s.turns, turn, row);
    NewTurnPointed(s, turn, row, s'.conversations[row.conversation]);
    NewTurnEarlierDone(s, turn, row, NewRun(row.task, 1, None));
    NewRunLinks(s.runs, row.run, NewRun(row.task, 1, None));
    hide TurnRows, Distinct, Numbered, EarlierDone, RetryLinks, Mirrored, ArchivedQuiet, RunActive, CompactionActive,
         IsMaxSequence, WithKey, NewRun, PointsAtLast;
  }

  // ----- retry_turn -----

  /** What an accepted `retry_turn` leaves behind. */
  ghost predicate TurnRetried(s: Tables, s': Tables, t: Id, newRun: Id) {
    && t in s.turns
    && var turn := s.turns[t];
       && turn.conversation in s.conversations && s.conversations[turn.conversation].status == ConversationActive
       && s.conversations[turn.conversation].lastTurn == Some(t)
       && turn.run in s.runs && s.runs[turn.run].status in {Failed, TimedOut}
       && turn.task in s.tasks && newRun !in s.runs
       && s'.conversations.Keys == s.conversations.Keys
       && s'.conversations == s.conversations[turn.conversation := s'.conversations[turn.conversation]]
       && s'.conversations[turn.conversation].lastTurn == Some(t)
       && s'.conversations[turn.conversation].status == ConversationActive
       && s'.turns == s.turns[t := turn.(run := newRun, view := QUEUED, revision := turn.revision + 1)]
       && s'.runs == s.runs[newRun := NewRun(turn.task, MaxAttempt(s.runs, turn.task) + 1, Some(turn.run))]
       && s'.tasks == s.tasks[turn.task := s.tasks[turn.task].(status := TaskRunning)]
  }

  lemma RetryMeans(s: Tables, c: Command)
    requires c.RetryTurn?
    ensures Step(s, c).0 == s || TurnRetried(s, Step(s, c).0, c.turn, c.newRun)
    ensures Step(s, c).0 == s <==> Step(s, c).1.Refused?
  {
    hide IsMaxAttempt, NewRun;
    if Step(s, c).1.Done? {
      assert c.newRun in Step(s, c).0.runs;
    }
  }

  lemma RetryRows(s: Tables, s': Tables, t: Id, newRun: Id)
    requires TurnRows(s) && TurnRetried(s, s', t, newRun)
    ensures TurnRows(s')
  {
    forall x | x in s'.turns ensures TurnRow(s', s'.turns[x]) { assert TurnRow(s, s.turns[x]); }
  }

  lemma RetryTurns(s: Tables, s': Tables, t: Id, newRun: Id)
    requires TurnRows(s) && Distinct(s.turns) && Numbered(s.turns) && Pointed(s) && TurnRetried(s, s', t, newRun)
    ensures Distinct(s'.turns) && Numbered(s'.turns) && Pointed(s')
  {
    hide *;
    RetryMovesOn(s, s', t, newRun);
    RetriedTurn(s, s', t, newRun);
    var run := NewRun(s.turns[t].task, MaxAttempt(s.runs, s.turns[t].task) + 1, Some(s.turns[t].run));
    RetryDistinct(s.turns, s'.turns, s.runs, s'.runs, t, newRun, run);
    RetryNumbered(s.turns, s'.turns, s.runs, s'.runs, t, newRun, run);
    RetryPointed(s, s', t, newRun, run);
  }

  lemma RetriedTurn(s: Tables, s': Tables, t: Id, newRun: Id)
    requires TurnRetried(s, s', t, newRun)
    ensures t in s.turns && s'.conversations.Keys == s.conversations.Keys
    ensures forall c :: c in s.conversations ==> s'.conversations[c].lastTurn == s.conversations[c].lastTurn
  {
    hide IsMaxAttempt, NewRun;
  }

  lemma RetryPointed(s: Tables, s': Tables, t: Id, newRun: Id, run: Run)
    requires Pointed(s) && MovedOn(s.turns, s'.turns, s.runs, s'.runs, t, newRun, run)
    requires s'.conversations.Keys == s.conversations.Keys
    requires forall c :: c in s.conversations ==> s'.conversations[c].lastTurn == s.conversations[c].lastTurn
    ensures Pointed(s')
  {
    hide Projection;
    forall c | c in s'.conversations ensures PointsAtLast(s'.turns, c, s'.conversations[c].lastTurn) {
      assert PointsAtLast(s.turns, c, s.conversations[c].lastTurn);
    }
  }

  lemma RetryDistinct(turns: map<Id, Turn>, turns': map<Id, Turn>, runs: map<Id, Run>, runs': map<Id, Run>,
                      t: Id, newRun: Id, run: Run)
    requires Distinct(turns) && MovedOn(turns, turns', runs, runs', t, newRun, run)
    ensures Distinct(turns')
  {
    forall a, b | a in turns' && b in turns' && a != b ensures Apart(turns'[a], turns'[b]) {
      assert Apart(turns[a], turns[b]);
    }
  }

  lemma RetryNumbered(turns: map<Id, Turn>, turns': map<Id, Turn>, runs: map<Id, Run>, runs': map<Id, Run>,
                      t: Id, newRun: Id, run: Run)
    requires Numbered(turns) && MovedOn(turns, turns', runs, runs', t, newRun, run)
    ensures Numbered(turns')
  {
    forall x | x in turns' ensures HasPredecessor(turns', x) {
      assert HasPredecessor(turns, x);
      if turns[x].sequence > 1 {
        var p :| p in turns && turns[p].conversation == turns[x].conversation && turns[p].sequence == turns[x].sequence - 1;
        assert p in turns' && turns'[p].sequence == turns[p].sequence && turns'[p].conversation == turns[p].conversation;
      }
    }
  }

  lemma RunsOfTurns(s: Tables)
    requires TurnRows(s)
    ensures forall x :: x in s.turns ==> s.turns[x].run in s.runs && s.turns[x].conversation in s.conversations
  {
    forall x | x in s.turns ensures s.turns[x].run in s.runs && s.turns[x].conversation in s.conversations {
      assert TurnRow(s, s.turns[x]);
    }
  }

  /** Tables as a retry leaves them: one turn of the table moves on to a fresh run. */
  ghost predicate MovedOn(turns: map<Id, Turn>, turns': map<Id, Turn>, runs: map<Id, Run>, runs': map<Id, Run>,
                          t: Id, newRun: Id, run: Run)
  {
    && t in turns && newRun !in runs && turns'.Keys == turns.Keys && runs' == runs[newRun := run]
    && turns' == turns[t := turns'[t]] && turns'[t].run == newRun && turns'[t].view == Projection(run)
    && turns'[t].conversation == turns[t].conversation && turns'[t].sequence == turns[t].sequence
    && turns'[t].task == turns[t].task && turns'[t].key == turns[t].key
    && (forall x :: x in turns ==> turns[x].run in runs)
  }

  lemma RetryMovesOn(s: Tables, s': Tables, t: Id, newRun: Id)
    requires TurnRows(s) && TurnRetried(s, s', t, newRun)
    ensures MovedOn(s.turns, s'.turns, s.runs, s'.runs, t, newRun,
                    NewRun(s.turns[t].task, MaxAttempt(s.runs, s.turns[t].task) + 1, Some(s.turns[t].run)))
  {
    RunsOfTurns(s);
    hide TurnRows, IsMaxAttempt;
  }

  lemma RetryEarlierDone(turns: map<Id, Turn>, turns': map<Id, Turn>, runs: map<Id, Run>, runs': map<Id, Run>,
                         t: Id, newRun: Id, run: Run)
    requires EarlierDone(turns, runs) && MovedOn(turns, turns', runs, runs', t, newRun, run)
    requires PointsAtLast(turns, turns[t].conversation, Some(t))
    ensures EarlierDone(turns', runs')
  {
    hide Terminal, Projection;
  }

  lemma RetryMirrored(turns: map<Id, Turn>, turns': map<Id, Turn>, runs: map<Id, Run>, runs': map<Id, Run>,
                      t: Id, newRun: Id, run: Run)
    requires Mirrored(turns, runs) && MovedOn(turns, turns', runs, runs', t, newRun, run)
    ensures Mirrored(turns', runs')
  {
    hide Projection;
  }

  lemma RetryArchived(s: Tables, s': Tables, t: Id, newRun: Id)
    requires TurnRows(s) && ArchivedQuiet(s) && TurnRetried(s, s', t, newRun)
    ensures ArchivedQuiet(s')
  {
    RunsOfTurns(s);
    hide TurnRows, Terminal, IsMaxAttempt, NewRun;
  }

  lemma RetryDone(s: Tables, s': Tables, t: Id, newRun: Id)
    requires Inv(s) && TurnRetried(s, s', t, newRun)
    ensures EarlierDone(s'.turns, s'.runs) && Mirrored(s'.turns, s'.runs) && ArchivedQuiet(s')
  {
    assert PointsAtLast(s.turns, s.turns[t].conversation, Some(t));
    RetryMovesOn(s, s', t, newRun);
    RetryArchived(s, s', t, newRun);
    InvGives(s);
    var run := NewRun(s.turns[t].task, MaxAttempt(s.runs, s.turns[t].task) + 1, Some(s.turns[t].run));
    assert EarlierDone(s.turns, s.runs) && Mirrored(s.turns, s.runs);
    hide *;
    RetryEarlierDone(s.turns, s'.turns, s.runs, s'.runs, t, newRun, run);
    RetryMirrored(s.turns, s'.turns, s.runs, s'.runs, t, newRun, run);
  }

  lemma RetryLinked(s: Tables, s': Tables, t: Id, newRun: Id)
    requires TurnRows(s) && RetryLinks(s.runs) && TurnRetried(s, s', t, newRun)
    ensures RetryLinks(s'.runs)
  {
    assert TurnRow(s, s.turns[t]);
    assert IsMaxAttempt(s.runs, s.turns[t].task, MaxAttempt(s.runs, s.turns[t].task));
    NewRunLinks(s.runs, newRun, NewRun(s.turns[t].task, MaxAttempt(s.runs, s.turns[t].task) + 1, Some(s.turns[t].run)));
  }

  lemma RetryKeeps(s: Tables, s': Tables, t: Id, newRun: Id)
    requires Inv(s) && TurnRetried(s, s', t, newRun)
    ensures Inv(s')
  {
    RetryRows(s, s', t, newRun);
    RetryTurns(s, s', t, newRun);
    RetryDone(s, s', t, newRun);
    RetryLinked(s, s', t, newRun);
    hide *;
    InvIs(s');
  }

  lemma InvIs(s: Tables)
    requires TurnRows(s) && Distinct(s.turns) && Numbered(s.turns) && Pointed(s) && EarlierDone(s.turns, s.runs)
    requires RetryLinks(s.runs) && Mirrored(s.turns, s.runs) && ArchivedQuiet(s)
    ensures Inv(s)
  {
    hide TurnRows, Distinct, Numbered, Pointed, EarlierDone, RetryLinks, Mirrored, ArchivedQuiet;
  }

  // ----- writes to runs -----

  /** A run keeps its identity, and a terminal one its status. */
  ghost predicate RunMoved(was: Run, now: Run) {
    now.task == was.task && now.attempt == was.attempt && now.retryOf == was.retryOf
    && (Terminal(was.status) ==> now.status == was.status)
  }

  lemma ProjectedColumns(turns: map<Id, Turn>, r: Id, run: Run)
    ensures Projected(turns, r, run).Keys == turns.Keys
    ensures forall t :: t in turns ==>
      var t' := Projected(turns, r, run)[t];
      && t'.conversation == turns[t].conversation && t'.sequence == turns[t].sequence && t'.task == turns[t].task
      && t'.run == turns[t].run && t'.key == turns[t].key
      && t'.view == (if turns[t].run == r then Projection(run) else turns[t].view)
  {
    hide Projection;
  }

  /** Turns that differ at most in their projected columns. */
  ghost predicate SameTurns(turns: map<Id, Turn>, turns': map<Id, Turn>) {
    && turns'.Keys == turns.Keys
    && forall t :: t in turns ==>
         && turns'[t].conversation == turns[t].conversation && turns'[t].sequence == turns[t].sequence
         && turns'[t].task == turns[t].task && turns'[t].run == turns[t].run && turns'[t].key == turns[t].key
  }

  lemma SameTurnsKeep(s: Tables, s': Tables)
    requires TurnRows(s) && Distinct(s.turns) && Numbered(s.turns) && Pointed(s) && SameTurns(s.turns, s'.turns)
    requires s'.conversations == s.conversations && s'.tasks == s.tasks && s'.runs.Keys == s.runs.Keys
    requires forall r :: r in s.runs ==> RunMoved(s.runs[r], s'.runs[r])
    ensures TurnRows(s') && Distinct(s'.turns) && Numbered(s'.turns) && Pointed(s')
  {
    forall t | t in s'.turns ensures TurnRow(s', s'.turns[t]) && HasPredecessor(s'.turns, t) {
      assert TurnRow(s, s.turns[t]) && HasPredecessor(s.turns, t);
      if s.turns[t].sequence > 1 {
        var p :| p in s.turns && s.turns[p].conversation == s.turns[t].conversation && s.turns[p].sequence == s.turns[t].sequence - 1;
        assert p in s'.turns && s'.turns[p].sequence == s.turns[p].sequence;
      }
    }
    forall a, b | a in s'.turns && b in s'.turns && a != b ensures Apart(s'.turns[a], s'.turns[b]) {
      assert Apart(s.turns[a], s.turns[b]);
    }
    forall c | c in s'.conversations ensures PointsAtLast(s'.turns, c, s'.conversations[c].lastTurn) {
      assert PointsAtLast(s.turns, c, s.conversations[c].lastTurn);
    }
  }

  lemma MovedRunsKeep(s: Tables, s': Tables)
    requires TurnRows(s) && EarlierDone(s.turns, s.runs) && RetryLinks(s.runs) && ArchivedQuiet(s) && SameTurns(s.turns, s'.turns)
    requires s'.conversations == s.conversations && s'.runs.Keys == s.runs.Keys
    requires forall r :: r in s.runs ==> RunMoved(s.runs[r], s'.runs[r])
    ensures EarlierDone(s'.turns, s'.runs) && RetryLinks(s'.runs) && ArchivedQuiet(s')
  {
    forall r | r in s'.runs ensures RetryLink(s'.runs, r) {
      assert RetryLink(s.runs, r) && RunMoved(s.runs[r], s'.runs[r]);
      if s.runs[r].retryOf.Some? { assert RunMoved(s.runs[s.runs[r].retryOf.value], s'.runs[s.runs[r].retryOf.value]); }
    }
    hide RetryLinks, TurnRows;
  }

  lemma UpdateRunKeeps(s: Tables, r: Id, run: Run)
    requires Inv(s) && r in s.runs && RunMoved(s.runs[r], run)
    ensures Inv(s.(runs := s.runs[r := run], turns := Projected(s.turns, r, run)))
  {
    hide *;
    var s' := s.(runs := s.runs[r := run], turns := Projected(s.turns, r, run));
    InvGives(s);
    PartsGive(s);
    UpdateMirrors(s.turns, s.runs, r, run);
    OneRunMoved(s.runs, r, run);
    SameTurnsKeep(s, s');
    MovedRunsKeep(s, s');
    InvIs(s');
  }

  lemma PartsGive(s: Tables)
    requires InvParts(s)
    ensures TurnRows(s) && Distinct(s.turns) && Numbered(s.turns) && Pointed(s) && EarlierDone(s.turns, s.runs)
    ensures RetryLinks(s.runs) && ArchivedQuiet(s) && Mirrored(s.turns, s.runs)
  {
    hide TurnRows, Distinct, Numbered, Pointed, EarlierDone, RetryLinks, ArchivedQuiet, Mirrored;
  }

  lemma OneRunMoved(runs: map<Id, Run>, r: Id, run: Run)
    requires r in runs && RunMoved(runs[r], run)
    ensures runs[r := run].Keys == runs.Keys
    ensures forall x :: x in runs ==> RunMoved(runs[x], runs[r := run][x])
  {}

  lemma UpdateMirrors(turns: map<Id, Turn>, runs: map<Id, Run>, r: Id, run: Run)
    requires Mirrored(turns, runs)
    ensures SameTurns(turns, Projected(turns, r, run)) && Mirrored(Projected(turns, r, run), runs[r := run])
  {
    hide Projected, Projection;
    ProjectedColumns(turns, r, run);
  }

  ghost predicate InvParts(s: Tables) {
    TurnRows(s) && Distinct(s.turns) && Numbered(s.turns) && Pointed(s) && EarlierDone(s.turns, s.runs)
    && RetryLinks(s.runs) && ArchivedQuiet(s) && Mirrored(s.turns, s.runs)
  }

  lemma InvGives(s: Tables)
    requires Inv(s)
    ensures InvParts(s)
  {}

  // ----- every reachable state -----

  lemma UpdateRunStepKeeps(s: Tables, c: Command)
    requires Inv(s) && c.UpdateRun?
    ensures Inv(Step(s, c).0)
  {
    hide Inv, Projected;
    if c.id in s.runs && RunMayMove(s.runs[c.id].status, c.status) {
      var row := s.runs[c.id].(status := c.status, result := c.result, error := c.error, cost := c.cost,
                               revision := s.runs[c.id].revision + 1);
      assert RunMoved(s.runs[c.id], row);
      UpdateRunKeeps(s, c.id, row);
    }
  }

  lemma StepKeeps(s: Tables, c: Command)
    requires Inv(s)
    ensures Inv(Step(s, c).0)
  {
    hide *;
    if c.CreateTurn? {
      CreateTurnMeans(s, c);
      if Step(s, c).0 != s {
        CreateTurnKeeps(s, Step(s, c).0, c.turn,
          Turn(c.conversation, MaxSequence(s.turns, c.conversation) + 1, c.userInput, c.task, c.run, QUEUED, c.key, 1));
      }
    } else if c.RetryTurn? {
      RetryMeans(s, c);
      if Step(s, c).0 != s { RetryKeeps(s, Step(s, c).0, c.turn, c.newRun); }
    } else if c.UpdateRun? {
      UpdateRunStepKeeps(s, c);
    } else {
      NotATurnWrite(c);
      CalmStep(s, c);
      CalmKeeps(s, Step(s, c).0);
    }
  }

  lemma NotATurnWrite(c: Command)
    requires !c.CreateTurn? && !c.RetryTurn? && !c.UpdateRun?
    ensures !WritesTurns(c)
  {}

  lemma {:induction false} Reachable(history: seq<Command>)
    ensures Inv(After(history))
    decreases |history|
  {
    if history == [] {
      assert Inv(NO_ROWS);
    } else {
      Reachable(history[..|history| - 1]);
      hide Inv, Step;
      StepKeeps(After(history[..|history| - 1]), history[|history| - 1]);
    }
  }

  // ----- theorems -----

  function SequencesOf(turns: map<Id, Turn>, c: Id): (s: set<nat>) {
    set t | t in turns && turns[t].conversation == c :: turns[t].sequence
  }

  lemma {:induction false} SequencesBelow(turns: map<Id, Turn>, t: Id, n: nat)
    requires Numbered(turns) && t in turns && 1 <= n <= turns[t].sequence
    ensures n in SequencesOf(turns, turns[t].conversation)
    decreases turns[t].sequence - n
  {
    if n < turns[t].sequence {
      assert HasPredecessor(turns, t);
      var p :| p in turns && turns[p].conversation == turns[t].conversation && turns[p].sequence == turns[t].sequence - 1;
      SequencesBelow(turns, p, n);
    }
  }

  /** In every reachable state the turns of a conversation carry the sequences 1..n, each once, and
      the conversation points at turn n (at nothing when there are none). */
  lemma TurnsAreNumbered(history: seq<Command>, c: Id) returns (n: nat)
    requires c in After(history).conversations
    ensures var s := After(history);
      && (forall k: nat :: k in SequencesOf(s.turns, c) <==> 1 <= k <= n)
      && (forall a, b :: a in s.turns && b in s.turns && a != b && s.turns[a].conversation == c && s.turns[b].conversation == c ==>
            s.turns[a].sequence != s.turns[b].sequence)
      && (n == 0 <==> s.conversations[c].lastTurn.None?)
      && (n > 0 ==> s.conversations[c].lastTurn.value in s.turns
                    && s.turns[s.conversations[c].lastTurn.value].conversation == c
                    && s.turns[s.conversations[c].lastTurn.value].sequence == n)
  {
    Reachable(history);
    var s := After(history);
    assert PointsAtLast(s.turns, c, s.conversations[c].lastTurn) && Numbered(s.turns) && Distinct(s.turns);
    hide After, Inv;
    n := 0;
    forall t | t in s.turns ensures s.turns[t].sequence >= 1 { assert HasPredecessor(s.turns, t); }
    if s.conversations[c].lastTurn.Some? {
      var last := s.conversations[c].lastTurn.value;
      n := s.turns[last].sequence;
      forall k: nat | 1 <= k <= n ensures k in SequencesOf(s.turns, c) { SequencesBelow(s.turns, last, k); }
    }
    forall a, b | a in s.turns && b in s.turns && a != b && s.turns[a].conversation == c && s.turns[b].conversation == c
      ensures s.turns[a].sequence != s.turns[b].sequence
    {
      assert Apart(s.turns[a], s.turns[b]);
    }
    hide Distinct, Numbered, HasPredecessor;
  }

  /** The run `k` retries before `r`. */
  function RetriedFrom(runs: map<Id, Run>, r: Id, k: nat): (before: Option<Id>)
    decreases k
  {
    if k == 0 then Some(r)
    else if r in runs && runs[r].retryOf.Some? then RetriedFrom(runs, runs[r].retryOf.value, k - 1)
    else None
  }

  lemma {:induction false} SupersededIsDone(runs: map<Id, Run>, r: Id, k: nat)
    requires RetryLinks(runs) && r in runs && k >= 1 && RetriedFrom(runs, r, k).Some?
    ensures var y := RetriedFrom(runs, r, k).value;
      y in runs && runs[y].status in {Failed, TimedOut} && runs[y].task == runs[r].task && runs[y].attempt < runs[r].attempt
    decreases k
  {
    assert RetryLink(runs, r);
    var y := runs[r].retryOf.value;
    if k > 1 {
      SupersededIsDone(runs, y, k - 1);
    } else {
      assert RetriedFrom(runs, y, 0) == Some(y);
    }
  }

  /** At most one turn run of a conversation is active: of all runs its turns point at now or pointed
      at before a retry, only the current run of the last turn can be unfinished. */
  lemma OnlyLastTurnRuns(history: seq<Command>, c: Id, t: Id, k: nat)
    requires var s := After(history); t in s.turns && s.turns[t].conversation == c
    requires var s := After(history); RetriedFrom(s.runs, s.turns[t].run, k).Some?
    ensures var s := After(history);
      var r := RetriedFrom(s.runs, s.turns[t].run, k).value;
      && c in s.conversations && r in s.runs && s.runs[r].task == s.turns[t].task
      && (!Terminal(s.runs[r].status) ==> s.conversations[c].lastTurn == Some(t) && k == 0)
  {
    Reachable(history);
    var s := After(history);
    assert TurnRow(s, s.turns[t]);
    assert PointsAtLast(s.turns, c, s.conversations[c].lastTurn);
    var last := s.conversations[c].lastTurn.value;
    if t != last { assert Apart(s.turns[t], s.turns[last]); }
    assert RetryLinks(s.runs) && EarlierDone(s.turns, s.runs);
    hide After, Inv, Distinct;
    if k >= 1 { SupersededIsDone(s.runs, s.turns[t].run, k); }
  }

  /** Every turn shows its current run: its output, usage and error, and its status in the six
      statuses a turn has, where every status between queued and the end counts as running. */
  lemma TurnsMirrorRuns(history: seq<Command>, t: Id)
    requires t in After(history).turns
    ensures var s := After(history);
      var turn := s.turns[t];
      && turn.run in s.runs
      && (turn.view.status == TurnQueued <==> s.runs[turn.run].status == Pending)
      && (turn.view.status == TurnWaitingForApproval <==> s.runs[turn.run].status == WaitingForApproval)
      && (turn.view.status == TurnCompleted <==> s.runs[turn.run].status == Completed)
      && (turn.view.status == TurnFailed <==> s.runs[turn.run].status in {Failed, TimedOut})
      && (turn.view.status == TurnCancelled <==> s.runs[turn.run].status == Cancelled)
      && (turn.view.status == TurnRunning <==>
            s.runs[turn.run].status in {Planning, Running, WaitingForTool, WaitingForSubagent, Paused})
      && turn.view.output == s.runs[turn.run].result && turn.view.usage == s.runs[turn.run].cost
      && turn.view.error == s.runs[turn.run].error
  {
    Reachable(history);
    var s := After(history);
    assert TurnRow(s, s.turns[t]) && Mirrored(s.turns, s.runs);
    hide After, Inv, TurnRows;
  }

  lemma AfterStep(history: seq<Command>, c: Command)
    ensures After(history + [c]) == Step(After(history), c).0
  {
    assert (history + [c])[..|history|] == history;
    hide Step;
  }

  lemma ArchivedStays(s: Tables, cmd: Command, c: Id)
    requires c in s.conversations && s.conversations[c].status == ConversationArchived
    ensures c in Step(s, cmd).0.conversations && Step(s, cmd).0.conversations[c].status == ConversationArchived
  {
    hide *;
    if cmd.CreateTurn? {
      CreateTurnMeans(s, cmd);
      if Step(s, cmd).0 != s {
        CreatedElsewhere(s, Step(s, cmd).0, cmd.turn,
          Turn(cmd.conversation, MaxSequence(s.turns, cmd.conversation) + 1, cmd.userInput, cmd.task, cmd.run, QUEUED, cmd.key, 1), c);
      }
    } else if cmd.RetryTurn? {
      RetryMeans(s, cmd);
      if Step(s, cmd).0 != s { RetriedElsewhere(s, Step(s, cmd).0, cmd.turn, cmd.newRun, c); }
    } else {
      OtherwiseArchived(s, cmd, c);
    }
  }

  lemma CreatedElsewhere(s: Tables, s': Tables, turn: Id, row: Turn, c: Id)
    requires TurnCreated(s, s', turn, row) && c in s.conversations && s.conversations[c].status == ConversationArchived
    ensures c in s'.conversations && s'.conversations[c].status == ConversationArchived
  {
    hide RunActive, CompactionActive, WithKey, IsMaxSequence, NewRun;
  }

  lemma RetriedElsewhere(s: Tables, s': Tables, t: Id, newRun: Id, c: Id)
    requires TurnRetried(s, s', t, newRun) && c in s.conversations && s.conversations[c].status == ConversationArchived
    ensures c in s'.conversations && s'.conversations[c].status == ConversationArchived
  {
    hide IsMaxAttempt, NewRun;
  }

  lemma OtherwiseArchived(s: Tables, cmd: Command, c: Id)
    requires !cmd.CreateTurn? && !cmd.RetryTurn?
    requires c in s.conversations && s.conversations[c].status == ConversationArchived
    ensures c in Step(s, cmd).0.conversations && Step(s, cmd).0.conversations[c].status == ConversationArchived
  {
    hide RunActive, CompactionActive, Markers, Compactable, Projected, TaskTargets, RunTargets;
  }

  /** Archiving is final: under every later history the conversation stays archived and no run of any
      of its turns is unfinished. */
  lemma {:induction false} ArchivedForGood(history: seq<Command>, later: seq<Command>, c: Id)
    requires c in After(history).conversations && After(history).conversations[c].status == ConversationArchived
    ensures var s := After(history + later);
      && c in s.conversations && s.conversations[c].status == ConversationArchived
      && forall t :: t in s.turns && s.turns[t].conversation == c ==>
           s.turns[t].run in s.runs && Terminal(s.runs[s.turns[t].run].status)
    decreases |later|
  {
    if later == [] {
      assert history + later == history;
    } else {
      var n := |later| - 1;
      assert history + later == (history + later[..n]) + [later[n]];
      ArchivedForGood(history, later[..n], c);
      AfterStep(history + later[..n], later[n]);
      hide After, Step;
      ArchivedStays(After(history + later[..n]), later[n], c);
    }
    Reachable(history + later);
    ArchivedIsQuiet(After(history + later), c);
  }

  lemma ArchivedIsQuiet(s: Tables, c: Id)
    requires Inv(s) && c in s.conversations && s.conversations[c].status == ConversationArchived
    ensures forall t :: t in s.turns && s.turns[t].conversation == c ==>
      s.turns[t].run in s.runs && Terminal(s.runs[s.turns[t].run].status)
  {
    forall t | t in s.turns && s.turns[t].conversation == c
      ensures s.turns[t].run in s.runs && Terminal(s.runs[s.turns[t].run].status)
    {
      assert TurnRow(s, s.turns[t]) && ArchivedQuiet(s);
    }
  }

  // ----- turn runs and compaction runs -----

  /** No compaction of the conversation runs beside its last turn. */
  predicate Exclusive(s: Tables, c: Id) { !(RunActive(s, c) && CompactionActive(s, c)) }

  /** The guards of `retry_turn`. */
  predicate MayRetryTurn(s: Tables, t: Id, newRun: Id, expectedRun: Id, expectedRevision: nat, ready: Readiness) {
    && t in s.turns && s.turns[t].conversation in s.conversations
    && s.conversations[s.turns[t].conversation].status == ConversationActive
    && s.conversations[s.turns[t].conversation].lastTurn == Some(t)
    && s.turns[t].run == expectedRun && expectedRun in s.runs && s.runs[expectedRun].revision == expectedRevision
    && s.runs[expectedRun].status in {Failed, TimedOut} && ready.agentReady && ready.versionExecutable
    && s.turns[t].task in s.tasks && s.tasks[s.turns[t].task].status in {TaskRunning, TaskFailed}
    && newRun !in s.runs
  }

  /** The guards of `retry_run`. */
  predicate MayRetryRun(s: Tables, id: Id, previous: Id, ready: Readiness) {
    && previous in s.runs && s.runs[previous].status in {Failed, TimedOut}
    && (forall t :: t in s.turns ==> s.turns[t].task != s.runs[previous].task)
    && s.runs[previous].task in s.tasks
    && s.tasks[s.runs[previous].task].status in {TaskRunning, TaskRevisionRequired, TaskFailed}
    && ready.agentReady && ready.versionExecutable && id !in s.runs
  }

  /** The guards of `create_run`. */
  predicate MayRunTask(s: Tables, id: Id, task: Id, ready: Readiness) {
    && task in s.tasks && s.tasks[task].status in {TaskAssigned, TaskRevisionRequired}
    && ready.agentReady && ready.versionExecutable && id !in s.runs
  }

  predicate CompactsTask(s: Tables, task: Id, c: Id) {
    task in s.tasks && s.tasks[task].compacts.Some? && s.tasks[task].compacts.value.conversation == c
  }

  /** The three ways out, by the guards of the call: `retry_turn` while a compaction is active, and
      `retry_run` or `create_run` on a compaction task while the last turn is active. */
  predicate BreaksExclusion(s: Tables, cmd: Command, c: Id) {
    match cmd
    case RetryTurn(t, newRun, expectedRun, expectedRevision, ready) =>
      MayRetryTurn(s, t, newRun, expectedRun, expectedRevision, ready)
      && s.turns[t].conversation == c && CompactionActive(s, c)
    case RetryRun(id, previous, ready) =>
      MayRetryRun(s, id, previous, ready) && CompactsTask(s, s.runs[previous].task, c) && RunActive(s, c)
    case OtherRun(id, task, ready) => MayRunTask(s, id, task, ready) && CompactsTask(s, task, c) && RunActive(s, c)
    case _ => false
  }

  lemma CreateTurnExclusion(s: Tables, s': Tables, turn: Id, row: Turn, c: Id)
    requires Inv(s) && TurnCreated(s, s', turn, row) && Exclusive(s, c)
    ensures Exclusive(s', c)
  {
    RunsOfTurns(s);
    NoCompactionBegins(s, s', row.run, c);
    if c != row.conversation {
      if c in s.conversations { assert PointsAtLast(s.turns, c, s.conversations[c].lastTurn); }
      LastRunSame(s, s', c);
    }
    hide Inv, TurnCreated, CompactionActive, RunActive;
  }

  /** A fresh run on a task that does not compact `c` changes nothing about compactions of `c`. */
  lemma NoCompactionBegins(s: Tables, s': Tables, r: Id, c: Id)
    requires r !in s.runs && r in s'.runs && s'.runs == s.runs[r := s'.runs[r]] && !Compacts(s', r, c)
    requires forall t :: t in s.tasks ==> t in s'.tasks && s'.tasks[t].compacts == s.tasks[t].compacts
    requires forall t :: t in s'.tasks && t !in s.tasks ==> s'.tasks[t].compacts.None? || s'.tasks[t].compacts.value.conversation != c
    ensures CompactionActive(s', c) <==> CompactionActive(s, c)
  {
    if CompactionActive(s', c) {
      var x :| x in s'.runs && Compacts(s', x, c) && !Terminal(s'.runs[x].status);
      assert x in s.runs && Compacts(s, x, c);
    }
    if CompactionActive(s, c) {
      var x :| x in s.runs && Compacts(s, x, c) && !Terminal(s.runs[x].status);
      assert x in s'.runs && Compacts(s', x, c);
    }
  }

  lemma LastRunSame(s: Tables, s': Tables, c: Id)
    requires c in s.conversations ==> c in s'.conversations && s'.conversations[c].lastTurn == s.conversations[c].lastTurn
    requires c in s'.conversations && c !in s.conversations ==> s'.conversations[c].lastTurn.None?
    requires forall t :: t in s.turns ==> t in s'.turns && (s'.turns[t] == s.turns[t] || s.turns[t].conversation != c)
    requires c in s.conversations ==> PointsAtLast(s.turns, c, s.conversations[c].lastTurn)
    requires forall t :: t in s.turns ==> s.turns[t].run in s.runs
    requires forall r :: r in s.runs ==> r in s'.runs && s'.runs[r].status == s.runs[r].status
    ensures RunActive(s', c) <==> RunActive(s, c)
  {
    hide Terminal;
  }

  /** A retry makes the last turn active, so it is exclusive exactly when nothing compacts. */
  lemma RetryExclusion(s: Tables, s': Tables, t: Id, newRun: Id, c: Id)
    requires Inv(s) && TurnRetried(s, s', t, newRun) && Exclusive(s, c)
    ensures Exclusive(s', c) <==> !(s.turns[t].conversation == c && CompactionActive(s, c))
  {
    hide Inv, CompactionActive, RunActive, TurnRetried;
    RetryCompactsNothing(s, s', t, newRun, c);
    if s.turns[t].conversation == c {
      RetryActivates(s, s', t, newRun);
    } else {
      RetryElsewhere(s, s', t, newRun, c);
    }
  }

  lemma RetryCompactsNothing(s: Tables, s': Tables, t: Id, newRun: Id, c: Id)
    requires Inv(s) && TurnRetried(s, s', t, newRun)
    ensures t in s.turns && (CompactionActive(s', c) <==> CompactionActive(s, c))
  {
    assert TurnRow(s, s.turns[t]);
    hide Inv, IsMaxAttempt, CompactionActive;
    NoCompactionBegins(s, s', newRun, c);
  }

  lemma RetryActivates(s: Tables, s': Tables, t: Id, newRun: Id)
    requires TurnRetried(s, s', t, newRun)
    ensures t in s.turns && RunActive(s', s.turns[t].conversation)
  {
    hide IsMaxAttempt;
  }

  lemma RetryElsewhere(s: Tables, s': Tables, t: Id, newRun: Id, c: Id)
    requires Inv(s) && TurnRetried(s, s', t, newRun) && s.turns[t].conversation != c
    ensures RunActive(s', c) <==> RunActive(s, c)
  {
    RunsOfTurns(s);
    if c in s.conversations { assert PointsAtLast(s.turns, c, s.conversations[c].lastTurn); }
    hide Inv, IsMaxAttempt, RunActive, NewRun;
    LastRunSame(s, s', c);
  }

  /** One more run of task `task`: it breaks the exclusion exactly when the task compacts `c` while
      the last turn is active. */
  lemma NewRunExclusion(s: Tables, s': Tables, id: Id, task: Id, c: Id)
    requires Inv(s) && Exclusive(s, c) && id !in s.runs && s' == s.(runs := s'.runs, tasks := s'.tasks)
    requires id in s'.runs && s'.runs == s.runs[id := s'.runs[id]] && s'.runs[id].task == task && s'.runs[id].status == Pending
    requires task in s'.tasks && s'.tasks == s.tasks[task := s'.tasks[task]]
    requires s'.tasks[task].compacts == if task in s.tasks then s.tasks[task].compacts else None
    ensures Exclusive(s', c) <==> !(CompactsTask(s, task, c) && RunActive(s, c))
  {
    RunsOfTurns(s);
    if c in s.conversations { assert PointsAtLast(s.turns, c, s.conversations[c].lastTurn); }
    hide Inv;
    LastRunSame(s, s', c);
    hide RunActive;
    if Compacts(s', id, c) {
      assert CompactionActive(s', c);
    } else {
      hide CompactionActive;
      NoCompactionBegins(s, s', id, c);
    }
  }

  lemma RetryRunExclusion(s: Tables, id: Id, previous: Id, ready: Readiness, c: Id)
    requires Inv(s) && Exclusive(s, c)
    ensures Exclusive(RetryRunStep(s, id, previous, ready).0, c) <==>
      !(MayRetryRun(s, id, previous, ready) && CompactsTask(s, s.runs[previous].task, c) && RunActive(s, c))
  {
    hide Inv, Exclusive, IsMaxAttempt, CompactsTask, RunActive;
    if MayRetryRun(s, id, previous, ready) {
      NewRunExclusion(s, RetryRunStep(s, id, previous, ready).0, id, s.runs[previous].task, c);
    }
  }

  lemma OtherRunExclusion(s: Tables, id: Id, task: Id, ready: Readiness, c: Id)
    requires Inv(s) && Exclusive(s, c)
    ensures Exclusive(OtherRunStep(s, id, task, ready).0, c) <==>
      !(MayRunTask(s, id, task, ready) && CompactsTask(s, task, c) && RunActive(s, c))
  {
    hide Inv, Exclusive, IsMaxAttempt, RunActive;
    if OtherRunStep(s, id, task, ready).1.Done? {
      NewRunExclusion(s, OtherRunStep(s, id, task, ready).0, id, task, c);
    }
  }

  /** What `compact` may change. */
  lemma CompactMeans(s: Tables, cmd: Command)
    requires cmd.Compact?
    ensures var s' := Step(s, cmd).0;
      s' == s
      || (!RunActive(s, cmd.conversation) && cmd.run !in s.runs && cmd.task !in s.tasks
          && s' == s.(runs := s.runs[cmd.run := NewRun(cmd.task, 1, None)],
                      tasks := s.tasks[cmd.task := Task(TaskRunning, Some(Marker(cmd.conversation, cmd.key, LastCompleted(s.turns, cmd.conversation))))]))
  {
    hide RunActive, CompactionActive, Markers, Compactable, NewRun;
  }

  lemma CompactExclusion(s: Tables, cmd: Command, c: Id)
    requires Inv(s) && cmd.Compact? && Exclusive(s, c)
    ensures Exclusive(Step(s, cmd).0, c)
  {
    var s' := Step(s, cmd).0;
    CompactMeans(s, cmd);
    RunsOfTurns(s);
    assert c in s.conversations ==> PointsAtLast(s.turns, c, s.conversations[c].lastTurn);
    hide Inv, Step, RunActive, CompactionActive;
    if s' != s {
      LastRunSame(s, s', c);
      if cmd.conversation != c { NoCompactionBegins(s, s', cmd.run, c); }
    }
  }

  lemma OtherwiseExclusive(s: Tables, cmd: Command, c: Id)
    requires !cmd.CreateTurn? && !cmd.RetryTurn? && !cmd.RetryRun? && !cmd.OtherRun? && !cmd.Compact? && Exclusive(s, c)
    ensures Exclusive(Step(s, cmd).0, c)
  {
    var s' := Step(s, cmd).0;
    assert RunActive(s', c) ==> RunActive(s, c) by { NothingStarts(s, cmd, c); hide CompactionActive; }
    if CompactionActive(s', c) {
      NothingStarts(s, cmd, c);
      var x :| x in s'.runs && Compacts(s', x, c) && !Terminal(s'.runs[x].status);
      hide Step, RunActive;
      assert x in s.runs && Compacts(s, x, c) && !Terminal(s.runs[x].status);
    }
    hide Step, RunActive, CompactionActive;
  }

  /** The remaining steps add no run, revive none, and move no pointer. */
  lemma NothingStarts(s: Tables, cmd: Command, c: Id)
    requires !cmd.CreateTurn? && !cmd.RetryTurn? && !cmd.RetryRun? && !cmd.OtherRun? && !cmd.Compact?
    ensures StartsNothing(s, Step(s, cmd).0, c)
  {
    hide StartsNothing, UpdateRunStep, PatchStep, UpdateTaskStep, SummariseStep;
    match cmd {
      case UpdateRun(id, status, result, error, cost) => UpdateStartsNothing(s, id, status, result, error, cost, c);
      case Patch(conversation, revision, newStatus) => PatchStartsNothing(s, conversation, revision, newStatus, c);
      case UpdateTask(id, taskStatus) => TaskStartsNothing(s, id, taskStatus, c);
      case Summarise(run) => SummaryStartsNothing(s, run, c);
      case CreateConversation(id) =>
        SameStartsNothing(s, c);
        if id !in s.conversations { CreationStartsNothing(s, id, Conversation(ConversationActive, None, 0, 1), c); }
    }
  }

  /** No run is added or revived, no task starts compacting, and no pointer moves. */
  ghost predicate StartsNothing(s: Tables, s': Tables, c: Id) {
    && s'.runs.Keys == s.runs.Keys && s'.tasks.Keys == s.tasks.Keys && s'.turns.Keys == s.turns.Keys
    && (forall r :: r in s.runs ==> s'.runs[r].task == s.runs[r].task
                                    && (Terminal(s.runs[r].status) ==> s'.runs[r].status == s.runs[r].status))
    && (forall t :: t in s.tasks ==> s'.tasks[t].compacts == s.tasks[t].compacts)
    && (forall t :: t in s.turns ==> s'.turns[t].run == s.turns[t].run)
    && (c in s.conversations ==> c in s'.conversations && s'.conversations[c].lastTurn == s.conversations[c].lastTurn)
    && (c in s'.conversations && c !in s.conversations ==> s'.conversations[c].lastTurn.None?)
  }

  lemma SameStartsNothing(s: Tables, c: Id)
    ensures StartsNothing(s, s, c)
  {}

  lemma CreationStartsNothing(s: Tables, id: Id, row: Conversation, c: Id)
    requires id !in s.conversations && row.lastTurn.None?
    ensures StartsNothing(s, s.(conversations := s.conversations[id := row]), c)
  {}

  lemma PatchStartsNothing(s: Tables, id: Id, expectedRevision: nat, status: Option<ConversationStatus>, c: Id)
    ensures StartsNothing(s, PatchStep(s, id, expectedRevision, status).0, c)
  {
    hide RunActive, Terminal;
  }

  lemma TaskStartsNothing(s: Tables, id: Id, status: TaskStatus, c: Id)
    ensures StartsNothing(s, UpdateTaskStep(s, id, status).0, c)
  {
    hide TaskTargets, Terminal;
  }

  lemma SummaryStartsNothing(s: Tables, run: Id, c: Id)
    ensures StartsNothing(s, SummariseStep(s, run).0, c)
  {
    hide Terminal;
  }

  lemma UpdateStartsNothing(s: Tables, id: Id, status: RunStatus, result: Option<string>, error: Option<string>, cost: string, c: Id)
    ensures StartsNothing(s, UpdateRunStep(s, id, status, result, error, cost).0, c)
  {
    hide Projected, StartsNothing, RunTargets;
    SameStartsNothing(s, c);
    if id in s.runs && RunMayMove(s.runs[id].status, status) {
      RowStartsNothing(s, id, s.runs[id].(status := status, result := result, error := error, cost := cost,
                                          revision := s.runs[id].revision + 1), c);
    }
  }

  lemma RowStartsNothing(s: Tables, id: Id, run: Run, c: Id)
    requires id in s.runs && run.task == s.runs[id].task && RunMayMove(s.runs[id].status, run.status)
    ensures StartsNothing(s, s.(runs := s.runs[id := run], turns := Projected(s.turns, id, run)), c)
  {
    hide Projected, Projection;
    ProjectedColumns(s.turns, id, run);
  }

  /** From a reachable state in which a conversation's last turn and its compaction exclude each
      other, one step keeps them exclusive if and only if it is none of these, guards included: a retry
      of the turn beside an active compaction, a control-plane retry or a further run of a compaction
      task beside an active turn. */
  lemma ExclusionExactly(history: seq<Command>, cmd: Command, c: Id)
    requires Exclusive(After(history), c)
    ensures Exclusive(After(history + [cmd]), c) <==> !BreaksExclusion(After(history), cmd, c)
  {
    Reachable(history);
    AfterStep(history, cmd);
    hide *;
    ExclusionStep(After(history), cmd, c);
  }

  lemma ExclusionStep(s: Tables, cmd: Command, c: Id)
    requires Inv(s) && Exclusive(s, c)
    ensures Exclusive(Step(s, cmd).0, c) <==> !BreaksExclusion(s, cmd, c)
  {
    hide Inv, Exclusive, MayRetryTurn, MayRetryRun, MayRunTask, CompactsTask, CompactionActive, RunActive, RetryRunStep, OtherRunStep;
    match cmd {
      case CreateTurn(_, _, _, _, _, _, _) => CreateTurnStepExclusion(s, cmd, c);
      case RetryTurn(_, _, _, _, _) => RetryTurnStepExclusion(s, cmd, c);
      case RetryRun(id, previous, ready) => RetryRunExclusion(s, id, previous, ready, c);
      case OtherRun(id, task, ready) => OtherRunExclusion(s, id, task, ready, c);
      case Compact(_, _, _, _) => hide Step; CompactExclusion(s, cmd, c);
      case _ => hide Step; OtherwiseExclusive(s, cmd, c);
    }
  }

  lemma CreateTurnStepExclusion(s: Tables, cmd: Command, c: Id)
    requires Inv(s) && Exclusive(s, c) && cmd.CreateTurn?
    ensures Exclusive(Step(s, cmd).0, c)
  {
    hide Inv, Exclusive, Step;
    CreateTurnMeans(s, cmd);
    if Step(s, cmd).0 != s {
      CreateTurnExclusion(s, Step(s, cmd).0, cmd.turn,
        Turn(cmd.conversation, MaxSequence(s.turns, cmd.conversation) + 1, cmd.userInput, cmd.task, cmd.run, QUEUED, cmd.key, 1), c);
    }
  }

  lemma RetryTurnStepExclusion(s: Tables, cmd: Command, c: Id)
    requires Inv(s) && Exclusive(s, c) && cmd.RetryTurn?
    ensures Exclusive(Step(s, cmd).0, c) <==> !BreaksExclusion(s, cmd, c)
  {
    RetryMeans(s, cmd);
    RetryAnswers(s, cmd);
    hide Inv, Exclusive, Step, MayRetryTurn;
    if Step(s, cmd).0 != s { RetryExclusion(s, Step(s, cmd).0, cmd.turn, cmd.newRun, c); }
  }

  lemma RetryAnswers(s: Tables, cmd: Command)
    requires cmd.RetryTurn?
    ensures Step(s, cmd).1.Done? || Step(s, cmd).1.Refused?
    ensures Step(s, cmd).1.Done? <==>
      MayRetryTurn(s, cmd.turn, cmd.newRun, cmd.expectedRun, cmd.expectedRevision, cmd.ready)
  {
    hide IsMaxAttempt, NewRun;
  }

  // ----- the first way out is real -----

  const READY := Readiness(true, true)

  const FIRST: Command := CreateTurn(Uuid(0), Uuid(1), Uuid(2), Uuid(3), "first", "k1", READY)
  const SECOND: Command := CreateTurn(Uuid(0), Uuid(4), Uuid(5), Uuid(6), "second", "k2", READY)
  const COMPACT: Command := Compact(Uuid(0), Uuid(7), Uuid(8), "k3")
  const RETRY: Command := RetryTurn(Uuid(4), Uuid(9), Uuid(6), 2, READY)

  /** One turn, whose run stands at `status`. */
  ghost predicate OneTurn(s: Tables, status: RunStatus) {
    && s.conversations.Keys == {Uuid(0)} && s.turns.Keys == {Uuid(1)} && s.runs.Keys == {Uuid(3)} && s.tasks.Keys == {Uuid(2)}
    && s.conversations[Uuid(0)].(revision := 0) == Conversation(ConversationActive, Some(Uuid(1)), 0, 0)
    && s.turns[Uuid(1)].conversation == Uuid(0) && s.turns[Uuid(1)].run == Uuid(3) && s.turns[Uuid(1)].task == Uuid(2) && s.turns[Uuid(1)].key == "k1"
    && s.turns[Uuid(1)].sequence >= 1 && s.turns[Uuid(1)].view.status == ProjectedStatus(status)
    && s.runs[Uuid(3)].status == status && s.runs[Uuid(3)].task == Uuid(2) && s.tasks[Uuid(2)] == Task(TaskRunning, None)
  }

  /** A completed turn and a second one, whose run stands at `status`. */
  ghost predicate TwoTurns(s: Tables, status: RunStatus, revision: nat) {
    && s.conversations.Keys == {Uuid(0)} && s.turns.Keys == {Uuid(1), Uuid(4)}
    && s.runs.Keys == {Uuid(3), Uuid(6)} && s.tasks.Keys == {Uuid(2), Uuid(5)}
    && s.conversations[Uuid(0)].(revision := 0) == Conversation(ConversationActive, Some(Uuid(4)), 0, 0)
    && s.turns[Uuid(1)].conversation == Uuid(0) && s.turns[Uuid(1)].run == Uuid(3)
    && s.turns[Uuid(1)].sequence >= 1 && s.turns[Uuid(1)].view.status == TurnCompleted
    && s.turns[Uuid(4)].conversation == Uuid(0) && s.turns[Uuid(4)].run == Uuid(6) && s.turns[Uuid(4)].task == Uuid(5)
    && s.runs[Uuid(3)].task == Uuid(2) && s.runs[Uuid(6)].task == Uuid(5)
    && s.runs[Uuid(6)].status == status && s.runs[Uuid(6)].revision == revision
    && s.tasks[Uuid(2)] == Task(TaskRunning, None) && s.tasks[Uuid(5)] == Task(TaskRunning, None)
  }

  lemma FirstTurn()
    ensures OneTurn(After([CreateConversation(Uuid(0)), FIRST]), Pending)
  {
    var s1 := NO_ROWS.(conversations := map[Uuid(0) := Conversation(ConversationActive, None, 0, 1)]);
    AfterStep([], CreateConversation(Uuid(0)));
    assert [] + [CreateConversation(Uuid(0))] == [CreateConversation(Uuid(0))];
    assert After([CreateConversation(Uuid(0))]) == s1;
    AfterStep([CreateConversation(Uuid(0))], FIRST);
    assert [CreateConversation(Uuid(0))] + [FIRST] == [CreateConversation(Uuid(0)), FIRST];
    assert WithKey(s1.turns, Uuid(0), "k1") == {};
    hide After, IsMaxSequence;
  }

  lemma FirstMoves(s: Tables, from: RunStatus, status: RunStatus, result: Option<string>)
    requires OneTurn(s, from) && status in RunTargets(from)
    ensures OneTurn(Step(s, UpdateRun(Uuid(3), status, result, None, NO_USAGE)).0, status)
  {
    hide RunTargets, Terminal;
  }

  lemma SecondTurn(s: Tables)
    requires OneTurn(s, Completed)
    ensures TwoTurns(Step(s, SECOND).0, Pending, 1)
  {
    assert !RunActive(s, Uuid(0)) && !CompactionActive(s, Uuid(0)) && WithKey(s.turns, Uuid(0), "k2") == {};
    hide RunActive, CompactionActive, WithKey, IsMaxSequence;
  }

  lemma SecondTimesOut(s: Tables)
    requires TwoTurns(s, Pending, 1)
    ensures TwoTurns(Step(s, UpdateRun(Uuid(6), TimedOut, None, None, NO_USAGE)).0, TimedOut, 2)
  {}

  /** The tables with the compaction queued. */
  ghost function Compacting(s: Tables): (s': Tables) {
    s.(runs := s.runs[Uuid(8) := NewRun(Uuid(7), 1, None)],
       tasks := s.tasks[Uuid(7) := Task(TaskRunning, Some(Marker(Uuid(0), "k3", LastCompleted(s.turns, Uuid(0)))))])
  }

  lemma CompactIsAccepted(s: Tables)
    requires TwoTurns(s, TimedOut, 2)
    ensures Step(s, COMPACT).0 == Compacting(s)
  {
    assert !RunActive(s, Uuid(0)) && !CompactionActive(s, Uuid(0)) && Markers(s.tasks, Uuid(0), "k3") == {};
    assert Compactable(s, Uuid(0)) by { assert Uuid(1) in s.turns; }
    hide RunActive, CompactionActive, Markers, Compactable, NewRun;
  }

  lemma RetryIsOpen(s: Tables)
    requires TwoTurns(s, TimedOut, 2)
    ensures Exclusive(Compacting(s), Uuid(0)) && BreaksExclusion(Compacting(s), RETRY, Uuid(0))
  {
    assert !RunActive(Compacting(s), Uuid(0));
    assert Uuid(8) in Compacting(s).runs && Compacts(Compacting(s), Uuid(8), Uuid(0));
    assert CompactionActive(Compacting(s), Uuid(0));
    hide RunActive, CompactionActive;
  }

  /** A conversation with one completed and one timed-out turn can be compacted and, beside the
      compaction, retried: the exclusion is not an invariant of the protocol. */
  lemma RetryBesideCompaction() returns (history: seq<Command>)
    ensures Exclusive(After(history), Uuid(0)) && !Exclusive(After(history + [RETRY]), Uuid(0))
  {
    var plan, done := UpdateRun(Uuid(3), Planning, None, None, NO_USAGE), UpdateRun(Uuid(3), Completed, Some("answer"), None, NO_USAGE);
    var late := UpdateRun(Uuid(6), TimedOut, None, None, NO_USAGE);
    var h2 := [CreateConversation(Uuid(0)), FIRST];
    FirstTurn();
    assert Planning in RunTargets(Pending) && Completed in RunTargets(Planning);
    hide *;
    AfterStep(h2, plan);
    FirstMoves(After(h2), Pending, Planning, None);
    AfterStep(h2 + [plan], done);
    FirstMoves(After(h2 + [plan]), Planning, Completed, Some("answer"));
    AfterStep(h2 + [plan] + [done], SECOND);
    SecondTurn(After(h2 + [plan] + [done]));
    AfterStep(h2 + [plan] + [done] + [SECOND], late);
    SecondTimesOut(After(h2 + [plan] + [done] + [SECOND]));
    var before := h2 + [plan] + [done] + [SECOND] + [late];
    AfterStep(before, COMPACT);
    CompactIsAccepted(After(before));
    RetryIsOpen(After(before));
    history := before + [COMPACT];
    ExclusionExactly(history, RETRY, Uuid(0));
  }

  // ----- so are the other two -----

  const AGAIN: Command := RetryRun(Uuid(9), Uuid(8), READY)
  const ANOTHER: Command := OtherRun(Uuid(9), Uuid(7), READY)

  /** A completed turn and one compaction, whose run stands at `status`. */
  ghost predicate OneCompaction(s: Tables, status: RunStatus) {
    && s.conversations.Keys == {Uuid(0)} && s.turns.Keys == {Uuid(1)}
    && s.runs.Keys == {Uuid(3), Uuid(8)} && s.tasks.Keys == {Uuid(2), Uuid(7)}
    && s.conversations[Uuid(0)].(revision := 0) == Conversation(ConversationActive, Some(Uuid(1)), 0, 0)
    && s.turns[Uuid(1)].conversation == Uuid(0) && s.turns[Uuid(1)].run == Uuid(3) && s.turns[Uuid(1)].task == Uuid(2)
    && s.turns[Uuid(1)].key == "k1"
    && s.runs[Uuid(3)].status == Completed && s.runs[Uuid(3)].task == Uuid(2)
    && s.runs[Uuid(8)].status == status && s.runs[Uuid(8)].task == Uuid(7)
    && s.tasks[Uuid(2)] == Task(TaskRunning, None) && s.tasks[Uuid(7)].status == TaskRunning && s.tasks[Uuid(7)].compacts.Some? && s.tasks[Uuid(7)].compacts.value.conversation == Uuid(0)
  }

  /** A second turn is pending; the compaction timed out and its task stands at `status`. */
  ghost predicate TurnAfterCompaction(s: Tables, status: TaskStatus) {
    && s.conversations.Keys == {Uuid(0)} && s.conversations[Uuid(0)].lastTurn == Some(Uuid(4))
    && s.turns.Keys == {Uuid(1), Uuid(4)} && s.turns[Uuid(4)].run == Uuid(6)
    && s.turns[Uuid(1)].task == Uuid(2) && s.turns[Uuid(4)].task == Uuid(5)
    && s.runs.Keys == {Uuid(3), Uuid(6), Uuid(8)} && s.runs[Uuid(6)].status == Pending
    && s.runs[Uuid(8)].status == TimedOut && s.runs[Uuid(8)].task == Uuid(7)
    && s.runs[Uuid(3)].task == Uuid(2) && s.runs[Uuid(6)].task == Uuid(5) && s.tasks.Keys == {Uuid(2), Uuid(5), Uuid(7)}
    && s.tasks[Uuid(2)].compacts.None? && s.tasks[Uuid(5)].compacts.None?
    && s.tasks[Uuid(7)].status == status && s.tasks[Uuid(7)].compacts.Some? && s.tasks[Uuid(7)].compacts.value.conversation == Uuid(0)
  }

  lemma CompactAfterFirst(s: Tables)
    requires OneTurn(s, Completed)
    ensures OneCompaction(Step(s, COMPACT).0, Pending)
  {
    assert !RunActive(s, Uuid(0)) && !CompactionActive(s, Uuid(0)) && Markers(s.tasks, Uuid(0), "k3") == {};
    assert Compactable(s, Uuid(0)) by { assert Uuid(1) in s.turns; }
    hide RunActive, CompactionActive, Markers, Compactable;
  }

  lemma CompactionTimesOut(s: Tables)
    requires OneCompaction(s, Pending)
    ensures OneCompaction(Step(s, UpdateRun(Uuid(8), TimedOut, None, None, NO_USAGE)).0, TimedOut)
  {}

  lemma TurnAfterFailure(s: Tables)
    requires OneCompaction(s, TimedOut)
    ensures TurnAfterCompaction(Step(s, SECOND).0, TaskRunning)
  {
    assert !RunActive(s, Uuid(0)) && !CompactionActive(s, Uuid(0)) && WithKey(s.turns, Uuid(0), "k2") == {};
    hide RunActive, CompactionActive, WithKey, IsMaxSequence;
  }

  lemma CompactionTaskMoves(s: Tables, from: TaskStatus, status: TaskStatus)
    requires TurnAfterCompaction(s, from) && status in TaskTargets(from)
    ensures TurnAfterCompaction(Step(s, UpdateTask(Uuid(7), status)).0, status)
  {}

  lemma TurnPending(s: Tables, status: TaskStatus)
    requires TurnAfterCompaction(s, status)
    ensures RunActive(s, Uuid(0)) && CompactsTask(s, Uuid(7), Uuid(0))
    ensures Exclusive(s, Uuid(0))
  {}

  lemma RetryBreaks(s: Tables)
    requires TurnAfterCompaction(s, TaskRunning)
    ensures Exclusive(s, Uuid(0)) && BreaksExclusion(s, AGAIN, Uuid(0))
  {
    TurnPending(s, TaskRunning);
    hide RunActive, CompactsTask, Exclusive;
  }

  lemma RunBreaks(s: Tables)
    requires TurnAfterCompaction(s, TaskRevisionRequired)
    ensures Exclusive(s, Uuid(0)) && BreaksExclusion(s, ANOTHER, Uuid(0))
  {
    TurnPending(s, TaskRevisionRequired);
    hide RunActive, CompactsTask, Exclusive;
  }

  /** A conversation with one completed turn and a timed-out compaction after which a second turn was
      queued: the history up to there. */
  lemma SecondAfterCompaction() returns (history: seq<Command>)
    ensures TurnAfterCompaction(After(history), TaskRunning)
  {
    var plan, done := UpdateRun(Uuid(3), Planning, None, None, NO_USAGE), UpdateRun(Uuid(3), Completed, Some("answer"), None, NO_USAGE);
    var late := UpdateRun(Uuid(8), TimedOut, None, None, NO_USAGE);
    var h2 := [CreateConversation(Uuid(0)), FIRST];
    FirstTurn();
    assert Planning in RunTargets(Pending) && Completed in RunTargets(Planning);
    hide *;
    AfterStep(h2, plan);
    FirstMoves(After(h2), Pending, Planning, None);
    AfterStep(h2 + [plan], done);
    FirstMoves(After(h2 + [plan]), Planning, Completed, Some("answer"));
    AfterStep(h2 + [plan] + [done], COMPACT);
    CompactAfterFirst(After(h2 + [plan] + [done]));
    AfterStep(h2 + [plan] + [done] + [COMPACT], late);
    CompactionTimesOut(After(h2 + [plan] + [done] + [COMPACT]));
    AfterStep(h2 + [plan] + [done] + [COMPACT] + [late], SECOND);
    TurnAfterFailure(After(h2 + [plan] + [done] + [COMPACT] + [late]));
    history := h2 + [plan] + [done] + [COMPACT] + [late] + [SECOND];
  }

  /** Beside an active turn the control plane can retry a timed-out compaction. */
  lemma CompactionRetriedBesideTurn() returns (history: seq<Command>)
    ensures Exclusive(After(history), Uuid(0)) && !Exclusive(After(history + [AGAIN]), Uuid(0))
  {
    hide *;
    history := SecondAfterCompaction();
    RetryBreaks(After(history));
    ExclusionExactly(history, AGAIN, Uuid(0));
  }

  lemma ReviewMoves()
    ensures TaskWaitingForReview in TaskTargets(TaskRunning) && TaskRevisionRequired in TaskTargets(TaskWaitingForReview)
  {}

  /** Once the task of a timed-out compaction was sent back for revision, `create_run` runs it again
      beside an active turn. */
  lemma CompactionRerunBesideTurn() returns (history: seq<Command>)
    ensures Exclusive(After(history), Uuid(0)) && !Exclusive(After(history + [ANOTHER]), Uuid(0))
  {
    hide *;
    var review, revise := UpdateTask(Uuid(7), TaskWaitingForReview), UpdateTask(Uuid(7), TaskRevisionRequired);
    var before := SecondAfterCompaction();
    ReviewMoves();
    AfterStep(before, review);
    CompactionTaskMoves(After(before), TaskRunning, TaskWaitingForReview);
    AfterStep(before + [review], revise);
    CompactionTaskMoves(After(before + [review]), TaskWaitingForReview, TaskRevisionRequired);
    history := before + [review] + [revise];
    RunBreaks(After(history));
    ExclusionExactly(history, ANOTHER, Uuid(0));
  }
}
