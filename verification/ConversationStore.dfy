/** The conversation service as it runs: rows created and changed in place, with the early exits of
    each transaction and the projection trigger behind every run update. */
module ConversationStore {
  import opened Foundation
  import opened RunStates
  import opened Conversations
  import opened ConversationTheorems
  import opened ConversationSummaries

  lemma MaxSequenceIs(turns: map<Id, Turn>, c: Id, n: nat)
    requires IsMaxSequence(turns, c, n)
    ensures MaxSequence(turns, c) == n
  {
    var m := MaxSequence(turns, c);
    assert IsMaxSequence(turns, c, m);
  }

  lemma MaxAttemptIs(runs: map<Id, Run>, task: Id, n: nat)
    requires IsMaxAttempt(runs, task, n)
    ensures MaxAttempt(runs, task) == n
  {
    var m := MaxAttempt(runs, task);
    assert IsMaxAttempt(runs, task, m);
  }

  /** The unique key finds one turn at most. */
  lemma OneKeyed(turns: map<Id, Turn>, c: Id, key: string, t: Id)
    requires Distinct(turns) && t in WithKey(turns, c, key)
    ensures Keyed(WithKey(turns, c, key)) == t
  {
    var other := Keyed(WithKey(turns, c, key));
    assert other == t || Apart(turns[other], turns[t]);
  }

  class ConversationTables {
    var conversations: map<Id, Conversation>
    var turns: map<Id, Turn>
    var runs: map<Id, Run>
    var tasks: map<Id, Task>

    constructor ()
      ensures Model() == NO_ROWS
    {
      conversations, turns, runs, tasks := map[], map[], map[], map[];
    }

    ghost function Model(): (s: Tables)
      reads this
    {
      Tables(conversations, turns, runs, tasks)
    }

    /** `_last_run`, reduced to whether it is still going. */
    method LastRunActive(c: Id) returns (active: bool)
      ensures active <==> RunActive(Model(), c)
    {
      if c !in conversations || conversations[c].lastTurn.None? { return false; }
      var last := conversations[c].lastTurn.value;
      if last !in turns || turns[last].run !in runs { return false; }
      active := !Terminal(runs[turns[last].run].status);
    }

    /** `_active_compaction`: a scan over unfinished runs and their tasks' markers. */
    method ActiveCompaction(c: Id) returns (active: bool)
      ensures active <==> CompactionActive(Model(), c)
    {
      var rest: set<Id> := runs.Keys;
      while rest != {}
        invariant rest <= runs.Keys
        invariant forall r :: r in runs && r !in rest ==> !(Compacts(Model(), r, c) && !Terminal(runs[r].status))
        decreases rest
      {
        var r :| r in rest;
        if !Terminal(runs[r].status) && runs[r].task in tasks {
          var marker := tasks[runs[r].task].compacts;
          if marker.Some? && marker.value.conversation == c {
            assert Compacts(Model(), r, c);
            return true;
          }
        }
        rest := rest - {r};
      }
      return false;
    }

    /** `select max(sequence)` */
    method LastSequence(c: Id) returns (n: nat)
      ensures n == MaxSequence(turns, c)
    {
      n := 0;
      var rest: set<Id> := turns.Keys;
      while rest != {}
        invariant rest <= turns.Keys
        invariant forall t :: t in turns && t !in rest && turns[t].conversation == c ==> turns[t].sequence <= n
        invariant n == 0 || exists t :: t in turns && turns[t].conversation == c && turns[t].sequence == n
        decreases rest
      {
        var t :| t in rest;
        if turns[t].conversation == c && turns[t].sequence > n { n := turns[t].sequence; }
        rest := rest - {t};
      }
      MaxSequenceIs(turns, c, n);
    }

    /** The last of the completed turns. */
    method LastCompletedSequence(c: Id) returns (n: nat)
      ensures n == LastCompleted(turns, c)
    {
      n := 0;
      var rest: set<Id> := turns.Keys;
      while rest != {}
        invariant rest <= turns.Keys
        invariant forall t :: t in turns && t !in rest && turns[t].conversation == c && turns[t].view.status == TurnCompleted ==>
          turns[t].sequence <= n
        invariant n == 0 || exists t :: t in turns && turns[t].conversation == c && turns[t].view.status == TurnCompleted
                                        && turns[t].sequence == n
        decreases rest
      {
        var t :| t in rest;
        if turns[t].conversation == c && turns[t].view.status == TurnCompleted && turns[t].sequence > n { n := turns[t].sequence; }
        rest := rest - {t};
      }
      assert forall t :: t in CompletedTurns(turns) <==> t in turns && turns[t].view.status == TurnCompleted;
      MaxSequenceIs(CompletedTurns(turns), c, n);
    }

    /** `select max(attempt)` */
    method LastAttempt(task: Id) returns (n: nat)
      ensures n == MaxAttempt(runs, task)
    {
      n := 0;
      var rest: set<Id> := runs.Keys;
      while rest != {}
        invariant rest <= runs.Keys
        invariant forall r :: r in runs && r !in rest && runs[r].task == task ==> runs[r].attempt <= n
        invariant n == 0 || exists r :: r in runs && runs[r].task == task && runs[r].attempt == n
        decreases rest
      {
        var r :| r in rest;
        if runs[r].task == task && runs[r].attempt > n { n := runs[r].attempt; }
        rest := rest - {r};
      }
      MaxAttemptIs(runs, task, n);
    }

    method CreateTurn(c: Id, turn: Id, task: Id, run: Id, userInput: string, key: string, ready: Readiness)
      returns (o: Outcome)
      requires Distinct(turns)
      modifies this
      ensures (Model(), o) == CreateTurnStep(old(Model()), c, turn, task, run, userInput, key, ready)
    {
      hide RunActive, CompactionActive, Distinct, IsMaxSequence;
      if c !in conversations { return Refused(NotFound); }
      if conversations[c].status != ConversationActive { return Refused(Archived); }
      var keyed := WithKey(turns, c, key);
      if keyed != {} {
        var existing :| existing in keyed;
        OneKeyed(turns, c, key, existing);
        if turns[existing].userInput != userInput { return Refused(KeyReused); }
        return Replayed(existing);
      }
      var active := LastRunActive(c);
      if active { return Refused(RunIsActive); }
      active := ActiveCompaction(c);
      if active { return Refused(CompactionIsActive); }
      if !ready.agentReady { return Refused(AgentNotReady); }
      if !ready.versionExecutable { return Refused(VersionUnavailable); }
      if turn in turns || task in tasks || run in runs { return Refused(IdTaken); }
      var sequence := LastSequence(c);
      tasks := tasks[task := Task(TaskRunning, None)];
      runs := runs[run := NewRun(task, 1, None)];
      turns := turns[turn := Turn(c, sequence + 1, userInput, task, run, QUEUED, key, 1)];
      conversations := conversations[c := conversations[c].(lastTurn := Some(turn), revision := conversations[c].revision + 1)];
      o := Done(turn);
    }

    method RetryTurn(t: Id, newRun: Id, expectedRun: Id, expectedRevision: nat, ready: Readiness) returns (o: Outcome)
      modifies this
      ensures (Model(), o) == RetryTurnStep(old(Model()), t, newRun, expectedRun, expectedRevision, ready)
    {
      hide IsMaxAttempt;
      if t !in turns || turns[t].conversation !in conversations { return Refused(NotFound); }
      var turn := turns[t];
      var c := turn.conversation;
      if conversations[c].status != ConversationActive { return Refused(Archived); }
      if conversations[c].lastTurn != Some(t) { return Refused(NotLatest); }
      if turn.run != expectedRun { return Refused(RunChanged); }
      if turn.run !in runs { return Refused(NotFound); }
      var previous := runs[turn.run];
      if previous.revision != expectedRevision { return Refused(RevisionMismatch); }
      if previous.status !in {Failed, TimedOut} { return Refused(NotRetryable); }
      if !ready.agentReady { return Refused(AgentNotReady); }
      if !ready.versionExecutable { return Refused(VersionUnavailable); }
      if turn.task !in tasks { return Refused(NotFound); }
      if tasks[turn.task].status !in {TaskRunning, TaskFailed} { return Refused(TaskNotRunnable); }
      if newRun in runs { return Refused(IdTaken); }
      var attempt := LastAttempt(turn.task);
      runs := runs[newRun := NewRun(turn.task, attempt + 1, Some(turn.run))];
      if tasks[turn.task].status == TaskFailed {
        tasks := tasks[turn.task := tasks[turn.task].(status := TaskRunning)];
      }
      turns := turns[t := turn.(run := newRun, view := QUEUED, revision := turn.revision + 1)];
      conversations := conversations[c := conversations[c].(revision := conversations[c].revision + 1)];
      assert tasks == old(tasks)[turn.task := old(tasks)[turn.task].(status := TaskRunning)];
      o := Done(newRun);
    }

    method Patch(c: Id, expectedRevision: nat, status: Option<ConversationStatus>) returns (o: Outcome)
      modifies this
      ensures (Model(), o) == PatchStep(old(Model()), c, expectedRevision, status)
    {
      hide RunActive;
      if c !in conversations { return Refused(NotFound); }
      var row := conversations[c];
      if row.revision != expectedRevision { return Refused(RevisionMismatch); }
      if status.Some? {
        if row.status == ConversationArchived && status.value != ConversationArchived { return Refused(Archived); }
        if status.value == ConversationArchived {
          var active := LastRunActive(c);
          if active { return Refused(RunIsActive); }
        }
        row := row.(status := status.value);
      }
      conversations := conversations[c := row.(revision := row.revision + 1)];
      o := Done(c);
    }

    method Compact(c: Id, task: Id, run: Id, key: string) returns (o: Outcome)
      requires MarkersApart(tasks)
      modifies this
      ensures (Model(), o) == CompactStep(old(Model()), c, task, run, key)
    {
      hide RunActive, CompactionActive;
      if c !in conversations { return Refused(NotFound); }
      if conversations[c].status != ConversationActive { return Refused(Archived); }
      var marked := Markers(tasks, c, key);
      if marked != {} {
        var existing :| existing in marked;
        assert existing == Keyed(marked);
        return Replayed(existing);
      }
      var active := LastRunActive(c);
      if active { return Refused(RunIsActive); }
      active := ActiveCompaction(c);
      if active { return Refused(CompactionIsActive); }
      var through := conversations[c].summaryThrough;
      var completed := exists t :: t in turns && turns[t].conversation == c && turns[t].view.status == TurnCompleted
                                   && turns[t].sequence > through;
      if !completed { return Refused(NotCompactable); }
      if task in tasks || run in runs { return Refused(IdTaken); }
      through := LastCompletedSequence(c);
      tasks := tasks[task := Task(TaskRunning, Some(Marker(c, key, through)))];
      runs := runs[run := NewRun(task, 1, None)];
      o := Done(run);
    }

    /** A write to a run, and the trigger after it. */
    method UpdateRun(id: Id, status: RunStatus, result: Option<string>, error: Option<string>, cost: string) returns (o: Outcome)
      modifies `runs, `turns
      ensures (Model(), o) == UpdateRunStep(old(Model()), id, status, result, error, cost)
    {
      if id !in runs { return Refused(NotFound); }
      if !RunMayMove(runs[id].status, status) { return Refused(InvalidMove); }
      hide MayBecome, Projection;
      runs := runs[id := runs[id].(status := status, result := result, error := error, cost := cost,
                                   revision := runs[id].revision + 1)];
      ProjectTurn(id);
      o := Done(id);
    }

    /** `project_conversation_turn_from_run` */
    method ProjectTurn(id: Id)
      requires id in runs
      modifies `turns
      ensures turns == Projected(old(turns), id, runs[id])
    {
      var view := Projection(runs[id]);
      turns := map t | t in turns ::
        if turns[t].run == id && turns[t].view != view
        then turns[t].(view := view, revision := turns[t].revision + 1)
        else turns[t];
    }
  }
}
