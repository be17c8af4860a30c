/** Compactions over all histories: one per key, and a summary only covers turns that never move again. */
module ConversationSummaries {
  import opened Foundation
  import opened RunStates
  import opened Conversations
  import opened ConversationTheorems

  /** The lock of `compact` makes a key name one compaction task of a conversation at most. */
  ghost predicate MarkersApart(tasks: map<Id, Task>) {
    forall a, b :: a in tasks && b in tasks && a != b && tasks[a].compacts.Some? && tasks[b].compacts.Some? ==>
      tasks[a].compacts.value.conversation != tasks[b].compacts.value.conversation
      || tasks[a].compacts.value.key != tasks[b].compacts.value.key
  }

  /** Turn `n` of the conversation exists and its run completed. */
  ghost predicate Covered(s: Tables, c: Id, n: nat) {
    n == 0 || exists t :: CompletedAt(s, t, c, n)
  }

  predicate CompletedAt(s: Tables, t: Id, c: Id, n: nat) {
    && t in s.turns && s.turns[t].conversation == c && s.turns[t].sequence == n
    && s.turns[t].run in s.runs && s.runs[s.turns[t].run].status == Completed
  }

  /** What compactions were queued for, and what summaries reach to, ends at a completed turn. */
  ghost predicate Summarised(s: Tables) {
    && MarkersApart(s.tasks)
    && (forall t :: t in s.tasks && s.tasks[t].compacts.Some? ==>
          Covered(s, s.tasks[t].compacts.value.conversation, s.tasks[t].compacts.value.through))
    && (forall c :: c in s.conversations ==> Covered(s, c, s.conversations[c].summaryThrough))
  }

  // ----- what steps do to completed turns, markers and summaries -----

  /** Completed turns stay what they are. */
  ghost predicate CompletedStay(s: Tables, s': Tables) {
    forall t, c, n: nat :: CompletedAt(s, t, c, n) ==> CompletedAt(s', t, c, n)
  }

  lemma StepKeepsCompleted(s: Tables, cmd: Command)
    requires Inv(s)
    ensures CompletedStay(s, Step(s, cmd).0)
  {
    hide *;
    if cmd.CreateTurn? {
      CreateTurnMeans(s, cmd);
      var row := Turn(cmd.conversation, MaxSequence(s.turns, cmd.conversation) + 1, cmd.userInput, cmd.task, cmd.run, QUEUED, cmd.key, 1);
      if Step(s, cmd).0 == s { SameStays(s); } else { CreatedStay(s, Step(s, cmd).0, cmd.turn, row); }
    } else if cmd.RetryTurn? {
      RetryMeans(s, cmd);
      if Step(s, cmd).0 == s { SameStays(s); } else { RetriedStay(s, Step(s, cmd).0, cmd.turn, cmd.newRun); }
    } else if cmd.UpdateRun? {
      UpdatedStay(s, cmd);
    } else {
      NotATurnWrite(cmd);
      CalmStep(s, cmd);
      CalmStays(s, Step(s, cmd).0);
    }
  }

  lemma SameStays(s: Tables)
    ensures CompletedStay(s, s)
  {}

  lemma CreatedStay(s: Tables, s': Tables, turn: Id, row: Turn)
    requires TurnCreated(s, s', turn, row)
    ensures CompletedStay(s, s')
  {
    hide RunActive, CompactionActive, WithKey, IsMaxSequence, NewRun;
  }

  lemma RetriedStay(s: Tables, s': Tables, t: Id, newRun: Id)
    requires TurnRetried(s, s', t, newRun)
    ensures CompletedStay(s, s')
  {
    hide IsMaxAttempt, NewRun;
  }

  lemma CalmStays(s: Tables, s': Tables)
    requires Calm(s, s')
    ensures CompletedStay(s, s')
  {
    hide NewLink;
  }

  lemma UpdatedStay(s: Tables, cmd: Command)
    requires cmd.UpdateRun?
    ensures CompletedStay(s, Step(s, cmd).0)
  {
    if cmd.id in s.runs && RunMayMove(s.runs[cmd.id].status, cmd.status) {
      ProjectedColumns(s.turns, cmd.id, s.runs[cmd.id].(status := cmd.status, result := cmd.result, error := cmd.error,
                                                        cost := cmd.cost, revision := s.runs[cmd.id].revision + 1));
    }
    hide Projected, Projection;
  }

  /** Markers are only added by `compact`, and summaries only written from markers. */
  ghost predicate MarkersStay(s: Tables, s': Tables) {
    && (forall t :: t in s.tasks ==> t in s'.tasks && s'.tasks[t].compacts == s.tasks[t].compacts)
    && (forall t :: t in s'.tasks && t !in s.tasks ==> s'.tasks[t].compacts.None?)
  }

  lemma NoNewMarkers(s: Tables, cmd: Command)
    requires !cmd.Compact?
    ensures MarkersStay(s, Step(s, cmd).0)
  {
    hide RunActive, CompactionActive, WithKey, IsMaxSequence, IsMaxAttempt, Projected, RunMayMove, TaskMayMove, NewRun;
  }

  /** Where a summary after a step reaches: as far as before, or as far as a queued compaction covers
      and not less far. */
  ghost predicate SummariesStay(s: Tables, s': Tables) {
    && (forall c :: c in s.conversations ==>
          c in s'.conversations && s'.conversations[c].summaryThrough >= s.conversations[c].summaryThrough)
    && (forall c :: c in s'.conversations ==>
          || s'.conversations[c].summaryThrough == (if c in s.conversations then s.conversations[c].summaryThrough else 0)
          || exists t :: t in s.tasks && s.tasks[t].compacts.Some? && s.tasks[t].compacts.value.conversation == c
                         && s.tasks[t].compacts.value.through == s'.conversations[c].summaryThrough)
  }

  lemma SummariesStep(s: Tables, cmd: Command)
    ensures SummariesStay(s, Step(s, cmd).0)
  {
    hide RunActive, CompactionActive, WithKey, IsMaxSequence, IsMaxAttempt, Projected, RunMayMove, TaskMayMove, NewRun, Compactable,
         SummariseStep, SummariesStay;
    if cmd.Summarise? {
      SummaryWritten(s, cmd.run);
    } else {
      SummariesUntouched(s, cmd);
    }
  }

  lemma SummaryWritten(s: Tables, run: Id)
    ensures SummariesStay(s, SummariseStep(s, run).0)
  {}

  lemma SummariesUntouched(s: Tables, cmd: Command)
    requires !cmd.Summarise?
    ensures SummariesStay(s, Step(s, cmd).0)
  {
    hide CreateTurnStep, RetryTurnStep, PatchStep, CompactStep, UpdateRunStep, UpdateTaskStep, RetryRunStep, OtherRunStep;
    match cmd {
      case CreateTurn(c, turn, task, run, userInput, key, ready) => TurnKeepsSummaries(s, c, turn, task, run, userInput, key, ready);
      case RetryTurn(turn, newRun, expectedRun, expectedRevision, ready) =>
        RetryKeepsSummaries(s, turn, newRun, expectedRun, expectedRevision, ready);
      case Patch(c, expectedRevision, newStatus) => PatchKeepsSummaries(s, c, expectedRevision, newStatus);
      case CreateConversation(_) =>
      case _ => SameConversations(s, cmd);
    }
  }

  lemma TurnKeepsSummaries(s: Tables, c: Id, turn: Id, task: Id, run: Id, userInput: string, key: string, ready: Readiness)
    ensures SummariesStay(s, CreateTurnStep(s, c, turn, task, run, userInput, key, ready).0)
  {
    hide RunActive, CompactionActive, WithKey, MaxSequence, NewRun;
  }

  lemma RetryKeepsSummaries(s: Tables, t: Id, newRun: Id, expectedRun: Id, expectedRevision: nat, ready: Readiness)
    ensures SummariesStay(s, RetryTurnStep(s, t, newRun, expectedRun, expectedRevision, ready).0)
  {
    hide MaxAttempt, NewRun;
  }

  lemma PatchKeepsSummaries(s: Tables, c: Id, expectedRevision: nat, status: Option<ConversationStatus>)
    ensures SummariesStay(s, PatchStep(s, c, expectedRevision, status).0)
  {
    hide RunActive;
  }

  lemma SameConversations(s: Tables, cmd: Command)
    requires cmd.Compact? || cmd.UpdateRun? || cmd.UpdateTask? || cmd.RetryRun? || cmd.OtherRun?
    ensures Step(s, cmd).0.conversations == s.conversations
  {
    hide RunActive, CompactionActive, MaxAttempt, Projected, RunMayMove, TaskMayMove, NewRun, Compactable, LastCompleted, Markers;
  }

  // ----- the invariant over every history -----

  lemma CoveredStays(s: Tables, s': Tables, c: Id, n: nat)
    requires CompletedStay(s, s') && Covered(s, c, n)
    ensures Covered(s', c, n)
  {
    hide CompletedAt;
    if n > 0 {
      var t :| CompletedAt(s, t, c, n);
      assert CompletedAt(s', t, c, n);
    }
  }

  /** A new compaction covers the turns up to the last completed one. */
  lemma NewMarkerCovered(s: Tables, c: Id)
    requires Inv(s)
    ensures Covered(s, c, LastCompleted(s.turns, c))
  {
    var n := LastCompleted(s.turns, c);
    assert IsMaxSequence(CompletedTurns(s.turns), c, n);
    if n > 0 {
      var t :| t in CompletedTurns(s.turns) && s.turns[t].conversation == c && s.turns[t].sequence == n;
      assert TurnRow(s, s.turns[t]);
      assert Mirrored(s.turns, s.runs);
      assert CompletedAt(s, t, c, n);
    }
    hide Inv, TurnRows, LastCompleted;
  }

  lemma CompactedApart(s: Tables, cmd: Command)
    requires cmd.Compact? && MarkersApart(s.tasks)
    ensures MarkersApart(Step(s, cmd).0.tasks)
  {
    forall t | t in s.tasks && s.tasks[t].compacts.Some? && s.tasks[t].compacts.value.conversation == cmd.conversation
               && s.tasks[t].compacts.value.key == cmd.key
      ensures Markers(s.tasks, cmd.conversation, cmd.key) != {}
    {
      assert t in Markers(s.tasks, cmd.conversation, cmd.key);
    }
    hide RunActive, CompactionActive, Compactable, LastCompleted, Markers;
  }

  lemma StepSummarises(s: Tables, cmd: Command)
    requires Inv(s) && Summarised(s)
    ensures Summarised(Step(s, cmd).0)
  {
    hide *;
    var s' := Step(s, cmd).0;
    StepKeepsCompleted(s, cmd);
    SummariesStep(s, cmd);
    SummarisedMeans(s);
    if cmd.Compact? {
      CompactMeans(s, cmd);
      NewMarkerCovered(s, cmd.conversation);
      CompactedApart(s, cmd);
    } else {
      NoNewMarkers(s, cmd);
      MarkersStayApart(s, s');
      MarkersSame(s, s');
    }
    MarkersCovered(s, s');
    SummariesCovered(s, s');
    SummarisedIs(s');
  }

  lemma SummarisedMeans(s: Tables)
    requires Summarised(s)
    ensures MarkersApart(s.tasks) && AllCovered(s, s)
  {
    hide Covered, MarkersApart;
  }

  /** What compactions and summaries of `s'` reach to is completed in `s`. */
  ghost predicate AllCovered(s: Tables, s': Tables) {
    && (forall t :: t in s'.tasks && s'.tasks[t].compacts.Some? ==>
          Covered(s, s'.tasks[t].compacts.value.conversation, s'.tasks[t].compacts.value.through))
    && (forall c :: c in s'.conversations ==> Covered(s, c, s'.conversations[c].summaryThrough))
  }

  lemma MarkersStayApart(s: Tables, s': Tables)
    requires MarkersApart(s.tasks) && MarkersStay(s, s')
    ensures MarkersApart(s'.tasks)
  {}

  lemma MarkersSame(s: Tables, s': Tables)
    requires MarkersStay(s, s')
    ensures forall t :: t in s'.tasks && s'.tasks[t].compacts.Some? ==> t in s.tasks && s'.tasks[t].compacts == s.tasks[t].compacts
  {}

  lemma MarkersCovered(s: Tables, s': Tables)
    requires AllCovered(s, s) && CompletedStay(s, s')
    requires forall t :: t in s'.tasks && s'.tasks[t].compacts.Some? ==>
      || (t in s.tasks && s'.tasks[t].compacts == s.tasks[t].compacts)
      || Covered(s, s'.tasks[t].compacts.value.conversation, s'.tasks[t].compacts.value.through)
    ensures forall t :: t in s'.tasks && s'.tasks[t].compacts.Some? ==>
      Covered(s', s'.tasks[t].compacts.value.conversation, s'.tasks[t].compacts.value.through)
  {
    hide Covered, CompletedStay;
    forall t | t in s'.tasks && s'.tasks[t].compacts.Some?
      ensures Covered(s', s'.tasks[t].compacts.value.conversation, s'.tasks[t].compacts.value.through)
    {
      CoveredStays(s, s', s'.tasks[t].compacts.value.conversation, s'.tasks[t].compacts.value.through);
    }
  }

  lemma SummariesCovered(s: Tables, s': Tables)
    requires AllCovered(s, s) && CompletedStay(s, s') && SummariesStay(s, s')
    ensures forall c :: c in s'.conversations ==> Covered(s', c, s'.conversations[c].summaryThrough)
  {
    hide Covered, CompletedStay;
    forall c | c in s'.conversations ensures Covered(s', c, s'.conversations[c].summaryThrough) {
      NothingCovered(s, c);
      CoveredStays(s, s', c, s'.conversations[c].summaryThrough);
    }
  }

  lemma SummarisedIs(s: Tables)
    requires MarkersApart(s.tasks)
    requires forall t :: t in s.tasks && s.tasks[t].compacts.Some? ==>
      Covered(s, s.tasks[t].compacts.value.conversation, s.tasks[t].compacts.value.through)
    requires forall c :: c in s.conversations ==> Covered(s, c, s.conversations[c].summaryThrough)
    ensures Summarised(s)
  {
    hide Covered, MarkersApart;
  }

  lemma NothingCovered(s: Tables, c: Id)
    ensures Covered(s, c, 0)
  {}

  lemma {:induction false} AlwaysSummarised(history: seq<Command>)
    ensures Summarised(After(history))
    decreases |history|
  {
    if history != [] {
      var n := |history| - 1;
      AlwaysSummarised(history[..n]);
      Reachable(history[..n]);
      hide Inv, Summarised, Step;
      StepSummarises(After(history[..n]), history[n]);
    }
  }

  // ----- summarised turns never move again -----

  /** The turn is over, and no retry can take it. */
  ghost predicate Settled(s: Tables, t: Id) {
    && t in s.turns && s.turns[t].run in s.runs && s.turns[t].conversation in s.conversations
    && Terminal(s.runs[s.turns[t].run].status)
    && (s.runs[s.turns[t].run].status == Completed || s.conversations[s.turns[t].conversation].lastTurn != Some(t))
  }

  lemma SummarisedIsSettled(s: Tables, t: Id)
    requires Inv(s) && Summarised(s) && t in s.turns && s.turns[t].conversation in s.conversations
    requires s.turns[t].sequence <= s.conversations[s.turns[t].conversation].summaryThrough
    ensures Settled(s, t)
  {
    var c := s.turns[t].conversation;
    var n := s.conversations[c].summaryThrough;
    assert TurnRow(s, s.turns[t]) && HasPredecessor(s.turns, t) && PointsAtLast(s.turns, c, s.conversations[c].lastTurn);
    assert Covered(s, c, n);
    var done :| CompletedAt(s, done, c, n);
    if s.turns[t].sequence == n {
      assert done == t || Apart(s.turns[done], s.turns[t]);
    } else {
      assert Before(s.turns[t], s.turns[done]);
      assert EarlierDone(s.turns, s.runs);
    }
    hide Inv, TurnRows, Summarised;
  }

  /** The turn keeps its run, and the run its status. */
  ghost predicate Unmoved(s: Tables, s': Tables, t: Id) {
    && t in s.turns && t in s'.turns && s'.turns[t].run == s.turns[t].run && s'.turns[t].conversation == s.turns[t].conversation
    && s'.turns[t].sequence == s.turns[t].sequence
    && s.turns[t].run in s.runs && s.turns[t].run in s'.runs
    && s'.runs[s.turns[t].run].status == s.runs[s.turns[t].run].status
  }

  lemma SettledStays(s: Tables, cmd: Command, t: Id)
    requires Inv(s) && Settled(s, t)
    ensures Unmoved(s, Step(s, cmd).0, t)
  {
    hide *;
    SettledMeans(s, t);
    if cmd.CreateTurn? {
      CreateTurnMeans(s, cmd);
      var row := Turn(cmd.conversation, MaxSequence(s.turns, cmd.conversation) + 1, cmd.userInput, cmd.task, cmd.run, QUEUED, cmd.key, 1);
      if Step(s, cmd).0 == s { SameUnmoved(s, t); } else { CreatedUnmoved(s, Step(s, cmd).0, cmd.turn, row, t); }
    } else if cmd.RetryTurn? {
      RetryMeans(s, cmd);
      if Step(s, cmd).0 == s { SameUnmoved(s, t); } else { RetriedUnmoved(s, Step(s, cmd).0, cmd.turn, cmd.newRun, t); }
    } else if cmd.UpdateRun? {
      UpdatedUnmoved(s, cmd, t);
    } else {
      NotATurnWrite(cmd);
      CalmStep(s, cmd);
      CalmUnmoved(s, Step(s, cmd).0, t);
    }
  }

  lemma SettledMeans(s: Tables, t: Id)
    requires Settled(s, t)
    ensures t in s.turns && s.turns[t].run in s.runs && s.turns[t].conversation in s.conversations
    ensures s.runs[s.turns[t].run].status == Completed || s.conversations[s.turns[t].conversation].lastTurn != Some(t)
    ensures Terminal(s.runs[s.turns[t].run].status)
  {}

  lemma SameUnmoved(s: Tables, t: Id)
    requires t in s.turns && s.turns[t].run in s.runs
    ensures Unmoved(s, s, t)
  {}

  lemma CreatedUnmoved(s: Tables, s': Tables, turn: Id, row: Turn, t: Id)
    requires TurnCreated(s, s', turn, row) && t in s.turns && s.turns[t].run in s.runs
    ensures Unmoved(s, s', t)
  {
    hide RunActive, CompactionActive, WithKey, IsMaxSequence, NewRun;
  }

  lemma RetriedUnmoved(s: Tables, s': Tables, turn: Id, newRun: Id, t: Id)
    requires TurnRetried(s, s', turn, newRun) && Settled(s, t)
    ensures Unmoved(s, s', t)
  {
    hide IsMaxAttempt, NewRun;
  }

  lemma UpdatedUnmoved(s: Tables, cmd: Command, t: Id)
    requires cmd.UpdateRun? && t in s.turns && s.turns[t].run in s.runs && Terminal(s.runs[s.turns[t].run].status)
    ensures Unmoved(s, Step(s, cmd).0, t)
  {
    if cmd.id in s.runs && RunMayMove(s.runs[cmd.id].status, cmd.status) {
      ProjectedColumns(s.turns, cmd.id, s.runs[cmd.id].(status := cmd.status, result := cmd.result, error := cmd.error,
                                                        cost := cmd.cost, revision := s.runs[cmd.id].revision + 1));
    }
    hide Projected, Projection;
  }

  lemma CalmUnmoved(s: Tables, s': Tables, t: Id)
    requires Calm(s, s') && t in s.turns && s.turns[t].run in s.runs
    ensures Unmoved(s, s', t)
  {
    hide NewLink;
  }

  /** Once a summary covers a turn, the turn is over for good: under every later history it keeps its
      run, the run its status, and the summary goes on covering it. */
  lemma {:induction false} SummaryCoversFinished(history: seq<Command>, later: seq<Command>, t: Id)
    requires var s := After(history);
      && t in s.turns && s.turns[t].conversation in s.conversations
      && s.turns[t].sequence <= s.conversations[s.turns[t].conversation].summaryThrough
    ensures var s, s' := After(history), After(history + later);
      var c, r := s.turns[t].conversation, s.turns[t].run;
      && t in s'.turns && s'.turns[t].run == r && s'.turns[t].conversation == c && s'.turns[t].sequence == s.turns[t].sequence
      && r in s.runs && r in s'.runs && Terminal(s.runs[r].status) && s'.runs[r].status == s.runs[r].status
      && c in s'.conversations && s'.conversations[c].summaryThrough >= s.conversations[c].summaryThrough
    decreases |later|
  {
    if later == [] {
      hide *;
      assert history + later == history;
      Reachable(history);
      AlwaysSummarised(history);
      SummarisedIsSettled(After(history), t);
      SettledMeans(After(history), t);
    } else {
      hide *;
      var n := |later| - 1;
      assert history + later == (history + later[..n]) + [later[n]];
      SummaryCoversFinished(history, later[..n], t);
      AfterStep(history + later[..n], later[n]);
      Reachable(history + later[..n]);
      AlwaysSummarised(history + later[..n]);
      SummarisedIsSettled(After(history + later[..n]), t);
      SettledStays(After(history + later[..n]), later[n], t);
      SummariesStep(After(history + later[..n]), later[n]);
      StepUnmoves(After(history + later[..n]), After(history + later), t);
    }
  }

  lemma StepUnmoves(s: Tables, s': Tables, t: Id)
    requires Unmoved(s, s', t) && SummariesStay(s, s') && s.turns[t].conversation in s.conversations
    ensures var c, r := s.turns[t].conversation, s.turns[t].run;
      && t in s'.turns && s'.turns[t].run == r && s'.turns[t].conversation == c && s'.turns[t].sequence == s.turns[t].sequence
      && r in s.runs && r in s'.runs && s'.runs[r].status == s.runs[r].status
      && c in s'.conversations && s'.conversations[c].summaryThrough >= s.conversations[c].summaryThrough
  {}

  /** A finished compaction writes its summary exactly when it completed: the summary then reaches to
      where the compaction was queued for, or stays where it reaches further already. */
  lemma SummaryWrittenExactly(s: Tables, run: Id)
    ensures var (s', o) := Step(s, Summarise(run));
      && (o.Done? <==>
            && run in s.runs && s.runs[run].status == Completed && s.runs[run].task in s.tasks
            && s.tasks[s.runs[run].task].compacts.Some?
            && s.tasks[s.runs[run].task].compacts.value.conversation in s.conversations)
      && (!o.Done? ==> s' == s)
      && (o.Done? ==>
            var marker := s.tasks[s.runs[run].task].compacts.value;
            var was := s.conversations[marker.conversation];
            && s' == s.(conversations := s'.conversations) && marker.conversation in s'.conversations
            && s'.conversations == s.conversations[marker.conversation := s'.conversations[marker.conversation]]
            && s'.conversations[marker.conversation] ==
                 if was.summaryThrough > marker.through then was
                 else was.(summaryThrough := marker.through, revision := was.revision + 1))
  {}
}
