/** What the conversation service answers and writes, after any history and in terms of the rows
    alone: when a call goes through, what a refusal says, and what a repeated call gets. */
module ConversationAnswers {
  import opened Foundation
  import opened RunStates
  import opened Conversations
  import opened ConversationTheorems
  import opened ConversationSummaries

  // ----- what the two "active" checks see -----

  /** Some turn of the conversation is unfinished. */
  ghost predicate TurnGoing(s: Tables, c: Id) {
    exists t :: t in s.turns && s.turns[t].conversation == c && s.turns[t].run in s.runs
                && s.runs[s.turns[t].run].status !in {Completed, Failed, Cancelled, TimedOut}
  }

  /** Some run of a task that compacts the conversation is unfinished. */
  ghost predicate CompactionGoing(s: Tables, c: Id) {
    exists r :: r in s.runs && s.runs[r].status !in {Completed, Failed, Cancelled, TimedOut} && s.runs[r].task in s.tasks
                && s.tasks[s.runs[r].task].compacts.Some? && s.tasks[s.runs[r].task].compacts.value.conversation == c
  }

  /** The service looks at the last turn only; that is enough to see any unfinished one. */
  lemma ActiveExactly(s: Tables, c: Id)
    requires Inv(s) && c in s.conversations
    ensures RunActive(s, c) <==> TurnGoing(s, c)
    ensures CompactionActive(s, c) <==> CompactionGoing(s, c)
  {
    assert CompactionActive(s, c) <==> CompactionGoing(s, c) by { CompactionSeen(s, c); }
    hide CompactionActive, CompactionGoing;
    if RunActive(s, c) {
      var last := s.conversations[c].lastTurn.value;
      assert PointsAtLast(s.turns, c, s.conversations[c].lastTurn);
      assert last in s.turns && s.turns[last].conversation == c;
    }
    if TurnGoing(s, c) && !RunActive(s, c) {
      var t :| t in s.turns && s.turns[t].conversation == c && s.turns[t].run in s.runs
               && s.runs[s.turns[t].run].status !in {Completed, Failed, Cancelled, TimedOut};
      AllTurnsDone(s, c, t);
    }
    hide Inv;
  }

  lemma CompactionSeen(s: Tables, c: Id)
    ensures CompactionActive(s, c) <==> CompactionGoing(s, c)
  {
    if CompactionActive(s, c) {
      var r :| r in s.runs && Compacts(s, r, c) && !Terminal(s.runs[r].status);
    }
    if CompactionGoing(s, c) {
      var r :| r in s.runs && s.runs[r].status !in {Completed, Failed, Cancelled, TimedOut} && s.runs[r].task in s.tasks
               && s.tasks[s.runs[r].task].compacts.Some? && s.tasks[s.runs[r].task].compacts.value.conversation == c;
      assert Compacts(s, r, c) && !Terminal(s.runs[r].status);
    }
  }

  // ----- create_turn -----

  ghost predicate KeyTaken(s: Tables, c: Id, key: string) {
    exists t :: t in s.turns && s.turns[t].conversation == c && s.turns[t].key == key
  }

  lemma KeyTakenExactly(s: Tables, c: Id, key: string)
    ensures WithKey(s.turns, c, key) != {} <==> KeyTaken(s, c, key)
  {
    if KeyTaken(s, c, key) {
      var t :| t in s.turns && s.turns[t].conversation == c && s.turns[t].key == key;
      assert t in WithKey(s.turns, c, key);
    }
    if WithKey(s.turns, c, key) != {} {
      var t :| t in WithKey(s.turns, c, key);
    }
  }

  /** What makes `create_turn` refuse. */
  ghost predicate TurnRefusable(s: Tables, cmd: Command, why: Refusal)
    requires cmd.CreateTurn?
  {
    var c := cmd.conversation;
    match why
    case NotFound => c !in s.conversations
    case Archived => c in s.conversations && s.conversations[c].status == ConversationArchived
    case KeyReused =>
      exists t :: t in s.turns && s.turns[t].conversation == c && s.turns[t].key == cmd.key && s.turns[t].userInput != cmd.userInput
    case RunIsActive => TurnGoing(s, c)
    case CompactionIsActive => CompactionGoing(s, c)
    case AgentNotReady => !cmd.ready.agentReady
    case VersionUnavailable => !cmd.ready.versionExecutable
    case IdTaken => cmd.turn in s.turns || cmd.task in s.tasks || cmd.run in s.runs
    case _ => false
  }

  /** Nothing stands against a new turn. */
  ghost predicate TurnWelcome(s: Tables, cmd: Command)
    requires cmd.CreateTurn?
  {
    && cmd.conversation in s.conversations && s.conversations[cmd.conversation].status == ConversationActive
    && !KeyTaken(s, cmd.conversation, cmd.key)
    && !TurnGoing(s, cmd.conversation) && !CompactionGoing(s, cmd.conversation)
    && cmd.ready.agentReady && cmd.ready.versionExecutable
    && cmd.turn !in s.turns && cmd.task !in s.tasks && cmd.run !in s.runs
  }

  lemma TurnStep(s: Tables, cmd: Command)
    requires cmd.CreateTurn? && Inv(s)
    ensures var (s', o) := Step(s, cmd);
      && (o.Done? <==> TurnWelcome(s, cmd))
      && (o.Refused? ==> TurnRefusable(s, cmd, o.why))
      && (!o.Done? ==> s' == s)
  {
    hide *;
    KeyTakenExactly(s, cmd.conversation, cmd.key);
    TurnUnknown(s, cmd);
    if cmd.conversation in s.conversations {
      ActiveExactly(s, cmd.conversation);
      TurnAccepted(s, cmd);
      TurnRefused(s, cmd);
    }
  }

  lemma TurnUnknown(s: Tables, cmd: Command)
    requires cmd.CreateTurn?
    ensures cmd.conversation !in s.conversations ==>
      Step(s, cmd) == (s, Refused(NotFound)) && TurnRefusable(s, cmd, NotFound) && !TurnWelcome(s, cmd)
  {}

  lemma TurnAccepted(s: Tables, cmd: Command)
    requires cmd.CreateTurn? && cmd.conversation in s.conversations
    requires RunActive(s, cmd.conversation) <==> TurnGoing(s, cmd.conversation)
    requires CompactionActive(s, cmd.conversation) <==> CompactionGoing(s, cmd.conversation)
    requires WithKey(s.turns, cmd.conversation, cmd.key) != {} <==> KeyTaken(s, cmd.conversation, cmd.key)
    ensures Step(s, cmd).1.Done? <==> TurnWelcome(s, cmd)
    ensures !Step(s, cmd).1.Done? ==> Step(s, cmd).0 == s
  {
    hide RunActive, CompactionActive, TurnGoing, CompactionGoing, KeyTaken, MaxSequence, NewRun, WithKey;
  }

  lemma TurnRefused(s: Tables, cmd: Command)
    requires cmd.CreateTurn? && cmd.conversation in s.conversations
    requires RunActive(s, cmd.conversation) <==> TurnGoing(s, cmd.conversation)
    requires CompactionActive(s, cmd.conversation) <==> CompactionGoing(s, cmd.conversation)
    ensures Step(s, cmd).1.Refused? ==> TurnRefusable(s, cmd, Step(s, cmd).1.why)
  {
    hide RunActive, CompactionActive, TurnGoing, CompactionGoing, MaxSequence, NewRun;
  }

  lemma CreatedRows(s: Tables, cmd: Command)
    requires cmd.CreateTurn? && Step(s, cmd).1.Done?
    ensures cmd.conversation in s.conversations
    ensures var (s', o) := Step(s, cmd);
      var c, n := cmd.conversation, MaxSequence(s.turns, cmd.conversation) + 1;
      && o == Done(cmd.turn)
      && s'.conversations == s.conversations[c := s.conversations[c].(lastTurn := Some(cmd.turn), revision := s.conversations[c].revision + 1)]
      && s'.turns == s.turns[cmd.turn := Turn(c, n, cmd.userInput, cmd.task, cmd.run, View(TurnQueued, None, "{}", None), cmd.key, 1)]
      && s'.runs == s.runs[cmd.run := Run(Pending, cmd.task, 1, None, None, None, "{}", 1)]
      && s'.tasks == s.tasks[cmd.task := Task(TaskRunning, None)]
  {
    hide RunActive, CompactionActive, WithKey, IsMaxSequence;
  }

  /** After any history `create_turn` queues a turn if and only if the conversation is active, the key
      is new to it, none of its turns and no compaction of it is unfinished, the agent is ready, its
      version executable and the ids are unused. The turn carries the next number, the call's input
      and key, and points at a new pending run. Otherwise nothing changes, and a refusal names a
      reason that holds. */
  lemma CreatesExactly(history: seq<Command>, cmd: Command) returns (n: nat)
    requires cmd.CreateTurn?
    ensures var s := After(history);
      var (s', o) := Step(s, cmd);
      var c := cmd.conversation;
      && (o.Done? <==> TurnWelcome(s, cmd))
      && (o.Refused? ==> TurnRefusable(s, cmd, o.why))
      && (!o.Done? ==> s' == s)
      && (o.Done? ==>
            && o.row == cmd.turn && (forall k: nat :: k in SequencesOf(s.turns, c) <==> 1 <= k < n)
            && s' == Tables(
                 s.conversations[c := s.conversations[c].(lastTurn := Some(cmd.turn), revision := s.conversations[c].revision + 1)],
                 s.turns[cmd.turn := Turn(c, n, cmd.userInput, cmd.task, cmd.run, View(TurnQueued, None, "{}", None), cmd.key, 1)],
                 s.runs[cmd.run := Run(Pending, cmd.task, 1, None, None, None, "{}", 1)],
                 s.tasks[cmd.task := Task(TaskRunning, None)]))
  {
    hide *;
    var s := After(history);
    Reachable(history);
    TurnStep(s, cmd);
    n := 0;
    if Step(s, cmd).1.Done? {
      CreatedRows(s, cmd);
      var last := TurnsAreNumbered(history, cmd.conversation);
      NumberedMax(s, cmd.conversation, last);
      n := last + 1;
    }
  }

  lemma NumberedMax(s: Tables, c: Id, n: nat)
    requires forall k: nat :: k in SequencesOf(s.turns, c) <==> 1 <= k <= n
    ensures MaxSequence(s.turns, c) == n
  {
    var m := MaxSequence(s.turns, c);
    assert IsMaxSequence(s.turns, c, m);
    if m > 0 { assert m in SequencesOf(s.turns, c); }
    if n > 0 { assert n in SequencesOf(s.turns, c); }
  }

  /** A key that already names a turn of an active conversation never makes another one: the call
      changes nothing and is answered with that turn if it sends the same input, and refused if not. */
  lemma TurnReplaysExactly(history: seq<Command>, cmd: Command, t: Id)
    requires cmd.CreateTurn?
    requires var s := After(history);
      && cmd.conversation in s.conversations && s.conversations[cmd.conversation].status == ConversationActive
      && t in s.turns && s.turns[t].conversation == cmd.conversation && s.turns[t].key == cmd.key
    ensures var s := After(history);
      var (s', o) := Step(s, cmd);
      && s' == s
      && (o == Replayed(t) <==> s.turns[t].userInput == cmd.userInput)
      && (o == Refused(KeyReused) <==> s.turns[t].userInput != cmd.userInput)
  {
    hide *;
    var s := After(history);
    Reachable(history);
    KeyedTurn(s, cmd.conversation, cmd.key, t);
    ReplayStep(s, cmd, t);
  }

  lemma KeyedTurn(s: Tables, c: Id, key: string, t: Id)
    requires Inv(s) && t in s.turns && s.turns[t].conversation == c && s.turns[t].key == key
    ensures WithKey(s.turns, c, key) != {} && Keyed(WithKey(s.turns, c, key)) == t
  {
    assert t in WithKey(s.turns, c, key);
    var other := Keyed(WithKey(s.turns, c, key));
    assert other == t || Apart(s.turns[other], s.turns[t]);
  }

  lemma ReplayStep(s: Tables, cmd: Command, t: Id)
    requires cmd.CreateTurn? && cmd.conversation in s.conversations && s.conversations[cmd.conversation].status == ConversationActive
    requires WithKey(s.turns, cmd.conversation, cmd.key) != {} && Keyed(WithKey(s.turns, cmd.conversation, cmd.key)) == t
    ensures var (s', o) := Step(s, cmd);
      && s' == s && t in s.turns
      && o == if s.turns[t].userInput == cmd.userInput then Replayed(t) else Refused(KeyReused)
  {
    hide RunActive, CompactionActive;
  }

  // ----- turn rows keep what the call said -----

  ghost predicate TurnsKept(s: Tables, s': Tables) {
    forall t :: t in s.turns ==>
      && t in s'.turns && s'.turns[t].conversation == s.turns[t].conversation && s'.turns[t].sequence == s.turns[t].sequence
      && s'.turns[t].userInput == s.turns[t].userInput && s'.turns[t].key == s.turns[t].key && s'.turns[t].task == s.turns[t].task
  }

  lemma StepKeepsTurns(s: Tables, cmd: Command)
    ensures TurnsKept(s, Step(s, cmd).0)
  {
    hide *;
    if cmd.CreateTurn? {
      CreateTurnMeans(s, cmd);
      var row := Turn(cmd.conversation, MaxSequence(s.turns, cmd.conversation) + 1, cmd.userInput, cmd.task, cmd.run, QUEUED, cmd.key, 1);
      if Step(s, cmd).0 == s { SameKept(s); } else { CreatedKept(s, Step(s, cmd).0, cmd.turn, row); }
    } else if cmd.RetryTurn? {
      RetryMeans(s, cmd);
      if Step(s, cmd).0 == s { SameKept(s); } else { RetriedKept(s, Step(s, cmd).0, cmd.turn, cmd.newRun); }
    } else if cmd.UpdateRun? {
      UpdatedKept(s, cmd);
    } else {
      NotATurnWrite(cmd);
      CalmStep(s, cmd);
      CalmKept(s, Step(s, cmd).0);
    }
  }

  lemma SameKept(s: Tables)
    ensures TurnsKept(s, s)
  {}

  lemma CreatedKept(s: Tables, s': Tables, turn: Id, row: Turn)
    requires TurnCreated(s, s', turn, row)
    ensures TurnsKept(s, s')
  {
    hide RunActive, CompactionActive, WithKey, IsMaxSequence, NewRun;
  }

  lemma RetriedKept(s: Tables, s': Tables, t: Id, newRun: Id)
    requires TurnRetried(s, s', t, newRun)
    ensures TurnsKept(s, s')
  {
    hide IsMaxAttempt, NewRun;
  }

  lemma UpdatedKept(s: Tables, cmd: Command)
    requires cmd.UpdateRun?
    ensures TurnsKept(s, Step(s, cmd).0)
  {
    hide Projection, RunMayMove;
  }

  lemma CalmKept(s: Tables, s': Tables)
    requires Calm(s, s')
    ensures TurnsKept(s, s')
  {
    hide NewLink;
  }

  lemma {:induction false} KeptForGood(history: seq<Command>, later: seq<Command>)
    ensures TurnsKept(After(history), After(history + later))
    decreases |later|
  {
    if later == [] {
      assert history + later == history;
      SameKept(After(history));
    } else {
      var n := |later| - 1;
      assert history + later == (history + later[..n]) + [later[n]];
      hide *;
      KeptForGood(history, later[..n]);
      AfterStep(history + later[..n], later[n]);
      StepKeepsTurns(After(history + later[..n]), later[n]);
      KeptTwice(After(history), After(history + later[..n]), After(history + later));
    }
  }

  lemma KeptTwice(s: Tables, t: Tables, u: Tables)
    requires TurnsKept(s, t) && TurnsKept(t, u)
    ensures TurnsKept(s, u)
  {}

  /** A call that queued a turn and is sent again, whatever came in between and whatever ids and
      readiness it comes with, is answered with that turn while the conversation is active, and the
      turn still carries the call's input and key. */
  lemma ResentTurnIsReplayed(history: seq<Command>, cmd: Command, later: seq<Command>, again: Command)
    requires cmd.CreateTurn? && again.CreateTurn? && Step(After(history), cmd).1.Done?
    requires again.conversation == cmd.conversation && again.userInput == cmd.userInput && again.key == cmd.key
    requires var s := After(history + [cmd] + later);
      cmd.conversation in s.conversations && s.conversations[cmd.conversation].status == ConversationActive
    ensures var s := After(history + [cmd] + later);
      && Step(s, again) == (s, Replayed(cmd.turn))
      && cmd.turn in s.turns && s.turns[cmd.turn].conversation == cmd.conversation
      && s.turns[cmd.turn].userInput == cmd.userInput && s.turns[cmd.turn].key == cmd.key
  {
    hide *;
    CreatedRows(After(history), cmd);
    AfterStep(history, cmd);
    KeptForGood(history + [cmd], later);
    RowKept(After(history + [cmd]), After(history + [cmd] + later), cmd.turn);
    TurnReplaysExactly(history + [cmd] + later, again, cmd.turn);
    StepIsPair(After(history + [cmd] + later), again);
  }

  lemma StepIsPair(s: Tables, cmd: Command)
    ensures Step(s, cmd) == (Step(s, cmd).0, Step(s, cmd).1)
  {
    hide Step;
  }

  lemma RowKept(s: Tables, s': Tables, t: Id)
    requires TurnsKept(s, s') && t in s.turns
    ensures t in s'.turns && s'.turns[t].conversation == s.turns[t].conversation
    ensures s'.turns[t].userInput == s.turns[t].userInput && s'.turns[t].key == s.turns[t].key
  {}

  // ----- retry_turn -----

  /** What makes `retry_turn` refuse. */
  ghost predicate RetryRefusable(s: Tables, cmd: Command, why: Refusal)
    requires cmd.RetryTurn?
  {
    var t := cmd.turn;
    if t !in s.turns then why == NotFound
    else
      var turn := s.turns[t];
      match why
      case Archived => turn.conversation in s.conversations && s.conversations[turn.conversation].status == ConversationArchived
      case NotLatest => exists x :: x in s.turns && s.turns[x].conversation == turn.conversation && s.turns[x].sequence > turn.sequence
      case RunChanged => turn.run != cmd.expectedRun
      case RevisionMismatch => turn.run in s.runs && s.runs[turn.run].revision != cmd.expectedRevision
      case NotRetryable => turn.run in s.runs && s.runs[turn.run].status !in {Failed, TimedOut}
      case AgentNotReady => !cmd.ready.agentReady
      case VersionUnavailable => !cmd.ready.versionExecutable
      case TaskNotRunnable => turn.task in s.tasks && s.tasks[turn.task].status !in {TaskRunning, TaskFailed}
      case IdTaken => cmd.newRun in s.runs
      case _ => false
  }

  /** After any history `retry_turn` goes through exactly under its guards; the turn then points at a
      new pending run, one attempt above every earlier run of its task and linked to the run it
      replaces, and nothing else changes but its task, which runs again, and two revisions. A refusal
      changes nothing and names a reason that holds. */
  lemma RetriesExactly(history: seq<Command>, cmd: Command) returns (n: nat)
    requires cmd.RetryTurn?
    ensures var s := After(history);
      var (s', o) := Step(s, cmd);
      && (o == Done(cmd.newRun) <==> MayRetryTurn(s, cmd.turn, cmd.newRun, cmd.expectedRun, cmd.expectedRevision, cmd.ready))
      && (o != Done(cmd.newRun) ==> s' == s && o.Refused? && RetryRefusable(s, cmd, o.why))
      && (o == Done(cmd.newRun) ==>
            var turn := s.turns[cmd.turn];
            && (forall r :: r in s.runs && s.runs[r].task == turn.task ==> s.runs[r].attempt <= n)
            && (exists r :: r in s.runs && s.runs[r].task == turn.task && s.runs[r].attempt == n)
            && s' == Tables(
                 s.conversations[turn.conversation :=
                   s.conversations[turn.conversation].(revision := s.conversations[turn.conversation].revision + 1)],
                 s.turns[cmd.turn := turn.(run := cmd.newRun, view := View(TurnQueued, None, "{}", None), revision := turn.revision + 1)],
                 s.runs[cmd.newRun := Run(Pending, turn.task, n + 1, Some(cmd.expectedRun), None, None, "{}", 1)],
                 s.tasks[turn.task := s.tasks[turn.task].(status := TaskRunning)]))
  {
    hide *;
    var s := After(history);
    Reachable(history);
    RetryAnswers(s, cmd);
    RetryMeans(s, cmd);
    n := 0;
    if Step(s, cmd).1.Done? {
      n := RetryRowsExactly(s, cmd);
    } else {
      RetryReasons(s, cmd);
    }
  }

  lemma RetryRowsExactly(s: Tables, cmd: Command) returns (n: nat)
    requires Inv(s) && cmd.RetryTurn? && Step(s, cmd).1.Done?
    requires MayRetryTurn(s, cmd.turn, cmd.newRun, cmd.expectedRun, cmd.expectedRevision, cmd.ready)
    ensures cmd.turn in s.turns && s.turns[cmd.turn].conversation in s.conversations && s.turns[cmd.turn].task in s.tasks
    ensures var (s', o) := Step(s, cmd);
      var turn := s.turns[cmd.turn];
      && o == Done(cmd.newRun)
      && (forall r :: r in s.runs && s.runs[r].task == turn.task ==> s.runs[r].attempt <= n)
      && (exists r :: r in s.runs && s.runs[r].task == turn.task && s.runs[r].attempt == n)
      && s' == Tables(
           s.conversations[turn.conversation :=
             s.conversations[turn.conversation].(revision := s.conversations[turn.conversation].revision + 1)],
           s.turns[cmd.turn := turn.(run := cmd.newRun, view := View(TurnQueued, None, "{}", None), revision := turn.revision + 1)],
           s.runs[cmd.newRun := Run(Pending, turn.task, n + 1, Some(cmd.expectedRun), None, None, "{}", 1)],
           s.tasks[turn.task := s.tasks[turn.task].(status := TaskRunning)])
  {
    hide *;
    RetryTables(s, cmd);
    n := MaxAttempt(s.runs, s.turns[cmd.turn].task);
    AttemptIs(s, cmd.turn);
  }

  /** The greatest attempt of a turn's task belongs to one of its runs. */
  lemma AttemptIs(s: Tables, t: Id)
    requires Inv(s) && t in s.turns
    ensures var n := MaxAttempt(s.runs, s.turns[t].task);
      && (forall r :: r in s.runs && s.runs[r].task == s.turns[t].task ==> s.runs[r].attempt <= n)
      && (exists r :: r in s.runs && s.runs[r].task == s.turns[t].task && s.runs[r].attempt == n)
  {
    var n := MaxAttempt(s.runs, s.turns[t].task);
    assert TurnRow(s, s.turns[t]);
    assert s.runs[s.turns[t].run].attempt <= n;
    if n == 0 { assert s.runs[s.turns[t].run].attempt == 0; }
    hide Inv, MaxAttempt;
  }

  lemma RetryTables(s: Tables, cmd: Command)
    requires cmd.RetryTurn? && Step(s, cmd).1.Done?
    ensures cmd.turn in s.turns && s.turns[cmd.turn].conversation in s.conversations && s.turns[cmd.turn].task in s.tasks
    ensures var (s', o) := Step(s, cmd);
      var turn := s.turns[cmd.turn];
      && o == Done(cmd.newRun)
      && s' == Tables(
           s.conversations[turn.conversation :=
             s.conversations[turn.conversation].(revision := s.conversations[turn.conversation].revision + 1)],
           s.turns[cmd.turn := turn.(run := cmd.newRun, view := View(TurnQueued, None, "{}", None), revision := turn.revision + 1)],
           s.runs[cmd.newRun := Run(Pending, turn.task, MaxAttempt(s.runs, turn.task) + 1, Some(cmd.expectedRun), None, None, "{}", 1)],
           s.tasks[turn.task := s.tasks[turn.task].(status := TaskRunning)])
  {
    hide MaxAttempt;
  }

  lemma RetryReasons(s: Tables, cmd: Command)
    requires Inv(s) && cmd.RetryTurn? && Step(s, cmd).1.Refused?
    ensures RetryRefusable(s, cmd, Step(s, cmd).1.why)
  {
    hide *;
    if cmd.turn in s.turns {
      LatestIsLast(s, cmd.turn);
      RetryRefused(s, cmd);
    } else {
      RetryUnknown(s, cmd);
    }
  }

  lemma RetryUnknown(s: Tables, cmd: Command)
    requires cmd.RetryTurn? && cmd.turn !in s.turns
    ensures Step(s, cmd).1 == Refused(NotFound) && RetryRefusable(s, cmd, NotFound)
  {
    hide MaxAttempt;
  }

  lemma LatestIsLast(s: Tables, t: Id)
    requires Inv(s) && t in s.turns
    ensures var turn := s.turns[t];
      && turn.conversation in s.conversations && turn.run in s.runs && turn.task in s.tasks
      && (s.conversations[turn.conversation].lastTurn != Some(t) ==>
            exists x :: x in s.turns && s.turns[x].conversation == turn.conversation && s.turns[x].sequence > turn.sequence)
  {
    var turn := s.turns[t];
    assert TurnRow(s, turn);
    assert PointsAtLast(s.turns, turn.conversation, s.conversations[turn.conversation].lastTurn);
    var last := s.conversations[turn.conversation].lastTurn;
    if last != Some(t) { assert Apart(s.turns[last.value], turn); }
    hide Inv;
  }

  lemma RetryRefused(s: Tables, cmd: Command)
    requires cmd.RetryTurn? && cmd.turn in s.turns && Step(s, cmd).1.Refused?
    requires var turn := s.turns[cmd.turn];
      && turn.conversation in s.conversations && turn.run in s.runs && turn.task in s.tasks
      && (s.conversations[turn.conversation].lastTurn != Some(cmd.turn) ==>
            exists x :: x in s.turns && s.turns[x].conversation == turn.conversation && s.turns[x].sequence > turn.sequence)
    ensures RetryRefusable(s, cmd, Step(s, cmd).1.why)
  {
    hide MaxAttempt, NewRun;
  }

  // ----- patch and compact -----

  /** After any history a patch goes through if and only if it names the current revision, does not
      bring an archived conversation back, and does not archive one with an unfinished turn. */
  lemma PatchesExactly(history: seq<Command>, c: Id, expectedRevision: nat, status: Option<ConversationStatus>)
    ensures var s := After(history);
      var (s', o) := Step(s, Patch(c, expectedRevision, status));
      && (o.Done? <==>
            && c in s.conversations && s.conversations[c].revision == expectedRevision
            && !(status == Some(ConversationActive) && s.conversations[c].status == ConversationArchived)
            && !(status == Some(ConversationArchived) && TurnGoing(s, c)))
      && (o.Done? ==>
            s' == s.(conversations := s.conversations[c := s.conversations[c].(
                       status := if status.Some? then status.value else s.conversations[c].status, revision := expectedRevision + 1)]))
      && (!o.Done? ==> s' == s)
  {
    Reachable(history);
    var s := After(history);
    if c in s.conversations { ActiveExactly(s, c); }
    hide After, Inv, RunActive, CompactionActive, TurnGoing, CompactionGoing;
  }

  /** Some turn of the conversation beyond its summary is completed. */
  ghost predicate SomethingToCover(s: Tables, c: Id)
    requires c in s.conversations
  {
    exists t :: t in s.turns && s.turns[t].conversation == c && s.turns[t].sequence > s.conversations[c].summaryThrough
                && s.turns[t].run in s.runs && s.runs[s.turns[t].run].status == Completed
  }

  ghost predicate MarkerTaken(s: Tables, c: Id, key: string) {
    exists t :: t in s.tasks && s.tasks[t].compacts.Some? && s.tasks[t].compacts.value.conversation == c
                && s.tasks[t].compacts.value.key == key
  }

  lemma MarkerTakenExactly(s: Tables, c: Id, key: string)
    ensures Markers(s.tasks, c, key) != {} <==> MarkerTaken(s, c, key)
  {
    if MarkerTaken(s, c, key) {
      var t :| t in s.tasks && s.tasks[t].compacts.Some? && s.tasks[t].compacts.value.conversation == c
               && s.tasks[t].compacts.value.key == key;
      assert t in Markers(s.tasks, c, key);
    }
    if Markers(s.tasks, c, key) != {} {
      var t :| t in Markers(s.tasks, c, key);
    }
  }

  lemma CompactableExactly(s: Tables, c: Id)
    requires Inv(s) && c in s.conversations
    ensures Compactable(s, c) <==> SomethingToCover(s, c)
  {
    forall t | t in s.turns
      ensures s.turns[t].run in s.runs && (s.turns[t].view.status == TurnCompleted <==> s.runs[s.turns[t].run].status == Completed)
    {
      assert TurnRow(s, s.turns[t]) && Mirrored(s.turns, s.runs);
    }
    hide Inv;
  }

  /** After any history `compact` queues a compaction if and only if the conversation is active, the
      key is new, none of its turns and no compaction of it is unfinished, and a completed turn is not
      covered yet. The compaction then covers the turns up to the last completed one. */
  lemma CompactsExactly(history: seq<Command>, c: Id, task: Id, run: Id, key: string) returns (n: nat)
    ensures var s := After(history);
      var (s', o) := Step(s, Compact(c, task, run, key));
      && (o.Done? <==>
            && c in s.conversations && s.conversations[c].status == ConversationActive && !MarkerTaken(s, c, key)
            && !TurnGoing(s, c) && !CompactionGoing(s, c) && SomethingToCover(s, c) && task !in s.tasks && run !in s.runs)
      && (o.Done? ==>
            && s' == s.(runs := s.runs[run := Run(Pending, task, 1, None, None, None, "{}", 1)],
                        tasks := s.tasks[task := Task(TaskRunning, Some(Marker(c, key, n)))])
            && Covered(s, c, n) && n > s.conversations[c].summaryThrough
            && (forall k: nat :: k > n ==> !Covered(s, c, k)))
      && (!o.Done? ==> s' == s)
  {
    hide *;
    Reachable(history);
    var s := After(history);
    if c in s.conversations {
      ActiveExactly(s, c);
      CompactableExactly(s, c);
      MarkerTakenExactly(s, c, key);
      NewMarkerCovered(s, c);
      CoversMost(s, c);
      LastIsBeyond(s, c);
    }
    n := LastCompleted(s.turns, c);
    CompactStepExactly(s, c, task, run, key);
  }

  lemma CompactStepExactly(s: Tables, c: Id, task: Id, run: Id, key: string)
    ensures var (s', o) := Step(s, Compact(c, task, run, key));
      && (o.Done? <==>
            && c in s.conversations && s.conversations[c].status == ConversationActive && Markers(s.tasks, c, key) == {}
            && !RunActive(s, c) && !CompactionActive(s, c) && Compactable(s, c) && task !in s.tasks && run !in s.runs)
      && (o.Done? ==>
            s' == s.(runs := s.runs[run := Run(Pending, task, 1, None, None, None, "{}", 1)],
                     tasks := s.tasks[task := Task(TaskRunning, Some(Marker(c, key, LastCompleted(s.turns, c))))]))
      && (!o.Done? ==> s' == s)
  {
    hide RunActive, CompactionActive, Compactable, LastCompleted, Markers;
  }

  lemma CoversMost(s: Tables, c: Id)
    requires Inv(s)
    ensures forall k: nat :: k > LastCompleted(s.turns, c) ==> !Covered(s, c, k)
  {
    var n := LastCompleted(s.turns, c);
    assert IsMaxSequence(CompletedTurns(s.turns), c, n);
    forall t, k: nat | CompletedAt(s, t, c, k) ensures k <= n {
      assert Mirrored(s.turns, s.runs);
      assert t in CompletedTurns(s.turns);
    }
    hide Inv, CompletedAt, LastCompleted, IsMaxSequence;
  }

  lemma LastIsBeyond(s: Tables, c: Id)
    requires Inv(s) && c in s.conversations
    ensures SomethingToCover(s, c) ==> LastCompleted(s.turns, c) > s.conversations[c].summaryThrough
  {
    var n := LastCompleted(s.turns, c);
    assert IsMaxSequence(CompletedTurns(s.turns), c, n);
    if SomethingToCover(s, c) {
      var t :| t in s.turns && s.turns[t].conversation == c && s.turns[t].sequence > s.conversations[c].summaryThrough
               && s.turns[t].run in s.runs && s.runs[s.turns[t].run].status == Completed;
      assert Mirrored(s.turns, s.runs);
      assert t in CompletedTurns(s.turns);
    }
    hide Inv, LastCompleted;
  }

  // ----- a compaction that is asked for again -----

  lemma {:induction false} MarkersForGood(history: seq<Command>, later: seq<Command>, t: Id)
    requires t in After(history).tasks && After(history).tasks[t].compacts.Some?
    ensures var s, s' := After(history), After(history + later); t in s'.tasks && s'.tasks[t].compacts == s.tasks[t].compacts
    decreases |later|
  {
    if later == [] {
      assert history + later == history;
    } else {
      var n := |later| - 1;
      assert history + later == (history + later[..n]) + [later[n]];
      hide *;
      MarkersForGood(history, later[..n], t);
      AfterStep(history + later[..n], later[n]);
      MarkerKept(After(history + later[..n]), later[n], t);
    }
  }

  lemma MarkerKept(s: Tables, cmd: Command, t: Id)
    requires t in s.tasks
    ensures t in Step(s, cmd).0.tasks && Step(s, cmd).0.tasks[t].compacts == s.tasks[t].compacts
  {
    if cmd.Compact? {
      CompactMeans(s, cmd);
    } else {
      NoNewMarkers(s, cmd);
    }
    hide Step, RunActive, LastCompleted;
  }

  /** A call that queued a compaction and is sent again, any steps later while the conversation is
      active, is answered with the compaction task it queued, and nothing changes. */
  lemma ResentCompactionIsReplayed(history: seq<Command>, c: Id, task: Id, run: Id, key: string, later: seq<Command>,
                                   task': Id, run': Id)
    requires Step(After(history), Compact(c, task, run, key)).1.Done?
    requires var s := After(history + [Compact(c, task, run, key)] + later);
      c in s.conversations && s.conversations[c].status == ConversationActive
    ensures var s := After(history + [Compact(c, task, run, key)] + later);
      Step(s, Compact(c, task', run', key)) == (s, Replayed(task))
  {
    hide *;
    var cmd := Compact(c, task, run, key);
    var n := CompactsExactly(history, c, task, run, key);
    AfterStep(history, cmd);
    MarkersForGood(history + [cmd], later, task);
    AlwaysSummarised(history + [cmd] + later);
    MarkedReplays(After(history + [cmd] + later), c, task, key, task', run');
  }

  lemma MarkedReplays(s: Tables, c: Id, task: Id, key: string, task': Id, run': Id)
    requires Summarised(s) && c in s.conversations && s.conversations[c].status == ConversationActive
    requires task in s.tasks && s.tasks[task].compacts.Some? && s.tasks[task].compacts.value.conversation == c
    requires s.tasks[task].compacts.value.key == key
    ensures Step(s, Compact(c, task', run', key)) == (s, Replayed(task))
  {
    assert task in Markers(s.tasks, c, key);
    assert Keyed(Markers(s.tasks, c, key)) == task;
    hide Summarised, RunActive, CompactionActive, Compactable, LastCompleted;
  }

  // ----- further runs of a task -----

  /** A run that is not a turn's: pending, one attempt above every earlier run of its task. */
  ghost predicate RunAdded(s: Tables, s': Tables, id: Id, task: Id, retryOf: Option<Id>) {
    && s' == s.(runs := s'.runs, tasks := s'.tasks) && id in s'.runs && s'.runs == s.runs[id := s'.runs[id]]
    && s'.runs[id].status == Pending && s'.runs[id].task == task && s'.runs[id].retryOf == retryOf
    && s'.runs[id].result == None && s'.runs[id].error == None && s'.runs[id].attempt >= 1
    && (forall r :: r in s.runs && s.runs[r].task == task ==> s.runs[r].attempt < s'.runs[id].attempt)
    && (s'.runs[id].attempt > 1 ==> exists r :: r in s.runs && s.runs[r].task == task && s.runs[r].attempt == s'.runs[id].attempt - 1)
    && task in s'.tasks && s'.tasks[task].status == TaskRunning && s'.tasks == s.tasks[task := s'.tasks[task]]
    && (task in s.tasks ==> s'.tasks[task].compacts == s.tasks[task].compacts)
    && (task !in s.tasks ==> s'.tasks[task].compacts == None)
  }

  /** The control plane retries a run exactly under its guards, never one of a turn, and starts a further
      run exactly for a task that is assigned, sent back or new; turns and conversations stay. */
  lemma RunsStartExactly(s: Tables, id: Id, previous: Id, task: Id, ready: Readiness)
    ensures var (s', o) := Step(s, RetryRun(id, previous, ready));
      && (o == Done(id) <==> MayRetryRun(s, id, previous, ready))
      && (o == Done(id) ==> RunAdded(s, s', id, s.runs[previous].task, Some(previous)))
      && (o != Done(id) ==> s' == s)
    ensures var (s', o) := Step(s, OtherRun(id, task, ready));
      && (o == Done(id) <==>
            && id !in s.runs && ready.agentReady && ready.versionExecutable
            && (task in s.tasks ==> s.tasks[task].status in {TaskAssigned, TaskRevisionRequired}))
      && (o == Done(id) ==> RunAdded(s, s', id, task, None))
      && (o != Done(id) ==> s' == s)
  {
    RetryRunAdds(s, id, previous, ready);
    OtherRunAdds(s, id, task, ready);
    hide RunAdded, RetryRunStep, OtherRunStep, MayRetryRun;
  }

  lemma RetryRunAdds(s: Tables, id: Id, previous: Id, ready: Readiness)
    ensures var (s', o) := RetryRunStep(s, id, previous, ready);
      && (o == Done(id) <==> MayRetryRun(s, id, previous, ready))
      && (o == Done(id) ==> RunAdded(s, s', id, s.runs[previous].task, Some(previous)))
      && (o != Done(id) ==> s' == s)
  {
    if RetryRunStep(s, id, previous, ready).1.Done? {
      assert IsMaxAttempt(s.runs, s.runs[previous].task, MaxAttempt(s.runs, s.runs[previous].task));
    }
  }

  lemma OtherRunAdds(s: Tables, id: Id, task: Id, ready: Readiness)
    ensures var (s', o) := OtherRunStep(s, id, task, ready);
      && (o == Done(id) <==>
            && id !in s.runs && ready.agentReady && ready.versionExecutable
            && (task in s.tasks ==> s.tasks[task].status in {TaskAssigned, TaskRevisionRequired}))
      && (o == Done(id) ==> RunAdded(s, s', id, task, None))
      && (o != Done(id) ==> s' == s)
  {
    assert IsMaxAttempt(s.runs, task, MaxAttempt(s.runs, task));
  }

  /** Any other writer moves a run along its table, or ends it, and the trigger shows it on the turn that
      points at it; a task moves along its table, is cancelled with its tree, or completed by its run. */
  lemma WritersMoveExactly(s: Tables, id: Id, status: RunStatus, result: Option<string>, error: Option<string>, cost: string, taskStatus: TaskStatus)
    ensures var (s', o) := Step(s, UpdateRun(id, status, result, error, cost));
      var ok := id in s.runs && (status == s.runs[id].status || status in RunTargets(s.runs[id].status)
                                 || (s.runs[id].status !in {Completed, Failed, Cancelled, TimedOut} && status in {Completed, Failed, Cancelled, TimedOut}));
      && (ok ==>
            && o == Done(id)
            && s' == s.(turns := s'.turns, runs := s.runs[id := s.runs[id].(status := status, result := result, error := error, cost := cost,
                                                                            revision := s.runs[id].revision + 1)])
            && s'.turns.Keys == s.turns.Keys && forall t :: t in s.turns && s.turns[t].run != id ==> s'.turns[t] == s.turns[t])
      && (!ok ==> s' == s && o.Refused?)
    ensures var (s', o) := Step(s, UpdateTask(id, taskStatus));
      var ok := id in s.tasks && (taskStatus in TaskTargets(s.tasks[id].status)
                                  || (taskStatus == TaskCancelled && s.tasks[id].status in {TaskWaitingForReview, TaskRevisionRequired})
                                  || (taskStatus == TaskCompleted && s.tasks[id].status == TaskRunning));
      && (ok ==> o == Done(id) && s' == s.(tasks := s.tasks[id := s.tasks[id].(status := taskStatus)]))
      && (!ok ==> s' == s && o.Refused?)
  {
    hide RunTargets, TaskTargets, Projection;
  }
}
