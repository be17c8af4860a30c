/** Conversations, their turns and the runs behind them: one atomic step per transaction, with the
    database trigger that projects a run onto its turn. */
module Conversations {
  import opened Foundation
  import opened RunStates

  datatype ConversationStatus = ConversationActive | ConversationArchived

  datatype Conversation = Conversation(
    status: ConversationStatus, lastTurn: Option<Id>, summaryThrough: nat, revision: nat)

  datatype TurnStatus = TurnQueued | TurnRunning | TurnWaitingForApproval | TurnCompleted | TurnFailed | TurnCancelled

  /** The columns the trigger maintains. */
  datatype View = View(status: TurnStatus, output: Option<string>, usage: string, error: Option<string>)

  datatype Turn = Turn(
    conversation: Id, sequence: nat, userInput: string, task: Id, run: Id, view: View, key: string, revision: nat)

  datatype Run = Run(
    status: RunStatus, task: Id, attempt: nat, retryOf: Option<Id>,
    result: Option<string>, error: Option<string>, cost: string, revision: nat)

  /** What a compaction task was queued for: it covers the turns up to `through`. */
  datatype Marker = Marker(conversation: Id, key: string, through: nat)

  datatype Task = Task(status: TaskStatus, compacts: Option<Marker>)

  datatype Tables = Tables(
    conversations: map<Id, Conversation>, turns: map<Id, Turn>, runs: map<Id, Run>, tasks: map<Id, Task>)

  const NO_ROWS := Tables(map[], map[], map[], map[])

  const NO_USAGE := "{}"

  // ----- the projection trigger -----

  function ProjectedStatus(status: RunStatus): (t: TurnStatus) {
    match status
    case Pending => TurnQueued
    case WaitingForApproval => TurnWaitingForApproval
    case Completed => TurnCompleted
    case Failed => TurnFailed
    case TimedOut => TurnFailed
    case Cancelled => TurnCancelled
    case _ => TurnRunning
  }

  function Projection(run: Run): (v: View) {
    View(ProjectedStatus(run.status), run.result, run.cost, run.error)
  }

  /** `project_conversation_turn_from_run`: rows pointing at the run and differing are rewritten. */
  function Projected(turns: map<Id, Turn>, r: Id, run: Run): (turns': map<Id, Turn>) {
    map t | t in turns ::
      if turns[t].run == r && turns[t].view != Projection(run)
      then turns[t].(view := Projection(run), revision := turns[t].revision + 1)
      else turns[t]
  }

  // ----- queries -----

  function TurnsOf(turns: map<Id, Turn>, c: Id): (s: set<Id>) {
    set t | t in turns && turns[t].conversation == c
  }

  function WithKey(turns: map<Id, Turn>, c: Id, key: string): (s: set<Id>) {
    set t | t in turns && turns[t].conversation == c && turns[t].key == key
  }

  /** `max(sequence)`, 0 without turns. */
  predicate IsMaxSequence(turns: map<Id, Turn>, c: Id, n: nat) {
    && (forall t :: t in turns && turns[t].conversation == c ==> turns[t].sequence <= n)
    && (n == 0 || exists t :: t in turns && turns[t].conversation == c && turns[t].sequence == n)
  }

  /** `max(attempt)` over the runs of one task. */
  predicate IsMaxAttempt(runs: map<Id, Run>, task: Id, n: nat) {
    && (forall r :: r in runs && runs[r].task == task ==> runs[r].attempt <= n)
    && (n == 0 || exists r :: r in runs && runs[r].task == task && runs[r].attempt == n)
  }

  /** `_last_run`: the run of the turn the conversation points at. */
  function LastRun(s: Tables, c: Id): (r: Option<Id>) {
    if c in s.conversations && s.conversations[c].lastTurn.Some? && s.conversations[c].lastTurn.value in s.turns
       && s.turns[s.conversations[c].lastTurn.value].run in s.runs
    then Some(s.turns[s.conversations[c].lastTurn.value].run) else None
  }

  /** The last turn's run is still going. */
  predicate RunActive(s: Tables, c: Id) {
    LastRun(s, c).Some? && LastRun(s, c).value in s.runs && !Terminal(s.runs[LastRun(s, c).value].status)
  }

  /** `_active_compaction` */
  predicate CompactionActive(s: Tables, c: Id) {
    exists r :: r in s.runs && Compacts(s, r, c) && !Terminal(s.runs[r].status)
  }

  predicate Compacts(s: Tables, r: Id, c: Id)
    requires r in s.runs
  {
    s.runs[r].task in s.tasks && s.tasks[s.runs[r].task].compacts.Some? && s.tasks[s.runs[r].task].compacts.value.conversation == c
  }

  /** Compaction tasks of the conversation that were queued under this key. */
  function Markers(tasks: map<Id, Task>, c: Id, key: string): (s: set<Id>) {
    set t | t in tasks && tasks[t].compacts.Some? && tasks[t].compacts.value.conversation == c && tasks[t].compacts.value.key == key
  }

  function CompletedTurns(turns: map<Id, Turn>): (r: map<Id, Turn>) {
    map t | t in turns && turns[t].view.status == TurnCompleted :: turns[t]
  }

  predicate Compactable(s: Tables, c: Id)
    requires c in s.conversations
  {
    exists t :: t in s.turns && s.turns[t].conversation == c && s.turns[t].view.status == TurnCompleted
                && s.turns[t].sequence > s.conversations[c].summaryThrough
  }

  // ----- commands -----

  datatype Refusal =
    | NotFound | Archived | KeyReused | RunIsActive | CompactionIsActive | AgentNotReady | VersionUnavailable
    | NotLatest | RunChanged | RevisionMismatch | NotRetryable | TaskNotRunnable | NotCompactable | InvalidMove | IdTaken
    | TurnRetryRequired

  /** What the agent and its frozen version look like when the call comes in. */
  datatype Readiness = Readiness(agentReady: bool, versionExecutable: bool)

  datatype Command =
    | CreateConversation(id: Id)
    | CreateTurn(conversation: Id, turn: Id, task: Id, run: Id, userInput: string, key: string, ready: Readiness)
    | RetryTurn(turn: Id, newRun: Id, expectedRun: Id, expectedRevision: nat, ready: Readiness)
    | Patch(conversation: Id, expectedRevision: nat, newStatus: Option<ConversationStatus>)
    | Compact(conversation: Id, task: Id, run: Id, key: string)
    | UpdateRun(id: Id, status: RunStatus, result: Option<string>, error: Option<string>, cost: string)
    | UpdateTask(id: Id, taskStatus: TaskStatus)
    | RetryRun(id: Id, previous: Id, ready: Readiness)
    | OtherRun(id: Id, task: Id, ready: Readiness)
    | Summarise(run: Id)

  datatype Outcome = Done(row: Id) | Replayed(row: Id) | Refused(why: Refusal)

  /** The only row with this key (a UNIQUE constraint or a lock allows one). */
  ghost function Keyed(keyed: set<Id>): (t: Id)
    requires keyed != {}
    ensures t in keyed
  {
    var t :| t in keyed; t
  }

  ghost function MaxSequence(turns: map<Id, Turn>, c: Id): (n: nat)
    ensures IsMaxSequence(turns, c, n)
  {
    MaxSequenceExists(turns, c, TurnsOf(turns, c));
    var n: nat :| IsMaxSequence(turns, c, n); n
  }

  /** The sequence of the last completed turn, 0 without one. */
  ghost function LastCompleted(turns: map<Id, Turn>, c: Id): (n: nat) {
    MaxSequence(CompletedTurns(turns), c)
  }

  ghost function MaxAttempt(runs: map<Id, Run>, task: Id): (n: nat)
    ensures IsMaxAttempt(runs, task, n)
  {
    MaxAttemptExists(runs, task, runs.Keys);
    var n: nat :| IsMaxAttempt(runs, task, n); n
  }

  /** A finite table has a greatest value. */
  lemma MaxSequenceExists(turns: map<Id, Turn>, c: Id, among: set<Id>)
    requires among <= TurnsOf(turns, c)
    ensures among == TurnsOf(turns, c) ==> exists n: nat :: IsMaxSequence(turns, c, n)
  {
    var n := MaxSequenceAmong(turns, c, among);
    if among == TurnsOf(turns, c) {
      assert IsMaxSequence(turns, c, n);
    }
  }

  lemma {:induction false} MaxSequenceAmong(turns: map<Id, Turn>, c: Id, among: set<Id>) returns (n: nat)
    requires among <= TurnsOf(turns, c)
    ensures forall t :: t in among ==> turns[t].sequence <= n
    ensures n == 0 || exists t :: t in among && turns[t].sequence == n
    decreases among
  {
    n := 0;
    if among != {} {
      var x :| x in among;
      n := MaxSequenceAmong(turns, c, among - {x});
      if turns[x].sequence > n { n := turns[x].sequence; }
    }
  }

  lemma MaxAttemptExists(runs: map<Id, Run>, task: Id, among: set<Id>)
    requires among <= runs.Keys
    ensures among == runs.Keys ==> exists n: nat :: IsMaxAttempt(runs, task, n)
  {
    var n := MaxAttemptAmong(runs, task, among);
    if among == runs.Keys {
      assert IsMaxAttempt(runs, task, n);
    }
  }

  lemma {:induction false} MaxAttemptAmong(runs: map<Id, Run>, task: Id, among: set<Id>) returns (n: nat)
    requires among <= runs.Keys
    ensures forall r :: r in among && runs[r].task == task ==> runs[r].attempt <= n
    ensures n == 0 || exists r :: r in among && runs[r].task == task && runs[r].attempt == n
    decreases among
  {
    n := 0;
    if among != {} {
      var x :| x in among;
      n := MaxAttemptAmong(runs, task, among - {x});
      if runs[x].task == task && runs[x].attempt > n { n := runs[x].attempt; }
    }
  }

  function NewRun(task: Id, attempt: nat, retryOf: Option<Id>): (r: Run) {
    Run(Pending, task, attempt, retryOf, None, None, NO_USAGE, 1)
  }

  const QUEUED := View(TurnQueued, None, NO_USAGE, None)

  /** `create_turn` */
  ghost function CreateTurnStep(s: Tables, c: Id, turn: Id, task: Id, run: Id, userInput: string, key: string, ready: Readiness)
    : (r: (Tables, Outcome))
  {
    if c !in s.conversations then (s, Refused(NotFound))
    else if s.conversations[c].status != ConversationActive then (s, Refused(Archived))
    else if WithKey(s.turns, c, key) != {} then
      var t := Keyed(WithKey(s.turns, c, key));
      (s, if s.turns[t].userInput != userInput then Refused(KeyReused) else Replayed(t))
    else if RunActive(s, c) then (s, Refused(RunIsActive))
    else if CompactionActive(s, c) then (s, Refused(CompactionIsActive))
    else if !ready.agentReady then (s, Refused(AgentNotReady))
    else if !ready.versionExecutable then (s, Refused(VersionUnavailable))
    else if turn in s.turns || task in s.tasks || run in s.runs then (s, Refused(IdTaken))
    else
      (Tables(
         s.conversations[c := s.conversations[c].(lastTurn := Some(turn), revision := s.conversations[c].revision + 1)],
         s.turns[turn := Turn(c, MaxSequence(s.turns, c) + 1, userInput, task, run, QUEUED, key, 1)],
         s.runs[run := NewRun(task, 1, None)],
         s.tasks[task := Task(TaskRunning, None)]),
       Done(turn))
  }

  /** `retry_turn`; note that it does not look for an active compaction. */
  ghost function RetryTurnStep(s: Tables, t: Id, newRun: Id, expectedRun: Id, expectedRevision: nat, ready: Readiness)
    : (r: (Tables, Outcome))
  {
    if t !in s.turns || s.turns[t].conversation !in s.conversations then (s, Refused(NotFound))
    else
      var turn := s.turns[t];
      var c := turn.conversation;
      if s.conversations[c].status != ConversationActive then (s, Refused(Archived))
      else if s.conversations[c].lastTurn != Some(t) then (s, Refused(NotLatest))
      else if turn.run != expectedRun then (s, Refused(RunChanged))
      else if turn.run !in s.runs then (s, Refused(NotFound))
      else if s.runs[turn.run].revision != expectedRevision then (s, Refused(RevisionMismatch))
      else if s.runs[turn.run].status !in {Failed, TimedOut} then (s, Refused(NotRetryable))
      else if !ready.agentReady then (s, Refused(AgentNotReady))
      else if !ready.versionExecutable then (s, Refused(VersionUnavailable))
      else if turn.task !in s.tasks then (s, Refused(NotFound))
      else if s.tasks[turn.task].status !in {TaskRunning, TaskFailed} then (s, Refused(TaskNotRunnable))
      else if newRun in s.runs then (s, Refused(IdTaken))
      else
        (Tables(
           s.conversations[c := s.conversations[c].(revision := s.conversations[c].revision + 1)],
           s.turns[t := turn.(run := newRun, view := QUEUED, revision := turn.revision + 1)],
           s.runs[newRun := NewRun(turn.task, MaxAttempt(s.runs, turn.task) + 1, Some(turn.run))],
           s.tasks[turn.task := s.tasks[turn.task].(status := TaskRunning)]),
         Done(newRun))
  }

  /** `patch` (the title is not modelled). */
  function PatchStep(s: Tables, c: Id, expectedRevision: nat, status: Option<ConversationStatus>): (r: (Tables, Outcome)) {
    if c !in s.conversations then (s, Refused(NotFound))
    else if s.conversations[c].revision != expectedRevision then (s, Refused(RevisionMismatch))
    else if status.Some? && s.conversations[c].status == ConversationArchived && status.value != ConversationArchived then
      (s, Refused(Archived))
    else if status == Some(ConversationArchived) && RunActive(s, c) then (s, Refused(RunIsActive))
    else
      var row := s.conversations[c].(revision := s.conversations[c].revision + 1);
      (s.(conversations := s.conversations[c := if status.Some? then row.(status := status.value) else row]), Done(c))
  }

  /** `compact`: queues one compaction run, which covers the turns up to the last completed one. */
  ghost function CompactStep(s: Tables, c: Id, task: Id, run: Id, key: string): (r: (Tables, Outcome)) {
    if c !in s.conversations then (s, Refused(NotFound))
    else if s.conversations[c].status != ConversationActive then (s, Refused(Archived))
    else if Markers(s.tasks, c, key) != {} then (s, Replayed(Keyed(Markers(s.tasks, c, key))))
    else if RunActive(s, c) then (s, Refused(RunIsActive))
    else if CompactionActive(s, c) then (s, Refused(CompactionIsActive))
    else if !Compactable(s, c) then (s, Refused(NotCompactable))
    else if task in s.tasks || run in s.runs then (s, Refused(IdTaken))
    else
      (s.(runs := s.runs[run := NewRun(task, 1, None)],
          tasks := s.tasks[task := Task(TaskRunning, Some(Marker(c, key, LastCompleted(s.turns, c))))]),
       Done(run))
  }

  /** Writers move a run along its table, except that the runtime ends an unfinished run from any status. */
  predicate RunMayMove(current: RunStatus, next: RunStatus) {
    MayBecome(current, next) || (!Terminal(current) && Terminal(next))
  }

  /** Any service that writes a run, and the trigger that fires then. Run completion, `transition_run`
      and the tree cancellation behind `cancel_turn` are such writes. */
  function UpdateRunStep(s: Tables, id: Id, status: RunStatus, result: Option<string>, error: Option<string>, cost: string)
    : (r: (Tables, Outcome))
  {
    if id !in s.runs then (s, Refused(NotFound))
    else if !RunMayMove(s.runs[id].status, status) then (s, Refused(InvalidMove))
    else
      var row := s.runs[id].(status := status, result := result, error := error, cost := cost, revision := s.runs[id].revision + 1);
      (s.(runs := s.runs[id := row], turns := Projected(s.turns, id, row)), Done(id))
  }

  /** Writers move a task along its table, with two exceptions: a tree cancellation also cancels a
      task under review or revision, and a finished compaction or delegation completes a running one. */
  predicate TaskMayMove(current: TaskStatus, next: TaskStatus) {
    || next in TaskTargets(current)
    || (next == TaskCancelled && current in {TaskWaitingForReview, TaskRevisionRequired})
    || (next == TaskCompleted && current == TaskRunning)
  }

  function UpdateTaskStep(s: Tables, id: Id, status: TaskStatus): (r: (Tables, Outcome)) {
    if id !in s.tasks then (s, Refused(NotFound))
    else if !TaskMayMove(s.tasks[id].status, status) then (s, Refused(InvalidMove))
    else (s.(tasks := s.tasks[id := s.tasks[id].(status := status)]), Done(id))
  }

  /** `retry_run` of the control plane: it refuses tasks of turns, and no others. */
  ghost function RetryRunStep(s: Tables, id: Id, previous: Id, ready: Readiness): (r: (Tables, Outcome)) {
    if previous !in s.runs then (s, Refused(NotFound))
    else
      var task := s.runs[previous].task;
      if exists t :: t in s.turns && s.turns[t].task == task then (s, Refused(TurnRetryRequired))
      else if s.runs[previous].status !in {Failed, TimedOut} then (s, Refused(NotRetryable))
      else if task !in s.tasks then (s, Refused(NotFound))
      else if s.tasks[task].status !in {TaskRunning, TaskRevisionRequired, TaskFailed} then (s, Refused(TaskNotRunnable))
      else if !ready.agentReady then (s, Refused(AgentNotReady))
      else if !ready.versionExecutable then (s, Refused(VersionUnavailable))
      else if id in s.runs then (s, Refused(IdTaken))
      else (s.(runs := s.runs[id := NewRun(task, MaxAttempt(s.runs, task) + 1, Some(previous))],
               tasks := s.tasks[task := s.tasks[task].(status := TaskRunning)]), Done(id))
  }

  /** Any other run: `create_run` on a task that is assigned or needs revision, or a run with a new
      task of its own, as a delegation makes. It is nobody's turn run. */
  ghost function OtherRunStep(s: Tables, id: Id, task: Id, ready: Readiness): (r: (Tables, Outcome)) {
    if task in s.tasks && s.tasks[task].status !in {TaskAssigned, TaskRevisionRequired} then (s, Refused(TaskNotRunnable))
    else if !ready.agentReady then (s, Refused(AgentNotReady))
    else if !ready.versionExecutable then (s, Refused(VersionUnavailable))
    else if id in s.runs then (s, Refused(IdTaken))
    else (s.(runs := s.runs[id := NewRun(task, MaxAttempt(s.runs, task) + 1, None)],
             tasks := s.tasks[task := if task in s.tasks then s.tasks[task].(status := TaskRunning) else Task(TaskRunning, None)]),
          Done(id))
  }

  /** A completed compaction run writes its summary, unless a summary that reaches further is there. */
  function SummariseStep(s: Tables, run: Id): (r: (Tables, Outcome)) {
    if run !in s.runs || s.runs[run].status != Completed || s.runs[run].task !in s.tasks
       || s.tasks[s.runs[run].task].compacts.None? then (s, Refused(NotCompactable))
    else
      var marker := s.tasks[s.runs[run].task].compacts.value;
      var c := marker.conversation;
      if c !in s.conversations then (s, Refused(NotFound))
      else if marker.through < s.conversations[c].summaryThrough then (s, Done(c))
      else
        (s.(conversations := s.conversations[c := s.conversations[c].(summaryThrough := marker.through,
                                                                      revision := s.conversations[c].revision + 1)]),
         Done(c))
  }

  ghost function Step(s: Tables, c: Command): (r: (Tables, Outcome)) {
    match c
    case CreateConversation(id) =>
      if id in s.conversations then (s, Replayed(id))
      else (s.(conversations := s.conversations[id := Conversation(ConversationActive, None, 0, 1)]), Done(id))
    case CreateTurn(conversation, turn, task, run, userInput, key, ready) =>
      CreateTurnStep(s, conversation, turn, task, run, userInput, key, ready)
    case RetryTurn(turn, newRun, expectedRun, expectedRevision, ready) =>
      RetryTurnStep(s, turn, newRun, expectedRun, expectedRevision, ready)
    case Patch(conversation, expectedRevision, newStatus) => PatchStep(s, conversation, expectedRevision, newStatus)
    case Compact(conversation, task, run, key) => CompactStep(s, conversation, task, run, key)
    case UpdateRun(id, status, result, error, cost) => UpdateRunStep(s, id, status, result, error, cost)
    case UpdateTask(id, taskStatus) => UpdateTaskStep(s, id, taskStatus)
    case RetryRun(id, previous, ready) => RetryRunStep(s, id, previous, ready)
    case OtherRun(id, task, ready) => OtherRunStep(s, id, task, ready)
    case Summarise(run) => SummariseStep(s, run)
  }

  ghost function After(history: seq<Command>): (s: Tables)
    decreases |history|
  {
    if history == [] then NO_ROWS
    else Step(After(history[..|history| - 1]), history[|history| - 1]).0
  }
}
