/** The explicit state machines: status values, transition tables, and the two guard functions. */
module RunStates {
  import opened Foundation

  datatype RunStatus =
    | Pending | Planning | Running | WaitingForTool | WaitingForApproval | WaitingForSubagent
    | Paused | Completed | Failed | Cancelled | TimedOut

  datatype TaskStatus =
    | TaskCreated | TaskAssigned | TaskRunning | TaskWaitingForReview | TaskRevisionRequired
    | TaskCompleted | TaskFailed | TaskCancelled

  datatype StepStatus =
    | StepPending | StepRunning | StepWaiting | StepCompleted | StepFailed | StepCancelled

  datatype ToolCallStatus =
    | CallPending | CallRunning | CallSucceeded | CallFailed | CallTimedOut | CallCancelled

  datatype ToolApprovalStatus =
    | ApprovalRequested | ApprovalApproved | ApprovalRejected | ApprovalExpired | ApprovalCancelled

  function RunTargets(current: RunStatus): (targets: set<RunStatus>) {
    match current
    case Pending => {Planning, Cancelled, TimedOut}
    case Planning => {Running, Paused, Completed, Failed, Cancelled, TimedOut}
    case Running =>
      {WaitingForTool, WaitingForApproval, WaitingForSubagent, Paused,
       Completed, Failed, Cancelled, TimedOut}
    case WaitingForTool => {Running, Cancelled}
    case WaitingForApproval => {Running, Failed, Cancelled}
    case WaitingForSubagent => {Running, Failed, Cancelled}
    case Paused => {Running, Cancelled}
    case Completed => {}
    case Failed => {}
    case Cancelled => {}
    case TimedOut => {}
  }

  function TaskTargets(current: TaskStatus): (targets: set<TaskStatus>) {
    match current
    case TaskCreated => {TaskAssigned, TaskCancelled}
    case TaskAssigned => {TaskRunning, TaskCancelled}
    case TaskRunning => {TaskWaitingForReview, TaskFailed, TaskCancelled}
    case TaskWaitingForReview => {TaskRevisionRequired, TaskCompleted}
    case TaskRevisionRequired => {TaskRunning, TaskFailed}
    case TaskCompleted => {}
    case TaskFailed => {TaskRunning}
    case TaskCancelled => {}
  }

  function StepTargets(current: StepStatus): (targets: set<StepStatus>) {
    match current
    case StepPending => {StepRunning, StepCancelled}
    case StepRunning => {StepWaiting, StepCompleted, StepFailed, StepCancelled}
    case StepWaiting => {StepRunning, StepFailed, StepCancelled}
    case StepCompleted => {}
    case StepFailed => {}
    case StepCancelled => {}
  }

  function ToolCallTargets(current: ToolCallStatus): (targets: set<ToolCallStatus>) {
    match current
    case CallPending => {CallRunning, CallFailed, CallCancelled}
    case CallRunning => {CallSucceeded, CallFailed, CallTimedOut, CallCancelled}
    case CallSucceeded => {}
    case CallFailed => {}
    case CallTimedOut => {}
    case CallCancelled => {}
  }

  function ToolApprovalTargets(current: ToolApprovalStatus): (targets: set<ToolApprovalStatus>) {
    match current
    case ApprovalRequested =>
      {ApprovalApproved, ApprovalRejected, ApprovalExpired, ApprovalCancelled}
    case ApprovalApproved => {}
    case ApprovalRejected => {}
    case ApprovalExpired => {}
    case ApprovalCancelled => {}
  }

  /** The set the services spell out as "terminal" runs. */
  predicate Terminal(status: RunStatus) {
    status in {Completed, Failed, Cancelled, TimedOut}
  }

  /** Run states from which delegation is accepted. */
  predicate Delegatable(status: RunStatus) {
    status in {Planning, Running, WaitingForTool}
  }

  /** Run states `claim_next_run` takes. */
  predicate Claimable(status: RunStatus) {
    status in {Pending, Planning, Running, WaitingForTool}
  }

  /** A status column either keeps its value or moves along the table. */
  predicate MayBecome(current: RunStatus, next: RunStatus) {
    next == current || next in RunTargets(current)
  }

  datatype GuardError =
    | InvalidTransition(current: RunStatus, target: RunStatus)
    | InvalidTaskTransition(from: TaskStatus, to: TaskStatus)
    | RevisionConflict(expected: nat, actual: nat)

  function TransitionRun(current: RunStatus, target: RunStatus): (r: Result<RunStatus, GuardError>)
    ensures r.Ok? <==> target in RunTargets(current)
    ensures r.Ok? ==> r.value == target && !Terminal(current)
  {
    if target !in RunTargets(current) then Err(InvalidTransition(current, target)) else Ok(target)
  }

  /** A history of statuses in which every consecutive pair is an allowed move or no move. */
  predicate Walk(history: seq<RunStatus>) {
    forall i :: 0 < i < |history| ==> MayBecome(history[i - 1], history[i])
  }

  /** The services' "terminal" set is exactly the set of statuses a run can never leave. */
  lemma {:induction false} TerminalMeansFinal(status: RunStatus)
    ensures Terminal(status) <==>
      forall history :: Walk(history) && |history| > 0 && history[0] == status ==>
        history[|history| - 1] == status
  {
    if Terminal(status) {
      forall history | Walk(history) && |history| > 0 && history[0] == status
        ensures history[|history| - 1] == status
      {
        TerminalStays(history);
      }
    } else {
      assert Cancelled in RunTargets(status);
      assert Walk([status, Cancelled]);
    }
  }

  lemma {:induction false} TerminalStays(history: seq<RunStatus>)
    requires Walk(history) && |history| > 0 && Terminal(history[0])
    ensures forall i :: 0 <= i < |history| ==> history[i] == history[0]
    decreases |history|
  {
    if |history| > 1 {
      var shorter := history[..|history| - 1];
      assert Walk(shorter);
      TerminalStays(shorter);
      assert MayBecome(history[|history| - 2], history[|history| - 1]);
      assert shorter[|shorter| - 1] == history[0];
    }
  }

  /** Where each status can come from: what the tables list by source, read by target. */
  lemma RunsComeFrom(current: RunStatus, target: RunStatus)
    ensures target in RunTargets(current) <==>
      match target
      case Pending => false
      case Planning => current == Pending
      case Running => current in {Planning, WaitingForTool, WaitingForApproval, WaitingForSubagent, Paused}
      case WaitingForTool => current == Running
      case WaitingForApproval => current == Running
      case WaitingForSubagent => current == Running
      case Paused => current in {Planning, Running}
      case Completed => current in {Planning, Running}
      case Failed => current in {Planning, Running, WaitingForApproval, WaitingForSubagent}
      case Cancelled => current !in {Completed, Failed, Cancelled, TimedOut}
      case TimedOut => current in {Pending, Planning, Running}
  {}

  lemma TasksComeFrom(current: TaskStatus, target: TaskStatus)
    ensures target in TaskTargets(current) <==>
      match target
      case TaskCreated => false
      case TaskAssigned => current == TaskCreated
      case TaskRunning => current in {TaskAssigned, TaskRevisionRequired, TaskFailed}
      case TaskWaitingForReview => current == TaskRunning
      case TaskRevisionRequired => current == TaskWaitingForReview
      case TaskCompleted => current == TaskWaitingForReview
      case TaskFailed => current in {TaskRunning, TaskRevisionRequired}
      case TaskCancelled => current in {TaskCreated, TaskAssigned, TaskRunning}
  {}

  /** Steps, tool calls and approvals: every unfinished one can be cancelled, and ends are final. */
  lemma CallsComeFrom(step: StepStatus, step': StepStatus, call: ToolCallStatus, call': ToolCallStatus,
                      approval: ToolApprovalStatus, approval': ToolApprovalStatus)
    ensures step' in StepTargets(step) <==>
      match step'
      case StepPending => false
      case StepRunning => step in {StepPending, StepWaiting}
      case StepWaiting => step == StepRunning
      case StepCompleted => step == StepRunning
      case StepFailed => step in {StepRunning, StepWaiting}
      case StepCancelled => step in {StepPending, StepRunning, StepWaiting}
    ensures call' in ToolCallTargets(call) <==>
      match call'
      case CallPending => false
      case CallRunning => call == CallPending
      case CallSucceeded => call == CallRunning
      case CallFailed => call in {CallPending, CallRunning}
      case CallTimedOut => call == CallRunning
      case CallCancelled => call in {CallPending, CallRunning}
    ensures approval' in ToolApprovalTargets(approval) <==> approval == ApprovalRequested && approval' != ApprovalRequested
  {}
}
