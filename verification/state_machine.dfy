/** The pure Run state machine of state_machine.py, and the replay of a run's lifecycle events. */
module StateMachine {
  import opened Outcomes

  datatype RunStatus =
    | Queued
    | Running
    | WaitingUser
    | WaitingExternal
    | Recovering
    | Cancelling
    | Succeeded
    | Failed
    | Cancelled
    | TimedOut

  datatype TaskOutcome = Completed | Partial | Blocked

  datatype EventKind =
    | RunAccepted
    | RunStarted
    | RunWaiting
    | RunResumed
    | RunRecovering
    | RunCancelRequested
    | RunFinished
    | MessageDelta
    | MessageCompleted
    | ToolPrepared
    | ToolStarted
    | ToolOutput
    | ToolFinished
    | ToolUnknown
    | SkillActivated
    | SkillStarted
    | SkillFinished
    | WorkspaceCommitted

  predicate Terminal(s: RunStatus) {
    s.Succeeded? || s.Failed? || s.Cancelled? || s.TimedOut?
  }

  predicate Waiting(s: RunStatus) {
    s.WaitingUser? || s.WaitingExternal?
  }

  /** The statuses that only an executing attempt should be in. */
  predicate Active(s: RunStatus) {
    s.Running? || Waiting(s) || s.Recovering?
  }

  function Allowed(s: RunStatus): set<RunStatus> {
    match s
    case Queued => {Running, Cancelling, Failed, TimedOut}
    case Running => {WaitingUser, WaitingExternal, Recovering, Cancelling, Succeeded, Failed, TimedOut}
    case WaitingUser => {Queued, Cancelling, Failed, TimedOut}
    case WaitingExternal => {Queued, Cancelling, Failed, TimedOut}
    case Recovering => {Queued, WaitingUser, Cancelling, Failed, TimedOut}
    case Cancelling => {Cancelled}
    case Succeeded => {}
    case Failed => {}
    case Cancelled => {}
    case TimedOut => {}
  }

  datatype RunState = RunState(
    status: RunStatus,
    version: nat,
    outcome: Option<TaskOutcome>,
    waitReason: Option<string>)

  datatype Change = Change(before: RunState, after: RunState, kind: EventKind, changed: bool)

  /** The event that a successful transition to `target` publishes. */
  function KindOf(target: RunStatus): EventKind {
    if Terminal(target) then RunFinished
    else match target
      case Queued => RunResumed
      case Running => RunStarted
      case WaitingUser => RunWaiting
      case WaitingExternal => RunWaiting
      case Recovering => RunRecovering
      case _ => RunCancelRequested
  }

  function Transition(state: RunState, target: RunStatus, expected: int,
                      outcome: Option<TaskOutcome>, reason: Option<string>): (r: Outcome<Change>)
  {
    if state.version != expected then Err(StateConflict)
    else if target !in Allowed(state.status) then Err(InvalidTransition)
    else if target == Succeeded && outcome.None? then Err(InvalidRequest)
    else if target != Succeeded && outcome.Some? then Err(InvalidRequest)
    else if Waiting(target) && (reason.None? || reason.value == "") then Err(InvalidRequest)
    else
      Ok(Change(state,
                RunState(target, state.version + 1, outcome, if Waiting(target) then reason else None),
                KindOf(target), true))
  }

  function RequestCancel(state: RunState, expected: int): (r: Outcome<Change>) {
    if state.version != expected then Err(StateConflict)
    else if Terminal(state.status) || state.status == Cancelling then
      Ok(Change(state, state, RunCancelRequested, false))
    else Transition(state, Cancelling, expected, None, None)
  }

  /** The row constraints that the schema spells out beside the state machine. */
  predicate RowChecks(s: RunState) {
    && (s.status == Succeeded <==> s.outcome.Some?)
    && (Waiting(s.status) <==> s.waitReason.Some?)
  }

  lemma TransitionKeepsRowChecks(state: RunState, target: RunStatus, expected: int,
                                 outcome: Option<TaskOutcome>, reason: Option<string>)
    requires Transition(state, target, expected, outcome, reason).Ok?
    ensures RowChecks(Transition(state, target, expected, outcome, reason).value.after)
    ensures !Terminal(state.status)
    ensures state.status == Cancelling ==> target == Cancelled
  {
  }

  /** From where each status may be entered. */
  predicate MayEnter(target: RunStatus, from: RunStatus) {
    match target
    case Queued => Waiting(from) || from == Recovering
    case Running => from == Queued
    case WaitingUser => from == Running || from == Recovering
    case WaitingExternal => from == Running
    case Recovering => from == Running
    case Cancelling => !Terminal(from) && from != Cancelling
    case Succeeded => from == Running
    case Failed => !Terminal(from) && from != Cancelling
    case Cancelled => from == Cancelling
    case TimedOut => !Terminal(from) && from != Cancelling
  }

  /** Exactly when a transition succeeds. */
  lemma TransitionExactly(state: RunState, target: RunStatus, expected: int,
                          outcome: Option<TaskOutcome>, reason: Option<string>)
    ensures Transition(state, target, expected, outcome, reason).Ok? <==>
              && state.version == expected && MayEnter(target, state.status)
              && (outcome.Some? <==> target == Succeeded)
              && (Waiting(target) ==> reason.Some? && reason.value != "")
    ensures Transition(state, target, expected, outcome, reason).Ok? ==>
              var after := Transition(state, target, expected, outcome, reason).value.after;
              && after.status == target && after.version == expected + 1 && after.outcome == outcome
              && after.waitReason == if Waiting(target) then reason else None
  {
    assert MayEnter(target, state.status) <==> target in Allowed(state.status);
  }

  /** No status is a dead end: whatever is not over can fail, or is being cancelled and can end so. */
  lemma EveryRunCanEnd(state: RunState)
    requires !Terminal(state.status)
    ensures var target := if state.status == Cancelling then Cancelled else Failed;
      Terminal(target) && Transition(state, target, state.version, None, None).Ok?
  {
  }

  // ----- Replaying lifecycle events -----

  /** The part of an event's data that the lifecycle reads: the `status` and `task_outcome` keys. */
  datatype EventData = EventData(status: Option<RunStatus>, outcome: Option<TaskOutcome>)

  const NO_DATA := EventData(None, None)

  predicate Lifecycle(k: EventKind) {
    k.RunAccepted? || k.RunStarted? || k.RunWaiting? || k.RunResumed? || k.RunRecovering?
    || k.RunCancelRequested? || k.RunFinished?
  }

  /** What a reader of the log knows of a run: its status and outcome, and how many transitions it saw. */
  datatype Life = Life(status: RunStatus, outcome: Option<TaskOutcome>, steps: nat)

  /** The status that a lifecycle event announces; the kind decides except where the data must. */
  function Announced(k: EventKind, d: EventData): Option<RunStatus>
    requires Lifecycle(k)
  {
    match k
    case RunAccepted => Some(Queued)
    case RunStarted => Some(Running)
    case RunResumed => Some(Queued)
    case RunRecovering => Some(Recovering)
    case RunCancelRequested => Some(Cancelling)
    case RunWaiting => if d.status.Some? && Waiting(d.status.value) then d.status else None
    case _ => if d.status.Some? && Terminal(d.status.value) then d.status else None
  }

  /** The state of a replay: nothing read yet, a life, or a log that is no path of the state machine. */
  datatype Reading = Unborn | Known(life: Life) | Broken

  function Observe(reading: Reading, k: EventKind, d: EventData): Reading
    requires Lifecycle(k)
  {
    var next := Announced(k, d);
    if next.None? || reading.Broken? then Broken
    else if reading.Unborn? then if k.RunAccepted? then Known(Life(Queued, None, 0)) else Broken
    else if k.RunAccepted? || next.value !in Allowed(reading.life.status) then Broken
    else Known(Life(next.value, if k.RunFinished? then d.outcome else None, reading.life.steps + 1))
  }
}
