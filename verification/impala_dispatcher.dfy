/** ImpalaToolDispatcher as it is written: each call it executes is a stretch of a history of
    ImpalaDispatch, so what holds of every history holds of its files. */
module ImpalaDispatcher {
  import opened Outcomes
  import opened ImpalaDispatch

  /** A run of the world's steps from any world. */
  function From(w: World, slot: CallKey -> nat, steps: seq<Step>): World {
    if steps == [] then w else Next(From(w, slot, steps[..|steps| - 1]), slot, steps[|steps| - 1])
  }

  lemma {:induction false} RunFrom(slot: CallKey -> nat, history: seq<Step>, steps: seq<Step>)
    ensures Run(slot, history + steps) == From(Run(slot, history), slot, steps)
  {
    if steps == [] {
      assert history + steps == history;
    } else {
      assert (history + steps)[..|history + steps| - 1] == history + steps[..|steps| - 1];
      RunFrom(slot, history, steps[..|steps| - 1]);
    }
  }

  datatype Saving = Saves | SaveFails | FinishFails

  /** What happens around one call: the authorization refuses or the message is no longer executing; what
      tools.call comes back with; whether saving that works; and after how many of the call's actions it
      is cut short, by an error nothing handles or by the process's death. */
  datatype Script = Script(refused: bool, outcome: ToolResult, saving: Saving, after: nat, dies: bool)

  /** The actions of a call that nothing cuts short. */
  function Actions(op: Id, script: Script): seq<Action> {
    if script.refused then [Deny]
    else
      [Prepare(op), StartTool, Call, Return(script.outcome)]
      + match script.saving
        case Saves => [Save, Finish]
        case SaveFails => [FailToPersist]
        case FinishFails => [Save, FailToPersist]
  }

  function ActsOf(t: Id, actions: seq<Action>): (steps: seq<Step>)
    ensures |steps| == |actions| && forall i :: 0 <= i < |actions| ==> steps[i] == Act(t, actions[i])
  {
    seq(|actions|, i requires 0 <= i < |actions| => Act(t, actions[i]))
  }

  datatype Invocation = Invocation(task: Id, key: CallKey, params: Id, control: bool, operation: Id, script: Script)

  /** The steps of one call, from its arrival to the end of its task or of the process. */
  function CallTrace(c: Invocation): seq<Step> {
    var actions := Actions(c.operation, c.script);
    [Arrive(c.task, c.key, c.params, c.control), Act(c.task, Acquire)]
    + if c.script.after < |actions| then
        ActsOf(c.task, actions[..c.script.after]) + [if c.script.dies then Crash else Act(c.task, Abandon)]
      else ActsOf(c.task, actions)
  }

  predicate Idle(w: World) {
    w.tasks == map[] && w.locks == map[]
  }

  /** The world w with one task inside _execute_locked. */
  function Alone(w: World, slot: CallKey -> nat, t: Id, task: Task): World {
    w.(tasks := map[t := task], locks := map[slot(task.key) := t])
  }

  lemma FromStep(w: World, slot: CallKey -> nat, steps: seq<Step>, n: nat)
    requires n < |steps|
    ensures From(w, slot, steps[..n + 1]) == Next(From(w, slot, steps[..n]), slot, steps[n])
  {
    hide Next;
    assert steps[..n + 1][..n] == steps[..n];
  }

  lemma ArrivesAlone(w: World, slot: CallKey -> nat, t: Id, task: Task)
    requires Idle(w) && t !in w.replies && task.progress == Waiting
    ensures Next(w, slot, Arrive(t, task.key, task.params, task.control)) == Alone(w, slot, t, task).(locks := map[])
  {
  }

  lemma AcquiresAlone(w: World, slot: CallKey -> nat, t: Id, task: Task)
    requires task.progress == Waiting
    ensures Next(Alone(w, slot, t, task).(locks := map[]), slot, Act(t, Acquire)) == Alone(w, slot, t, task.(progress := Holding))
  {
  }

  /** A call enters its slot. */
  lemma Enters(w: World, slot: CallKey -> nat, steps: seq<Step>, t: Id, k: CallKey, params: Id, control: bool)
    requires Idle(w) && t !in w.replies && |steps| >= 2
    requires steps[0] == Arrive(t, k, params, control) && steps[1] == Act(t, Acquire)
    ensures From(w, slot, steps[..2]) == Alone(w, slot, t, Task(k, params, control, Holding))
  {
    FromStep(w, slot, steps, 0);
    FromStep(w, slot, steps, 1);
    hide Next, Alone, Idle;
    var task := Task(k, params, control, Waiting);
    ArrivesAlone(w, slot, t, task);
    AcquiresAlone(w, slot, t, task);
  }

  /** After its task has left, the rest of a call's steps change nothing. */
  lemma {:induction false} RestIsIdle(w: World, slot: CallKey -> nat, steps: seq<Step>, n: nat, t: Id)
    requires n <= |steps| && Idle(From(w, slot, steps[..n]))
    requires forall i :: n <= i < |steps| ==> steps[i] == Crash || (steps[i].Act? && steps[i].task == t)
    ensures From(w, slot, steps) == From(w, slot, steps[..n])
    decreases |steps| - n
  {
    if n == |steps| {
      assert steps[..n] == steps;
    } else {
      FromStep(w, slot, steps, n);
      RestIsIdle(w, slot, steps, n + 1, t);
    }
  }

  /** A call is cut short. */
  lemma CutShort(w: World, slot: CallKey -> nat, steps: seq<Step>, n: nat, d: World, t: Id, task: Task)
    requires |steps| == n + 1 && From(w, slot, steps[..n]) == Alone(d, slot, t, task)
    requires steps[n] == Crash || steps[n] == Act(t, Abandon)
    ensures From(w, slot, steps) == d.(tasks := map[], locks := map[])
  {
    FromStep(w, slot, steps, n);
    assert steps[..n + 1] == steps;
  }

  lemma Advances(d: World, slot: CallKey -> nat, t: Id, task: Task, progress: Progress)
    ensures Advance(Alone(d, slot, t, task), t, progress) == Alone(d, slot, t, task.(progress := progress))
  {
  }

  /** What is left of a world when its one task leaves. */
  function Left(d: World, t: Id, reply: Option<Reply>): World {
    d.(tasks := map[], locks := map[], replies := if reply.Some? then d.replies[t := reply.value] else d.replies)
  }

  lemma Leaves(d: World, slot: CallKey -> nat, t: Id, task: Task, reply: Option<Reply>)
    ensures Leave(Alone(d, slot, t, task), slot, t, reply) == Left(d, t, reply)
  {
  }

  /** One action of a task that is alone inside. */
  lemma ActsAlone(w: World, slot: CallKey -> nat, steps: seq<Step>, n: nat, d: World, t: Id, task: Task, action: Action)
    requires n < |steps| && From(w, slot, steps[..n]) == Alone(d, slot, t, task) && steps[n] == Act(t, action)
    ensures var e := From(w, slot, steps[..n + 1]);
      match action
      case Deny => task.progress.Holding? ==> e == Left(d, t, Some(Refused))
      case StartTool =>
        task.progress.ToStart? && task.key in d.ledger ==>
          e == Alone(SetStatus(d, task.key, Running), slot, t, task.(progress := ToCall(task.progress.operation)))
      case Call =>
        task.progress.ToCall? ==>
          e == Alone(d.(calls := d.calls + [task.key]), slot, t, task.(progress := Calling(task.progress.operation)))
      case Return(r) =>
        task.progress.Calling? ==> e == Alone(d, slot, t, task.(progress := ToSave(task.progress.operation, r)))
      case Save =>
        task.progress.ToSave? ==>
          e == Alone(d.(results := d.results[task.progress.operation := task.progress.result]), slot, t,
                     task.(progress := ToFinish(task.progress.operation, task.progress.result)))
      case Finish =>
        task.progress.ToFinish? && task.key in d.ledger ==>
          e == Left(SetStatus(d, task.key, StatusOf(task.progress.result, task.control)), t, Some(Returned(task.progress.result)))
      case FailToPersist =>
        (task.progress.ToSave? || task.progress.ToFinish?) && task.key in d.ledger ==>
          e == Left(SetStatus(d, task.key, Unknown), t, Some(PersistenceFailed))
      case _ => true
  {
    FromStep(w, slot, steps, n);
    hide From, Advance, Leave;
    match action
    case Deny => Leaves(d, slot, t, task, Some(Refused));
    case StartTool =>
      if task.progress.ToStart? && task.key in d.ledger {
        Advances(SetStatus(d, task.key, Running), slot, t, task, ToCall(task.progress.operation));
      }
    case Call =>
      if task.progress.ToCall? { Advances(d.(calls := d.calls + [task.key]), slot, t, task, Calling(task.progress.operation)); }
    case Return(r) =>
      if task.progress.Calling? { Advances(d, slot, t, task, ToSave(task.progress.operation, r)); }
    case Save =>
      if task.progress.ToSave? {
        Advances(d.(results := d.results[task.progress.operation := task.progress.result]), slot, t, task,
                 ToFinish(task.progress.operation, task.progress.result));
      }
    case Finish =>
      if task.progress.ToFinish? && task.key in d.ledger {
        Leaves(SetStatus(d, task.key, StatusOf(task.progress.result, task.control)), slot, t, task, Some(Returned(task.progress.result)));
      }
    case FailToPersist =>
      if task.key in d.ledger { Leaves(SetStatus(d, task.key, Unknown), slot, t, task, Some(PersistenceFailed)); }
    case _ =>
  }

  /** The ledger's answer to the one task inside. */
  lemma PreparesAlone(w: World, slot: CallKey -> nat, steps: seq<Step>, n: nat, d: World, t: Id, task: Task, op: Id)
    requires n < |steps| && From(w, slot, steps[..n]) == Alone(d, slot, t, task) && steps[n] == Act(t, Prepare(op))
    requires task.progress.Holding?
    ensures var e, k := From(w, slot, steps[..n + 1]), task.key;
      if k in d.ledger then
        if d.ledger[k].params == task.params && d.ledger[k].status.Prepared? then
          e == Alone(d, slot, t, task.(progress := ToStart(d.ledger[k].operation)))
        else e == Left(d, t, Some(Answer(d, k, task.params)))
      else if FreshOperation(d.ledger, op) then
        e == Alone(d.(ledger := d.ledger[k := Entry(op, task.params, Prepared)]), slot, t, task.(progress := ToStart(op)))
      else e == Left(d, t, None)
  {
    FromStep(w, slot, steps, n);
    hide From, Advance, Leave, FreshOperation;
    var k := task.key;
    if k in d.ledger {
      Advances(d, slot, t, task, ToStart(d.ledger[k].operation));
      Leaves(d, slot, t, task, Some(Answer(d, k, task.params)));
    } else {
      Advances(d.(ledger := d.ledger[k := Entry(op, task.params, Prepared)]), slot, t, task, ToStart(op));
      Leaves(d, slot, t, task, None);
    }
  }

  lemma TraceAt(c: Invocation, i: nat)
    requires i < |Actions(c.operation, c.script)| && i <= c.script.after
    ensures 2 + i < |CallTrace(c)|
    ensures i < c.script.after ==> CallTrace(c)[2 + i] == Act(c.task, Actions(c.operation, c.script)[i])
    ensures i == c.script.after ==>
              |CallTrace(c)| == 3 + i && (CallTrace(c)[2 + i] == Crash || CallTrace(c)[2 + i] == Act(c.task, Abandon))
  {
    hide Actions;
  }

  lemma TraceStarts(c: Invocation)
    ensures |CallTrace(c)| >= 2 && CallTrace(c)[0] == Arrive(c.task, c.key, c.params, c.control) && CallTrace(c)[1] == Act(c.task, Acquire)
    ensures forall i :: 2 <= i < |CallTrace(c)| ==> CallTrace(c)[i] == Crash || (CallTrace(c)[i].Act? && CallTrace(c)[i].task == c.task)
  {
    hide Actions;
  }

  /** After n of its actions the call is inside, alone, in the state d of the disk. */
  ghost predicate Inside(w: World, slot: CallKey -> nat, c: Invocation, n: nat, d: World, progress: Progress) {
    && 2 + n <= |CallTrace(c)|
    && From(w, slot, CallTrace(c)[..2 + n]) == Alone(d, slot, c.task, Task(c.key, c.params, c.control, progress))
  }

  /** The call has ended in the state d of the disk. */
  ghost predicate Ended(w: World, slot: CallKey -> nat, c: Invocation, d: World, reply: Option<Reply>) {
    From(w, slot, CallTrace(c)) == Left(d, c.task, reply)
  }

  lemma Begins(w: World, slot: CallKey -> nat, c: Invocation)
    requires Idle(w) && c.task !in w.replies
    ensures Inside(w, slot, c, 0, w, Holding)
  {
    TraceStarts(c);
    hide CallTrace, From, Alone;
    Enters(w, slot, CallTrace(c), c.task, c.key, c.params, c.control);
  }

  lemma Cut(w: World, slot: CallKey -> nat, c: Invocation, n: nat, d: World, progress: Progress)
    requires Inside(w, slot, c, n, d, progress) && n == c.script.after < |Actions(c.operation, c.script)|
    ensures Ended(w, slot, c, d, None)
  {
    TraceAt(c, n);
    hide CallTrace, From, Alone, Actions;
    CutShort(w, slot, CallTrace(c), 2 + n, d, c.task, Task(c.key, c.params, c.control, progress));
  }

  /** With action n its task has left. */
  lemma Gone(w: World, slot: CallKey -> nat, c: Invocation, n: nat, d: World, reply: Option<Reply>)
    requires 2 + n <= |CallTrace(c)| && From(w, slot, CallTrace(c)[..2 + n]) == Left(d, c.task, reply)
    ensures Ended(w, slot, c, d, reply)
  {
    TraceStarts(c);
    hide CallTrace, From;
    RestIsIdle(w, slot, CallTrace(c), 2 + n, c.task);
  }

  /** Inside, the call goes on to its next action. */
  predicate GoesOn(c: Invocation, n: nat, action: Action) {
    n < c.script.after && n < |Actions(c.operation, c.script)| && Actions(c.operation, c.script)[n] == action
  }

  function TaskOf(c: Invocation, progress: Progress): Task {
    Task(c.key, c.params, c.control, progress)
  }

  lemma NextAction(w: World, slot: CallKey -> nat, c: Invocation, n: nat, d: World, progress: Progress, action: Action)
    requires Inside(w, slot, c, n, d, progress) && GoesOn(c, n, action)
    ensures 2 + n < |CallTrace(c)| && CallTrace(c)[2 + n] == Act(c.task, action)
    ensures From(w, slot, CallTrace(c)[..2 + n]) == Alone(d, slot, c.task, TaskOf(c, progress))
  {
    TraceAt(c, n);
  }

  lemma Denies(w: World, slot: CallKey -> nat, c: Invocation)
    requires Inside(w, slot, c, 0, w, Holding) && GoesOn(c, 0, Deny)
    ensures Ended(w, slot, c, w, Some(Refused))
  {
    hide CallTrace, From, Alone, Left, Actions;
    NextAction(w, slot, c, 0, w, Holding, Deny);
    ActsAlone(w, slot, CallTrace(c), 2, w, c.task, TaskOf(c, Holding), Deny);
    Gone(w, slot, c, 1, w, Some(Refused));
  }

  lemma Asks(w: World, slot: CallKey -> nat, c: Invocation)
    requires Inside(w, slot, c, 0, w, Holding) && GoesOn(c, 0, Prepare(c.operation))
    ensures var k := c.key;
      if k in w.ledger then
        if w.ledger[k].params == c.params && w.ledger[k].status.Prepared? then
          Inside(w, slot, c, 1, w, ToStart(w.ledger[k].operation))
        else Ended(w, slot, c, w, Some(Answer(w, k, c.params)))
      else if FreshOperation(w.ledger, c.operation) then
        Inside(w, slot, c, 1, w.(ledger := w.ledger[k := Entry(c.operation, c.params, Prepared)]), ToStart(c.operation))
      else Ended(w, slot, c, w, None)
  {
    hide CallTrace, From, Alone, Left, Actions, FreshOperation;
    NextAction(w, slot, c, 0, w, Holding, Prepare(c.operation));
    PreparesAlone(w, slot, CallTrace(c), 2, w, c.task, TaskOf(c, Holding), c.operation);
    if c.key in w.ledger {
      if w.ledger[c.key].params != c.params || !w.ledger[c.key].status.Prepared? {
        Gone(w, slot, c, 1, w, Some(Answer(w, c.key, c.params)));
      }
    } else if !FreshOperation(w.ledger, c.operation) {
      Gone(w, slot, c, 1, w, None);
    }
  }

  lemma Starts(w: World, slot: CallKey -> nat, c: Invocation, d: World, op: Id)
    requires Inside(w, slot, c, 1, d, ToStart(op)) && GoesOn(c, 1, StartTool) && c.key in d.ledger
    ensures Inside(w, slot, c, 2, SetStatus(d, c.key, Running), ToCall(op))
  {
    hide CallTrace, From, Alone, Actions;
    NextAction(w, slot, c, 1, d, ToStart(op), StartTool);
    ActsAlone(w, slot, CallTrace(c), 3, d, c.task, TaskOf(c, ToStart(op)), StartTool);
  }

  lemma Sends(w: World, slot: CallKey -> nat, c: Invocation, d: World, op: Id)
    requires Inside(w, slot, c, 2, d, ToCall(op)) && GoesOn(c, 2, Call)
    ensures Inside(w, slot, c, 3, d.(calls := d.calls + [c.key]), Calling(op))
  {
    hide CallTrace, From, Alone, Actions;
    NextAction(w, slot, c, 2, d, ToCall(op), Call);
    ActsAlone(w, slot, CallTrace(c), 4, d, c.task, TaskOf(c, ToCall(op)), Call);
  }

  lemma Returns(w: World, slot: CallKey -> nat, c: Invocation, d: World, op: Id)
    requires Inside(w, slot, c, 3, d, Calling(op)) && GoesOn(c, 3, Return(c.script.outcome))
    ensures Inside(w, slot, c, 4, d, ToSave(op, c.script.outcome))
  {
    hide CallTrace, From, Alone, Actions;
    NextAction(w, slot, c, 3, d, Calling(op), Return(c.script.outcome));
    ActsAlone(w, slot, CallTrace(c), 5, d, c.task, TaskOf(c, Calling(op)), Return(c.script.outcome));
  }

  lemma IsSaved(w: World, slot: CallKey -> nat, c: Invocation, d: World, op: Id, r: ToolResult)
    requires Inside(w, slot, c, 4, d, ToSave(op, r)) && GoesOn(c, 4, Save)
    ensures Inside(w, slot, c, 5, d.(results := d.results[op := r]), ToFinish(op, r))
  {
    hide CallTrace, From, Alone, Actions;
    NextAction(w, slot, c, 4, d, ToSave(op, r), Save);
    ActsAlone(w, slot, CallTrace(c), 6, d, c.task, TaskOf(c, ToSave(op, r)), Save);
  }

  lemma IsFinished(w: World, slot: CallKey -> nat, c: Invocation, d: World, op: Id, r: ToolResult)
    requires Inside(w, slot, c, 5, d, ToFinish(op, r)) && GoesOn(c, 5, Finish) && c.key in d.ledger
    ensures Ended(w, slot, c, SetStatus(d, c.key, StatusOf(r, c.control)), Some(Returned(r)))
  {
    hide CallTrace, From, Alone, Left, Actions;
    NextAction(w, slot, c, 5, d, ToFinish(op, r), Finish);
    ActsAlone(w, slot, CallTrace(c), 7, d, c.task, TaskOf(c, ToFinish(op, r)), Finish);
    Gone(w, slot, c, 6, SetStatus(d, c.key, StatusOf(r, c.control)), Some(Returned(r)));
  }

  lemma IsNotPersisted(w: World, slot: CallKey -> nat, c: Invocation, n: nat, d: World, progress: Progress)
    requires Inside(w, slot, c, n, d, progress) && GoesOn(c, n, FailToPersist) && c.key in d.ledger
    requires progress.ToSave? || progress.ToFinish?
    ensures Ended(w, slot, c, SetStatus(d, c.key, Unknown), Some(PersistenceFailed))
  {
    hide CallTrace, From, Alone, Left, Actions;
    NextAction(w, slot, c, n, d, progress, FailToPersist);
    ActsAlone(w, slot, CallTrace(c), 2 + n, d, c.task, TaskOf(c, progress), FailToPersist);
    Gone(w, slot, c, n + 1, SetStatus(d, c.key, Unknown), Some(PersistenceFailed));
  }

  lemma EndedIn(w: World, slot: CallKey -> nat, c: Invocation, e: World, reply: Option<Reply>)
    requires Ended(w, slot, c, e, reply) && c.task !in w.replies && e.replies == w.replies
    ensures var d := From(w, slot, CallTrace(c));
      && Idle(d) && d.ledger == e.ledger && d.results == e.results
      && reply == if c.task in d.replies then Some(d.replies[c.task]) else None
  {
    hide CallTrace, From;
  }

  /** The operation that a call goes on with: its own, if its key is new, or the prepared one of its key. */
  predicate GoesAhead(w: World, c: Invocation, op: Id) {
    if c.key in w.ledger then
      w.ledger[c.key].params == c.params && w.ledger[c.key].status == Prepared && w.ledger[c.key].operation == op
    else op == c.operation && FreshOperation(w.ledger, op)
  }

  /** A call that nothing cuts short: the tool is called once, its result is saved and returned, and the
      ledger has the result's status. */
  lemma CallIsExecuted(w: World, slot: CallKey -> nat, c: Invocation, op: Id)
    requires Idle(w) && c.task !in w.replies && GoesAhead(w, c, op)
    requires !c.script.refused && c.script.saving.Saves? && c.script.after >= 6
    ensures var d, r := From(w, slot, CallTrace(c)), c.script.outcome;
      && Idle(d) && d.calls == w.calls + [c.key] && d.replies == w.replies[c.task := Returned(r)]
      && d.ledger == w.ledger[c.key := Entry(op, c.params, StatusOf(r, c.control))]
      && d.results == w.results[op := r]
  {
    var one := if c.key in w.ledger then w else w.(ledger := w.ledger[c.key := Entry(op, c.params, Prepared)]);
    IsPrepared(w, slot, c, op, one);
    var e := IsPerformed(w, slot, c, op, one);
    hide From, CallTrace, Inside, Ended, GoesAhead;
    EndsAs(w, slot, c, e, Returned(c.script.outcome));
    assert GoesAhead(w, c, op);
    SameLedger(w, c, op, one);
  }

  lemma SameLedger(w: World, c: Invocation, op: Id, one: World)
    requires GoesAhead(w, c, op)
    requires one == if c.key in w.ledger then w else w.(ledger := w.ledger[c.key := Entry(op, c.params, Prepared)])
    ensures c.key in one.ledger
    ensures forall s :: one.ledger[c.key := one.ledger[c.key].(status := s)] == w.ledger[c.key := Entry(op, c.params, s)]
  {
  }

  lemma IsPrepared(w: World, slot: CallKey -> nat, c: Invocation, op: Id, one: World)
    requires Idle(w) && c.task !in w.replies && GoesAhead(w, c, op)
    requires !c.script.refused && c.script.saving.Saves? && c.script.after >= 6
    requires one == if c.key in w.ledger then w else w.(ledger := w.ledger[c.key := Entry(op, c.params, Prepared)])
    ensures Inside(w, slot, c, 1, one, ToStart(op))
  {
    GoesOnTo(c);
    hide Inside, Ended, FreshOperation, GoesOn;
    Begins(w, slot, c);
    Asks(w, slot, c);
  }

  lemma IsPerformed(w: World, slot: CallKey -> nat, c: Invocation, op: Id, one: World) returns (e: World)
    requires !c.script.refused && c.script.saving.Saves? && c.script.after >= 6
    requires c.key in one.ledger && Inside(w, slot, c, 1, one, ToStart(op))
    ensures Ended(w, slot, c, e, Some(Returned(c.script.outcome)))
    ensures e == one.(ledger := one.ledger[c.key := one.ledger[c.key].(status := StatusOf(c.script.outcome, c.control))],
                      calls := one.calls + [c.key], results := one.results[op := c.script.outcome])
  {
    hide Inside, Ended, GoesOn;
    GoesOnTo(c);
    var r, two := c.script.outcome, SetStatus(one, c.key, Running);
    Starts(w, slot, c, one, op);
    Sends(w, slot, c, two, op);
    var three := two.(calls := two.calls + [c.key]);
    Returns(w, slot, c, three, op);
    IsSaved(w, slot, c, three, op, r);
    var four := three.(results := three.results[op := r]);
    IsFinished(w, slot, c, four, op, r);
    e := SetStatus(four, c.key, StatusOf(r, c.control));
  }

  lemma GoesOnTo(c: Invocation)
    requires !c.script.refused && c.script.saving.Saves? && c.script.after >= 6
    ensures GoesOn(c, 0, Prepare(c.operation)) && GoesOn(c, 1, StartTool) && GoesOn(c, 2, Call)
    ensures GoesOn(c, 3, Return(c.script.outcome)) && GoesOn(c, 4, Save) && GoesOn(c, 5, Finish)
  {
  }

  lemma EndsAs(w: World, slot: CallKey -> nat, c: Invocation, e: World, reply: Reply)
    requires Ended(w, slot, c, e, Some(reply)) && e.replies == w.replies
    ensures var d := From(w, slot, CallTrace(c));
      && Idle(d) && d.ledger == e.ledger && d.results == e.results && d.calls == e.calls
      && d.replies == w.replies[c.task := reply]
  {
    hide CallTrace, From;
  }

  class ImpalaToolDispatcher {
    const slot: CallKey -> nat
    var ledger: map<CallKey, Entry>
    var results: map<Id, ToolResult>
    ghost var history: seq<Step>

    /** The files are those of a history of the dispatcher, in which no task is inside. */
    ghost predicate Valid()
      reads this
    {
      var w := Run(slot, history);
      w.ledger == ledger && w.results == results && Idle(w)
    }

    constructor (slot: CallKey -> nat)
      ensures Valid() && this.slot == slot && history == []
    {
      this.slot := slot;
      ledger, results, history := map[], map[], [];
    }

    /** prepare_tool */
    method PrepareTool(k: CallKey, params: Id, op: Id) returns (entry: Outcome<Entry>)
      modifies `ledger
      ensures k in old(ledger) ==>
                ledger == old(ledger)
                && entry == if ledger[k].params == params then Ok(ledger[k]) else Err(IdempotencyConflict)
      ensures k !in old(ledger) && FreshOperation(old(ledger), op) ==>
                entry == Ok(Entry(op, params, Prepared)) && ledger == old(ledger)[k := Entry(op, params, Prepared)]
      ensures k !in old(ledger) && !FreshOperation(old(ledger), op) ==> entry == Err(Integrity) && ledger == old(ledger)
    {
      if k in ledger {
        return if ledger[k].params == params then Ok(ledger[k]) else Err(IdempotencyConflict);
      }
      if !FreshOperation(ledger, op) { return Err(Integrity); }
      ledger := ledger[k := Entry(op, params, Prepared)];
      return Ok(ledger[k]);
    }

    /** _execute_locked: the steps of one call, with no other task between them. */
    method ExecuteLocked(c: Invocation) returns (reply: Option<Reply>)
      requires Valid() && c.task !in Run(slot, history).replies
      modifies this
      ensures Valid() && history == old(history) + CallTrace(c)
      ensures reply == if c.task in Run(slot, history).replies then Some(Run(slot, history).replies[c.task]) else None
    {
      hide Run, Inside, Ended, CallTrace;
      ghost var w := Run(slot, history);
      ghost var e;
      reply, e := Locked(c, w);
      RunFrom(slot, history, CallTrace(c));
      EndedIn(w, slot, c, e, reply);
      history := history + CallTrace(c);
    }

    method Locked(c: Invocation, ghost w: World) returns (reply: Option<Reply>, ghost e: World)
      requires Idle(w) && c.task !in w.replies && w.ledger == ledger && w.results == results
      modifies `ledger, `results
      ensures Ended(w, slot, c, e, reply) && e.ledger == ledger && e.results == results && e.replies == w.replies
    {
      hide Inside, Ended, Idle;
      Begins(w, slot, c);
      if c.script.after == 0 {
        Cut(w, slot, c, 0, w, Holding);
        return None, w;
      }
      if c.script.refused {
        Denies(w, slot, c);
        return Some(Refused), w;
      }
      Asks(w, slot, c);
      var entry := PrepareTool(c.key, c.params, c.operation);
      if entry.Err? { return if entry.error == IdempotencyConflict then Some(Conflict) else None, w; }
      if entry.value.status != Prepared {
        return Some(if Final(entry.value.status) && entry.value.operation in results
                    then Replayed(results[entry.value.operation]) else NeedsVerification), w;
      }
      reply, e := Perform(c, entry.value.operation, w);
    }

    /** From start_tool to finish_tool. */
    method Perform(c: Invocation, op: Id, ghost w: World) returns (reply: Option<Reply>, ghost e: World)
      requires !c.script.refused && c.script.after >= 1 && c.key in ledger && w.results == results
      requires Inside(w, slot, c, 1, w.(ledger := ledger), ToStart(op))
      modifies `ledger, `results
      ensures Ended(w, slot, c, e, reply) && e.ledger == ledger && e.results == results && e.replies == w.replies
    {
      hide Inside, Ended;
      var k, script := c.key, c.script;
      e := w.(ledger := ledger);
      if script.after == 1 {
        Cut(w, slot, c, 1, e, ToStart(op));
        return None, e;
      }
      Starts(w, slot, c, e, op);
      ledger := ledger[k := ledger[k].(status := Running)];
      e := SetStatus(e, k, Running);
      if script.after == 2 {
        Cut(w, slot, c, 2, e, ToCall(op));
        return None, e;
      }
      Sends(w, slot, c, e, op);
      e := e.(calls := e.calls + [k]);
      if script.after == 3 {
        Cut(w, slot, c, 3, e, Calling(op));
        return None, e;
      }
      var result := script.outcome;
      Returns(w, slot, c, e, op);
      if script.after == 4 {
        Cut(w, slot, c, 4, e, ToSave(op, result));
        return None, e;
      }
      reply, e := Persist(c, op, result, w, e);
    }

    /** The saving of a result, and finish_tool. */
    method Persist(c: Invocation, op: Id, result: ToolResult, ghost w: World, ghost d: World)
      returns (reply: Option<Reply>, ghost e: World)
      requires !c.script.refused && c.script.after >= 5 && c.key in ledger && d.ledger == ledger && d.results == results
      requires result == c.script.outcome && Inside(w, slot, c, 4, d, ToSave(op, result))
      modifies `ledger, `results
      ensures Ended(w, slot, c, e, reply) && e.ledger == ledger && e.results == results && e.replies == d.replies
    {
      hide Inside, Ended;
      var k, script := c.key, c.script;
      e := d;
      if script.saving.SaveFails? {
        IsNotPersisted(w, slot, c, 4, e, ToSave(op, result));
        ledger := ledger[k := ledger[k].(status := Unknown)];
        return Some(PersistenceFailed), SetStatus(e, k, Unknown);
      }
      IsSaved(w, slot, c, e, op, result);
      results := results[op := result];
      e := e.(results := e.results[op := result]);
      if script.after == 5 {
        Cut(w, slot, c, 5, e, ToFinish(op, result));
        return None, e;
      }
      if script.saving.FinishFails? {
        IsNotPersisted(w, slot, c, 5, e, ToFinish(op, result));
        ledger := ledger[k := ledger[k].(status := Unknown)];
        return Some(PersistenceFailed), SetStatus(e, k, Unknown);
      }
      IsFinished(w, slot, c, e, op, result);
      ledger := ledger[k := ledger[k].(status := StatusOf(result, c.control))];
      return Some(Returned(result)), SetStatus(e, k, StatusOf(result, c.control));
    }
  }
}
