/** At-most-once dispatch of Impala tool calls: ImpalaToolDispatcher over the tool ledger, with any number
    of concurrent duplicates, retries, abandoned tasks, failing writes and process crashes.

    The lock stripes live in memory, the ledger and the saved results on disk. */
module ImpalaDispatch {
  import opened Outcomes

  /** What the slot and the logical key are digests of. */
  datatype CallKey = CallKey(scope: string, run: Id, attempt: Id, call: string)

  datatype ToolStatus = Prepared | Running | Succeeded | Failed | Cancelled | Unknown

  predicate Final(s: ToolStatus) {
    s.Succeeded? || s.Failed? || s.Cancelled?
  }

  datatype QueryStatus = QueryRunning | QueryCancelling | QuerySucceeded | QueryFailed | QueryCancelled | QueryUnknown

  /** What tools.call comes back with; a raised error is turned into such a result. */
  datatype ToolResult = ToolResult(body: Id, status: QueryStatus, hasRef: bool)

  /** The ledger status of a result: for a tool that reads or cancels another query, reading succeeded. */
  function StatusOf(r: ToolResult, control: bool): ToolStatus {
    if control && r.hasRef then Succeeded
    else match r.status
      case QueryFailed => Failed
      case QueryCancelled => Cancelled
      case QueryUnknown => Unknown
      case _ => Succeeded
  }

  /** A row of tool_executions. */
  datatype Entry = Entry(operation: Id, params: Id, status: ToolStatus)

  datatype Reply =
    | Returned(result: ToolResult)
    | Replayed(result: ToolResult)
    | NeedsVerification
    | Conflict
    | Refused
    | PersistenceFailed

  /** A task inside _execute_locked: what it will do next. */
  datatype Progress =
    | Waiting
    | Holding
    | ToStart(operation: Id)
    | ToCall(operation: Id)
    | Calling(operation: Id)
    | ToSave(operation: Id, result: ToolResult)
    | ToFinish(operation: Id, result: ToolResult)

  datatype Task = Task(key: CallKey, params: Id, control: bool, progress: Progress)

  datatype World = World(
    ledger: map<CallKey, Entry>,
    results: map<Id, ToolResult>,
    tasks: map<Id, Task>,
    locks: map<nat, Id>,
    calls: seq<CallKey>,
    replies: map<Id, Reply>)

  const EMPTY := World(map[], map[], map[], map[], [], map[])

  /** What one task can do next; Abandon is its cancellation or an error nothing handles. */
  datatype Action =
    | Acquire
    | Deny
    | Prepare(operation: Id)
    | StartTool
    | Call
    | Return(result: ToolResult)
    | Save
    | Finish
    | FailToPersist
    | Abandon

  datatype Step =
    | Arrive(task: Id, key: CallKey, params: Id, control: bool)
    | Act(task: Id, action: Action)
    | Crash

  /** The lock of a task's slot is released, and its reply, if any, is given. */
  function Leave(w: World, slot: CallKey -> nat, t: Id, reply: Option<Reply>): World
    requires t in w.tasks
  {
    w.(tasks := w.tasks - {t},
       locks := if slot(w.tasks[t].key) in w.locks && w.locks[slot(w.tasks[t].key)] == t
                then w.locks - {slot(w.tasks[t].key)} else w.locks,
       replies := if reply.Some? then w.replies[t := reply.value] else w.replies)
  }

  function Advance(w: World, t: Id, progress: Progress): World
    requires t in w.tasks
  {
    w.(tasks := w.tasks[t := w.tasks[t].(progress := progress)])
  }

  /** The primary key of tool_executions. */
  predicate FreshOperation(ledger: map<CallKey, Entry>, op: Id) {
    forall k :: k in ledger ==> ledger[k].operation != op
  }

  /** prepare_tool, and what _execute_locked makes of its answer. */
  function Prepares(w: World, slot: CallKey -> nat, t: Id, op: Id): World
    requires t in w.tasks
  {
    var task := w.tasks[t];
    if task.key in w.ledger then
      var entry := w.ledger[task.key];
      if entry.params != task.params then Leave(w, slot, t, Some(Conflict))
      else if entry.status.Prepared? then Advance(w, t, ToStart(entry.operation))
      else if Final(entry.status) && entry.operation in w.results then
        Leave(w, slot, t, Some(Replayed(w.results[entry.operation])))
      else Leave(w, slot, t, Some(NeedsVerification))
    else if FreshOperation(w.ledger, op) then
      Advance(w.(ledger := w.ledger[task.key := Entry(op, task.params, Prepared)]), t, ToStart(op))
    else Leave(w, slot, t, None)
  }

  function SetStatus(w: World, k: CallKey, s: ToolStatus): World
    requires k in w.ledger
  {
    w.(ledger := w.ledger[k := w.ledger[k].(status := s)])
  }

  /** An action that is not possible now changes nothing. */
  function Acts(w: World, slot: CallKey -> nat, t: Id, action: Action): World
    requires t in w.tasks
  {
    var task := w.tasks[t];
    match action
    case Acquire =>
      if task.progress.Waiting? && slot(task.key) !in w.locks then
        Advance(w.(locks := w.locks[slot(task.key) := t]), t, Holding)
      else w
    case Deny => if task.progress.Holding? then Leave(w, slot, t, Some(Refused)) else w
    case Prepare(op) => if task.progress.Holding? then Prepares(w, slot, t, op) else w
    case StartTool =>
      if task.progress.ToStart? && task.key in w.ledger then
        Advance(SetStatus(w, task.key, Running), t, ToCall(task.progress.operation))
      else w
    case Call =>
      if task.progress.ToCall? then
        Advance(w.(calls := w.calls + [task.key]), t, Calling(task.progress.operation))
      else w
    case Return(r) =>
      if task.progress.Calling? then Advance(w, t, ToSave(task.progress.operation, r)) else w
    case Save =>
      if task.progress.ToSave? then
        Advance(w.(results := w.results[task.progress.operation := task.progress.result]), t,
                ToFinish(task.progress.operation, task.progress.result))
      else w
    case Finish =>
      if task.progress.ToFinish? && task.key in w.ledger then
        Leave(SetStatus(w, task.key, StatusOf(task.progress.result, task.control)), slot, t,
              Some(Returned(task.progress.result)))
      else w
    case FailToPersist =>
      if (task.progress.ToSave? || task.progress.ToFinish?) && task.key in w.ledger then
        Leave(SetStatus(w, task.key, Unknown), slot, t, Some(PersistenceFailed))
      else w
    case Abandon => Leave(w, slot, t, None)
  }

  function Next(w: World, slot: CallKey -> nat, step: Step): World {
    match step
    case Crash => w.(tasks := map[], locks := map[])
    case Arrive(t, key, params, control) =>
      if t in w.tasks || t in w.replies then w else w.(tasks := w.tasks[t := Task(key, params, control, Waiting)])
    case Act(t, action) => if t in w.tasks then Acts(w, slot, t, action) else w
  }

  function Run(slot: CallKey -> nat, steps: seq<Step>): World {
    if steps == [] then EMPTY
    else Next(Run(slot, steps[..|steps| - 1]), slot, steps[|steps| - 1])
  }

  /** How often the tool was really called for a key. */
  function Calls(calls: seq<CallKey>, k: CallKey): nat {
    if calls == [] then 0
    else Calls(calls[..|calls| - 1], k) + if calls[|calls| - 1] == k then 1 else 0
  }

  // ----- The invariant -----

  /** A task that has gone past the lock holds it. */
  predicate HoldsLock(w: World, slot: CallKey -> nat, t: Id)
    requires t in w.tasks
  {
    !w.tasks[t].progress.Waiting? ==> slot(w.tasks[t].key) in w.locks && w.locks[slot(w.tasks[t].key)] == t
  }

  /** What the ledger and the disk say about a task's own call. */
  predicate OnTrack(w: World, t: Id)
    requires t in w.tasks
  {
    var task := w.tasks[t];
    var entered := task.key in w.ledger;
    match task.progress
    case Waiting => true
    case Holding => true
    case ToStart(op) => entered && w.ledger[task.key].operation == op && w.ledger[task.key].status == Prepared
    case ToCall(op) =>
      entered && w.ledger[task.key].operation == op && w.ledger[task.key].status == Running && Calls(w.calls, task.key) == 0
    case Calling(op) => entered && w.ledger[task.key].operation == op && w.ledger[task.key].status == Running
    case ToSave(op, _) => entered && w.ledger[task.key].operation == op && w.ledger[task.key].status == Running
    case ToFinish(op, r) =>
      entered && w.ledger[task.key].operation == op && w.ledger[task.key].status == Running
      && op in w.results && w.results[op] == r
  }

  /** What the ledger says about a key. */
  predicate Ledgered(w: World, k: CallKey) {
    && Calls(w.calls, k) <= 1
    && (Calls(w.calls, k) > 0 ==> k in w.ledger && w.ledger[k].status != Prepared)
    && (k in w.ledger && Final(w.ledger[k].status) ==> w.ledger[k].operation in w.results)
  }

  ghost predicate Inv(w: World, slot: CallKey -> nat) {
    && (forall t {:trigger HoldsLock(w, slot, t)} :: t in w.tasks ==> HoldsLock(w, slot, t))
    && (forall t {:trigger OnTrack(w, t)} :: t in w.tasks ==> OnTrack(w, t))
    && (forall k {:trigger Ledgered(w, k)} :: Ledgered(w, k))
    && Distinct(w.ledger)
  }

  ghost predicate Distinct(ledger: map<CallKey, Entry>) {
    forall j, k :: j in ledger && k in ledger && ledger[j].operation == ledger[k].operation ==> j == k
  }

  lemma CallsAppend(calls: seq<CallKey>, c: CallKey, k: CallKey)
    ensures Calls(calls + [c], k) == Calls(calls, k) + if c == k then 1 else 0
  {
    assert (calls + [c])[..|calls|] == calls;
  }

  /** Two tasks past the lock work on different keys. */
  lemma OneTaskPerKey(w: World, slot: CallKey -> nat, t: Id, u: Id)
    requires Inv(w, slot) && t in w.tasks && u in w.tasks && t != u
    requires !w.tasks[t].progress.Waiting? && !w.tasks[u].progress.Waiting?
    ensures w.tasks[t].key != w.tasks[u].key
  {
    assert HoldsLock(w, slot, t) && HoldsLock(w, slot, u);
  }

  /** A task that leaves, possibly with a new status for its own key. */
  lemma LeaveKeeps(w: World, slot: CallKey -> nat, t: Id, reply: Option<Reply>)
    requires Inv(w, slot) && t in w.tasks
    ensures Inv(Leave(w, slot, t, reply), slot)
  {
    var d := Leave(w, slot, t, reply);
    forall u | u in d.tasks ensures HoldsLock(d, slot, u) {
      assert HoldsLock(w, slot, u) && HoldsLock(w, slot, t);
    }
    forall u | u in d.tasks ensures OnTrack(d, u) { assert OnTrack(w, u); }
    forall k ensures Ledgered(d, k) { assert Ledgered(w, k); }
  }

  /** A step of task t that changes nothing but its own key's ledger row, its own result and its calls. */
  lemma OwnStepKeeps(w: World, d: World, slot: CallKey -> nat, t: Id)
    requires Inv(w, slot) && t in w.tasks && !w.tasks[t].progress.Waiting?
    requires t in d.tasks && d.locks == w.locks && d.tasks == w.tasks[t := d.tasks[t]]
    requires d.tasks[t].key == w.tasks[t].key && OnTrack(d, t)
    requires forall k :: k != w.tasks[t].key ==>
               && Calls(d.calls, k) == Calls(w.calls, k) && (k in d.ledger <==> k in w.ledger)
               && (k in w.ledger ==> d.ledger[k] == w.ledger[k])
    requires Ledgered(d, w.tasks[t].key)
    requires w.tasks[t].key in d.ledger ==>
               forall k :: k in w.ledger && k != w.tasks[t].key ==>
                 w.ledger[k].operation != d.ledger[w.tasks[t].key].operation
    requires forall op :: op in w.results ==> op in d.results
    requires forall op :: op in w.results && d.results[op] != w.results[op] ==>
               w.tasks[t].key in w.ledger && w.ledger[w.tasks[t].key].operation == op
    ensures Inv(d, slot)
  {
    forall u | u in d.tasks ensures HoldsLock(d, slot, u) {
      assert HoldsLock(w, slot, u) && HoldsLock(w, slot, t);
    }
    forall u | u in d.tasks && u != t ensures OnTrack(d, u) {
      assert OnTrack(w, u);
      if !w.tasks[u].progress.Waiting? { OneTaskPerKey(w, slot, t, u); }
    }
    forall k ensures Ledgered(d, k) { assert Ledgered(w, k); }
  }

  /** A new status for a key that no task past the lock works on. */
  lemma StatusKeeps(w: World, slot: CallKey -> nat, k: CallKey, s: ToolStatus)
    requires Inv(w, slot) && k in w.ledger && s != Prepared
    requires forall u :: u in w.tasks && w.tasks[u].key == k ==> w.tasks[u].progress.Waiting?
    requires Final(s) ==> w.ledger[k].operation in w.results
    ensures Inv(SetStatus(w, k, s), slot)
  {
    var d := SetStatus(w, k, s);
    forall u | u in d.tasks ensures HoldsLock(d, slot, u) && OnTrack(d, u) {
      assert HoldsLock(w, slot, u) && OnTrack(w, u);
    }
    forall j ensures Ledgered(d, j) { assert Ledgered(w, j); }
  }

  /** The last write of a task. */
  lemma CloseKeeps(w: World, slot: CallKey -> nat, t: Id, s: ToolStatus, reply: Reply)
    requires Inv(w, slot) && t in w.tasks && !w.tasks[t].progress.Waiting? && w.tasks[t].key in w.ledger && s != Prepared
    requires Final(s) ==> w.ledger[w.tasks[t].key].operation in w.results
    ensures Inv(Leave(SetStatus(w, w.tasks[t].key, s), slot, t, Some(reply)), slot)
  {
    var left := Leave(w, slot, t, Some(reply));
    LeaveKeeps(w, slot, t, Some(reply));
    forall u | u in left.tasks && left.tasks[u].key == w.tasks[t].key ensures left.tasks[u].progress.Waiting? {
      if !w.tasks[u].progress.Waiting? { OneTaskPerKey(w, slot, t, u); }
    }
    StatusKeeps(left, slot, w.tasks[t].key, s);
    assert Leave(SetStatus(w, w.tasks[t].key, s), slot, t, Some(reply)) == SetStatus(left, w.tasks[t].key, s);
  }

  lemma AcquireKeeps(w: World, slot: CallKey -> nat, t: Id)
    requires Inv(w, slot) && t in w.tasks
    ensures Inv(Acts(w, slot, t, Acquire), slot)
  {
    var d := Acts(w, slot, t, Acquire);
    forall u | u in d.tasks ensures HoldsLock(d, slot, u) && OnTrack(d, u) {
      assert HoldsLock(w, slot, u) && OnTrack(w, u);
    }
    forall k ensures Ledgered(d, k) { assert Ledgered(w, k); }
  }

  lemma PrepareKeeps(w: World, slot: CallKey -> nat, t: Id, op: Id)
    requires Inv(w, slot) && t in w.tasks && w.tasks[t].progress.Holding?
    ensures Inv(Prepares(w, slot, t, op), slot)
  {
    var task, d := w.tasks[t], Prepares(w, slot, t, op);
    assert Ledgered(w, task.key);
    if task.key in w.ledger {
      var entry := w.ledger[task.key];
      if entry.params == task.params && entry.status.Prepared? {
        OwnStepKeeps(w, d, slot, t);
      } else {
        LeaveKeeps(w, slot, t, Some(d.replies[t]));
      }
    } else if FreshOperation(w.ledger, op) {
      OwnStepKeeps(w, d, slot, t);
    } else {
      LeaveKeeps(w, slot, t, None);
    }
  }

  lemma ActKeeps(w: World, slot: CallKey -> nat, t: Id, action: Action)
    requires Inv(w, slot) && t in w.tasks
    ensures Inv(Acts(w, slot, t, action), slot)
  {
    var task, d := w.tasks[t], Acts(w, slot, t, action);
    assert Ledgered(w, task.key) && OnTrack(w, t);
    hide Inv, Ledgered, HoldsLock;
    match action
    case Acquire => AcquireKeeps(w, slot, t);
    case Deny => LeaveKeeps(w, slot, t, Some(Refused));
    case Abandon => LeaveKeeps(w, slot, t, None);
    case Prepare(op) => if task.progress.Holding? { PrepareKeeps(w, slot, t, op); }
    case StartTool => if task.progress.ToStart? { StartKeeps(w, slot, t); }
    case Call => if task.progress.ToCall? { CallKeeps(w, slot, t); }
    case Return(r) => if task.progress.Calling? { ReturnKeeps(w, slot, t, r); }
    case Save => if task.progress.ToSave? { SaveKeeps(w, slot, t); }
    case Finish =>
      if task.progress.ToFinish? {
        CloseKeeps(w, slot, t, StatusOf(task.progress.result, task.control), Returned(task.progress.result));
      }
    case FailToPersist =>
      if task.progress.ToSave? || task.progress.ToFinish? { CloseKeeps(w, slot, t, Unknown, PersistenceFailed); }
  }

  lemma StartKeeps(w: World, slot: CallKey -> nat, t: Id)
    requires Inv(w, slot) && t in w.tasks && w.tasks[t].progress.ToStart?
    ensures Inv(Acts(w, slot, t, StartTool), slot)
  {
    assert Ledgered(w, w.tasks[t].key) && OnTrack(w, t);
    OwnStepKeeps(w, Acts(w, slot, t, StartTool), slot, t);
  }

  lemma CallKeeps(w: World, slot: CallKey -> nat, t: Id)
    requires Inv(w, slot) && t in w.tasks && w.tasks[t].progress.ToCall?
    ensures Inv(Acts(w, slot, t, Call), slot)
  {
    var d := Acts(w, slot, t, Call);
    assert Ledgered(w, w.tasks[t].key) && OnTrack(w, t);
    forall k ensures Calls(d.calls, k) == Calls(w.calls, k) + if w.tasks[t].key == k then 1 else 0 {
      CallsAppend(w.calls, w.tasks[t].key, k);
    }
    OwnStepKeeps(w, d, slot, t);
  }

  lemma ReturnKeeps(w: World, slot: CallKey -> nat, t: Id, r: ToolResult)
    requires Inv(w, slot) && t in w.tasks && w.tasks[t].progress.Calling?
    ensures Inv(Acts(w, slot, t, Return(r)), slot)
  {
    assert Ledgered(w, w.tasks[t].key) && OnTrack(w, t);
    OwnStepKeeps(w, Acts(w, slot, t, Return(r)), slot, t);
  }

  lemma SaveKeeps(w: World, slot: CallKey -> nat, t: Id)
    requires Inv(w, slot) && t in w.tasks && w.tasks[t].progress.ToSave?
    ensures Inv(Acts(w, slot, t, Save), slot)
  {
    assert Ledgered(w, w.tasks[t].key) && OnTrack(w, t);
    OwnStepKeeps(w, Acts(w, slot, t, Save), slot, t);
  }

  lemma NextKeeps(w: World, slot: CallKey -> nat, step: Step)
    requires Inv(w, slot)
    ensures Inv(Next(w, slot, step), slot)
  {
    match step
    case Act(t, action) => if t in w.tasks { ActKeeps(w, slot, t, action); }
    case Arrive(t, key, params, control) => ArriveKeeps(w, slot, step);
    case Crash =>
      forall k ensures Ledgered(Next(w, slot, step), k) { assert Ledgered(w, k); }
  }

  lemma ArriveKeeps(w: World, slot: CallKey -> nat, step: Step)
    requires Inv(w, slot) && step.Arrive?
    ensures Inv(Next(w, slot, step), slot)
  {
    var d := Next(w, slot, step);
    forall u | u in d.tasks ensures HoldsLock(d, slot, u) && OnTrack(d, u) {
      if u in w.tasks { assert HoldsLock(w, slot, u) && OnTrack(w, u); }
    }
    forall k ensures Ledgered(d, k) { assert Ledgered(w, k); }
  }

  lemma {:induction false} RunKeeps(slot: CallKey -> nat, steps: seq<Step>)
    ensures Inv(Run(slot, steps), slot)
  {
    if steps == [] {
      forall k ensures Ledgered(EMPTY, k) {}
    } else {
      hide Inv, Next;
      RunKeeps(slot, steps[..|steps| - 1]);
      NextKeeps(Run(slot, steps[..|steps| - 1]), slot, steps[|steps| - 1]);
    }
  }

  // ----- What follows -----

  /** The tool is called at most once for a key, and only after its operation has been marked RUNNING;
      and a final status has its result on disk.  This holds for any interleaving of duplicates,
      retries, abandoned tasks, failing writes and crashes. */
  lemma AtMostOnce(slot: CallKey -> nat, steps: seq<Step>, k: CallKey)
    ensures var w := Run(slot, steps);
      && Calls(w.calls, k) <= 1
      && (Calls(w.calls, k) == 1 ==> k in w.ledger && w.ledger[k].status != Prepared)
      && (k in w.ledger && Final(w.ledger[k].status) ==> w.ledger[k].operation in w.results)
  {
    RunKeeps(slot, steps);
    assert Ledgered(Run(slot, steps), k);
  }

  /** A key keeps its operation and its arguments, and once final its status and its result. */
  predicate Kept(w: World, d: World, k: CallKey)
    requires k in w.ledger
  {
    && k in d.ledger && d.ledger[k].operation == w.ledger[k].operation && d.ledger[k].params == w.ledger[k].params
    && (w.ledger[k].status != Prepared ==> d.ledger[k].status != Prepared)
    && (Final(w.ledger[k].status) && w.ledger[k].operation in w.results ==>
          && d.ledger[k].status == w.ledger[k].status && w.ledger[k].operation in d.results
          && d.results[w.ledger[k].operation] == w.results[w.ledger[k].operation])
  }

  lemma ActKept(w: World, slot: CallKey -> nat, t: Id, action: Action, k: CallKey)
    requires Inv(w, slot) && t in w.tasks && k in w.ledger
    ensures Kept(w, Acts(w, slot, t, action), k)
  {
    assert OnTrack(w, t) && Distinct(w.ledger);
    hide Inv;
    if action.Prepare? { PrepareKept(w, slot, t, action.operation, k); } else { OtherActKept(w, slot, t, action, k); }
  }

  lemma OtherActKept(w: World, slot: CallKey -> nat, t: Id, action: Action, k: CallKey)
    requires t in w.tasks && k in w.ledger && OnTrack(w, t) && Distinct(w.ledger) && !action.Prepare?
    ensures Kept(w, Acts(w, slot, t, action), k)
  {
  }

  lemma PrepareKept(w: World, slot: CallKey -> nat, t: Id, op: Id, k: CallKey)
    requires t in w.tasks && k in w.ledger
    ensures Kept(w, Prepares(w, slot, t, op), k)
  {
  }

  lemma {:induction false} RunKept(slot: CallKey -> nat, steps: seq<Step>, n: nat, k: CallKey)
    requires n <= |steps| && k in Run(slot, steps[..n]).ledger
    ensures Kept(Run(slot, steps[..n]), Run(slot, steps), k)
  {
    if n == |steps| {
      assert steps[..n] == steps;
    } else {
      var init, last := steps[..|steps| - 1], steps[|steps| - 1];
      var w := Run(slot, init);
      assert init[..n] == steps[..n];
      RunKept(slot, init, n, k);
      RunKeeps(slot, init);
      if last.Act? && last.task in w.tasks { ActKept(w, slot, last.task, last.action, k); }
    }
  }

  /** What the ledger answers to a call of a key that is past PREPARED. */
  function Answer(w: World, k: CallKey, params: Id): Reply
    requires k in w.ledger
  {
    if w.ledger[k].params != params then Conflict
    else if Final(w.ledger[k].status) && w.ledger[k].operation in w.results then Replayed(w.results[w.ledger[k].operation])
    else NeedsVerification
  }

  /** A task that finds its key past PREPARED leaves with that answer, and the tool is not called. */
  lemma AnsweredByLedger(w: World, slot: CallKey -> nat, u: Id, op: Id)
    requires Inv(w, slot) && u in w.tasks && w.tasks[u].progress.Holding?
    requires w.tasks[u].key in w.ledger && w.ledger[w.tasks[u].key].status != Prepared
    ensures var d, k := Acts(w, slot, u, Prepare(op)), w.tasks[u].key;
      && u !in d.tasks && d.calls == w.calls && d.ledger == w.ledger && d.results == w.results
      && u in d.replies && d.replies[u] == Answer(w, k, w.tasks[u].params)
      && (Final(w.ledger[k].status) ==> w.ledger[k].operation in w.results)
  {
    assert Ledgered(w, w.tasks[u].key);
  }

  /** Once a call has a final status, every later call of its key is answered without calling the tool:
      with the saved result if its arguments are the same, with a conflict if they are not. */
  lemma LaterCallsGetTheSavedResult(slot: CallKey -> nat, steps: seq<Step>, n: nat, k: CallKey, u: Id, op: Id)
    requires n <= |steps| && k in Run(slot, steps[..n]).ledger && Final(Run(slot, steps[..n]).ledger[k].status)
    requires u in Run(slot, steps).tasks && Run(slot, steps).tasks[u].key == k
    requires Run(slot, steps).tasks[u].progress.Holding?
    ensures var first, w := Run(slot, steps[..n]), Run(slot, steps);
      var d := Acts(w, slot, u, Prepare(op));
      && first.ledger[k].operation in first.results
      && u !in d.tasks && d.calls == w.calls && u in d.replies
      && d.replies[u] == if w.tasks[u].params == first.ledger[k].params then Replayed(first.results[first.ledger[k].operation])
                         else Conflict
  {
    AtMostOnce(slot, steps[..n], k);
    RunKept(slot, steps, n, k);
    RunKeeps(slot, steps);
    hide Inv, Run, Acts;
    AnsweredByLedger(Run(slot, steps), slot, u, op);
  }

  /** Once a call has been dispatched, no later call of its key goes past the ledger: not after a crash,
      not after a lost result.  It is answered with the saved result, a conflict, or UNKNOWN. */
  lemma DispatchedIsNeverRepeated(slot: CallKey -> nat, steps: seq<Step>, u: Id, op: Id)
    requires u in Run(slot, steps).tasks && Run(slot, steps).tasks[u].progress.Holding?
    requires Calls(Run(slot, steps).calls, Run(slot, steps).tasks[u].key) == 1
    ensures var w := Run(slot, steps);
      var d, k := Acts(w, slot, u, Prepare(op)), w.tasks[u].key;
      && k in w.ledger && u !in d.tasks && d.calls == w.calls && u in d.replies
      && d.replies[u] == Answer(w, k, w.tasks[u].params)
      && (Final(w.ledger[k].status) ==> w.ledger[k].operation in w.results)
  {
    AtMostOnce(slot, steps, Run(slot, steps).tasks[u].key);
    RunKeeps(slot, steps);
    hide Inv, Run, Acts;
    AnsweredByLedger(Run(slot, steps), slot, u, op);
  }

  // ----- Locks are given back -----

  /** Every lock that is held is held by a task inside, for its own slot. */
  ghost predicate NoLockLeaks(w: World, slot: CallKey -> nat) {
    forall s {:trigger LockHeld(w, slot, s)} :: s in w.locks ==> LockHeld(w, slot, s)
  }

  predicate LockHeld(w: World, slot: CallKey -> nat, s: nat)
    requires s in w.locks
  {
    var t := w.locks[s];
    t in w.tasks && slot(w.tasks[t].key) == s && !w.tasks[t].progress.Waiting?
  }

  lemma LeaveLeaksNothing(w: World, slot: CallKey -> nat, t: Id, reply: Option<Reply>)
    requires NoLockLeaks(w, slot) && t in w.tasks
    ensures NoLockLeaks(Leave(w, slot, t, reply), slot)
  {
    var d := Leave(w, slot, t, reply);
    forall s | s in d.locks ensures LockHeld(d, slot, s) { assert LockHeld(w, slot, s); }
  }

  lemma AdvanceLeaksNothing(w: World, slot: CallKey -> nat, t: Id, progress: Progress)
    requires NoLockLeaks(w, slot) && t in w.tasks && !progress.Waiting?
    ensures NoLockLeaks(Advance(w, t, progress), slot)
  {
    var d := Advance(w, t, progress);
    forall s | s in d.locks ensures LockHeld(d, slot, s) { assert LockHeld(w, slot, s); }
  }

  /** Only these parts of the world matter to it. */
  lemma SameLocks(w: World, d: World, slot: CallKey -> nat)
    requires NoLockLeaks(w, slot) && d.locks == w.locks && d.tasks == w.tasks
    ensures NoLockLeaks(d, slot)
  {
    forall s | s in d.locks ensures LockHeld(d, slot, s) { assert LockHeld(w, slot, s); }
  }

  lemma AcquireLeaksNothing(w: World, slot: CallKey -> nat, t: Id)
    requires NoLockLeaks(w, slot) && t in w.tasks
    ensures NoLockLeaks(Acts(w, slot, t, Acquire), slot)
  {
    var d := Acts(w, slot, t, Acquire);
    forall s | s in d.locks ensures LockHeld(d, slot, s) {
      if s in w.locks { assert LockHeld(w, slot, s); }
    }
  }

  lemma PrepareLeaksNothing(w: World, slot: CallKey -> nat, t: Id, op: Id)
    requires NoLockLeaks(w, slot) && t in w.tasks
    ensures NoLockLeaks(Prepares(w, slot, t, op), slot)
  {
    hide NoLockLeaks, Leave, Advance, FreshOperation;
    var task := w.tasks[t];
    if task.key in w.ledger {
      var entry := w.ledger[task.key];
      AdvanceLeaksNothing(w, slot, t, ToStart(entry.operation));
      LeaveLeaksNothing(w, slot, t, Some(Answer(w, task.key, task.params)));
    } else if FreshOperation(w.ledger, op) {
      var e := w.(ledger := w.ledger[task.key := Entry(op, task.params, Prepared)]);
      SameLocks(w, e, slot);
      AdvanceLeaksNothing(e, slot, t, ToStart(op));
    } else {
      LeaveLeaksNothing(w, slot, t, None);
    }
  }

  lemma ActLeaksNothing(w: World, slot: CallKey -> nat, t: Id, action: Action)
    requires NoLockLeaks(w, slot) && t in w.tasks
    ensures NoLockLeaks(Acts(w, slot, t, action), slot)
  {
    hide NoLockLeaks, Leave, Advance, Prepares;
    var task := w.tasks[t];
    match action
    case Acquire => AcquireLeaksNothing(w, slot, t);
    case Deny => LeaveLeaksNothing(w, slot, t, Some(Refused));
    case Abandon => LeaveLeaksNothing(w, slot, t, None);
    case Prepare(op) => PrepareLeaksNothing(w, slot, t, op);
    case StartTool =>
      if task.progress.ToStart? && task.key in w.ledger {
        SameLocks(w, SetStatus(w, task.key, Running), slot);
        AdvanceLeaksNothing(SetStatus(w, task.key, Running), slot, t, ToCall(task.progress.operation));
      }
    case Call =>
      if task.progress.ToCall? {
        SameLocks(w, w.(calls := w.calls + [task.key]), slot);
        AdvanceLeaksNothing(w.(calls := w.calls + [task.key]), slot, t, Calling(task.progress.operation));
      }
    case Return(r) => if task.progress.Calling? { AdvanceLeaksNothing(w, slot, t, ToSave(task.progress.operation, r)); }
    case Save =>
      if task.progress.ToSave? {
        var e := w.(results := w.results[task.progress.operation := task.progress.result]);
        SameLocks(w, e, slot);
        AdvanceLeaksNothing(e, slot, t, ToFinish(task.progress.operation, task.progress.result));
      }
    case Finish =>
      if task.progress.ToFinish? && task.key in w.ledger {
        var e := SetStatus(w, task.key, StatusOf(task.progress.result, task.control));
        SameLocks(w, e, slot);
        LeaveLeaksNothing(e, slot, t, Some(Returned(task.progress.result)));
      }
    case FailToPersist =>
      if task.key in w.ledger {
        SameLocks(w, SetStatus(w, task.key, Unknown), slot);
        LeaveLeaksNothing(SetStatus(w, task.key, Unknown), slot, t, Some(PersistenceFailed));
      }
  }

  lemma {:induction false} RunLeaksNothing(slot: CallKey -> nat, steps: seq<Step>)
    ensures NoLockLeaks(Run(slot, steps), slot)
  {
    if steps != [] {
      var w, last := Run(slot, steps[..|steps| - 1]), steps[|steps| - 1];
      RunLeaksNothing(slot, steps[..|steps| - 1]);
      if last.Act? && last.task in w.tasks { ActLeaksNothing(w, slot, last.task, last.action); }
      hide Acts;
      if last.Arrive? { ArriveLeaksNothing(w, slot, last); }
    }
  }

  lemma ArriveLeaksNothing(w: World, slot: CallKey -> nat, step: Step)
    requires NoLockLeaks(w, slot) && step.Arrive?
    ensures NoLockLeaks(Next(w, slot, step), slot)
  {
    var d := Next(w, slot, step);
    forall s | s in d.locks ensures LockHeld(d, slot, s) { assert LockHeld(w, slot, s); }
  }

  /** Whatever tasks were abandoned, failed or died before: a task that waits enters its slot unless some
      other task is inside it now. */
  lemma EntersUnlessOccupied(slot: CallKey -> nat, steps: seq<Step>, t: Id)
    requires t in Run(slot, steps).tasks && Run(slot, steps).tasks[t].progress.Waiting?
    ensures var w := Run(slot, steps);
      var d := Acts(w, slot, t, Acquire);
      (t in d.tasks && d.tasks[t].progress.Holding?)
      <==> !exists u :: u in w.tasks && !w.tasks[u].progress.Waiting? && slot(w.tasks[u].key) == slot(w.tasks[t].key)
  {
    RunLeaksNothing(slot, steps);
    RunKeeps(slot, steps);
    var w := Run(slot, steps);
    var s := slot(w.tasks[t].key);
    hide Run, OnTrack, Ledgered, Distinct;
    if s in w.locks { assert LockHeld(w, slot, s); }
    forall u | u in w.tasks ensures HoldsLock(w, slot, u) {}
  }

  // ----- A status tells its result -----

  /** What a final status means: that of the query, or, for a call that asks about another query and gets its
      reference, that asking succeeded. */
  predicate Means(s: ToolStatus, r: ToolResult, control: bool) {
    var about := control && r.hasRef;
    && (s == Succeeded <==>
          about || r.status == QuerySucceeded || r.status == QueryRunning || r.status == QueryCancelling)
    && (s == Failed <==> !about && r.status == QueryFailed)
    && (s == Cancelled <==> !about && r.status == QueryCancelled)
  }

  /** Some call of key k arrived that is, or is not, about another query. */
  ghost predicate Asked(steps: seq<Step>, k: CallKey, control: bool) {
    exists i :: 0 <= i < |steps| && steps[i].Arrive? && steps[i].key == k && steps[i].control == control
  }

  /** The status of key k, if it is final, means its saved result for a call of one of these kinds. */
  predicate TellsAt(w: World, k: CallKey, control: bool, plain: bool) {
    k in w.ledger && Final(w.ledger[k].status) ==>
      && w.ledger[k].operation in w.results
      && var s, r := w.ledger[k].status, w.results[w.ledger[k].operation];
      (control && Means(s, r, true)) || (plain && Means(s, r, false))
  }

  lemma PrepareTells(w: World, slot: CallKey -> nat, t: Id, op: Id, k: CallKey, control: bool, plain: bool)
    requires t in w.tasks && TellsAt(w, k, control, plain)
    ensures TellsAt(Prepares(w, slot, t, op), k, control, plain)
  {
    hide Means;
  }

  lemma OtherActTells(w: World, slot: CallKey -> nat, t: Id, action: Action, k: CallKey, control: bool, plain: bool)
    requires t in w.tasks && OnTrack(w, t) && Distinct(w.ledger) && TellsAt(w, k, control, plain) && !action.Prepare?
    requires w.tasks[t].key == k ==> if w.tasks[t].control then control else plain
    ensures TellsAt(Acts(w, slot, t, action), k, control, plain)
  {
    if action.Finish? && w.tasks[t].progress.ToFinish? {
      assert var r := w.tasks[t].progress.result; Means(StatusOf(r, w.tasks[t].control), r, w.tasks[t].control);
    }
    hide Means, StatusOf;
  }

  lemma ActTells(w: World, slot: CallKey -> nat, t: Id, action: Action, k: CallKey, control: bool, plain: bool)
    requires Inv(w, slot) && TellsAt(w, k, control, plain) && t in w.tasks
    requires w.tasks[t].key == k ==> if w.tasks[t].control then control else plain
    ensures TellsAt(Acts(w, slot, t, action), k, control, plain)
  {
    assert OnTrack(w, t) && Distinct(w.ledger);
    hide Inv, HoldsLock, Ledgered, TellsAt;
    if action.Prepare? {
      PrepareTells(w, slot, t, action.operation, k, control, plain);
    } else {
      OtherActTells(w, slot, t, action, k, control, plain);
    }
  }

  lemma {:induction false} TasksArrived(slot: CallKey -> nat, steps: seq<Step>, t: Id)
    requires t in Run(slot, steps).tasks
    ensures Asked(steps, Run(slot, steps).tasks[t].key, Run(slot, steps).tasks[t].control)
  {
    var init, last := steps[..|steps| - 1], steps[|steps| - 1];
    var w := Run(slot, init);
    if t in w.tasks {
      TasksArrived(slot, init, t);
      StillAsked(steps, w.tasks[t].key, w.tasks[t].control);
      if last.Act? && last.task in w.tasks { ActKeepsTask(w, slot, last.task, last.action, t); }
    } else {
      if last.Act? && last.task in w.tasks { ActAddsNoTask(w, slot, last.task, last.action, t); }
      assert last.Arrive? && last == steps[|steps| - 1];
    }
  }

  lemma StillAsked(steps: seq<Step>, k: CallKey, control: bool)
    requires steps != []
    ensures Asked(steps[..|steps| - 1], k, control) ==> Asked(steps, k, control)
  {
    var init := steps[..|steps| - 1];
    if i :| 0 <= i < |init| && init[i].Arrive? && init[i].key == k && init[i].control == control {
      assert steps[i] == init[i];
    }
  }

  lemma ActKeepsTask(w: World, slot: CallKey -> nat, u: Id, action: Action, t: Id)
    requires u in w.tasks && t in w.tasks
    ensures var d := Acts(w, slot, u, action);
      t in d.tasks ==> d.tasks[t].key == w.tasks[t].key && d.tasks[t].control == w.tasks[t].control
  {
    hide FreshOperation, Prepares, StatusOf;
    if action.Prepare? { PrepareKeepsTask(w, slot, u, action.operation, t); }
  }

  lemma PrepareKeepsTask(w: World, slot: CallKey -> nat, u: Id, op: Id, t: Id)
    requires u in w.tasks && t in w.tasks
    ensures var d := Prepares(w, slot, u, op);
      t in d.tasks ==> d.tasks[t].key == w.tasks[t].key && d.tasks[t].control == w.tasks[t].control
  {
    hide FreshOperation, Final;
  }

  lemma ActAddsNoTask(w: World, slot: CallKey -> nat, u: Id, action: Action, t: Id)
    requires u in w.tasks && t !in w.tasks
    ensures t !in Acts(w, slot, u, action).tasks
  {
    hide FreshOperation;
  }

  /** In every history a final status means the result that is saved with it: that of the query, or, if a call
      arrived under its key that asks about another query, that asking succeeded. */
  lemma {:induction false} StatusTellsResult(slot: CallKey -> nat, steps: seq<Step>, k: CallKey)
    ensures TellsAt(Run(slot, steps), k, Asked(steps, k, true), Asked(steps, k, false))
  {
    if steps != [] {
      var init, last := steps[..|steps| - 1], steps[|steps| - 1];
      var w := Run(slot, init);
      StatusTellsResult(slot, init, k);
      RunKeeps(slot, init);
      StillAsked(steps, k, true);
      StillAsked(steps, k, false);
      if last.Act? && last.task in w.tasks {
        TasksArrived(slot, init, last.task);
        hide Acts, Inv, Means, Asked;
        ActTells(w, slot, last.task, last.action, k, Asked(init, k, true), Asked(init, k, false));
      }
    }
  }
}
