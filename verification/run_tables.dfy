/** The rows of the Runtime database and what each transaction of SqliteRuntimeStore does to them.

    Identifiers are numbers, and so are times: the store compares ISO timestamps as text.  The rows of
    run_events stay in insertion order.  An operation that ends in Err leaves the tables as they
    were, because its transaction rolls back. */
module RunTables {
  import opened Outcomes
  import opened StateMachine
  import opened Bindings

  type Time = int

  datatype Workspace = Workspace(
    scope: string, columns: Option<Columns>, current: Option<Id>,
    active: Option<Id>, epoch: nat, leaseUntil: Option<Time>)

  datatype Session = Session(
    scope: string, workspace: Id, nextRun: nat, nextEvent: nat, epoch: nat, active: Option<Id>)

  datatype Run = Run(
    scope: string, session: Id, workspace: Id, runSeq: nat,
    key: string, fingerprint: Id, snapshot: Id,
    status: RunStatus, attempt: Option<Id>, version: nat,
    outcome: Option<TaskOutcome>, waitReason: Option<string>,
    due: Time, created: Time, nextEvent: nat)

  datatype Attempt = Attempt(
    scope: string, session: Id, run: Id, workspace: Id, epoch: nat, workspaceEpoch: nat,
    leaseUntil: Time, base: Option<Id>, ended: Option<Time>)

  datatype Revision = Revision(scope: string, workspace: Id, parent: Option<Id>)

  datatype Pending = Pending(
    scope: string, run: Id, key: Option<string>, digest: Option<Id>, resolved: bool)

  datatype Event = Event(
    id: Id, scope: string, run: Id, session: Id, eventSeq: nat, sessionSeq: nat, kind: EventKind, data: EventData)

  datatype Db = Db(
    workspaces: map<Id, Workspace>,
    sessions: map<Id, Session>,
    runs: map<Id, Run>,
    attempts: map<Id, Attempt>,
    revisions: map<Id, Revision>,
    pendings: map<Id, Pending>,
    events: seq<Event>)

  const EMPTY := Db(map[], map[], map[], map[], map[], map[], [])

  // ----- Queries -----

  /** SELECT ... WHERE scope_id = ? AND id = ? on runs. */
  predicate HasRun(db: Db, scope: string, r: Id) {
    r in db.runs && db.runs[r].scope == scope
  }

  predicate HasSession(db: Db, scope: string, s: Id) {
    && s in db.sessions && db.sessions[s].scope == scope
    && db.sessions[s].workspace in db.workspaces
    && db.workspaces[db.sessions[s].workspace].scope == scope
  }

  predicate HasKey(db: Db, scope: string, s: Id, key: string, r: Id) {
    HasRun(db, scope, r) && db.runs[r].session == s && db.runs[r].key == key
  }

  predicate HasProject(db: Db, scope: string, project: string, w: Id) {
    && w in db.workspaces && db.workspaces[w].scope == scope
    && db.workspaces[w].columns.Some? && db.workspaces[w].columns.value.project == project
  }

  function StateOf(run: Run): RunState {
    RunState(run.status, run.version, run.outcome, run.waitReason)
  }

  // ----- INSERT INTO run_events -----

  predicate EventIdTaken(events: seq<Event>, id: Id) {
    exists i :: 0 <= i < |events| && events[i].id == id
  }

  /** _insert_event_locked: number the event in its run and in its session. */
  function Insert(db: Db, r: Id, kind: EventKind, data: EventData, id: Id): Outcome<Db>
    requires r in db.runs && db.runs[r].session in db.sessions
  {
    if EventIdTaken(db.events, id) then Err(Integrity)
    else
      var run := db.runs[r];
      var session := db.sessions[run.session];
      Ok(db.(
        events := db.events
                  + [Event(id, run.scope, r, run.session, run.nextEvent, session.nextEvent, kind, data)],
        runs := db.runs[r := run.(nextEvent := run.nextEvent + 1)],
        sessions := db.sessions[run.session := session.(nextEvent := session.nextEvent + 1)]))
  }

  // ----- create_session -----

  /** One session in its user's project workspace, which the first session of a project creates. */
  ghost function CreateSession(db: Db, scope: string, binding: Option<UserBinding>, s: Id, w: Id): Outcome<Db> {
    if binding.Some? && exists x :: HasProject(db, scope, binding.value.project, x) then
      var x :| HasProject(db, scope, binding.value.project, x);
      JoinWorkspace(db, scope, x, Stored(binding.value), s)
    else OpenWorkspace(db, scope, if binding.Some? then Some(Stored(binding.value)) else None, s, w)
  }

  /** The project exists: its path columns follow the binding, its identity may not change. */
  function JoinWorkspace(db: Db, scope: string, x: Id, columns: Columns, s: Id): Outcome<Db>
    requires x in db.workspaces && db.workspaces[x].columns.Some?
  {
    var row := db.workspaces[x];
    if row.columns.value.tenant != columns.tenant || row.columns.value.user != columns.user then
      Err(IdempotencyConflict)
    else if s in db.sessions then Err(Integrity)
    else
      Ok(db.(workspaces := db.workspaces[x := row.(columns := Some(columns))],
             sessions := db.sessions[s := Session(scope, x, 1, 1, 0, None)]))
  }

  function OpenWorkspace(db: Db, scope: string, columns: Option<Columns>, s: Id, w: Id): Outcome<Db> {
    if w in db.workspaces || s in db.sessions then Err(Integrity)
    else
      Ok(db.(workspaces := db.workspaces[w := Workspace(scope, columns, None, None, 0, None)],
             sessions := db.sessions[s := Session(scope, w, 1, 1, 0, None)]))
  }

  // ----- accept_once -----

  /** What a caller submits; `fingerprint` and `snapshot` stand for the digests of the request and of
      its resolved snapshot. */
  datatype Request = Request(
    scope: string, session: Id, key: string, fingerprint: Id, snapshot: Id,
    binding: Option<UserBinding>, rejectIfActive: bool)

  datatype Accepted = Accepted(run: Id, status: RunStatus, version: nat, reused: bool)

  function BindingCheck(w: Workspace, given: Option<UserBinding>): Outcome<()> {
    if w.columns.None? then if given.None? then Ok(()) else Err(IdempotencyConflict)
    else RequireBinding(w.columns.value, given)
  }

  predicate Busy(db: Db, scope: string, s: Id) {
    exists r :: r in db.runs && db.runs[r].scope == scope && db.runs[r].session == s && !Terminal(db.runs[r].status)
  }

  function NewRun(q: Request, session: Session, now: Time): Run {
    Run(q.scope, q.session, session.workspace, session.nextRun, q.key, q.fingerprint, q.snapshot,
        Queued, None, 0, None, None, now, now, 1)
  }

  function AcceptNew(db: Db, q: Request, r: Id, id: Id, now: Time): Outcome<Db>
    requires HasSession(db, q.scope, q.session)
  {
    var session := db.sessions[q.session];
    if r in db.runs then Err(Integrity)
    else
      var inserted := Insert(db.(runs := db.runs[r := NewRun(q, session, now)]), r,
                             RunAccepted, EventData(Some(Queued), None), id);
      if inserted.Err? then inserted
      else
        var d := inserted.value;
        Ok(d.(sessions := d.sessions[q.session := d.sessions[q.session].(nextRun := session.nextRun + 1)]))
  }

  ghost function Accept(db: Db, q: Request, r: Id, id: Id, now: Time): Outcome<(Db, Accepted)> {
    if exists x :: HasKey(db, q.scope, q.session, q.key, x) then
      var x :| HasKey(db, q.scope, q.session, q.key, x);
      var row := db.runs[x];
      if row.fingerprint != q.fingerprint then Err(IdempotencyConflict)
      else Ok((db, Accepted(x, row.status, row.version, true)))
    else if !HasSession(db, q.scope, q.session) then Err(SessionNotFound)
    else
      var check := BindingCheck(db.workspaces[db.sessions[q.session].workspace], q.binding);
      if check.Err? then Err(check.error)
      else if q.rejectIfActive && Busy(db, q.scope, q.session) then Err(MessageBusy)
      else
        var d := AcceptNew(db, q, r, id, now);
        if d.Err? then Err(d.error) else Ok((d.value, Accepted(r, Queued, 0, false)))
  }

  // ----- claim_next_run -----

  predicate EarlierQueued(db: Db, r: Id)
    requires r in db.runs
  {
    exists p :: p in db.runs && db.runs[p].scope == db.runs[r].scope && db.runs[p].session == db.runs[r].session
                && db.runs[p].status == Queued && db.runs[p].runSeq < db.runs[r].runSeq
  }

  predicate Claimable(db: Db, scope: Option<string>, now: Time, r: Id) {
    && r in db.runs && HasSession(db, db.runs[r].scope, db.runs[r].session)
    && db.runs[r].status == Queued && db.runs[r].due <= now
    && db.sessions[db.runs[r].session].active.None?
    && db.workspaces[db.sessions[db.runs[r].session].workspace].active.None?
    && !EarlierQueued(db, r)
    && (scope.Some? ==> db.runs[r].scope == scope.value)
  }

  /** ORDER BY due_at, date_created, run_seq */
  predicate Sooner(a: Run, b: Run) {
    || a.due < b.due
    || (a.due == b.due && (a.created < b.created || (a.created == b.created && a.runSeq <= b.runSeq)))
  }

  /** The row a LIMIT 1 of that order may return; equal keys leave a choice. */
  predicate NextClaim(db: Db, scope: Option<string>, now: Time, r: Id) {
    && Claimable(db, scope, now, r)
    && forall o {:trigger Claimable(db, scope, now, o)} :: o in db.runs && Claimable(db, scope, now, o) ==> Sooner(db.runs[r], db.runs[o])
  }

  /** UNIQUE(scope_id,session_id,epoch) and UNIQUE(scope_id,workspace_id,workspace_epoch) */
  predicate EpochTaken(db: Db, s: Id, epoch: nat, w: Id, workspaceEpoch: nat) {
    exists a :: a in db.attempts
                && ((db.attempts[a].session == s && db.attempts[a].epoch == epoch)
                    || (db.attempts[a].workspace == w && db.attempts[a].workspaceEpoch == workspaceEpoch))
  }

  /** The rows of one claim, before its run.started event. */
  function Lease(db: Db, r: Id, a: Id, now: Time, until: Time): Db
    requires r in db.runs && HasSession(db, db.runs[r].scope, db.runs[r].session)
  {
    var run := db.runs[r];
    var session := db.sessions[run.session];
    var w := session.workspace;
    var workspace := db.workspaces[w];
    db.(
      attempts := db.attempts[a := Attempt(run.scope, run.session, r, w, session.epoch + 1,
                                           workspace.epoch + 1, until, workspace.current, None)],
      sessions := db.sessions[run.session := session.(active := Some(r), epoch := session.epoch + 1)],
      workspaces := db.workspaces[w := workspace.(active := Some(a), epoch := workspace.epoch + 1,
                                                  leaseUntil := Some(until))],
      runs := db.runs[r := run.(status := Running, attempt := Some(a), version := run.version + 1, due := until)])
  }

  function Claim(db: Db, r: Id, a: Id, id: Id, now: Time, until: Time): Outcome<Db>
    requires r in db.runs && HasSession(db, db.runs[r].scope, db.runs[r].session)
  {
    var session := db.sessions[db.runs[r].session];
    if a in db.attempts
       || EpochTaken(db, db.runs[r].session, session.epoch + 1,
                     session.workspace, db.workspaces[session.workspace].epoch + 1) then Err(Integrity)
    else Insert(Lease(db, r, a, now, until), r, RunStarted, NO_DATA, id)
  }

  // ----- transition_run and respond_to_run -----

  function WithState(run: Run, state: RunState): Run {
    run.(status := state.status, version := state.version, outcome := state.outcome,
         waitReason := state.waitReason)
  }

  /** The data of a transition's event.  `extra` is the status that the caller's extra_data binds, if
      it binds one: it is merged last, except into run.finished. */
  function TransitionData(after: RunState, extra: Option<RunStatus>): EventData {
    if Terminal(after.status) then EventData(Some(after.status), after.outcome)
    else if extra.Some? then EventData(extra, None)
    else if Waiting(after.status) || after.status == Queued || after.status == Cancelling then
      EventData(Some(after.status), None)
    else NO_DATA
  }

  /** Ending a run's attempt: nothing points at it any more. */
  function Release(db: Db, r: Id, now: Time): Db
    requires r in db.runs && db.runs[r].session in db.sessions && db.runs[r].workspace in db.workspaces
    requires db.runs[r].attempt.Some? ==> db.runs[r].attempt.value in db.attempts
  {
    var run := db.runs[r];
    if run.attempt.None? then db
    else
      var a := run.attempt.value;
      db.(
        attempts := db.attempts[a := db.attempts[a].(ended := Some(now))],
        sessions := db.sessions[run.session := db.sessions[run.session].(active := None)],
        workspaces := db.workspaces[run.workspace := db.workspaces[run.workspace].(active := None, leaseUntil := None)],
        runs := db.runs[r := run.(attempt := None)])
  }

  datatype Move = Move(
    scope: string, run: Id, expected: int, target: RunStatus,
    outcome: Option<TaskOutcome>, reason: Option<string>, extra: Option<RunStatus>)

  /** Every foreign key of the run's row resolves. */
  predicate Rooted(db: Db, r: Id) {
    && r in db.runs && db.runs[r].session in db.sessions && db.runs[r].workspace in db.workspaces
    && (db.runs[r].attempt.Some? ==> db.runs[r].attempt.value in db.attempts)
  }

  function TransitionRun(db: Db, m: Move, id: Id, now: Time): Outcome<Db>
    requires m.run in db.runs ==> Rooted(db, m.run)
  {
    if !HasRun(db, m.scope, m.run) then Err(RunNotFound)
    else
      var run := db.runs[m.run];
      var change := Transition(StateOf(run), m.target, m.expected, m.outcome, m.reason);
      if change.Err? then Err(change.error)
      else
        var after := change.value.after;
        var inserted := Insert(db.(runs := db.runs[m.run := WithState(run, after)]), m.run,
                               change.value.kind, TransitionData(after, m.extra), id);
        if inserted.Ok? && Terminal(m.target) then Ok(Release(inserted.value, m.run, now)) else inserted
  }

  datatype Reply = Reply(scope: string, run: Id, pending: Id, key: string, digest: Id, expected: int)

  predicate HasPending(db: Db, scope: string, r: Id, p: Id) {
    p in db.pendings && db.pendings[p].scope == scope && db.pendings[p].run == r && HasRun(db, scope, r)
  }

  /** UNIQUE(scope_id,run_id,response_key) */
  predicate ReplyKeyTaken(db: Db, scope: string, r: Id, p: Id, key: string) {
    exists o :: o in db.pendings && o != p && db.pendings[o].scope == scope && db.pendings[o].run == r
                && db.pendings[o].key == Some(key)
  }

  function Respond(db: Db, y: Reply, id: Id): Outcome<Db>
    requires y.run in db.runs ==> Rooted(db, y.run)
  {
    if !HasPending(db, y.scope, y.run, y.pending) then Err(RunNotFound)
    else
      var pending, run := db.pendings[y.pending], db.runs[y.run];
      if pending.resolved then
        if pending.key == Some(y.key) && pending.digest == Some(y.digest) then Ok(db) else Err(StateConflict)
      else if ReplyKeyTaken(db, y.scope, y.run, y.pending, y.key) then Err(Integrity)
      else
        var change := Transition(StateOf(run), Queued, y.expected, None, None);
        if change.Err? then Err(change.error)
        else
          Insert(db.(
                   pendings := db.pendings[y.pending := pending.(key := Some(y.key), digest := Some(y.digest), resolved := true)],
                   runs := db.runs[y.run := WithState(run, change.value.after)]),
                 y.run, change.value.kind, EventData(Some(Queued), None), id)
  }

  // ----- record_workspace_revision -----

  datatype Publication = Publication(workspace: Id, revision: Id, attempt: Id, epoch: nat)

  function Publish(db: Db, scope: string, p: Publication, now: Time): Outcome<Db> {
    if p.workspace !in db.workspaces || db.workspaces[p.workspace].scope != scope then Err(RunNotFound)
    else
      var w := db.workspaces[p.workspace];
      if w.active != Some(p.attempt) || w.epoch != p.epoch then Err(StateConflict)
      else if w.leaseUntil.Some? && w.leaseUntil.value <= now then Err(StateConflict)
      else if p.revision in db.revisions then Err(Integrity)
      else Ok(Advance(db, scope, p))
  }

  /** A new revision on top of the current one, which it replaces. */
  function Advance(db: Db, scope: string, p: Publication): Db
    requires p.workspace in db.workspaces
  {
    var w := db.workspaces[p.workspace];
    db.(revisions := db.revisions[p.revision := Revision(scope, p.workspace, w.current)],
        workspaces := db.workspaces[p.workspace := w.(current := Some(p.revision))])
  }

  // ----- append_event, and the rows other components insert -----

  function Append(db: Db, scope: string, r: Id, kind: EventKind, data: EventData, id: Id): Outcome<Db>
    requires r in db.runs ==> db.runs[r].session in db.sessions
  {
    if !HasRun(db, scope, r) then Err(RunNotFound) else Insert(db, r, kind, data, id)
  }

  /** A pending question; the store itself only answers them. */
  function Ask(db: Db, r: Id, p: Id): Outcome<Db> {
    if r !in db.runs || p in db.pendings then Err(Integrity)
    else Ok(db.(pendings := db.pendings[p := Pending(db.runs[r].scope, r, None, None, false)]))
  }
}
