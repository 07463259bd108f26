/** Each transaction keeps the invariants.  An operation is a change of rows followed by one event, and
    the change of rows is what these lemmas are about. */
module RunSteps {
  import opened Outcomes
  import opened StateMachine
  import opened Bindings
  import opened RunTables
  import opened EventLog
  import opened RunInvariants

  lemma InsertKeepsBase(db: Db, r: Id, kind: EventKind, data: EventData, id: Id)
    requires Base(db) && r in db.runs && db.runs[r].session in db.sessions && Insert(db, r, kind, data, id).Ok?
    ensures Base(Insert(db, r, kind, data, id).value)
    ensures SameRows(db, Insert(db, r, kind, data, id).value)
  {
    hide Refs, Pointers, Epochs, Keys, Checks, Numbered;
    Sides(db);
    InsertKeepsRows(db, r, kind, data, id);
    RowsFrame(db, Insert(db, r, kind, data, id).value);
    InsertKeepsNumbering(db, r, kind, data, id);
  }

  // ----- create_session -----

  /** What create_session does: one new session, in a workspace whose ownership it does not touch. */
  ghost predicate AddsSession(db: Db, d: Db, s: Id) {
    && s !in db.sessions && s in d.sessions && d.sessions == db.sessions[s := d.sessions[s]]
    && d.sessions[s].workspace in d.workspaces
    && d.sessions[s].scope == d.workspaces[d.sessions[s].workspace].scope
    && d.sessions[s].nextRun == d.sessions[s].nextEvent == 1 && d.sessions[s].epoch == 0 && d.sessions[s].active.None?
    && d.runs == db.runs && d.attempts == db.attempts && d.revisions == db.revisions
    && d.pendings == db.pendings && d.events == db.events
    && (forall w :: w in db.workspaces ==>
          w in d.workspaces && d.workspaces[w] == db.workspaces[w].(columns := d.workspaces[w].columns))
    && (forall w :: w in d.workspaces && w !in db.workspaces ==>
          d.workspaces[w].active.None? && d.workspaces[w].current.None? && d.workspaces[w].epoch == 0)
  }

  lemma CreateShape(db: Db, scope: string, binding: Option<UserBinding>, s: Id, w: Id)
    requires CreateSession(db, scope, binding, s, w).Ok?
    ensures AddsSession(db, CreateSession(db, scope, binding, s, w).value, s)
  {
    var d := CreateSession(db, scope, binding, s, w).value;
    if binding.Some? && exists x :: HasProject(db, scope, binding.value.project, x) {
      var x :| HasProject(db, scope, binding.value.project, x) && Ok(d) == JoinWorkspace(db, scope, x, Stored(binding.value), s);
      JoinShape(db, scope, x, Stored(binding.value), s);
    } else {
      OpenShape(db, scope, if binding.Some? then Some(Stored(binding.value)) else None, s, w);
    }
  }

  lemma JoinShape(db: Db, scope: string, x: Id, columns: Columns, s: Id)
    requires x in db.workspaces && db.workspaces[x].columns.Some? && db.workspaces[x].scope == scope
    requires JoinWorkspace(db, scope, x, columns, s).Ok?
    ensures AddsSession(db, JoinWorkspace(db, scope, x, columns, s).value, s)
  {
  }

  lemma OpenShape(db: Db, scope: string, columns: Option<Columns>, s: Id, w: Id)
    requires OpenWorkspace(db, scope, columns, s, w).Ok?
    ensures AddsSession(db, OpenWorkspace(db, scope, columns, s, w).value, s)
  {
  }

  lemma CreateKeepsBase(db: Db, d: Db, s: Id)
    requires Base(db) && AddsSession(db, d, s)
    ensures Base(d)
  {
    hide Refs, Pointers, Epochs, Keys, Checks, Numbered;
    Sides(db);
    CreateKeepsRefs(db, d, s);
    CreateKeepsEpochs(db, d, s);
    CreateKeepsPointers(db, d, s);
    ChecksDependOnRuns(db, d);
    CreateKeepsNumbers(db, d, s);
  }

  lemma CreateKeepsNumbers(db: Db, d: Db, s: Id)
    requires Numbered(db) && AddsSession(db, d, s)
    ensures Numbered(d)
  {
    NumberingFrame(db, d);
  }

  lemma ChecksDependOnRuns(db: Db, d: Db)
    requires Checks(db) && d.runs == db.runs
    ensures Checks(d)
  {
  }

  lemma CreateKeepsRefs(db: Db, d: Db, s: Id)
    requires Refs(db) && Keys(db) && AddsSession(db, d, s)
    ensures Refs(d) && Keys(d)
  {
  }

  lemma CreateKeepsEpochs(db: Db, d: Db, s: Id)
    requires Epochs(db) && AddsSession(db, d, s)
    ensures Epochs(d)
  {
  }

  lemma CreateKeepsPointers(db: Db, d: Db, s: Id)
    requires Refs(db) && Pointers(db) && AddsSession(db, d, s)
    ensures Pointers(d)
  {
    forall r | r in d.runs ensures RunPointer(d, r) { assert RunPointer(db, r); }
    forall x | x in d.sessions ensures SessionPointer(d, x) { assert x != s ==> SessionPointer(db, x); }
    forall w | w in d.workspaces ensures WorkspacePointer(d, w) {
      if w in db.workspaces { assert WorkspacePointer(db, w); }
    }
    forall a | a in d.attempts ensures AttemptPointer(d, a) { assert AttemptPointer(db, a); }
  }

  // ----- accept_once -----

  function Enqueue(db: Db, q: Request, r: Id, now: Time): Db
    requires q.session in db.sessions
  {
    var session := db.sessions[q.session];
    db.(runs := db.runs[r := NewRun(q, session, now)],
        sessions := db.sessions[q.session := session.(nextRun := session.nextRun + 1)])
  }

  lemma AcceptShape(db: Db, q: Request, r: Id, id: Id, now: Time)
    requires HasSession(db, q.scope, q.session) && AcceptNew(db, q, r, id, now).Ok?
    ensures r !in db.runs
    ensures Insert(Enqueue(db, q, r, now), r, RunAccepted, EventData(Some(Queued), None), id)
              == AcceptNew(db, q, r, id, now)
  {
    var d, e := AcceptNew(db, q, r, id, now).value,
                Insert(Enqueue(db, q, r, now), r, RunAccepted, EventData(Some(Queued), None), id).value;
    assert d.sessions == e.sessions;
    assert d.runs == e.runs;
  }

  lemma EnqueueKeepsBase(db: Db, q: Request, r: Id, now: Time)
    requires Base(db) && HasSession(db, q.scope, q.session) && r !in db.runs
    requires forall x :: x in db.runs && db.runs[x].session == q.session ==> db.runs[x].key != q.key
    ensures Base(Enqueue(db, q, r, now))
  {
    hide Refs, Pointers, Epochs, Keys, Checks, Numbered;
    Sides(db);
    EnqueueKeepsRefs(db, q, r, now);
    EnqueueKeepsPointers(db, q, r, now);
    EnqueueKeepsKeys(db, q, r, now);
    EnqueueKeepsChecks(db, q, r, now);
    EnqueueKeepsNumbers(db, q, r, now);
  }

  lemma EnqueueKeepsNumbers(db: Db, q: Request, r: Id, now: Time)
    requires Numbered(db) && q.session in db.sessions && r !in db.runs
    ensures Numbered(Enqueue(db, q, r, now))
  {
    NumberingFrame(db, Enqueue(db, q, r, now));
  }

  lemma EnqueueKeepsRefs(db: Db, q: Request, r: Id, now: Time)
    requires Refs(db) && Epochs(db) && HasSession(db, q.scope, q.session) && r !in db.runs
    ensures Refs(Enqueue(db, q, r, now)) && Epochs(Enqueue(db, q, r, now))
  {
  }

  lemma EnqueueKeepsChecks(db: Db, q: Request, r: Id, now: Time)
    requires Checks(db) && q.session in db.sessions
    ensures Checks(Enqueue(db, q, r, now))
  {
    var d := Enqueue(db, q, r, now);
    forall x | x in d.runs ensures RowChecks(StateOf(d.runs[x])) {
      if x != r { assert RowChecks(StateOf(db.runs[x])); }
    }
  }

  lemma EnqueueKeepsPointers(db: Db, q: Request, r: Id, now: Time)
    requires Refs(db) && Pointers(db) && HasSession(db, q.scope, q.session) && r !in db.runs
    ensures Pointers(Enqueue(db, q, r, now))
  {
    var d := Enqueue(db, q, r, now);
    forall x | x in d.runs ensures RunPointer(d, x) { if x != r { assert RunPointer(db, x); } }
    forall x | x in d.sessions ensures SessionPointer(d, x) { assert SessionPointer(db, x); }
    forall x | x in d.workspaces ensures WorkspacePointer(d, x) { assert WorkspacePointer(db, x); }
    forall x | x in d.attempts ensures AttemptPointer(d, x) { assert AttemptPointer(db, x); }
  }

  lemma EnqueueKeepsKeys(db: Db, q: Request, r: Id, now: Time)
    requires Refs(db) && Keys(db) && HasSession(db, q.scope, q.session) && r !in db.runs
    requires forall x :: x in db.runs && db.runs[x].session == q.session ==> db.runs[x].key != q.key
    ensures Keys(Enqueue(db, q, r, now))
  {
    var d := Enqueue(db, q, r, now);
    forall x, y | x in d.runs && y in d.runs && x != y ensures Separate(d.runs[x], d.runs[y]) {
      if x != r && y != r { assert Separate(db.runs[x], db.runs[y]); }
    }
  }

  // ----- claim_next_run -----

  /** Nothing of a claimable run's session or workspace is owned, and it has never been claimed. */
  lemma ClaimableIsFree(db: Db, scope: Option<string>, now: Time, r: Id)
    requires Refs(db) && Pointers(db) && Claimable(db, scope, now, r)
    ensures forall x :: x in db.runs && db.runs[x].session == db.runs[r].session ==> db.runs[x].attempt.None?
    ensures forall x :: x in db.runs && db.runs[x].workspace == db.runs[r].workspace ==> db.runs[x].attempt.None?
    ensures forall a :: a in db.attempts ==> db.attempts[a].run != r
  {
    forall x | x in db.runs && db.runs[x].attempt.Some?
      ensures db.runs[x].session != db.runs[r].session && db.runs[x].workspace != db.runs[r].workspace
    {
      assert RunPointer(db, x);
    }
    forall a | a in db.attempts ensures db.attempts[a].run != r {
      assert AttemptPointer(db, a);
    }
  }

  /** The UNIQUE constraints on epochs never stop a claim. */
  lemma EpochsAreFree(db: Db, r: Id)
    requires Refs(db) && Epochs(db) && r in db.runs
    ensures var s := db.runs[r].session;
      var w := db.sessions[s].workspace;
      !EpochTaken(db, s, db.sessions[s].epoch + 1, w, db.workspaces[w].epoch + 1)
  {
  }

  lemma LeaseKeepsBase(db: Db, scope: Option<string>, r: Id, a: Id, now: Time, until: Time)
    requires Base(db) && Claimable(db, scope, now, r) && a !in db.attempts
    ensures Base(Lease(db, r, a, now, until))
  {
    hide Refs, Pointers, Epochs, Keys, Checks, Numbered;
    Sides(db);
    ClaimableIsFree(db, scope, now, r);
    LeaseKeepsRefs(db, r, a, now, until);
    LeaseKeepsPointers(db, r, a, now, until);
    LeaseKeepsEpochs(db, r, a, now, until);
    LeaseKeepsKeys(db, r, a, now, until);
    LeaseKeepsNumbers(db, r, a, now, until);
  }

  lemma LeaseKeepsNumbers(db: Db, r: Id, a: Id, now: Time, until: Time)
    requires Numbered(db) && r in db.runs && HasSession(db, db.runs[r].scope, db.runs[r].session)
    ensures Numbered(Lease(db, r, a, now, until))
  {
    NumberingFrame(db, Lease(db, r, a, now, until));
  }

  lemma LeaseKeepsRefs(db: Db, r: Id, a: Id, now: Time, until: Time)
    requires Refs(db) && r in db.runs && a !in db.attempts
    ensures Refs(Lease(db, r, a, now, until))
  {
  }

  lemma LeaseKeepsKeys(db: Db, r: Id, a: Id, now: Time, until: Time)
    requires Refs(db) && Keys(db) && Checks(db) && r in db.runs && db.runs[r].status == Queued
    ensures Keys(Lease(db, r, a, now, until)) && Checks(Lease(db, r, a, now, until))
  {
    var d := Lease(db, r, a, now, until);
    forall x, y | x in d.runs && y in d.runs && x != y ensures Separate(d.runs[x], d.runs[y]) {
      assert Separate(db.runs[x], db.runs[y]);
    }
    forall x | x in d.runs ensures RowChecks(StateOf(d.runs[x])) {
      assert RowChecks(StateOf(db.runs[x]));
    }
  }

  lemma LeaseKeepsPointers(db: Db, r: Id, a: Id, now: Time, until: Time)
    requires Refs(db) && Pointers(db) && r in db.runs && a !in db.attempts && !Terminal(db.runs[r].status)
    requires forall x :: x in db.runs && db.runs[x].session == db.runs[r].session ==> db.runs[x].attempt.None?
    requires forall x :: x in db.runs && db.runs[x].workspace == db.runs[r].workspace ==> db.runs[x].attempt.None?
    requires forall b :: b in db.attempts ==> db.attempts[b].run != r
    ensures Pointers(Lease(db, r, a, now, until))
  {
    var d := Lease(db, r, a, now, until);
    forall x | x in d.runs ensures RunPointer(d, x) { if x != r { assert RunPointer(db, x); } }
    forall x | x in d.sessions ensures SessionPointer(d, x) {
      if x != db.runs[r].session { assert SessionPointer(db, x); }
    }
    forall x | x in d.workspaces ensures WorkspacePointer(d, x) {
      if x != db.runs[r].workspace { assert WorkspacePointer(db, x); }
    }
    forall x | x in d.attempts ensures AttemptPointer(d, x) { if x != a { assert AttemptPointer(db, x); } }
  }

  lemma LeaseKeepsEpochs(db: Db, r: Id, a: Id, now: Time, until: Time)
    requires Refs(db) && Epochs(db) && r in db.runs && a !in db.attempts
    requires forall b :: b in db.attempts ==> db.attempts[b].run != r
    ensures Epochs(Lease(db, r, a, now, until))
  {
    var d := Lease(db, r, a, now, until);
    forall x, y | x in d.attempts && y in d.attempts && x != y ensures Apart(d.attempts[x], d.attempts[y]) {
      if x != a && y != a {
        assert Apart(db.attempts[x], db.attempts[y]);
      }
    }
  }

  // ----- transition_run -----

  function Restate(db: Db, r: Id, after: RunState): Db
    requires r in db.runs
  {
    db.(runs := db.runs[r := WithState(db.runs[r], after)])
  }

  /** The same for a finished run whose attempt ends. */
  function Finish(db: Db, r: Id, after: RunState, now: Time): Db
    requires Rooted(db, r) && db.runs[r].attempt.Some?
  {
    var run := db.runs[r];
    var a := run.attempt.value;
    db.(
      runs := db.runs[r := WithState(run, after).(attempt := None)],
      attempts := db.attempts[a := db.attempts[a].(ended := Some(now))],
      sessions := db.sessions[run.session := db.sessions[run.session].(active := None)],
      workspaces := db.workspaces[run.workspace := db.workspaces[run.workspace].(active := None, leaseUntil := None)])
  }

  /** The rows after a transition: the new state, and nothing owned by a finished run. */
  function Settle(db: Db, r: Id, after: RunState, now: Time): Db
    requires Rooted(db, r)
  {
    if Terminal(after.status) && db.runs[r].attempt.Some? then Finish(db, r, after, now) else Restate(db, r, after)
  }

  lemma ReleaseAfterInsert(db: Db, r: Id, after: RunState, now: Time, kind: EventKind, data: EventData, id: Id)
    requires Rooted(db, r) && db.runs[r].attempt.Some? && Insert(Restate(db, r, after), r, kind, data, id).Ok?
    ensures Insert(Finish(db, r, after, now), r, kind, data, id)
              == Ok(Release(Insert(Restate(db, r, after), r, kind, data, id).value, r, now))
  {
    var d := Release(Insert(Restate(db, r, after), r, kind, data, id).value, r, now);
    var e := Insert(Finish(db, r, after, now), r, kind, data, id).value;
    assert d.sessions == e.sessions;
    assert d.runs == e.runs;
  }

  lemma TransitionShape(db: Db, m: Move, id: Id, now: Time)
    requires (m.run in db.runs ==> Rooted(db, m.run)) && TransitionRun(db, m, id, now).Ok?
    ensures HasRun(db, m.scope, m.run)
    ensures var change := Transition(StateOf(db.runs[m.run]), m.target, m.expected, m.outcome, m.reason);
      && change.Ok?
      && Insert(Settle(db, m.run, change.value.after, now), m.run, KindOf(m.target),
                TransitionData(change.value.after, m.extra), id)
           == TransitionRun(db, m, id, now)
  {
    var after := Transition(StateOf(db.runs[m.run]), m.target, m.expected, m.outcome, m.reason).value.after;
    if Terminal(m.target) && db.runs[m.run].attempt.Some? {
      ReleaseAfterInsert(db, m.run, after, now, KindOf(m.target), TransitionData(after, m.extra), id);
    }
  }

  lemma RefsMakeRooted(db: Db, r: Id)
    requires Refs(db) && Pointers(db) && r in db.runs
    ensures Rooted(db, r)
  {
    assert RunPointer(db, r);
  }

  lemma RestateKeepsBase(db: Db, r: Id, after: RunState)
    requires Base(db) && r in db.runs && !Terminal(db.runs[r].status) && RowChecks(after)
    requires db.runs[r].attempt.Some? ==> !Terminal(after.status)
    ensures Base(Restate(db, r, after))
  {
    hide Refs, Pointers, Epochs, Keys, Checks, Numbered;
    Sides(db);
    RestateKeepsRefs(db, r, after);
    RestateKeepsPointers(db, r, after);
    RestateKeepsKeys(db, r, after);
    RestateKeepsNumbers(db, r, after);
  }

  lemma RestateKeepsNumbers(db: Db, r: Id, after: RunState)
    requires Numbered(db) && r in db.runs
    ensures Numbered(Restate(db, r, after))
  {
    NumberingFrame(db, Restate(db, r, after));
  }

  lemma RestateKeepsRefs(db: Db, r: Id, after: RunState)
    requires Refs(db) && Epochs(db) && r in db.runs
    ensures Refs(Restate(db, r, after)) && Epochs(Restate(db, r, after))
  {
  }

  lemma RestateKeepsKeys(db: Db, r: Id, after: RunState)
    requires Keys(db) && Checks(db) && r in db.runs && RowChecks(after)
    ensures Keys(Restate(db, r, after)) && Checks(Restate(db, r, after))
  {
    var d := Restate(db, r, after);
    forall x, y | x in d.runs && y in d.runs && x != y ensures Separate(d.runs[x], d.runs[y]) {
      assert Separate(db.runs[x], db.runs[y]);
    }
    forall x | x in d.runs ensures RowChecks(StateOf(d.runs[x])) {
      if x == r { assert StateOf(d.runs[x]) == after; } else { assert RowChecks(StateOf(db.runs[x])); }
    }
  }

  lemma RestateKeepsPointers(db: Db, r: Id, after: RunState)
    requires Pointers(db) && r in db.runs && !Terminal(db.runs[r].status)
    requires db.runs[r].attempt.Some? ==> !Terminal(after.status)
    ensures Pointers(Restate(db, r, after))
  {
    var d := Restate(db, r, after);
    forall x | x in d.runs ensures RunPointer(d, x) { assert RunPointer(db, x); }
    forall x | x in d.sessions ensures SessionPointer(d, x) { assert SessionPointer(db, x); }
    forall x | x in d.workspaces ensures WorkspacePointer(d, x) { assert WorkspacePointer(db, x); }
    forall x | x in d.attempts ensures AttemptPointer(d, x) { assert AttemptPointer(db, x); }
  }

  lemma FinishKeepsBase(db: Db, r: Id, after: RunState, now: Time)
    requires Base(db) && Rooted(db, r) && db.runs[r].attempt.Some? && Terminal(after.status) && RowChecks(after)
    ensures Base(Finish(db, r, after, now))
  {
    hide Refs, Pointers, Epochs, Keys, Checks, Numbered;
    Sides(db);
    FinishKeepsRefs(db, r, after, now);
    FinishKeepsPointers(db, r, after, now);
    FinishKeepsEpochs(db, r, after, now);
    FinishKeepsKeys(db, r, after, now);
    FinishKeepsNumbers(db, r, after, now);
  }

  lemma FinishKeepsNumbers(db: Db, r: Id, after: RunState, now: Time)
    requires Numbered(db) && Rooted(db, r) && db.runs[r].attempt.Some?
    ensures Numbered(Finish(db, r, after, now))
  {
    NumberingFrame(db, Finish(db, r, after, now));
  }

  lemma FinishKeepsRefs(db: Db, r: Id, after: RunState, now: Time)
    requires Refs(db) && Rooted(db, r) && db.runs[r].attempt.Some?
    ensures Refs(Finish(db, r, after, now))
  {
  }

  lemma FinishKeepsEpochs(db: Db, r: Id, after: RunState, now: Time)
    requires Epochs(db) && Rooted(db, r) && db.runs[r].attempt.Some?
    ensures Epochs(Finish(db, r, after, now))
  {
    var d := Finish(db, r, after, now);
    forall x, y | x in d.attempts && y in d.attempts && x != y ensures Apart(d.attempts[x], d.attempts[y]) {
      assert Apart(db.attempts[x], db.attempts[y]);
    }
  }

  lemma FinishKeepsKeys(db: Db, r: Id, after: RunState, now: Time)
    requires Keys(db) && Checks(db) && Rooted(db, r) && db.runs[r].attempt.Some? && RowChecks(after)
    ensures Keys(Finish(db, r, after, now)) && Checks(Finish(db, r, after, now))
  {
    var d := Finish(db, r, after, now);
    forall x, y | x in d.runs && y in d.runs && x != y ensures Separate(d.runs[x], d.runs[y]) {
      assert Separate(db.runs[x], db.runs[y]);
    }
    forall x | x in d.runs ensures RowChecks(StateOf(d.runs[x])) {
      if x == r { assert StateOf(d.runs[x]) == after; } else { assert RowChecks(StateOf(db.runs[x])); }
    }
  }

  /** Only the finished run owned its session and its workspace, so clearing both pointers is enough. */
  lemma FinishKeepsPointers(db: Db, r: Id, after: RunState, now: Time)
    requires Refs(db) && Pointers(db) && Rooted(db, r) && db.runs[r].attempt.Some? && Terminal(after.status)
    ensures Pointers(Finish(db, r, after, now))
  {
    var d := Finish(db, r, after, now);
    assert RunPointer(db, r);
    forall x | x in d.runs ensures RunPointer(d, x) { assert RunPointer(db, x); }
    forall x | x in d.sessions ensures SessionPointer(d, x) { assert SessionPointer(db, x); }
    forall x | x in d.workspaces ensures WorkspacePointer(d, x) { assert WorkspacePointer(db, x); }
    forall x | x in d.attempts ensures AttemptPointer(d, x) { assert AttemptPointer(db, x); }
  }

  lemma TransitionKeepsBase(db: Db, m: Move, id: Id, now: Time)
    requires Base(db) && (m.run in db.runs ==> Rooted(db, m.run)) && TransitionRun(db, m, id, now).Ok?
    ensures Base(TransitionRun(db, m, id, now).value)
  {
    TransitionShape(db, m, id, now);
    var after := Transition(StateOf(db.runs[m.run]), m.target, m.expected, m.outcome, m.reason).value.after;
    TransitionKeepsRowChecks(StateOf(db.runs[m.run]), m.target, m.expected, m.outcome, m.reason);
    if Terminal(after.status) && db.runs[m.run].attempt.Some? {
      FinishKeepsBase(db, m.run, after, now);
    } else {
      RestateKeepsBase(db, m.run, after);
    }
    InsertKeepsBase(Settle(db, m.run, after, now), m.run, KindOf(m.target), TransitionData(after, m.extra), id);
  }

  // ----- respond_to_run, record_workspace_revision, append_event -----

  /** Pointers and epochs do not depend on the other columns. */
  ghost predicate SameLeases(db: Db, d: Db) {
    && d.runs == db.runs && d.sessions == db.sessions && d.attempts == db.attempts && d.events == db.events
    && d.workspaces.Keys == db.workspaces.Keys
    && (forall w :: w in db.workspaces ==>
          && d.workspaces[w].scope == db.workspaces[w].scope && d.workspaces[w].active == db.workspaces[w].active
          && d.workspaces[w].epoch == db.workspaces[w].epoch)
    && (forall p :: p in d.pendings ==> d.pendings[p].run in db.runs)
  }

  lemma LeasesFrame(db: Db, d: Db)
    requires Base(db) && SameLeases(db, d)
    ensures Base(d)
  {
    hide Refs, Pointers, Epochs, Keys, Checks, Numbered;
    Sides(db);
    LeaseRefsFrame(db, d);
    LeasePointersFrame(db, d);
    LeaseNumbersFrame(db, d);
  }

  lemma LeaseNumbersFrame(db: Db, d: Db)
    requires Numbered(db) && Checks(db) && SameLeases(db, d)
    ensures Numbered(d) && Checks(d)
  {
    ChecksDependOnRuns(db, d);
    NumberingFrame(db, d);
  }

  lemma LeaseRefsFrame(db: Db, d: Db)
    requires Refs(db) && Epochs(db) && Keys(db) && SameLeases(db, d)
    ensures Refs(d) && Epochs(d) && Keys(d)
  {
  }

  lemma LeasePointersFrame(db: Db, d: Db)
    requires Pointers(db) && SameLeases(db, d)
    ensures Pointers(d)
  {
    forall r | r in d.runs ensures RunPointer(d, r) { assert RunPointer(db, r); }
    forall s | s in d.sessions ensures SessionPointer(d, s) { assert SessionPointer(db, s); }
    forall w | w in d.workspaces ensures WorkspacePointer(d, w) { assert WorkspacePointer(db, w); }
    forall a | a in d.attempts ensures AttemptPointer(d, a) { assert AttemptPointer(db, a); }
  }

  /** The rows after a consumed answer. */
  function Answer(db: Db, y: Reply, after: RunState): Db
    requires y.run in db.runs && y.pending in db.pendings
  {
    Restate(db, y.run, after).(pendings := db.pendings[y.pending :=
      db.pendings[y.pending].(key := Some(y.key), digest := Some(y.digest), resolved := true)])
  }

  lemma RespondShape(db: Db, y: Reply, id: Id)
    requires (y.run in db.runs ==> Rooted(db, y.run)) && Respond(db, y, id).Ok?
    ensures HasPending(db, y.scope, y.run, y.pending)
    ensures if db.pendings[y.pending].resolved then Respond(db, y, id).value == db
      else
        var change := Transition(StateOf(db.runs[y.run]), Queued, y.expected, None, None);
        change.Ok? && Insert(Answer(db, y, change.value.after), y.run, RunResumed, EventData(Some(Queued), None), id)
                        == Respond(db, y, id)
  {
  }

  lemma AnswerKeepsBase(db: Db, y: Reply, after: RunState)
    requires Base(db) && y.run in db.runs && y.pending in db.pendings
    requires !Terminal(db.runs[y.run].status) && !Terminal(after.status) && RowChecks(after)
    ensures Base(Answer(db, y, after))
  {
    assert Holds(db, References);
    RestateKeepsBase(db, y.run, after);
    LeasesFrame(Restate(db, y.run, after), Answer(db, y, after));
  }

  lemma RespondKeepsBase(db: Db, y: Reply, id: Id)
    requires Base(db) && (y.run in db.runs ==> Rooted(db, y.run)) && Respond(db, y, id).Ok?
    ensures Base(Respond(db, y, id).value)
  {
    RespondShape(db, y, id);
    if !db.pendings[y.pending].resolved {
      var after := Transition(StateOf(db.runs[y.run]), Queued, y.expected, None, None).value.after;
      TransitionKeepsRowChecks(StateOf(db.runs[y.run]), Queued, y.expected, None, None);
      AnswerKeepsBase(db, y, after);
      InsertKeepsBase(Answer(db, y, after), y.run, RunResumed, EventData(Some(Queued), None), id);
    }
  }

  lemma PublishKeepsBase(db: Db, scope: string, p: Publication, now: Time)
    requires Base(db) && Publish(db, scope, p, now).Ok?
    ensures Base(Publish(db, scope, p, now).value)
  {
    assert Holds(db, References);
    LeasesFrame(db, Publish(db, scope, p, now).value);
  }

  lemma AskKeepsBase(db: Db, r: Id, p: Id)
    requires Base(db) && Ask(db, r, p).Ok?
    ensures Base(Ask(db, r, p).value)
  {
    assert Holds(db, References);
    LeasesFrame(db, Ask(db, r, p).value);
  }

  // ----- Ownership of active runs -----

  /** What a transition leaves in the runs table. */
  lemma TransitionRows(db: Db, m: Move, id: Id, now: Time)
    requires (m.run in db.runs ==> Rooted(db, m.run)) && TransitionRun(db, m, id, now).Ok?
    ensures m.run in db.runs
    ensures var d := TransitionRun(db, m, id, now).value;
      && d.runs.Keys == db.runs.Keys
      && (forall r :: r in db.runs && r != m.run ==> d.runs[r] == db.runs[r])
      && d.runs[m.run].status == m.target
      && d.runs[m.run].attempt == (if Terminal(m.target) then None else db.runs[m.run].attempt)
  {
  }

  /** A transition keeps every active run owned, unless it starts one that no attempt has claimed. */
  lemma TransitionKeepsOwned(db: Db, m: Move, id: Id, now: Time)
    requires Owned(db) && (m.run in db.runs ==> Rooted(db, m.run)) && TransitionRun(db, m, id, now).Ok?
    ensures m.run in db.runs
    ensures Owned(TransitionRun(db, m, id, now).value) <==> !(m.target == Running && db.runs[m.run].attempt.None?)
  {
    TransitionRows(db, m, id, now);
    AllowedActive(db, m, id, now);
    assert m.run in TransitionRun(db, m, id, now).value.runs;
  }

  /** Only RUNNING is entered from the queue; the other active statuses follow an active one. */
  lemma AllowedActive(db: Db, m: Move, id: Id, now: Time)
    requires (m.run in db.runs ==> Rooted(db, m.run)) && TransitionRun(db, m, id, now).Ok?
    ensures m.run in db.runs && (Active(m.target) ==> m.target == Running || Active(db.runs[m.run].status))
  {
  }

  lemma OwnedFrame(db: Db, d: Db)
    requires Owned(db)
    requires forall r :: r in d.runs ==>
               || (r in db.runs && d.runs[r].status == db.runs[r].status && d.runs[r].attempt == db.runs[r].attempt)
               || !Active(d.runs[r].status) || d.runs[r].attempt.Some?
    ensures Owned(d)
  {
  }

  // ----- First in, first out -----

  /** A new run is numbered after every claimed one of its session. */
  predicate Follows(db: Db, run: Run, a: Id)
    requires a in db.attempts
  {
    db.attempts[a].run in db.runs && run.session == db.attempts[a].session ==>
      db.runs[db.attempts[a].run].runSeq < run.runSeq
  }

  /** Rows of a session in which no settled run came back to life and no claim was made. */
  ghost predicate KeepsOrder(db: Db, d: Db) {
    && (forall a :: a in d.attempts ==>
          && a in db.attempts && db.attempts[a].run in db.runs
          && d.attempts[a].run == db.attempts[a].run && d.attempts[a].session == db.attempts[a].session
          && d.attempts[a].epoch == db.attempts[a].epoch)
    && (forall r :: r in db.runs ==>
          && r in d.runs && d.runs[r].session == db.runs[r].session && d.runs[r].runSeq == db.runs[r].runSeq
          && (Settled(db.runs[r]) ==> Settled(d.runs[r])))
    && (forall r, a :: r in d.runs && r !in db.runs && a in db.attempts ==> Follows(db, d.runs[r], a))
  }

  lemma FifoKept(db: Db, d: Db)
    requires Fifo(db) && KeepsOrder(db, d)
    ensures Fifo(d)
  {
    forall a, p | Precedes(d, p, a) ensures Settled(d.runs[p]) {
      assert Precedes(db, p, a);
    }
    forall a, b | ClaimedBefore(d, a, b)
      ensures d.runs[d.attempts[a].run].runSeq < d.runs[d.attempts[b].run].runSeq
    {
      assert ClaimedBefore(db, a, b);
    }
  }

  /** Every earlier run of r's session is settled. */
  ghost predicate EarlierSettled(db: Db, r: Id)
    requires r in db.runs
  {
    forall p :: p in db.runs && db.runs[p].session == db.runs[r].session && db.runs[p].runSeq < db.runs[r].runSeq ==>
      Settled(db.runs[p])
  }

  /** When active runs are owned, a claimable run has only settled runs before it. */
  lemma ClaimableIsNext(db: Db, scope: Option<string>, now: Time, r: Id)
    requires Base(db) && Owned(db) && Claimable(db, scope, now, r)
    ensures EarlierSettled(db, r)
  {
    assert Holds(db, References) && Holds(db, Ownership);
    ClaimableIsFree(db, scope, now, r);
    forall p | p in db.runs && db.runs[p].session == db.runs[r].session && db.runs[p].runSeq < db.runs[r].runSeq
      ensures Settled(db.runs[p])
    {
      assert db.runs[p].attempt.None?;
    }
  }

  /** No run after a claimable one was ever claimed. */
  lemma NoLaterClaim(db: Db, scope: Option<string>, now: Time, r: Id)
    requires Base(db) && Fifo(db) && Claimable(db, scope, now, r)
    ensures forall a :: a in db.attempts && db.attempts[a].session == db.runs[r].session ==>
              db.attempts[a].run in db.runs && db.runs[db.attempts[a].run].runSeq < db.runs[r].runSeq
  {
    assert Holds(db, References) && Holds(db, Ownership) && Holds(db, Uniqueness);
    ClaimableIsFree(db, scope, now, r);
    forall a | a in db.attempts && db.attempts[a].session == db.runs[r].session
      ensures db.attempts[a].run in db.runs && db.runs[db.attempts[a].run].runSeq < db.runs[r].runSeq
    {
      assert Separate(db.runs[r], db.runs[db.attempts[a].run]);
      assert !Precedes(db, r, a);
    }
  }

  /** A claim keeps the order of claims exactly when every earlier run is settled. */
  lemma LeaseKeepsFifo(db: Db, scope: Option<string>, r: Id, a: Id, now: Time, until: Time)
    requires Base(db) && Fifo(db) && Claimable(db, scope, now, r) && a !in db.attempts
    ensures Fifo(Lease(db, r, a, now, until)) <==> EarlierSettled(db, r)
  {
    assert Holds(db, References) && Holds(db, EpochOrder);
    var d := Lease(db, r, a, now, until);
    if EarlierSettled(db, r) {
      NoLaterClaim(db, scope, now, r);
      forall b, p | Precedes(d, p, b) ensures Settled(d.runs[p]) {
        if b != a {
          assert Precedes(db, p, b);
        }
      }
      forall x, y | ClaimedBefore(d, x, y)
        ensures d.runs[d.attempts[x].run].runSeq < d.runs[d.attempts[y].run].runSeq
      {
        if x != a && y != a {
          assert ClaimedBefore(db, x, y);
        }
      }
    } else {
      var p :| p in db.runs && db.runs[p].session == db.runs[r].session && db.runs[p].runSeq < db.runs[r].runSeq
               && !Settled(db.runs[p]);
      assert Precedes(d, p, a);
    }
  }
}
