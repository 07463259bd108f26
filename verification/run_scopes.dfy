/** Scopes are kept apart: what is called for one scope neither reads into nor changes the rows of another. */
module RunScopes {
  import opened Outcomes
  import opened StateMachine
  import opened Bindings
  import opened RunTables
  import opened EventLog
  import opened RunInvariants
  import opened RunSteps
  import opened RunHistories

  /** The rows of attempts, questions and revisions carry the scope of what they belong to. */
  ghost predicate Scoped(db: Db) {
    && (forall a :: a in db.attempts && db.attempts[a].run in db.runs ==> db.attempts[a].scope == db.runs[db.attempts[a].run].scope)
    && (forall p :: p in db.pendings && db.pendings[p].run in db.runs ==> db.pendings[p].scope == db.runs[db.pendings[p].run].scope)
  }

  // ----- What a scope sees -----

  function WorkspacesOf(m: map<Id, Workspace>, u: string): map<Id, Workspace> {
    map k | k in m && m[k].scope == u :: m[k]
  }

  function SessionsOf(m: map<Id, Session>, u: string): map<Id, Session> {
    map k | k in m && m[k].scope == u :: m[k]
  }

  function RunsOf(m: map<Id, Run>, u: string): map<Id, Run> {
    map k | k in m && m[k].scope == u :: m[k]
  }

  function AttemptsOf(m: map<Id, Attempt>, u: string): map<Id, Attempt> {
    map k | k in m && m[k].scope == u :: m[k]
  }

  function RevisionsOf(m: map<Id, Revision>, u: string): map<Id, Revision> {
    map k | k in m && m[k].scope == u :: m[k]
  }

  function PendingsOf(m: map<Id, Pending>, u: string): map<Id, Pending> {
    map k | k in m && m[k].scope == u :: m[k]
  }

  function EventsOf(events: seq<Event>, u: string): seq<Event> {
    if events == [] then []
    else EventsOf(events[..|events| - 1], u) + if events[|events| - 1].scope == u then [events[|events| - 1]] else []
  }

  /** The rows of one scope. */
  function View(db: Db, u: string): Db {
    Db(WorkspacesOf(db.workspaces, u), SessionsOf(db.sessions, u), RunsOf(db.runs, u), AttemptsOf(db.attempts, u),
       RevisionsOf(db.revisions, u), PendingsOf(db.pendings, u), EventsOf(db.events, u))
  }

  lemma OtherWorkspace(m: map<Id, Workspace>, k: Id, v: Workspace, u: string)
    requires v.scope != u && (k in m ==> m[k].scope != u)
    ensures WorkspacesOf(m[k := v], u) == WorkspacesOf(m, u)
  {
  }

  lemma OtherSession(m: map<Id, Session>, k: Id, v: Session, u: string)
    requires v.scope != u && (k in m ==> m[k].scope != u)
    ensures SessionsOf(m[k := v], u) == SessionsOf(m, u)
  {
  }

  lemma OtherRun(m: map<Id, Run>, k: Id, v: Run, u: string)
    requires v.scope != u && (k in m ==> m[k].scope != u)
    ensures RunsOf(m[k := v], u) == RunsOf(m, u)
  {
  }

  lemma OtherAttempt(m: map<Id, Attempt>, k: Id, v: Attempt, u: string)
    requires v.scope != u && (k in m ==> m[k].scope != u)
    ensures AttemptsOf(m[k := v], u) == AttemptsOf(m, u)
  {
  }

  lemma OtherRevision(m: map<Id, Revision>, k: Id, v: Revision, u: string)
    requires v.scope != u && (k in m ==> m[k].scope != u)
    ensures RevisionsOf(m[k := v], u) == RevisionsOf(m, u)
  {
  }

  lemma OtherPending(m: map<Id, Pending>, k: Id, v: Pending, u: string)
    requires v.scope != u && (k in m ==> m[k].scope != u)
    ensures PendingsOf(m[k := v], u) == PendingsOf(m, u)
  {
  }

  lemma OtherEvent(events: seq<Event>, e: Event, u: string)
    requires e.scope != u
    ensures EventsOf(events + [e], u) == EventsOf(events, u)
  {
    assert (events + [e])[..|events|] == events;
  }

  /** The scope that a step is called for: a claim without one is for the scope of its run. */
  function CalledFor(db: Db, step: Step): Option<string> {
    match step
    case Create(scope, _, _, _) => Some(scope)
    case Submit(q, _, _, _) => Some(q.scope)
    case ClaimNext(only, r, _, _, _, _) =>
      if only.Some? then only else if r in db.runs then Some(db.runs[r].scope) else None
    case Transit(m, _, _) => Some(m.scope)
    case Resume(y, _) => Some(y.scope)
    case Commit(scope, _, _) => Some(scope)
    case Record(scope, _, _, _, _) => Some(scope)
    case Question(r, _) => if r in db.runs then Some(db.runs[r].scope) else None
  }

  // ----- Each transaction -----

  lemma InsertUnseen(c: Db, r: Id, kind: EventKind, data: EventData, id: Id, u: string)
    requires r in c.runs && c.runs[r].session in c.sessions && Insert(c, r, kind, data, id).Ok?
    requires c.runs[r].scope != u && c.sessions[c.runs[r].session].scope != u
    ensures View(Insert(c, r, kind, data, id).value, u) == View(c, u)
  {
    hide EventsOf, RunsOf, SessionsOf, WorkspacesOf, AttemptsOf, RevisionsOf, PendingsOf, EventIdTaken;
    var d := Insert(c, r, kind, data, id).value;
    OtherEvent(c.events, d.events[|c.events|], u);
    OtherRun(c.runs, r, d.runs[r], u);
    OtherSession(c.sessions, c.runs[r].session, d.sessions[c.runs[r].session], u);
  }

  lemma JoinUnseen(db: Db, scope: string, x: Id, columns: Columns, s: Id, u: string)
    requires x in db.workspaces && db.workspaces[x].columns.Some? && db.workspaces[x].scope == scope != u
    requires JoinWorkspace(db, scope, x, columns, s).Ok?
    ensures View(JoinWorkspace(db, scope, x, columns, s).value, u) == View(db, u)
  {
    hide EventsOf, RunsOf, SessionsOf, WorkspacesOf, AttemptsOf, RevisionsOf, PendingsOf;
    var d := JoinWorkspace(db, scope, x, columns, s).value;
    OtherWorkspace(db.workspaces, x, d.workspaces[x], u);
    OtherSession(db.sessions, s, d.sessions[s], u);
  }

  lemma OpenUnseen(db: Db, scope: string, columns: Option<Columns>, s: Id, w: Id, u: string)
    requires OpenWorkspace(db, scope, columns, s, w).Ok? && scope != u
    ensures View(OpenWorkspace(db, scope, columns, s, w).value, u) == View(db, u)
  {
    hide EventsOf, RunsOf, SessionsOf, WorkspacesOf, AttemptsOf, RevisionsOf, PendingsOf;
    var d := OpenWorkspace(db, scope, columns, s, w).value;
    OtherWorkspace(db.workspaces, w, d.workspaces[w], u);
    OtherSession(db.sessions, s, d.sessions[s], u);
  }

  lemma CreateUnseen(db: Db, scope: string, binding: Option<UserBinding>, s: Id, w: Id, u: string)
    requires CreateSession(db, scope, binding, s, w).Ok? && scope != u
    ensures View(CreateSession(db, scope, binding, s, w).value, u) == View(db, u)
  {
    hide View, OpenWorkspace, JoinWorkspace;
    if binding.Some? && exists x :: HasProject(db, scope, binding.value.project, x) {
      var x :| HasProject(db, scope, binding.value.project, x)
               && CreateSession(db, scope, binding, s, w) == JoinWorkspace(db, scope, x, Stored(binding.value), s);
      JoinUnseen(db, scope, x, Stored(binding.value), s, u);
    } else {
      OpenUnseen(db, scope, if binding.Some? then Some(Stored(binding.value)) else None, s, w, u);
    }
  }

  lemma EnqueueUnseen(db: Db, q: Request, r: Id, now: Time, u: string)
    requires HasSession(db, q.scope, q.session) && r !in db.runs && q.scope != u
    ensures View(Enqueue(db, q, r, now), u) == View(db, u)
  {
    hide EventsOf, RunsOf, SessionsOf, WorkspacesOf, AttemptsOf, RevisionsOf, PendingsOf;
    var d := Enqueue(db, q, r, now);
    OtherRun(db.runs, r, d.runs[r], u);
    OtherSession(db.sessions, q.session, d.sessions[q.session], u);
  }

  lemma AcceptUnseen(db: Db, q: Request, r: Id, id: Id, now: Time, u: string)
    requires Accept(db, q, r, id, now).Ok? && q.scope != u
    ensures View(Accept(db, q, r, id, now).value.0, u) == View(db, u)
  {
    hide View, BindingCheck, Busy, EventIdTaken;
    if !Accept(db, q, r, id, now).value.1.reused {
      AcceptShape(db, q, r, id, now);
      EnqueueUnseen(db, q, r, now, u);
      InsertUnseen(Enqueue(db, q, r, now), r, RunAccepted, EventData(Some(Queued), None), id, u);
    }
  }

  lemma LeaseUnseen(db: Db, r: Id, a: Id, now: Time, until: Time, u: string)
    requires r in db.runs && HasSession(db, db.runs[r].scope, db.runs[r].session) && a !in db.attempts && db.runs[r].scope != u
    ensures var d := Lease(db, r, a, now, until);
      && View(d, u) == View(db, u)
      && r in d.runs && d.runs[r].scope != u && d.runs[r].session in d.sessions && d.sessions[d.runs[r].session].scope != u
  {
    hide EventsOf, RunsOf, SessionsOf, WorkspacesOf, AttemptsOf, RevisionsOf, PendingsOf;
    var d, s := Lease(db, r, a, now, until), db.runs[r].session;
    OtherRun(db.runs, r, d.runs[r], u);
    OtherSession(db.sessions, s, d.sessions[s], u);
    OtherWorkspace(db.workspaces, db.sessions[s].workspace, d.workspaces[db.sessions[s].workspace], u);
    OtherAttempt(db.attempts, a, d.attempts[a], u);
  }

  lemma ClaimUnseen(db: Db, r: Id, a: Id, id: Id, now: Time, until: Time, u: string)
    requires r in db.runs && HasSession(db, db.runs[r].scope, db.runs[r].session) && db.runs[r].scope != u
    requires Claim(db, r, a, id, now, until).Ok?
    ensures View(Claim(db, r, a, id, now, until).value, u) == View(db, u)
  {
    hide View, EventIdTaken, EpochTaken, Insert, Lease;
    LeaseUnseen(db, r, a, now, until, u);
    InsertUnseen(Lease(db, r, a, now, until), r, RunStarted, NO_DATA, id, u);
  }

  lemma ReleaseUnseen(c: Db, r: Id, now: Time, u: string)
    requires r in c.runs && c.runs[r].session in c.sessions && c.runs[r].workspace in c.workspaces
    requires c.runs[r].attempt.Some? ==> c.runs[r].attempt.value in c.attempts && c.attempts[c.runs[r].attempt.value].scope != u
    requires c.runs[r].scope != u && c.sessions[c.runs[r].session].scope != u && c.workspaces[c.runs[r].workspace].scope != u
    ensures View(Release(c, r, now), u) == View(c, u)
  {
    hide EventsOf, RunsOf, SessionsOf, WorkspacesOf, AttemptsOf, RevisionsOf, PendingsOf;
    if c.runs[r].attempt.Some? {
      var d, run, a := Release(c, r, now), c.runs[r], c.runs[r].attempt.value;
      OtherRun(c.runs, r, d.runs[r], u);
      OtherSession(c.sessions, run.session, d.sessions[run.session], u);
      OtherWorkspace(c.workspaces, run.workspace, d.workspaces[run.workspace], u);
      OtherAttempt(c.attempts, a, d.attempts[a], u);
    }
  }

  lemma RestateUnseen(db: Db, r: Id, after: RunState, u: string)
    requires r in db.runs && db.runs[r].scope != u
    ensures View(Restate(db, r, after), u) == View(db, u)
  {
    hide EventsOf, RunsOf, SessionsOf, WorkspacesOf, AttemptsOf, RevisionsOf, PendingsOf;
    OtherRun(db.runs, r, WithState(db.runs[r], after), u);
  }

  /** What a run points at is of its own scope. */
  ghost predicate OwnScope(db: Db, r: Id)
    requires r in db.runs
  {
    var run := db.runs[r];
    && run.session in db.sessions && db.sessions[run.session].scope == run.scope
    && run.workspace in db.workspaces && db.workspaces[run.workspace].scope == run.scope
    && (run.attempt.Some? ==> run.attempt.value in db.attempts && db.attempts[run.attempt.value].scope == run.scope)
  }

  lemma HasOwnScope(db: Db, r: Id)
    requires Refs(db) && Pointers(db) && Scoped(db) && r in db.runs
    ensures OwnScope(db, r)
  {
    assert RunPointer(db, r);
  }

  lemma TransitUnseen(db: Db, m: Move, id: Id, now: Time, u: string)
    requires (m.run in db.runs ==> Rooted(db, m.run) && OwnScope(db, m.run))
    requires TransitionRun(db, m, id, now).Ok? && m.scope != u
    ensures View(TransitionRun(db, m, id, now).value, u) == View(db, u)
  {
    var run := db.runs[m.run];
    var change := Transition(StateOf(run), m.target, m.expected, m.outcome, m.reason).value;
    var c := Restate(db, m.run, change.after);
    var data := TransitionData(change.after, m.extra);
    hide View, Transition, EventIdTaken, TransitionData;
    RestateUnseen(db, m.run, change.after, u);
    InsertUnseen(c, m.run, change.kind, data, id, u);
    if Terminal(m.target) { ReleaseUnseen(Insert(c, m.run, change.kind, data, id).value, m.run, now, u); }
  }

  lemma AnswerUnseen(db: Db, y: Reply, after: RunState, u: string)
    requires HasPending(db, y.scope, y.run, y.pending) && y.scope != u
    ensures View(Answer(db, y, after), u) == View(db, u)
  {
    hide EventsOf, RunsOf, SessionsOf, WorkspacesOf, AttemptsOf, RevisionsOf, PendingsOf;
    var d := Answer(db, y, after);
    OtherRun(db.runs, y.run, d.runs[y.run], u);
    OtherPending(db.pendings, y.pending, d.pendings[y.pending], u);
  }

  lemma RespondUnseen(db: Db, y: Reply, id: Id, u: string)
    requires (y.run in db.runs ==> Rooted(db, y.run) && OwnScope(db, y.run)) && Respond(db, y, id).Ok? && y.scope != u
    ensures View(Respond(db, y, id).value, u) == View(db, u)
  {
    RespondShape(db, y, id);
    hide View, Transition, EventIdTaken;
    if !db.pendings[y.pending].resolved {
      var after := Transition(StateOf(db.runs[y.run]), Queued, y.expected, None, None).value.after;
      AnswerUnseen(db, y, after, u);
      InsertUnseen(Answer(db, y, after), y.run, RunResumed, EventData(Some(Queued), None), id, u);
    }
  }

  lemma PublishUnseen(db: Db, scope: string, p: Publication, now: Time, u: string)
    requires Publish(db, scope, p, now).Ok? && scope != u
    ensures View(Publish(db, scope, p, now).value, u) == View(db, u)
  {
    hide EventsOf, RunsOf, SessionsOf, WorkspacesOf, AttemptsOf, RevisionsOf, PendingsOf;
    var d := Publish(db, scope, p, now).value;
    OtherWorkspace(db.workspaces, p.workspace, d.workspaces[p.workspace], u);
    OtherRevision(db.revisions, p.revision, d.revisions[p.revision], u);
  }

  lemma AskUnseen(db: Db, r: Id, p: Id, u: string)
    requires Ask(db, r, p).Ok? && db.runs[r].scope != u
    ensures View(Ask(db, r, p).value, u) == View(db, u)
  {
    hide EventsOf, RunsOf, SessionsOf, WorkspacesOf, AttemptsOf, RevisionsOf, PendingsOf;
    OtherPending(db.pendings, p, Ask(db, r, p).value.pendings[p], u);
  }

  /** A step that is called for another scope changes nothing that scope u sees. */
  lemma OtherScopesUnseen(db: Db, step: Step, u: string)
    requires Base(db) && Scoped(db) && CalledFor(db, step) != Some(u)
    ensures View(Next(db, step), u) == View(db, u)
  {
    assert Holds(db, References) && Holds(db, Ownership);
    if Effect(db, step).Ok? {
      Roots(db);
      forall r | r in db.runs ensures OwnScope(db, r) { HasOwnScope(db, r); }
      hide View, CreateSession, Accept, Claim, TransitionRun, Respond, Publish, Ask, Insert, Scoped, Refs, Pointers,
        Epochs, Keys, Checks, Numbered;
      match step
      case Create(scope, binding, s, w) => CreateUnseen(db, scope, binding, s, w, u);
      case Submit(q, r, id, now) => AcceptUnseen(db, q, r, id, now, u);
      case ClaimNext(only, r, a, id, now, until) => if NextClaim(db, only, now, r) { ClaimUnseen(db, r, a, id, now, until, u); }
      case Transit(m, id, now) => TransitUnseen(db, m, id, now, u);
      case Resume(y, id) => RespondUnseen(db, y, id, u);
      case Commit(scope, p, now) => PublishUnseen(db, scope, p, now, u);
      case Record(scope, r, kind, data, id) => InsertUnseen(db, r, kind, data, id, u);
      case Question(r, p) => AskUnseen(db, r, p, u);
    }
  }

  // ----- Over whole histories -----

  /** Only these tables and columns matter to it. */
  predicate KeepsScopes(db: Db, d: Db) {
    && (forall r :: r in db.runs ==> r in d.runs && d.runs[r].scope == db.runs[r].scope)
    && (forall a :: a in d.attempts ==>
          if a in db.attempts then d.attempts[a].scope == db.attempts[a].scope && d.attempts[a].run == db.attempts[a].run
          else d.attempts[a].run in db.runs && d.attempts[a].scope == db.runs[d.attempts[a].run].scope)
    && (forall p :: p in d.pendings ==>
          if p in db.pendings then d.pendings[p].scope == db.pendings[p].scope && d.pendings[p].run == db.pendings[p].run
          else d.pendings[p].run in db.runs && d.pendings[p].scope == db.runs[d.pendings[p].run].scope)
  }

  lemma KeptScopes(db: Db, d: Db)
    requires Scoped(db) && Refs(db) && KeepsScopes(db, d)
    ensures Scoped(d)
  {
  }

  lemma ClaimKeepsScopes(db: Db, r: Id, a: Id, id: Id, now: Time, until: Time)
    requires r in db.runs && HasSession(db, db.runs[r].scope, db.runs[r].session) && Claim(db, r, a, id, now, until).Ok?
    ensures KeepsScopes(db, Claim(db, r, a, id, now, until).value)
  {
    hide EventIdTaken, EpochTaken;
  }

  lemma InsertKeepsScopes(db: Db, r: Id, after: RunState, kind: EventKind, data: EventData, id: Id)
    requires r in db.runs && db.runs[r].session in db.sessions && Insert(Restate(db, r, after), r, kind, data, id).Ok?
    ensures var d := Insert(Restate(db, r, after), r, kind, data, id).value;
      && d.attempts == db.attempts && d.pendings == db.pendings
      && forall x :: x in db.runs ==> x in d.runs && d.runs[x].scope == db.runs[x].scope
  {
    hide EventIdTaken;
  }

  lemma ReleaseKeepsScopes(db: Db, c: Db, r: Id, now: Time)
    requires r in c.runs && c.runs[r].session in c.sessions && c.runs[r].workspace in c.workspaces
    requires c.runs[r].attempt.Some? ==> c.runs[r].attempt.value in c.attempts
    requires c.attempts == db.attempts && c.pendings == db.pendings
    requires forall x :: x in db.runs ==> x in c.runs && c.runs[x].scope == db.runs[x].scope
    ensures KeepsScopes(db, Release(c, r, now))
  {
  }

  lemma TransitKeepsScopes(db: Db, m: Move, id: Id, now: Time)
    requires (m.run in db.runs ==> Rooted(db, m.run)) && TransitionRun(db, m, id, now).Ok?
    ensures KeepsScopes(db, TransitionRun(db, m, id, now).value)
  {
    var change := Transition(StateOf(db.runs[m.run]), m.target, m.expected, m.outcome, m.reason).value;
    var data := TransitionData(change.after, m.extra);
    hide EventIdTaken, Transition, TransitionData, KeepsScopes;
    InsertKeepsScopes(db, m.run, change.after, change.kind, data, id);
    var c := Insert(Restate(db, m.run, change.after), m.run, change.kind, data, id).value;
    if Terminal(m.target) {
      ReleaseKeepsScopes(db, c, m.run, now);
    } else {
      SameKeepsScopes(db, c);
    }
  }

  lemma SameKeepsScopes(db: Db, d: Db)
    requires d.attempts == db.attempts && d.pendings == db.pendings
    requires forall x :: x in db.runs ==> x in d.runs && d.runs[x].scope == db.runs[x].scope
    ensures KeepsScopes(db, d)
  {
  }

  lemma RespondKeepsScopes(db: Db, y: Reply, id: Id)
    requires (y.run in db.runs ==> Rooted(db, y.run)) && Respond(db, y, id).Ok?
    ensures KeepsScopes(db, Respond(db, y, id).value)
  {
    hide EventIdTaken, ReplyKeyTaken, Transition;
  }

  lemma AcceptKeepsScopes(db: Db, q: Request, r: Id, id: Id, now: Time)
    requires Accept(db, q, r, id, now).Ok?
    ensures KeepsScopes(db, Accept(db, q, r, id, now).value.0)
  {
    hide EventIdTaken, BindingCheck, Busy;
  }

  lemma CreateKeepsScopes(db: Db, scope: string, binding: Option<UserBinding>, s: Id, w: Id)
    requires CreateSession(db, scope, binding, s, w).Ok?
    ensures KeepsScopes(db, CreateSession(db, scope, binding, s, w).value)
  {
  }

  lemma AskKeepsScopes(db: Db, r: Id, p: Id)
    requires Ask(db, r, p).Ok?
    ensures KeepsScopes(db, Ask(db, r, p).value)
  {
  }

  lemma NextScoped(db: Db, step: Step)
    requires Base(db) && Scoped(db)
    ensures Scoped(Next(db, step))
  {
    assert Holds(db, References);
    if Effect(db, step).Ok? {
      Roots(db);
      hide CreateSession, Accept, Claim, TransitionRun, Respond, Scoped, Refs, Pointers, Epochs, Keys, Checks, Numbered,
        KeepsScopes, Ask;
      match step {
        case Create(scope, binding, s, w) => CreateKeepsScopes(db, scope, binding, s, w);
        case Submit(q, r, id, now) => AcceptKeepsScopes(db, q, r, id, now);
        case ClaimNext(only, r, a, id, now, until) => if NextClaim(db, only, now, r) { ClaimKeepsScopes(db, r, a, id, now, until); }
        case Transit(m, id, now) => TransitKeepsScopes(db, m, id, now);
        case Resume(y, id) => RespondKeepsScopes(db, y, id);
        case Commit(scope, p, now) => SameKeepsScopes(db, Next(db, step));
        case Record(scope, r, kind, data, id) => SameKeepsScopes(db, Next(db, step));
        case Question(r, p) => AskKeepsScopes(db, r, p);
      }
      KeptScopes(db, Next(db, step));
    }
  }

  lemma {:induction false} HistoryScoped(steps: seq<Step>)
    ensures Scoped(Exec(steps))
  {
    if steps != [] {
      HistoryScoped(steps[..|steps| - 1]);
      hide Next, Scoped;
      NextScoped(Exec(steps[..|steps| - 1]), steps[|steps| - 1]);
    }
  }

  /** Whatever is called for other scopes, in any number of steps, a scope sees the same rows. */
  lemma {:induction false} OthersChangeNothing(steps: seq<Step>, n: nat, u: string)
    requires n <= |steps|
    requires forall i :: n <= i < |steps| ==> CalledFor(Exec(steps[..i]), steps[i]) != Some(u)
    ensures View(Exec(steps), u) == View(Exec(steps[..n]), u)
  {
    hide Next, View, Scoped, Base, CalledFor;
    if n == |steps| {
      assert steps[..n] == steps;
    } else {
      var init, last := steps[..|steps| - 1], steps[|steps| - 1];
      assert init[..n] == steps[..n];
      assert forall i :: 0 <= i < |init| ==> init[..i] == steps[..i];
      OthersChangeNothing(init, n, u);
      HistoryScoped(init);
      OtherScopesUnseen(Exec(init), last, u);
    }
  }
}
