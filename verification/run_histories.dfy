/** Whole histories of the store: any interleaving of API and worker transactions, from an empty
    database.  A transaction that fails rolls back and changes nothing. */
module RunHistories {
  import opened Outcomes
  import opened StateMachine
  import opened Bindings
  import opened RunTables
  import opened EventLog
  import opened RunInvariants
  import opened RunSteps
  import opened RunLogs

  datatype Step =
    | Create(scope: string, binding: Option<UserBinding>, session: Id, workspace: Id)
    | Submit(request: Request, run: Id, event: Id, now: Time)
    | ClaimNext(only: Option<string>, run: Id, attempt: Id, event: Id, now: Time, until: Time)
    | Transit(move: Move, event: Id, now: Time)
    | Resume(reply: Reply, event: Id)
    | Commit(scope: string, publication: Publication, now: Time)
    | Record(scope: string, run: Id, kind: EventKind, data: EventData, event: Id)
    | Question(run: Id, pending: Id)

  /** What one transaction does.  A claim label names the run that the query chose; one that names any
      other run is no transaction, and changes nothing. */
  ghost function Effect(db: Db, step: Step): Outcome<Db>
    requires Base(db)
  {
    match step
    case Create(scope, binding, s, w) => CreateSession(db, scope, binding, s, w)
    case Submit(q, r, id, now) =>
      var accepted := Accept(db, q, r, id, now);
      if accepted.Ok? then Ok(accepted.value.0) else Err(accepted.error)
    case ClaimNext(only, r, a, id, now, until) =>
      if NextClaim(db, only, now, r) then Claim(db, r, a, id, now, until) else Ok(db)
    case Transit(m, id, now) =>
      assert m.run in db.runs ==> Rooted(db, m.run) by { Roots(db); }
      TransitionRun(db, m, id, now)
    case Resume(y, id) =>
      assert y.run in db.runs ==> Rooted(db, y.run) by { Roots(db); }
      Respond(db, y, id)
    case Commit(scope, p, now) => Publish(db, scope, p, now)
    case Record(scope, r, kind, data, id) =>
      assert r in db.runs ==> Rooted(db, r) by { Roots(db); }
      Append(db, scope, r, kind, data, id)
    case Question(r, p) => Ask(db, r, p)
  }

  lemma Roots(db: Db)
    requires Base(db)
    ensures forall r :: r in db.runs ==> Rooted(db, r)
  {
    assert Holds(db, References) && Holds(db, Ownership);
    forall r | r in db.runs ensures Rooted(db, r) { RefsMakeRooted(db, r); }
  }

  lemma AcceptKeepsBase(db: Db, q: Request, r: Id, id: Id, now: Time)
    requires Base(db) && Accept(db, q, r, id, now).Ok?
    ensures Base(Accept(db, q, r, id, now).value.0)
  {
    assert Holds(db, References);
    var d := Accept(db, q, r, id, now).value;
    if !d.1.reused {
      AcceptShape(db, q, r, id, now);
      forall x | x in db.runs && db.runs[x].session == q.session ensures db.runs[x].key != q.key {
        assert !HasKey(db, q.scope, q.session, q.key, x);
      }
      EnqueueKeepsBase(db, q, r, now);
      InsertKeepsBase(Enqueue(db, q, r, now), r, RunAccepted, EventData(Some(Queued), None), id);
    }
  }

  lemma ClaimKeepsBase(db: Db, only: Option<string>, r: Id, a: Id, id: Id, now: Time, until: Time)
    requires Base(db) && Claimable(db, only, now, r) && Claim(db, r, a, id, now, until).Ok?
    ensures Base(Claim(db, r, a, id, now, until).value)
  {
    LeaseKeepsBase(db, only, r, a, now, until);
    InsertKeepsBase(Lease(db, r, a, now, until), r, RunStarted, NO_DATA, id);
  }

  /** Consistency is kept by every transaction, whatever its arguments. */
  lemma EffectKeepsBase(db: Db, step: Step)
    requires Base(db) && Effect(db, step).Ok?
    ensures Base(Effect(db, step).value)
  {
    match step
    case Create(scope, binding, s, w) =>
      CreateShape(db, scope, binding, s, w);
      CreateKeepsBase(db, Effect(db, step).value, s);
    case Submit(q, r, id, now) =>
      AcceptKeepsBase(db, q, r, id, now);
    case ClaimNext(only, r, a, id, now, until) =>
      if NextClaim(db, only, now, r) { ClaimKeepsBase(db, only, r, a, id, now, until); }
    case Transit(m, id, now) =>
      Roots(db);
      TransitionKeepsBase(db, m, id, now);
    case Resume(y, id) =>
      Roots(db);
      RespondKeepsBase(db, y, id);
    case Commit(scope, p, now) =>
      PublishKeepsBase(db, scope, p, now);
    case Record(scope, r, kind, data, id) =>
      Roots(db);
      InsertKeepsBase(db, r, kind, data, id);
    case Question(r, p) =>
      AskKeepsBase(db, r, p);
  }

  ghost function Next(db: Db, step: Step): (d: Db)
    requires Base(db)
    ensures Base(d)
  {
    var effect := Effect(db, step);
    if effect.Ok? then
      assert Base(effect.value) by { EffectKeepsBase(db, step); }
      effect.value
    else db
  }

  lemma EmptyIsBase()
    ensures Base(EMPTY)
  {
    assert Refs(EMPTY) && Keys(EMPTY) && Checks(EMPTY);
    assert Pointers(EMPTY);
    assert Epochs(EMPTY);
    assert Numbered(EMPTY);
  }

  /** The database after a history. */
  ghost function Exec(steps: seq<Step>): (d: Db)
    ensures Base(d)
  {
    if steps == [] then
      EmptyIsBase();
      EMPTY
    else Next(Exec(steps[..|steps| - 1]), steps[|steps| - 1])
  }

  // ----- What no step undoes -----

  ghost predicate RunKept(db: Db, d: Db, r: Id)
    requires r in db.runs
  {
    && r in d.runs
    && var x, y := db.runs[r], d.runs[r];
    && y.scope == x.scope && y.session == x.session && y.workspace == x.workspace && y.runSeq == x.runSeq
    && y.key == x.key && y.fingerprint == x.fingerprint && y.snapshot == x.snapshot && y.version >= x.version
    && (Terminal(x.status) ==> y.status == x.status && y.outcome == x.outcome && y.version == x.version)
    && (Settled(x) ==> Settled(y))
  }

  ghost predicate AttemptKept(db: Db, d: Db, a: Id)
    requires a in db.attempts
  {
    && a in d.attempts
    && var x, y := db.attempts[a], d.attempts[a];
    && y.scope == x.scope && y.session == x.session && y.run == x.run && y.workspace == x.workspace
    && y.epoch == x.epoch && y.workspaceEpoch == x.workspaceEpoch && y.leaseUntil == x.leaseUntil && y.base == x.base
  }

  ghost predicate SessionKept(db: Db, d: Db, s: Id)
    requires s in db.sessions
  {
    && s in d.sessions
    && var x, y := db.sessions[s], d.sessions[s];
    y.scope == x.scope && y.workspace == x.workspace && y.nextRun >= x.nextRun && y.epoch >= x.epoch
  }

  ghost predicate WorkspaceKept(db: Db, d: Db, w: Id)
    requires w in db.workspaces
  {
    w in d.workspaces && d.workspaces[w].scope == db.workspaces[w].scope && d.workspaces[w].epoch >= db.workspaces[w].epoch
  }

  /** An attempt that has lost its workspace. */
  predicate Released(db: Db, a: Id) {
    && a in db.attempts
    && (db.attempts[a].workspace in db.workspaces ==> db.workspaces[db.attempts[a].workspace].active != Some(a))
  }

  /** A run of d that is new since db is numbered after every run that db's session gave out. */
  ghost predicate NumberedAfter(db: Db, d: Db, r: Id)
    requires r in d.runs
  {
    d.runs[r].session in db.sessions ==> db.sessions[d.runs[r].session].nextRun <= d.runs[r].runSeq
  }

  ghost predicate Extends(db: Db, d: Db) {
    && (forall r {:trigger RunKept(db, d, r)} :: r in db.runs ==> RunKept(db, d, r))
    && (forall r {:trigger NumberedAfter(db, d, r)} :: r in d.runs && r !in db.runs ==> NumberedAfter(db, d, r))
    && (forall s {:trigger SessionKept(db, d, s)} :: s in db.sessions ==> SessionKept(db, d, s))
    && (forall w {:trigger WorkspaceKept(db, d, w)} :: w in db.workspaces ==> WorkspaceKept(db, d, w))
    && (forall a {:trigger AttemptKept(db, d, a)} :: a in db.attempts ==> AttemptKept(db, d, a))
    && (forall a {:trigger Released(db, a)} :: Released(db, a) ==> Released(d, a))
    && (forall v :: v in db.revisions ==> v in d.revisions && d.revisions[v] == db.revisions[v])
    && db.events <= d.events
  }

  lemma ExtendsReflexive(db: Db)
    ensures Extends(db, db)
  {
  }

  lemma ExtendsTransitive(a: Db, b: Db, c: Db)
    requires Extends(a, b) && Extends(b, c)
    ensures Extends(a, c)
  {
    forall r | r in a.runs ensures RunKept(a, c, r) {
      assert RunKept(a, b, r) && RunKept(b, c, r);
    }
    forall r | r in c.runs && r !in a.runs ensures NumberedAfter(a, c, r) {
      if r in b.runs {
        assert NumberedAfter(a, b, r) && RunKept(b, c, r);
      } else {
        assert NumberedAfter(b, c, r);
        if c.runs[r].session in a.sessions { assert SessionKept(a, b, c.runs[r].session); }
      }
    }
    forall s | s in a.sessions ensures SessionKept(a, c, s) {
      assert SessionKept(a, b, s) && SessionKept(b, c, s);
    }
    forall w | w in a.workspaces ensures WorkspaceKept(a, c, w) {
      assert WorkspaceKept(a, b, w) && WorkspaceKept(b, c, w);
    }
    forall x | x in a.attempts ensures AttemptKept(a, c, x) {
      assert AttemptKept(a, b, x) && AttemptKept(b, c, x);
    }
    forall x | Released(a, x) ensures Released(c, x) { assert Released(b, x); }
  }

  lemma InsertExtends(db: Db, r: Id, kind: EventKind, data: EventData, id: Id)
    requires r in db.runs && db.runs[r].session in db.sessions && Insert(db, r, kind, data, id).Ok?
    ensures Extends(db, Insert(db, r, kind, data, id).value)
  {
  }

  lemma CreateExtends(db: Db, d: Db, s: Id)
    requires AddsSession(db, d, s)
    ensures Extends(db, d)
  {
  }

  lemma EnqueueExtends(db: Db, q: Request, r: Id, now: Time)
    requires q.session in db.sessions && r !in db.runs
    ensures Extends(db, Enqueue(db, q, r, now))
  {
  }

  lemma LeaseExtends(db: Db, only: Option<string>, r: Id, a: Id, now: Time, until: Time)
    requires Refs(db) && Claimable(db, only, now, r) && a !in db.attempts
    ensures Extends(db, Lease(db, r, a, now, until))
  {
  }

  lemma ClaimExtends(db: Db, only: Option<string>, r: Id, a: Id, id: Id, now: Time, until: Time)
    requires Refs(db) && Claimable(db, only, now, r) && Claim(db, r, a, id, now, until).Ok?
    ensures Extends(db, Claim(db, r, a, id, now, until).value)
  {
    var core := Lease(db, r, a, now, until);
    LeaseExtends(db, only, r, a, now, until);
    InsertExtends(core, r, RunStarted, NO_DATA, id);
    ExtendsTransitive(db, core, Claim(db, r, a, id, now, until).value);
  }

  lemma RestateExtends(db: Db, r: Id, after: RunState)
    requires r in db.runs && !Terminal(db.runs[r].status) && after.version >= db.runs[r].version
    requires db.runs[r].status == Cancelling ==> after.status == Cancelled
    ensures Extends(db, Restate(db, r, after))
  {
  }

  lemma FinishExtends(db: Db, r: Id, after: RunState, now: Time)
    requires Rooted(db, r) && db.runs[r].attempt.Some?
    requires !Terminal(db.runs[r].status) && Terminal(after.status) && after.version >= db.runs[r].version
    ensures Extends(db, Finish(db, r, after, now))
  {
  }

  lemma TransitionExtends(db: Db, m: Move, id: Id, now: Time)
    requires (m.run in db.runs ==> Rooted(db, m.run)) && TransitionRun(db, m, id, now).Ok?
    ensures Extends(db, TransitionRun(db, m, id, now).value)
  {
    TransitionShape(db, m, id, now);
    var after := Transition(StateOf(db.runs[m.run]), m.target, m.expected, m.outcome, m.reason).value.after;
    TransitionKeepsRowChecks(StateOf(db.runs[m.run]), m.target, m.expected, m.outcome, m.reason);
    if Terminal(after.status) && db.runs[m.run].attempt.Some? {
      FinishExtends(db, m.run, after, now);
    } else {
      RestateExtends(db, m.run, after);
    }
    var core := Settle(db, m.run, after, now);
    InsertExtends(core, m.run, KindOf(m.target), TransitionData(after, m.extra), id);
    ExtendsTransitive(db, core, TransitionRun(db, m, id, now).value);
  }

  lemma RespondExtends(db: Db, y: Reply, id: Id)
    requires (y.run in db.runs ==> Rooted(db, y.run)) && Respond(db, y, id).Ok?
    ensures Extends(db, Respond(db, y, id).value)
  {
    RespondShape(db, y, id);
    if db.pendings[y.pending].resolved {
      ExtendsReflexive(db);
    } else {
      var after := Transition(StateOf(db.runs[y.run]), Queued, y.expected, None, None).value.after;
      var core := Answer(db, y, after);
      AnswerExtends(db, y, after);
      InsertExtends(core, y.run, RunResumed, EventData(Some(Queued), None), id);
      ExtendsTransitive(db, core, Respond(db, y, id).value);
    }
  }

  lemma AnswerExtends(db: Db, y: Reply, after: RunState)
    requires y.run in db.runs && y.pending in db.pendings
    requires !Terminal(db.runs[y.run].status) && after.version >= db.runs[y.run].version
    requires db.runs[y.run].status != Cancelling
    ensures Extends(db, Answer(db, y, after))
  {
    RestateExtends(db, y.run, after);
    PendingsExtend(Restate(db, y.run, after), Answer(db, y, after));
    ExtendsTransitive(db, Restate(db, y.run, after), Answer(db, y, after));
  }

  lemma PendingsExtend(db: Db, d: Db)
    requires d == db.(pendings := d.pendings)
    ensures Extends(db, d)
  {
  }

  lemma AcceptExtends(db: Db, q: Request, r: Id, id: Id, now: Time)
    requires Accept(db, q, r, id, now).Ok?
    ensures Extends(db, Accept(db, q, r, id, now).value.0)
  {
    var d := Accept(db, q, r, id, now).value;
    if d.1.reused {
      ExtendsReflexive(db);
    } else {
      AcceptShape(db, q, r, id, now);
      EnqueueExtends(db, q, r, now);
      InsertExtends(Enqueue(db, q, r, now), r, RunAccepted, EventData(Some(Queued), None), id);
      ExtendsTransitive(db, Enqueue(db, q, r, now), d.0);
    }
  }

  lemma PublishExtends(db: Db, scope: string, p: Publication, now: Time)
    requires Publish(db, scope, p, now).Ok?
    ensures Extends(db, Publish(db, scope, p, now).value)
  {
  }

  lemma NextExtends(db: Db, step: Step)
    requires Base(db)
    ensures Extends(db, Next(db, step))
  {
    assert Holds(db, References);
    if Effect(db, step).Err? {
      ExtendsReflexive(db);
    } else {
      match step
      case Create(scope, binding, s, w) =>
        CreateShape(db, scope, binding, s, w);
        CreateExtends(db, Next(db, step), s);
      case Submit(q, r, id, now) =>
        AcceptExtends(db, q, r, id, now);
      case ClaimNext(only, r, a, id, now, until) =>
        if NextClaim(db, only, now, r) { ClaimExtends(db, only, r, a, id, now, until); } else { ExtendsReflexive(db); }
      case Transit(m, id, now) =>
        Roots(db);
        TransitionExtends(db, m, id, now);
      case Resume(y, id) =>
        Roots(db);
        RespondExtends(db, y, id);
      case Commit(scope, p, now) =>
        PublishExtends(db, scope, p, now);
      case Record(scope, r, kind, data, id) =>
        Roots(db);
        InsertExtends(db, r, kind, data, id);
      case Question(r, p) =>
        PendingsExtend(db, Next(db, step));
    }
  }

  /** What holds of every earlier state of a history in a later one. */
  lemma {:induction false} HistoryExtends(steps: seq<Step>, n: nat)
    requires n <= |steps|
    ensures Extends(Exec(steps[..n]), Exec(steps))
  {
    if n == |steps| {
      assert steps[..n] == steps;
      ExtendsReflexive(Exec(steps));
    } else {
      var init := steps[..|steps| - 1];
      assert init[..n] == steps[..n];
      HistoryExtends(init, n);
      NextExtends(Exec(init), steps[|steps| - 1]);
      ExtendsTransitive(Exec(steps[..n]), Exec(init), Exec(steps));
    }
  }
}
