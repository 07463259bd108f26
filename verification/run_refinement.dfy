/** Every transaction of the store moves each run along the pure state machine, whether it calls
    transition, repeats it, or goes around it. */
module RunRefinement {
  import opened Outcomes
  import opened StateMachine
  import opened RunTables
  import opened RunInvariants
  import opened RunSteps
  import opened RunHistories

  /** One transition of state_machine.py leads from x to y. */
  ghost predicate Moves(x: RunState, y: RunState) {
    exists target, outcome, reason ::
      Transition(x, target, x.version, outcome, reason).Ok? && Transition(x, target, x.version, outcome, reason).value.after == y
  }

  /** What a step does to one run that existed: nothing, or one transition. */
  ghost predicate Refines(db: Db, d: Db, r: Id)
    requires r in db.runs
  {
    && r in d.runs
    && (StateOf(d.runs[r]) == StateOf(db.runs[r]) || Moves(StateOf(db.runs[r]), StateOf(d.runs[r])))
  }

  lemma MoveBy(x: RunState, target: RunStatus, outcome: Option<TaskOutcome>, reason: Option<string>)
    requires Transition(x, target, x.version, outcome, reason).Ok?
    ensures Moves(x, Transition(x, target, x.version, outcome, reason).value.after)
  {
  }

  /** claim_next_run writes RUNNING without calling transition; the row is the one that it gives. */
  lemma ClaimRefines(db: Db, r: Id, a: Id, id: Id, now: Time, until: Time, x: Id)
    requires Checks(db) && r in db.runs && HasSession(db, db.runs[r].scope, db.runs[r].session)
    requires db.runs[r].status == Queued && x in db.runs && Claim(db, r, a, id, now, until).Ok?
    ensures Refines(db, Claim(db, r, a, id, now, until).value, x)
  {
    assert RowChecks(StateOf(db.runs[r]));
    MoveBy(StateOf(db.runs[r]), Running, None, None);
    hide Moves;
  }

  lemma TransitRefines(db: Db, m: Move, id: Id, now: Time, x: Id)
    requires (m.run in db.runs ==> Rooted(db, m.run)) && x in db.runs && TransitionRun(db, m, id, now).Ok?
    ensures Refines(db, TransitionRun(db, m, id, now).value, x)
  {
    MoveBy(StateOf(db.runs[m.run]), m.target, m.outcome, m.reason);
    hide Moves;
  }

  lemma RespondRefines(db: Db, y: Reply, id: Id, x: Id)
    requires (y.run in db.runs ==> Rooted(db, y.run)) && x in db.runs && Respond(db, y, id).Ok?
    ensures Refines(db, Respond(db, y, id).value, x)
  {
    RespondShape(db, y, id);
    if !db.pendings[y.pending].resolved { MoveBy(StateOf(db.runs[y.run]), Queued, None, None); }
    hide Moves;
  }

  lemma AcceptRefines(db: Db, q: Request, r: Id, id: Id, now: Time, x: Id)
    requires x in db.runs && Accept(db, q, r, id, now).Ok?
    ensures Refines(db, Accept(db, q, r, id, now).value.0, x)
  {
    hide Moves;
  }

  lemma InsertRefines(db: Db, r: Id, kind: EventKind, data: EventData, id: Id, x: Id)
    requires r in db.runs && db.runs[r].session in db.sessions && x in db.runs && Insert(db, r, kind, data, id).Ok?
    ensures Refines(db, Insert(db, r, kind, data, id).value, x)
  {
    hide Moves;
  }

  /** Every step leaves each run where it was, or takes it one transition further. */
  lemma StepRefinesStateMachine(db: Db, step: Step, x: Id)
    requires Base(db) && x in db.runs
    ensures Refines(db, Next(db, step), x)
  {
    hide Moves, TransitionRun, Respond, Accept, Claim;
    assert Holds(db, Constraints);
    if Effect(db, step).Ok? {
      Roots(db);
      match step
      case Create(scope, binding, s, w) => CreateShape(db, scope, binding, s, w);
      case Submit(q, r, id, now) => AcceptRefines(db, q, r, id, now, x);
      case ClaimNext(only, r, a, id, now, until) =>
        if NextClaim(db, only, now, r) { ClaimRefines(db, r, a, id, now, until, x); }
      case Transit(m, id, now) => TransitRefines(db, m, id, now, x);
      case Resume(y, id) => RespondRefines(db, y, id, x);
      case Commit(scope, p, now) =>
      case Record(scope, r, kind, data, id) => RecordRefines(db, scope, r, kind, data, id, x);
      case Question(r, p) =>
    }
  }

  lemma RecordRefines(db: Db, scope: string, r: Id, kind: EventKind, data: EventData, id: Id, x: Id)
    requires (r in db.runs ==> Rooted(db, r)) && x in db.runs && Append(db, scope, r, kind, data, id).Ok?
    ensures Refines(db, Append(db, scope, r, kind, data, id).value, x)
  {
    InsertRefines(db, r, kind, data, id, x);
  }
}
