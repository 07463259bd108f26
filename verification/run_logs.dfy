/** The event log determines the rows: replaying a run's lifecycle events gives its status, outcome and
    version, whatever transactions have run, and each of them is a step of the state machine. */
module RunLogs {
  import opened Outcomes
  import opened StateMachine
  import opened RunTables
  import opened EventLog
  import opened RunInvariants
  import opened RunSteps

  /** All runs of c but r agree with the log of db, and are as they were there. */
  ghost predicate OthersAgree(db: Db, c: Db, r: Id) {
    forall x :: x in c.runs && x != r ==> x in db.runs && Agrees(db, x) && LifeOf(c.runs[x]) == LifeOf(db.runs[x])
  }

  /** The runs that a change of one row leaves agree as before. */
  lemma OtherRunsAgree(db: Db, d: Db, r: Id)
    requires LogAgrees(db) && r in d.runs && d.runs == db.runs[r := d.runs[r]]
    ensures OthersAgree(db, d, r)
  {
  }

  /** A change of run r's row, followed by one event of r: the log still agrees with the rows exactly
      when the event announces the change. */
  lemma InsertAgrees(db: Db, c: Db, r: Id, kind: EventKind, data: EventData, id: Id)
    requires c.events == db.events && r in c.runs && c.runs[r].session in c.sessions
    requires OthersAgree(db, c, r)
    requires Insert(c, r, kind, data, id).Ok?
    ensures var before := Replay(Log(db.events, OfRun(r)));
      LogAgrees(Insert(c, r, kind, data, id).value) <==>
        (if Lifecycle(kind) then Observe(before, kind, data) else before) == Known(LifeOf(c.runs[r]))
  {
    var d := Insert(c, r, kind, data, id).value;
    forall x | x in d.runs && x != r ensures Agrees(d, x) {
      InsertReplays(c, r, kind, data, id, x);
    }
    InsertReplays(c, r, kind, data, id, r);
    assert LifeOf(d.runs[r]) == LifeOf(c.runs[r]);
    assert Agrees(d, r) <==> LogAgrees(d);
  }

  lemma NewRunIsObserved()
    ensures Observe(Replay([]), RunAccepted, EventData(Some(Queued), None)) == Known(Life(Queued, None, 0))
  {
  }

  lemma AcceptAgrees(db: Db, q: Request, r: Id, id: Id, now: Time)
    requires Numbered(db) && LogAgrees(db) && HasSession(db, q.scope, q.session) && AcceptNew(db, q, r, id, now).Ok?
    ensures LogAgrees(AcceptNew(db, q, r, id, now).value)
  {
    AcceptShape(db, q, r, id, now);
    NothingSelected(db.events, OfRun(r));
    OtherRunsAgree(db, Enqueue(db, q, r, now), r);
    assert LifeOf(Enqueue(db, q, r, now).runs[r]) == Life(Queued, None, 0);
    NewRunIsObserved();
    hide LogAgrees, Observe, Agrees, Log, OthersAgree;
    InsertAgrees(db, Enqueue(db, q, r, now), r, RunAccepted, EventData(Some(Queued), None), id);
  }

  lemma ClaimIsObserved(run: Run)
    requires run.status == Queued
    ensures Observe(Known(LifeOf(run)), RunStarted, NO_DATA) == Known(Life(Running, None, run.version + 1))
  {
  }

  lemma ClaimAgrees(db: Db, r: Id, a: Id, id: Id, now: Time, until: Time)
    requires Checks(db) && LogAgrees(db) && r in db.runs && HasSession(db, db.runs[r].scope, db.runs[r].session)
    requires db.runs[r].status == Queued && Claim(db, r, a, id, now, until).Ok?
    ensures LogAgrees(Claim(db, r, a, id, now, until).value)
  {
    assert RowChecks(StateOf(db.runs[r])) && Agrees(db, r);
    var d := Lease(db, r, a, now, until);
    ClaimIsObserved(db.runs[r]);
    assert LifeOf(d.runs[r]) == Life(Running, None, db.runs[r].version + 1);
    OtherRunsAgree(db, d, r);
    hide LogAgrees, Replay, Observe, Checks, Agrees, Log, OthersAgree;
    InsertAgrees(db, d, r, RunStarted, NO_DATA, id);
  }

  /** extra_data rebinds the status that a waiting event announces. */
  predicate Mislabels(m: Move) {
    Waiting(m.target) && m.extra.Some? && m.extra.value != m.target
  }

  /** The data of a transition's event announces the transition, unless extra_data mislabels it. */
  lemma TransitionObserved(run: Run, m: Move)
    requires Transition(StateOf(run), m.target, m.expected, m.outcome, m.reason).Ok?
    ensures var after := Transition(StateOf(run), m.target, m.expected, m.outcome, m.reason).value.after;
      var seen := Observe(Known(LifeOf(run)), KindOf(m.target), TransitionData(after, m.extra));
      seen == Known(Life(after.status, after.outcome, after.version)) <==> !Mislabels(m)
  {
  }

  lemma TransitionAgrees(db: Db, m: Move, id: Id, now: Time)
    requires LogAgrees(db) && (m.run in db.runs ==> Rooted(db, m.run)) && TransitionRun(db, m, id, now).Ok?
    ensures LogAgrees(TransitionRun(db, m, id, now).value) <==> !Mislabels(m)
  {
    TransitionShape(db, m, id, now);
    var run := db.runs[m.run];
    var after := Transition(StateOf(run), m.target, m.expected, m.outcome, m.reason).value.after;
    assert Agrees(db, m.run);
    TransitionObserved(run, m);
    OtherRunsAgree(db, Settle(db, m.run, after, now), m.run);
    hide LogAgrees, Observe, Log, Replay, OthersAgree;
    InsertAgrees(db, Settle(db, m.run, after, now), m.run, KindOf(m.target), TransitionData(after, m.extra), id);
  }

  lemma AnswerIsObserved(run: Run, expected: int)
    requires Transition(StateOf(run), Queued, expected, None, None).Ok?
    ensures Observe(Known(LifeOf(run)), RunResumed, EventData(Some(Queued), None)) == Known(Life(Queued, None, run.version + 1))
  {
  }

  lemma RespondAgrees(db: Db, y: Reply, id: Id)
    requires LogAgrees(db) && (y.run in db.runs ==> Rooted(db, y.run)) && Respond(db, y, id).Ok?
    ensures LogAgrees(Respond(db, y, id).value)
  {
    RespondShape(db, y, id);
    if !db.pendings[y.pending].resolved {
      var after := Transition(StateOf(db.runs[y.run]), Queued, y.expected, None, None).value.after;
      assert Agrees(db, y.run);
      OtherRunsAgree(db, Answer(db, y, after), y.run);
      AnswerIsObserved(db.runs[y.run], y.expected);
      hide LogAgrees, Observe, Log, Replay, OthersAgree;
      InsertAgrees(db, Answer(db, y, after), y.run, RunResumed, EventData(Some(Queued), None), id);
    }
  }

  /** append_event keeps the agreement exactly when it does not forge a lifecycle event. */
  lemma AppendAgrees(db: Db, scope: string, r: Id, kind: EventKind, data: EventData, id: Id)
    requires LogAgrees(db) && (r in db.runs ==> db.runs[r].session in db.sessions)
    requires Append(db, scope, r, kind, data, id).Ok?
    ensures LogAgrees(Append(db, scope, r, kind, data, id).value) <==> !Lifecycle(kind)
  {
    assert Agrees(db, r);
    OtherRunsAgree(db, db, r);
    InsertAgrees(db, db, r, kind, data, id);
    if Lifecycle(kind) {
      var seen := Observe(Known(LifeOf(db.runs[r])), kind, data);
      assert seen.Known? ==> seen.life.steps == db.runs[r].version + 1;
    }
  }

  lemma AgreementFrame(db: Db, d: Db)
    requires LogAgrees(db) && d.runs == db.runs && d.events == db.events
    ensures LogAgrees(d)
  {
    forall r | r in d.runs ensures Agrees(d, r) { assert Agrees(db, r); }
  }
}
