/** Accepting messages: exactly when a message is accepted and what is written of it, and that the messages of
    a session are numbered 1, 2, 3, ... in the order in which they were accepted. */
module RunAcceptance {
  import opened Outcomes
  import opened StateMachine
  import opened Bindings
  import opened RunTables
  import opened EventLog
  import opened RunInvariants
  import opened RunSteps
  import opened RunHistories

  /** A run of the session carries the key. */
  ghost predicate KeyUsed(db: Db, q: Request) {
    exists x :: Carries(db, q, x)
  }

  predicate Carries(db: Db, q: Request, x: Id) {
    x in db.runs && db.runs[x].scope == q.scope && db.runs[x].session == q.session && db.runs[x].key == q.key
  }

  /** The message comes with the binding of its session's workspace, or with none where that has none. */
  predicate BindingMatches(db: Db, q: Request)
    requires q.session in db.sessions && db.sessions[q.session].workspace in db.workspaces
  {
    match db.workspaces[db.sessions[q.session].workspace].columns
    case None => q.binding.None?
    case Some(c) => RequireBinding(c, q.binding).Ok?
  }

  predicate OpenRun(db: Db, q: Request, x: Id) {
    x in db.runs && db.runs[x].scope == q.scope && db.runs[x].session == q.session && !Terminal(db.runs[x].status)
  }

  /** The session exists, the binding is its own, and it has no open run where that matters. */
  ghost predicate MayAccept(db: Db, q: Request) {
    && q.session in db.sessions && db.sessions[q.session].scope == q.scope
    && db.sessions[q.session].workspace in db.workspaces && BindingMatches(db, q)
    && (q.rejectIfActive ==> forall x :: !OpenRun(db, q, x))
  }

  /** One queued run under the session's next number, due at once, and its first event. */
  predicate Enqueued(db: Db, d: Db, q: Request, r: Id, id: Id, now: Time) {
    && q.session in db.sessions
    && var s := db.sessions[q.session];
    && d == db.(runs := d.runs, sessions := d.sessions, events := d.events)
    && d.runs == db.runs[r := Run(q.scope, q.session, s.workspace, s.nextRun, q.key, q.fingerprint, q.snapshot,
                                  Queued, None, 0, None, None, now, now, 2)]
    && d.sessions == db.sessions[q.session := s.(nextRun := s.nextRun + 1, nextEvent := s.nextEvent + 1)]
    && d.events == db.events + [Event(id, q.scope, r, q.session, 1, s.nextEvent, RunAccepted, EventData(Some(Queued), None))]
  }

  /** The run that carries the key is returned, if its fingerprint is the message's. */
  predicate Reuses(db: Db, result: Outcome<(Db, Accepted)>, q: Request, x: Id) {
    && Carries(db, q, x)
    && result == if db.runs[x].fingerprint != q.fingerprint then Err(IdempotencyConflict)
                 else Ok((db, Accepted(x, db.runs[x].status, db.runs[x].version, true)))
  }

  /** accept_once, exactly. */
  lemma AcceptExactly(db: Db, q: Request, r: Id, id: Id, now: Time)
    requires Base(db)
    ensures var result := Accept(db, q, r, id, now);
      if KeyUsed(db, q) then exists x :: Reuses(db, result, q, x)
      else
        && (result.Ok? <==> MayAccept(db, q) && r !in db.runs && !EventIdTaken(db.events, id))
        && (result.Ok? ==> Enqueued(db, result.value.0, q, r, id, now) && result.value.1 == Accepted(r, Queued, 0, false))
  {
    assert Holds(db, References);
    hide EventIdTaken, RequireBinding;
    if KeyUsed(db, q) {
      ReusesKey(db, q, r, id, now);
    } else {
      NoKey(db, q);
      assert Busy(db, q.scope, q.session) <==> exists x :: OpenRun(db, q, x) by { BusyExactly(db, q); }
      hide Busy, OpenRun;
      if Accept(db, q, r, id, now).Ok? { EnqueuesExactly(db, q, r, id, now); }
    }
  }

  lemma NoKey(db: Db, q: Request)
    requires !KeyUsed(db, q)
    ensures forall x :: !HasKey(db, q.scope, q.session, q.key, x)
  {
    forall x ensures !HasKey(db, q.scope, q.session, q.key, x) { assert !Carries(db, q, x); }
  }

  lemma BusyExactly(db: Db, q: Request)
    ensures Busy(db, q.scope, q.session) <==> exists x :: OpenRun(db, q, x)
  {
    if Busy(db, q.scope, q.session) {
      var x :| x in db.runs && db.runs[x].scope == q.scope && db.runs[x].session == q.session && !Terminal(db.runs[x].status);
      assert OpenRun(db, q, x);
    }
  }

  lemma ReusesKey(db: Db, q: Request, r: Id, id: Id, now: Time)
    requires KeyUsed(db, q)
    ensures exists x :: Reuses(db, Accept(db, q, r, id, now), q, x)
  {
    var y :| Carries(db, q, y);
    assert HasKey(db, q.scope, q.session, q.key, y);
    var x :| HasKey(db, q.scope, q.session, q.key, x)
             && Accept(db, q, r, id, now) == (if db.runs[x].fingerprint != q.fingerprint then Err(IdempotencyConflict)
                                              else Ok((db, Accepted(x, db.runs[x].status, db.runs[x].version, true))));
    assert Reuses(db, Accept(db, q, r, id, now), q, x);
  }

  lemma EnqueuesExactly(db: Db, q: Request, r: Id, id: Id, now: Time)
    requires HasSession(db, q.scope, q.session) && AcceptNew(db, q, r, id, now).Ok?
    ensures Enqueued(db, AcceptNew(db, q, r, id, now).value, q, r, id, now)
  {
    var d := AcceptNew(db, q, r, id, now).value;
    var s := db.sessions[q.session];
    assert d.runs == db.runs[r := Run(q.scope, q.session, s.workspace, s.nextRun, q.key, q.fingerprint, q.snapshot,
                                      Queued, None, 0, None, None, now, now, 2)];
    assert d.sessions == db.sessions[q.session := s.(nextRun := s.nextRun + 1, nextEvent := s.nextEvent + 1)];
  }

  // ----- Numbers -----

  predicate Numbers(db: Db, s: Id, n: nat, r: Id) {
    r in db.runs && db.runs[r].session == s && db.runs[r].runSeq == n
  }

  /** Every number below the next one was given to a run of the session. */
  ghost predicate AllGiven(db: Db) {
    forall s, n {:trigger IsGiven(db, s, n)} :: s in db.sessions && 1 <= n < db.sessions[s].nextRun ==> IsGiven(db, s, n)
  }

  ghost predicate IsGiven(db: Db, s: Id, n: nat) {
    exists r :: Numbers(db, s, n, r)
  }

  /** Only these columns matter to it. */
  predicate SameNumbers(db: Db, d: Db) {
    && (forall r :: r in db.runs ==> r in d.runs && d.runs[r].session == db.runs[r].session && d.runs[r].runSeq == db.runs[r].runSeq)
    && (forall s :: s in d.sessions ==> d.sessions[s].nextRun == if s in db.sessions then db.sessions[s].nextRun else 1)
  }

  lemma SameAreGiven(db: Db, d: Db)
    requires AllGiven(db) && SameNumbers(db, d)
    ensures AllGiven(d)
  {
    forall s, n: nat | s in d.sessions && 1 <= n < d.sessions[s].nextRun ensures IsGiven(d, s, n) {
      assert IsGiven(db, s, n);
      var r :| Numbers(db, s, n, r);
      assert Numbers(d, s, n, r);
    }
  }

  lemma EnqueuedAreGiven(db: Db, d: Db, q: Request, r: Id, id: Id, now: Time)
    requires AllGiven(db) && Enqueued(db, d, q, r, id, now) && r !in db.runs
    ensures AllGiven(d)
  {
    forall s, n: nat | s in d.sessions && 1 <= n < d.sessions[s].nextRun ensures IsGiven(d, s, n) {
      if s == q.session && n == db.sessions[s].nextRun {
        assert Numbers(d, s, n, r);
      } else {
        assert IsGiven(db, s, n);
        var x :| Numbers(db, s, n, x);
        assert Numbers(d, s, n, x);
      }
    }
  }

  lemma AcceptGives(db: Db, q: Request, r: Id, id: Id, now: Time)
    requires Base(db) && AllGiven(db) && Accept(db, q, r, id, now).Ok?
    ensures AllGiven(Accept(db, q, r, id, now).value.0)
  {
    AcceptExactly(db, q, r, id, now);
    hide Base, Accept, AllGiven, MayAccept, EventIdTaken, Enqueued;
    if KeyUsed(db, q) {
      var x :| Reuses(db, Accept(db, q, r, id, now), q, x);
    } else {
      EnqueuedAreGiven(db, Accept(db, q, r, id, now).value.0, q, r, id, now);
    }
  }

  lemma CreateNumbers(db: Db, scope: string, binding: Option<UserBinding>, s: Id, w: Id)
    requires CreateSession(db, scope, binding, s, w).Ok?
    ensures SameNumbers(db, CreateSession(db, scope, binding, s, w).value)
  {
  }

  lemma ClaimNumbers(db: Db, r: Id, a: Id, id: Id, now: Time, until: Time)
    requires r in db.runs && HasSession(db, db.runs[r].scope, db.runs[r].session) && Claim(db, r, a, id, now, until).Ok?
    ensures SameNumbers(db, Claim(db, r, a, id, now, until).value)
  {
    hide EventIdTaken, EpochTaken;
  }

  lemma RestateNumbers(db: Db, r: Id, after: RunState)
    requires r in db.runs
    ensures SameNumbers(db, Restate(db, r, after)) && Restate(db, r, after).sessions == db.sessions
  {
  }

  lemma ReleaseNumbers(c: Db, r: Id, now: Time)
    requires r in c.runs && c.runs[r].session in c.sessions && c.runs[r].workspace in c.workspaces
    requires c.runs[r].attempt.Some? ==> c.runs[r].attempt.value in c.attempts
    ensures SameNumbers(c, Release(c, r, now)) && Release(c, r, now).sessions.Keys == c.sessions.Keys
  {
  }

  lemma NumbersTransitive(a: Db, b: Db, c: Db)
    requires SameNumbers(a, b) && SameNumbers(b, c) && b.sessions.Keys == a.sessions.Keys
    ensures SameNumbers(a, c)
  {
  }

  lemma TransitNumbers(db: Db, m: Move, id: Id, now: Time)
    requires (m.run in db.runs ==> Rooted(db, m.run)) && TransitionRun(db, m, id, now).Ok?
    ensures SameNumbers(db, TransitionRun(db, m, id, now).value)
  {
    var change := Transition(StateOf(db.runs[m.run]), m.target, m.expected, m.outcome, m.reason).value;
    var c, data := Restate(db, m.run, change.after), TransitionData(change.after, m.extra);
    hide EventIdTaken, Transition, SameNumbers, TransitionData;
    RestateNumbers(db, m.run, change.after);
    InsertNumbers(c, m.run, change.kind, data, id);
    var e := Insert(c, m.run, change.kind, data, id).value;
    NumbersTransitive(db, c, e);
    if Terminal(m.target) {
      ReleaseNumbers(e, m.run, now);
      NumbersTransitive(db, e, Release(e, m.run, now));
    }
  }

  lemma RespondNumbers(db: Db, y: Reply, id: Id)
    requires (y.run in db.runs ==> Rooted(db, y.run)) && Respond(db, y, id).Ok?
    ensures SameNumbers(db, Respond(db, y, id).value)
  {
    hide EventIdTaken, ReplyKeyTaken, Transition;
  }

  lemma InsertNumbers(db: Db, r: Id, kind: EventKind, data: EventData, id: Id)
    requires r in db.runs && db.runs[r].session in db.sessions && Insert(db, r, kind, data, id).Ok?
    ensures SameNumbers(db, Insert(db, r, kind, data, id).value)
  {
    hide EventIdTaken;
  }

  lemma NextGives(db: Db, step: Step)
    requires Base(db) && AllGiven(db)
    ensures AllGiven(Next(db, step))
  {
    if Effect(db, step).Ok? {
      Roots(db);
      hide CreateSession, Accept, Claim, TransitionRun, Respond, Insert, Refs, Pointers, Epochs, Keys, Checks, Numbered,
        AllGiven, SameNumbers;
      match step {
        case Create(scope, binding, s, w) => CreateNumbers(db, scope, binding, s, w);
        case Submit(q, r, id, now) => AcceptGives(db, q, r, id, now);
        case ClaimNext(only, r, a, id, now, until) => if NextClaim(db, only, now, r) { ClaimNumbers(db, r, a, id, now, until); }
        case Transit(m, id, now) => TransitNumbers(db, m, id, now);
        case Resume(y, id) => RespondNumbers(db, y, id);
        case Record(scope, r, kind, data, id) => InsertNumbers(db, r, kind, data, id);
        case _ => OtherNumbers(db, Next(db, step));
      }
      if !step.Submit? && Next(db, step) != db { SameAreGiven(db, Next(db, step)); }
    }
  }

  lemma OtherNumbers(db: Db, d: Db)
    requires d.runs == db.runs && d.sessions == db.sessions
    ensures SameNumbers(db, d)
  {
  }

  lemma {:induction false} HistoryGives(steps: seq<Step>)
    ensures AllGiven(Exec(steps))
  {
    if steps != [] {
      HistoryGives(steps[..|steps| - 1]);
      hide Next, AllGiven;
      NextGives(Exec(steps[..|steps| - 1]), steps[|steps| - 1]);
    }
  }

  /** In every history the runs of a session have exactly the numbers 1 to next_run_seq - 1, each once. */
  lemma RunsAreNumbered(steps: seq<Step>, s: Id, n: nat)
    requires s in Exec(steps).sessions
    ensures (exists r :: Numbers(Exec(steps), s, n, r)) <==> 1 <= n < Exec(steps).sessions[s].nextRun
    ensures forall r, x :: Numbers(Exec(steps), s, n, r) && Numbers(Exec(steps), s, n, x) ==> r == x
  {
    HistoryGives(steps);
    var db := Exec(steps);
    assert Holds(db, Uniqueness) && Holds(db, References);
    hide Exec;
    if 1 <= n < db.sessions[s].nextRun { assert IsGiven(db, s, n); }
    forall r, x | Numbers(db, s, n, r) && Numbers(db, s, n, x) ensures r == x {
      assert r != x ==> Separate(db.runs[r], db.runs[x]);
    }
  }
}
