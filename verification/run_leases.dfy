/** Leases and their expiry over whole histories: the lease that a claim gives is the one that the workspace
    carries while it is held, and publications are made under it, before it expires, and only then. */
module RunLeases {
  import opened Outcomes
  import opened StateMachine
  import opened Bindings
  import opened RunTables
  import opened EventLog
  import opened RunInvariants
  import opened RunSteps
  import opened RunHistories

  /** Step m is the claim that made attempt a. */
  ghost predicate Gives(steps: seq<Step>, m: nat, a: Id) {
    && m < |steps| && steps[m].ClaimNext? && steps[m].attempt == a
    && a !in Exec(steps[..m]).attempts && a in Exec(steps[..m + 1]).attempts
  }

  /** A held workspace carries the lease of the attempt that holds it. */
  ghost predicate Carried(db: Db) {
    forall w {:trigger CarriedAt(db, w)} :: w in db.workspaces ==> CarriedAt(db, w)
  }

  predicate CarriedAt(db: Db, w: Id)
    requires w in db.workspaces
  {
    db.workspaces[w].active.Some? ==>
      && db.workspaces[w].active.value in db.attempts
      && db.workspaces[w].leaseUntil == Some(db.attempts[db.workspaces[w].active.value].leaseUntil)
  }

  // ----- What each transaction keeps -----

  lemma CreateCarries(db: Db, scope: string, binding: Option<UserBinding>, s: Id, w: Id)
    requires Carried(db) && CreateSession(db, scope, binding, s, w).Ok?
    ensures Carried(CreateSession(db, scope, binding, s, w).value)
    ensures CreateSession(db, scope, binding, s, w).value.attempts == db.attempts
  {
    var d := CreateSession(db, scope, binding, s, w).value;
    forall x | x in d.workspaces ensures CarriedAt(d, x) { if x in db.workspaces { assert CarriedAt(db, x); } }
  }

  lemma AcceptCarries(db: Db, q: Request, r: Id, id: Id, now: Time)
    requires Carried(db) && Accept(db, q, r, id, now).Ok?
    ensures Carried(Accept(db, q, r, id, now).value.0) && Accept(db, q, r, id, now).value.0.attempts == db.attempts
  {
    var d := Accept(db, q, r, id, now).value.0;
    hide EventIdTaken, BindingCheck, Busy;
    forall x | x in d.workspaces ensures CarriedAt(d, x) { assert CarriedAt(db, x); }
  }

  lemma ClaimCarries(db: Db, r: Id, a: Id, id: Id, now: Time, until: Time)
    requires Carried(db) && r in db.runs && HasSession(db, db.runs[r].scope, db.runs[r].session)
    requires Claim(db, r, a, id, now, until).Ok?
    ensures var d := Claim(db, r, a, id, now, until).value;
      && Carried(d) && d.attempts.Keys == db.attempts.Keys + {a} && a !in db.attempts && d.attempts[a].leaseUntil == until
  {
    var d := Claim(db, r, a, id, now, until).value;
    hide EventIdTaken, EpochTaken;
    forall x | x in d.workspaces ensures CarriedAt(d, x) { assert CarriedAt(db, x); }
  }

  lemma TransitCarries(db: Db, m: Move, id: Id, now: Time)
    requires Carried(db) && (m.run in db.runs ==> Rooted(db, m.run)) && TransitionRun(db, m, id, now).Ok?
    ensures Carried(TransitionRun(db, m, id, now).value)
    ensures TransitionRun(db, m, id, now).value.attempts.Keys == db.attempts.Keys
  {
    var d := TransitionRun(db, m, id, now).value;
    hide EventIdTaken, StateMachine.Transition;
    forall x | x in d.workspaces ensures CarriedAt(d, x) { assert CarriedAt(db, x); }
  }

  lemma OtherCarries(db: Db, d: Db)
    requires Carried(db) && d.attempts == db.attempts && d.workspaces.Keys == db.workspaces.Keys
    requires forall w :: w in db.workspaces ==>
               d.workspaces[w].active == db.workspaces[w].active && d.workspaces[w].leaseUntil == db.workspaces[w].leaseUntil
    ensures Carried(d)
  {
    forall x | x in d.workspaces ensures CarriedAt(d, x) { assert CarriedAt(db, x); }
  }

  lemma RespondLeaves(db: Db, y: Reply, id: Id)
    requires (y.run in db.runs ==> Rooted(db, y.run)) && Respond(db, y, id).Ok?
    ensures Respond(db, y, id).value.attempts == db.attempts && Respond(db, y, id).value.workspaces == db.workspaces
  {
    hide EventIdTaken, ReplyKeyTaken, StateMachine.Transition;
  }

  /** New attempts come from claims, with the lease that the claim asks for. */
  lemma NextCarries(db: Db, step: Step)
    requires Base(db) && Carried(db)
    ensures var d := Next(db, step);
      && Carried(d)
      && (forall a :: a in d.attempts && a !in db.attempts ==>
            step.ClaimNext? && step.attempt == a && d.attempts[a].leaseUntil == step.until)
  {
    if Effect(db, step).Ok? {
      Roots(db);
      var d := Next(db, step);
      hide Carried, CreateSession, Accept, Claim, TransitionRun, Respond, Pointers, Epochs, Keys, Checks, Numbered, Refs;
      match step
      case Create(scope, binding, s, w) => CreateCarries(db, scope, binding, s, w);
      case Submit(q, r, id, now) => AcceptCarries(db, q, r, id, now);
      case ClaimNext(only, r, a, id, now, until) => if NextClaim(db, only, now, r) { ClaimCarries(db, r, a, id, now, until); }
      case Transit(m, id, now) => TransitCarries(db, m, id, now);
      case Resume(y, id) =>
        RespondLeaves(db, y, id);
        OtherCarries(db, d);
      case _ => OtherCarries(db, d);
    }
  }

  // ----- Over whole histories -----

  lemma {:induction false} HistoryCarries(steps: seq<Step>)
    ensures Carried(Exec(steps))
  {
    if steps != [] {
      HistoryCarries(steps[..|steps| - 1]);
      hide Carried, Next;
      NextCarries(Exec(steps[..|steps| - 1]), steps[|steps| - 1]);
    }
  }

  /** A claim of the history made attempt a, and a's lease is the one that the claim asked for. */
  ghost predicate GivenBySome(steps: seq<Step>, a: Id)
    requires a in Exec(steps).attempts
  {
    exists m: nat :: Gives(steps, m, a) && steps[m].until == Exec(steps).attempts[a].leaseUntil
  }

  lemma {:induction false} AttemptsAreGiven(steps: seq<Step>, a: Id)
    requires a in Exec(steps).attempts
    ensures GivenBySome(steps, a)
  {
    hide Next, Base;
    var init, n := steps[..|steps| - 1], |steps| - 1;
    HistoryCarries(init);
    NextCarries(Exec(init), steps[n]);
    assert steps[..n] == init && steps[..n + 1] == steps;
    hide Exec, Carried;
    if a in Exec(init).attempts {
      AttemptsAreGiven(init, a);
      KeepsLease(Exec(init), steps[n], a);
      GivenStays(steps, a);
    } else {
      assert Gives(steps, n, a);
    }
  }

  lemma KeepsLease(db: Db, step: Step, a: Id)
    requires Base(db) && a in db.attempts
    ensures a in Next(db, step).attempts && Next(db, step).attempts[a].leaseUntil == db.attempts[a].leaseUntil
  {
    NextExtends(db, step);
    hide Next;
    assert AttemptKept(db, Next(db, step), a);
  }

  lemma GivenStays(steps: seq<Step>, a: Id)
    requires steps != [] && a in Exec(steps[..|steps| - 1]).attempts && GivenBySome(steps[..|steps| - 1], a)
    requires a in Exec(steps).attempts && Exec(steps).attempts[a].leaseUntil == Exec(steps[..|steps| - 1]).attempts[a].leaseUntil
    ensures GivenBySome(steps, a)
  {
    hide Exec;
    var init := steps[..|steps| - 1];
    var m: nat :| Gives(init, m, a) && init[m].until == Exec(init).attempts[a].leaseUntil;
    assert steps[..m] == init[..m] && steps[..m + 1] == init[..m + 1];
    assert Gives(steps, m, a);
  }

  /** No attempt is made twice. */
  lemma GivenOnce(steps: seq<Step>, m: nat, n: nat, a: Id)
    requires Gives(steps, m, a) && Gives(steps, n, a) && m <= n
    ensures m == n
  {
    if m < n { AttemptStays(steps, m + 1, n, a); }
  }

  lemma AttemptStays(steps: seq<Step>, m: nat, n: nat, a: Id)
    requires m <= n <= |steps| && a in Exec(steps[..m]).attempts
    ensures a in Exec(steps[..n]).attempts
  {
    assert steps[..n][..m] == steps[..m];
    HistoryExtends(steps[..n], m);
    assert AttemptKept(Exec(steps[..m]), Exec(steps[..n]), a);
  }

  /** The rows of a claim. */
  ghost predicate ClaimedRows(db: Db, d: Db, r: Id, a: Id, until: Time) {
    && r in db.runs && db.runs[r].session in db.sessions && db.sessions[db.runs[r].session].workspace in db.workspaces
    && var s := db.runs[r].session;
    var w := db.sessions[s].workspace;
    && a in d.attempts
    && d.attempts[a] == Attempt(db.runs[r].scope, s, r, w, db.sessions[s].epoch + 1, db.workspaces[w].epoch + 1, until,
                                db.workspaces[w].current, None)
    && s in d.sessions && d.sessions[s].active == Some(r) && d.sessions[s].epoch == db.sessions[s].epoch + 1
    && w in d.workspaces && d.workspaces[w].active == Some(a) && d.workspaces[w].epoch == db.workspaces[w].epoch + 1
    && d.workspaces[w].leaseUntil == Some(until) && d.workspaces[w].current == db.workspaces[w].current
    && r in d.runs && d.runs[r].attempt == Some(a) && d.runs[r].due == until
    && StateOf(d.runs[r]) == RunState(Running, db.runs[r].version + 1, db.runs[r].outcome, db.runs[r].waitReason)
  }

  lemma ClaimWritesRows(db: Db, r: Id, a: Id, id: Id, now: Time, until: Time)
    requires r in db.runs && HasSession(db, db.runs[r].scope, db.runs[r].session) && Claim(db, r, a, id, now, until).Ok?
    ensures ClaimedRows(db, Claim(db, r, a, id, now, until).value, r, a, until)
  {
    hide EventIdTaken, EpochTaken;
  }

  /** What a claim writes, and that its attempt keeps for ever the epochs, the lease and the base revision that
      it was given: the one that was current at the claim. */
  lemma ClaimGivesLease(steps: seq<Step>, m: nat, n: nat, a: Id)
    requires Gives(steps, m, a) && m < n <= |steps|
    ensures ClaimedRows(Exec(steps[..m]), Exec(steps[..m + 1]), steps[m].run, a, steps[m].until)
    ensures a in Exec(steps[..n]).attempts
    ensures Exec(steps[..n]).attempts[a] == Exec(steps[..m + 1]).attempts[a].(ended := Exec(steps[..n]).attempts[a].ended)
  {
    ClaimHappens(steps, m, a);
    assert steps[..n][..m + 1] == steps[..m + 1];
    HistoryExtends(steps[..n], m + 1);
    hide Exec, ClaimedRows;
    assert AttemptKept(Exec(steps[..m + 1]), Exec(steps[..n]), a);
  }

  lemma ClaimHappens(steps: seq<Step>, m: nat, a: Id)
    requires Gives(steps, m, a)
    ensures ClaimedRows(Exec(steps[..m]), Exec(steps[..m + 1]), steps[m].run, a, steps[m].until)
  {
    var db, step := Exec(steps[..m]), steps[m];
    StateAfter(steps, m);
    hide Exec, Base, ClaimedRows, Claim, HasSession;
    if NextClaim(db, step.only, step.now, step.run) && Claim(db, step.run, a, step.event, step.now, step.until).Ok? {
      ClaimWritesRows(db, step.run, a, step.event, step.now, step.until);
    }
  }

  lemma StateAfter(steps: seq<Step>, n: nat)
    requires n < |steps|
    ensures Exec(steps[..n + 1]) == Next(Exec(steps[..n]), steps[n])
  {
    hide Next, Base;
    assert steps[..n + 1][..n] == steps[..n];
  }

  /** The end of a run that holds an attempt: the attempt ends now, and its session and its workspace are free
      and carry no lease. */
  lemma EndReleases(db: Db, m: Move, id: Id, now: Time)
    requires (m.run in db.runs ==> Rooted(db, m.run)) && TransitionRun(db, m, id, now).Ok? && Terminal(m.target)
    requires db.runs[m.run].attempt.Some?
    ensures var d, run, a := TransitionRun(db, m, id, now).value, db.runs[m.run], db.runs[m.run].attempt.value;
      && m.run in d.runs && d.runs[m.run].attempt == None
      && d.attempts == db.attempts[a := db.attempts[a].(ended := Some(now))]
      && run.session in d.sessions && d.sessions[run.session].active == None
      && run.workspace in d.workspaces
      && d.workspaces[run.workspace] == db.workspaces[run.workspace].(active := None, leaseUntil := None)
  {
    hide EventIdTaken, Transition;
  }

  // ----- Publishing -----

  /** Whoever publishes is an attempt of the workspace that has not ended, under the epoch it was given and
      before its lease expires, and names a revision that is new. */
  ghost predicate MayPublish(db: Db, scope: string, p: Publication, now: Time) {
    && p.revision !in db.revisions
    && p.workspace in db.workspaces && db.workspaces[p.workspace].scope == scope
    && p.attempt in db.attempts && db.attempts[p.attempt].workspace == p.workspace
    && db.attempts[p.attempt].ended.None? && db.attempts[p.attempt].workspaceEpoch == p.epoch
    && now < db.attempts[p.attempt].leaseUntil
  }

  lemma PublishesExactly(db: Db, scope: string, p: Publication, now: Time)
    requires Base(db) && Carried(db)
    ensures Publish(db, scope, p, now).Ok? <==> MayPublish(db, scope, p, now)
    ensures Publish(db, scope, p, now).Ok? ==>
              var d := Publish(db, scope, p, now).value;
              p.revision in d.revisions && p.workspace in d.workspaces && d.workspaces[p.workspace].current == Some(p.revision)
  {
    assert Holds(db, References) && Holds(db, Ownership);
    if p.workspace in db.workspaces && db.workspaces[p.workspace].active == Some(p.attempt) {
      assert CarriedAt(db, p.workspace) && WorkspacePointer(db, p.workspace);
      assert RunPointer(db, db.attempts[p.attempt].run);
    }
    if p.attempt in db.attempts {
      assert AttemptPointer(db, p.attempt);
      assert RunPointer(db, db.attempts[p.attempt].run);
    }
  }

  /** Step n publishes p. */
  ghost predicate Publishes(steps: seq<Step>, n: nat) {
    && n < |steps| && steps[n].Commit?
    && steps[n].publication.revision !in Exec(steps[..n]).revisions
    && steps[n].publication.revision in Exec(steps[..n + 1]).revisions
  }

  /** In every history a commit publishes if and only if its attempt was made by a claim whose lease has not
      expired, has not ended, gives the epoch that it was given, and names a new revision of its own
      workspace; and then that revision is the current one. */
  lemma PublishedUnderLease(steps: seq<Step>, n: nat)
    requires n < |steps| && steps[n].Commit?
    ensures var db, p := Exec(steps[..n]), steps[n].publication;
      && (Publishes(steps, n) <==>
            && p.revision !in db.revisions
            && p.workspace in db.workspaces && db.workspaces[p.workspace].scope == steps[n].scope
            && p.attempt in db.attempts && db.attempts[p.attempt].workspace == p.workspace
            && db.attempts[p.attempt].ended.None? && db.attempts[p.attempt].workspaceEpoch == p.epoch
            && exists m: nat :: m < n && Gives(steps, m, p.attempt) && steps[n].now < steps[m].until)
      && (Publishes(steps, n) ==>
            var d := Exec(steps[..n + 1]);
            p.workspace in d.workspaces && d.workspaces[p.workspace].current == Some(p.revision))
  {
    var db, p, now := Exec(steps[..n]), steps[n].publication, steps[n].now;
    HistoryCarries(steps[..n]);
    PublishesExactly(db, steps[n].scope, p, now);
    CommitStep(steps, n);
    if p.attempt in db.attempts { LeaseOfClaim(steps, n, p.attempt); }
    hide Exec, Base, Carried, Publish, Gives;
  }

  lemma CommitStep(steps: seq<Step>, n: nat)
    requires n < |steps| && steps[n].Commit?
    ensures var db := Exec(steps[..n]);
      var effect := Publish(db, steps[n].scope, steps[n].publication, steps[n].now);
      Exec(steps[..n + 1]) == if effect.Ok? then effect.value else db
  {
    StateAfter(steps, n);
    hide Exec, Base, Publish;
  }

  /** The lease of an attempt is that of the one claim that made it. */
  lemma LeaseOfClaim(steps: seq<Step>, n: nat, a: Id)
    requires n <= |steps| && a in Exec(steps[..n]).attempts
    ensures exists m: nat :: m < n && Gives(steps, m, a)
    ensures forall m: nat :: m < n && Gives(steps, m, a) ==> steps[m].until == Exec(steps[..n]).attempts[a].leaseUntil
  {
    hide Exec;
    AttemptsAreGiven(steps[..n], a);
    var k: nat :| Gives(steps[..n], k, a) && steps[..n][k].until == Exec(steps[..n]).attempts[a].leaseUntil;
    assert steps[..n][..k] == steps[..k] && steps[..n][..k + 1] == steps[..k + 1];
    assert Gives(steps, k, a);
    forall m: nat | m < n && Gives(steps, m, a) ensures m == k {
      if m <= k { GivenOnce(steps, m, k, a); } else { GivenOnce(steps, k, m, a); }
    }
  }
}
