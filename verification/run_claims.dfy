/** Which message a worker gets: of those that wait, the one that was accepted first. */
module RunClaims {
  import opened Outcomes
  import opened StateMachine
  import opened Bindings
  import opened RunTables
  import opened EventLog
  import opened RunInvariants
  import opened RunSteps
  import opened RunHistories
  import opened RunOwnership
  import opened RunRefinement
  import opened RunLeases

  /** Step i accepts the message of run r. */
  ghost predicate Accepts(steps: seq<Step>, i: nat, r: Id) {
    && i < |steps| && steps[i].Submit? && steps[i].run == r
    && r !in Exec(steps[..i]).runs && r in Exec(steps[..i + 1]).runs
  }

  // ----- The times of a run -----

  predicate Attempted(db: Db, r: Id) {
    exists a :: a in db.attempts && db.attempts[a].run == r
  }

  /** A run that existed keeps the time of its creation, and that at which it is due until it is claimed. */
  predicate TimesKept(db: Db, d: Db, r: Id)
    requires r in db.runs
  {
    && r in d.runs && d.runs[r].created == db.runs[r].created
    && (d.runs[r].due == db.runs[r].due || Attempted(d, r))
  }

  ghost predicate KeepsTimes(db: Db, d: Db) {
    forall r {:trigger TimesKept(db, d, r)} :: r in db.runs ==> TimesKept(db, d, r)
  }

  lemma AcceptTimes(db: Db, q: Request, r: Id, id: Id, now: Time)
    requires Accept(db, q, r, id, now).Ok?
    ensures var d := Accept(db, q, r, id, now).value.0;
      && KeepsTimes(db, d)
      && forall x :: x in d.runs && x !in db.runs ==> x == r && d.runs[x].created == now && d.runs[x].due == now
  {
    hide EventIdTaken, BindingCheck, Busy;
  }

  lemma ClaimTimes(db: Db, r: Id, a: Id, id: Id, now: Time, until: Time)
    requires r in db.runs && HasSession(db, db.runs[r].scope, db.runs[r].session) && Claim(db, r, a, id, now, until).Ok?
    ensures var d := Claim(db, r, a, id, now, until).value;
      KeepsTimes(db, d) && d.runs.Keys == db.runs.Keys
  {
    hide EventIdTaken, EpochTaken;
    var d := Claim(db, r, a, id, now, until).value;
    assert Attempted(d, r) by { assert a in d.attempts && d.attempts[a].run == r; }
  }

  lemma TransitTimes(db: Db, m: Move, id: Id, now: Time)
    requires (m.run in db.runs ==> Rooted(db, m.run)) && TransitionRun(db, m, id, now).Ok?
    ensures var d := TransitionRun(db, m, id, now).value;
      KeepsTimes(db, d) && d.runs.Keys == db.runs.Keys
  {
    hide EventIdTaken, StateMachine.Transition, Attempted;
  }

  lemma RespondTimes(db: Db, y: Reply, id: Id)
    requires (y.run in db.runs ==> Rooted(db, y.run)) && Respond(db, y, id).Ok?
    ensures var d := Respond(db, y, id).value;
      KeepsTimes(db, d) && d.runs.Keys == db.runs.Keys
  {
    hide EventIdTaken, ReplyKeyTaken, StateMachine.Transition, Attempted;
  }

  lemma CreateTimes(db: Db, scope: string, binding: Option<UserBinding>, s: Id, w: Id)
    requires CreateSession(db, scope, binding, s, w).Ok?
    ensures CreateSession(db, scope, binding, s, w).value.runs == db.runs
    ensures CreateSession(db, scope, binding, s, w).value.attempts == db.attempts
  {
  }

  lemma NextTimes(db: Db, step: Step)
    requires Base(db)
    ensures var d := Next(db, step);
      && KeepsTimes(db, d)
      && forall r :: r in d.runs && r !in db.runs ==>
           step.Submit? && step.run == r && d.runs[r].created == step.now && d.runs[r].due == step.now
  {
    if Effect(db, step).Ok? {
      Roots(db);
      hide CreateSession, Accept, Claim, TransitionRun, Respond, Pointers, Epochs, Keys, Checks, Numbered, Refs, Attempted;
      match step
      case Create(scope, binding, s, w) => CreateTimes(db, scope, binding, s, w);
      case Submit(q, r, id, now) => AcceptTimes(db, q, r, id, now);
      case ClaimNext(only, r, a, id, now, until) => if NextClaim(db, only, now, r) { ClaimTimes(db, r, a, id, now, until); }
      case Transit(m, id, now) => TransitTimes(db, m, id, now);
      case Resume(y, id) => RespondTimes(db, y, id);
      case _ =>
    }
  }

  /** Some step accepted run r, when it was created; and it is due since then, unless it was ever claimed. */
  ghost predicate AcceptedBySome(steps: seq<Step>, r: Id)
    requires r in Exec(steps).runs
  {
    && (exists i: nat :: Accepts(steps, i, r) && steps[i].now == Exec(steps).runs[r].created)
    && (Exec(steps).runs[r].due == Exec(steps).runs[r].created || Attempted(Exec(steps), r))
  }

  lemma {:induction false} RunsAreAccepted(steps: seq<Step>, r: Id)
    requires r in Exec(steps).runs
    ensures AcceptedBySome(steps, r)
  {
    hide Next, Base, Attempted;
    var init, n := steps[..|steps| - 1], |steps| - 1;
    NextTimes(Exec(init), steps[n]);
    assert steps[..n] == init && steps[..n + 1] == steps;
    hide Exec;
    if r in Exec(init).runs {
      RunsAreAccepted(init, r);
      assert TimesKept(Exec(init), Exec(steps), r);
      StillAttempted(Exec(init), steps[n], r);
      assert Next(Exec(init), steps[n]) == Exec(steps) by { LastState(steps); }
      AcceptedStays(steps, r);
    } else {
      assert Accepts(steps, n, r);
    }
  }

  lemma LastState(steps: seq<Step>)
    requires steps != []
    ensures Exec(steps) == Next(Exec(steps[..|steps| - 1]), steps[|steps| - 1])
  {
    hide Next, Base;
  }

  lemma StillAttempted(db: Db, step: Step, r: Id)
    requires Base(db)
    ensures Attempted(db, r) ==> Attempted(Next(db, step), r)
  {
    NextExtends(db, step);
    hide Next, Base;
    if a :| a in db.attempts && db.attempts[a].run == r { assert AttemptKept(db, Next(db, step), a); }
  }

  lemma AcceptedStays(steps: seq<Step>, r: Id)
    requires steps != [] && r in Exec(steps[..|steps| - 1]).runs && AcceptedBySome(steps[..|steps| - 1], r)
    requires r in Exec(steps).runs && TimesKept(Exec(steps[..|steps| - 1]), Exec(steps), r)
    requires Attempted(Exec(steps[..|steps| - 1]), r) ==> Attempted(Exec(steps), r)
    ensures AcceptedBySome(steps, r)
  {
    hide Exec, Attempted;
    var init := steps[..|steps| - 1];
    var i: nat :| Accepts(init, i, r) && init[i].now == Exec(init).runs[r].created;
    assert steps[..i] == init[..i] && steps[..i + 1] == init[..i + 1];
    assert Accepts(steps, i, r);
  }

  lemma RunStays(steps: seq<Step>, m: nat, n: nat, r: Id)
    requires m <= n <= |steps| && r in Exec(steps[..m]).runs
    ensures r in Exec(steps[..n]).runs
  {
    assert steps[..n][..m] == steps[..m];
    HistoryExtends(steps[..n], m);
    assert RunKept(Exec(steps[..m]), Exec(steps[..n]), r);
  }

  lemma AcceptedOnce(steps: seq<Step>, i: nat, j: nat, r: Id)
    requires Accepts(steps, i, r) && Accepts(steps, j, r) && i <= j
    ensures i == j
  {
    if i < j { RunStays(steps, i + 1, j, r); }
  }

  /** The step that accepted a run gives the time of its creation. */
  lemma TimeOfAcceptance(steps: seq<Step>, n: nat, r: Id)
    requires n <= |steps| && r in Exec(steps[..n]).runs
    ensures exists i: nat :: i < n && Accepts(steps, i, r)
    ensures forall i: nat :: i < n && Accepts(steps, i, r) ==> steps[i].now == Exec(steps[..n]).runs[r].created
  {
    hide Exec, Attempted;
    RunsAreAccepted(steps[..n], r);
    var k: nat :| Accepts(steps[..n], k, r) && steps[..n][k].now == Exec(steps[..n]).runs[r].created;
    assert steps[..n][..k] == steps[..k] && steps[..n][..k + 1] == steps[..k + 1];
    assert Accepts(steps, k, r);
    forall i: nat | i < n && Accepts(steps, i, r) ensures i == k {
      if i <= k { AcceptedOnce(steps, i, k, r); } else { AcceptedOnce(steps, k, i, r); }
    }
  }

  // ----- The queue -----

  /** Run r waits: it is queued behind no other of its session, and nothing of its session or workspace is held. */
  ghost predicate Waits(db: Db, only: Option<string>, r: Id) {
    && r in db.runs && db.runs[r].status == Queued
    && db.runs[r].session in db.sessions && db.sessions[db.runs[r].session].active.None?
    && db.runs[r].workspace in db.workspaces && db.workspaces[db.runs[r].workspace].active.None?
    && (forall p :: p in db.runs && db.runs[p].session == db.runs[r].session && db.runs[p].status == Queued ==>
          db.runs[r].runSeq <= db.runs[p].runSeq)
    && (only.Some? ==> db.runs[r].scope == only.value)
  }

  lemma WaitsExactly(db: Db, only: Option<string>, now: Time, r: Id)
    requires Base(db)
    ensures Claimable(db, only, now, r) <==> Waits(db, only, r) && db.runs[r].due <= now
  {
    assert Holds(db, References);
    if r in db.runs {
      forall p | p in db.runs && db.runs[p].session == db.runs[r].session ensures db.runs[p].scope == db.runs[r].scope {}
    }
  }

  lemma WaitingIsUnclaimed(db: Db, only: Option<string>, r: Id)
    requires Base(db) && Waits(db, only, r)
    ensures !Attempted(db, r)
  {
    assert Holds(db, References) && Holds(db, Ownership);
    WaitsExactly(db, only, db.runs[r].due, r);
    ClaimableIsFree(db, only, db.runs[r].due, r);
  }

  /** A message can be claimed exactly from when it was accepted, while it waits. */
  lemma ClaimableSinceAccepted(steps: seq<Step>, n: nat, i: nat, r: Id, only: Option<string>, now: Time)
    requires i < n <= |steps| && Accepts(steps, i, r)
    ensures Claimable(Exec(steps[..n]), only, now, r) <==> Waits(Exec(steps[..n]), only, r) && steps[i].now <= now
  {
    var db := Exec(steps[..n]);
    RunStays(steps, i + 1, n, r);
    TimeOfAcceptance(steps, n, r);
    RunsAreAccepted(steps[..n], r);
    hide Exec, Accepts, Claimable, Attempted;
    WaitsExactly(db, only, now, r);
    if Waits(db, only, r) { WaitingIsUnclaimed(db, only, r); }
  }

  /** No other claimable run is due earlier; of those due together none was created earlier; of those created
      together none has a smaller number. */
  ghost predicate FirstInLine(db: Db, only: Option<string>, now: Time, r: Id) {
    && Claimable(db, only, now, r)
    && forall o {:trigger Claimable(db, only, now, o)} :: Claimable(db, only, now, o) ==>
         var x, y := db.runs[r], db.runs[o];
         && !(y.due < x.due)
         && (y.due == x.due ==> !(y.created < x.created))
         && (y.due == x.due && y.created == x.created ==> !(y.runSeq < x.runSeq))
  }

  /** That is the run that the query chooses. */
  lemma ChosenIsFirst(db: Db, only: Option<string>, now: Time, r: Id)
    requires NextClaim(db, only, now, r)
    ensures FirstInLine(db, only, now, r)
  {
    hide HasSession, EarlierQueued;
  }

  lemma ClaimStep(steps: seq<Step>, n: nat)
    requires n < |steps| && steps[n].ClaimNext? && Gives(steps, n, steps[n].attempt)
    ensures NextClaim(Exec(steps[..n]), steps[n].only, steps[n].now, steps[n].run)
    ensures Exec(steps[..n + 1]).attempts[steps[n].attempt].run == steps[n].run
  {
    StateAfter(steps, n);
    hide Exec, Base, NextClaim, EpochTaken, EventIdTaken;
  }

  /** r was accepted no later than o, which waited as well; of two accepted together it has the smaller number. */
  ghost predicate NoLater(steps: seq<Step>, n: nat, i: nat, j: nat, r: Id, o: Id)
    requires i < |steps| && j < |steps| && n <= |steps| && steps[i].Submit? && steps[j].Submit?
    requires r in Exec(steps[..n]).runs && o in Exec(steps[..n]).runs
  {
    steps[i].now < steps[j].now
    || (steps[i].now == steps[j].now && Exec(steps[..n]).runs[r].runSeq <= Exec(steps[..n]).runs[o].runSeq)
  }

  /** A claim takes a message that waits, and of all that wait the one that was accepted first. */
  lemma ClaimTakesTheFirst(steps: seq<Step>, n: nat, j: nat, o: Id) returns (i: nat)
    requires n < |steps| && steps[n].ClaimNext? && Gives(steps, n, steps[n].attempt)
    requires j < n && Accepts(steps, j, o) && Waits(Exec(steps[..n]), steps[n].only, o) && steps[j].now <= steps[n].now
    ensures var r := Exec(steps[..n + 1]).attempts[steps[n].attempt].run;
      && i < n && Accepts(steps, i, r) && steps[i].now <= steps[n].now
      && Waits(Exec(steps[..n]), steps[n].only, r) && NoLater(steps, n, i, j, r, o)
  {
    var db, r, only, now := Exec(steps[..n]), steps[n].run, steps[n].only, steps[n].now;
    ClaimStep(steps, n);
    hide Exec, Gives, NextClaim, Attempted;
    ChosenIsFirst(db, only, now, r);
    TimeOfAcceptance(steps, n, r);
    i :| i < n && Accepts(steps, i, r);
    ClaimableSinceAccepted(steps, n, i, r, only, now);
    ClaimableSinceAccepted(steps, n, j, o, only, now);
    WaitingTimes(steps, n, i, r, only);
    WaitingTimes(steps, n, j, o, only);
    hide Accepts, Claimable, Waits;
  }

  /** A waiting message is due since it was accepted. */
  lemma WaitingTimes(steps: seq<Step>, n: nat, i: nat, r: Id, only: Option<string>)
    requires i < n <= |steps| && Accepts(steps, i, r) && Waits(Exec(steps[..n]), only, r)
    ensures Exec(steps[..n]).runs[r].due == Exec(steps[..n]).runs[r].created == steps[i].now
  {
    TimeOfAcceptance(steps, n, r);
    RunsAreAccepted(steps[..n], r);
    WaitingIsUnclaimed(Exec(steps[..n]), only, r);
    hide Exec, Accepts, Attempted;
  }

  // ----- Only claimed messages succeed -----

  lemma ActiveIsAttempted(steps: seq<Step>, r: Id)
    requires Supervised(steps) && r in Exec(steps).runs && Active(Exec(steps).runs[r].status)
    ensures Attempted(Exec(steps), r)
  {
    ActiveRunOwns(steps, r);
    hide Exec, Supervised;
    var a := Exec(steps).runs[r].attempt.value;
    assert a in Exec(steps).attempts && Exec(steps).attempts[a].run == r;
  }

  lemma SucceedsFromRunning(db: Db, step: Step, r: Id)
    requires Base(db) && r in Next(db, step).runs && Next(db, step).runs[r].status == Succeeded
    ensures r in db.runs && (db.runs[r].status == Succeeded || db.runs[r].status == Running)
  {
    hide Next, Base, Moves;
    if r in db.runs {
      StepRefinesStateMachine(db, step, r);
      if StateOf(Next(db, step).runs[r]) != StateOf(db.runs[r]) { MovesIntoSuccess(StateOf(db.runs[r]), StateOf(Next(db, step).runs[r])); }
    } else {
      NewRunIsQueued(db, step, r);
    }
  }

  lemma MovesIntoSuccess(x: RunState, y: RunState)
    requires Moves(x, y) && y.status == Succeeded
    ensures x.status == Running
  {
  }

  lemma NewRunIsQueued(db: Db, step: Step, r: Id)
    requires Base(db) && r in Next(db, step).runs && r !in db.runs
    ensures Next(db, step).runs[r].status == Queued
  {
    NextTimes(db, step);
    hide EventIdTaken, BindingCheck, Busy, Base;
  }

  /** Where no step starts an unclaimed run, a message that succeeded was claimed. */
  lemma {:induction false} SucceededWasClaimed(steps: seq<Step>, r: Id)
    requires Supervised(steps) && r in Exec(steps).runs && Exec(steps).runs[r].status == Succeeded
    ensures exists a :: a in Exec(steps).attempts && Exec(steps).attempts[a].run == r
    decreases |steps|, 0
  {
    hide Next, Base, Attempted;
    var init, last := steps[..|steps| - 1], steps[|steps| - 1];
    LastState(steps);
    SucceedsFromRunning(Exec(init), last, r);
    hide Exec;
    if Exec(init).runs[r].status == Succeeded { AttemptedAfter(init, r); } else { ActiveIsAttempted(init, r); }
    StillAttempted(Exec(init), last, r);
    HasAttempt(Exec(steps), r);
  }

  lemma AttemptedAfter(steps: seq<Step>, r: Id)
    requires Supervised(steps) && r in Exec(steps).runs && Exec(steps).runs[r].status == Succeeded
    ensures Attempted(Exec(steps), r)
    decreases |steps|, 1
  {
    SucceededWasClaimed(steps, r);
  }

  lemma HasAttempt(db: Db, r: Id)
    requires Attempted(db, r)
    ensures exists a :: a in db.attempts && db.attempts[a].run == r
  {
  }
}
