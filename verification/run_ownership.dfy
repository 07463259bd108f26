/** Safety of whole histories: who owns a session and a workspace, in which order runs are claimed, and
    what the event log tells. */
module RunOwnership {
  import opened Outcomes
  import opened StateMachine
  import opened Bindings
  import opened RunTables
  import opened EventLog
  import opened RunInvariants
  import opened RunSteps
  import opened RunLogs
  import opened RunHistories

  // ----- Supervised histories -----

  /** transition_run puts into RUNNING a run that no attempt has claimed.  The state machine allows it
      and no caller in the repository does it: RUNNING is entered through claim_next_run. */
  ghost predicate StartsUnclaimed(db: Db, step: Step)
    requires Base(db)
  {
    step.Transit? && step.move.target == Running && Effect(db, step).Ok?
    && step.move.run in db.runs && db.runs[step.move.run].attempt.None?
  }

  /** No step of the history starts an unclaimed run. */
  ghost predicate Supervised(steps: seq<Step>) {
    steps == []
    || (Supervised(steps[..|steps| - 1]) && !StartsUnclaimed(Exec(steps[..|steps| - 1]), steps[|steps| - 1]))
  }

  /** No run became active without an attempt, and no attempt was made. */
  ghost predicate Quiet(db: Db, d: Db) {
    && d.attempts.Keys == db.attempts.Keys
    && (Owned(db) ==> Owned(d))
  }

  lemma SameRunsAreQuiet(db: Db, d: Db)
    requires d.runs == db.runs && d.attempts == db.attempts
    ensures Quiet(db, d)
  {
  }

  lemma InsertIsQuiet(db: Db, r: Id, kind: EventKind, data: EventData, id: Id)
    requires r in db.runs && db.runs[r].session in db.sessions && Insert(db, r, kind, data, id).Ok?
    ensures Quiet(db, Insert(db, r, kind, data, id).value)
  {
    var d := Insert(db, r, kind, data, id).value;
    if Owned(db) { OwnedFrame(db, d); }
  }

  lemma AcceptIsQuiet(db: Db, q: Request, r: Id, id: Id, now: Time)
    requires Accept(db, q, r, id, now).Ok?
    ensures Quiet(db, Accept(db, q, r, id, now).value.0)
  {
    if !Accept(db, q, r, id, now).value.1.reused {
      AcceptShape(db, q, r, id, now);
      var core := Enqueue(db, q, r, now);
      assert Quiet(db, core);
      InsertIsQuiet(core, r, RunAccepted, EventData(Some(Queued), None), id);
    }
  }

  lemma RespondIsQuiet(db: Db, y: Reply, id: Id)
    requires (y.run in db.runs ==> Rooted(db, y.run)) && Respond(db, y, id).Ok?
    ensures Quiet(db, Respond(db, y, id).value)
  {
    RespondShape(db, y, id);
    if !db.pendings[y.pending].resolved {
      var after := Transition(StateOf(db.runs[y.run]), Queued, y.expected, None, None).value.after;
      assert Quiet(db, Answer(db, y, after));
      InsertIsQuiet(Answer(db, y, after), y.run, RunResumed, EventData(Some(Queued), None), id);
    }
  }

  lemma TransitionAddsNoAttempt(db: Db, m: Move, id: Id, now: Time)
    requires (m.run in db.runs ==> Rooted(db, m.run)) && TransitionRun(db, m, id, now).Ok?
    ensures TransitionRun(db, m, id, now).value.attempts.Keys == db.attempts.Keys
  {
  }

  lemma ClaimKeepsOwned(db: Db, r: Id, a: Id, id: Id, now: Time, until: Time)
    requires Owned(db) && r in db.runs && HasSession(db, db.runs[r].scope, db.runs[r].session)
    requires Claim(db, r, a, id, now, until).Ok?
    ensures Owned(Claim(db, r, a, id, now, until).value)
  {
    var core := Lease(db, r, a, now, until);
    assert Owned(core);
    InsertIsQuiet(core, r, RunStarted, NO_DATA, id);
  }

  /** Transitions and claims apart, every step is quiet. */
  lemma OtherStepsAreQuiet(db: Db, step: Step)
    requires Base(db) && !step.Transit? && !step.ClaimNext? && Effect(db, step).Ok?
    ensures Quiet(db, Effect(db, step).value)
  {
    match step
    case Create(scope, binding, s, w) =>
      CreateShape(db, scope, binding, s, w);
      SameRunsAreQuiet(db, Effect(db, step).value);
    case Resume(y, id) =>
      Roots(db);
      RespondIsQuiet(db, y, id);
    case Submit(q, r, id, now) =>
      AcceptIsQuiet(db, q, r, id, now);
    case Commit(scope, p, now) =>
      SameRunsAreQuiet(db, Effect(db, step).value);
    case Record(scope, r, kind, data, id) =>
      Roots(db);
      InsertIsQuiet(db, r, kind, data, id);
    case Question(r, p) =>
      SameRunsAreQuiet(db, Effect(db, step).value);
  }

  /** Active runs stay owned exactly as long as no step starts an unclaimed one. */
  lemma NextKeepsOwned(db: Db, step: Step)
    requires Base(db) && Owned(db)
    ensures Owned(Next(db, step)) <==> !StartsUnclaimed(db, step)
  {
    if Effect(db, step).Ok? {
      if step.Transit? {
        Roots(db);
        TransitionKeepsOwned(db, step.move, step.event, step.now);
      } else if step.ClaimNext? {
        if NextClaim(db, step.only, step.now, step.run) {
          ClaimKeepsOwned(db, step.run, step.attempt, step.event, step.now, step.until);
        }
      } else {
        OtherStepsAreQuiet(db, step);
      }
    }
  }

  // ----- Order of claims -----

  lemma OnlyClaimsAddAttempts(db: Db, step: Step)
    requires Base(db) && !step.ClaimNext?
    ensures Next(db, step).attempts.Keys == db.attempts.Keys
  {
    if Effect(db, step).Ok? {
      if step.Transit? {
        Roots(db);
        TransitionAddsNoAttempt(db, step.move, step.event, step.now);
      } else {
        OtherStepsAreQuiet(db, step);
      }
    }
  }

  lemma ExtendsKeepsOrder(db: Db, d: Db)
    requires Base(db) && Extends(db, d) && d.attempts.Keys == db.attempts.Keys
    ensures KeepsOrder(db, d)
  {
    assert Holds(db, References) && Holds(db, Uniqueness);
    forall a | a in d.attempts
      ensures && a in db.attempts && db.attempts[a].run in db.runs
              && d.attempts[a].run == db.attempts[a].run && d.attempts[a].session == db.attempts[a].session
              && d.attempts[a].epoch == db.attempts[a].epoch
    {
      assert AttemptKept(db, d, a);
    }
    forall r | r in db.runs
      ensures && r in d.runs && d.runs[r].session == db.runs[r].session && d.runs[r].runSeq == db.runs[r].runSeq
              && (Settled(db.runs[r]) ==> Settled(d.runs[r]))
    {
      assert RunKept(db, d, r);
    }
    forall r, a | r in d.runs && r !in db.runs && a in db.attempts ensures Follows(db, d.runs[r], a) {
      assert NumberedAfter(db, d, r);
    }
  }

  lemma NextKeepsFifo(db: Db, step: Step)
    requires Base(db) && Owned(db) && Fifo(db)
    ensures Fifo(Next(db, step))
  {
    var d := Next(db, step);
    if step.ClaimNext? {
      ClaimKeepsFifo(db, step);
    } else {
      NextExtends(db, step);
      OnlyClaimsAddAttempts(db, step);
      ExtendsKeepsOrder(db, d);
      FifoKept(db, d);
    }
  }

  lemma ClaimKeepsFifo(db: Db, step: Step)
    requires Base(db) && Owned(db) && Fifo(db) && step.ClaimNext?
    ensures Fifo(Next(db, step))
  {
    if NextClaim(db, step.only, step.now, step.run) && Effect(db, step).Ok? {
      var core := Lease(db, step.run, step.attempt, step.now, step.until);
      ClaimableIsNext(db, step.only, step.now, step.run);
      LeaseKeepsFifo(db, step.only, step.run, step.attempt, step.now, step.until);
      InsertKeepsRows(core, step.run, RunStarted, NO_DATA, step.event);
      FifoFrame(core, Next(db, step));
    }
  }

  lemma EmptyIsOrdered()
    ensures Owned(EMPTY) && Fifo(EMPTY)
  {
  }

  /** Every state of a supervised history is owned and in order. */
  lemma {:induction false} SupervisedHistory(steps: seq<Step>)
    requires Supervised(steps)
    ensures Owned(Exec(steps)) && Fifo(Exec(steps))
  {
    if steps == [] {
      EmptyIsOrdered();
    } else {
      var init, last := steps[..|steps| - 1], steps[|steps| - 1];
      SupervisedHistory(init);
      NextKeepsOwned(Exec(init), last);
      NextKeepsFifo(Exec(init), last);
    }
  }

  // ----- Who owns what, in any consistent state -----

  /** A finished run has no attempt, and nothing points at it or at an attempt of its. */
  ghost predicate OwnsNothing(db: Db, r: Id)
    requires r in db.runs
  {
    && db.runs[r].attempt.None?
    && (forall s :: s in db.sessions ==> db.sessions[s].active != Some(r))
    && (forall w, a :: w in db.workspaces && a in db.attempts && db.attempts[a].run == r ==> db.workspaces[w].active != Some(a))
  }

  lemma LeasesHeld(db: Db, r: Id)
    requires Base(db) && r in db.runs && db.runs[r].attempt.Some?
    ensures Owns(db, r, db.runs[r].attempt.value)
  {
    assert Holds(db, Ownership);
    assert RunPointer(db, r);
  }

  lemma OneWriter(db: Db, r: Id, p: Id)
    requires Base(db) && Owned(db) && r in db.runs && p in db.runs && db.runs[r].workspace == db.runs[p].workspace
    requires Active(db.runs[r].status) && Active(db.runs[p].status)
    ensures r == p
  {
    LeasesHeld(db, r);
    LeasesHeld(db, p);
  }

  lemma NothingOwned(db: Db, r: Id)
    requires Base(db) && r in db.runs && Terminal(db.runs[r].status)
    ensures OwnsNothing(db, r)
  {
    assert Holds(db, Ownership);
    assert RunPointer(db, r);
    forall s | s in db.sessions ensures db.sessions[s].active != Some(r) {
      assert SessionPointer(db, s);
    }
    forall w, a | w in db.workspaces && a in db.attempts && db.attempts[a].run == r
      ensures db.workspaces[w].active != Some(a)
    {
      assert WorkspacePointer(db, w);
    }
  }

  lemma ClaimOrder(db: Db, a: Id, b: Id)
    requires Base(db) && Fifo(db) && a in db.attempts && b in db.attempts && db.attempts[a].session == db.attempts[b].session
    ensures db.attempts[a].run in db.runs && db.attempts[b].run in db.runs
    ensures db.attempts[a].epoch < db.attempts[b].epoch <==>
              db.runs[db.attempts[a].run].runSeq < db.runs[db.attempts[b].run].runSeq
  {
    assert Holds(db, References) && Holds(db, EpochOrder);
    if a != b {
      assert Apart(db.attempts[a], db.attempts[b]);
      assert ClaimedBefore(db, a, b) || ClaimedBefore(db, b, a);
    }
  }

  lemma PassesOnlySettled(db: Db, only: Option<string>, now: Time, r: Id, p: Id)
    requires Base(db) && Owned(db) && Claimable(db, only, now, r) && p in db.runs
    requires db.runs[p].session == db.runs[r].session && db.runs[p].runSeq < db.runs[r].runSeq
    ensures Settled(db.runs[p])
    ensures !Terminal(db.runs[p].status) ==> forall a :: a in db.attempts ==> db.attempts[a].run != p
  {
    ClaimableIsNext(db, only, now, r);
    assert Holds(db, Ownership);
    forall a | a in db.attempts && db.attempts[a].run == p ensures Terminal(db.runs[p].status) {
      assert AttemptPointer(db, a);
    }
  }

  /** A claim can fail only on an identifier. */
  lemma ClaimFits(db: Db, r: Id, a: Id, id: Id, now: Time, until: Time)
    requires Base(db) && r in db.runs && HasSession(db, db.runs[r].scope, db.runs[r].session)
    ensures Claim(db, r, a, id, now, until).Err? <==> a in db.attempts || EventIdTaken(db.events, id)
  {
    assert Holds(db, References) && Holds(db, EpochOrder);
    EpochsAreFree(db, r);
  }

  /** The run of an attempt, or a run beside it while it holds its leases. */
  predicate HeldBack(db: Db, a: Id, x: Id) {
    && a in db.attempts && x in db.runs && db.attempts[a].run in db.runs
    && (x == db.attempts[a].run
        || (db.runs[db.attempts[a].run].attempt.Some?
            && (db.runs[x].session == db.attempts[a].session || db.runs[x].workspace == db.attempts[a].workspace)))
  }

  lemma NeverClaimable(db: Db, only: Option<string>, now: Time, a: Id, x: Id)
    requires Base(db) && HeldBack(db, a, x)
    ensures !Claimable(db, only, now, x)
  {
    assert Holds(db, References) && Holds(db, Ownership);
    assert AttemptPointer(db, a);
    assert RunPointer(db, db.attempts[a].run);
  }

  // ----- The same of every history -----

  /** In every history a run that points at an attempt is its session's active run, holds its
      workspace, and its attempt carries the current epochs of both. */
  lemma AttemptHoldsItsLeases(steps: seq<Step>, r: Id)
    requires r in Exec(steps).runs && Exec(steps).runs[r].attempt.Some?
    ensures Owns(Exec(steps), r, Exec(steps).runs[r].attempt.value)
  {
    LeasesHeld(Exec(steps), r);
  }

  /** An executing, waiting or recovering run owns its session and its workspace. */
  lemma ActiveRunOwns(steps: seq<Step>, r: Id)
    requires Supervised(steps) && r in Exec(steps).runs && Active(Exec(steps).runs[r].status)
    ensures Exec(steps).runs[r].attempt.Some? && Owns(Exec(steps), r, Exec(steps).runs[r].attempt.value)
  {
    SupervisedHistory(steps);
    LeasesHeld(Exec(steps), r);
  }

  /** Sessions that share a workspace have at most one executing run between them. */
  lemma SingleWriter(steps: seq<Step>, r: Id, p: Id)
    requires Supervised(steps) && r in Exec(steps).runs && p in Exec(steps).runs
    requires Active(Exec(steps).runs[r].status) && Active(Exec(steps).runs[p].status)
    requires Exec(steps).runs[r].workspace == Exec(steps).runs[p].workspace
    ensures r == p
  {
    SupervisedHistory(steps);
    OneWriter(Exec(steps), r, p);
  }

  /** A finished run owns nothing, and no session or workspace points at it. */
  lemma FinishedRunOwnsNothing(steps: seq<Step>, r: Id)
    requires r in Exec(steps).runs && Terminal(Exec(steps).runs[r].status)
    ensures OwnsNothing(Exec(steps), r)
  {
    NothingOwned(Exec(steps), r);
  }

  /** A run is claimed at most once, and each session and workspace epoch belongs to one claim. */
  lemma ClaimedAtMostOnce(steps: seq<Step>, a: Id, b: Id)
    requires a in Exec(steps).attempts && b in Exec(steps).attempts && a != b
    ensures Apart(Exec(steps).attempts[a], Exec(steps).attempts[b])
  {
    assert Holds(Exec(steps), EpochOrder);
  }

  /** Claims of a session follow the order in which its runs were accepted. */
  lemma ClaimsFollowRunOrder(steps: seq<Step>, a: Id, b: Id)
    requires Supervised(steps)
    requires a in Exec(steps).attempts && b in Exec(steps).attempts
    requires Exec(steps).attempts[a].session == Exec(steps).attempts[b].session
    ensures var db := Exec(steps);
      && db.attempts[a].run in db.runs && db.attempts[b].run in db.runs
      && (db.attempts[a].epoch < db.attempts[b].epoch <==>
            db.runs[db.attempts[a].run].runSeq < db.runs[db.attempts[b].run].runSeq)
  {
    SupervisedHistory(steps);
    ClaimOrder(Exec(steps), a, b);
  }

  /** When a run is claimed, every earlier run of its session is terminal, or is cancelling without
      having had an attempt. */
  lemma ClaimsPassOnlySettledRuns(steps: seq<Step>, only: Option<string>, now: Time, r: Id, p: Id)
    requires Supervised(steps) && Claimable(Exec(steps), only, now, r)
    requires p in Exec(steps).runs && Exec(steps).runs[p].session == Exec(steps).runs[r].session
    requires Exec(steps).runs[p].runSeq < Exec(steps).runs[r].runSeq
    ensures Settled(Exec(steps).runs[p])
    ensures !Terminal(Exec(steps).runs[p].status) ==>
              forall a :: a in Exec(steps).attempts ==> Exec(steps).attempts[a].run != p
  {
    SupervisedHistory(steps);
    PassesOnlySettled(Exec(steps), only, now, r, p);
  }

  /** A claim fails only when it is handed an identifier that is in use: neither its epochs nor its
      event numbers can clash with rows that the store wrote. */
  lemma ClaimSucceeds(steps: seq<Step>, only: Option<string>, r: Id, a: Id, id: Id, now: Time, until: Time)
    requires Claimable(Exec(steps), only, now, r)
    ensures Claim(Exec(steps), r, a, id, now, until).Err? <==>
              (a in Exec(steps).attempts || EventIdTaken(Exec(steps).events, id))
  {
    ClaimFits(Exec(steps), r, a, id, now, until);
  }

  /** A run that was ever claimed is never claimed again: one that waits, or that an answer has put
      back into the queue, holds its session and its workspace until it ends, and until then no other
      run that shares them is claimed either. */
  lemma ResumedRunIsNeverClaimed(steps: seq<Step>, only: Option<string>, now: Time, a: Id, x: Id)
    requires HeldBack(Exec(steps), a, x)
    ensures !Claimable(Exec(steps), only, now, x)
  {
    NeverClaimable(Exec(steps), only, now, a, x);
  }

  // ----- What the event log tells -----

  /** The store's own events: append_event records no lifecycle event, and extra_data does not rebind
      the status of a waiting run. */
  predicate Honest(step: Step) {
    && (step.Record? ==> !Lifecycle(step.kind))
    && (step.Transit? ==> !Mislabels(step.move))
  }

  lemma NextKeepsAgreement(db: Db, step: Step)
    requires Base(db) && LogAgrees(db) && Honest(step)
    ensures LogAgrees(Next(db, step))
  {
    hide Claim, Accept, Respond, TransitionRun;
    assert Holds(db, Constraints) && Holds(db, EventNumbers);
    if Effect(db, step).Ok? {
      Roots(db);
      match step
      case Submit(q, r, id, now) => SubmitAgrees(db, q, r, id, now);
      case ClaimNext(only, r, a, id, now, until) =>
        if NextClaim(db, only, now, r) { ClaimAgrees(db, r, a, id, now, until); }
      case Transit(m, id, now) => TransitionAgrees(db, m, id, now);
      case Resume(y, id) => RespondAgrees(db, y, id);
      case Record(scope, r, kind, data, id) => AppendAgrees(db, scope, r, kind, data, id);
      case Create(scope, binding, s, w) =>
        CreateShape(db, scope, binding, s, w);
        AgreementFrame(db, Next(db, step));
      case Commit(scope, p, now) => AgreementFrame(db, Next(db, step));
      case Question(r, p) => AgreementFrame(db, Next(db, step));
    }
  }

  lemma SubmitAgrees(db: Db, q: Request, r: Id, id: Id, now: Time)
    requires Numbered(db) && LogAgrees(db) && Accept(db, q, r, id, now).Ok?
    ensures LogAgrees(Accept(db, q, r, id, now).value.0)
  {
    if !Accept(db, q, r, id, now).value.1.reused { AcceptAgrees(db, q, r, id, now); }
  }

  lemma {:induction false} HonestHistory(steps: seq<Step>)
    requires forall i :: 0 <= i < |steps| ==> Honest(steps[i])
    ensures LogAgrees(Exec(steps))
  {
    if steps != [] {
      HonestHistory(steps[..|steps| - 1]);
      NextKeepsAgreement(Exec(steps[..|steps| - 1]), steps[|steps| - 1]);
    }
  }

  /** What the log of a run tells is its row. */
  ghost predicate Told(db: Db, r: Id)
    requires r in db.runs
  {
    var log := Log(db.events, OfRun(r));
    && Replay(log) == Known(Life(db.runs[r].status, db.runs[r].outcome, db.runs[r].version))
    && db.runs[r].version == LifecycleCount(log) - 1
  }

  lemma LogTellsRow(db: Db, r: Id)
    requires LogAgrees(db) && r in db.runs
    ensures Told(db, r)
  {
    assert Agrees(db, r);
    ReplayCounts(Log(db.events, OfRun(r)));
  }

  /** Replaying a run's events in order, through the state machine, gives exactly its row: status,
      task outcome, and a state_version that is one less than the number of lifecycle events. */
  lemma EventLogDeterminesRow(steps: seq<Step>, r: Id)
    requires (forall i :: 0 <= i < |steps| ==> Honest(steps[i])) && r in Exec(steps).runs
    ensures Told(Exec(steps), r)
  {
    HonestHistory(steps);
    LogTellsRow(Exec(steps), r);
  }

  // ----- Histories that are not supervised -----

  /** Any queued run that no attempt has claimed can be started by the public transition_run, and is
      then RUNNING without an attempt. */
  lemma UnclaimedStartIsUnowned(steps: seq<Step>, r: Id, id: Id, now: Time)
    requires Supervised(steps) && r in Exec(steps).runs && Exec(steps).runs[r].status == Queued
    requires Exec(steps).runs[r].attempt.None? && !EventIdTaken(Exec(steps).events, id)
    ensures var run := Exec(steps).runs[r];
      var start := Transit(Move(run.scope, r, run.version, Running, None, None, None), id, now);
      !Owned(Exec(steps + [start]))
  {
    var run := Exec(steps).runs[r];
    var start := Transit(Move(run.scope, r, run.version, Running, None, None, None), id, now);
    SupervisedHistory(steps);
    StartBreaksOwnership(Exec(steps), r, id, now);
    NextKeepsOwned(Exec(steps), start);
    assert (steps + [start])[..|steps|] == steps;
  }

  lemma StartBreaksOwnership(db: Db, r: Id, id: Id, now: Time)
    requires Base(db) && r in db.runs && db.runs[r].status == Queued && db.runs[r].attempt.None?
    requires !EventIdTaken(db.events, id)
    ensures var run := db.runs[r];
      StartsUnclaimed(db, Transit(Move(run.scope, r, run.version, Running, None, None, None), id, now))
  {
    hide Pointers, Epochs, Keys, Checks, Numbered;
    Roots(db);
  }

  /** Such a run exists after the first message of any session. */
  lemma FirstMessageIsUnclaimed(scope: string, s: Id, w: Id, q: Request, r: Id, id: Id, now: Time)
    requires q.scope == scope && q.session == s && q.binding.None?
    ensures var steps := [Create(scope, None, s, w), Submit(q, r, id, now)];
      && Supervised(steps) && r in Exec(steps).runs
      && Exec(steps).runs[r].status == Queued && Exec(steps).runs[r].attempt.None?
  {
    var one, steps := [Create(scope, None, s, w)], [Create(scope, None, s, w), Submit(q, r, id, now)];
    assert steps[..1] == one && one[..0] == [];
    assert Supervised([]) && Supervised(one) && Supervised(steps);
    assert Exec([]) == EMPTY;
    CreateFirst(Exec([]), scope, s, w);
    assert Exec(one) == Next(Exec([]), one[0]);
    SubmitFirst(Exec(one), q, r, id, now);
    assert Exec(steps) == Next(Exec(one), steps[1]);
  }

  lemma CreateFirst(db: Db, scope: string, s: Id, w: Id)
    requires Base(db) && db.runs == map[] && db.events == [] && w !in db.workspaces && s !in db.sessions
    ensures var d := Next(db, Create(scope, None, s, w));
      d.runs == map[] && d.events == [] && HasSession(d, scope, s) && d.workspaces[d.sessions[s].workspace].columns.None?
  {
    var created := Effect(db, Create(scope, None, s, w));
    assert created == OpenWorkspace(db, scope, None, s, w);
  }

  lemma SubmitFirst(db: Db, q: Request, r: Id, id: Id, now: Time)
    requires Base(db) && db.runs == map[] && db.events == [] && HasSession(db, q.scope, q.session)
    requires db.workspaces[db.sessions[q.session].workspace].columns.None? && q.binding.None?
    ensures var d := Next(db, Submit(q, r, id, now));
      r in d.runs && d.runs[r].status == Queued && d.runs[r].attempt.None?
  {
    assert !exists x :: HasKey(db, q.scope, q.session, q.key, x);
    assert AcceptNew(db, q, r, id, now).Ok?;
  }
}
