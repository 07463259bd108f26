/** Histories that show the promises the code does not keep being broken: one message is accepted,
    claimed, asked about, answered and failed, and one workspace is migrated. */
module RunExamples {
  import opened Outcomes
  import opened StateMachine
  import opened RunTables
  import opened EventLog
  import opened EventPaging
  import opened EventStream
  import opened RunInvariants
  import opened RunHistories
  import opened RunOwnership
  import opened SessionNumbering

  const REPLY := Reply("u", 0, 0, "k", 0, 2)

  const CREATE := Create("u", None, 0, 0)
  const SUBMIT := Submit(Request("u", 0, "k", 0, 0, None, false), 0, 0, 0)
  const CLAIM := ClaimNext(None, 0, 0, 1, 0, 60)
  const WAIT := Transit(Move("u", 0, 1, WaitingUser, None, Some("ask"), None), 2, 0)
  const ASK := RunHistories.Question(0, 0)
  const ANSWER := Resume(REPLY, 3)
  const FAIL := Transit(Move("u", 0, 3, Failed, None, None, None), 4, 0)
  const FAIL_AT_ONCE := Transit(Move("u", 0, 1, Failed, None, None, None), 2, 0)
  const SUBMIT_MORE := Submit(Request("u", 0, "l", 1, 1, None, false), 1, 3, 0)

  // ----- The tables after each step -----

  const RUN := Run("u", 0, 0, 1, "k", 0, 0, Queued, None, 0, None, None, 0, 0, 2)
  const SESSION := Session("u", 0, 1, 1, 0, None)
  const WORKSPACE := Workspace("u", None, None, None, 0, None)
  const ATTEMPT := Attempt("u", 0, 0, 0, 1, 1, 60, None, None)

  function Told(n: nat, kind: EventKind, status: Option<RunStatus>): Event {
    Event(n, "u", 0, 0, n + 1, n + 1, kind, EventData(status, None))
  }

  const CREATED := EMPTY.(workspaces := map[0 := WORKSPACE], sessions := map[0 := SESSION])
  const SUBMITTED := CREATED.(
    sessions := map[0 := SESSION.(nextRun := 2, nextEvent := 2)],
    runs := map[0 := RUN],
    events := [Told(0, RunAccepted, Some(Queued))])
  const CLAIMED := SUBMITTED.(
    workspaces := map[0 := WORKSPACE.(active := Some(0), epoch := 1, leaseUntil := Some(60))],
    sessions := map[0 := SESSION.(nextRun := 2, nextEvent := 3, epoch := 1, active := Some(0))],
    runs := map[0 := RUN.(status := Running, attempt := Some(0), version := 1, due := 60, nextEvent := 3)],
    attempts := map[0 := ATTEMPT],
    events := SUBMITTED.events + [Told(1, RunStarted, None)])
  const WAITED := CLAIMED.(
    sessions := map[0 := CLAIMED.sessions[0].(nextEvent := 4)],
    runs := map[0 := CLAIMED.runs[0].(status := WaitingUser, version := 2, waitReason := Some("ask"), nextEvent := 4)],
    events := CLAIMED.events + [Told(2, RunWaiting, Some(WaitingUser))])
  const ASKED := WAITED.(pendings := map[0 := Pending("u", 0, None, None, false)])
  const ANSWERED := ASKED.(
    sessions := map[0 := CLAIMED.sessions[0].(nextEvent := 5)],
    runs := map[0 := CLAIMED.runs[0].(status := Queued, version := 3, nextEvent := 5)],
    pendings := map[0 := Pending("u", 0, Some("k"), Some(0), true)],
    events := WAITED.events + [Told(3, RunResumed, Some(Queued))])

  const FAILED := ANSWERED.(
    workspaces := map[0 := WORKSPACE.(epoch := 1)],
    sessions := map[0 := SESSION.(nextRun := 2, nextEvent := 6, epoch := 1)],
    runs := map[0 := RUN.(status := Failed, version := 4, due := 60, nextEvent := 6)],
    attempts := map[0 := ATTEMPT.(ended := Some(0))],
    events := ANSWERED.events + [Told(4, RunFinished, Some(Failed))])

  const FAILED_AT_ONCE := CLAIMED.(
    workspaces := map[0 := WORKSPACE.(epoch := 1)],
    sessions := map[0 := SESSION.(nextRun := 2, nextEvent := 4, epoch := 1)],
    runs := map[0 := RUN.(status := Failed, version := 2, due := 60, nextEvent := 4)],
    attempts := map[0 := ATTEMPT.(ended := Some(0))],
    events := CLAIMED.events + [Told(2, RunFinished, Some(Failed))])
  const SUBMITTED_MORE := FAILED_AT_ONCE.(
    sessions := map[0 := SESSION.(nextRun := 3, nextEvent := 5, epoch := 1)],
    runs := FAILED_AT_ONCE.runs[1 := Run("u", 0, 0, 2, "l", 1, 1, Queued, None, 0, None, None, 0, 0, 2)],
    events := FAILED_AT_ONCE.events + [Event(3, "u", 1, 0, 1, 4, RunAccepted, EventData(Some(Queued), None))])

  // ----- One step at a time -----

  /** Tables are equal row by row. */
  lemma SameTables(c: Db, d: Db)
    requires c.workspaces == d.workspaces && c.sessions == d.sessions && c.runs == d.runs
    requires c.attempts == d.attempts && c.revisions == d.revisions && c.pendings == d.pendings && c.events == d.events
    ensures c == d
  {
  }

  lemma Submitting()
    ensures Accept(CREATED, SUBMIT.request, 0, 0, 0) == Ok((SUBMITTED, Accepted(0, Queued, 0, false)))
  {
    var q := SUBMIT.request;
    assert !exists x :: HasKey(CREATED, q.scope, q.session, q.key, x);
    SameTables(AcceptNew(CREATED, q, 0, 0, 0).value, SUBMITTED);
  }

  lemma Claiming()
    ensures NextClaim(SUBMITTED, None, 0, 0)
    ensures Claim(SUBMITTED, 0, 0, 1, 0, 60) == Ok(CLAIMED)
  {
    SameTables(Insert(Lease(SUBMITTED, 0, 0, 0, 60), 0, RunStarted, NO_DATA, 1).value, CLAIMED);
  }

  lemma Waiting()
    ensures TransitionRun(CLAIMED, WAIT.move, 2, 0) == Ok(WAITED)
  {
    SameTables(TransitionRun(CLAIMED, WAIT.move, 2, 0).value, WAITED);
  }

  lemma Answering()
    ensures Respond(ASKED, REPLY, 3) == Ok(ANSWERED)
  {
    SameTables(Respond(ASKED, REPLY, 3).value, ANSWERED);
  }

  lemma Failing()
    ensures TransitionRun(ANSWERED, FAIL.move, 4, 0) == Ok(FAILED)
    ensures Respond(FAILED, REPLY, 3) == Ok(FAILED)
  {
    SameTables(TransitionRun(ANSWERED, FAIL.move, 4, 0).value, FAILED);
  }

  lemma FailingAtOnce()
    ensures TransitionRun(CLAIMED, FAIL_AT_ONCE.move, 2, 0) == Ok(FAILED_AT_ONCE)
  {
    SameTables(TransitionRun(CLAIMED, FAIL_AT_ONCE.move, 2, 0).value, FAILED_AT_ONCE);
  }

  lemma SubmittingMore()
    ensures Accept(FAILED_AT_ONCE, SUBMIT_MORE.request, 1, 3, 0) == Ok((SUBMITTED_MORE, Accepted(1, Queued, 0, false)))
  {
    var q := SUBMIT_MORE.request;
    assert !exists x :: HasKey(FAILED_AT_ONCE, q.scope, q.session, q.key, x);
    SameTables(AcceptNew(FAILED_AT_ONCE, q, 1, 3, 0).value, SUBMITTED_MORE);
  }

  // ----- The histories -----

  const TO_ANSWER := [CREATE, SUBMIT, CLAIM, WAIT, ASK, ANSWER]
  const TO_REPEAT := [CREATE, SUBMIT, CLAIM, WAIT, ASK, ANSWER, FAIL, ANSWER]
  const TO_NEXT := [CREATE, SUBMIT, CLAIM, FAIL_AT_ONCE, SUBMIT_MORE]

  lemma Reach(steps: seq<Step>, n: nat, d: Db)
    requires n < |steps| && Effect(Exec(steps[..n]), steps[n]) == Ok(d)
    ensures Exec(steps[..n + 1]) == d
  {
    hide Base, Effect;
    assert steps[..n + 1][..n] == steps[..n];
  }

  lemma ReachClaimed(steps: seq<Step>)
    requires |steps| >= 3 && steps[0] == CREATE && steps[1] == SUBMIT && steps[2] == CLAIM
    ensures Exec(steps[..3]) == CLAIMED
  {
    Submitting();
    Claiming();
    hide Refs, Pointers, Epochs, Keys, Checks, Numbered, NextClaim, Claim, AcceptNew;
    Reach(steps, 0, CREATED);
    Reach(steps, 1, SUBMITTED);
    Reach(steps, 2, CLAIMED);
  }

  lemma ReachAnswered(steps: seq<Step>)
    requires |steps| >= 6 && steps[0] == CREATE && steps[1] == SUBMIT && steps[2] == CLAIM
    requires steps[3] == WAIT && steps[4] == ASK && steps[5] == ANSWER
    ensures Exec(steps[..6]) == ANSWERED
  {
    ReachClaimed(steps);
    Waiting();
    Answering();
    hide Refs, Pointers, Epochs, Keys, Checks, Numbered, Exec, TransitionRun, Respond;
    Reach(steps, 3, WAITED);
    Reach(steps, 4, ASKED);
    Reach(steps, 5, ANSWERED);
  }

  lemma ReachRepeated(steps: seq<Step>)
    requires |steps| == 8 && steps[0] == CREATE && steps[1] == SUBMIT && steps[2] == CLAIM
    requires steps[3] == WAIT && steps[4] == ASK && steps[5] == ANSWER && steps[6] == FAIL && steps[7] == ANSWER
    ensures Exec(steps[..7]) == FAILED && Exec(steps) == FAILED
  {
    assert steps[..8] == steps;
    ReachAnswered(steps);
    Failing();
    hide Refs, Pointers, Epochs, Keys, Checks, Numbered, Exec, TransitionRun, Respond;
    Reach(steps, 6, FAILED);
    Reach(steps, 7, FAILED);
  }

  lemma ReachNext(steps: seq<Step>)
    requires steps == TO_NEXT
    ensures Exec(steps) == SUBMITTED_MORE
  {
    assert steps[..5] == steps;
    ReachClaimed(steps);
    FailingAtOnce();
    SubmittingMore();
    hide Refs, Pointers, Epochs, Keys, Checks, Numbered, Exec, TransitionRun, AcceptNew;
    Reach(steps, 3, FAILED_AT_ONCE);
    Reach(steps, 4, SUBMITTED_MORE);
  }

  // ----- What they show -----

  /** A claimed run that waited and was answered is queued again, keeps its attempt, and is never claimed. */
  lemma AnsweredRunIsNotClaimed(only: Option<string>, now: Time)
    ensures var db := Exec(TO_ANSWER);
      && 0 in db.runs && db.runs[0].status == Queued && db.runs[0].attempt == Some(0)
      && HeldBack(db, 0, 0) && !Claimable(db, only, now, 0)
  {
    assert TO_ANSWER[..6] == TO_ANSWER;
    ReachAnswered(TO_ANSWER);
    ResumedRunIsNeverClaimed(TO_ANSWER, only, now, 0, 0);
  }

  /** An answer repeated after the message has failed is accepted, and its stream, with a cursor behind
      the message's end, stops by itself and delivers nothing. */
  lemma RepeatedAnswerStreamsNothing(steps: seq<Step>, written: seq<Event>)
    requires steps == TO_REPEAT
    requires var after := Cursor(Log(Exec(steps[..7]).events, OfSession(0)), OfSession(0));
      written == Wanted(Tail(Log(Exec(steps).events, OfSession(0)), after), Some(0))
    ensures Effect(Exec(steps[..7]), ANSWER) == Ok(Exec(steps))
    ensures var end := Exec(steps);
      Watches([end, end, end], steps, [8, 8, 8]) && Over([end, end, end], 3, "u", 0, Some(0))
    ensures written == []
  {
    hide Refs, Pointers, Epochs, Keys, Checks, Numbered, Respond, TransitionRun, Log, Wanted, Tail, Cursor;
    assert steps[..8] == steps;
    ReachRepeated(steps);
    Failing();
    hide Exec;
    var end := Exec(steps);
    assert forall i :: 0 <= i < |steps| ==> Honest(steps[i]);
    MessageDelivered(steps, 7, [8, 8, 8], [end, end, end], 3, "u", 0, 0, written);
    NothingAdded(Log(end.events, OfRun(0)), written);
  }

  lemma NothingAdded(log: seq<Event>, more: seq<Event>)
    requires log + more == log
    ensures more == []
  {
    assert |log + more| == |log| + |more|;
  }

  /** A workspace whose first message was claimed before the migration: the next message is queued and
      meets the claim query for ever, and every claim of it fails. */
  lemma MigratedMessageIsStuck(a: Id, id: Id, now: Time, until: Time)
    requires now >= 0
    ensures Refs(Exec(TO_NEXT)) && EventRows(Exec(TO_NEXT)) && Migrate(Exec(TO_NEXT)).Ok?
    ensures var d := Migrate(Exec(TO_NEXT)).value;
      Claimable(d, None, now, 1) && Claim(d, 1, a, id, now, until) == Err(Integrity)
  {
    ReachNext(TO_NEXT);
    NextRows();
    NextMigrated(now);
    hide Migrated, Claim, Claimable, Refs, EventRows, SessionEpochs, RunsIn, FirstClaimed;
    MigratedWorkspaceIsStuck(SUBMITTED_MORE, 0, 1, a, id, now, until);
  }

  lemma NextRows()
    ensures Refs(SUBMITTED_MORE) && EventRows(SUBMITTED_MORE) && SessionEpochs(SUBMITTED_MORE)
    ensures !SharesEpoch(SUBMITTED_MORE)
  {
    assert Exec(TO_NEXT) == SUBMITTED_MORE && Base(SUBMITTED_MORE) by { ReachNext(TO_NEXT); }
    assert Holds(SUBMITTED_MORE, References) && Holds(SUBMITTED_MORE, EpochOrder) && Holds(SUBMITTED_MORE, EventNumbers);
  }

  lemma NextMigrated(now: Time)
    requires now >= 0 && Refs(SUBMITTED_MORE) && EventRows(SUBMITTED_MORE)
    ensures var d := Migrated(SUBMITTED_MORE);
      Claimable(d, None, now, 1) && RunsIn(d, 1, 0) && FirstClaimed(d, 0)
  {
    var d := Migrated(SUBMITTED_MORE);
    NextMigratedRows(d);
    hide Migrated, Refs, EventRows;
    assert d.attempts[0].epoch == 1 && d.attempts[0].workspace == 0;
  }

  lemma NextMigratedRows(d: Db)
    requires Refs(SUBMITTED_MORE) && EventRows(SUBMITTED_MORE) && d == Migrated(SUBMITTED_MORE)
    ensures d.workspaces == map[0 := WORKSPACE]
    ensures d.sessions.Keys == {0} && d.sessions[0].scope == "u" && d.sessions[0].workspace == 0 && d.sessions[0].active == None
    ensures d.runs == SUBMITTED_MORE.runs && d.attempts == SUBMITTED_MORE.attempts
  {
    hide Refs, EventRows, Renumbered, Partition, OldRows;
  }
}
