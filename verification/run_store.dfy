/** SqliteRuntimeStore as the object it is: tables that its methods update statement by statement inside
    one transaction.  Each public method is one call, and its contract is the operation of RunTables
    that the histories are made of. */
module RunStore {
  import opened Outcomes
  import opened StateMachine
  import opened Bindings
  import opened RunTables
  import opened EventLog
  import opened RunInvariants
  import opened RunSteps
  import opened RunHistories
  import opened RunOwnership
  import opened RunClaims

  datatype Claimed = Claimed(run: Id, attempt: Id, epoch: nat, workspace: Id, workspaceEpoch: nat)

  // ----- Facts about the queries -----

  /** A finite, nonempty set of runs has one that ORDER BY due_at, date_created, run_seq puts first. */
  lemma {:induction false} SoonestExists(runs: map<Id, Run>, ids: set<Id>)
    requires ids <= runs.Keys && ids != {}
    ensures exists r :: r in ids && forall o :: o in ids ==> Sooner(runs[r], runs[o])
    decreases ids
  {
    var x :| x in ids;
    var rest := ids - {x};
    if rest == {} {
      forall o | o in ids ensures Sooner(runs[x], runs[o]) { assert o !in rest; }
    } else {
      SoonestExists(runs, rest);
      var r :| r in rest && forall o :: o in rest ==> Sooner(runs[r], runs[o]);
      var first := if Sooner(runs[x], runs[r]) then x else r;
      forall o | o in ids ensures Sooner(runs[first], runs[o]) { assert o == x || o in rest; }
    }
  }

  /** UNIQUE(scope_id,session_id,idempotency_key): the query of accept_once has at most one row. */
  lemma KeyIsUnique(db: Db, q: Request, x: Id)
    requires Keys(db) && HasKey(db, q.scope, q.session, q.key, x)
    ensures forall y :: HasKey(db, q.scope, q.session, q.key, y) ==> y == x
  {
    forall y | HasKey(db, q.scope, q.session, q.key, y) ensures y == x {
      assert y == x || Separate(db.runs[x], db.runs[y]);
    }
  }

  /** No row but the run's own points at the run, and its own do so exactly while it has an attempt. */
  ghost predicate Exclusive(db: Db, r: Id) {
    && Rooted(db, r)
    && db.sessions[db.runs[r].session].scope == db.runs[r].scope
    && db.workspaces[db.runs[r].workspace].scope == db.runs[r].scope
    && (forall s :: s in db.sessions ==>
          (db.sessions[s].active == Some(r) <==> s == db.runs[r].session && db.runs[r].attempt.Some?))
    && (db.runs[r].attempt.Some? ==> db.workspaces[db.runs[r].workspace].active == db.runs[r].attempt)
  }

  lemma OwnershipIsExclusive(db: Db, r: Id)
    requires Refs(db) && Pointers(db) && r in db.runs
    ensures Exclusive(db, r)
  {
    assert RunPointer(db, r);
    forall s | s in db.sessions
      ensures db.sessions[s].active == Some(r) <==> s == db.runs[r].session && db.runs[r].attempt.Some?
    {
      assert SessionPointer(db, s);
    }
  }

  // ----- The three UPDATEs that end an attempt -----

  function Ended(rows: map<Id, Attempt>, a: Option<Id>, now: Time): map<Id, Attempt> {
    if a.Some? && a.value in rows then rows[a.value := rows[a.value].(ended := Some(now))] else rows
  }

  function Cleared(rows: map<Id, Session>, scope: string, r: Id): map<Id, Session> {
    map s | s in rows ::
      if rows[s].scope == scope && rows[s].active == Some(r) then rows[s].(active := None) else rows[s]
  }

  function Freed(rows: map<Id, Workspace>, scope: string, w: Id, a: Option<Id>): map<Id, Workspace> {
    if w in rows && rows[w].scope == scope && a.Some? && rows[w].active == a then
      rows[w := rows[w].(active := None, leaseUntil := None)]
    else rows
  }

  /** The UPDATEs select rows by what they point at; they reach the finished run's own rows only. */
  lemma ReleaseByPointer(db: Db, r: Id, now: Time)
    requires Exclusive(db, r)
    ensures var row := db.runs[r];
      Release(db, r, now) ==
        db.(attempts := Ended(db.attempts, row.attempt, now),
            sessions := Cleared(db.sessions, row.scope, r),
            workspaces := Freed(db.workspaces, row.scope, row.workspace, row.attempt),
            runs := db.runs[r := row.(attempt := None)])
  {
    var released := Release(db, r, now);
    assert released.sessions == Cleared(db.sessions, db.runs[r].scope, r);
    assert released.runs == db.runs[r := db.runs[r].(attempt := None)];
  }

  lemma ExclusiveAfterInsert(db: Db, r: Id, after: RunState, kind: EventKind, data: EventData, id: Id)
    requires Exclusive(db, r) && Insert(Restate(db, r, after), r, kind, data, id).Ok?
    ensures Exclusive(Insert(Restate(db, r, after), r, kind, data, id).value, r)
  {
  }

  /** What claim_next_run answers, and the tables it leaves: nothing exactly when no run can be
      claimed; otherwise the claim of a run that is first in the queue's order, or an identifier clash. */
  ghost predicate Claims(db: Db, d: Db, only: Option<string>, a: Id, id: Id, now: Time, until: Time,
                         result: Outcome<Option<Claimed>>)
  {
    match result
    case Ok(None) => d == db && forall r {:trigger Claimable(db, only, now, r)} :: !Claimable(db, only, now, r)
    case Ok(Some(c)) =>
      && NextClaim(db, only, now, c.run) && Claim(db, c.run, a, id, now, until) == Ok(d) && a in d.attempts
      && c == Claimed(d.attempts[a].run, a, d.attempts[a].epoch, d.attempts[a].workspace, d.attempts[a].workspaceEpoch)
    case Err(e) =>
      e == Integrity && d == db && exists r :: NextClaim(db, only, now, r) && Claim(db, r, a, id, now, until).Err?
  }

  lemma ClaimsKeepBase(db: Db, d: Db, only: Option<string>, a: Id, id: Id, now: Time, until: Time,
                       result: Outcome<Option<Claimed>>)
    requires Base(db) && Claims(db, d, only, a, id, now, until, result)
    ensures Base(d)
  {
    hide NextClaim, Claimable, Claim;
    if result.Ok? && result.value.Some? {
      NextIsClaimable(db, only, now, result.value.value.run);
      ClaimKeepsBase(db, only, result.value.value.run, a, id, now, until);
    }
  }

  lemma NextIsClaimable(db: Db, only: Option<string>, now: Time, r: Id)
    requires NextClaim(db, only, now, r)
    ensures Claimable(db, only, now, r)
  {
  }

  /** A claim of the run that the query chose can only fail on an identifier in use. */
  lemma ClaimFailsOnClash(db: Db, d: Db, only: Option<string>, a: Id, id: Id, now: Time, until: Time,
                          result: Outcome<Option<Claimed>>)
    requires Base(db) && Claims(db, d, only, a, id, now, until, result)
    ensures result.Err? ==> a in db.attempts || EventIdTaken(db.events, id)
  {
    hide Claim, EventIdTaken;
    if result.Err? {
      var r :| NextClaim(db, only, now, r) && Claim(db, r, a, id, now, until).Err?;
      ClaimFits(db, r, a, id, now, until);
    }
  }

  lemma ClaimedIsFirst(db: Db, d: Db, only: Option<string>, a: Id, id: Id, now: Time, until: Time,
                       result: Outcome<Option<Claimed>>)
    requires Claims(db, d, only, a, id, now, until, result)
    ensures result.Ok? && result.value.Some? ==>
              FirstInLine(db, only, now, result.value.value.run)
  {
    hide NextClaim, Claim, FirstInLine;
    if result.Ok? && result.value.Some? { ChosenIsFirst(db, only, now, result.value.value.run); }
  }

  /** The first transaction asks for cancellation; a run that was still queued is cancelled at once. */
  ghost function AfterCancel(db: Db, scope: string, r: Id, first: Id, second: Id, now: Time): Db
    requires Base(db)
  {
    if !HasRun(db, scope, r) || Terminal(db.runs[r].status) || db.runs[r].status == Cancelling then db
    else
      var version := db.runs[r].version;
      var ask := Transit(Move(scope, r, version, Cancelling, None, None, None), first, now);
      if db.runs[r].status == Queued && Effect(db, ask).Ok? then
        Next(Next(db, ask), Transit(Move(scope, r, version + 1, Cancelled, None, None, None), second, now))
      else Next(db, ask)
  }

  /** A transition of a run that exists keeps it, counts one version, and never says it is missing. */
  lemma TransitionFinds(db: Db, m: Move, id: Id, now: Time)
    requires Rooted(db, m.run) && HasRun(db, m.scope, m.run)
    ensures TransitionRun(db, m, id, now) != Err(RunNotFound)
    ensures TransitionRun(db, m, id, now).Ok? ==>
              var d := TransitionRun(db, m, id, now).value;
              HasRun(d, m.scope, m.run) && d.runs[m.run].version == m.expected + 1
  {
  }

  /** A transition that the state machine allows happens, under an event identifier that is new. */
  lemma TransitionHappens(db: Db, m: Move, id: Id, now: Time)
    requires Rooted(db, m.run) && HasRun(db, m.scope, m.run) && !EventIdTaken(db.events, id)
    requires StateMachine.Transition(StateOf(db.runs[m.run]), m.target, m.expected, m.outcome, m.reason).Ok?
    ensures var effect := TransitionRun(db, m, id, now);
      && effect.Ok? && HasRun(effect.value, m.scope, m.run)
      && StateOf(effect.value.runs[m.run]) ==
           StateMachine.Transition(StateOf(db.runs[m.run]), m.target, m.expected, m.outcome, m.reason).value.after
      && (Terminal(m.target) ==> effect.value.runs[m.run].attempt.None?)
      && forall x :: EventIdTaken(effect.value.events, x) ==> x == id || EventIdTaken(db.events, x)
  {
  }

  /** cancel_run is the state machine's request_cancel, and takes a run that was never started on to
      CANCELLED in the same call. */
  lemma CancelRefinesRequest(db: Db, scope: string, r: Id, first: Id, second: Id, now: Time)
    requires Base(db) && HasRun(db, scope, r)
    requires first != second && !EventIdTaken(db.events, first) && !EventIdTaken(db.events, second)
    ensures var before := StateOf(db.runs[r]);
      var d, asked := AfterCancel(db, scope, r, first, second, now), RequestCancel(before, before.version);
      && asked.Ok? && HasRun(d, scope, r)
      && StateOf(d.runs[r]) == (if before.status == Queued then RunState(Cancelled, before.version + 2, None, None)
                                else asked.value.after)
      && (before.status == Queued ==> d.runs[r].attempt.None?)
      && (!asked.value.changed ==> d == db)
  {
    hide TransitionRun, EventIdTaken;
    var before := StateOf(db.runs[r]);
    if !Terminal(before.status) && before.status != Cancelling {
      var ask := Move(scope, r, before.version, Cancelling, None, None, None);
      Roots(db);
      TransitionHappens(db, ask, first, now);
      if before.status == Queued {
        var one := Next(db, Transit(ask, first, now));
        Roots(one);
        TransitionHappens(one, Move(scope, r, before.version + 1, Cancelled, None, None, None), second, now);
      }
    }
  }

  lemma InsertFailsOnClash(db: Db, r: Id, kind: EventKind, data: EventData, id: Id)
    requires r in db.runs && db.runs[r].session in db.sessions
    ensures Insert(db, r, kind, data, id).Err? ==> Insert(db, r, kind, data, id) == Err(Integrity)
  {
  }

  class SqliteRuntimeStore {
    var workspaces: map<Id, Workspace>
    var sessions: map<Id, Session>
    var runs: map<Id, Run>
    var attempts: map<Id, Attempt>
    var revisions: map<Id, Revision>
    var pendings: map<Id, Pending>
    var events: seq<Event>

    /** The contents of every table. */
    function Tables(): Db
      reads this
    {
      Db(workspaces, sessions, runs, attempts, revisions, pendings, events)
    }

    ghost predicate Valid()
      reads this
    {
      Base(Tables())
    }

    constructor ()
      ensures Valid() && Tables() == EMPTY
    {
      workspaces, sessions, runs, attempts, revisions, pendings := map[], map[], map[], map[], map[], map[];
      events := [];
      new;
      EmptyIsBase();
    }

    /** ROLLBACK */
    method Rollback(begun: Db)
      modifies this
      ensures Tables() == begun
    {
      workspaces, sessions, runs, attempts := begun.workspaces, begun.sessions, begun.runs, begun.attempts;
      revisions, pendings, events := begun.revisions, begun.pendings, begun.events;
    }

    /** _insert_event_locked: one row of run_events, then both counters. */
    method InsertEvent(r: Id, kind: EventKind, data: EventData, id: Id) returns (inserted: bool)
      requires r in runs && runs[r].session in sessions
      modifies this
      ensures inserted == Insert(old(Tables()), r, kind, data, id).Ok?
      ensures Tables() == if inserted then Insert(old(Tables()), r, kind, data, id).value else old(Tables())
    {
      if EventIdTaken(events, id) {
        return false;
      }
      var run := runs[r];
      var number, sessionNumber := run.nextEvent, sessions[run.session].nextEvent;
      events := events + [Event(id, run.scope, r, run.session, number, sessionNumber, kind, data)];
      runs := runs[r := run.(nextEvent := number + 1)];
      sessions := sessions[run.session := sessions[run.session].(nextEvent := sessionNumber + 1)];
      return true;
    }

    // ----- accept_once -----

    /** The SELECT by scope, session and idempotency key. */
    method FindRequest(q: Request) returns (found: Option<Id>)
      ensures found.Some? ==> HasKey(Tables(), q.scope, q.session, q.key, found.value)
      ensures found.None? ==> !exists x :: HasKey(Tables(), q.scope, q.session, q.key, x)
    {
      var rows := set x | x in runs && HasKey(Tables(), q.scope, q.session, q.key, x);
      if rows == {} {
        assert forall x :: HasKey(Tables(), q.scope, q.session, q.key, x) ==> x in rows;
        return None;
      }
      var x :| x in rows;
      return Some(x);
    }

    /** The writes of accept_once. */
    method InsertRun(q: Request, r: Id, id: Id, now: Time) returns (inserted: bool)
      requires HasSession(Tables(), q.scope, q.session)
      modifies this
      ensures inserted == AcceptNew(old(Tables()), q, r, id, now).Ok?
      ensures inserted ==> AcceptNew(old(Tables()), q, r, id, now) == Ok(Tables())
      ensures !inserted ==> AcceptNew(old(Tables()), q, r, id, now) == Err(Integrity) && Tables() == old(Tables())
    {
      var begun := Tables();
      var runSeq := sessions[q.session].nextRun;
      if r in runs { return false; }
      runs := runs[r := NewRun(q, sessions[q.session], now)];
      inserted := InsertEvent(r, RunAccepted, EventData(Some(Queued), None), id);
      if !inserted {
        Rollback(begun);
        return;
      }
      sessions := sessions[q.session := sessions[q.session].(nextRun := runSeq + 1)];
    }

    method AcceptRows(q: Request, r: Id, id: Id, now: Time) returns (result: Outcome<Accepted>)
      requires Keys(Tables())
      modifies this
      ensures var effect := Accept(old(Tables()), q, r, id, now);
        && Tables() == (if effect.Ok? then effect.value.0 else old(Tables()))
        && result == (if effect.Ok? then Ok(effect.value.1) else Err(effect.error))
    {
      var existing := FindRequest(q);
      if existing.Some? {
        var x := existing.value;
        KeyIsUnique(Tables(), q, x);
        if runs[x].fingerprint != q.fingerprint { return Err(IdempotencyConflict); }
        return Ok(Accepted(x, runs[x].status, runs[x].version, true));
      }
      if !HasSession(Tables(), q.scope, q.session) { return Err(SessionNotFound); }
      var check := BindingCheck(workspaces[sessions[q.session].workspace], q.binding);
      if check.Err? { return Err(check.error); }
      if q.rejectIfActive && Busy(Tables(), q.scope, q.session) { return Err(MessageBusy); }
      var inserted := InsertRun(q, r, id, now);
      return if inserted then Ok(Accepted(r, Queued, 0, false)) else Err(Integrity);
    }

    method AcceptOnce(q: Request, r: Id, id: Id, now: Time) returns (result: Outcome<Accepted>)
      requires Valid()
      modifies this
      ensures Valid()
      ensures var effect := Accept(old(Tables()), q, r, id, now);
        && Tables() == (if effect.Ok? then effect.value.0 else old(Tables()))
        && result == (if effect.Ok? then Ok(effect.value.1) else Err(effect.error))
    {
      assert Holds(Tables(), Uniqueness);
      if Accept(Tables(), q, r, id, now).Ok? { AcceptKeepsBase(Tables(), q, r, id, now); }
      result := AcceptRows(q, r, id, now);
    }

    // ----- claim_next_run -----

    /** The SELECT of claim_next_run, with its ORDER BY and LIMIT 1. */
    method NextRun(only: Option<string>, now: Time) returns (next: Option<Id>)
      ensures next.None? <==> forall r :: !Claimable(Tables(), only, now, r)
      ensures next.Some? ==> NextClaim(Tables(), only, now, next.value)
      ensures next.Some? ==> FirstInLine(Tables(), only, now, next.value)
    {
      var rows := set r | r in runs && Claimable(Tables(), only, now, r);
      if rows == {} {
        assert forall r :: Claimable(Tables(), only, now, r) ==> r in rows;
        return None;
      }
      SoonestExists(runs, rows);
      var r :| r in rows && forall o :: o in rows ==> Sooner(runs[r], runs[o]);
      ChosenIsFirst(Tables(), only, now, r);
      return Some(r);
    }

    /** The writes of claim_next_run, and the claim it returns. */
    method LeaseRun(r: Id, a: Id, id: Id, now: Time, until: Time) returns (claimed: Option<Claimed>)
      requires r in runs && HasSession(Tables(), runs[r].scope, runs[r].session)
      modifies this
      ensures claimed.None? ==> Claim(old(Tables()), r, a, id, now, until).Err? && Tables() == old(Tables())
      ensures claimed.Some? ==> Claim(old(Tables()), r, a, id, now, until) == Ok(Tables())
      ensures claimed.Some? ==>
                && a in attempts
                && claimed.value == Claimed(attempts[a].run, a, attempts[a].epoch,
                                            attempts[a].workspace, attempts[a].workspaceEpoch)
                && attempts[a].run == r
    {
      var begun := Tables();
      var run := runs[r];
      var w := sessions[run.session].workspace;
      var epoch, workspaceEpoch := sessions[run.session].epoch + 1, workspaces[w].epoch + 1;
      if a in attempts || EpochTaken(begun, run.session, epoch, w, workspaceEpoch) { return None; }
      attempts := attempts[a := Attempt(run.scope, run.session, r, w, epoch, workspaceEpoch, until,
                                        workspaces[w].current, None)];
      sessions := sessions[run.session := sessions[run.session].(active := Some(r), epoch := epoch)];
      workspaces := workspaces[w := workspaces[w].(active := Some(a), epoch := workspaceEpoch,
                                                   leaseUntil := Some(until))];
      runs := runs[r := run.(status := Running, attempt := Some(a), version := run.version + 1, due := until)];
      assert Tables() == Lease(begun, r, a, now, until);
      var inserted := InsertEvent(r, RunStarted, NO_DATA, id);
      if !inserted {
        Rollback(begun);
        return None;
      }
      return Some(Claimed(r, a, epoch, w, workspaceEpoch));
    }

    method ClaimRows(only: Option<string>, a: Id, id: Id, now: Time, until: Time)
      returns (result: Outcome<Option<Claimed>>)
      modifies this
      ensures Claims(old(Tables()), Tables(), only, a, id, now, until, result)
    {
      var next := NextRun(only, now);
      if next.None? { return Ok(None); }
      var claimed := LeaseRun(next.value, a, id, now, until);
      return if claimed.Some? then Ok(claimed) else Err(Integrity);
    }

    method ClaimNextRun(only: Option<string>, a: Id, id: Id, now: Time, lease: nat)
      returns (result: Outcome<Option<Claimed>>)
      requires Valid()
      modifies this
      ensures Valid()
      ensures Claims(old(Tables()), Tables(), only, a, id, now, now + lease, result)
      ensures result.Err? ==> a in old(attempts) || EventIdTaken(old(events), id)
      ensures result.Ok? && result.value.Some? ==> FirstInLine(old(Tables()), only, now, result.value.value.run)
    {
      hide Claims, NextClaim, Claimable, Claim;
      ghost var begun := Tables();
      result := ClaimRows(only, a, id, now, now + lease);
      ClaimsKeepBase(begun, Tables(), only, a, id, now, now + lease, result);
      ClaimFailsOnClash(begun, Tables(), only, a, id, now, now + lease, result);
      ClaimedIsFirst(begun, Tables(), only, a, id, now, now + lease, result);
    }

    // ----- transition_run -----

    method TransitionRows(m: Move, id: Id, now: Time) returns (result: Outcome<RunState>)
      requires m.run in runs ==> Exclusive(Tables(), m.run)
      modifies this
      ensures var effect := TransitionRun(old(Tables()), m, id, now);
        && Tables() == (if effect.Ok? then effect.value else old(Tables()))
        && (effect.Err? ==> result == Err(effect.error))
        && (effect.Ok? ==> m.run in runs && result == Ok(StateOf(runs[m.run])))
    {
      var begun := Tables();
      if !HasRun(begun, m.scope, m.run) { return Err(RunNotFound); }
      var row := runs[m.run];
      var change := StateMachine.Transition(StateOf(row), m.target, m.expected, m.outcome, m.reason);
      if change.Err? { return Err(change.error); }
      var after := change.value.after;
      runs := runs[m.run := WithState(row, after)];
      assert Tables() == Restate(begun, m.run, after);
      var inserted := InsertEvent(m.run, change.value.kind, TransitionData(after, m.extra), id);
      if !inserted {
        Rollback(begun);
        return Err(Integrity);
      }
      if Terminal(after.status) {
        ExclusiveAfterInsert(begun, m.run, after, change.value.kind, TransitionData(after, m.extra), id);
        ReleaseByPointer(Tables(), m.run, now);
        EndAttempt(m.scope, m.run, row.workspace, row.attempt, now);
      }
      return Ok(after);
    }

    /** What ends with a run: its attempt, and whatever points at either. */
    method EndAttempt(scope: string, r: Id, w: Id, a: Option<Id>, now: Time)
      requires r in runs
      modifies this
      ensures Tables() == old(Tables()).(
                attempts := Ended(old(attempts), a, now), sessions := Cleared(old(sessions), scope, r),
                workspaces := Freed(old(workspaces), scope, w, a),
                runs := old(runs)[r := old(runs)[r].(attempt := None)])
    {
      if a.Some? && a.value in attempts {
        attempts := attempts[a.value := attempts[a.value].(ended := Some(now))];
      }
      sessions := map s | s in sessions ::
        if sessions[s].scope == scope && sessions[s].active == Some(r) then sessions[s].(active := None)
        else sessions[s];
      if w in workspaces && workspaces[w].scope == scope && a.Some? && workspaces[w].active == a {
        workspaces := workspaces[w := workspaces[w].(active := None, leaseUntil := None)];
      }
      runs := runs[r := runs[r].(attempt := None)];
    }

    method Transition(m: Move, id: Id, now: Time) returns (result: Outcome<RunState>)
      requires Valid()
      modifies this
      ensures Valid()
      ensures m.run in old(runs) ==> Rooted(old(Tables()), m.run)
      ensures var effect := TransitionRun(old(Tables()), m, id, now);
        && Tables() == (if effect.Ok? then effect.value else old(Tables()))
        && (effect.Err? ==> result == Err(effect.error))
        && (effect.Ok? ==> m.run in runs && result == Ok(StateOf(runs[m.run])))
    {
      Roots(Tables());
      assert Holds(Tables(), References) && Holds(Tables(), Ownership);
      if m.run in runs { OwnershipIsExclusive(Tables(), m.run); }
      if TransitionRun(Tables(), m, id, now).Ok? { TransitionKeepsBase(Tables(), m, id, now); }
      result := TransitionRows(m, id, now);
    }

    // ----- cancel_run -----

    /** A request to cancel, in up to two transactions of its own. */
    method CancelRun(scope: string, r: Id, first: Id, second: Id, now: Time) returns (result: Outcome<RunState>)
      requires Valid()
      modifies this
      ensures Valid()
      ensures Tables() == AfterCancel(old(Tables()), scope, r, first, second, now)
      ensures result.Ok? ==> HasRun(Tables(), scope, r) && result.value == StateOf(runs[r])
      ensures result == Err(RunNotFound) <==> !HasRun(old(Tables()), scope, r)
    {
      hide TransitionRun;
      if !HasRun(Tables(), scope, r) { return Err(RunNotFound); }
      var state := StateOf(runs[r]);
      if Terminal(state.status) || state.status == Cancelling { return Ok(state); }
      Roots(Tables());
      var ask := Move(scope, r, state.version, Cancelling, None, None, None);
      TransitionFinds(Tables(), ask, first, now);
      var current := Transition(ask, first, now);
      if current.Err? || state.status != Queued { return current; }
      var finish := Move(scope, r, current.value.version, Cancelled, None, None, None);
      Roots(Tables());
      TransitionFinds(Tables(), finish, second, now);
      result := Transition(finish, second, now);
    }

    // ----- respond_to_run -----

    /** The answer is written before the version is checked; a refused answer is rolled back. */
    method RespondRows(y: Reply, id: Id) returns (result: Outcome<RunState>)
      requires y.run in runs ==> Rooted(Tables(), y.run)
      modifies this
      ensures var effect := Respond(old(Tables()), y, id);
        && Tables() == (if effect.Ok? then effect.value else old(Tables()))
        && (effect.Err? ==> result == Err(effect.error))
        && (effect.Ok? ==> y.run in runs && result == Ok(StateOf(runs[y.run])))
    {
      var begun := Tables();
      if !HasPending(begun, y.scope, y.run, y.pending) { return Err(RunNotFound); }
      var pending, row := pendings[y.pending], runs[y.run];
      if pending.resolved {
        if pending.key == Some(y.key) && pending.digest == Some(y.digest) { return Ok(StateOf(row)); }
        return Err(StateConflict);
      }
      if ReplyKeyTaken(begun, y.scope, y.run, y.pending, y.key) { return Err(Integrity); }
      pendings := pendings[y.pending := pending.(key := Some(y.key), digest := Some(y.digest), resolved := true)];
      if row.version != y.expected {
        Rollback(begun);
        return Err(StateConflict);
      }
      var change := StateMachine.Transition(StateOf(row), Queued, y.expected, None, None);
      if change.Err? {
        Rollback(begun);
        return Err(change.error);
      }
      runs := runs[y.run := WithState(row, change.value.after)];
      assert Tables() == Answer(begun, y, change.value.after);
      var inserted := InsertEvent(y.run, change.value.kind, EventData(Some(Queued), None), id);
      if !inserted {
        Rollback(begun);
        return Err(Integrity);
      }
      return Ok(change.value.after);
    }

    method RespondToRun(y: Reply, id: Id) returns (result: Outcome<RunState>)
      requires Valid()
      modifies this
      ensures Valid()
      ensures y.run in old(runs) ==> Rooted(old(Tables()), y.run)
      ensures var effect := Respond(old(Tables()), y, id);
        && Tables() == (if effect.Ok? then effect.value else old(Tables()))
        && (effect.Err? ==> result == Err(effect.error))
        && (effect.Ok? ==> y.run in runs && result == Ok(StateOf(runs[y.run])))
    {
      Roots(Tables());
      if Respond(Tables(), y, id).Ok? { RespondKeepsBase(Tables(), y, id); }
      result := RespondRows(y, id);
    }

    // ----- record_workspace_revision, append_event -----

    method RecordRevision(scope: string, p: Publication, now: Time) returns (result: Outcome<()>)
      requires Valid()
      modifies this
      ensures Valid()
      ensures var effect := Publish(old(Tables()), scope, p, now);
        && Tables() == (if effect.Ok? then effect.value else old(Tables()))
        && result == (if effect.Ok? then Ok(()) else Err(effect.error))
    {
      ghost var begun := Tables();
      if p.workspace !in workspaces || workspaces[p.workspace].scope != scope { return Err(RunNotFound); }
      var w := workspaces[p.workspace];
      if w.active != Some(p.attempt) || w.epoch != p.epoch { return Err(StateConflict); }
      if w.leaseUntil.Some? && w.leaseUntil.value <= now { return Err(StateConflict); }
      var parent := w.current;
      if p.revision in revisions { return Err(Integrity); }
      revisions := revisions[p.revision := Revision(scope, p.workspace, parent)];
      if workspaces[p.workspace].current == parent && workspaces[p.workspace].active == Some(p.attempt)
         && workspaces[p.workspace].epoch == p.epoch {
        workspaces := workspaces[p.workspace := w.(current := Some(p.revision))];
      }
      PublishKeepsBase(begun, scope, p, now);
      return Ok(());
    }

    method AppendEvent(scope: string, r: Id, kind: EventKind, data: EventData, id: Id) returns (result: Outcome<()>)
      requires Valid()
      modifies this
      ensures Valid()
      ensures r in old(runs) ==> old(runs)[r].session in old(sessions)
      ensures var effect := Append(old(Tables()), scope, r, kind, data, id);
        && Tables() == (if effect.Ok? then effect.value else old(Tables()))
        && result == (if effect.Ok? then Ok(()) else Err(effect.error))
    {
      hide Insert;
      ghost var begun := Tables();
      Roots(begun);
      if !HasRun(Tables(), scope, r) { return Err(RunNotFound); }
      if Insert(begun, r, kind, data, id).Ok? { InsertKeepsBase(begun, r, kind, data, id); }
      var inserted := InsertEvent(r, kind, data, id);
      InsertFailsOnClash(begun, r, kind, data, id);
      return if inserted then Ok(()) else Err(Integrity);
    }
  }
}
