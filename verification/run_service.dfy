/** RunService.submit over whole histories: however calls interleave, a key is accepted once. */
module RunService {
  import opened Outcomes
  import opened StateMachine
  import opened Bindings
  import opened RunTables
  import opened RunInvariants
  import opened RunSteps
  import opened RunHistories

  ghost predicate KeyBound(db: Db, q: Request) {
    exists r :: HasKey(db, q.scope, q.session, q.key, r)
  }

  predicate SameKey(q: Request, p: Request) {
    q.scope == p.scope && q.session == p.session && q.key == p.key
  }

  /** The step is an accept_once that inserts a run for q's key. */
  ghost predicate Fresh(db: Db, step: Step, q: Request)
    requires Base(db)
  {
    && step.Submit? && SameKey(step.request, q)
    && var accepted := Accept(db, step.request, step.run, step.event, step.now);
    accepted.Ok? && !accepted.value.1.reused
  }

  // ----- One run for one key -----

  lemma InsertAddsNoRun(db: Db, r: Id, kind: EventKind, data: EventData, id: Id)
    requires r in db.runs && db.runs[r].session in db.sessions && Insert(db, r, kind, data, id).Ok?
    ensures Insert(db, r, kind, data, id).value.runs.Keys == db.runs.Keys
  {
  }

  lemma ClaimAddsNoRun(db: Db, r: Id, a: Id, id: Id, now: Time, until: Time)
    requires r in db.runs && HasSession(db, db.runs[r].scope, db.runs[r].session) && Claim(db, r, a, id, now, until).Ok?
    ensures Claim(db, r, a, id, now, until).value.runs.Keys == db.runs.Keys
  {
  }

  lemma RespondAddsNoRun(db: Db, y: Reply, id: Id)
    requires (y.run in db.runs ==> Rooted(db, y.run)) && Respond(db, y, id).Ok?
    ensures Respond(db, y, id).value.runs.Keys == db.runs.Keys
  {
    RespondShape(db, y, id);
  }

  lemma OnlySubmitAddsRuns(db: Db, step: Step)
    requires Base(db) && !step.Submit?
    ensures Next(db, step).runs.Keys == db.runs.Keys
  {
    if Effect(db, step).Ok? {
      Roots(db);
      match step
      case Create(scope, binding, s, w) => CreateShape(db, scope, binding, s, w);
      case ClaimNext(only, r, a, id, now, until) =>
        if NextClaim(db, only, now, r) { ClaimAddsNoRun(db, r, a, id, now, until); }
      case Transit(m, id, now) => TransitionRows(db, m, id, now);
      case Resume(y, id) => RespondAddsNoRun(db, y, id);
      case Commit(scope, p, now) =>
      case Record(scope, r, kind, data, id) => InsertAddsNoRun(db, r, kind, data, id);
      case Question(r, p) =>
    }
  }

  /** What accept_once does to the keys: nothing when it reuses a run, one new binding otherwise. */
  lemma AcceptBinds(db: Db, q: Request, r: Id, id: Id, now: Time)
    requires Accept(db, q, r, id, now).Ok?
    ensures var (d, accepted) := Accept(db, q, r, id, now).value;
      if accepted.reused then
        d == db && HasKey(db, q.scope, q.session, q.key, accepted.run)
        && db.runs[accepted.run].fingerprint == q.fingerprint
      else
        && !KeyBound(db, q) && accepted.run == r && r !in db.runs && d.runs.Keys == db.runs.Keys + {r}
        && HasKey(d, q.scope, q.session, q.key, r)
        && d.runs[r].fingerprint == q.fingerprint && d.runs[r].snapshot == q.snapshot
        && q.session in db.sessions && d.runs[r].runSeq == db.sessions[q.session].nextRun
  {
  }

  /** A later state has the keys of an earlier one, and no others on its runs. */
  lemma KeysKept(db: Db, d: Db, q: Request, r: Id)
    requires Extends(db, d) && r in db.runs
    ensures HasKey(db, q.scope, q.session, q.key, r) <==> HasKey(d, q.scope, q.session, q.key, r)
    ensures r in d.runs && d.runs[r].fingerprint == db.runs[r].fingerprint && d.runs[r].snapshot == db.runs[r].snapshot
  {
    assert RunKept(db, d, r);
  }

  lemma SameRunsBindSameKeys(db: Db, d: Db, q: Request)
    requires Extends(db, d) && d.runs.Keys == db.runs.Keys
    ensures KeyBound(d, q) <==> KeyBound(db, q)
  {
    forall r | r in db.runs ensures HasKey(db, q.scope, q.session, q.key, r) <==> HasKey(d, q.scope, q.session, q.key, r) {
      KeysKept(db, d, q, r);
    }
  }

  lemma NewRunBindsItsKey(db: Db, d: Db, p: Request, r: Id, q: Request)
    requires Extends(db, d) && d.runs.Keys == db.runs.Keys + {r} && HasKey(d, p.scope, p.session, p.key, r)
    ensures KeyBound(d, q) <==> KeyBound(db, q) || SameKey(p, q)
  {
    forall x | x in db.runs ensures HasKey(db, q.scope, q.session, q.key, x) <==> HasKey(d, q.scope, q.session, q.key, x) {
      KeysKept(db, d, q, x);
    }
    if SameKey(p, q) { assert HasKey(d, q.scope, q.session, q.key, r); }
  }

  lemma NextBindsKey(db: Db, step: Step, q: Request)
    requires Base(db)
    ensures KeyBound(Next(db, step), q) <==> KeyBound(db, q) || Fresh(db, step, q)
    ensures !(KeyBound(db, q) && Fresh(db, step, q))
  {
    NextExtends(db, step);
    if step.Submit? {
      SubmitBindsKey(db, step, q);
    } else {
      OnlySubmitAddsRuns(db, step);
      SameRunsBindSameKeys(db, Next(db, step), q);
    }
  }

  lemma SubmitBindsKey(db: Db, step: Step, q: Request)
    requires Base(db) && step.Submit? && Extends(db, Next(db, step))
    ensures KeyBound(Next(db, step), q) <==> KeyBound(db, q) || Fresh(db, step, q)
    ensures !(KeyBound(db, q) && Fresh(db, step, q))
  {
    var p := step.request;
    var effect := Accept(db, p, step.run, step.event, step.now);
    if effect.Ok? {
      var d := effect.value.0;
      assert Next(db, step) == d;
      AcceptBinds(db, p, step.run, step.event, step.now);
      if !effect.value.1.reused {
        NewRunBindsItsKey(db, d, p, step.run, q);
        if KeyBound(db, q) && SameKey(p, q) { SameKeyIsBound(db, p, q); }
      }
    }
  }

  lemma SameKeyIsBound(db: Db, p: Request, q: Request)
    requires SameKey(p, q) && KeyBound(db, q)
    ensures KeyBound(db, p)
  {
  }

  /** The number of times a history accepted q's key as new. */
  ghost function FreshAccepts(steps: seq<Step>, q: Request): nat {
    if steps == [] then 0
    else
      var init, last := steps[..|steps| - 1], steps[|steps| - 1];
      FreshAccepts(init, q) + if Fresh(Exec(init), last, q) then 1 else 0
  }

  /** A key is accepted as new at most once, and exactly once if any run carries it. */
  lemma {:induction false} KeyAcceptedOnce(steps: seq<Step>, q: Request)
    ensures FreshAccepts(steps, q) == if KeyBound(Exec(steps), q) then 1 else 0
  {
    if steps != [] {
      var init, last := steps[..|steps| - 1], steps[|steps| - 1];
      KeyAcceptedOnce(init, q);
      NextBindsKey(Exec(init), last, q);
    }
  }

  // ----- RunService.submit -----

  /** One call of submit in a history: it checks the session when `checked` steps have run, looks for
      the key when `found` have, and calls accept_once as step `accepted`. */
  datatype Call = Call(
    request: Request, inputLength: nat, run: Id, event: Id, now: Time,
    checked: nat, found: nat, accepted: nat)

  ghost function SubmitOutcome(checked: Db, read: Db, write: Db, c: Call): Outcome<Accepted> {
    var q := c.request;
    if !(1 <= |q.key| <= 200 && 1 <= c.inputLength <= 100_000) then Err(InvalidRequest)
    else if !HasSession(checked, q.scope, q.session) then Err(SessionNotFound)
    else if KeyBound(read, q) then
      var r :| HasKey(read, q.scope, q.session, q.key, r);
      if read.runs[r].fingerprint != q.fingerprint then Err(IdempotencyConflict)
      else Ok(Accepted(r, read.runs[r].status, read.runs[r].version, true))
    else
      var accepted := Accept(write, q, c.run, c.event, c.now);
      if accepted.Ok? then Ok(accepted.value.1) else Err(accepted.error)
  }

  ghost function Submitted(steps: seq<Step>, c: Call): Outcome<Accepted>
    requires c.checked <= c.found <= c.accepted <= |steps|
  {
    SubmitOutcome(Exec(steps[..c.checked]), Exec(steps[..c.found]), Exec(steps[..c.accepted]), c)
  }

  /** The history contains the call: its accept_once, if it comes to that, is one of the steps. */
  ghost predicate Contains(steps: seq<Step>, c: Call) {
    && c.checked <= c.found <= c.accepted < |steps|
    && (!KeyBound(Exec(steps[..c.found]), c.request) ==>
          steps[c.accepted] == Submit(c.request, c.run, c.event, c.now))
  }

  /** Run r carries q's key and fingerprint. */
  ghost predicate Carries(db: Db, q: Request, r: Id) {
    HasKey(db, q.scope, q.session, q.key, r) && db.runs[r].fingerprint == q.fingerprint
  }

  lemma CarriesPersists(steps: seq<Step>, n: nat, q: Request, r: Id)
    requires n <= |steps| && Carries(Exec(steps[..n]), q, r)
    ensures Carries(Exec(steps), q, r)
    ensures Exec(steps).runs[r].snapshot == Exec(steps[..n]).runs[r].snapshot
  {
    HistoryExtends(steps, n);
    KeysKept(Exec(steps[..n]), Exec(steps), q, r);
  }

  /** The state after step n of a history. */
  lemma ExecStep(steps: seq<Step>, n: nat)
    requires n < |steps|
    ensures Exec(steps[..n + 1]) == Next(Exec(steps[..n]), steps[n])
  {
    assert steps[..n + 1][..n] == steps[..n];
  }

  lemma AcceptedCarries(db: Db, q: Request, r: Id, id: Id, now: Time)
    requires Base(db) && Accept(db, q, r, id, now).Ok?
    ensures var accepted := Accept(db, q, r, id, now).value.1;
      && Carries(Next(db, Submit(q, r, id, now)), q, accepted.run)
      && (!accepted.reused ==> Next(db, Submit(q, r, id, now)).runs[accepted.run].snapshot == q.snapshot)
  {
    AcceptBinds(db, q, r, id, now);
  }

  /** A success comes from the run found, or from accept_once. */
  lemma SubmitOutcomeCases(checked: Db, read: Db, write: Db, c: Call)
    requires SubmitOutcome(checked, read, write, c).Ok?
    ensures var accepted, q := SubmitOutcome(checked, read, write, c).value, c.request;
      if KeyBound(read, q) then accepted.reused && Carries(read, q, accepted.run)
      else
        var effect := Accept(write, q, c.run, c.event, c.now);
        effect.Ok? && accepted == effect.value.1
  {
  }

  /** A successful submit answers with the run that carries its key and fingerprint, for ever after. */
  lemma SubmittedRunCarriesKey(steps: seq<Step>, c: Call)
    requires Contains(steps, c) && Submitted(steps, c).Ok?
    ensures Carries(Exec(steps), c.request, Submitted(steps, c).value.run)
    ensures !Submitted(steps, c).value.reused ==>
              Exec(steps).runs[Submitted(steps, c).value.run].snapshot == c.request.snapshot
  {
    SubmitOutcomeCases(Exec(steps[..c.checked]), Exec(steps[..c.found]), Exec(steps[..c.accepted]), c);
    if KeyBound(Exec(steps[..c.found]), c.request) {
      CarriesPersists(steps, c.found, c.request, Submitted(steps, c).value.run);
    } else {
      AcceptedCarriesOn(steps, c);
    }
  }

  lemma AcceptedCarriesOn(steps: seq<Step>, c: Call)
    requires c.accepted < |steps| && steps[c.accepted] == Submit(c.request, c.run, c.event, c.now)
    requires Accept(Exec(steps[..c.accepted]), c.request, c.run, c.event, c.now).Ok?
    ensures var accepted := Accept(Exec(steps[..c.accepted]), c.request, c.run, c.event, c.now).value.1;
      && Carries(Exec(steps), c.request, accepted.run)
      && (!accepted.reused ==> Exec(steps).runs[accepted.run].snapshot == c.request.snapshot)
  {
    var accepted := Accept(Exec(steps[..c.accepted]), c.request, c.run, c.event, c.now).value.1;
    ExecStep(steps, c.accepted);
    AcceptedCarries(Exec(steps[..c.accepted]), c.request, c.run, c.event, c.now);
    CarriesPersists(steps, c.accepted + 1, c.request, accepted.run);
  }

  lemma OneCarrier(db: Db, p: Request, q: Request, r: Id, x: Id)
    requires Keys(db) && SameKey(p, q) && Carries(db, p, r) && Carries(db, q, x)
    ensures r == x && p.fingerprint == q.fingerprint
  {
    assert r == x || Separate(db.runs[r], db.runs[x]);
  }

  /** Any two successful submits of one key name the same run, and had the same fingerprint; so a
      submit with another fingerprint fails, whenever it comes. */
  lemma SubmitsAgree(steps: seq<Step>, c: Call, d: Call)
    requires Contains(steps, c) && Contains(steps, d) && SameKey(c.request, d.request)
    requires Submitted(steps, c).Ok? && Submitted(steps, d).Ok?
    ensures Submitted(steps, c).value.run == Submitted(steps, d).value.run
    ensures c.request.fingerprint == d.request.fingerprint
  {
    assert Holds(Exec(steps), Uniqueness);
    SubmittedRunCarriesKey(steps, c);
    SubmittedRunCarriesKey(steps, d);
    OneCarrier(Exec(steps), c.request, d.request, Submitted(steps, c).value.run, Submitted(steps, d).value.run);
  }

  /** A call that reports a new run is an accept_once of the history that was fresh. */
  lemma CreatorIsFresh(steps: seq<Step>, c: Call)
    requires Contains(steps, c) && Submitted(steps, c).Ok? && !Submitted(steps, c).value.reused
    ensures Fresh(Exec(steps[..c.accepted]), steps[c.accepted], c.request)
  {
    SubmitOutcomeCases(Exec(steps[..c.checked]), Exec(steps[..c.found]), Exec(steps[..c.accepted]), c);
  }

  /** No two calls both report that they created the run. */
  lemma OneCallCreates(steps: seq<Step>, c: Call, d: Call)
    requires Contains(steps, c) && Contains(steps, d) && SameKey(c.request, d.request)
    requires Submitted(steps, c).Ok? && Submitted(steps, d).Ok? && c.accepted < d.accepted
    ensures Submitted(steps, c).value.reused || Submitted(steps, d).value.reused
  {
    if !Submitted(steps, c).value.reused && !Submitted(steps, d).value.reused {
      CreatorIsFresh(steps, c);
      CreatorIsFresh(steps, d);
      FreshOnce(steps, c.accepted, d.accepted, c.request, d.request);
    }
  }

  lemma FreshOnce(steps: seq<Step>, i: nat, j: nat, p: Request, q: Request)
    requires i < j < |steps| && SameKey(p, q) && Fresh(Exec(steps[..i]), steps[i], p)
    ensures !Fresh(Exec(steps[..j]), steps[j], q)
  {
    FreshBinds(steps, i, p);
    BoundStaysBound(steps, i + 1, j, p);
    BoundIsNotFresh(Exec(steps[..j]), steps[j], p, q);
  }

  lemma BoundIsNotFresh(db: Db, step: Step, p: Request, q: Request)
    requires Base(db) && SameKey(p, q) && KeyBound(db, p)
    ensures !Fresh(db, step, q)
  {
    SameKeyIsBound(db, q, p);
    NextBindsKey(db, step, q);
  }

  lemma FreshBinds(steps: seq<Step>, i: nat, q: Request)
    requires i < |steps| && Fresh(Exec(steps[..i]), steps[i], q)
    ensures KeyBound(Exec(steps[..i + 1]), q)
  {
    ExecStep(steps, i);
    NextBindsKey(Exec(steps[..i]), steps[i], q);
  }

  lemma BoundStaysBound(steps: seq<Step>, i: nat, j: nat, q: Request)
    requires i <= j <= |steps| && KeyBound(Exec(steps[..i]), q)
    ensures KeyBound(Exec(steps[..j]), q)
  {
    var r :| HasKey(Exec(steps[..i]), q.scope, q.session, q.key, r);
    var prefix := steps[..j];
    assert prefix[..i] == steps[..i];
    HistoryExtends(prefix, i);
    KeysKept(Exec(steps[..i]), Exec(prefix), q, r);
  }

  /** The call may be made: its lengths are in range and its session exists. */
  ghost predicate Admissible(steps: seq<Step>, c: Call)
    requires c.checked <= |steps|
  {
    && 1 <= |c.request.key| <= 200 && 1 <= c.inputLength <= 100_000
    && HasSession(Exec(steps[..c.checked]), c.request.scope, c.request.session)
  }

  /** The call whose accept_once was fresh says so: the one new run of a key has a call that created it. */
  lemma FreshCallReports(steps: seq<Step>, c: Call)
    requires Contains(steps, c) && Admissible(steps, c) && !KeyBound(Exec(steps[..c.found]), c.request)
    requires Fresh(Exec(steps[..c.accepted]), steps[c.accepted], c.request)
    ensures Submitted(steps, c) == Ok(Accepted(c.run, Queued, 0, false))
  {
    hide KeyBound;
    FreshAnswer(Exec(steps[..c.accepted]), c.request, c.run, c.event, c.now);
  }

  lemma FreshAnswer(db: Db, q: Request, r: Id, id: Id, now: Time)
    requires Accept(db, q, r, id, now).Ok? && !Accept(db, q, r, id, now).value.1.reused
    ensures Accept(db, q, r, id, now).value.1 == Accepted(r, Queued, 0, false)
  {
  }

  /** Every run that carries the key has this fingerprint. */
  ghost predicate BoundTo(db: Db, q: Request, fingerprint: Id) {
    forall x :: HasKey(db, q.scope, q.session, q.key, x) ==> db.runs[x].fingerprint == fingerprint
  }

  lemma CarrierBinds(db: Db, p: Request, q: Request, r: Id)
    requires Keys(db) && SameKey(p, q) && Carries(db, p, r)
    ensures KeyBound(db, q) && BoundTo(db, q, p.fingerprint)
  {
    assert HasKey(db, q.scope, q.session, q.key, r);
    forall x | HasKey(db, q.scope, q.session, q.key, x) ensures db.runs[x].fingerprint == p.fingerprint {
      assert x == r || Separate(db.runs[x], db.runs[r]);
    }
  }

  /** What was bound earlier was bound to the same fingerprint. */
  lemma BoundEarlier(db: Db, d: Db, q: Request, fingerprint: Id)
    requires Extends(db, d) && BoundTo(d, q, fingerprint)
    ensures BoundTo(db, q, fingerprint)
  {
    forall x | HasKey(db, q.scope, q.session, q.key, x) ensures db.runs[x].fingerprint == fingerprint {
      KeysKept(db, d, q, x);
    }
  }

  lemma ConflictingOutcome(checked: Db, read: Db, write: Db, c: Call, fingerprint: Id)
    requires 1 <= |c.request.key| <= 200 && 1 <= c.inputLength <= 100_000
    requires HasSession(checked, c.request.scope, c.request.session)
    requires BoundTo(read, c.request, fingerprint) && BoundTo(write, c.request, fingerprint)
    requires KeyBound(write, c.request) && c.request.fingerprint != fingerprint
    ensures SubmitOutcome(checked, read, write, c) == Err(IdempotencyConflict)
  {
  }

  /** A submit of another fingerprint that reaches accept_once after a success for its key fails with
      a conflict, whether it looked for the key before or after that success. */
  lemma OtherFingerprintConflicts(steps: seq<Step>, c: Call, d: Call)
    requires Contains(steps, c) && Contains(steps, d) && SameKey(c.request, d.request)
    requires Submitted(steps, c).Ok? && Admissible(steps, d)
    requires c.accepted < d.accepted && c.request.fingerprint != d.request.fingerprint
    ensures Submitted(steps, d) == Err(IdempotencyConflict)
  {
    hide KeyBound, BoundTo, Carries;
    var prefix := steps[..d.accepted];
    assert prefix[..c.checked] == steps[..c.checked] && prefix[..c.found] == steps[..c.found];
    assert prefix[..c.accepted] == steps[..c.accepted] && prefix[c.accepted] == steps[c.accepted];
    assert prefix[..d.found] == steps[..d.found];
    SubmittedRunCarriesKey(prefix, c);
    BoundAt(prefix, c.request, d.request, Submitted(prefix, c).value.run);
    HistoryExtends(prefix, d.found);
    BoundEarlier(Exec(prefix[..d.found]), Exec(prefix), d.request, c.request.fingerprint);
    ConflictingOutcome(Exec(steps[..d.checked]), Exec(prefix[..d.found]), Exec(prefix), d, c.request.fingerprint);
  }

  lemma BoundAt(steps: seq<Step>, p: Request, q: Request, r: Id)
    requires SameKey(p, q) && Carries(Exec(steps), p, r)
    ensures KeyBound(Exec(steps), q) && BoundTo(Exec(steps), q, p.fingerprint)
  {
    assert Holds(Exec(steps), Uniqueness);
    CarrierBinds(Exec(steps), p, q, r);
  }

  // ----- reject_if_active -----

  predicate OpenIn(db: Db, s: Id, r: Id) {
    r in db.runs && db.runs[r].session == s && !Terminal(db.runs[r].status)
  }

  ghost predicate AtMostOneOpen(db: Db, s: Id) {
    forall r, p :: OpenIn(db, s, r) && OpenIn(db, s, p) ==> r == p
  }

  /** Every message of session s is submitted with reject_if_active. */
  predicate Exclusive(step: Step, s: Id) {
    step.Submit? && step.request.session == s ==> step.request.rejectIfActive
  }

  /** An old run that is open was open before. */
  lemma OpenBefore(db: Db, d: Db, s: Id, r: Id)
    requires Extends(db, d) && r in db.runs && OpenIn(d, s, r)
    ensures OpenIn(db, s, r)
  {
    assert RunKept(db, d, r);
  }

  lemma NextKeepsOneOpen(db: Db, step: Step, s: Id)
    requires Base(db) && AtMostOneOpen(db, s) && Exclusive(step, s)
    ensures AtMostOneOpen(Next(db, step), s)
  {
    var d := Next(db, step);
    NextExtends(db, step);
    forall r, p | OpenIn(d, s, r) && OpenIn(d, s, p) ensures r == p {
      OpenAfter(db, step, s, r);
      OpenAfter(db, step, s, p);
    }
  }

  /** A run open after a step was open before it, or is the run that the step accepted when no run
      of its session was open. */
  lemma OpenAfter(db: Db, step: Step, s: Id, r: Id)
    requires Base(db) && Exclusive(step, s) && Extends(db, Next(db, step)) && OpenIn(Next(db, step), s, r)
    ensures || OpenIn(db, s, r)
            || (step.Submit? && r == step.run && r !in db.runs && forall x :: !OpenIn(db, s, x))
  {
    if r in db.runs {
      OpenBefore(db, Next(db, step), s, r);
    } else if step.Submit? {
      NewRunIsAlone(db, step, s, r);
    } else {
      OnlySubmitAddsRuns(db, step);
    }
  }

  lemma NewRunIsAlone(db: Db, step: Step, s: Id, r: Id)
    requires Base(db) && Exclusive(step, s) && step.Submit? && OpenIn(Next(db, step), s, r) && r !in db.runs
    ensures r == step.run && forall x :: !OpenIn(db, s, x)
  {
    assert Holds(db, References);
    if Effect(db, step).Ok? {
      AcceptBinds(db, step.request, step.run, step.event, step.now);
      AcceptRespectsBusy(db, step.request, step.run, step.event, step.now);
    }
  }

  lemma AcceptRespectsBusy(db: Db, q: Request, r: Id, id: Id, now: Time)
    requires Refs(db) && Accept(db, q, r, id, now).Ok? && !Accept(db, q, r, id, now).value.1.reused
    ensures q.rejectIfActive ==>
              forall x :: x in db.runs && db.runs[x].session == q.session ==> Terminal(db.runs[x].status)
    ensures Accept(db, q, r, id, now).value.0.runs[r].session == q.session
  {
    forall x | q.rejectIfActive && x in db.runs && db.runs[x].session == q.session
      ensures Terminal(db.runs[x].status)
    {
      assert db.runs[x].scope == q.scope;
    }
  }

  /** When every message of a session is submitted so, the session never has two open runs. */
  lemma {:induction false} OneOpenRun(steps: seq<Step>, s: Id)
    requires forall i :: 0 <= i < |steps| ==> Exclusive(steps[i], s)
    ensures AtMostOneOpen(Exec(steps), s)
  {
    if steps != [] {
      OneOpenRun(steps[..|steps| - 1], s);
      NextKeepsOneOpen(Exec(steps[..|steps| - 1]), steps[|steps| - 1], s);
    }
  }
}
