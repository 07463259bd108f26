/** impala_query_status and impala_cancel_query: what a session is told of a query, while it runs, after it
    has ended, and after the process that ran it is gone. */
module ImpalaControl {
  import opened Outcomes
  import opened ImpalaJson

  /** A query's record on disk; its rows are not shown. */
  datatype Record = Record(scope: string, session: Id, status: Status)

  /** The records, and in memory the queries that run, each with its cancellation flag. */
  datatype World = World(records: map<Id, Record>, active: map<Id, bool>)

  const EMPTY := World(map[], map[])

  /** What a caller is shown: a request to cancel is not yet a cancellation. */
  datatype Shown = Cancelling | Recorded(status: Status)

  predicate Owned(w: World, ref: Id, scope: string, session: Id) {
    ref in w.records && w.records[ref].scope == scope && w.records[ref].session == session
  }

  /** _control: the answer. */
  function Answer(w: World, ref: Id, scope: string, session: Id, cancel: bool): Outcome<Shown> {
    if !Owned(w, ref, scope, session) then Err(CapabilityDenied)
    else if ref in w.active && cancel then Ok(Cancelling)
    else if ref !in w.active && w.records[ref].status == Running then Ok(Recorded(Unknown))
    else Ok(Recorded(w.records[ref].status))
  }

  datatype Step =
    | Begin(ref: Id, scope: string, session: Id, remembered: bool)
    | Finish(ref: Id, status: Status, saved: bool)
    | Control(ref: Id, scope: string, session: Id, cancel: bool)
    | Restart

  /** A reservation writes the record, and remembers the query unless that fails; a query that ends saves its
      status, unless that fails, and is forgotten. */
  function Next(w: World, step: Step): World {
    match step
    case Begin(ref, scope, session, remembered) =>
      if ref in w.records then w
      else World(w.records[ref := Record(scope, session, Running)], if remembered then w.active[ref := false] else w.active)
    case Finish(ref, status, saved) =>
      if ref !in w.active || ref !in w.records || status == Running then w
      else World(if saved then w.records[ref := w.records[ref].(status := status)] else w.records, w.active - {ref})
    case Control(ref, scope, session, cancel) =>
      if Owned(w, ref, scope, session) && ref in w.active && cancel then w.(active := w.active[ref := true]) else w
    case Restart => w.(active := map[])
  }

  function Run(steps: seq<Step>): World {
    if steps == [] then EMPTY else Next(Run(steps[..|steps| - 1]), steps[|steps| - 1])
  }

  class QueryControl {
    var records: map<Id, Record>
    var active: map<Id, bool>

    /** _control */
    method Control(ref: Id, scope: string, session: Id, cancel: bool) returns (shown: Outcome<Shown>)
      modifies `active
      ensures shown == Answer(old(World(records, active)), ref, scope, session, cancel)
      ensures World(records, active) == Next(old(World(records, active)), Step.Control(ref, scope, session, cancel))
    {
      if ref !in records || records[ref].scope != scope || records[ref].session != session {
        return Err(CapabilityDenied);
      }
      var status := records[ref].status;
      if ref in active && cancel {
        active := active[ref := true];
        return Ok(Cancelling);
      }
      if ref !in active && status == Running { return Ok(Recorded(Unknown)); }
      return Ok(Recorded(status));
    }
  }

  // ----- Over whole histories -----

  /** The step that made the query's record. */
  predicate Makes(steps: seq<Step>, i: nat, ref: Id) {
    i < |steps| && steps[i].Begin? && steps[i].ref == ref && ref !in Run(steps[..i]).records
  }

  /** The step that saved the query's status. */
  predicate Saves(steps: seq<Step>, i: nat, ref: Id) {
    i < |steps| && steps[i].Finish? && steps[i].ref == ref && steps[i].saved && steps[i].status != Running
    && ref in Run(steps[..i]).active
  }

  /** What is on record, and what is not, comes from those steps. */
  ghost predicate Traced(steps: seq<Step>, ref: Id) {
    var w := Run(steps);
    && (ref in w.active ==> ref in w.records && w.records[ref].status == Running)
    && (ref in w.records ==>
          exists i: nat :: Makes(steps, i, ref) && steps[i].scope == w.records[ref].scope && steps[i].session == w.records[ref].session)
    && (ref in w.records && w.records[ref].status != Running ==>
          exists i: nat :: Saves(steps, i, ref) && steps[i].status == w.records[ref].status)
  }

  lemma MakesStays(steps: seq<Step>, i: nat, ref: Id)
    requires steps != [] && i < |steps| - 1
    ensures Makes(steps, i, ref) <==> Makes(steps[..|steps| - 1], i, ref)
    ensures Saves(steps, i, ref) <==> Saves(steps[..|steps| - 1], i, ref)
  {
    assert steps[..|steps| - 1][..i] == steps[..i];
  }

  lemma {:induction false} AllTraced(steps: seq<Step>, ref: Id)
    ensures Traced(steps, ref)
  {
    if steps != [] {
      var n := |steps| - 1;
      var init, last, w := steps[..n], steps[n], Run(steps[..n]);
      AllTraced(init, ref);
      if ref in w.records {
        var i: nat :| Makes(init, i, ref) && init[i].scope == w.records[ref].scope && init[i].session == w.records[ref].session;
        MakesStays(steps, i, ref);
        assert steps[i] == init[i];
      } else if last.Begin? && last.ref == ref {
        assert Makes(steps, n, ref);
      }
      if ref in w.records && w.records[ref].status != Running {
        var i: nat :| Saves(init, i, ref) && init[i].status == w.records[ref].status;
        MakesStays(steps, i, ref);
        assert steps[i] == init[i];
      } else if last.Finish? && last.ref == ref && ref in w.active && last.saved && last.status != Running {
        assert Saves(steps, n, ref);
      }
    }
  }

  /** A record keeps its owner, and its status once that is saved. */
  lemma {:induction false} RecordsStay(steps: seq<Step>, n: nat, ref: Id)
    requires n <= |steps| && ref in Run(steps[..n]).records
    ensures var x := Run(steps[..n]).records[ref];
      && ref in Run(steps).records
      && var y := Run(steps).records[ref];
      && y.scope == x.scope && y.session == x.session && (x.status != Running ==> y == x)
  {
    if n == |steps| {
      assert steps[..n] == steps;
    } else {
      var init := steps[..|steps| - 1];
      assert init[..n] == steps[..n];
      RecordsStay(init, n, ref);
      AllTraced(init, ref);
    }
  }

  lemma MadeIsOnRecord(steps: seq<Step>, i: nat, ref: Id)
    requires Makes(steps, i, ref)
    ensures ref in Run(steps).records
    ensures Run(steps).records[ref].scope == steps[i].scope && Run(steps).records[ref].session == steps[i].session
  {
    assert steps[..i + 1][..i] == steps[..i];
    RecordsStay(steps, i + 1, ref);
  }

  lemma SavedIsOnRecord(steps: seq<Step>, i: nat, ref: Id)
    requires Saves(steps, i, ref)
    ensures ref in Run(steps).records && Run(steps).records[ref].status == steps[i].status
  {
    assert steps[..i + 1][..i] == steps[..i];
    AllTraced(steps[..i], ref);
    RecordsStay(steps, i + 1, ref);
  }

  /** A query is shown to the scope and session that began it, and to nobody else: they are told the same as of
      a query that does not exist. */
  lemma ShownToItsOwner(steps: seq<Step>, ref: Id, scope: string, session: Id, cancel: bool)
    ensures Answer(Run(steps), ref, scope, session, cancel).Ok? <==>
              exists i: nat :: Makes(steps, i, ref) && steps[i].scope == scope && steps[i].session == session
    ensures Answer(Run(steps), ref, scope, session, cancel).Err? ==>
              Answer(Run(steps), ref, scope, session, cancel) == Err(CapabilityDenied)
  {
    AllTraced(steps, ref);
    if i: nat :| Makes(steps, i, ref) && steps[i].scope == scope && steps[i].session == session {
      MadeIsOnRecord(steps, i, ref);
    }
    hide Run, Makes;
  }

  /** What its owner is told: that it runs, or is being cancelled, exactly while this process runs it; the status
      that it ended with, if that was saved; and that it is unknown, if the process that ran it is gone or could
      not save how it ended. */
  lemma OwnerIsTold(steps: seq<Step>, ref: Id, scope: string, session: Id, cancel: bool)
    requires Answer(Run(steps), ref, scope, session, cancel).Ok?
    ensures var w, shown := Run(steps), Answer(Run(steps), ref, scope, session, cancel).value;
      && (ref in w.active ==> shown == if cancel then Cancelling else Recorded(Running))
      && (ref !in w.active && (exists i: nat :: Saves(steps, i, ref)) ==>
            exists i: nat :: Saves(steps, i, ref) && shown == Recorded(steps[i].status))
      && (ref !in w.active && !(exists i: nat :: Saves(steps, i, ref)) ==> shown == Recorded(Unknown))
  {
    AllTraced(steps, ref);
    if i: nat :| Saves(steps, i, ref) { SavedIsOnRecord(steps, i, ref); }
    hide Run, Saves, Makes;
  }

  /** A status that was saved is told for ever, after any restart. */
  lemma SavedStatusIsFinal(steps: seq<Step>, n: nat, ref: Id, scope: string, session: Id, cancel: bool)
    requires n < |steps| && Saves(steps, n, ref) && Owned(Run(steps), ref, scope, session)
    ensures Answer(Run(steps), ref, scope, session, cancel) == Ok(Recorded(steps[n].status))
  {
    SavedIsOnRecord(steps, n, ref);
    AllTraced(steps, ref);
    hide Run;
  }
}
