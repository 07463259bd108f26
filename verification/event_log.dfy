/** The event table seen as logs: one per run and one per session, numbered and replayable. */
module EventLog {
  import opened Outcomes
  import opened StateMachine
  import opened RunTables

  datatype Selector = OfRun(run: Id) | OfSession(session: Id)

  predicate Selects(sel: Selector, e: Event) {
    match sel
    case OfRun(r) => e.run == r
    case OfSession(s) => e.session == s
  }

  function Log(events: seq<Event>, sel: Selector): seq<Event> {
    if events == [] then []
    else
      var e := events[|events| - 1];
      Log(events[..|events| - 1], sel) + if Selects(sel, e) then [e] else []
  }

  /** The number of `e` in the log of `sel`: `seq` in its run, `session_seq` in its session. */
  function Number(sel: Selector, e: Event): nat {
    if sel.OfRun? then e.eventSeq else e.sessionSeq
  }

  lemma LogAppend(events: seq<Event>, e: Event, sel: Selector)
    ensures Log(events + [e], sel) == Log(events, sel) + if Selects(sel, e) then [e] else []
  {
    assert (events + [e])[..|events|] == events;
  }

  lemma NothingSelected(events: seq<Event>, sel: Selector)
    requires forall i :: 0 <= i < |events| ==> !Selects(sel, events[i])
    ensures Log(events, sel) == []
  {
  }

  // ----- Numbering -----

  /** Event i carries its position in each of its two logs. */
  predicate NumberedAt(events: seq<Event>, i: nat)
    requires i < |events|
  {
    var e := events[i];
    && e.eventSeq == |Log(events[..i + 1], OfRun(e.run))|
    && e.sessionSeq == |Log(events[..i + 1], OfSession(e.session))|
  }

  ghost predicate Positions(events: seq<Event>) {
    forall i :: 0 <= i < |events| ==> NumberedAt(events, i)
  }

  ghost predicate Numbered(db: Db) {
    && Positions(db.events)
    && EventRows(db)
    && DistinctIds(db.events)
    && NextNumbers(db)
  }

  /** PRIMARY KEY event_id */
  ghost predicate DistinctIds(events: seq<Event>) {
    forall i, j :: 0 <= i < j < |events| ==> events[i].id != events[j].id
  }

  /** The foreign keys of the event rows. */
  ghost predicate EventRows(db: Db) {
    forall i :: 0 <= i < |db.events| ==>
      && db.events[i].run in db.runs && db.runs[db.events[i].run].session == db.events[i].session
      && db.runs[db.events[i].run].scope == db.events[i].scope
      && db.events[i].session in db.sessions
  }

  ghost predicate NextNumbers(db: Db) {
    && (forall r :: r in db.runs ==> db.runs[r].nextEvent == |Log(db.events, OfRun(r))| + 1)
    && (forall s :: s in db.sessions ==> db.sessions[s].nextEvent == |Log(db.events, OfSession(s))| + 1)
  }

  /** The tables that an event's numbering depends on, unchanged but for rows without events. */
  ghost predicate SameNumbering(db: Db, d: Db) {
    && d.events == db.events
    && (forall r :: r in db.runs ==>
          && r in d.runs && d.runs[r].session == db.runs[r].session && d.runs[r].scope == db.runs[r].scope
          && d.runs[r].nextEvent == db.runs[r].nextEvent)
    && (forall s :: s in db.sessions ==> s in d.sessions && d.sessions[s].nextEvent == db.sessions[s].nextEvent)
    && (forall r :: r in d.runs && r !in db.runs ==> d.runs[r].nextEvent == 1)
    && (forall s :: s in d.sessions && s !in db.sessions ==> d.sessions[s].nextEvent == 1)
  }

  lemma NumberingFrame(db: Db, d: Db)
    requires Numbered(db) && SameNumbering(db, d)
    ensures Numbered(d)
  {
    forall r | r in d.runs ensures d.runs[r].nextEvent == |Log(d.events, OfRun(r))| + 1 {
      if r !in db.runs { NothingSelected(d.events, OfRun(r)); }
    }
    forall s | s in d.sessions ensures d.sessions[s].nextEvent == |Log(d.events, OfSession(s))| + 1 {
      if s !in db.sessions { NothingSelected(d.events, OfSession(s)); }
    }
  }

  lemma InsertKeepsNumbering(db: Db, r: Id, kind: EventKind, data: EventData, id: Id)
    requires Numbered(db) && r in db.runs && db.runs[r].session in db.sessions
    requires Insert(db, r, kind, data, id).Ok?
    ensures Numbered(Insert(db, r, kind, data, id).value)
  {
    InsertKeepsPositions(db, r, kind, data, id);
    InsertKeepsEventRows(db, r, kind, data, id);
    InsertAdvancesNumbers(db, r, kind, data, id);
  }

  lemma InsertKeepsPositions(db: Db, r: Id, kind: EventKind, data: EventData, id: Id)
    requires Positions(db.events) && NextNumbers(db) && r in db.runs && db.runs[r].session in db.sessions
    requires Insert(db, r, kind, data, id).Ok?
    ensures Positions(Insert(db, r, kind, data, id).value.events)
  {
    hide Positions;
    PositionsAppend(db.events, Insert(db, r, kind, data, id).value.events[|db.events|]);
  }

  lemma InsertKeepsEventRows(db: Db, r: Id, kind: EventKind, data: EventData, id: Id)
    requires EventRows(db) && DistinctIds(db.events) && r in db.runs && db.runs[r].session in db.sessions
    requires Insert(db, r, kind, data, id).Ok?
    ensures EventRows(Insert(db, r, kind, data, id).value)
    ensures DistinctIds(Insert(db, r, kind, data, id).value.events)
  {
  }

  lemma PositionsAppend(events: seq<Event>, e: Event)
    requires Positions(events)
    requires e.eventSeq == |Log(events, OfRun(e.run))| + 1
    requires e.sessionSeq == |Log(events, OfSession(e.session))| + 1
    ensures Positions(events + [e])
  {
    var all := events + [e];
    forall i | 0 <= i < |all| ensures NumberedAt(all, i) {
      if i < |events| {
        assert all[..i + 1] == events[..i + 1];
        assert NumberedAt(events, i);
      } else {
        assert all[..i + 1] == all;
        LogAppend(events, e, OfRun(e.run));
        LogAppend(events, e, OfSession(e.session));
      }
    }
  }

  lemma InsertAdvancesNumbers(db: Db, r: Id, kind: EventKind, data: EventData, id: Id)
    requires NextNumbers(db) && r in db.runs && db.runs[r].session in db.sessions
    requires Insert(db, r, kind, data, id).Ok?
    ensures NextNumbers(Insert(db, r, kind, data, id).value)
  {
    var d := Insert(db, r, kind, data, id).value;
    var e := d.events[|db.events|];
    forall x | x in d.runs ensures d.runs[x].nextEvent == |Log(d.events, OfRun(x))| + 1 {
      LogAppend(db.events, e, OfRun(x));
    }
    forall x | x in d.sessions ensures d.sessions[x].nextEvent == |Log(d.events, OfSession(x))| + 1 {
      LogAppend(db.events, e, OfSession(x));
    }
  }

  /** UNIQUE(scope_id,run_id,seq) and UNIQUE(scope_id,session_id,session_seq) never fire: the next
      numbers of a run and of its session are above every number they have given out. */
  lemma NextNumbersAreFree(db: Db, r: Id, i: nat)
    requires Numbered(db) && r in db.runs && db.runs[r].session in db.sessions && i < |db.events|
    ensures db.events[i].run == r ==> db.events[i].eventSeq < db.runs[r].nextEvent
    ensures db.events[i].session == db.runs[r].session ==>
              db.events[i].sessionSeq < db.sessions[db.runs[r].session].nextEvent
  {
    hide EventRows;
    assert NumberedAt(db.events, i);
    LogPrefix(db.events, i + 1, OfRun(r));
    LogPrefix(db.events, i + 1, OfSession(db.runs[r].session));
  }

  lemma {:induction false} LogPrefix(events: seq<Event>, n: nat, sel: Selector)
    requires n <= |events|
    ensures Log(events[..n], sel) <= Log(events, sel)
  {
    if n == |events| {
      assert events[..n] == events;
    } else {
      var init := events[..|events| - 1];
      assert init[..n] == events[..n];
      LogPrefix(init, n, sel);
    }
  }

  /** A log lists its events under the numbers 1, 2, 3, ... */
  lemma {:induction false} LogIsNumbered(events: seq<Event>, sel: Selector)
    requires forall i :: 0 <= i < |events| ==> NumberedAt(events, i)
    ensures forall k :: 0 <= k < |Log(events, sel)| ==>
              Number(sel, Log(events, sel)[k]) == k + 1 && Selects(sel, Log(events, sel)[k])
  {
    if events != [] {
      var init := events[..|events| - 1];
      forall i | 0 <= i < |init| ensures NumberedAt(init, i) {
        assert NumberedAt(events, i);
        assert init[..i + 1] == events[..i + 1];
      }
      LogIsNumbered(init, sel);
      assert NumberedAt(events, |events| - 1);
      assert events[..|events|] == events;
    }
  }

  /** A log holds exactly the selected rows of the table. */
  lemma {:induction false} LogMembers(events: seq<Event>, sel: Selector)
    ensures forall e :: e in Log(events, sel) <==> e in events && Selects(sel, e)
  {
    if events != [] {
      LogMembers(events[..|events| - 1], sel);
      assert events == events[..|events| - 1] + [events[|events| - 1]];
    }
  }

  /** The two orders agree on the events of one run. */
  lemma OrdersAgree(db: Db, i: nat, j: nat)
    requires Numbered(db) && i < |db.events| && j < |db.events| && db.events[i].run == db.events[j].run
    ensures db.events[i].eventSeq < db.events[j].eventSeq <==> db.events[i].sessionSeq < db.events[j].sessionSeq
    ensures i < j ==> db.events[i].eventSeq < db.events[j].eventSeq
  {
    if i < j { EarlierNumbers(db, i, j); }
    if j < i { EarlierNumbers(db, j, i); }
  }

  lemma EarlierNumbers(db: Db, i: nat, j: nat)
    requires Numbered(db) && i < j < |db.events| && db.events[i].run == db.events[j].run
    ensures db.events[i].eventSeq < db.events[j].eventSeq
    ensures db.events[i].sessionSeq < db.events[j].sessionSeq
  {
    hide NextNumbers;
    var before, upto := db.events[..j], db.events[..j + 1];
    assert NumberedAt(db.events, i) && NumberedAt(db.events, j);
    assert upto == before + [db.events[j]];
    assert before[..i + 1] == db.events[..i + 1];
    LogAppend(before, db.events[j], OfRun(db.events[j].run));
    LogAppend(before, db.events[j], OfSession(db.events[j].session));
    LogPrefix(before, i + 1, OfRun(db.events[j].run));
    LogPrefix(before, i + 1, OfSession(db.events[j].session));
  }

  // ----- Replay -----

  function Replay(log: seq<Event>): Reading {
    if log == [] then Unborn
    else
      var e := log[|log| - 1];
      var before := Replay(log[..|log| - 1]);
      if Lifecycle(e.kind) then Observe(before, e.kind, e.data) else before
  }

  function LifecycleCount(log: seq<Event>): nat {
    if log == [] then 0
    else LifecycleCount(log[..|log| - 1]) + if Lifecycle(log[|log| - 1].kind) then 1 else 0
  }

  /** A replayable log of n + 1 lifecycle events has seen n transitions. */
  lemma {:induction false} ReplayCounts(log: seq<Event>)
    ensures Replay(log).Known? ==> LifecycleCount(log) == Replay(log).life.steps + 1
    ensures Replay(log).Unborn? ==> LifecycleCount(log) == 0
  {
    if log != [] {
      ReplayCounts(log[..|log| - 1]);
    }
  }

  function LifeOf(run: Run): Life { Life(run.status, run.outcome, run.version) }

  predicate Agrees(db: Db, r: Id)
    requires r in db.runs
  {
    Replay(Log(db.events, OfRun(r))) == Known(LifeOf(db.runs[r]))
  }

  /** The event log alone determines every run's status, outcome and version. */
  ghost predicate LogAgrees(db: Db) {
    forall r :: r in db.runs ==> Agrees(db, r)
  }

  lemma ReplayAppend(log: seq<Event>, e: Event)
    ensures Replay(log + [e]) == if Lifecycle(e.kind) then Observe(Replay(log), e.kind, e.data) else Replay(log)
  {
    assert (log + [e])[..|log|] == log;
  }

  /** What one inserted event does to the replay of every run. */
  lemma InsertReplays(db: Db, r: Id, kind: EventKind, data: EventData, id: Id, q: Id)
    requires r in db.runs && db.runs[r].session in db.sessions
    requires Insert(db, r, kind, data, id).Ok?
    ensures var d := Insert(db, r, kind, data, id).value;
      var before := Replay(Log(db.events, OfRun(q)));
      Replay(Log(d.events, OfRun(q))) ==
        if q == r && Lifecycle(kind) then Observe(before, kind, data) else before
  {
    var d := Insert(db, r, kind, data, id).value;
    var e := d.events[|db.events|];
    LogAppend(db.events, e, OfRun(q));
    ReplayAppend(Log(db.events, OfRun(q)), e);
    assert Log(db.events, OfRun(q)) + [] == Log(db.events, OfRun(q));
  }
}
