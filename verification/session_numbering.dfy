/** Numbering the events of a session: what the store keeps, and how the migrations to schema version 4
    establish it for events that had no session_seq. */
module SessionNumbering {
  import opened Outcomes
  import opened StateMachine
  import opened Bindings
  import opened RunTables
  import opened EventLog
  import opened EventPaging
  import opened RunInvariants
  import opened RunHistories

  /** The numbers of the items are exactly 1, ..., next - 1, each given once. */
  ghost predicate Dense<T(!new)>(items: set<T>, number: T -> nat, next: nat) {
    && (forall e :: e in items ==> 1 <= number(e) < next)
    && (forall a, b :: a in items && b in items && a != b ==> number(a) != number(b))
    && (forall n {:trigger Given(items, number, n)} :: 1 <= n < next ==> Given(items, number, n))
  }

  ghost predicate Given<T(!new)>(items: set<T>, number: T -> nat, n: nat) {
    exists e :: e in items && number(e) == n
  }

  /** A list of the items in which item k has number k + 1 shows that they are dense. */
  lemma ListedIsDense<T(!new)>(items: set<T>, number: T -> nat, list: seq<T>)
    requires forall e :: e in items <==> e in list
    requires forall k :: 0 <= k < |list| ==> number(list[k]) == k + 1
    ensures Dense(items, number, |list| + 1)
  {
    forall n | 1 <= n < |list| + 1 ensures Given(items, number, n) {
      assert list[n - 1] in items && number(list[n - 1]) == n;
    }
    forall e | e in items ensures exists k :: 0 <= k < |list| && list[k] == e { assert e in list; }
  }

  // ----- What the store keeps -----

  function Rows(events: seq<Event>, sel: Selector): set<Event> {
    set e | e in events && Selects(sel, e)
  }

  lemma LogIsDense(events: seq<Event>, sel: Selector)
    requires Positions(events)
    ensures Dense(Rows(events, sel), e => Number(sel, e), |Log(events, sel)| + 1)
  {
    LogIsConsecutive(events, sel);
    LogMembers(events, sel);
    ListedIsDense(Rows(events, sel), e => Number(sel, e), Log(events, sel));
  }

  /** In every consistent state, run events carry exactly 1, ..., next_event_seq - 1 of their run, and
      exactly 1, ..., next_event_seq - 1 of their session. */
  lemma StoreIsDense(db: Db, r: Id)
    requires Numbered(db) && r in db.runs && db.runs[r].session in db.sessions
    ensures Dense(Rows(db.events, OfRun(r)), e => Number(OfRun(r), e), db.runs[r].nextEvent)
    ensures var sel := OfSession(db.runs[r].session);
      Dense(Rows(db.events, sel), e => Number(sel, e), db.sessions[db.runs[r].session].nextEvent)
  {
    LogIsDense(db.events, OfRun(r));
    LogIsDense(db.events, OfSession(db.runs[r].session));
  }

  /** So after any history. */
  lemma HistoryIsDense(steps: seq<Step>, r: Id)
    requires r in Exec(steps).runs
    ensures Dense(Rows(Exec(steps).events, OfRun(r)), e => Number(OfRun(r), e), Exec(steps).runs[r].nextEvent)
    ensures var s := Exec(steps).runs[r].session;
      && s in Exec(steps).sessions
      && Dense(Rows(Exec(steps).events, OfSession(s)), e => Number(OfSession(s), e), Exec(steps).sessions[s].nextEvent)
  {
    hide Numbered, Dense;
    assert Holds(Exec(steps), References) && Holds(Exec(steps), EventNumbers);
    var db := Exec(steps);
    hide Pointers, Epochs, Keys, Checks, Numbered, Dense;
    StoreIsDense(db, r);
  }

  // ----- The migrations -----

  /** An event before the migration; (scope, session, run_seq, seq) identifies it. */
  datatype Old = Old(session: Id, runSeq: nat, eventSeq: nat)

  /** ORDER BY run_seq, seq */
  predicate Precedes(a: Old, b: Old) {
    a.runSeq < b.runSeq || (a.runSeq == b.runSeq && a.eventSeq < b.eventSeq)
  }

  function Partition(rows: set<Old>, s: Id): set<Old> {
    set e | e in rows && e.session == s
  }

  /** The partition of a session, in window order. */
  ghost predicate Windowed(rows: set<Old>, s: Id, order: seq<Old>) {
    && (forall e :: e in order <==> e in Partition(rows, s))
    && (forall i, j :: 0 <= i < j < |order| ==> Precedes(order[i], order[j]))
  }

  /** Version 2 or 3 to 4: COUNT(*) of the events of the session that do not come after. */
  function CountForm(rows: set<Old>, e: Old): nat {
    |set p | p in rows && p.session == e.session
             && (p.runSeq < e.runSeq || (p.runSeq == e.runSeq && p.eventSeq <= e.eventSeq))|
  }

  lemma {:induction false} SizeOfDistinct(order: seq<Old>, items: set<Old>)
    requires forall e :: e in order <==> e in items
    requires forall i, j :: 0 <= i < j < |order| ==> order[i] != order[j]
    ensures |items| == |order|
  {
    if order == [] {
      assert items == {};
    } else {
      var init, last := order[..|order| - 1], order[|order| - 1];
      forall e ensures e in init <==> e in items - {last} {
        assert e in order <==> e in init || e == last by { assert order == init + [last]; }
        if e in init { var i :| 0 <= i < |init| && init[i] == e; assert order[i] == e; }
      }
      SizeOfDistinct(init, items - {last});
    }
  }

  /** Version 1 to 4: ROW_NUMBER() in the window is the same number as the count. */
  lemma WindowEqualsCount(rows: set<Old>, s: Id, order: seq<Old>, k: nat)
    requires Windowed(rows, s, order) && k < |order|
    ensures CountForm(rows, order[k]) == k + 1
  {
    var e, upto := order[k], order[..k + 1];
    var prior := set p | p in rows && p.session == e.session
                         && (p.runSeq < e.runSeq || (p.runSeq == e.runSeq && p.eventSeq <= e.eventSeq));
    assert e in order && e.session == s;
    forall p ensures p in upto <==> p in prior {
      if p in upto {
        var i :| 0 <= i < |upto| && upto[i] == p;
        assert order[i] == p && p in order;
      }
      if p in prior {
        assert p in Partition(rows, s) && p in order;
        var i :| 0 <= i < |order| && order[i] == p;
        assert upto[..k + 1] == upto && (i <= k ==> upto[i] == p);
      }
    }
    SizeOfDistinct(upto, prior);
  }

  /** A session's events can be put in window order, in one way only. */
  lemma {:induction false} WindowExists(rows: set<Old>, s: Id) returns (order: seq<Old>)
    ensures Windowed(rows, s, order)
    decreases |Partition(rows, s)|
  {
    var part := Partition(rows, s);
    if part == {} {
      order := [];
    } else {
      var last := Latest(part);
      assert Partition(rows - {last}, s) == part - {last};
      var init := WindowExists(rows - {last}, s);
      order := init + [last];
      forall i, j | 0 <= i < j < |order| ensures Precedes(order[i], order[j]) {
        if j == |init| { assert init[i] in init; }
      }
    }
  }

  lemma {:induction false} Latest(part: set<Old>) returns (last: Old)
    requires part != {} && forall a, b :: a in part && b in part ==> a.session == b.session
    ensures last in part && forall e :: e in part && e != last ==> Precedes(e, last)
    decreases part
  {
    var x :| x in part;
    var rest := part - {x};
    if rest == {} {
      last := x;
      forall e | e in part ensures e == last { assert e !in rest; }
    } else {
      var y := Latest(rest);
      last := if Precedes(x, y) then y else x;
      forall e | e in part && e != last ensures Precedes(e, last) { assert e == x || e in rest; }
    }
  }

  /** Either migration leaves the events of a session numbered densely, with the session's next number
      one more than their count, in the order of runs and of events in a run. */
  lemma MigrationIsDense(rows: set<Old>, s: Id)
    ensures Dense(Partition(rows, s), e => CountForm(rows, e), 1 + |Partition(rows, s)|)
    ensures forall a, b :: a in Partition(rows, s) && b in Partition(rows, s) ==>
              (CountForm(rows, a) < CountForm(rows, b) <==> Precedes(a, b))
  {
    var order := WindowExists(rows, s);
    ListNumbered(rows, s, order);
    WindowedIsDense(rows, s, order);
    hide CountForm, Partition, Dense, Precedes;
    forall x, y | x in Partition(rows, s) && y in Partition(rows, s)
      ensures CountForm(rows, x) < CountForm(rows, y) <==> Precedes(x, y)
    {
      NumbersFollowOrder(rows, s, order, x, y);
    }
  }

  ghost predicate ListedNumbers(rows: set<Old>, order: seq<Old>) {
    forall k :: 0 <= k < |order| ==> CountForm(rows, order[k]) == k + 1
  }

  lemma ListNumbered(rows: set<Old>, s: Id, order: seq<Old>)
    requires Windowed(rows, s, order)
    ensures ListedNumbers(rows, order)
  {
    hide CountForm, Windowed;
    forall k | 0 <= k < |order| ensures CountForm(rows, order[k]) == k + 1 { WindowEqualsCount(rows, s, order, k); }
  }

  lemma WindowedIsDense(rows: set<Old>, s: Id, order: seq<Old>)
    requires Windowed(rows, s, order) && ListedNumbers(rows, order)
    ensures Dense(Partition(rows, s), e => CountForm(rows, e), 1 + |Partition(rows, s)|)
  {
    hide CountForm, Partition, Dense;
    SizeOfDistinct(order, Partition(rows, s));
    ListedIsDense(Partition(rows, s), e => CountForm(rows, e), order);
  }

  lemma NumbersFollowOrder(rows: set<Old>, s: Id, order: seq<Old>, x: Old, y: Old)
    requires Windowed(rows, s, order) && ListedNumbers(rows, order)
    requires x in Partition(rows, s) && y in Partition(rows, s)
    ensures CountForm(rows, x) < CountForm(rows, y) <==> Precedes(x, y)
  {
    hide CountForm, Partition;
    assert x in order && y in order;
    var i :| 0 <= i < |order| && order[i] == x;
    var j :| 0 <= j < |order| && order[j] == y;
    assert i < j ==> Precedes(order[i], order[j]);
    assert j < i ==> Precedes(order[j], order[i]);
  }

  // ----- Version 1 to 4, row by row -----

  /** What identifies an event of a version 1 database: the keys of its run and of itself. */
  function OldOf(db: Db, e: Event): Old
    requires e.run in db.runs
  {
    Old(db.runs[e.run].session, db.runs[e.run].runSeq, e.eventSeq)
  }

  function OldRows(db: Db): set<Old>
    requires EventRows(db)
  {
    set i | 0 <= i < |db.events| :: OldOf(db, db.events[i])
  }

  /** The rows of version 4, given those of version 1 as a Db of whose columns only the ones that
      version 1 had are read.  The epoch of a workspace starts at 0, and an attempt's epoch in its
      session becomes its epoch in the workspace as well. */
  ghost function Migrated(db: Db): Db
    requires Refs(db) && EventRows(db)
  {
    db.(
      workspaces := map w | w in db.workspaces ::
        db.workspaces[w].(columns := None, active := None, epoch := 0, leaseUntil := None),
      sessions := map s | s in db.sessions ::
        db.sessions[s].(nextEvent := 1 + |Partition(OldRows(db), s)|),
      runs := map r | r in db.runs ::
        db.runs[r].(workspace := db.sessions[db.runs[r].session].workspace),
      attempts := map a | a in db.attempts ::
        db.attempts[a].(workspace := db.sessions[db.attempts[a].session].workspace,
                        workspaceEpoch := db.attempts[a].epoch),
      events := seq(|db.events|, i requires 0 <= i < |db.events| => Renumbered(db, db.events[i])))
  }

  ghost function Renumbered(db: Db, e: Event): Event
    requires EventRows(db) && e in db.events
  {
    e.(session := db.runs[e.run].session, sessionSeq := CountForm(OldRows(db), OldOf(db, e)))
  }

  /** Two attempts of one workspace that were the k-th of their sessions. */
  ghost predicate SharesEpoch(db: Db)
    requires Refs(db)
  {
    exists a, b :: a in db.attempts && b in db.attempts && a != b && db.attempts[a].epoch == db.attempts[b].epoch
                   && db.attempts[a].workspace == db.attempts[b].workspace
  }

  /** UNIQUE(scope_id,workspace_id,workspace_epoch) refuses such a database as a whole. */
  ghost function Migrate(db: Db): Outcome<Db>
    requires Refs(db) && EventRows(db)
  {
    if SharesEpoch(db) then Err(Integrity) else Ok(Migrated(db))
  }

  /** UNIQUE(scope_id,run_id,seq) */
  ghost predicate EventKeys(db: Db) {
    forall e, f :: e in db.events && f in db.events && e.run == f.run && e.eventSeq == f.eventSeq ==> e == f
  }

  lemma OldIdentifies(db: Db, e: Event, f: Event)
    requires EventRows(db) && Keys(db) && EventKeys(db) && e in db.events && f in db.events
    requires OldOf(db, e) == OldOf(db, f)
    ensures e == f
  {
    assert e.run == f.run || Separate(db.runs[e.run], db.runs[f.run]);
  }

  function SessionNumber(e: Event): nat { e.sessionSeq }

  /** Every session of a migrated database has its events numbered densely up to next_event_seq. */
  lemma MigratedIsDense(db: Db, s: Id)
    requires Refs(db) && EventRows(db) && Keys(db) && EventKeys(db) && s in db.sessions
    ensures Dense(Rows(Migrated(db).events, OfSession(s)), SessionNumber, Migrated(db).sessions[s].nextEvent)
  {
    var d, rows, part := Migrated(db), OldRows(db), Partition(OldRows(db), s);
    var items, next := Rows(d.events, OfSession(s)), d.sessions[s].nextEvent;
    MigrationIsDense(rows, s);
    forall e | e in items ensures MigratedFrom(db, s, e) { SourceOf(db, s, e); }
    forall e, f | e in items && f in items && e != f ensures e.sessionSeq != f.sessionSeq {
      DifferentNumbers(db, s, e, f);
    }
    forall n | 1 <= n < next ensures Given(items, SessionNumber, n) {
      assert Given(part, o => CountForm(rows, o), n);
      var o :| o in part && CountForm(rows, o) == n;
      NumberedEvent(db, s, o);
    }
  }

  /** A migrated event of session s comes from an event of s, and its number is in range. */
  ghost predicate MigratedFrom(db: Db, s: Id, e: Event)
    requires Refs(db) && EventRows(db) && s in db.sessions
  {
    && 1 <= e.sessionSeq < Migrated(db).sessions[s].nextEvent
    && exists f :: f in db.events && e == Renumbered(db, f) && OldOf(db, f) in Partition(OldRows(db), s)
  }

  lemma SourceOf(db: Db, s: Id, e: Event)
    requires Refs(db) && EventRows(db) && s in db.sessions && e in Rows(Migrated(db).events, OfSession(s))
    ensures MigratedFrom(db, s, e)
  {
    hide CountForm, Partition, Dense, Renumbered;
    var f := WhereFrom(db, e);
    RenumberedRow(db, f);
    InPartition(db, s, f);
    NumberInRange(db, s, OldOf(db, f));
  }

  lemma WhereFrom(db: Db, e: Event) returns (f: Event)
    requires Refs(db) && EventRows(db) && e in Migrated(db).events
    ensures f in db.events && e == Renumbered(db, f)
  {
    hide Renumbered;
    var i :| 0 <= i < |db.events| && Migrated(db).events[i] == e;
    f := db.events[i];
  }

  lemma RenumberedRow(db: Db, f: Event)
    requires EventRows(db) && f in db.events
    ensures Renumbered(db, f).session == OldOf(db, f).session
    ensures Renumbered(db, f).sessionSeq == CountForm(OldRows(db), OldOf(db, f))
  {
  }

  lemma InPartition(db: Db, s: Id, f: Event)
    requires EventRows(db) && f in db.events && OldOf(db, f).session == s
    ensures OldOf(db, f) in Partition(OldRows(db), s)
  {
  }

  lemma NumberInRange(db: Db, s: Id, o: Old)
    requires Refs(db) && EventRows(db) && s in db.sessions && o in Partition(OldRows(db), s)
    ensures 1 <= CountForm(OldRows(db), o) < Migrated(db).sessions[s].nextEvent
  {
    MigrationIsDense(OldRows(db), s);
    hide CountForm, Partition, OldRows;
  }

  lemma DifferentNumbers(db: Db, s: Id, e: Event, f: Event)
    requires Refs(db) && EventRows(db) && Keys(db) && EventKeys(db) && s in db.sessions
    requires MigratedFrom(db, s, e) && MigratedFrom(db, s, f) && e != f
    ensures e.sessionSeq != f.sessionSeq
  {
    var x :| x in db.events && e == Renumbered(db, x) && OldOf(db, x) in Partition(OldRows(db), s);
    var y :| y in db.events && f == Renumbered(db, y) && OldOf(db, y) in Partition(OldRows(db), s);
    MigrationIsDense(OldRows(db), s);
    if OldOf(db, x) == OldOf(db, y) { OldIdentifies(db, x, y); }
  }

  lemma NumberedEvent(db: Db, s: Id, o: Old)
    requires Refs(db) && EventRows(db) && s in db.sessions && o in Partition(OldRows(db), s)
    ensures exists e :: e in Rows(Migrated(db).events, OfSession(s)) && e.sessionSeq == CountForm(OldRows(db), o)
  {
    var d := Migrated(db);
    var i :| 0 <= i < |db.events| && OldOf(db, db.events[i]) == o;
    assert d.events[i] == Renumbered(db, db.events[i]) && d.events[i] in d.events;
    assert d.events[i] in Rows(d.events, OfSession(s));
  }

  /** The epoch invariant comes through the migration exactly when there is nothing to migrate: the first
      attempt of all is above the epoch of its workspace. */
  lemma MigratedEpochs(db: Db)
    requires Refs(db) && EventRows(db)
    ensures Epochs(Migrated(db)) <==> db.attempts == map[]
  {
    var d := Migrated(db);
    if db.attempts != map[] {
      var a :| a in db.attempts;
      assert a in d.attempts && d.attempts[a].workspaceEpoch == d.attempts[a].epoch;
      assert d.attempts[a].workspace in d.workspaces ==> d.workspaces[d.attempts[a].workspace].epoch == 0;
    }
  }

  /** Epochs of a session's attempts, as version 1 already kept them. */
  ghost predicate SessionEpochs(db: Db) {
    forall a :: a in db.attempts ==>
      db.attempts[a].session in db.sessions && 1 <= db.attempts[a].epoch <= db.sessions[db.attempts[a].session].epoch
  }

  /** Some session of workspace w had its first run claimed. */
  ghost predicate FirstClaimed(db: Db, w: Id) {
    exists a :: a in db.attempts && db.attempts[a].workspace == w && db.attempts[a].epoch == 1
  }

  predicate RunsIn(db: Db, r: Id, w: Id) {
    && r in db.runs && HasSession(db, db.runs[r].scope, db.runs[r].session)
    && db.sessions[db.runs[r].session].workspace == w
  }

  /** In a migrated database a claim in workspace w is stopped by its epochs exactly when a first run was
      claimed there before the migration: the next epoch of w is 1, and an attempt has it.  No such
      claim ever succeeds, and it leaves the epoch as it is. */
  lemma MigratedWorkspaceIsStuck(db: Db, w: Id, r: Id, a: Id, id: Id, now: Time, until: Time)
    requires Refs(db) && EventRows(db) && SessionEpochs(db) && RunsIn(Migrated(db), r, w)
    ensures FirstClaimed(Migrated(db), w) ==> Claim(Migrated(db), r, a, id, now, until) == Err(Integrity)
    ensures a !in db.attempts && !EventIdTaken(Migrated(db).events, id) ==>
              (Claim(Migrated(db), r, a, id, now, until).Err? <==> FirstClaimed(Migrated(db), w))
  {
    MigratedEpochTaken(db, w, r);
    MigratedRows(db, w, r);
    hide Migrated, FirstClaimed, EpochTaken, Insert;
    InsertFails(Migrated(db), r, a, id, now, until);
  }

  lemma MigratedRows(db: Db, w: Id, r: Id)
    requires Refs(db) && EventRows(db) && RunsIn(Migrated(db), r, w)
    ensures w in Migrated(db).workspaces && Migrated(db).workspaces[w].epoch == 0
    ensures Migrated(db).attempts.Keys == db.attempts.Keys
  {
  }

  lemma InsertFails(d: Db, r: Id, a: Id, id: Id, now: Time, until: Time)
    requires r in d.runs && HasSession(d, d.runs[r].scope, d.runs[r].session)
    ensures Insert(Lease(d, r, a, now, until), r, RunStarted, NO_DATA, id).Err? <==> EventIdTaken(d.events, id)
  {
  }

  lemma MigratedEpochTaken(db: Db, w: Id, r: Id)
    requires Refs(db) && EventRows(db) && SessionEpochs(db) && RunsIn(Migrated(db), r, w)
    ensures var d := Migrated(db);
      EpochTaken(d, d.runs[r].session, d.sessions[d.runs[r].session].epoch + 1, w, 1) <==> FirstClaimed(d, w)
  {
    var d := Migrated(db);
    var s := d.runs[r].session;
    MigratedAttempts(db, s);
    hide Migrated;
    if FirstClaimed(d, w) {
      var b :| b in d.attempts && d.attempts[b].workspace == w && d.attempts[b].epoch == 1;
      assert d.attempts[b].workspaceEpoch == 1;
    }
  }

  lemma MigratedAttempts(db: Db, s: Id)
    requires Refs(db) && EventRows(db) && SessionEpochs(db) && s in db.sessions
    ensures var d := Migrated(db);
      && s in d.sessions
      && (forall b :: b in d.attempts ==> d.attempts[b].workspaceEpoch == d.attempts[b].epoch)
      && (forall b :: b in d.attempts && d.attempts[b].session == s ==> d.attempts[b].epoch <= d.sessions[s].epoch)
  {
  }

  // ----- And for ever -----

  /** The next epoch of workspace w is 1, and an attempt has it. */
  ghost predicate Stuck(d: Db, w: Id) {
    && w in d.workspaces && d.workspaces[w].epoch == 0
    && exists a :: AttemptOne(d, w, a)
  }

  predicate AttemptOne(d: Db, w: Id, a: Id) {
    a in d.attempts && d.attempts[a].workspace == w && d.attempts[a].workspaceEpoch == 1
  }

  lemma StuckClaimFails(d: Db, w: Id, r: Id, a: Id, id: Id, now: Time, until: Time)
    requires Stuck(d, w) && RunsIn(d, r, w)
    ensures Claim(d, r, a, id, now, until) == Err(Integrity)
  {
    var b :| AttemptOne(d, w, b);
  }

  /** No claim of a run in workspace w succeeds, whoever makes it and whenever. */
  ghost predicate NoClaimSucceeds(d: Db, w: Id) {
    forall r, a, id, now, until :: RunsIn(d, r, w) ==> Claim(d, r, a, id, now, until) == Err(Integrity)
  }

  lemma StuckClaimsFail(d: Db, w: Id)
    requires Stuck(d, w)
    ensures NoClaimSucceeds(d, w)
  {
    hide Stuck;
    forall r, a, id, now, until | RunsIn(d, r, w) ensures Claim(d, r, a, id, now, until) == Err(Integrity) {
      StuckClaimFails(d, w, r, a, id, now, until);
    }
  }

  /** A transaction that commits, on any tables whose foreign keys resolve. */
  ghost predicate Does(d: Db, step: Step, e: Db) {
    match step
    case Create(scope, binding, s, w) => CreateSession(d, scope, binding, s, w) == Ok(e)
    case Submit(q, r, id, now) => Accept(d, q, r, id, now).Ok? && Accept(d, q, r, id, now).value.0 == e
    case ClaimNext(only, r, a, id, now, until) => Claimable(d, only, now, r) && Claim(d, r, a, id, now, until) == Ok(e)
    case Transit(m, id, now) => Rooted(d, m.run) && TransitionRun(d, m, id, now) == Ok(e)
    case Resume(y, id) => Rooted(d, y.run) && Respond(d, y, id) == Ok(e)
    case Commit(scope, p, now) => Publish(d, scope, p, now) == Ok(e)
    case Record(scope, r, kind, data, id) => Rooted(d, r) && Append(d, scope, r, kind, data, id) == Ok(e)
    case Question(r, p) => Ask(d, r, p) == Ok(e)
  }

  /** Attempts keep their epochs, and workspaces theirs, except the workspace of a claim. */
  ghost predicate EpochsStay(d: Db, e: Db, w: Id) {
    && (forall a :: AttemptOne(d, w, a) ==> AttemptOne(e, w, a))
    && (w in d.workspaces ==> w in e.workspaces && e.workspaces[w].epoch == d.workspaces[w].epoch)
  }

  lemma StepStays(d: Db, step: Step, e: Db, w: Id)
    requires Does(d, step, e) && Stuck(d, w)
    ensures EpochsStay(d, e, w)
  {
    hide EventIdTaken, EarlierQueued, Stuck, Busy, BindingCheck, HasKey;
    match step
    case Create(scope, binding, s, x) => CreateStays(d, scope, binding, s, x, w);
    case ClaimNext(only, r, a, id, now, until) => ClaimStays(d, step, e, w);
    case Transit(m, id, now) => TransitStays(d, m, id, now, w);
    case Resume(y, id) => RespondStays(d, y, id, w);
    case _ =>
  }

  lemma CreateStays(d: Db, scope: string, binding: Option<UserBinding>, s: Id, x: Id, w: Id)
    requires CreateSession(d, scope, binding, s, x).Ok?
    ensures EpochsStay(d, CreateSession(d, scope, binding, s, x).value, w)
  {
  }

  lemma ClaimStays(d: Db, step: Step, e: Db, w: Id)
    requires step.ClaimNext? && Does(d, step, e) && Stuck(d, w)
    ensures EpochsStay(d, e, w)
  {
    hide EventIdTaken, EarlierQueued, Stuck;
    if RunsIn(d, step.run, w) { StuckClaimFails(d, w, step.run, step.attempt, step.event, step.now, step.until); }
  }

  lemma TransitStays(d: Db, m: Move, id: Id, now: Time, w: Id)
    requires Rooted(d, m.run) && TransitionRun(d, m, id, now).Ok?
    ensures EpochsStay(d, TransitionRun(d, m, id, now).value, w)
  {
    hide EventIdTaken, StateMachine.Transition;
  }

  lemma RespondStays(d: Db, y: Reply, id: Id, w: Id)
    requires Rooted(d, y.run) && Respond(d, y, id).Ok?
    ensures EpochsStay(d, Respond(d, y, id).value, w)
  {
    hide EventIdTaken, ReplyKeyTaken, StateMachine.Transition;
  }

  /** Whatever commits after the migration, in any number of transactions, a workspace in which a first
      run was claimed before it stays as it is, and no claim in it succeeds. */
  lemma StuckForEver(db: Db, w: Id, states: seq<Db>, steps: seq<Step>)
    requires Refs(db) && EventRows(db) && w in db.workspaces && FirstClaimed(Migrated(db), w)
    requires |states| == |steps| + 1 && states[0] == Migrated(db)
    requires forall i :: 0 <= i < |steps| ==> Does(states[i], steps[i], states[i + 1])
    ensures NoClaimSucceeds(states[|steps|], w)
  {
    hide Does, Migrated, EpochsStay, FirstClaimed, NoClaimSucceeds, Refs, EventRows;
    MigratedIsStuck(db, w);
    for i := 0 to |steps|
      invariant Stuck(states[i], w)
    {
      hide Stuck;
      StepStays(states[i], steps[i], states[i + 1], w);
      StaysStuck(states[i], states[i + 1], w);
    }
    StuckClaimsFail(states[|steps|], w);
  }

  lemma StaysStuck(d: Db, e: Db, w: Id)
    requires Stuck(d, w) && EpochsStay(d, e, w)
    ensures Stuck(e, w)
  {
    var a :| AttemptOne(d, w, a);
    assert AttemptOne(e, w, a);
  }

  lemma MigratedIsStuck(db: Db, w: Id)
    requires Refs(db) && EventRows(db) && w in db.workspaces && FirstClaimed(Migrated(db), w)
    ensures Stuck(Migrated(db), w)
  {
    var d := Migrated(db);
    var a :| a in d.attempts && d.attempts[a].workspace == w && d.attempts[a].epoch == 1;
    assert AttemptOne(d, w, a);
  }
}
