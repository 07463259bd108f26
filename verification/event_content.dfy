/** The event rows and the JSONL logs together: a transaction appends the record of each event before it
    inserts the row that points at it, and leaves the bytes it wrote behind when it rolls back or dies. */
module EventContent {
  import opened Outcomes
  import opened Utf8
  import opened RunTables
  import opened EventLog
  import opened RunInvariants
  import opened RunHistories
  import opened ContentLog

  /** Where the records of a session go, what they are, and how they are digested. */
  datatype Layout = Layout(limit: nat, dir: Id -> string, text: Event -> Bytes, digest: Bytes -> Id)

  /** The columns data_ref, data_offset, data_bytes and data_digest of an event row. */
  datatype Location = Location(ref: Ref, digest: Id)

  datatype Files = Files(disk: Disk, locations: map<Id, Location>)

  ghost function Applied(disk: Disk, limit: nat, writes: seq<Write>): Disk {
    if writes == [] then disk else Apply(Applied(disk, limit, writes[..|writes| - 1]), limit, writes[|writes| - 1])
  }

  /** The record of one event is appended, and its row will point there. */
  ghost function AppendOne(f: Files, l: Layout, e: Event): Files {
    var ref := Place(f.disk, l.limit, l.dir(e.session), l.text(e));
    Files(Extend(f.disk, ref.path, Line(l.text(e))), f.locations[e.id := Location(ref, l.digest(l.text(e)))])
  }

  ghost function AppendAll(f: Files, l: Layout, events: seq<Event>): Files {
    if events == [] then f else AppendOne(AppendAll(f, l, events[..|events| - 1]), l, events[|events| - 1])
  }

  // ----- Histories of both -----

  /** A transaction that commits, with what else it wrote before its event; or anything else that leaves
      bytes: a transaction that rolls back, one that dies in the middle of an append, another writer. */
  datatype Action = Commit(step: Step, others: seq<Write>) | Leave(writes: seq<Write>)

  datatype Store = Store(db: Db, files: Files)

  ghost function Next(s: Store, l: Layout, action: Action): (d: Store)
    requires Base(s.db)
    ensures Base(d.db)
  {
    match action
    case Commit(step, others) =>
      if Effect(s.db, step).Ok? then
        var db := RunHistories.Next(s.db, step);
        Store(db, AppendAll(s.files.(disk := Applied(s.files.disk, l.limit, others)), l, Added(s.db, db)))
      else s
    case Leave(writes) => s.(files := s.files.(disk := Applied(s.files.disk, l.limit, writes)))
  }

  function Added(before: Db, db: Db): seq<Event> {
    if |before.events| <= |db.events| then db.events[|before.events|..] else []
  }

  ghost function Run(l: Layout, actions: seq<Action>): (s: Store)
    ensures Base(s.db)
  {
    if actions == [] then
      EmptyIsBase();
      Store(EMPTY, Files(map[], map[]))
    else Next(Run(l, actions[..|actions| - 1]), l, actions[|actions| - 1])
  }

  // ----- The invariant -----

  /** The row of an event leads to its record, which has the digest of the row. */
  predicate Readable(f: Files, l: Layout, e: Event) {
    && e.id in f.locations
    && ReadVerified(l.digest, f.disk, f.locations[e.id].ref, Some(f.locations[e.id].digest)) == Some(l.text(e))
  }

  function End(ref: Ref): nat { ref.offset + ref.bytes }

  /** Of two events whose records are in one file, the one inserted first comes first, and they share no byte. */
  predicate Apart(f: Files, a: Event, b: Event) {
    && a.id in f.locations && b.id in f.locations
    && (f.locations[a.id].ref.path == f.locations[b.id].ref.path ==>
          End(f.locations[a.id].ref) <= f.locations[b.id].ref.offset)
  }

  ghost predicate AllReadable(f: Files, l: Layout, events: seq<Event>) {
    && (forall i :: 0 <= i < |events| ==> Readable(f, l, events[i]))
    && (forall i, j :: 0 <= i < j < |events| ==> Apart(f, events[i], events[j]))
  }

  lemma {:induction false} AppliedGrows(disk: Disk, limit: nat, writes: seq<Write>)
    ensures Grown(disk, Applied(disk, limit, writes))
  {
    if writes != [] {
      AppliedGrows(disk, limit, writes[..|writes| - 1]);
      ApplyGrows(Applied(disk, limit, writes[..|writes| - 1]), limit, writes[|writes| - 1]);
    }
  }

  lemma StaysReadable(f: Files, g: Files, l: Layout, e: Event)
    requires Readable(f, l, e) && Grown(f.disk, g.disk) && e.id in g.locations && g.locations[e.id] == f.locations[e.id]
    ensures Readable(g, l, e)
  {
    hide Grown, ReadRecord;
    ReadsOn(f.disk, g.disk, f.locations[e.id].ref);
  }

  /** Growing files, and nothing else. */
  lemma AllStayReadable(f: Files, disk: Disk, l: Layout, events: seq<Event>)
    requires AllReadable(f, l, events) && Grown(f.disk, disk)
    ensures AllReadable(f.(disk := disk), l, events)
  {
    hide Grown, Readable, Apart;
    forall i | 0 <= i < |events| ensures Readable(f.(disk := disk), l, events[i]) {
      assert events[i].id in f.locations by { Located(f, l, events[i]); }
      StaysReadable(f, f.(disk := disk), l, events[i]);
    }
    forall i, j | 0 <= i < j < |events| ensures Apart(f.(disk := disk), events[i], events[j]) {
      SameLocations(f, disk, events[i], events[j]);
    }
  }

  lemma Located(f: Files, l: Layout, e: Event)
    requires Readable(f, l, e)
    ensures e.id in f.locations && f.locations[e.id].ref.path in f.disk
    ensures End(f.locations[e.id].ref) <= |f.disk[f.locations[e.id].ref.path]|
  {
  }

  lemma SameLocations(f: Files, disk: Disk, a: Event, b: Event)
    requires Apart(f, a, b)
    ensures Apart(f.(disk := disk), a, b)
  {
  }

  /** One more event, under an identifier that no other has. */
  lemma OneMore(f: Files, l: Layout, events: seq<Event>, e: Event)
    requires AllReadable(f, l, events) && forall i :: 0 <= i < |events| ==> events[i].id != e.id
    ensures AllReadable(AppendOne(f, l, e), l, events + [e])
  {
    var g, more := AppendOne(f, l, e), events + [e];
    hide Readable, Apart, Place;
    forall i | 0 <= i < |more| ensures Readable(g, l, more[i]) {
      if i == |events| { NewIsReadable(f, l, e); } else { OldIsReadable(f, l, more[i], e); }
    }
    forall i, j | 0 <= i < j < |more| ensures Apart(g, more[i], more[j]) {
      if j == |events| { NewIsApart(f, l, more[i], e); } else { OldIsApart(f, l, more[i], more[j], e); }
    }
  }

  lemma NewIsReadable(f: Files, l: Layout, e: Event)
    ensures Readable(AppendOne(f, l, e), l, e)
  {
    hide NextFile, ReadRecord;
    JustWritten(f.disk, Place(f.disk, l.limit, l.dir(e.session), l.text(e)).path, l.text(e));
  }

  lemma OldIsReadable(f: Files, l: Layout, a: Event, e: Event)
    requires Readable(f, l, a) && a.id != e.id
    ensures Readable(AppendOne(f, l, e), l, a)
  {
    var g := AppendOne(f, l, e);
    hide ReadRecord, NextFile;
    ApplyGrows(f.disk, l.limit, Append(l.dir(e.session), l.text(e)));
    hide Grown;
    StaysReadable(f, g, l, a);
  }

  lemma NewIsApart(f: Files, l: Layout, a: Event, e: Event)
    requires Readable(f, l, a) && a.id != e.id
    ensures Apart(AppendOne(f, l, e), a, e)
  {
    Located(f, l, a);
    hide Readable, NextFile;
  }

  lemma OldIsApart(f: Files, l: Layout, a: Event, b: Event, e: Event)
    requires Apart(f, a, b) && a.id != e.id && b.id != e.id
    ensures Apart(AppendOne(f, l, e), a, b)
  {
    hide Place;
  }

  lemma {:induction false} AppendsRead(f: Files, l: Layout, events: seq<Event>, more: seq<Event>)
    requires AllReadable(f, l, events) && DistinctIds(events + more)
    ensures AllReadable(AppendAll(f, l, more), l, events + more)
  {
    if more == [] {
      assert events + more == events;
    } else {
      var init, e := more[..|more| - 1], more[|more| - 1];
      assert events + more == events + init + [e];
      forall i | 0 <= i < |events + init| ensures (events + init)[i].id != e.id {
        assert (events + more)[i] == (events + init)[i] && (events + more)[|events + init|] == e;
      }
      assert forall i :: 0 <= i < |events + init| ==> (events + more)[i] == (events + init)[i];
      hide AllReadable, AppendOne;
      AppendsRead(f, l, events, init);
      OneMore(AppendAll(f, l, init), l, events + init, e);
    }
  }

  lemma NextReads(s: Store, l: Layout, action: Action)
    requires Base(s.db) && AllReadable(s.files, l, s.db.events)
    ensures AllReadable(Next(s, l, action).files, l, Next(s, l, action).db.events)
  {
    hide AllReadable, Applied, AppendAll, Effect, Refs, Pointers, Epochs, Keys, Checks, Grown, RunHistories.Next;
    match action
    case Leave(writes) =>
      AppliedGrows(s.files.disk, l.limit, writes);
      AllStayReadable(s.files, Applied(s.files.disk, l.limit, writes), l, s.db.events);
    case Commit(step, others) =>
      if Effect(s.db, step).Ok? {
        var db := RunHistories.Next(s.db, step);
        NextExtends(s.db, step);
        assert Holds(db, EventNumbers);
        assert db.events == s.db.events + Added(s.db, db);
        var disk := Applied(s.files.disk, l.limit, others);
        AppliedGrows(s.files.disk, l.limit, others);
        AllStayReadable(s.files, disk, l, s.db.events);
        AppendsRead(s.files.(disk := disk), l, s.db.events, Added(s.db, db));
      }
  }

  lemma {:induction false} RunReads(l: Layout, actions: seq<Action>)
    ensures AllReadable(Run(l, actions).files, l, Run(l, actions).db.events)
  {
    if actions != [] {
      RunReads(l, actions[..|actions| - 1]);
      hide Next, AllReadable;
      NextReads(Run(l, actions[..|actions| - 1]), l, actions[|actions| - 1]);
    }
  }

  /** After any history of committed, rolled back and torn transactions, every event row reads back the
      record of its event, with the digest that is stored in the row; and no two rows share a byte. */
  lemma EventsReadBack(l: Layout, actions: seq<Action>)
    ensures var s := Run(l, actions);
      && (forall i :: 0 <= i < |s.db.events| ==> Readable(s.files, l, s.db.events[i]))
      && (forall i, j :: 0 <= i < j < |s.db.events| ==> Apart(s.files, s.db.events[i], s.db.events[j]))
  {
    RunReads(l, actions);
    hide Run, Readable, Apart;
  }

  // ----- The tables are those of a history -----

  /** The transactions that committed. */
  function Committed(actions: seq<Action>): seq<Step> {
    if actions == [] then []
    else
      var last := actions[|actions| - 1];
      Committed(actions[..|actions| - 1]) + if last.Commit? then [last.step] else []
  }

  /** What holds of every history of the tables holds of these. */
  lemma {:induction false} TablesAreHistory(l: Layout, actions: seq<Action>)
    ensures Run(l, actions).db == Exec(Committed(actions))
  {
    if actions != [] {
      var init, last := actions[..|actions| - 1], actions[|actions| - 1];
      TablesAreHistory(l, init);
      hide Base, AppendAll;
      if last.Commit? {
        assert Committed(actions)[..|Committed(actions)| - 1] == Committed(init);
      } else {
        assert Committed(actions) == Committed(init);
      }
    }
  }
}
