/** The query budgets of ImpalaTools: a query is charged to three budget files before it is dispatched,
    and settled after it.  Any number of queries are in flight at once, and every sequence of file writes
    can be cut short, by an error that the process survives or by its death. */
module ImpalaBudget {
  import opened Outcomes
  import opened Utf8
  import opened ImpalaJson
  import opened ImpalaResult
  import opened ImpalaBooks

  // ----- Any number of queries -----

  /** How a sequence of file writes is cut short after some of them: by an error, or by the process's death. */
  datatype Fault = NoFault | Raises(after: nat) | Dies(after: nat)

  function Writes(f: Fault, all: nat): (n: nat)
    ensures n <= all
  {
    if f == NoFault || f.after >= all then all else f.after
  }

  /** A query between its reservation and its settlement. */
  datatype Flight = Flight(ref: Id, scope: string, rows: nat, bytes: nat)

  /** The adapter's files and memory, and beside them what there is to know of its queries: where each
      was charged, which are in flight, which were dispatched, and which were lost to a fault. */
  datatype World = World(
    books: Books, records: set<Id>, active: map<Id, (string, string)>, stopping: bool,
    placements: map<nat, Placement>, flights: map<nat, Flight>, dispatched: set<nat>, lost: set<nat>, tickets: nat)

  const EMPTY := World(Books(map[], map[]), {}, map[], false, map[], map[], {}, {}, 0)

  datatype Asking = Asking(scope: string, run: Id, hour: int, ref: Id, rows: nat)

  /** The sections of the code that run under the adapter's lock, sending a query, and the process. */
  datatype Step =
    | Reserve(asking: Asking, fault: Fault)
    | Dispatch(ticket: nat)
    | Settle(ticket: nat, count: nat, size: nat, fault: Fault)
    | Stop
    | Restart

  function OfScope(active: map<Id, (string, string)>, scope: string): set<Id> {
    set r | r in active && active[r].0 == scope
  }

  function OfDepartment(active: map<Id, (string, string)>, department: string): set<Id> {
    set r | r in active && active[r].1 == department
  }

  /** The checks of _reserve, in order. */
  ghost function Refusal(w: World, p: Policies, a: Asking): Option<ErrorCode> {
    var q := QuotasOf(p, a.scope);
    if w.stopping then Some(CapabilityDenied)
    else if a.ref in w.records then Some(StateConflict)
    else if |OfScope(w.active, a.scope)| >= q.userConcurrency
            || |OfDepartment(w.active, p.departmentOf(a.scope))| >= q.departmentConcurrency then Some(CapabilityDenied)
    else if !AllAffordable(w.books.files, p, PathsOf(p, a.scope, a.run, a.hour), a.rows, q.maxBytes) then Some(CapabilityDenied)
    else None
  }

  /** Files stay, memory does not: whatever was in flight is lost. */
  function Restarted(w: World): World {
    w.(active := map[], stopping := false, flights := map[], lost := w.lost + w.flights.Keys)
  }

  /** The four writes of _reserve, or as many as were made: three budget files and the query's record. */
  function Written(w: World, p: Policies, a: Asking, n: nat): World
    requires n <= 4
  {
    w.(books := ChargeFirst(w.books, PathsOf(p, a.scope, a.run, a.hour), if n == 4 then 3 else n,
                            NewCharge(w.tickets, a.rows, QuotasOf(p, a.scope).maxBytes)),
       records := if n == 4 then w.records + {a.ref} else w.records)
  }

  /** What is remembered of the query afterwards. */
  function Remembered(w: World, p: Policies, a: Asking, places: Placement, fault: Fault): World {
    var t := w.tickets;
    match fault
    case NoFault =>
      w.(active := w.active[a.ref := (a.scope, p.departmentOf(a.scope))],
         placements := w.placements[t := places],
         flights := w.flights[t := Flight(a.ref, a.scope, a.rows, QuotasOf(p, a.scope).maxBytes)],
         tickets := t + 1)
    case Raises(_) => w.(lost := w.lost + {t}, tickets := t + 1)
    case Dies(_) => Restarted(w.(lost := w.lost + {t}, tickets := t + 1))
  }

  function Reserves(w: World, p: Policies, a: Asking, fault: Fault): World {
    Remembered(Written(w, p, a, Writes(fault, 4)), p, a,
               NextPlaces(w.books.ledger, PathsOf(p, a.scope, a.run, a.hour)), fault)
  }

  /** The end of _execute: three budget files, and the query is no longer active. */
  function Settles(w: World, t: nat, count: nat, size: nat, fault: Fault): World
    requires t in w.flights && t in w.placements
  {
    var f := w.flights[t];
    var d := w.(books := SettleFirst(w.books, w.placements[t], Writes(fault, 3), f.rows, f.bytes, count, size),
                active := w.active - {f.ref},
                flights := w.flights - {t});
    match fault
    case NoFault => d
    case Raises(_) => d.(lost := w.lost + {t})
    case Dies(_) => Restarted(d.(lost := w.lost + {t}))
  }

  /** A step that cannot be taken changes nothing: a result has at most the rows that were asked for, and
      its encoding at most max_bytes. */
  ghost function Next(w: World, p: Policies, step: Step): World {
    match step
    case Reserve(a, fault) => if Refusal(w, p, a).Some? then w else Reserves(w, p, a, fault)
    case Dispatch(t) => if t in w.flights then w.(dispatched := w.dispatched + {t}) else w
    case Settle(t, count, size, fault) =>
      if t in w.flights && t in w.placements && count <= w.flights[t].rows && size <= w.flights[t].bytes then
        Settles(w, t, count, size, fault)
      else w
    case Stop => w.(stopping := true)
    case Restart => Restarted(w)
  }

  /** Any interleaving, from nothing. */
  ghost function Run(p: Policies, steps: seq<Step>): World {
    if steps == [] then EMPTY else Next(Run(p, steps[..|steps| - 1]), p, steps[|steps| - 1])
  }

  // ----- The invariant -----

  ghost predicate AllPlaced(w: World) {
    && (forall t :: t in w.placements ==> t < w.tickets && Placed(w.books.ledger, t, w.placements[t]))
    && w.dispatched <= w.placements.Keys
  }

  /** A query in flight holds its full reservation in its three files, and its place among the active. */
  predicate Outstanding(w: World, p: Policies, t: nat)
    requires t in w.flights
  {
    var f := w.flights[t];
    && t in w.placements && f.ref in w.active && w.active[f.ref] == (f.scope, p.departmentOf(f.scope))
    && forall i :: 0 <= i < 3 ==> Open(w.books.ledger, w.placements[t][i], f.rows, f.bytes)
  }

  ghost predicate AllOutstanding(w: World, p: Policies) {
    && (forall t {:trigger Outstanding(w, p, t)} :: t in w.flights ==> Outstanding(w, p, t))
    && (forall t, u :: t in w.flights && u in w.flights && w.flights[t].ref == w.flights[u].ref ==> t == u)
    && w.active.Keys <= w.records
  }

  /** An open reservation is that of a query in flight, or of one that was lost. */
  ghost predicate Accounted(w: World) {
    forall k, i :: k in w.books.ledger && 0 <= i < |w.books.ledger[k]| && !w.books.ledger[k][i].settled ==>
      var t := w.books.ledger[k][i].ticket;
      t < w.tickets && (t in w.lost || (t in w.flights && t in w.placements && Place(k, i) in w.placements[t]))
  }

  ghost predicate Within(w: World, p: Policies) {
    && (forall s :: |OfScope(w.active, s)| <= QuotasOf(p, s).userConcurrency)
    && (forall d :: |OfDepartment(w.active, d)| <= p.quotas(d).departmentConcurrency)
  }

  ghost predicate Inv(w: World, p: Policies) {
    Balanced(w.books, p) && AllPlaced(w) && AllOutstanding(w, p) && Accounted(w) && Within(w, p)
  }

  // ----- Kept by every step -----

  lemma PlacementsStay(w: World, d: World, any: nat)
    requires AllPlaced(w) && OnlyTouches(w.books.ledger, d.books.ledger, any)
    requires d.placements == w.placements && d.dispatched == w.dispatched && d.tickets >= w.tickets
    ensures AllPlaced(d)
  {
    forall t | t in d.placements ensures Placed(d.books.ledger, t, d.placements[t]) {
      hide OnlyTouches, Placed;
      PlacedStays(w.books.ledger, d.books.ledger, any, t, w.placements[t]);
    }
  }

  /** The other queries in flight still are. */
  lemma OutstandingStays(w: World, d: World, p: Policies, any: nat, t: nat)
    requires AllPlaced(w) && OnlyTouches(w.books.ledger, d.books.ledger, any) && t != any
    requires t in w.flights && Outstanding(w, p, t) && t in d.flights && d.flights[t] == w.flights[t]
    requires t in d.placements && d.placements[t] == w.placements[t]
    requires w.flights[t].ref in d.active && d.active[w.flights[t].ref] == w.active[w.flights[t].ref]
    ensures Outstanding(d, p, t)
  {
    hide OnlyTouches, Open;
    var x, f := w.placements[t], w.flights[t];
    forall i | 0 <= i < 3 ensures Open(d.books.ledger, x[i], f.rows, f.bytes) {
      assert Placed(w.books.ledger, t, x);
      OpenStays(w.books.ledger, d.books.ledger, any, x[i], f.rows, f.bytes);
    }
  }

  lemma RestartKeeps(w: World, p: Policies)
    requires Balanced(w.books, p) && AllPlaced(w) && Accounted(w)
    ensures Inv(Restarted(w), p)
  {
    hide Balanced, Placed;
    var d := Restarted(w);
    forall s ensures OfScope(d.active, s) == {} && OfDepartment(d.active, s) == {} {}
  }

  /** The steps that charge files for a new ticket, before its query is in flight. */
  lemma ChargedStays(w: World, d: World, p: Policies, paths: Paths, n: nat, c: Charge)
    requires Accounted(w) && ThreeKinds(paths) && n <= 3 && c.ticket == w.tickets && d.tickets == w.tickets + 1
    requires d.books == ChargeFirst(w.books, paths, n, c) && w.lost <= d.lost
    requires forall t :: t in w.flights && t in w.placements ==>
               t in d.flights && t in d.placements && d.placements[t] == w.placements[t]
    requires c.ticket in d.lost
             || (c.ticket in d.flights && c.ticket in d.placements && d.placements[c.ticket] == NextPlaces(w.books.ledger, paths))
    ensures Accounted(d)
  {
    hide ChargeFirst, NextPlaces, ThreeKinds;
    forall k, i | k in d.books.ledger && 0 <= i < |d.books.ledger[k]| && !d.books.ledger[k][i].settled
      ensures var t := d.books.ledger[k][i].ticket;
        t < d.tickets && (t in d.lost || (t in d.flights && t in d.placements && Place(k, i) in d.placements[t]))
    {
      OnlyNewPlaces(w.books, paths, n, c, k, i);
    }
  }

  /** A reservation that a fault cuts short, while the process lives. */
  lemma PartialKeeps(w: World, d: World, p: Policies, a: Asking, n: nat)
    requires Inv(w, p) && Refusal(w, p, a).None? && n <= 3
    requires var q := QuotasOf(p, a.scope);
      d.books == ChargeFirst(w.books, PathsOf(p, a.scope, a.run, a.hour), n, NewCharge(w.tickets, a.rows, q.maxBytes))
    requires d == w.(books := d.books, records := d.records, lost := w.lost + {w.tickets}, tickets := w.tickets + 1)
    requires w.records <= d.records
    ensures Inv(d, p)
  {
    var paths, q := PathsOf(p, a.scope, a.run, a.hour), QuotasOf(p, a.scope);
    hide Balanced, Placed, Outstanding, AllAffordable;
    ChargesKeepBalance(w.books, p, paths, n, w.tickets, a.rows, q.maxBytes);
    hide OnlyTouches, ChargeFirst, AllPlaced, Accounted;
    PlacementsStay(w, d, w.tickets);
    ChargedStays(w, d, p, paths, n, NewCharge(w.tickets, a.rows, q.maxBytes));
    forall t | t in d.flights ensures Outstanding(d, p, t) { TicketsAreBelow(w, p, t); OutstandingStays(w, d, p, w.tickets, t); }
  }

  lemma TicketsAreBelow(w: World, p: Policies, t: nat)
    requires AllPlaced(w) && AllOutstanding(w, p) && t in w.flights
    ensures t < w.tickets && Outstanding(w, p, t) && t in w.placements && Placed(w.books.ledger, t, w.placements[t])
    ensures w.flights[t].ref in w.active && w.flights[t].ref in w.records
  {
    hide Placed;
    assert Outstanding(w, p, t);
  }

  lemma ScopeGrows(active: map<Id, (string, string)>, ref: Id, scope: string, department: string, x: string)
    requires ref !in active
    ensures |OfScope(active[ref := (scope, department)], x)| == |OfScope(active, x)| + if x == scope then 1 else 0
  {
    var more := OfScope(active[ref := (scope, department)], x);
    if x == scope { assert more == OfScope(active, x) + {ref}; } else { assert more == OfScope(active, x); }
  }

  lemma DepartmentGrows(active: map<Id, (string, string)>, ref: Id, scope: string, department: string, x: string)
    requires ref !in active
    ensures |OfDepartment(active[ref := (scope, department)], x)|
              == |OfDepartment(active, x)| + if x == department then 1 else 0
  {
    var more := OfDepartment(active[ref := (scope, department)], x);
    if x == department { assert more == OfDepartment(active, x) + {ref}; } else { assert more == OfDepartment(active, x); }
  }

  /** One more active query stays within the limits that were checked. */
  lemma OneMoreActive(w: World, d: World, p: Policies, a: Asking)
    requires Within(w, p) && Refusal(w, p, a).None? && a.ref !in w.active
    requires d.active == w.active[a.ref := (a.scope, p.departmentOf(a.scope))]
    ensures Within(d, p)
  {
    hide AllAffordable, OfScope, OfDepartment;
    forall s ensures |OfScope(d.active, s)| <= QuotasOf(p, s).userConcurrency {
      ScopeGrows(w.active, a.ref, a.scope, p.departmentOf(a.scope), s);
    }
    forall s ensures |OfDepartment(d.active, s)| <= p.quotas(s).departmentConcurrency {
      DepartmentGrows(w.active, a.ref, a.scope, p.departmentOf(a.scope), s);
    }
  }

  lemma FewerActive(w: World, d: World, p: Policies, ref: Id)
    requires Within(w, p) && d.active == w.active - {ref}
    ensures Within(d, p)
  {
    forall s ensures |OfScope(d.active, s)| <= QuotasOf(p, s).userConcurrency {
      Smaller(OfScope(d.active, s), OfScope(w.active, s));
    }
    forall s ensures |OfDepartment(d.active, s)| <= p.quotas(s).departmentConcurrency {
      Smaller(OfDepartment(d.active, s), OfDepartment(w.active, s));
    }
  }

  lemma Smaller(a: set<Id>, b: set<Id>)
    requires a <= b
    ensures |a| <= |b|
  {
    assert b == a + (b - a);
  }

  lemma OutstandingNow(w: World, p: Policies, a: Asking)
    ensures Outstanding(Reserves(w, p, a, NoFault), p, w.tickets)
  {
    AllCharged(w.books, PathsOf(p, a.scope, a.run, a.hour), NewCharge(w.tickets, a.rows, QuotasOf(p, a.scope).maxBytes));
    hide Open, ChargeFirst, NextPlaces;
  }

  lemma NewRef(w: World, p: Policies, a: Asking)
    requires AllOutstanding(w, p) && Refusal(w, p, a).None?
    ensures a.ref !in w.records && a.ref !in w.active
    ensures AllAffordable(w.books.files, p, PathsOf(p, a.scope, a.run, a.hour), a.rows, QuotasOf(p, a.scope).maxBytes)
  {
  }

  /** A reservation that is not cut short. */
  lemma ReserveKeeps(w: World, p: Policies, a: Asking)
    requires Inv(w, p) && Refusal(w, p, a).None?
    ensures Inv(Reserves(w, p, a, NoFault), p)
  {
    var paths, q, d := PathsOf(p, a.scope, a.run, a.hour), QuotasOf(p, a.scope), Reserves(w, p, a, NoFault);
    var c := NewCharge(w.tickets, a.rows, q.maxBytes);
    hide Balanced, Placed, Outstanding, AllAffordable, OnlyTouches, ChargeFirst, Accounted, NextPlaces, Within, Refusal,
      Open, AllOutstanding;
    NewRef(w, p, a);
    ChargesKeepBalance(w.books, p, paths, 3, w.tickets, a.rows, q.maxBytes);
    AllCharged(w.books, paths, c);
    OutstandingNow(w, p, a);
    OneMoreActive(w, d, p, a);
    ChargedStays(w, d, p, paths, 3, c);
    PlacementsStay(w, d.(placements := w.placements), w.tickets);
    hide PathsOf;
    NewFlight(w, d, p, a.ref);
  }

  lemma NewFlight(w: World, d: World, p: Policies, ref: Id)
    requires AllPlaced(w) && AllOutstanding(w, p) && OnlyTouches(w.books.ledger, d.books.ledger, w.tickets)
    requires ref !in w.records && d.records == w.records + {ref} && d.active.Keys == w.active.Keys + {ref}
    requires d.flights.Keys == w.flights.Keys + {w.tickets} && d.flights[w.tickets].ref == ref && Outstanding(d, p, w.tickets)
    requires forall t :: t in w.flights && t != w.tickets ==> d.flights[t] == w.flights[t]
    requires forall t :: t in w.placements && t != w.tickets ==> t in d.placements && d.placements[t] == w.placements[t]
    requires forall r :: r in w.active && r != ref ==> d.active[r] == w.active[r]
    ensures AllOutstanding(d, p)
  {
    hide Placed, OnlyTouches;
    forall t | t in w.flights ensures t != w.tickets && w.flights[t].ref != ref && Outstanding(d, p, t) {
      hide Outstanding;
      TicketsAreBelow(w, p, t);
      OutstandingStays(w, d, p, w.tickets, t);
    }
  }

  /** The world after the writes of a settlement, all of them or some. */
  ghost predicate Settling(w: World, d: World, p: Policies, t: nat, n: nat, count: nat, size: nat)
    requires t in w.flights && t in w.placements
  {
    var f := w.flights[t];
    && n <= 3 && count <= f.rows && size <= f.bytes
    && d == w.(books := SettleFirst(w.books, w.placements[t], n, f.rows, f.bytes, count, size),
               active := w.active - {f.ref}, flights := w.flights - {t}, lost := d.lost)
    && w.lost <= d.lost && (n == 3 || t in d.lost)
  }

  lemma ClosingStays(w: World, d: World, p: Policies, t: nat, n: nat, count: nat, size: nat)
    requires Accounted(w) && OnlyTouches(w.books.ledger, d.books.ledger, t)
    requires t in w.flights && t in w.placements && Settling(w, d, p, t, n, count, size)
    requires n == 3 ==> forall i :: 0 <= i < 3 ==> Settled(d.books.ledger, w.placements[t][i], count, size)
    ensures Accounted(d)
  {
    var f, x := w.flights[t], w.placements[t];
    SettleAddsNothing(w.books, x, n, f.rows, f.bytes, count, size);
    hide SettleFirst, OnlyTouches, Settled;
    forall k, i | k in d.books.ledger && 0 <= i < |d.books.ledger[k]| && !d.books.ledger[k][i].settled
      ensures var u := d.books.ledger[k][i].ticket;
        u < d.tickets && (u in d.lost || (u in d.flights && u in d.placements && Place(k, i) in d.placements[u]))
    {
      WasOpen(w.books.ledger, d.books.ledger, t, k, i);
      var u := d.books.ledger[k][i].ticket;
      if n == 3 { ClosedPlaces(d.books.ledger, x, Place(k, i), count, size); }
    }
  }

  lemma SettleKeeps(w: World, d: World, p: Policies, t: nat, n: nat, count: nat, size: nat)
    requires Inv(w, p) && t in w.flights && t in w.placements && Settling(w, d, p, t, n, count, size)
    ensures Inv(d, p)
    ensures forall i :: 0 <= i < n ==> Settled(d.books.ledger, w.placements[t][i], count, size)
    ensures OnlyTouches(w.books.ledger, d.books.ledger, t)
  {
    var f, x := w.flights[t], w.placements[t];
    TicketsAreBelow(w, p, t);
    hide Balanced, Placed, OnlyTouches, Accounted, Within, AllOutstanding, SettleFirst, Settled, Open;
    SettlesKeepBalance(w.books, p, t, x, n, f.rows, f.bytes, count, size);
    FewerActive(w, d, p, f.ref);
    ClosingStays(w, d, p, t, n, count, size);
    PlacementsStay(w, d, t);
    OneFlightLess(w, d, p, t);
  }

  lemma OneFlightLess(w: World, d: World, p: Policies, t: nat)
    requires AllPlaced(w) && AllOutstanding(w, p) && OnlyTouches(w.books.ledger, d.books.ledger, t) && t in w.flights
    requires d.records == w.records && d.active == w.active - {w.flights[t].ref}
    requires d.flights == w.flights - {t} && d.placements == w.placements
    ensures AllOutstanding(d, p)
  {
    hide Placed, OnlyTouches;
    forall u | u in d.flights ensures Outstanding(d, p, u) {
      hide Outstanding;
      TicketsAreBelow(w, p, u);
      OutstandingStays(w, d, p, t, u);
    }
  }

  /** Sending a query, and being told to stop. */
  lemma NoteKeeps(w: World, d: World, p: Policies)
    requires Inv(w, p) && d == w.(dispatched := d.dispatched, stopping := d.stopping)
    requires forall t :: t in d.dispatched && t !in w.dispatched ==> t in w.flights
    ensures Inv(d, p)
  {
    hide Balanced, Placed, Open, Accounted, Within;
    forall t | t in d.flights ensures Outstanding(d, p, t) { assert Outstanding(w, p, t); }
    assert Accounted(d) && Within(d, p) by { SameBooks(w, d, p); }
  }

  lemma SameBooks(w: World, d: World, p: Policies)
    requires d == w.(dispatched := d.dispatched, stopping := d.stopping)
    ensures (Accounted(w) ==> Accounted(d)) && (Within(w, p) ==> Within(d, p))
  {
  }

  lemma ReserveStepKeeps(w: World, p: Policies, a: Asking, fault: Fault)
    requires Inv(w, p) && Refusal(w, p, a).None?
    ensures Inv(Reserves(w, p, a, fault), p)
  {
    hide Inv, Refusal, ChargeFirst;
    if fault == NoFault {
      ReserveKeeps(w, p, a);
    } else {
      var q, n := QuotasOf(p, a.scope), Writes(fault, 4);
      var m := if n == 4 then 3 else n;
      var d := w.(books := ChargeFirst(w.books, PathsOf(p, a.scope, a.run, a.hour), m, NewCharge(w.tickets, a.rows, q.maxBytes)),
                  records := if n == 4 then w.records + {a.ref} else w.records,
                  lost := w.lost + {w.tickets}, tickets := w.tickets + 1);
      PartialKeeps(w, d, p, a, m);
      if fault.Dies? {
        RestartsToo(d, p);
      }
    }
  }

  lemma RestartsToo(w: World, p: Policies)
    requires Inv(w, p)
    ensures Inv(Restarted(w), p)
  {
    hide Balanced, AllPlaced, Accounted;
    RestartKeeps(w, p);
  }

  lemma SettleStepKeeps(w: World, p: Policies, t: nat, count: nat, size: nat, fault: Fault)
    requires Inv(w, p) && t in w.flights && t in w.placements
    requires count <= w.flights[t].rows && size <= w.flights[t].bytes
    ensures Inv(Settles(w, t, count, size, fault), p)
  {
    hide Inv, SettleFirst;
    var d := Settles(w, t, count, size, NoFault).(
      books := SettleFirst(w.books, w.placements[t], Writes(fault, 3), w.flights[t].rows, w.flights[t].bytes, count, size),
      lost := if fault == NoFault then w.lost else w.lost + {t});
    SettleKeeps(w, d, p, t, Writes(fault, 3), count, size);
    if fault.Dies? { RestartsToo(d, p); }
  }

  /** Every step, whatever its arguments and its faults. */
  lemma NextKeeps(w: World, p: Policies, step: Step)
    requires Inv(w, p)
    ensures Inv(Next(w, p, step), p)
  {
    hide Inv, Reserves, Settles, Refusal;
    match step
    case Reserve(a, fault) => if Refusal(w, p, a).None? { ReserveStepKeeps(w, p, a, fault); }
    case Dispatch(_) => NoteKeeps(w, Next(w, p, step), p);
    case Settle(t, count, size, fault) =>
      if t in w.flights && t in w.placements && count <= w.flights[t].rows && size <= w.flights[t].bytes {
        SettleStepKeeps(w, p, t, count, size, fault);
      }
    case Stop => NoteKeeps(w, Next(w, p, step), p);
    case Restart => RestartsToo(w, p);
  }

  lemma {:induction false} RunKeeps(p: Policies, steps: seq<Step>)
    ensures Inv(Run(p, steps), p)
  {
    if steps == [] {
      assert OfScope(map[], "") == {};
      forall s ensures OfScope(EMPTY.active, s) == {} && OfDepartment(EMPTY.active, s) == {} {}
    } else {
      RunKeeps(p, steps[..|steps| - 1]);
      NextKeeps(Run(p, steps[..|steps| - 1]), p, steps[|steps| - 1]);
    }
  }

  // ----- What every interleaving keeps -----

  /** In every state every file holds exactly what settled queries used plus what all others reserved,
      never negative and never above its limits, with any number of queries in flight and whatever was
      cut short. */
  lemma BudgetsAreConserved(p: Policies, steps: seq<Step>, k: Key)
    requires k in Run(p, steps).books.files
    ensures var b, limits := Run(p, steps).books, LimitsOf(p, k);
      && k in b.ledger
      && b.files[k].queries == |b.ledger[k]| <= limits.queries
      && 0 <= b.files[k].rows == UsedRows(b.ledger[k]) + ReservedRows(b.ledger[k]) <= limits.rows
      && 0 <= b.files[k].bytes == UsedBytes(b.ledger[k]) + ReservedBytes(b.ledger[k]) <= limits.bytes
  {
    RunKeeps(p, steps);
    var b := Run(p, steps).books;
    hide Run;
    assert Booked(b.files[k], b.ledger[k], LimitsOf(p, k));
    TotalsSplit(b.ledger[k]);
  }

  /** Every query that was ever sent stands in its three files; while it is in flight they hold its full
      reservation. */
  lemma DispatchedIsCharged(p: Policies, steps: seq<Step>, t: nat)
    requires t in Run(p, steps).dispatched
    ensures var w := Run(p, steps);
      && t in w.placements && Placed(w.books.ledger, t, w.placements[t])
      && (t in w.flights ==>
            forall i :: 0 <= i < 3 ==> Open(w.books.ledger, w.placements[t][i], w.flights[t].rows, w.flights[t].bytes))
  {
    RunKeeps(p, steps);
    var w := Run(p, steps);
    hide Run, Balanced, Placed, Open, Accounted, Within;
    if t in w.flights { assert Outstanding(w, p, t); }
  }

  /** The queries of a scope in flight. */
  function InFlight(w: World, scope: string): set<nat> {
    set t | t in w.flights && w.flights[t].scope == scope
  }

  function InFlightFor(w: World, p: Policies, department: string): set<nat> {
    set t | t in w.flights && p.departmentOf(w.flights[t].scope) == department
  }

  lemma {:induction false} OneRefEach(flights: map<nat, Flight>, ts: set<nat>, refs: set<Id>)
    requires ts <= flights.Keys && forall t :: t in ts ==> flights[t].ref in refs
    requires forall t, u :: t in ts && u in ts && flights[t].ref == flights[u].ref ==> t == u
    ensures |ts| <= |refs|
    decreases ts
  {
    if ts != {} {
      var t :| t in ts;
      OneRefEach(flights, ts - {t}, refs - {flights[t].ref});
    }
  }

  /** No more queries of a user or of a department are ever in flight than its policy allows. */
  lemma ConcurrencyIsBounded(p: Policies, steps: seq<Step>, scope: string, department: string)
    ensures |InFlight(Run(p, steps), scope)| <= QuotasOf(p, scope).userConcurrency
    ensures |InFlightFor(Run(p, steps), p, department)| <= p.quotas(department).departmentConcurrency
  {
    RunKeeps(p, steps);
    var w := Run(p, steps);
    hide Run, Balanced, AllPlaced, Accounted, Open;
    forall t | t in w.flights ensures Outstanding(w, p, t) {}
    OneRefEach(w.flights, InFlight(w, scope), OfScope(w.active, scope));
    OneRefEach(w.flights, InFlightFor(w, p, department), OfDepartment(w.active, department));
  }

  lemma ReservationTouches(w: World, p: Policies, a: Asking, fault: Fault)
    requires Inv(w, p) && Refusal(w, p, a).None?
    ensures OnlyTouches(w.books.ledger, Reserves(w, p, a, fault).books.ledger, w.tickets)
  {
    hide Balanced, OnlyTouches, AllPlaced, Accounted, Within, AllAffordable, ChargeFirst, NextPlaces;
    NewRef(w, p, a);
    hide AllOutstanding, Refusal;
    var n, q := Writes(fault, 4), QuotasOf(p, a.scope);
    ChargesKeepBalance(w.books, p, PathsOf(p, a.scope, a.run, a.hour), if n == 4 then 3 else n, w.tickets, a.rows, q.maxBytes);
  }

  lemma SettlementTouches(w: World, p: Policies, t: nat, count: nat, size: nat, fault: Fault)
    requires Inv(w, p) && t in w.flights && t in w.placements
    requires count <= w.flights[t].rows && size <= w.flights[t].bytes
    ensures OnlyTouches(w.books.ledger, Settles(w, t, count, size, fault).books.ledger, t)
    ensures fault == NoFault ==>
              forall i :: 0 <= i < 3 ==> Settled(Settles(w, t, count, size, fault).books.ledger, w.placements[t][i], count, size)
  {
    TicketsAreBelow(w, p, t);
    hide Balanced, Placed, OnlyTouches, Accounted, Within, AllOutstanding, SettleFirst, Settled, Open;
    SettlesKeepBalance(w.books, p, t, w.placements[t], Writes(fault, 3), w.flights[t].rows, w.flights[t].bytes, count, size);
  }

  /** No step takes back a settlement. */
  lemma NextKeepsSettled(w: World, p: Policies, step: Step, x: Place, count: nat, size: nat)
    requires Inv(w, p) && Settled(w.books.ledger, x, count, size)
    ensures Settled(Next(w, p, step).books.ledger, x, count, size)
  {
    hide Inv, OnlyTouches, Settled, Refusal, Reserves, Settles;
    var d := Next(w, p, step);
    match step
    case Reserve(a, fault) =>
      if Refusal(w, p, a).None? {
        ReservationTouches(w, p, a, fault);
        SettledStaysAt(w.books.ledger, d.books.ledger, w.tickets, x, count, size);
      }
    case Settle(t, c, z, fault) =>
      if t in w.flights && t in w.placements && c <= w.flights[t].rows && z <= w.flights[t].bytes {
        SettlementTouches(w, p, t, c, z, fault);
        SettledStaysAt(w.books.ledger, d.books.ledger, t, x, count, size);
      }
    case _ =>
  }

  lemma RunStep(p: Policies, steps: seq<Step>, n: nat)
    requires n < |steps|
    ensures Run(p, steps[..n + 1]) == Next(Run(p, steps[..n]), p, steps[n])
  {
    hide Next;
    assert steps[..n + 1][..n] == steps[..n];
  }

  lemma {:induction false} SettledStays(p: Policies, steps: seq<Step>, n: nat, x: Place, count: nat, size: nat)
    requires n <= |steps| && Settled(Run(p, steps[..n]).books.ledger, x, count, size)
    ensures Settled(Run(p, steps).books.ledger, x, count, size)
  {
    hide Inv, Settled, Next;
    if n == |steps| {
      assert steps[..n] == steps;
    } else {
      var init := steps[..|steps| - 1];
      assert init[..n] == steps[..n];
      SettledStays(p, init, n, x, count, size);
      RunKeeps(p, init);
      NextKeepsSettled(Run(p, init), p, steps[|init|], x, count, size);
    }
  }

  /** Once a query is settled its three files hold what it used, for ever. */
  lemma SettlementIsFinal(p: Policies, steps: seq<Step>, n: nat, t: nat, count: nat, size: nat)
    requires n < |steps| && steps[n] == Settle(t, count, size, NoFault)
    requires var w := Run(p, steps[..n]);
      t in w.flights && t in w.placements && count <= w.flights[t].rows && size <= w.flights[t].bytes
    ensures forall i :: 0 <= i < 3 ==>
              Settled(Run(p, steps).books.ledger, Run(p, steps[..n]).placements[t][i], count, size)
  {
    hide Run, Inv, Settled, Settles;
    var w := Run(p, steps[..n]);
    RunStep(p, steps, n);
    RunKeeps(p, steps[..n]);
    SettlementTouches(w, p, t, count, size, NoFault);
    forall i | 0 <= i < 3 ensures Settled(Run(p, steps).books.ledger, w.placements[t][i], count, size) {
      SettledStays(p, steps, n + 1, w.placements[t][i], count, size);
    }
  }

  /** A step that no fault cuts short. */
  predicate Clean(step: Step) {
    match step
    case Reserve(_, fault) => fault == NoFault
    case Settle(_, _, _, fault) => fault == NoFault
    case Restart => false
    case _ => true
  }

  lemma {:induction false} NoneLost(p: Policies, steps: seq<Step>)
    requires forall i :: 0 <= i < |steps| ==> Clean(steps[i])
    ensures Run(p, steps).lost == {}
  {
    hide ChargeFirst, SettleFirst, Refusal;
    if steps != [] { NoneLost(p, steps[..|steps| - 1]); }
  }

  lemma NoneOpen(w: World, p: Policies, k: Key)
    requires AllOutstanding(w, p) && Accounted(w) && w.lost == {} && w.active == map[] && k in w.books.ledger
    ensures forall i :: 0 <= i < |w.books.ledger[k]| ==> w.books.ledger[k][i].settled
  {
    hide Open;
    assert forall t :: t in w.flights ==> Outstanding(w, p, t);
    assert w.flights.Keys == {};
  }

  /** Nothing leaks: after steps that no fault cut short, with no query active, every file holds exactly
      what the queries charged to it have used. */
  lemma NothingLeaks(p: Policies, steps: seq<Step>, k: Key)
    requires forall i :: 0 <= i < |steps| ==> Clean(steps[i])
    requires Run(p, steps).active == map[] && k in Run(p, steps).books.files
    ensures var b := Run(p, steps).books;
      && k in b.ledger
      && b.files[k] == Budget(|b.ledger[k]|, UsedRows(b.ledger[k]), UsedBytes(b.ledger[k]))
      && forall i :: 0 <= i < |b.ledger[k]| ==> b.ledger[k][i].settled
  {
    NoneLost(p, steps);
    BudgetsAreConserved(p, steps, k);
    RunKeeps(p, steps);
    var w := Run(p, steps);
    hide Run, Balanced, AllPlaced, Within, AllOutstanding, Accounted;
    NoneOpen(w, p, k);
    NothingReserved(w.books.ledger[k]);
  }

  // ----- The adapter as it is written -----

  datatype Reserving = Denied(error: ErrorCode) | Aborted | Died | Reserved(paths: Paths)

  function Ending(paths: Paths, fault: Fault): Reserving {
    match fault
    case NoFault => Reserved(paths)
    case Raises(_) => Aborted
    case Dies(_) => Died
  }

  class ImpalaTools {
    const policies: Policies
    var files: map<Key, Budget>
    var records: set<Id>
    var active: map<Id, (string, string)>
    var stopping: bool
    ghost var ledger: map<Key, seq<Charge>>
    ghost var placements: map<nat, Placement>
    ghost var flights: map<nat, Flight>
    ghost var dispatched: set<nat>
    ghost var lost: set<nat>
    ghost var tickets: nat

    ghost function State(): World
      reads this
    {
      World(Books(files, ledger), records, active, stopping, placements, flights, dispatched, lost, tickets)
    }

    ghost predicate Valid()
      reads this
    {
      Inv(State(), policies)
    }

    constructor (policies: Policies)
      ensures State() == EMPTY && Valid() && this.policies == policies
    {
      this.policies := policies;
      files, records, active, stopping := map[], {}, map[], false;
      ledger, placements, flights, dispatched, lost, tickets := map[], map[], map[], {}, {}, 0;
      new;
      RunKeeps(policies, []);
    }

    method Stop()
      requires Valid()
      modifies `stopping
      ensures Valid() && State() == Next(old(State()), policies, Step.Stop)
    {
      hide Inv;
      NextKeeps(State(), policies, Step.Stop);
      stopping := true;
    }

    /** The process starts again. */
    method Restart()
      requires Valid()
      modifies `active, `stopping, `flights, `lost
      ensures Valid() && State() == Next(old(State()), policies, Step.Restart)
    {
      hide Inv;
      NextKeeps(State(), policies, Step.Restart);
      active, stopping, flights, lost := map[], false, map[], lost + flights.Keys;
    }

    /** The reading half of _reserve: every budget is checked and raised before any is written. */
    method RaiseBudgets(paths: Paths, rows: nat, bytes: nat) returns (budgets: seq<Budget>)
      ensures |budgets| == 3 <==> AllAffordable(files, policies, paths, rows, bytes)
      ensures |budgets| == 3 ==> forall i :: 0 <= i < 3 ==> budgets[i] == Raised(Held(files, paths[i]), rows, bytes)
    {
      hide Held, LimitsOf, Affordable;
      budgets := [];
      for i := 0 to 3
        invariant |budgets| == i
        invariant forall j :: 0 <= j < i ==> Affordable(Held(files, paths[j]), rows, bytes, LimitsOf(policies, paths[j]))
        invariant forall j :: 0 <= j < i ==> budgets[j] == Raised(Held(files, paths[j]), rows, bytes)
      {
        var budget := Held(files, paths[i]);
        if !Affordable(budget, rows, bytes, LimitsOf(policies, paths[i])) { return []; }
        budgets := budgets + [Raised(budget, rows, bytes)];
      }
    }

    /** The writing half: the first n of three atomic_json(path, budget). */
    method WriteBudgets(paths: Paths, budgets: seq<Budget>, n: nat, ghost c: Charge)
      requires ThreeKinds(paths) && n <= 3 && |budgets| == 3
      requires forall i :: 0 <= i < 3 ==> budgets[i] == Raised(Held(files, paths[i]), c.rows, c.bytes)
      modifies `files, `ledger
      ensures Books(files, ledger) == ChargeFirst(old(Books(files, ledger)), paths, n, c)
    {
      hide Held, Charges;
      ghost var before := Books(files, ledger);
      for i := 0 to n
        invariant Books(files, ledger) == ChargeFirst(before, paths, i, c)
      {
        LaterFilesStay(before, paths, i, c, i);
        files := files[paths[i] := budgets[i]];
        ledger := ledger[paths[i] := Charges(ledger, paths[i]) + [c]];
      }
    }

    /** The writes of _reserve. */
    method Write(a: Asking, paths: Paths, budgets: seq<Budget>, n: nat)
      requires paths == PathsOf(policies, a.scope, a.run, a.hour) && |budgets| == 3 && n <= 4
      requires forall i :: 0 <= i < 3 ==> budgets[i] == Raised(Held(files, paths[i]), a.rows, QuotasOf(policies, a.scope).maxBytes)
      modifies `files, `ledger, `records
      ensures State() == Written(old(State()), policies, a, n)
    {
      hide ChargeFirst, PathsOf, Held, Raised, ThreeKinds, QuotasOf;
      KindsOf(policies, a);
      WriteBudgets(paths, budgets, if n == 4 then 3 else n, NewCharge(tickets, a.rows, QuotasOf(policies, a.scope).maxBytes));
      if n == 4 { records := records + {a.ref}; }
    }

    /** And its end. */
    method Remember(a: Asking, fault: Fault, ghost places: Placement)
      modifies `active, `stopping, `placements, `flights, `lost, `tickets
      ensures State() == Remembered(old(State()), policies, a, places, fault)
    {
      match fault {
        case NoFault =>
          active := active[a.ref := (a.scope, policies.departmentOf(a.scope))];
          placements := placements[tickets := places];
          flights := flights[tickets := Flight(a.ref, a.scope, a.rows, QuotasOf(policies, a.scope).maxBytes)];
        case Raises(_) =>
          lost := lost + {tickets};
        case Dies(_) =>
          active, stopping, flights, lost := map[], false, map[], lost + {tickets} + flights.Keys;
      }
      tickets := tickets + 1;
    }

    /** _reserve */
    method Reserve(a: Asking, fault: Fault) returns (r: Reserving, ghost ticket: nat)
      requires Valid()
      modifies this
      ensures Valid() && State() == Next(old(State()), policies, Step.Reserve(a, fault)) && ticket == old(tickets)
      ensures match old(Refusal(State(), policies, a))
              case Some(e) => r == Denied(e)
              case None => r == Ending(PathsOf(policies, a.scope, a.run, a.hour), fault)
    {
      hide Inv, AllAffordable, PathsOf, Written, Remembered, OfScope, OfDepartment, NextPlaces;
      ticket := tickets;
      NextKeeps(State(), policies, Step.Reserve(a, fault));
      var quotas := QuotasOf(policies, a.scope);
      if stopping { return Denied(CapabilityDenied), ticket; }
      if a.ref in records { return Denied(StateConflict), ticket; }
      if |OfScope(active, a.scope)| >= quotas.userConcurrency
         || |OfDepartment(active, policies.departmentOf(a.scope))| >= quotas.departmentConcurrency {
        return Denied(CapabilityDenied), ticket;
      }
      var paths := PathsOf(policies, a.scope, a.run, a.hour);
      var budgets := RaiseBudgets(paths, a.rows, quotas.maxBytes);
      if |budgets| != 3 { return Denied(CapabilityDenied), ticket; }
      ghost var places := NextPlaces(ledger, paths);
      Write(a, paths, budgets, Writes(fault, 4));
      Remember(a, fault, places);
      r := Ending(paths, fault);
    }

    /** Something of the query is sent to the server. */
    ghost method Dispatch(ticket: nat)
      requires Valid()
      modifies `dispatched
      ensures Valid() && State() == Next(old(State()), policies, Step.Dispatch(ticket))
    {
      hide Inv;
      NextKeeps(State(), policies, Step.Dispatch(ticket));
      if ticket in flights { dispatched := dispatched + {ticket}; }
    }

    /** The first n files settled. */
    method GiveBack(paths: Paths, rows: nat, bytes: nat, count: nat, size: nat, n: nat, ghost ticket: nat, ghost x: Placement)
      requires Balanced(Books(files, ledger), policies) && Placed(ledger, ticket, x) && n <= 3
      requires forall i :: 0 <= i < 3 ==> paths[i] == x[i].key && Open(ledger, x[i], rows, bytes)
      requires count <= rows && size <= bytes
      modifies `files, `ledger
      ensures Books(files, ledger) == SettleFirst(old(Books(files, ledger)), x, n, rows, bytes, count, size)
    {
      hide Balanced, Placed, Open, Settled, OnlyTouches;
      ghost var before := Books(files, ledger);
      for i := 0 to n
        invariant Books(files, ledger) == SettleFirst(before, x, i, rows, bytes, count, size)
      {
        SettlesKeepBalance(before, policies, ticket, x, i, rows, bytes, count, size);
        OpenFile(Books(files, ledger), policies, x[i], rows, bytes);
        ledger := SettleOne(Books(files, ledger), x[i], rows, bytes, count, size).ledger;
        files := files[paths[i] := Lowered(files[paths[i]], rows - count, bytes - size)];
      }
    }

    /** The end of _execute: the three files in turn, and the query is no longer active. */
    method Settle(paths: Paths, f: Flight, count: nat, size: nat, fault: Fault, ghost ticket: nat)
      requires Valid() && ticket in flights && flights[ticket] == f && ticket in placements
      requires forall i :: 0 <= i < 3 ==> paths[i] == placements[ticket][i].key
      requires count <= f.rows && size <= f.bytes
      modifies `files, `ledger, `active, `stopping, `flights, `lost
      ensures Valid() && State() == Next(old(State()), policies, Step.Settle(ticket, count, size, fault))
    {
      hide Inv, Balanced, Placed, Open, SettleFirst;
      NextKeeps(State(), policies, Step.Settle(ticket, count, size, fault));
      FlightFacts(State(), policies, ticket);
      GiveBack(paths, f.rows, f.bytes, count, size, Writes(fault, 3), ticket, placements[ticket]);
      active, flights := active - {f.ref}, flights - {ticket};
      match fault
      case NoFault =>
      case Raises(_) => lost := lost + {ticket};
      case Dies(_) => active, stopping, flights, lost := map[], false, map[], lost + {ticket} + flights.Keys;
    }

    /** ImpalaTools.call for a query that nothing else is interleaved with: it is reserved, then sent, then
        settled with what its result uses.  `script` is the remote side. */
    method Query(a: Asking, text: Text, profile: Profile, script: Script, fault: Fault, late: Fault)
      returns (reserving: Reserving, result: Option<Result>)
      requires Valid() && QuotasOf(policies, a.scope).maxBytes == profile.policy.maxBytes
      requires Bound(profile) && Plausible(script) && |text| <= 36 && a.rows <= profile.policy.maxRows
      modifies this
      ensures Valid()
      ensures !reserving.Reserved? ==> result.None? && State() == Next(old(State()), policies, Step.Reserve(a, fault))
      ensures reserving.Reserved? ==>
                exists r: Result ::
                  && Faithful(r, script, a.rows, profile.policy)
                  && result == (if late == NoFault then Some(r) else None)
                  && State() == After(old(State()), policies, a, r, late)
    {
      hide Inv, Refusal, Reserves, Settles, Faithful, Encoded, PathsOf;
      result := None;
      ghost var ticket;
      ghost var start := State();
      reserving, ticket := Reserve(a, fault);
      if !reserving.Reserved? { return; }
      NowInFlight(start, policies, a);
      Dispatch(ticket);
      var r := Execute(text, profile, script, a.rows);
      FaithfulFits(r, script, a.rows, profile.policy);
      var f := Flight(a.ref, a.scope, a.rows, policies.quotas(policies.departmentOf(a.scope)).maxBytes);
      Settle(reserving.paths, f, r.rowCount, |Encoded(r)|, late, ticket);
      result := if late == NoFault then Some(r) else None;
      assert State() == After(old(State()), policies, a, r, late);
    }
  }

  /** The three steps of a query that was reserved and came back with result r. */
  ghost function After(w: World, p: Policies, a: Asking, r: Result, late: Fault): World {
    var reserved := Next(w, p, Step.Reserve(a, NoFault));
    Next(Next(reserved, p, Step.Dispatch(w.tickets)), p, Step.Settle(w.tickets, r.rowCount, |Encoded(r)|, late))
  }

  lemma KindsOf(p: Policies, a: Asking)
    ensures ThreeKinds(PathsOf(p, a.scope, a.run, a.hour))
  {
  }

  lemma FlightFacts(w: World, p: Policies, t: nat)
    requires Inv(w, p) && t in w.flights
    ensures Balanced(w.books, p) && t in w.placements && Placed(w.books.ledger, t, w.placements[t])
    ensures forall i :: 0 <= i < 3 ==> Open(w.books.ledger, w.placements[t][i], w.flights[t].rows, w.flights[t].bytes)
  {
    TicketsAreBelow(w, p, t);
    hide Balanced, Placed, Open;
  }

  lemma OpenFile(b: Books, p: Policies, x: Place, rows: nat, bytes: nat)
    requires Balanced(b, p) && Open(b.ledger, x, rows, bytes)
    ensures x.key in b.files && StandsAt(b.ledger, x)
  {
  }

  lemma NowInFlight(w: World, p: Policies, a: Asking)
    requires Refusal(w, p, a).None?
    ensures var d, paths := Next(w, p, Step.Reserve(a, NoFault)), PathsOf(p, a.scope, a.run, a.hour);
      && w.tickets in d.flights && w.tickets in d.placements
      && d.flights[w.tickets] == Flight(a.ref, a.scope, a.rows, QuotasOf(p, a.scope).maxBytes)
      && forall i :: 0 <= i < 3 ==> d.placements[w.tickets][i].key == paths[i]
  {
    hide Refusal;
  }

  lemma FaithfulFits(r: Result, script: Script, wanted: nat, policy: Policy)
    requires Faithful(r, script, wanted, policy)
    ensures r.rowCount <= wanted && |Encoded(r)| <= policy.maxBytes
  {
    hide Encoded;
  }
}
