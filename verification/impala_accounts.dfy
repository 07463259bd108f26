/** Which budgets a query counts against, told from the calls alone: the account of a message, of a user in
    an hour and of a department in an hour, and when another query is refused. */
module ImpalaAccounts {
  import opened Outcomes
  import opened ImpalaBooks
  import opened ImpalaBudget

  /** The query counts against this message, this user's hour, or this department's hour. */
  predicate Concerns(p: Policies, a: Asking, k: Key) {
    match k
    case MessageKey(scope, run) => a.scope == scope && a.run == run
    case UserKey(scope, hour) => a.scope == scope && a.hour == hour
    case DepartmentKey(department, hour) => p.departmentOf(a.scope) == department && a.hour == hour
  }

  /** Message, user and department are written in this order. */
  function Turn(k: Key): nat {
    match k
    case MessageKey(_, _) => 0
    case UserKey(_, _) => 1
    case DepartmentKey(_, _) => 2
  }

  /** The last step was a reservation that was not refused. */
  ghost predicate JustGranted(p: Policies, steps: seq<Step>) {
    && steps != [] && steps[|steps| - 1].Reserve?
    && Run(p, steps).tickets > Run(p, steps[..|steps| - 1]).tickets
  }

  /** The last step settled a query that was in flight. */
  ghost predicate JustSettled(p: Policies, steps: seq<Step>) {
    && steps != [] && steps[|steps| - 1].Settle?
    && steps[|steps| - 1].ticket in Run(p, steps[..|steps| - 1]).flights
    && steps[|steps| - 1].ticket !in Run(p, steps).flights
  }

  /** The call that ticket t was given to. */
  ghost function AskedFor(p: Policies, steps: seq<Step>, t: nat): Option<Asking> {
    if steps == [] then None
    else
      var init := steps[..|steps| - 1];
      if JustGranted(p, steps) && Run(p, init).tickets == t then Some(steps[|steps| - 1].asking)
      else AskedFor(p, init, t)
  }

  /** The queries that were charged to k, with the rows and bytes that they reserved, or used once they were
      settled there. */
  ghost function Account(p: Policies, steps: seq<Step>, k: Key): Budget {
    if steps == [] then Budget(0, 0, 0)
    else
      var init, last := steps[..|steps| - 1], steps[|steps| - 1];
      var b := Account(p, init, k);
      if JustGranted(p, steps) then
        var a := last.asking;
        if Concerns(p, a, k) && Turn(k) < Writes(last.fault, 4) then
          Budget(b.queries + 1, b.rows + a.rows, b.bytes + p.quotas(p.departmentOf(a.scope)).maxBytes)
        else b
      else if JustSettled(p, steps) && AskedFor(p, init, last.ticket).Some? then
        var a := AskedFor(p, init, last.ticket).value;
        if Concerns(p, a, k) && Turn(k) < Writes(last.fault, 3) then
          Budget(b.queries, b.rows - (a.rows - last.count),
                 b.bytes - (p.quotas(p.departmentOf(a.scope)).maxBytes - last.size))
        else b
      else b
  }

  // ----- Where a granted query stands -----

  /** The three places of ticket t are in the files of its message, of its user's hour and of its
      department's hour. */
  predicate StandsFor(p: Policies, x: Placement, a: Asking) {
    && x[0].key == MessageKey(a.scope, a.run)
    && x[1].key == UserKey(a.scope, a.hour)
    && x[2].key == DepartmentKey(p.departmentOf(a.scope), a.hour)
  }

  ghost predicate Known(p: Policies, steps: seq<Step>, t: nat) {
    var w := Run(p, steps);
    && AskedFor(p, steps, t).Some?
    && var a := AskedFor(p, steps, t).value;
    && (t in w.placements ==> StandsFor(p, w.placements[t], a))
    && (t in w.flights ==> w.flights[t] == Flight(a.ref, a.scope, a.rows, p.quotas(p.departmentOf(a.scope)).maxBytes))
  }

  lemma LastStep(p: Policies, steps: seq<Step>)
    requires steps != []
    ensures Run(p, steps) == Next(Run(p, steps[..|steps| - 1]), p, steps[|steps| - 1])
  {
    hide Next;
  }

  lemma ReservesGrants(w: World, p: Policies, a: Asking, fault: Fault)
    ensures var d, t := Reserves(w, p, a, fault), w.tickets;
      && d.tickets == t + 1
      && d.placements == (if fault == NoFault then w.placements[t := NextPlaces(w.books.ledger, PathsOf(p, a.scope, a.run, a.hour))]
                          else w.placements)
      && (forall u :: u in d.flights ==>
            if fault == NoFault && u == t then d.flights[u] == Flight(a.ref, a.scope, a.rows, p.quotas(p.departmentOf(a.scope)).maxBytes)
            else u in w.flights && d.flights[u] == w.flights[u])
  {
    hide ChargeFirst, NextPlaces, PathsOf;
  }

  lemma PlacesStandFor(p: Policies, ledger: map<Key, seq<Charge>>, a: Asking)
    ensures StandsFor(p, NextPlaces(ledger, PathsOf(p, a.scope, a.run, a.hour)), a)
  {
  }

  lemma TicketBound(w: World, p: Policies, t: nat)
    requires Inv(w, p) && (t in w.placements || t in w.flights)
    ensures t < w.tickets && t in w.placements
  {
    hide Balanced, Placed, Accounted, Within;
    if t in w.flights { assert Outstanding(w, p, t); }
  }

  /** A reservation is refused or granted. */
  lemma RefusedOrGranted(p: Policies, steps: seq<Step>)
    requires steps != [] && steps[|steps| - 1].Reserve?
    ensures var w, last := Run(p, steps[..|steps| - 1]), steps[|steps| - 1];
      if Refusal(w, p, last.asking).Some? then Run(p, steps) == w && !JustGranted(p, steps)
      else Run(p, steps) == Reserves(w, p, last.asking, last.fault) && JustGranted(p, steps)
  {
    LastStep(p, steps);
    ReservesGrants(Run(p, steps[..|steps| - 1]), p, steps[|steps| - 1].asking, steps[|steps| - 1].fault);
    hide Run, Reserves, Refusal;
  }

  lemma AskedAfter(p: Policies, steps: seq<Step>, t: nat)
    requires steps != []
    ensures AskedFor(p, steps, t) ==
              if JustGranted(p, steps) && Run(p, steps[..|steps| - 1]).tickets == t then Some(steps[|steps| - 1].asking)
              else AskedFor(p, steps[..|steps| - 1], t)
  {
    hide Run, JustGranted;
  }

  lemma KnownAfterReserve(p: Policies, steps: seq<Step>, t: nat)
    requires steps != [] && steps[|steps| - 1].Reserve?
    requires var w := Run(p, steps[..|steps| - 1]);
      Inv(w, p) && (t in w.placements || t in w.flights ==> Known(p, steps[..|steps| - 1], t))
    requires t in Run(p, steps).placements || t in Run(p, steps).flights
    ensures Known(p, steps, t)
  {
    hide Run, Inv, Reserves, StandsFor, Refusal, NextPlaces, JustGranted, AskedFor;
    var w, a, fault := Run(p, steps[..|steps| - 1]), steps[|steps| - 1].asking, steps[|steps| - 1].fault;
    RefusedOrGranted(p, steps);
    AskedAfter(p, steps, t);
    if t in w.placements || t in w.flights { TicketBound(w, p, t); }
    if Refusal(w, p, a).None? {
      ReservesGrants(w, p, a, fault);
      PlacesStandFor(p, w.books.ledger, a);
    }
  }

  /** What a settlement leaves of the tickets. */
  lemma SettlesTickets(w: World, t: nat, count: nat, size: nat, fault: Fault)
    requires t in w.flights && t in w.placements
    ensures var d := Settles(w, t, count, size, fault);
      && d.tickets == w.tickets && d.placements == w.placements && t !in d.flights
      && forall u :: u in d.flights ==> u in w.flights && d.flights[u] == w.flights[u]
  {
    hide SettleFirst;
  }

  lemma KnownAfterSettle(p: Policies, steps: seq<Step>, t: nat)
    requires steps != [] && steps[|steps| - 1].Settle?
    requires var w := Run(p, steps[..|steps| - 1]);
      (t in w.placements || t in w.flights ==> Known(p, steps[..|steps| - 1], t))
    requires t in Run(p, steps).placements || t in Run(p, steps).flights
    ensures Known(p, steps, t)
  {
    var w, last := Run(p, steps[..|steps| - 1]), steps[|steps| - 1];
    LastStep(p, steps);
    if last.ticket in w.flights && last.ticket in w.placements {
      SettlesTickets(w, last.ticket, last.count, last.size, last.fault);
    }
    hide Run, Settles, StandsFor;
  }

  lemma KnownAfterOther(p: Policies, steps: seq<Step>, t: nat)
    requires steps != [] && !steps[|steps| - 1].Reserve? && !steps[|steps| - 1].Settle?
    requires var w := Run(p, steps[..|steps| - 1]);
      (t in w.placements || t in w.flights ==> Known(p, steps[..|steps| - 1], t))
    requires t in Run(p, steps).placements || t in Run(p, steps).flights
    ensures Known(p, steps, t)
  {
    LastStep(p, steps);
    hide Run, StandsFor, Reserves, Settles, Refusal;
  }

  /** Every granted query stands in exactly the three files of its message, of its user's hour and of its
      department's hour, and reserves there what it asked for. */
  lemma {:induction false} StandsWhereItBelongs(p: Policies, steps: seq<Step>, t: nat)
    requires t in Run(p, steps).placements || t in Run(p, steps).flights
    ensures Known(p, steps, t)
  {
    if steps != [] {
      var init, last := steps[..|steps| - 1], steps[|steps| - 1];
      RunKeeps(p, init);
      hide Inv, Known, Next;
      if t in Run(p, init).placements || t in Run(p, init).flights { StandsWhereItBelongs(p, init, t); }
      match last
      case Reserve(_, _) => KnownAfterReserve(p, steps, t);
      case Settle(_, _, _, _) => KnownAfterSettle(p, steps, t);
      case _ => KnownAfterOther(p, steps, t);
    }
  }

  // ----- Nothing is sent before it is charged -----

  /** Step i sends the query of ticket t. */
  ghost predicate Sends(p: Policies, steps: seq<Step>, i: nat, t: nat) {
    i < |steps| && steps[i] == Dispatch(t) && t in Run(p, steps[..i]).flights
  }

  lemma DispatchedAfter(p: Policies, steps: seq<Step>)
    requires steps != []
    ensures var w, d, last := Run(p, steps[..|steps| - 1]), Run(p, steps), steps[|steps| - 1];
      && d.dispatched == (if last.Dispatch? && last.ticket in w.flights then w.dispatched + {last.ticket} else w.dispatched)
  {
    LastStep(p, steps);
    hide Run, ChargeFirst, SettleFirst, NextPlaces, PathsOf, Refusal;
  }

  /** The dispatched queries are those that some step sent. */
  lemma {:induction false} DispatchedWereSent(p: Policies, steps: seq<Step>, t: nat)
    ensures t in Run(p, steps).dispatched <==> exists i: nat :: Sends(p, steps, i, t)
  {
    hide Run;
    if steps == [] {
      assert Run(p, []) == EMPTY by { NothingRun(p); }
    } else {
      var init, n := steps[..|steps| - 1], |steps| - 1;
      DispatchedWereSent(p, init, t);
      DispatchedAfter(p, steps);
      forall i: nat | i < n ensures Sends(p, steps, i, t) <==> Sends(p, init, i, t) { assert init[..i] == steps[..i]; }
      if steps[n] == Dispatch(t) && t in Run(p, init).flights { assert Sends(p, steps, n, t); }
    }
  }

  lemma NothingRun(p: Policies)
    ensures Run(p, []) == EMPTY
  {
  }

  /** Before a query is sent all three of its files hold its full reservation: those of its message, of its
      user's hour and of its department's hour. */
  lemma SentIsCharged(p: Policies, steps: seq<Step>, i: nat, t: nat)
    requires Sends(p, steps, i, t)
    ensures var w := Run(p, steps[..i]);
      && Known(p, steps[..i], t) && t in w.placements && Placed(w.books.ledger, t, w.placements[t])
      && forall j :: 0 <= j < 3 ==> Open(w.books.ledger, w.placements[t][j], w.flights[t].rows, w.flights[t].bytes)
  {
    RunKeeps(p, steps[..i]);
    hide Run, Inv, Placed, Open, Known;
    StandsWhereItBelongs(p, steps[..i], t);
    FlightFacts(Run(p, steps[..i]), p, t);
  }

  // ----- What each file holds -----

  lemma {:induction false} HeldAfterCharge(b: Books, paths: Paths, n: nat, c: Charge, k: Key)
    requires ThreeKinds(paths) && n <= 3
    ensures Held(ChargeFirst(b, paths, n, c).files, k) ==
              if Turn(k) < n && paths[Turn(k)] == k then
                Budget(Held(b.files, k).queries + 1, Held(b.files, k).rows + c.rows, Held(b.files, k).bytes + c.bytes)
              else Held(b.files, k)
  {
    if n > 0 { HeldAfterCharge(b, paths, n - 1, c, k); }
  }

  lemma {:induction false} HeldAfterSettle(b: Books, p: Policies, ticket: nat, x: Placement, n: nat,
                                           rows: nat, bytes: nat, count: nat, size: nat, k: Key)
    requires Balanced(b, p) && Placed(b.ledger, ticket, x) && n <= 3 && count <= rows && size <= bytes
    requires forall i :: 0 <= i < 3 ==> Open(b.ledger, x[i], rows, bytes)
    ensures Held(SettleFirst(b, x, n, rows, bytes, count, size).files, k) ==
              if Turn(k) < n && x[Turn(k)].key == k then
                Budget(Held(b.files, k).queries, Held(b.files, k).rows - (rows - count), Held(b.files, k).bytes - (bytes - size))
              else Held(b.files, k)
  {
    hide Balanced, Settled, OnlyTouches;
    if n > 0 {
      HeldAfterSettle(b, p, ticket, x, n - 1, rows, bytes, count, size, k);
      SettlesKeepBalance(b, p, ticket, x, n - 1, rows, bytes, count, size);
    }
  }

  lemma PathIsKey(p: Policies, a: Asking, k: Key)
    ensures var paths := PathsOf(p, a.scope, a.run, a.hour);
      ThreeKinds(paths) && (paths[Turn(k)] == k <==> Concerns(p, a, k))
  {
  }

  lemma PlaceIsKey(p: Policies, x: Placement, a: Asking, k: Key)
    requires StandsFor(p, x, a)
    ensures x[Turn(k)].key == k <==> Concerns(p, a, k)
  {
  }

  lemma ReservesBooks(w: World, p: Policies, a: Asking, fault: Fault)
    ensures var n := Writes(fault, 4);
      Reserves(w, p, a, fault).books ==
        ChargeFirst(w.books, PathsOf(p, a.scope, a.run, a.hour), if n == 4 then 3 else n,
                    NewCharge(w.tickets, a.rows, QuotasOf(p, a.scope).maxBytes))
  {
    hide ChargeFirst, NextPlaces, PathsOf, QuotasOf;
  }

  lemma ReserveHolds(w: World, p: Policies, a: Asking, fault: Fault, k: Key)
    ensures var h, n := Held(w.books.files, k), Writes(fault, 4);
      Held(Reserves(w, p, a, fault).books.files, k) ==
        if Concerns(p, a, k) && Turn(k) < n then
          Budget(h.queries + 1, h.rows + a.rows, h.bytes + p.quotas(p.departmentOf(a.scope)).maxBytes)
        else h
  {
    hide ChargeFirst, PathsOf, Held, Reserves, Concerns;
    var paths, n := PathsOf(p, a.scope, a.run, a.hour), Writes(fault, 4);
    PathIsKey(p, a, k);
    ReservesBooks(w, p, a, fault);
    HeldAfterCharge(w.books, paths, if n == 4 then 3 else n, NewCharge(w.tickets, a.rows, QuotasOf(p, a.scope).maxBytes), k);
  }

  lemma SettlesBooks(w: World, t: nat, count: nat, size: nat, fault: Fault)
    requires t in w.flights && t in w.placements
    ensures Settles(w, t, count, size, fault).books ==
              SettleFirst(w.books, w.placements[t], Writes(fault, 3), w.flights[t].rows, w.flights[t].bytes, count, size)
  {
    hide SettleFirst;
  }

  lemma SettleHolds(w: World, p: Policies, a: Asking, t: nat, count: nat, size: nat, fault: Fault, k: Key)
    requires Inv(w, p) && t in w.flights && t in w.placements
    requires count <= w.flights[t].rows && size <= w.flights[t].bytes && StandsFor(p, w.placements[t], a)
    ensures var h, f, n := Held(w.books.files, k), w.flights[t], Writes(fault, 3);
      Held(Settles(w, t, count, size, fault).books.files, k) ==
        if Concerns(p, a, k) && Turn(k) < n then Budget(h.queries, h.rows - (f.rows - count), h.bytes - (f.bytes - size)) else h
  {
    hide Inv, SettleFirst, Held, Balanced, Placed, Open, StandsFor, Settles, Concerns;
    FlightFacts(w, p, t);
    PlaceIsKey(p, w.placements[t], a, k);
    SettlesBooks(w, t, count, size, fault);
    HeldAfterSettle(w.books, p, t, w.placements[t], Writes(fault, 3), w.flights[t].rows, w.flights[t].bytes, count, size, k);
  }

  /** Every budget file holds exactly the account of its message, its user's hour or its department's hour. */
  lemma {:induction false} FilesHoldAccounts(p: Policies, steps: seq<Step>, k: Key)
    ensures Held(Run(p, steps).books.files, k) == Account(p, steps, k)
  {
    if steps != [] {
      FilesHoldAccounts(p, steps[..|steps| - 1], k);
      RunKeeps(p, steps[..|steps| - 1]);
      hide Inv, Held, Account, Next;
      match steps[|steps| - 1]
      case Reserve(_, _) => AccountAfterReserve(p, steps, k);
      case Settle(_, _, _, _) => AccountAfterSettle(p, steps, k);
      case _ => AccountAfterOther(p, steps, k);
    }
  }

  lemma AccountAfterReserve(p: Policies, steps: seq<Step>, k: Key)
    requires steps != [] && steps[|steps| - 1].Reserve?
    requires Held(Run(p, steps[..|steps| - 1]).books.files, k) == Account(p, steps[..|steps| - 1], k)
    ensures Held(Run(p, steps).books.files, k) == Account(p, steps, k)
  {
    var w, last := Run(p, steps[..|steps| - 1]), steps[|steps| - 1];
    RefusedOrGranted(p, steps);
    ReserveHolds(w, p, last.asking, last.fault, k);
    hide Run, Reserves, Refusal, Held, Concerns, JustGranted;
  }

  lemma AccountAfterSettle(p: Policies, steps: seq<Step>, k: Key)
    requires steps != [] && steps[|steps| - 1].Settle? && Inv(Run(p, steps[..|steps| - 1]), p)
    requires Held(Run(p, steps[..|steps| - 1]).books.files, k) == Account(p, steps[..|steps| - 1], k)
    ensures Held(Run(p, steps).books.files, k) == Account(p, steps, k)
  {
    hide Run, Inv, Held, Concerns, AskedFor, StandsFor, Settles;
    var init, last := steps[..|steps| - 1], steps[|steps| - 1];
    var w, t := Run(p, init), last.ticket;
    LastStep(p, steps);
    if t in w.flights && t in w.placements && last.count <= w.flights[t].rows && last.size <= w.flights[t].bytes {
      StandsWhereItBelongs(p, init, t);
      SettlesTickets(w, t, last.count, last.size, last.fault);
      SettleHolds(w, p, AskedFor(p, init, t).value, t, last.count, last.size, last.fault, k);
    }
  }

  lemma AccountAfterOther(p: Policies, steps: seq<Step>, k: Key)
    requires steps != [] && !steps[|steps| - 1].Reserve? && !steps[|steps| - 1].Settle?
    requires Held(Run(p, steps[..|steps| - 1]).books.files, k) == Account(p, steps[..|steps| - 1], k)
    ensures Held(Run(p, steps).books.files, k) == Account(p, steps, k)
  {
    LastStep(p, steps);
    hide Run, Held, Reserves, Settles, Refusal;
  }

  // ----- When a query is refused -----

  /** One more query does not fit. */
  predicate Exceeds(b: Budget, rows: nat, bytes: nat, limits: Limits) {
    b.queries + 1 > limits.queries || b.rows + rows > limits.rows || b.bytes + bytes > limits.bytes
  }

  /** Some query of the history was recorded under this reference. */
  ghost predicate RefUsed(p: Policies, steps: seq<Step>, ref: Id) {
    && steps != []
    && (RefUsed(p, steps[..|steps| - 1], ref)
        || (JustGranted(p, steps) && steps[|steps| - 1].asking.ref == ref && Writes(steps[|steps| - 1].fault, 4) == 4))
  }

  lemma {:induction false} RecordsAreUsed(p: Policies, steps: seq<Step>, ref: Id)
    ensures ref in Run(p, steps).records <==> RefUsed(p, steps, ref)
  {
    if steps != [] {
      RecordsAreUsed(p, steps[..|steps| - 1], ref);
      LastStep(p, steps);
      if steps[|steps| - 1].Reserve? { RefusedOrGranted(p, steps); }
      hide Run, Refusal, JustGranted, ChargeFirst, SettleFirst, NextPlaces, PathsOf;
    }
  }

  /** The last step started the process again. */
  ghost predicate JustRestarted(p: Policies, steps: seq<Step>) {
    && steps != []
    && match steps[|steps| - 1]
       case Restart => true
       case Reserve(_, fault) => fault.Dies? && JustGranted(p, steps)
       case Settle(_, _, _, fault) => fault.Dies? && JustSettled(p, steps)
       case _ => false
  }

  /** The process was told to stop since it was started. */
  ghost predicate ToldToStop(p: Policies, steps: seq<Step>) {
    && steps != []
    && (steps[|steps| - 1].Stop? || (!JustRestarted(p, steps) && ToldToStop(p, steps[..|steps| - 1])))
  }

  lemma {:induction false} StoppingIsToldToStop(p: Policies, steps: seq<Step>)
    ensures Run(p, steps).stopping <==> ToldToStop(p, steps)
  {
    if steps != [] {
      var init, last := steps[..|steps| - 1], steps[|steps| - 1];
      StoppingIsToldToStop(p, init);
      LastStep(p, steps);
      match last
      case Reserve(a, fault) => StoppingAfterReserve(p, steps);
      case Settle(_, _, _, _) =>
        RunKeeps(p, init);
        StoppingAfterSettle(p, steps);
      case _ =>
    }
  }

  lemma StoppingAfterReserve(p: Policies, steps: seq<Step>)
    requires steps != [] && steps[|steps| - 1].Reserve?
    ensures Run(p, steps).stopping == (Run(p, steps[..|steps| - 1]).stopping && !JustRestarted(p, steps))
  {
    RefusedOrGranted(p, steps);
    hide Run, JustGranted, ChargeFirst, NextPlaces, PathsOf;
    var w, last := Run(p, steps[..|steps| - 1]), steps[|steps| - 1];
    if Refusal(w, p, last.asking).None? { assert !w.stopping; }
  }

  lemma StoppingAfterSettle(p: Policies, steps: seq<Step>)
    requires steps != [] && steps[|steps| - 1].Settle? && Inv(Run(p, steps[..|steps| - 1]), p)
    ensures Run(p, steps).stopping == (Run(p, steps[..|steps| - 1]).stopping && !JustRestarted(p, steps))
  {
    hide Run, Inv, Settles;
    LastStep(p, steps);
    var w, last := Run(p, steps[..|steps| - 1]), steps[|steps| - 1];
    if last.ticket in w.flights {
      TicketBound(w, p, last.ticket);
      SettlesStopping(w, last.ticket, last.count, last.size, last.fault);
    }
  }

  lemma SettlesStopping(w: World, t: nat, count: nat, size: nat, fault: Fault)
    requires t in w.flights && t in w.placements
    ensures Settles(w, t, count, size, fault).stopping == (w.stopping && !fault.Dies?)
    ensures t !in Settles(w, t, count, size, fault).flights
  {
    hide SettleFirst;
  }

  /** Every active reference belongs to a query in flight. */
  ghost predicate AllInFlight(w: World) {
    forall r :: r in w.active ==> exists t :: t in w.flights && w.flights[t].ref == r
  }

  lemma NextInFlight(w: World, p: Policies, step: Step)
    requires Inv(w, p) && AllInFlight(w)
    ensures AllInFlight(Next(w, p, step))
  {
    match step
    case Reserve(a, fault) => ReserveInFlight(w, p, a, fault);
    case Settle(t, count, size, fault) =>
      hide Inv;
      if t in w.flights && t in w.placements { SettleInFlight(w, t, count, size, fault); }
    case _ =>
  }

  lemma ReserveInFlight(w: World, p: Policies, a: Asking, fault: Fault)
    requires Inv(w, p) && AllInFlight(w)
    ensures AllInFlight(Reserves(w, p, a, fault))
  {
    hide ChargeFirst, NextPlaces, PathsOf, Balanced, Placed, Accounted, Within;
    var d := Reserves(w, p, a, fault);
    if fault == NoFault {
      forall r | r in d.active ensures exists t :: t in d.flights && d.flights[t].ref == r {
        if r == a.ref {
          assert d.flights[w.tickets].ref == r;
        } else {
          var t :| t in w.flights && w.flights[t].ref == r;
          TicketBound(w, p, t);
          assert d.flights[t].ref == r;
        }
      }
    }
  }

  lemma SettleInFlight(w: World, t: nat, count: nat, size: nat, fault: Fault)
    requires AllInFlight(w) && t in w.flights && t in w.placements
    ensures AllInFlight(Settles(w, t, count, size, fault))
  {
    hide SettleFirst;
    var d := Settles(w, t, count, size, fault);
    if !fault.Dies? {
      forall r | r in d.active ensures exists u :: u in d.flights && d.flights[u].ref == r {
        var u :| u in w.flights && w.flights[u].ref == r;
        assert u in d.flights && d.flights[u].ref == r;
      }
    }
  }

  lemma {:induction false} RunInFlight(p: Policies, steps: seq<Step>)
    ensures AllInFlight(Run(p, steps))
  {
    if steps != [] {
      RunInFlight(p, steps[..|steps| - 1]);
      RunKeeps(p, steps[..|steps| - 1]);
      LastStep(p, steps);
      hide Run, Inv, Next;
      NextInFlight(Run(p, steps[..|steps| - 1]), p, steps[|steps| - 1]);
    }
  }

  lemma {:induction false} OneTicketEach(flights: map<nat, Flight>, refs: set<Id>, ts: set<nat>)
    requires forall r :: r in refs ==> exists t :: t in ts && t in flights && flights[t].ref == r
    ensures |refs| <= |ts|
    decreases refs
  {
    if refs != {} {
      var r :| r in refs;
      var t :| t in ts && t in flights && flights[t].ref == r;
      forall q | q in refs - {r} ensures exists u :: u in ts - {t} && u in flights && flights[u].ref == q {
        var u :| u in ts && u in flights && flights[u].ref == q;
        assert u != t;
      }
      OneTicketEach(flights, refs - {r}, ts - {t});
    }
  }

  /** The active queries of a user and of a department are those in flight. */
  lemma ActiveAreInFlight(p: Policies, steps: seq<Step>, scope: string, department: string)
    ensures var w := Run(p, steps);
      && |OfScope(w.active, scope)| == |InFlight(w, scope)|
      && |OfDepartment(w.active, department)| == |InFlightFor(w, p, department)|
  {
    RunKeeps(p, steps);
    RunInFlight(p, steps);
    var w := Run(p, steps);
    hide Run, Balanced, AllPlaced, Accounted, Open, Within;
    forall t | t in w.flights ensures Outstanding(w, p, t) {}
    OneRefEach(w.flights, InFlight(w, scope), OfScope(w.active, scope));
    OneRefEach(w.flights, InFlightFor(w, p, department), OfDepartment(w.active, department));
    OneTicketEach(w.flights, OfScope(w.active, scope), InFlight(w, scope));
    OneTicketEach(w.flights, OfDepartment(w.active, department), InFlightFor(w, p, department));
  }

  /** In any history a query is refused if and only if the adapter is stopping, its reference was used, as
      many queries of its user or department as are allowed are in flight, or it does not fit into the
      account of its message, of its user in this hour or of its department in this hour. */
  lemma RefusedExactly(p: Policies, steps: seq<Step>, a: Asking, fault: Fault)
    ensures var w, d := Run(p, steps), p.departmentOf(a.scope);
      var q, granted := p.quotas(d), Run(p, steps + [Reserve(a, fault)]).tickets > w.tickets;
      && (!granted ==> Run(p, steps + [Reserve(a, fault)]) == w)
      && (granted <==>
            && !ToldToStop(p, steps) && !RefUsed(p, steps, a.ref)
            && |InFlight(w, a.scope)| < q.userConcurrency && |InFlightFor(w, p, d)| < q.departmentConcurrency
            && !Exceeds(Account(p, steps, MessageKey(a.scope, a.run)), a.rows, q.maxBytes, q.message)
            && !Exceeds(Account(p, steps, UserKey(a.scope, a.hour)), a.rows, q.maxBytes, q.user)
            && !Exceeds(Account(p, steps, DepartmentKey(d, a.hour)), a.rows, q.maxBytes, q.department))
  {
    var more := steps + [Reserve(a, fault)];
    assert more[..|steps|] == steps;
    RefusedOrGranted(p, more);
    RecordsAreUsed(p, steps, a.ref);
    StoppingIsToldToStop(p, steps);
    ActiveAreInFlight(p, steps, a.scope, p.departmentOf(a.scope));
    FilesHoldAccounts(p, steps, MessageKey(a.scope, a.run));
    FilesHoldAccounts(p, steps, UserKey(a.scope, a.hour));
    FilesHoldAccounts(p, steps, DepartmentKey(p.departmentOf(a.scope), a.hour));
    hide Run, Reserves, RefUsed, ToldToStop, Account, OfScope, OfDepartment, InFlight, InFlightFor, Held;
    AffordableExactly(Run(p, steps), p, a);
  }

  lemma AffordableExactly(w: World, p: Policies, a: Asking)
    ensures var d := p.departmentOf(a.scope);
      var q := p.quotas(d);
      AllAffordable(w.books.files, p, PathsOf(p, a.scope, a.run, a.hour), a.rows, q.maxBytes) <==>
        && !Exceeds(Held(w.books.files, MessageKey(a.scope, a.run)), a.rows, q.maxBytes, q.message)
        && !Exceeds(Held(w.books.files, UserKey(a.scope, a.hour)), a.rows, q.maxBytes, q.user)
        && !Exceeds(Held(w.books.files, DepartmentKey(d, a.hour)), a.rows, q.maxBytes, q.department)
  {
    hide Held;
    var paths := PathsOf(p, a.scope, a.run, a.hour);
    assert paths[0] == MessageKey(a.scope, a.run) && paths[1] == UserKey(a.scope, a.hour)
           && paths[2] == DepartmentKey(p.departmentOf(a.scope), a.hour);
  }
}
