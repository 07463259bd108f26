/** The budget files of ImpalaTools and the books that are kept of them: what each query was charged in
    which file, and what it still holds of that. */
module ImpalaBooks {
  import opened Outcomes

  /** A budget file is named by a digest of these. */
  datatype Key =
    | MessageKey(scope: string, run: Id)
    | UserKey(scope: string, hour: int)
    | DepartmentKey(department: string, hour: int)

  datatype Budget = Budget(queries: int, rows: int, bytes: int)

  datatype Limits = Limits(queries: nat, rows: nat, bytes: nat)

  datatype Quotas = Quotas(
    maxBytes: nat, userConcurrency: nat, departmentConcurrency: nat,
    message: Limits, user: Limits, department: Limits)

  /** The bindings: every scope has a department, and every department a policy of its own. */
  datatype Policies = Policies(departmentOf: string -> string, quotas: string -> Quotas)

  function QuotasOf(p: Policies, scope: string): Quotas {
    p.quotas(p.departmentOf(scope))
  }

  function LimitsOf(p: Policies, k: Key): Limits {
    match k
    case MessageKey(scope, _) => QuotasOf(p, scope).message
    case UserKey(scope, _) => QuotasOf(p, scope).user
    case DepartmentKey(d, _) => p.quotas(d).department
  }

  // ----- The books of one file -----

  /** One query's entry in one budget file: the reservation, and what it holds of it now. */
  datatype Charge = Charge(ticket: nat, askedRows: nat, askedBytes: nat, rows: nat, bytes: nat, settled: bool)

  function NewCharge(ticket: nat, rows: nat, bytes: nat): Charge {
    Charge(ticket, rows, bytes, rows, bytes, false)
  }

  predicate Honest(c: Charge) {
    && c.rows <= c.askedRows && c.bytes <= c.askedBytes
    && (!c.settled ==> c.rows == c.askedRows && c.bytes == c.askedBytes)
  }

  function TotalRows(charges: seq<Charge>): nat {
    if charges == [] then 0 else TotalRows(charges[..|charges| - 1]) + charges[|charges| - 1].rows
  }

  function TotalBytes(charges: seq<Charge>): nat {
    if charges == [] then 0 else TotalBytes(charges[..|charges| - 1]) + charges[|charges| - 1].bytes
  }

  lemma TotalsAppend(charges: seq<Charge>, c: Charge)
    ensures TotalRows(charges + [c]) == TotalRows(charges) + c.rows
    ensures TotalBytes(charges + [c]) == TotalBytes(charges) + c.bytes
  {
    assert (charges + [c])[..|charges|] == charges;
  }

  lemma {:induction false} TotalsUpdate(charges: seq<Charge>, i: nat, c: Charge)
    requires i < |charges|
    ensures TotalRows(charges[i := c]) == TotalRows(charges) - charges[i].rows + c.rows
    ensures TotalBytes(charges[i := c]) == TotalBytes(charges) - charges[i].bytes + c.bytes
  {
    var n := |charges| - 1;
    if i == n {
      assert charges[i := c][..n] == charges[..n];
    } else {
      assert charges[i := c][..n] == charges[..n][i := c];
      TotalsUpdate(charges[..n], i, c);
    }
  }

  /** The file holds exactly what its queries hold, and no more than its limits. */
  ghost predicate Booked(b: Budget, charges: seq<Charge>, limits: Limits) {
    && b == Budget(|charges|, TotalRows(charges), TotalBytes(charges))
    && (forall i :: 0 <= i < |charges| ==> Honest(charges[i]))
    && b.queries <= limits.queries && b.rows <= limits.rows && b.bytes <= limits.bytes
  }

  predicate Affordable(b: Budget, rows: nat, bytes: nat, limits: Limits) {
    b.queries < limits.queries && b.rows + rows <= limits.rows && b.bytes + bytes <= limits.bytes
  }

  function Raised(h: Budget, rows: nat, bytes: nat): Budget {
    Budget(h.queries + 1, h.rows + rows, h.bytes + bytes)
  }

  function Lowered(b: Budget, rows: int, bytes: int): Budget {
    Budget(b.queries, b.rows - rows, b.bytes - bytes)
  }

  // ----- One file among all -----

  datatype Books = Books(files: map<Key, Budget>, ledger: map<Key, seq<Charge>>)

  function Held(files: map<Key, Budget>, k: Key): Budget {
    if k in files then files[k] else Budget(0, 0, 0)
  }

  function Charges(ledger: map<Key, seq<Charge>>, k: Key): seq<Charge> {
    if k in ledger then ledger[k] else []
  }

  ghost predicate Balanced(b: Books, p: Policies) {
    && b.files.Keys == b.ledger.Keys
    && forall k :: k in b.files ==> Booked(b.files[k], b.ledger[k], LimitsOf(p, k))
  }

  /** A file that does not exist yet balances with no charges. */
  lemma HeldBooks(b: Books, p: Policies, k: Key)
    requires Balanced(b, p)
    ensures var h, charges := Held(b.files, k), Charges(b.ledger, k);
      && h == Budget(|charges|, TotalRows(charges), TotalBytes(charges))
      && (forall i :: 0 <= i < |charges| ==> Honest(charges[i]))
  {
    if k in b.files { assert Booked(b.files[k], b.ledger[k], LimitsOf(p, k)); }
  }

  lemma BalanceUpdate(b: Books, p: Policies, k: Key, h: Budget, charges: seq<Charge>)
    requires Balanced(b, p) && Booked(h, charges, LimitsOf(p, k))
    ensures Balanced(Books(b.files[k := h], b.ledger[k := charges]), p)
  {
    hide Booked, LimitsOf;
  }

  /** One file charged, on disk and in the books. */
  function ChargeOne(b: Books, k: Key, c: Charge): Books {
    Books(b.files[k := Raised(Held(b.files, k), c.rows, c.bytes)], b.ledger[k := Charges(b.ledger, k) + [c]])
  }

  lemma ChargeKeepsBalance(b: Books, p: Policies, k: Key, ticket: nat, rows: nat, bytes: nat)
    requires Balanced(b, p) && Affordable(Held(b.files, k), rows, bytes, LimitsOf(p, k))
    ensures Balanced(ChargeOne(b, k, NewCharge(ticket, rows, bytes)), p)
  {
    hide Balanced, LimitsOf, Held, Charges;
    HeldBooks(b, p, k);
    TotalsAppend(Charges(b.ledger, k), NewCharge(ticket, rows, bytes));
    BalanceUpdate(b, p, k, Raised(Held(b.files, k), rows, bytes), Charges(b.ledger, k) + [NewCharge(ticket, rows, bytes)]);
  }

  /** Where a charge is. */
  datatype Place = Place(key: Key, at: nat)

  predicate StandsAt(ledger: map<Key, seq<Charge>>, x: Place) {
    x.key in ledger && x.at < |ledger[x.key]|
  }

  /** One file settled: what the query did not use is given back. */
  function SettleOne(b: Books, x: Place, rows: int, bytes: int, count: nat, size: nat): Books {
    if !StandsAt(b.ledger, x) then b
    else
      var c := b.ledger[x.key][x.at].(rows := count, bytes := size, settled := true);
      Books(b.files[x.key := Lowered(Held(b.files, x.key), rows - count, bytes - size)],
            b.ledger[x.key := b.ledger[x.key][x.at := c]])
  }

  /** The charge is a full reservation of `rows` rows and `bytes` bytes. */
  predicate Open(ledger: map<Key, seq<Charge>>, x: Place, rows: nat, bytes: nat) {
    && StandsAt(ledger, x)
    && var c := ledger[x.key][x.at];
    !c.settled && c.askedRows == rows && c.askedBytes == bytes
  }

  /** The charge is what the query used. */
  predicate Settled(ledger: map<Key, seq<Charge>>, x: Place, count: nat, size: nat) {
    && StandsAt(ledger, x)
    && var c := ledger[x.key][x.at];
    c.settled && c.rows == count && c.bytes == size
  }

  lemma SettleKeepsBalance(b: Books, p: Policies, x: Place, rows: nat, bytes: nat, count: nat, size: nat)
    requires Balanced(b, p) && Open(b.ledger, x, rows, bytes) && count <= rows && size <= bytes
    ensures Balanced(SettleOne(b, x, rows, bytes, count, size), p)
  {
    var charges := b.ledger[x.key];
    var c := charges[x.at].(rows := count, bytes := size, settled := true);
    assert Booked(b.files[x.key], charges, LimitsOf(p, x.key));
    assert Honest(charges[x.at]);
    TotalsUpdate(charges, x.at, c);
    hide Balanced, LimitsOf;
    BalanceUpdate(b, p, x.key, Lowered(b.files[x.key], rows - count, bytes - size), charges[x.at := c]);
  }

  // ----- What a step leaves alone -----

  /** Charges are only added, and keep their ticket; none but this ticket's changes, and a settled one
      never does. */
  ghost predicate OnlyTouches(before: map<Key, seq<Charge>>, ledger: map<Key, seq<Charge>>, ticket: nat) {
    forall k :: k in before ==>
      && k in ledger && |before[k]| <= |ledger[k]|
      && forall i :: 0 <= i < |before[k]| ==> Follows(before[k][i], ledger[k][i], ticket)
  }

  predicate Follows(c: Charge, d: Charge, ticket: nat) {
    d.ticket == c.ticket && (c.ticket != ticket || c.settled ==> d == c)
  }

  lemma TouchesTransitive(a: map<Key, seq<Charge>>, b: map<Key, seq<Charge>>, c: map<Key, seq<Charge>>, ticket: nat)
    requires OnlyTouches(a, b, ticket) && OnlyTouches(b, c, ticket)
    ensures OnlyTouches(a, c, ticket)
  {
    forall k, i | k in a && 0 <= i < |a[k]| ensures Follows(a[k][i], c[k][i], ticket) {
      assert Follows(a[k][i], b[k][i], ticket) && Follows(b[k][i], c[k][i], ticket);
    }
  }

  lemma SelfTouch(ledger: map<Key, seq<Charge>>, ticket: nat)
    ensures OnlyTouches(ledger, ledger, ticket)
  {
  }

  lemma ChargeTouches(b: Books, k: Key, c: Charge)
    ensures OnlyTouches(b.ledger, ChargeOne(b, k, c).ledger, c.ticket)
  {
  }

  lemma SettleTouches(b: Books, x: Place, rows: nat, bytes: nat, count: nat, size: nat)
    requires Open(b.ledger, x, rows, bytes)
    ensures OnlyTouches(b.ledger, SettleOne(b, x, rows, bytes, count, size).ledger, b.ledger[x.key][x.at].ticket)
  {
  }

  // ----- The three files of a query -----

  type Paths = s: seq<Key> | |s| == 3 witness [UserKey("", 0), UserKey("", 0), UserKey("", 0)]

  type Placement = s: seq<Place> | |s| == 3
    witness [Place(UserKey("", 0), 0), Place(UserKey("", 0), 0), Place(UserKey("", 0), 0)]

  function PathsOf(p: Policies, scope: string, run: Id, hour: int): Paths {
    [MessageKey(scope, run), UserKey(scope, hour), DepartmentKey(p.departmentOf(scope), hour)]
  }

  predicate ThreeKinds(paths: Paths) {
    paths[0].MessageKey? && paths[1].UserKey? && paths[2].DepartmentKey?
  }

  /** The query's charge stands in its message's, its user's and its department's file. */
  predicate Placed(ledger: map<Key, seq<Charge>>, ticket: nat, x: Placement) {
    && x[0].key.MessageKey? && x[1].key.UserKey? && x[2].key.DepartmentKey?
    && forall i :: 0 <= i < 3 ==> StandsAt(ledger, x[i]) && ledger[x[i].key][x[i].at].ticket == ticket
  }

  lemma PlacedStays(before: map<Key, seq<Charge>>, ledger: map<Key, seq<Charge>>, any: nat, ticket: nat, x: Placement)
    requires OnlyTouches(before, ledger, any) && Placed(before, ticket, x)
    ensures Placed(ledger, ticket, x)
  {
    forall i | 0 <= i < 3 ensures StandsAt(ledger, x[i]) && ledger[x[i].key][x[i].at].ticket == ticket {
      assert Follows(before[x[i].key][x[i].at], ledger[x[i].key][x[i].at], any);
    }
  }

  lemma OpenStays(before: map<Key, seq<Charge>>, ledger: map<Key, seq<Charge>>, other: nat, x: Place, rows: nat, bytes: nat)
    requires OnlyTouches(before, ledger, other) && Open(before, x, rows, bytes)
    requires before[x.key][x.at].ticket != other
    ensures Open(ledger, x, rows, bytes)
  {
    assert Follows(before[x.key][x.at], ledger[x.key][x.at], other);
  }

  /** The first n of the three files charged. */
  function ChargeFirst(b: Books, paths: Paths, n: nat, c: Charge): Books
    requires n <= 3
  {
    if n == 0 then b else ChargeOne(ChargeFirst(b, paths, n - 1, c), paths[n - 1], c)
  }

  /** The first n of the three files settled. */
  function SettleFirst(b: Books, x: Placement, n: nat, rows: int, bytes: int, count: nat, size: nat): Books
    requires n <= 3
  {
    if n == 0 then b else SettleOne(SettleFirst(b, x, n - 1, rows, bytes, count, size), x[n - 1], rows, bytes, count, size)
  }

  ghost predicate AllAffordable(files: map<Key, Budget>, p: Policies, paths: Paths, rows: nat, bytes: nat) {
    forall i :: 0 <= i < 3 ==> Affordable(Held(files, paths[i]), rows, bytes, LimitsOf(p, paths[i]))
  }

  /** Charging some of the files leaves the others as they were. */
  lemma {:induction false} LaterFilesStay(b: Books, paths: Paths, n: nat, c: Charge, i: nat)
    requires ThreeKinds(paths) && n <= i < 3
    ensures var d := ChargeFirst(b, paths, n, c);
      Held(d.files, paths[i]) == Held(b.files, paths[i]) && Charges(d.ledger, paths[i]) == Charges(b.ledger, paths[i])
  {
    if n > 0 { LaterFilesStay(b, paths, n - 1, c, i); }
  }

  lemma {:induction false} ChargesKeepBalance(b: Books, p: Policies, paths: Paths, n: nat, ticket: nat, rows: nat, bytes: nat)
    requires Balanced(b, p) && ThreeKinds(paths) && n <= 3 && AllAffordable(b.files, p, paths, rows, bytes)
    ensures var d := ChargeFirst(b, paths, n, NewCharge(ticket, rows, bytes));
      Balanced(d, p) && OnlyTouches(b.ledger, d.ledger, ticket)
  {
    hide Balanced, OnlyTouches, Affordable, LimitsOf, Held, Charges, ChargeOne;
    if n == 0 {
      SelfTouch(b.ledger, ticket);
    } else {
      var c := NewCharge(ticket, rows, bytes);
      var d := ChargeFirst(b, paths, n - 1, c);
      ChargesKeepBalance(b, p, paths, n - 1, ticket, rows, bytes);
      LaterFilesStay(b, paths, n - 1, c, n - 1);
      ChargeKeepsBalance(d, p, paths[n - 1], ticket, rows, bytes);
      ChargeTouches(d, paths[n - 1], c);
      TouchesTransitive(b.ledger, d.ledger, ChargeOne(d, paths[n - 1], c).ledger, ticket);
    }
  }

  function NextPlaces(ledger: map<Key, seq<Charge>>, paths: Paths): Placement {
    [Place(paths[0], |Charges(ledger, paths[0])|), Place(paths[1], |Charges(ledger, paths[1])|),
     Place(paths[2], |Charges(ledger, paths[2])|)]
  }

  /** After all three writes the query stands in its files, under its full reservation. */
  lemma AllCharged(b: Books, paths: Paths, c: Charge)
    requires ThreeKinds(paths) && !c.settled
    ensures var d, x := ChargeFirst(b, paths, 3, c), NextPlaces(b.ledger, paths);
      && Placed(d.ledger, c.ticket, x)
      && forall i :: 0 <= i < 3 ==> Open(d.ledger, x[i], c.askedRows, c.askedBytes)
  {
    var one, two := ChargeFirst(b, paths, 1, c), ChargeFirst(b, paths, 2, c);
    assert one == ChargeOne(ChargeFirst(b, paths, 0, c), paths[0], c) == ChargeOne(b, paths[0], c);
    assert two == ChargeOne(one, paths[1], c);
    assert ChargeFirst(b, paths, 3, c) == ChargeOne(two, paths[2], c);
  }

  lemma SettleNext(b: Books, ticket: nat, x: Placement, i: nat, rows: nat, bytes: nat, count: nat, size: nat)
    requires Placed(b.ledger, ticket, x) && i < 3
    ensures var d := SettleOne(b, x[i], rows, bytes, count, size);
      && Placed(d.ledger, ticket, x) && Settled(d.ledger, x[i], count, size)
      && (forall j :: 0 <= j < 3 && j != i && Settled(b.ledger, x[j], count, size) ==> Settled(d.ledger, x[j], count, size))
      && (forall j :: 0 <= j < 3 && j != i && Open(b.ledger, x[j], rows, bytes) ==> Open(d.ledger, x[j], rows, bytes))
  {
  }

  /** Settling leaves the files balanced, closes the charges of the first n and touches no other query. */
  lemma {:induction false} SettlesKeepBalance(b: Books, p: Policies, ticket: nat, x: Placement, n: nat,
                                              rows: nat, bytes: nat, count: nat, size: nat)
    requires Balanced(b, p) && Placed(b.ledger, ticket, x) && n <= 3 && count <= rows && size <= bytes
    requires forall i :: 0 <= i < 3 ==> Open(b.ledger, x[i], rows, bytes)
    ensures var d := SettleFirst(b, x, n, rows, bytes, count, size);
      && Balanced(d, p) && OnlyTouches(b.ledger, d.ledger, ticket) && Placed(d.ledger, ticket, x)
      && forall i :: 0 <= i < 3 ==>
           if i < n then Settled(d.ledger, x[i], count, size) else Open(d.ledger, x[i], rows, bytes)
  {
    hide Balanced, OnlyTouches, Settled, SettleOne;
    if n == 0 {
      SelfTouch(b.ledger, ticket);
    } else {
      var d := SettleFirst(b, x, n - 1, rows, bytes, count, size);
      SettlesKeepBalance(b, p, ticket, x, n - 1, rows, bytes, count, size);
      var y := x[n - 1];
      SettleNext(d, ticket, x, n - 1, rows, bytes, count, size);
      SettleKeepsBalance(d, p, y, rows, bytes, count, size);
      SettleTouches(d, y, rows, bytes, count, size);
      TouchesTransitive(b.ledger, d.ledger, SettleOne(d, y, rows, bytes, count, size).ledger, ticket);
    }
  }

  /** What charging adds to the books: the query's charge at the places it is given. */
  lemma {:induction false} OnlyNewPlaces(b: Books, paths: Paths, n: nat, c: Charge, k: Key, i: nat)
    requires ThreeKinds(paths) && n <= 3
    requires var d := ChargeFirst(b, paths, n, c); k in d.ledger && i < |d.ledger[k]|
    ensures var e := ChargeFirst(b, paths, n, c).ledger[k][i];
      || (k in b.ledger && i < |b.ledger[k]| && e == b.ledger[k][i])
      || (e == c && Place(k, i) in NextPlaces(b.ledger, paths))
  {
    if n > 0 {
      var d := ChargeFirst(b, paths, n - 1, c);
      LaterFilesStay(b, paths, n - 1, c, n - 1);
      if k != paths[n - 1] || i < |Charges(d.ledger, k)| {
        OnlyNewPlaces(b, paths, n - 1, c, k, i);
      } else {
        assert NextPlaces(b.ledger, paths)[n - 1] == Place(k, i);
      }
    }
  }

  lemma {:induction false} SettleAddsNothing(b: Books, x: Placement, n: nat, rows: int, bytes: int, count: nat, size: nat)
    requires n <= 3
    ensures var d := SettleFirst(b, x, n, rows, bytes, count, size);
      d.ledger.Keys == b.ledger.Keys && forall k :: k in b.ledger ==> |d.ledger[k]| == |b.ledger[k]|
  {
    if n > 0 { SettleAddsNothing(b, x, n - 1, rows, bytes, count, size); }
  }

  lemma WasOpen(before: map<Key, seq<Charge>>, ledger: map<Key, seq<Charge>>, any: nat, k: Key, i: nat)
    requires OnlyTouches(before, ledger, any) && k in before && i < |before[k]|
    ensures k in ledger && i < |ledger[k]| && ledger[k][i].ticket == before[k][i].ticket
    ensures !ledger[k][i].settled ==> !before[k][i].settled
  {
    assert Follows(before[k][i], ledger[k][i], any);
  }

  lemma ClosedPlaces(ledger: map<Key, seq<Charge>>, x: Placement, y: Place, count: nat, size: nat)
    requires forall i :: 0 <= i < 3 ==> Settled(ledger, x[i], count, size)
    ensures y in x ==> StandsAt(ledger, y) && ledger[y.key][y.at].settled
  {
  }

  lemma SettledStaysAt(before: map<Key, seq<Charge>>, ledger: map<Key, seq<Charge>>, any: nat, x: Place, count: nat, size: nat)
    requires OnlyTouches(before, ledger, any) && Settled(before, x, count, size)
    ensures Settled(ledger, x, count, size)
  {
    assert Follows(before[x.key][x.at], ledger[x.key][x.at], any);
  }

  // ----- Used and reserved -----

  /** The rows of the queries that were settled. */
  function UsedRows(charges: seq<Charge>): nat {
    if charges == [] then 0
    else UsedRows(charges[..|charges| - 1]) + if charges[|charges| - 1].settled then charges[|charges| - 1].rows else 0
  }

  /** The rows that queries in flight, and queries whose process died, have reserved. */
  function ReservedRows(charges: seq<Charge>): nat {
    if charges == [] then 0
    else ReservedRows(charges[..|charges| - 1]) + if charges[|charges| - 1].settled then 0 else charges[|charges| - 1].askedRows
  }

  function UsedBytes(charges: seq<Charge>): nat {
    if charges == [] then 0
    else UsedBytes(charges[..|charges| - 1]) + if charges[|charges| - 1].settled then charges[|charges| - 1].bytes else 0
  }

  function ReservedBytes(charges: seq<Charge>): nat {
    if charges == [] then 0
    else ReservedBytes(charges[..|charges| - 1]) + if charges[|charges| - 1].settled then 0 else charges[|charges| - 1].askedBytes
  }

  lemma {:induction false} TotalsSplit(charges: seq<Charge>)
    requires forall i :: 0 <= i < |charges| ==> Honest(charges[i])
    ensures TotalRows(charges) == UsedRows(charges) + ReservedRows(charges)
    ensures TotalBytes(charges) == UsedBytes(charges) + ReservedBytes(charges)
  {
    if charges != [] {
      assert Honest(charges[|charges| - 1]);
      TotalsSplit(charges[..|charges| - 1]);
    }
  }

  lemma {:induction false} NothingReserved(charges: seq<Charge>)
    requires forall i :: 0 <= i < |charges| ==> charges[i].settled
    ensures ReservedRows(charges) == 0 && ReservedBytes(charges) == 0
  {
    if charges != [] { NothingReserved(charges[..|charges| - 1]); }
  }
}
