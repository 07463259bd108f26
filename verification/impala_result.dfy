/** ImpalaTools._execute: fetching the rows of one query under row, cell and byte limits, and how it
    ends.  The driver, the clock and cancellation appear as a script of what they do. */
module ImpalaResult {
  import opened Outcomes
  import opened FileNames
  import opened Utf8
  import opened ImpalaCells
  import opened ImpalaJson

  /** The fields of QueryPolicy that bound a result. */
  datatype Policy = Policy(defaultRows: nat, maxRows: nat, maxBytes: nat, cellBytes: nat, maxColumns: nat)

  /** QueryPolicy.__post_init__ */
  predicate Sound(p: Policy) {
    && 1 <= p.defaultRows <= p.maxRows <= 10_000
    && 4096 <= p.maxBytes <= 256_000 && 1 <= p.cellBytes <= p.maxBytes && 1 <= p.maxColumns <= 100
  }

  datatype Profile = Profile(department: Text, account: Text, policy: Policy)

  /** The length checks of DepartmentBindings.resolve. */
  predicate Bound(p: Profile) {
    Sound(p.policy) && 1 <= |p.department| <= 100 && 1 <= |p.account| <= 200
  }

  const SLACK: nat := 1024

  /** A DomainError of this code base, or any exception of the driver. */
  datatype Failure = Refused(problem: Problem) | Broke

  /** How far a query came before its setup failed: what there is to clean up, and whether anything was sent. */
  datatype Stage = Unconnected | Connected | Opened | Sent

  /** What happens around the fetch loop. */
  datatype Script = Script(
    setup: Option<Failure>,          // before the query has finished remotely
    reached: Stage,                  // the stage at which that happened
    queryId: Option<Text>,
    columns: seq<Text>,
    rows: seq<seq<Value>>,           // the remote rows, in the order of fetchmany(1)
    stops: map<nat, Failure>,        // at the checkpoint or fetch after that many rows
    last: Option<Failure>,           // at the checkpoint after the loop
    cancelling: bool,                // the flag is set when a DomainError is handled
    unconfirmed: bool,               // the remote state after cancel_operation is not final
    cleanupFails: bool,
    closeFails: bool,
    elapsed: nat)

  predicate Short(f: Failure) {
    f.Refused? ==> |f.problem.code| <= 32 && |f.problem.message| <= 200
  }

  /** The messages are this code base's own; the clock does not run for 10^20 milliseconds; a query id
      is two numbers of 16 hexadecimal digits. */
  predicate Plausible(s: Script) {
    && (s.setup.Some? ==> Short(s.setup.value)) && (s.last.Some? ==> Short(s.last.value))
    && (forall n :: n in s.stops ==> Short(s.stops[n]))
    && s.elapsed < Power10(20) && (s.queryId.Some? ==> |s.queryId.value| <= 33)
  }

  function StageOf(s: Script): Stage {
    if s.setup.None? then Sent else s.reached
  }

  /** There is a cursor to clean up, and that fails. */
  predicate CleanupFails(s: Script) {
    (StageOf(s).Opened? || StageOf(s).Sent?) && s.cleanupFails
  }

  /** There is a cursor to cancel, and the remote state afterwards is not final. */
  predicate Unconfirmed(s: Script) {
    (StageOf(s).Opened? || StageOf(s).Sent?) && s.unconfirmed
  }

  /** There is a connection to close, and that fails. */
  predicate CloseFails(s: Script) {
    !StageOf(s).Unconnected? && s.closeFails
  }

  function Ascii(s: string): Text {
    seq(|s|, i requires 0 <= i < |s| => s[i] as int)
  }

  const TOO_WIDE := Problem(Ascii("INVALID_REQUEST"), Ascii("Result has too many columns"))
  const METADATA := Problem(Ascii("INVALID_REQUEST"), Ascii("Result column metadata exceeds byte limit"))
  const DRIVER := Problem(Ascii("EXECUTION_FAILED"), Ascii("Impala connection/query failed; remote status may be unknown"))
  const CLEANUP := Problem(Ascii("EXECUTION_FAILED"), Ascii("Remote cleanup could not be confirmed"))

  /** The names of the columns, cut to 128 characters. */
  function Titles(columns: seq<Text>): seq<Text> {
    seq(|columns|, i requires 0 <= i < |columns| => if |columns[i]| > 128 then columns[i][..128] else columns[i])
  }

  // ----- What the rows are -----

  function Image(row: seq<Value>, limit: nat): seq<Cell> {
    seq(|row|, i requires 0 <= i < |row| => Kept(row[i], limit))
  }

  function Images(rows: seq<seq<Value>>, limit: nat): seq<seq<Cell>> {
    seq(|rows|, i requires 0 <= i < |rows| => Image(rows[i], limit))
  }

  predicate RowCut(row: seq<Value>, limit: nat) {
    exists i :: 0 <= i < |row| && TooLong(row[i], limit)
  }

  predicate SomeRowCut(rows: seq<seq<Value>>, limit: nat) {
    exists i :: 0 <= i < |rows| && RowCut(rows[i], limit)
  }

  lemma ImagesAppend(rows: seq<seq<Value>>, n: nat, limit: nat)
    requires n < |rows|
    ensures Images(rows[..n + 1], limit) == Images(rows[..n], limit) + [Image(rows[n], limit)]
    ensures SomeRowCut(rows[..n + 1], limit) <==> SomeRowCut(rows[..n], limit) || RowCut(rows[n], limit)
  {
    var more, less := rows[..n + 1], rows[..n];
    assert forall i :: 0 <= i < n ==> more[i] == less[i];
    assert more[n] == rows[n];
    if SomeRowCut(less, limit) {
      var i :| 0 <= i < |less| && RowCut(less[i], limit);
      assert RowCut(more[i], limit);
    }
  }

  /** The state of the fetch loop after n rows: they are the cell-cut image of the first n remote rows,
      and leave the slack free. */
  ghost predicate Fetched(result: Result, rows: seq<seq<Value>>, n: nat, wanted: nat, policy: Policy) {
    && n <= |rows| && n <= wanted && result.rows == Images(rows[..n], policy.cellBytes)
    && |Encoded(result.(reasons := []))| + SLACK <= policy.maxBytes
    && (CellLimit in result.reasons <==> SomeRowCut(rows[..n], policy.cellBytes))
  }

  /** Everything of a running result but its rows and its reasons. */
  predicate SameRun(a: Result, b: Result) {
    b == a.(rows := b.rows, reasons := b.reasons)
  }

  /** The candidate that did not fit: one more row, before its rejection was noted. */
  function WithNext(result: Result, row: seq<Cell>): Result
    requires result.reasons != []
  {
    result.(rows := result.rows + [row], reasons := result.reasons[..|result.reasons| - 1])
  }

  /** Why the loop stopped after n rows, if nothing failed. */
  ghost predicate Ended(result: Result, rows: seq<seq<Value>>, n: nat, wanted: nat, policy: Policy) {
    && |result.reasons| <= 2
    && (n == |rows| <==> RowLimit !in result.reasons && ByteLimit !in result.reasons)
    && (RowLimit in result.reasons ==> n == wanted < |rows|)
    && (ByteLimit in result.reasons ==>
          n < |rows| && |Encoded(WithNext(result, Image(rows[n], policy.cellBytes)))| + SLACK > policy.maxBytes)
  }

  // ----- Where the loop ends -----

  /** The first k rows and one more leave the slack free. */
  ghost predicate Fits(header: Result, rows: seq<seq<Value>>, k: nat, policy: Policy)
    requires k < |rows|
  {
    var reasons := if SomeRowCut(rows[..k], policy.cellBytes) then [CellLimit] else [];
    |Encoded(header.(rows := Images(rows[..k + 1], policy.cellBytes), reasons := reasons))| + 1024 <= policy.maxBytes
  }

  /** With k rows fetched the loop goes no further: something is raised, the remote rows are all there, or
      the next one is not wanted or does not fit. */
  ghost predicate StopsAt(header: Result, script: Script, wanted: nat, policy: Policy, k: nat) {
    k in script.stops || k >= |script.rows| || k >= wanted || !Fits(header, script.rows, k, policy)
  }

  ghost predicate EndsAt(header: Result, script: Script, wanted: nat, policy: Policy, e: nat) {
    && e <= |script.rows| && StopsAt(header, script, wanted, policy, e)
    && forall k :: 0 <= k < e ==> !StopsAt(header, script, wanted, policy, k)
  }

  /** The loop of _execute. */
  method Fetch(start: Result, script: Script, wanted: nat, policy: Policy)
    returns (result: Result, failure: Option<Failure>, ghost n: nat)
    requires start.rows == [] && start.reasons == []
    requires |Encoded(start)| + SLACK <= policy.maxBytes
    ensures SameRun(start, result) && |result.reasons| <= 2 && |result.rows| == n
    ensures Fetched(result, script.rows, n, wanted, policy)
    ensures failure.None? ==> Ended(result, script.rows, n, wanted, policy)
    ensures EndsAt(start, script, wanted, policy, n)
    ensures failure == if n in script.stops then Some(script.stops[n]) else None
  {
    hide Encoded, RowCut, Fetched, Ended, StopsAt;
    result, failure := start, None;
    var i := 0;
    n := 0;
    NothingFetched(start, script.rows, wanted, policy);
    while true
      invariant n == i == |result.rows| <= |script.rows|
      invariant SameRun(start, result) && (result.reasons == [] || result.reasons == [CellLimit])
      invariant Fetched(result, script.rows, i, wanted, policy)
      invariant forall k :: 0 <= k < i ==> !StopsAt(start, script, wanted, policy, k)
      decreases |script.rows| - i
    {
      StopsOrFits(start, result, script, wanted, policy, i);
      if i in script.stops { return result, Some(script.stops[i]), i; }
      if i == |script.rows| {
        AllFetched(result, script.rows, wanted, policy);
        return result, None, i;
      }
      if |result.rows| >= wanted {
        StoppedShort(result, script.rows, i, wanted, policy, RowLimit);
        result := result.(reasons := result.reasons + [RowLimit]);
        return result, None, i;
      }
      var row, cut := Row(script.rows[i], policy.cellBytes);
      RowIsImage(script.rows[i], policy.cellBytes, row, cut);
      var candidate := result.(rows := result.rows + [row]);
      if |Encoded(candidate)| + SLACK > policy.maxBytes {
        StoppedShort(result, script.rows, i, wanted, policy, ByteLimit);
        result := result.(reasons := result.reasons + [ByteLimit]);
        return result, None, i;
      }
      RowFetched(result, script.rows, i, wanted, policy, cut);
      result := candidate;
      if cut && CellLimit !in result.reasons {
        result := result.(reasons := result.reasons + [CellLimit]);
      }
      i, n := i + 1, i + 1;
    }
  }

  lemma StopsOrFits(start: Result, result: Result, script: Script, wanted: nat, policy: Policy, i: nat)
    requires SameRun(start, result) && (result.reasons == [] || result.reasons == [CellLimit])
    requires Fetched(result, script.rows, i, wanted, policy)
    ensures StopsAt(start, script, wanted, policy, i) <==>
              i in script.stops || i >= |script.rows| || i >= wanted
              || |Encoded(result.(rows := result.rows + [Image(script.rows[i], policy.cellBytes)]))| + SLACK > policy.maxBytes
  {
    hide Encoded, Images, SomeRowCut, Image;
    if i < |script.rows| {
      ImagesAppend(script.rows, i, policy.cellBytes);
      var reasons := if SomeRowCut(script.rows[..i], policy.cellBytes) then [CellLimit] else [];
      assert result.reasons == reasons;
      assert result.(rows := result.rows + [Image(script.rows[i], policy.cellBytes)])
             == start.(rows := Images(script.rows[..i + 1], policy.cellBytes), reasons := reasons);
    }
  }

  lemma NothingFetched(start: Result, rows: seq<seq<Value>>, wanted: nat, policy: Policy)
    requires start.rows == [] && start.reasons == [] && |Encoded(start)| + SLACK <= policy.maxBytes
    ensures Fetched(start, rows, 0, wanted, policy)
  {
    hide Encoded;
    assert start.(reasons := []) == start && Images(rows[..0], policy.cellBytes) == [];
  }

  lemma AllFetched(result: Result, rows: seq<seq<Value>>, wanted: nat, policy: Policy)
    requires result.reasons == [] || result.reasons == [CellLimit]
    ensures Ended(result, rows, |rows|, wanted, policy)
  {
  }

  /** Giving up after n rows, for a reason that holds. */
  lemma StoppedShort(result: Result, rows: seq<seq<Value>>, n: nat, wanted: nat, policy: Policy, why: Reason)
    requires result.reasons == [] || result.reasons == [CellLimit]
    requires n < |rows| && n == |result.rows| && Fetched(result, rows, n, wanted, policy)
    requires why == RowLimit || why == ByteLimit
    requires why == RowLimit ==> n >= wanted
    requires why == ByteLimit ==>
               |Encoded(result.(rows := result.rows + [Image(rows[n], policy.cellBytes)]))| + SLACK > policy.maxBytes
    ensures var stopped := result.(reasons := result.reasons + [why]);
      Fetched(stopped, rows, n, wanted, policy) && Ended(stopped, rows, n, wanted, policy)
  {
    hide Encoded, Images, SomeRowCut, Image;
    var stopped := result.(reasons := result.reasons + [why]);
    assert stopped.(reasons := []) == result.(reasons := []);
    assert stopped.reasons[..|stopped.reasons| - 1] == result.reasons;
    assert WithNext(stopped, Image(rows[n], policy.cellBytes))
           == result.(rows := result.rows + [Image(rows[n], policy.cellBytes)]);
  }

  /** One more row that fits. */
  lemma RowFetched(result: Result, rows: seq<seq<Value>>, n: nat, wanted: nat, policy: Policy, cut: bool)
    requires result.reasons == [] || result.reasons == [CellLimit]
    requires n < |rows| && n < wanted && Fetched(result, rows, n, wanted, policy)
    requires cut <==> RowCut(rows[n], policy.cellBytes)
    requires |Encoded(result.(rows := result.rows + [Image(rows[n], policy.cellBytes)]))| + SLACK <= policy.maxBytes
    ensures var next := result.(rows := result.rows + [Image(rows[n], policy.cellBytes)],
                                reasons := if cut then [CellLimit] else result.reasons);
      Fetched(next, rows, n + 1, wanted, policy)
  {
    hide Encoded, Images, SomeRowCut, Image, RowCut;
    ReasonsOnlyAdd(result.(rows := result.rows + [Image(rows[n], policy.cellBytes)]));
    ImagesAppend(rows, n, policy.cellBytes);
  }

  lemma RowIsImage(values: seq<Value>, limit: nat, row: seq<Cell>, cut: bool)
    requires |row| == |values| && forall i :: 0 <= i < |values| ==> row[i] == Kept(values[i], limit)
    requires cut <==> exists i :: 0 <= i < |values| && TooLong(values[i], limit)
    ensures row == Image(values, limit) && (cut <==> RowCut(values, limit))
  {
  }

  // ----- The whole of _execute -----

  function Running(ref: Text, profile: Profile): Result {
    Result(ref, None, Status.Running, profile.department, profile.account, [], [], 0, false, [], None, None)
  }

  /** The result before its first row. */
  function Header(ref: Text, profile: Profile, script: Script): Result {
    Running(ref, profile).(queryId := script.queryId, columns := Titles(script.columns))
  }

  lemma {:induction false} EndExists(header: Result, script: Script, wanted: nat, policy: Policy, k: nat)
    requires k <= |script.rows| && forall j :: 0 <= j < k ==> !StopsAt(header, script, wanted, policy, j)
    ensures exists e :: EndsAt(header, script, wanted, policy, e)
    decreases |script.rows| - k
  {
    hide Encoded, Fits;
    if StopsAt(header, script, wanted, policy, k) {
      assert EndsAt(header, script, wanted, policy, k);
    } else {
      EndExists(header, script, wanted, policy, k + 1);
    }
  }

  lemma EndIsUnique(header: Result, script: Script, wanted: nat, policy: Policy, d: nat, e: nat)
    requires EndsAt(header, script, wanted, policy, d) && EndsAt(header, script, wanted, policy, e)
    ensures d == e
  {
    hide StopsAt;
  }

  /** How many rows the loop fetches. */
  ghost function LoopEnd(header: Result, script: Script, wanted: nat, policy: Policy): (e: nat)
    ensures EndsAt(header, script, wanted, policy, e)
  {
    EndExists(header, script, wanted, policy, 0);
    var e :| EndsAt(header, script, wanted, policy, e);
    e
  }

  predicate HeaderFits(header: Result, script: Script, policy: Policy) {
    |script.columns| <= policy.maxColumns && |Encoded(header)| + 1024 <= policy.maxBytes
  }

  /** What is raised first, if anything is: by the setup, for the columns, by the checkpoint or the fetch with
      which the loop ends, or by the checkpoint after it. */
  ghost function FirstRaised(ref: Text, profile: Profile, script: Script, wanted: nat): Option<Failure> {
    var header, policy := Header(ref, profile, script), profile.policy;
    if script.setup.Some? then script.setup
    else if |script.columns| > policy.maxColumns then Some(Refused(TOO_WIDE))
    else if !HeaderFits(header, script, policy) then Some(Refused(METADATA))
    else
      var e := LoopEnd(header, script, wanted, policy);
      if e in script.stops then Some(script.stops[e]) else script.last
  }

  /** Nothing is raised exactly when the setup, every checkpoint and fetch up to where the loop ends and the
      checkpoint after it succeed, the columns are not too many and their names leave the slack free. */
  lemma NothingRaised(ref: Text, profile: Profile, script: Script, wanted: nat)
    ensures FirstRaised(ref, profile, script, wanted).None? <==>
              && script.setup.None? && HeaderFits(Header(ref, profile, script), script, profile.policy) && script.last.None?
              && exists e :: EndsAt(Header(ref, profile, script), script, wanted, profile.policy, e) && e !in script.stops
  {
    hide Encoded, EndsAt;
    var header, policy := Header(ref, profile, script), profile.policy;
    var end := LoopEnd(header, script, wanted, policy);
    forall e | EndsAt(header, script, wanted, policy, e) ensures e == end {
      EndIsUnique(header, script, wanted, policy, e, end);
    }
  }

  /** How an exception is recorded. */
  function Recorded(result: Result, f: Failure, script: Script): Result {
    match f
    case Refused(problem) =>
      result.(status := if script.cancelling then Cancelled else Failed, error := Some(problem))
    case Broke =>
      result.(status := if StageOf(script).Sent? then Unknown else Failed, error := Some(DRIVER))
  }

  /** The `finally` block: remote cleanup, and what only a confirmed success keeps. */
  function Closed(result: Result, script: Script): Result {
    var checked := if result.status != Succeeded && Unconfirmed(script) then result.(status := Unknown) else result;
    var cleaned :=
      if CleanupFails(script) then checked.(status := Unknown, error := Some(CLEANUP)) else checked;
    var closed := if CloseFails(script) then cleaned.(status := Unknown) else cleaned;
    var kept := if closed.status != Succeeded then closed.(rows := [], columns := []) else closed;
    kept.(rowCount := |kept.rows|, truncated := kept.reasons != [], elapsed := Some(script.elapsed))
  }

  /** The exact case of each status, by what was raised and what could not be confirmed afterwards; the error
      that goes with it; and who asked for what. */
  ghost predicate Told(result: Result, ref: Text, profile: Profile, script: Script, raised: Option<Failure>) {
    var confirmed := !CleanupFails(script) && !CloseFails(script);
    var refused := raised.Some? && raised.value.Refused?;
    var broke := raised.Some? && raised.value.Broke?;
    && (result.status == Succeeded <==> raised.None? && confirmed)
    && (result.status == Cancelled <==> refused && script.cancelling && confirmed && !Unconfirmed(script))
    && (result.status == Failed <==>
          ((refused && !script.cancelling) || (broke && !StageOf(script).Sent?)) && confirmed && !Unconfirmed(script))
    && (result.status == Unknown <==>
          !confirmed || (raised.Some? && Unconfirmed(script)) || (broke && StageOf(script).Sent?))
    && result.error == (if CleanupFails(script) then Some(CLEANUP)
                        else if refused then Some(raised.value.problem)
                        else if broke then Some(DRIVER)
                        else None)
    && result.queryRef == ref && result.department == profile.department && result.account == profile.account
    && result.queryId == script.queryId && result.elapsed == Some(script.elapsed)
    && (result.status == Succeeded ==>
          && |result.columns| == |script.columns|
          && forall i :: 0 <= i < |result.columns| ==> IsTitle(result.columns[i], script.columns[i]))
  }

  /** The name, or its first 128 characters. */
  predicate IsTitle(title: Text, name: Text) {
    if |name| <= 128 then title == name else |title| == 128 && title <= name
  }

  /** What a caller may rely on: size, and the meaning of the rows and of `truncated`. */
  ghost predicate Faithful(result: Result, script: Script, wanted: nat, policy: Policy) {
    && |Encoded(result)| <= policy.maxBytes
    && result.rowCount == |result.rows| <= wanted && (result.truncated <==> result.reasons != [])
    && (result.status != Succeeded ==> result.rows == [] && result.columns == [])
    && (result.status == Succeeded ==>
          var n := |result.rows|;
          && n <= |script.rows| && result.rows == Images(script.rows[..n], policy.cellBytes)
          && (result.truncated <==> n < |script.rows| || SomeRowCut(script.rows[..n], policy.cellBytes)))
  }

  method Execute(ref: Text, profile: Profile, script: Script, wanted: nat) returns (result: Result)
    requires Bound(profile) && Plausible(script) && |ref| <= 36 && wanted <= profile.policy.maxRows
    ensures Faithful(result, script, wanted, profile.policy)
    ensures Told(result, ref, profile, script, FirstRaised(ref, profile, script, wanted))
    ensures result.status == Succeeded ==>
              EndsAt(Header(ref, profile, script), script, wanted, profile.policy, |result.rows|)
    ensures result.status != Status.Running
  {
    hide Encoded, Ended, Fetched, Faithful, Closed, Power10, EndsAt, Told, CleanupFails, CloseFails, Unconfirmed;
    var policy := profile.policy;
    result := Running(ref, profile).(queryId := script.queryId);
    var failure := script.setup;
    ghost var n := 0;
    if failure.None? {
      if |script.columns| > policy.maxColumns {
        failure := Some(Refused(TOO_WIDE));
      } else {
        result := result.(columns := Titles(script.columns));
        if |Encoded(result)| + SLACK > policy.maxBytes {
          failure := Some(Refused(METADATA));
        } else {
          result, failure, n := Fetch(result, script, wanted, policy);
          EndIsUnique(Header(ref, profile, script), script, wanted, policy, n,
                      LoopEnd(Header(ref, profile, script), script, wanted, policy));
          if failure.None? { failure := script.last; }
        }
      }
    }
    if failure.None? {
      SuccessIsTold(result, ref, profile, script);
      SucceededIsFaithful(result, script, n, wanted, policy);
      result := result.(status := Succeeded);
    } else {
      FailureIsTold(result, ref, profile, script, failure.value);
      result := Recorded(result, failure.value, script);
      FailedIsFaithful(result, script, wanted, policy);
    }
    result := Closed(result, script);
  }

  lemma SuccessIsTold(running: Result, ref: Text, profile: Profile, script: Script)
    requires SameRun(Header(ref, profile, script), running) && script.setup.None?
    ensures var done := Closed(running.(status := Succeeded), script);
      && Told(done, ref, profile, script, None)
      && (done.status == Succeeded ==> done.rows == running.rows)
  {
    hide CleanupFails, CloseFails, Unconfirmed;
  }

  lemma FailureIsTold(running: Result, ref: Text, profile: Profile, script: Script, f: Failure)
    requires running == Running(ref, profile).(queryId := script.queryId, columns := running.columns,
                                               rows := running.rows, reasons := running.reasons)
    ensures Told(Closed(Recorded(running, f, script), script), ref, profile, script, Some(f))
    ensures Closed(Recorded(running, f, script), script).status != Succeeded
  {
    hide CleanupFails, CloseFails, Unconfirmed;
  }

  lemma SucceededIsFaithful(running: Result, script: Script, n: nat, wanted: nat, policy: Policy)
    requires Sound(policy) && Plausible(script) && wanted <= policy.maxRows && Small(running)
    requires running.status == Status.Running && running.rowCount == 0 && !running.truncated
    requires running.error.None? && running.elapsed.None?
    requires Fetched(running, script.rows, n, wanted, policy) && Ended(running, script.rows, n, wanted, policy)
    ensures Faithful(Closed(running.(status := Succeeded), script), script, wanted, policy)
    ensures Closed(running.(status := Succeeded), script).status != Status.Running
  {
    hide Encoded, Faithful, Fetched, Ended, Power10;
    var done := Closed(running.(status := Succeeded), script);
    if done.status == Succeeded {
      EnoughSlack(running, done, script, n, wanted, policy);
      FetchedIsFaithful(running, done, script, n, wanted, policy);
    } else {
      NotSucceededIsFaithful(done, script, wanted, policy);
    }
  }

  /** The slack of 1024 bytes holds whatever the end of a query adds. */
  lemma EnoughSlack(running: Result, done: Result, script: Script, n: nat, wanted: nat, policy: Policy)
    requires Sound(policy) && Plausible(script) && wanted <= policy.maxRows
    requires running.status == Status.Running && running.rowCount == 0 && !running.truncated
    requires running.error.None? && running.elapsed.None? && |running.reasons| <= 2
    requires Fetched(running, script.rows, n, wanted, policy)
    requires done == running.(status := Succeeded, rowCount := |running.rows|, truncated := running.reasons != [],
                              elapsed := Some(script.elapsed))
    ensures |Encoded(done)| <= policy.maxBytes
  {
    assert Power10(5) == 100_000;
    hide Encoded, SomeRowCut, Power10, Images;
    assert |running.rows| <= wanted by { ImagesLength(script.rows[..n], policy.cellBytes); }
    SuccessSize(running.(reasons := []), done);
  }

  lemma ImagesLength(rows: seq<seq<Value>>, limit: nat)
    ensures |Images(rows, limit)| == |rows|
  {
  }

  lemma FetchedIsFaithful(running: Result, done: Result, script: Script, n: nat, wanted: nat, policy: Policy)
    requires Fetched(running, script.rows, n, wanted, policy) && Ended(running, script.rows, n, wanted, policy)
    requires done == running.(status := Succeeded, rowCount := |running.rows|, truncated := running.reasons != [],
                              elapsed := Some(script.elapsed))
    requires |Encoded(done)| <= policy.maxBytes
    ensures Faithful(done, script, wanted, policy)
  {
    hide Encoded, SomeRowCut, Images, WithNext;
    ImagesLength(script.rows[..n], policy.cellBytes);
    ReasonsMeanTruncation(running.reasons);
  }

  lemma ReasonsMeanTruncation(reasons: seq<Reason>)
    ensures reasons != [] <==> RowLimit in reasons || ByteLimit in reasons || CellLimit in reasons
  {
    if reasons != [] {
      var r := reasons[0];
      assert r in reasons && (r == RowLimit || r == ByteLimit || r == CellLimit);
    }
  }

  /** The lengths that no query changes, and those of its error. */
  predicate Small(r: Result) {
    && |r.queryRef| <= 36 && |r.department| <= 100 && |r.account| <= 200 && |r.reasons| <= 2
    && (r.queryId.Some? ==> |r.queryId.value| <= 33)
    && (r.error.Some? ==> |r.error.value.code| <= 32 && |r.error.value.message| <= 200)
  }

  lemma FailedIsFaithful(result: Result, script: Script, wanted: nat, policy: Policy)
    requires Sound(policy) && Plausible(script) && Small(result)
    requires result.status != Succeeded && result.status != Status.Running
    ensures Faithful(Closed(result, script), script, wanted, policy)
    ensures Closed(result, script).status != Status.Running
  {
    hide Faithful;
    NotSucceededIsFaithful(Closed(result, script), script, wanted, policy);
  }

  lemma NotSucceededIsFaithful(result: Result, script: Script, wanted: nat, policy: Policy)
    requires Sound(policy) && result.status != Succeeded && result.rows == [] && result.columns == [] && Small(result)
    requires result.rowCount == 0 && (result.truncated <==> result.reasons != [])
    requires result.elapsed.Some? ==> result.elapsed.value < Power10(20)
    ensures Faithful(result, script, wanted, policy)
  {
    hide Encoded, Power10, Images, SomeRowCut;
    EmptySize(result);
  }
}
