/** The event stream of the HTTP transport: a loop that pages a session's log while API calls and the
    worker go on writing it, and that stops on the evidence of two further, separate reads. */
module EventStream {
  import opened Outcomes
  import opened StateMachine
  import opened RunTables
  import opened EventLog
  import opened EventPaging
  import opened RunInvariants
  import opened RunHistories
  import opened RunLogs
  import opened RunOwnership

  const PAGE: nat := 200

  /** The events of a stretch that the stream writes out: one message's, or all of them. */
  function Wanted(text: seq<Event>, message: Option<Id>): seq<Event> {
    if text == [] then []
    else
      var last := text[|text| - 1];
      Wanted(text[..|text| - 1], message) + if message == None || message == Some(last.run) then [last] else []
  }

  lemma {:induction false} WantedAppend(a: seq<Event>, b: seq<Event>, message: Option<Id>)
    ensures Wanted(a + b, message) == Wanted(a, message) + Wanted(b, message)
  {
    if b == [] {
      assert a + b == a;
    } else {
      var last := b[|b| - 1];
      assert (a + b)[..|a + b| - 1] == a + b[..|b| - 1];
      WantedAppend(a, b[..|b| - 1], message);
    }
  }

  /** The events that follow a cursor. */
  function Tail(log: seq<Event>, after: nat): seq<Event> {
    Between(log, after, |log|)
  }

  // ----- get_current_message -----

  predicate IsCurrent(db: Db, s: Id, r: Id) {
    r in db.runs && db.runs[r].session == s
    && forall o :: o in db.runs && db.runs[o].session == s ==> db.runs[o].runSeq <= db.runs[r].runSeq
  }

  predicate NoMessage(db: Db, s: Id) {
    forall r :: r in db.runs ==> db.runs[r].session != s
  }

  predicate LatestIsOver(db: Db, s: Id) {
    exists r :: r in db.runs && IsCurrent(db, s, r) && Terminal(db.runs[r].status)
  }

  lemma {:induction false} LatestExists(runs: map<Id, Run>, ids: set<Id>)
    requires ids <= runs.Keys && ids != {}
    ensures exists r :: r in ids && forall o :: o in ids ==> runs[o].runSeq <= runs[r].runSeq
    decreases ids
  {
    var x :| x in ids;
    var rest := ids - {x};
    if rest == {} {
      forall o | o in ids ensures o == x { assert o !in rest; }
    } else {
      LatestExists(runs, rest);
      var r :| r in rest && forall o :: o in rest ==> runs[o].runSeq <= runs[r].runSeq;
      var latest := if runs[r].runSeq <= runs[x].runSeq then x else r;
      forall o | o in ids ensures runs[o].runSeq <= runs[latest].runSeq { assert o == x || o in rest; }
    }
  }

  /** SELECT ... WHERE session_id = ? ORDER BY run_seq DESC LIMIT 1 */
  method CurrentMessage(db: Db, s: Id) returns (current: Option<Id>)
    ensures current.Some? ==> IsCurrent(db, s, current.value)
    ensures current.None? ==> NoMessage(db, s)
  {
    var rows := set r | r in db.runs && db.runs[r].session == s;
    if rows == {} {
      assert forall r :: r in db.runs && db.runs[r].session == s ==> r in rows;
      return None;
    }
    LatestExists(db.runs, rows);
    var r :| r in rows && forall o :: o in rows ==> db.runs[o].runSeq <= db.runs[r].runSeq;
    return Some(r);
  }

  // ----- _stream -----

  /** The states that successive reads see: consistent ones, of a table that only grows. */
  ghost predicate Observed(views: seq<Db>) {
    && (forall i :: 0 <= i < |views| ==> Numbered(views[i]))
    && (forall i, j :: 0 <= i <= j < |views| ==> views[i].events <= views[j].events)
  }

  /** What the stream has found out when it stops, having read the first `seen` states: its message
      was over, or else the session's latest message was, or the session had no message. */
  ghost predicate Over(views: seq<Db>, seen: nat, scope: string, s: Id, message: Option<Id>) {
    && 2 <= seen <= |views|
    && match message
       case Some(m) =>
         seen >= 3 && HasRun(views[seen - 2], scope, m) && Terminal(views[seen - 2].runs[m].status)
       case None =>
         NoMessage(views[seen - 1], s) || (seen >= 3 && LatestIsOver(views[seen - 2], s))
  }

  /** What the two further reads look for: the message is over, or else the latest message of the session,
      if it has any. */
  ghost predicate OverAt(db: Db, scope: string, s: Id, message: Option<Id>) {
    match message
    case Some(m) => HasRun(db, scope, m) && Terminal(db.runs[m].status)
    case None => forall r :: IsCurrent(db, s, r) ==> Terminal(db.runs[r].status)
  }

  /** From read `from` on the message is over and the session's log no longer grows, and there are enough
      reads to page through all of it. */
  ghost predicate Settles(views: seq<Db>, from: nat, scope: string, s: Id, message: Option<Id>) {
    && from < |views|
    && (forall i {:trigger OverAt(views[i], scope, s, message)} :: from <= i < |views| ==>
          OverAt(views[i], scope, s, message) && Log(views[i].events, OfSession(s)) == LastLog(views, s))
    && |views| >= from + 3 * (|LastLog(views, s)| + 2)
  }

  function LastLog(views: seq<Db>, s: Id): seq<Event>
    requires views != []
  {
    Log(views[|views| - 1].events, OfSession(s))
  }

  /** How far the reading has come where that is so: every turn but the first takes three reads and at least
      one event. */
  ghost predicate Advances(views: seq<Db>, i: nat, cursor: nat, scope: string, s: Id, message: Option<Id>) {
    forall from: nat {:trigger Settles(views, from, scope, s, message)} :: Settles(views, from, scope, s, message) ==>
      i <= from + 2 || (cursor < |LastLog(views, s)| && i <= from + 2 + 3 * cursor)
  }

  lemma PageAdvances(events: seq<Event>, sel: Selector, cursor: nat)
    requires Positions(events)
    ensures var next := NextAfter(sel, ListEvents(events, sel, cursor, PAGE), cursor);
      next >= cursor && (cursor < |Log(events, sel)| ==> next > cursor)
  {
    ListEventsSlices(events, sel, cursor, PAGE);
    LogIsConsecutive(events, sel);
    hide ListEvents, Log, Positions;
  }

  lemma CursorOfView(views: seq<Db>, i: nat, sel: Selector)
    requires Observed(views) && i < |views|
    ensures Cursor(Log(views[i].events, sel), sel) == |Log(views[i].events, sel)|
  {
    ViewsAreNumbered(views, i);
    LogIsConsecutive(views[i].events, sel);
    CursorIsLength(Log(views[i].events, sel), sel);
  }

  lemma SettledAt(views: seq<Db>, from: nat, i: nat, scope: string, s: Id, message: Option<Id>)
    requires Settles(views, from, scope, s, message) && from <= i < |views|
    ensures OverAt(views[i], scope, s, message) && Log(views[i].events, OfSession(s)) == LastLog(views, s)
  {
    hide OverAt, LastLog, Log;
  }

  /** One more turn that does not end the stream. */
  lemma TurnAdvances(views: seq<Db>, i: nat, cursor: nat, next: nat, over: bool, scope: string, s: Id, message: Option<Id>)
    requires Observed(views) && i + 2 < |views| && Advances(views, i, cursor, scope, s, message)
    requires next == NextAfter(OfSession(s), ListEvents(views[i].events, OfSession(s), cursor, PAGE), cursor)
    requires OverAt(views[i + 1], scope, s, message) ==> over
    requires over ==> next < Cursor(Log(views[i + 2].events, OfSession(s)), OfSession(s))
    ensures Advances(views, if over then i + 3 else i + 2, next, scope, s, message)
  {
    hide Log, Positions, ListEvents, NextAfter, OverAt, Observed, Cursor, Settles, LastLog;
    ViewsAreNumbered(views, i);
    PageAdvances(views[i].events, OfSession(s), cursor);
    CursorOfView(views, i + 2, OfSession(s));
    forall from: nat | Settles(views, from, scope, s, message)
      ensures var j := if over then i + 3 else i + 2;
        j <= from + 2 || (next < |LastLog(views, s)| && j <= from + 2 + 3 * next)
    {
      if i >= from {
        SettledAt(views, from, i, scope, s, message);
        SettledAt(views, from, i + 1, scope, s, message);
        SettledAt(views, from, i + 2, scope, s, message);
      }
    }
  }

  lemma AtFirst(views: seq<Db>, after: nat, scope: string, s: Id, message: Option<Id>)
    ensures Advances(views, 0, after, scope, s, message)
  {
    hide OverAt, LastLog;
  }

  /** Where the reads ran out, they never settled. */
  lemma NeverSettled(views: seq<Db>, i: nat, cursor: nat, scope: string, s: Id, message: Option<Id>)
    requires Advances(views, i, cursor, scope, s, message) && |views| <= i + 2
    ensures forall from: nat :: !Settles(views, from, scope, s, message)
  {
    hide OverAt, LastLog;
  }

  lemma StretchGrows(earlier: seq<Event>, events: seq<Event>, sel: Selector, after: nat, cursor: nat, text: seq<Event>)
    requires earlier <= events && Stretch(Log(earlier, sel), after, cursor, text)
    ensures Stretch(Log(events, sel), after, cursor, text)
  {
    assert events[..|earlier|] == earlier;
    LogPrefix(events, |earlier|, sel);
  }

  /** A cursor that has reached the end of the log has passed every event. */
  lemma CursorAtEnd(events: seq<Event>, sel: Selector, after: nat, cursor: nat, text: seq<Event>)
    requires Positions(events) && Stretch(Log(events, sel), after, cursor, text)
    requires cursor >= Cursor(Log(events, sel), sel)
    ensures text == Tail(Log(events, sel), after)
  {
    LogIsConsecutive(events, sel);
    CursorIsLength(Log(events, sel), sel);
  }

  method WritePage(page: seq<Event>, message: Option<Id>, before: seq<Event>) returns (written: seq<Event>)
    ensures written == before + Wanted(page, message)
  {
    written := before;
    for i := 0 to |page|
      invariant written == before + Wanted(page[..i], message)
    {
      assert page[..i + 1][..i] == page[..i];
      if message.Some? && page[i].run != message.value { continue; }
      written := written + [page[i]];
    }
    assert page[..|page|] == page;
  }

  lemma SessionWithoutRuns(db: Db, s: Id)
    requires EventRows(db) && NoMessage(db, s)
    ensures Log(db.events, OfSession(s)) == []
  {
    NothingSelected(db.events, OfSession(s));
  }

  /** _stream, for any schedule of the writers: read k of the loop sees views[k].  When it stops by
      itself, it has written exactly the wanted events that follow the cursor it was given, each once
      and in order, up to the end of the log as its last read saw it; cut off, a prefix of them. */
  method Stream(views: seq<Db>, scope: string, s: Id, message: Option<Id>, after: nat)
    returns (written: seq<Event>, finished: bool, seen: nat)
    requires Observed(views)
    ensures seen <= |views|
    ensures finished ==> Over(views, seen, scope, s, message)
    ensures finished ==> written == Wanted(Tail(Log(views[seen - 1].events, OfSession(s)), after), message)
    ensures !finished ==> written <= Wanted(if seen == 0 then [] else Tail(Log(views[seen - 1].events, OfSession(s)), after), message)
    ensures !finished ==> |views| <= seen + 2 && forall from: nat :: !Settles(views, from, scope, s, message)
  {
    hide Log, Cursor, IsCurrent, Reading, Wanted, Tail, Observed, ListEvents, NextAfter, Advances, Settles;
    var sel := OfSession(s);
    var cursor: nat, i := after, 0;
    ghost var text := [];
    written := [];
    NothingYet(views, sel, after, message);
    assert Advances(views, 0, after, scope, s, message) by { AtFirst(views, after, scope, s, message); }
    while i + 2 < |views|
      invariant i <= |views|
      invariant Reading(views, i, sel, after, cursor, text)
      invariant written == Wanted(text, message)
      invariant Advances(views, i, cursor, scope, s, message)
      decreases |views| - i
    {
      var page := ListEvents(views[i].events, sel, cursor, PAGE);
      PageRead(views, i, sel, after, cursor, text);
      WantedAppend(text, page, message);
      ghost var before := cursor;
      cursor, text := NextAfter(sel, page, cursor), text + page;
      written := WritePage(page, message, written);
      var over;
      if message.Some? {
        over := HasRun(views[i + 1], scope, message.value) && Terminal(views[i + 1].runs[message.value].status);
      } else {
        var current := CurrentMessage(views[i + 1], s);
        if current.None? {
          EmptySession(views, i + 2, s, after, cursor, text);
          return written, true, i + 2;
        }
        over := Terminal(views[i + 1].runs[current.value].status);
      }
      if over && cursor >= Cursor(Log(views[i + 2].events, sel), sel) {
        CaughtUp(views, i + 3, sel, after, cursor, text);
        return written, true, i + 3;
      }
      TurnAdvances(views, i, before, cursor, over, scope, s, message);
      i := if over then i + 3 else i + 2;
    }
    NeverSettled(views, i, cursor, scope, s, message);
    CutOff(views, i, sel, after, cursor, text, message);
    return written, false, i;
  }

  /** The state of the loop: everything between the two cursors has been read, as of the last read. */
  ghost predicate Reading(views: seq<Db>, i: nat, sel: Selector, after: nat, cursor: nat, text: seq<Event>) {
    && i <= |views|
    && if i == 0 then cursor == after && text == [] else Stretch(Log(views[i - 1].events, sel), after, cursor, text)
  }

  lemma NothingYet(views: seq<Db>, sel: Selector, after: nat, message: Option<Id>)
    ensures Reading(views, 0, sel, after, after, []) && Wanted([], message) == []
  {
  }

  lemma CaughtUp(views: seq<Db>, i: nat, sel: Selector, after: nat, cursor: nat, text: seq<Event>)
    requires Observed(views) && i > 0 && Reading(views, i, sel, after, cursor, text)
    requires cursor >= Cursor(Log(views[i - 1].events, sel), sel)
    ensures text == Tail(Log(views[i - 1].events, sel), after)
  {
    hide Log, Cursor, Tail;
    ViewsAreNumbered(views, i - 1);
    CursorAtEnd(views[i - 1].events, sel, after, cursor, text);
  }

  /** Reading a page keeps that state, through the two reads that follow. */
  lemma PageRead(views: seq<Db>, i: nat, sel: Selector, after: nat, cursor: nat, text: seq<Event>)
    requires Observed(views) && i + 2 < |views| && Reading(views, i, sel, after, cursor, text)
    ensures var page := ListEvents(views[i].events, sel, cursor, PAGE);
      var next := NextAfter(sel, page, cursor);
      && Reading(views, i + 2, sel, after, next, text + page)
      && Reading(views, i + 3, sel, after, next, text + page)
  {
    hide Numbered, Log, Positions;
    ViewsAreNumbered(views, i);
    ViewsAreNumbered(views, i + 2);
    var events := views[i].events;
    var page := ListEvents(events, sel, cursor, PAGE);
    StartReading(views, sel, after, cursor, i, text);
    ListedPage(events, sel, cursor, PAGE);
    ReadOn(events, events, sel, after, cursor, PAGE, page, text);
    StretchGrows(events, views[i + 1].events, sel, after, NextAfter(sel, page, cursor), text + page);
    StretchGrows(events, views[i + 2].events, sel, after, NextAfter(sel, page, cursor), text + page);
  }

  lemma EmptySession(views: seq<Db>, i: nat, s: Id, after: nat, cursor: nat, text: seq<Event>)
    requires Observed(views) && i > 0 && Reading(views, i, OfSession(s), after, cursor, text)
    requires NoMessage(views[i - 1], s)
    ensures text == Tail(Log(views[i - 1].events, OfSession(s)), after)
  {
    ViewsAreNumbered(views, i - 1);
    SessionWithoutRuns(views[i - 1], s);
  }

  lemma CutOff(views: seq<Db>, i: nat, sel: Selector, after: nat, cursor: nat, text: seq<Event>, message: Option<Id>)
    requires Reading(views, i, sel, after, cursor, text)
    ensures Wanted(text, message) <=
              Wanted(if i == 0 then [] else Tail(Log(views[i - 1].events, sel), after), message)
  {
    if i > 0 {
      var log := Log(views[i - 1].events, sel);
      var rest := if cursor <= |log| then log[cursor..] else [];
      assert Tail(log, after) == text + rest;
      WantedAppend(text, rest, message);
    }
  }

  lemma ViewsAreNumbered(views: seq<Db>, i: nat)
    requires Observed(views) && i < |views|
    ensures Positions(views[i].events) && EventRows(views[i])
  {
  }

  lemma StartReading(views: seq<Db>, sel: Selector, after: nat, cursor: nat, i: nat, text: seq<Event>)
    requires Observed(views) && i < |views|
    requires i == 0 ==> cursor == after && text == []
    requires i > 0 ==> Stretch(Log(views[i - 1].events, sel), after, cursor, text)
    ensures Stretch(Log(views[i].events, sel), after, cursor, text)
  {
    hide Numbered;
    if i > 0 { StretchGrows(views[i - 1].events, views[i].events, sel, after, cursor, text); }
  }

  lemma ListedPage(events: seq<Event>, sel: Selector, after: nat, limit: nat)
    requires Positions(events)
    ensures IsPage(events, sel, after, limit, ListEvents(events, sel, after, limit))
  {
    ListEventsSlices(events, sel, after, limit);
    SliceIsPage(events, sel, after, limit);
  }

  // ----- What a message's stream delivers -----

  lemma {:induction false} WantedIsRunLog(events: seq<Event>, s: Id, m: Id)
    requires forall i :: 0 <= i < |events| && events[i].run == m ==> events[i].session == s
    ensures Wanted(Log(events, OfSession(s)), Some(m)) == Log(events, OfRun(m))
  {
    if events != [] {
      var init, last := events[..|events| - 1], events[|events| - 1];
      WantedIsRunLog(init, s, m);
      WantedAppend(Log(init, OfSession(s)), if Selects(OfSession(s), last) then [last] else [], Some(m));
    }
  }

  /** A cursor taken in an earlier state splits a run's log where that state ended. */
  lemma TailDelivered(earlier: seq<Event>, events: seq<Event>, s: Id, m: Id)
    requires earlier <= events
    requires forall i :: 0 <= i < |events| && events[i].run == m ==> events[i].session == s
    ensures Log(earlier, OfRun(m)) + Wanted(Tail(Log(events, OfSession(s)), |Log(earlier, OfSession(s))|), Some(m))
              == Log(events, OfRun(m))
  {
    assert events[..|earlier|] == earlier;
    LogPrefix(events, |earlier|, OfSession(s));
    WantedIsRunLog(earlier, s, m);
    WantedIsRunLog(events, s, m);
    var head, log := Log(earlier, OfSession(s)), Log(events, OfSession(s));
    assert log == head + Tail(log, |head|);
    WantedAppend(head, Tail(log, |head|), Some(m));
  }

  predicate Finishes(e: Event, life: Life) {
    e.kind == RunFinished && e.data == EventData(Some(life.status), life.outcome)
  }

  predicate ReadsTerminal(log: seq<Event>) {
    Replay(log).Known? && Terminal(Replay(log).life.status)
  }

  /** Where a run's log comes to tell a terminal status, there is its run.finished event. */
  lemma {:induction false} FinishedWithin(log: seq<Event>, n: nat)
    requires n <= |log| && ReadsTerminal(log) && !ReadsTerminal(log[..n])
    ensures exists i :: n <= i < |log| && log[i].kind == RunFinished
                        && log[i].data.status == Some(Replay(log).life.status)
                        && log[i].data.outcome == Replay(log).life.outcome
  {
    assert log[..|log|] == log;
    var init, last := log[..|log| - 1], log[|log| - 1];
    if Lifecycle(last.kind) {
      assert Replay(log) == Observe(Replay(init), last.kind, last.data);
    } else {
      assert init[..n] == log[..n];
      FinishedWithin(init, n);
      var i :| n <= i < |init| && init[i].kind == RunFinished
               && init[i].data.status == Some(Replay(init).life.status)
               && init[i].data.outcome == Replay(init).life.outcome;
      assert log[i] == init[i];
    }
  }

  /** Once a log tells a terminal status, what follows is no lifecycle event, or no path of the state
      machine. */
  lemma {:induction false} NothingFollowsTerminal(log: seq<Event>, n: nat)
    requires n <= |log| && ReadsTerminal(log[..n])
    ensures Replay(log).Broken? || (Replay(log) == Replay(log[..n]) && forall i :: n <= i < |log| ==> !Lifecycle(log[i].kind))
  {
    assert log[..|log|] == log;
    if n < |log| {
      var init := log[..|log| - 1];
      assert init[..n] == log[..n];
      NothingFollowsTerminal(init, n);
      assert forall i :: 0 <= i < |init| ==> log[i] == init[i];
    }
  }

  /** The same of two states of the tables: the message's end is written exactly when it was not over in
      the first. */
  lemma FinishIsDelivered(before: Db, over: Db, last: Db, s: Id, m: Id)
    requires before.events <= over.events <= last.events
    requires m in over.runs && Agrees(over, m) && Terminal(over.runs[m].status)
    requires m in last.runs && Agrees(last, m)
    requires if m in before.runs then Agrees(before, m) else Log(before.events, OfRun(m)) == []
    requires forall i :: 0 <= i < |last.events| && last.events[i].run == m ==> last.events[i].session == s
    ensures var written := Wanted(Tail(Log(last.events, OfSession(s)), |Log(before.events, OfSession(s))|), Some(m));
      && Log(before.events, OfRun(m)) + written == Log(last.events, OfRun(m))
      && (WritesFinish(written, LifeOf(over.runs[m])) <==> !OverIn(before, m))
  {
    var head, middle := Log(before.events, OfRun(m)), Log(over.events, OfRun(m));
    var written := Wanted(Tail(Log(last.events, OfSession(s)), |Log(before.events, OfSession(s))|), Some(m));
    TailDelivered(before.events, last.events, s, m);
    assert over.events[..|before.events|] == before.events && last.events[..|over.events|] == over.events;
    LogPrefix(over.events, |before.events|, OfRun(m));
    LogPrefix(last.events, |over.events|, OfRun(m));
    hide Log, Wanted, Tail, Replay, Between, WritesFinish;
    FinishIsWritten(head, middle, Log(last.events, OfRun(m)), written, LifeOf(over.runs[m]));
  }

  /** The message was already over. */
  predicate OverIn(db: Db, m: Id) {
    m in db.runs && Terminal(db.runs[m].status)
  }

  predicate WritesFinish(written: seq<Event>, life: Life) {
    exists i :: 0 <= i < |written| && Finishes(written[i], life)
  }

  lemma FinishIsWritten(head: seq<Event>, middle: seq<Event>, whole: seq<Event>, written: seq<Event>, life: Life)
    requires head <= middle <= whole == head + written
    requires Replay(middle) == Known(life) && Terminal(life.status) && Replay(whole).Known?
    ensures WritesFinish(written, life) <==> !ReadsTerminal(head)
  {
    hide Replay;
    assert middle[..|head|] == head && whole[..|head|] == head;
    if ReadsTerminal(head) {
      NothingFollowsTerminal(whole, |head|);
      assert forall i :: 0 <= i < |written| ==> written[i] == whole[|head| + i];
    } else {
      FinishedWithin(middle, |head|);
      var i :| |head| <= i < |middle| && middle[i].kind == RunFinished
               && middle[i].data.status == Some(life.status) && middle[i].data.outcome == life.outcome;
      assert whole[i] == middle[i] && whole[i] == written[i - |head|];
      assert Finishes(written[i - |head|], life);
    }
  }

  /** Successive reads of a history: read i sees the state after times[i] of its steps. */
  ghost predicate Watches(views: seq<Db>, steps: seq<Step>, times: seq<nat>) {
    && |views| == |times|
    && (forall i, j :: 0 <= i <= j < |times| ==> times[i] <= times[j])
    && (forall i :: 0 <= i < |times| ==> times[i] <= |steps| && views[i] == Exec(steps[..times[i]]))
  }

  lemma EventsGrow(steps: seq<Step>, n: nat, k: nat)
    requires n <= k <= |steps|
    ensures Exec(steps[..n]).events <= Exec(steps[..k]).events
  {
    assert steps[..k][..n] == steps[..n];
    HistoryExtends(steps[..k], n);
  }

  /** So the stream's requirement is met by any schedule of any writers. */
  lemma WatchedIsObserved(views: seq<Db>, steps: seq<Step>, times: seq<nat>)
    requires Watches(views, steps, times)
    ensures Observed(views)
  {
    forall i | 0 <= i < |views| ensures Numbered(views[i]) {
      assert Holds(Exec(steps[..times[i]]), EventNumbers);
    }
    forall i, j | 0 <= i <= j < |views| ensures views[i].events <= views[j].events {
      EventsGrow(steps, times[i], times[j]);
    }
  }

  /** So a message's stream stops by itself, in any history: the message has finished, nothing writes to its
      session any more, and the stream goes on reading. */
  lemma FinishedMessageSettles(views: seq<Db>, steps: seq<Step>, times: seq<nat>, from: nat, scope: string, s: Id, m: Id)
    requires Watches(views, steps, times) && from < |views|
    requires HasRun(views[from], scope, m) && Terminal(views[from].runs[m].status)
    requires forall i :: from <= i < |views| ==> Log(views[i].events, OfSession(s)) == LastLog(views, s)
    requires |views| >= from + 3 * (|LastLog(views, s)| + 2)
    ensures Settles(views, from, scope, s, Some(m))
  {
    hide Log, LastLog;
    forall i | from <= i < |views| ensures OverAt(views[i], scope, s, Some(m)) {
      StaysOver(steps, times[from], times[i], scope, m);
    }
  }

  lemma StaysOver(steps: seq<Step>, n: nat, k: nat, scope: string, m: Id)
    requires n <= k <= |steps| && HasRun(Exec(steps[..n]), scope, m) && Terminal(Exec(steps[..n]).runs[m].status)
    ensures HasRun(Exec(steps[..k]), scope, m) && Terminal(Exec(steps[..k]).runs[m].status)
  {
    assert steps[..k][..n] == steps[..n];
    HistoryExtends(steps[..k], n);
    assert RunKept(Exec(steps[..n]), Exec(steps[..k]), m);
  }

  /** The message's events and rows, in the state after n steps. */
  lemma StateFacts(steps: seq<Step>, n: nat, m: Id)
    requires n <= |steps| && forall i :: 0 <= i < |steps| ==> Honest(steps[i])
    ensures var db := Exec(steps[..n]);
      && Positions(db.events)
      && (m in db.runs ==> Agrees(db, m))
      && (m !in db.runs ==> Log(db.events, OfRun(m)) == [])
      && (forall i :: 0 <= i < |db.events| && db.events[i].run == m ==>
            m in db.runs && db.events[i].session == db.runs[m].session)
  {
    assert Holds(Exec(steps[..n]), EventNumbers);
    HonestHistory(steps[..n]);
    var db := Exec(steps[..n]);
    if m !in db.runs { NothingSelected(db.events, OfRun(m)); }
  }

  lemma SessionIsKept(steps: seq<Step>, n: nat, k: nat, m: Id)
    requires n <= k <= |steps| && m in Exec(steps[..n]).runs
    ensures m in Exec(steps[..k]).runs && Exec(steps[..k]).runs[m].session == Exec(steps[..n]).runs[m].session
  {
    assert steps[..k][..n] == steps[..n];
    HistoryExtends(steps[..k], n);
    assert RunKept(Exec(steps[..n]), Exec(steps[..k]), m);
  }

  /** The protocol of _send_message and _reply: the cursor is taken first, then the message is accepted
      or answered, then the stream is read, while any other calls go on.  A stream that stops by itself
      has delivered everything that the message's log held beyond the cursor, as of its last read.  The
      run.finished event that tells the message's final status and outcome is among it exactly when the
      message was not already over when the cursor was taken. */
  lemma MessageDelivered(steps: seq<Step>, start: nat, times: seq<nat>, views: seq<Db>, seen: nat,
                         scope: string, s: Id, m: Id, written: seq<Event>)
    requires (forall i :: 0 <= i < |steps| ==> Honest(steps[i])) && Watches(views, steps, times)
    requires Over(views, seen, scope, s, Some(m)) && views[seen - 2].runs[m].session == s
    requires start <= times[0]
    requires var after := Cursor(Log(Exec(steps[..start]).events, OfSession(s)), OfSession(s));
      written == Wanted(Tail(Log(views[seen - 1].events, OfSession(s)), after), Some(m))
    ensures Log(Exec(steps[..start]).events, OfRun(m)) + written == Log(views[seen - 1].events, OfRun(m))
    ensures (exists i :: 0 <= i < |written| && Finishes(written[i], LifeOf(views[seen - 2].runs[m])))
            <==> !(m in Exec(steps[..start]).runs && Terminal(Exec(steps[..start]).runs[m].status))
  {
    hide Log, Wanted, Tail, Replay, Positions;
    var before, over, last := Exec(steps[..start]), views[seen - 2], views[seen - 1];
    StateFacts(steps, start, m);
    StateFacts(steps, times[seen - 2], m);
    StateFacts(steps, times[seen - 1], m);
    EventsGrow(steps, start, times[seen - 2]);
    EventsGrow(steps, times[seen - 2], times[seen - 1]);
    SessionIsKept(steps, times[seen - 2], times[seen - 1], m);
    LogIsConsecutive(before.events, OfSession(s));
    CursorIsLength(Log(before.events, OfSession(s)), OfSession(s));
    FinishIsDelivered(before, over, last, s, m);
    assert WritesFinish(written, LifeOf(over.runs[m])) <==> !OverIn(before, m);
  }
}
