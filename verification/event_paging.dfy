/** list_events and list_session_events: pages of a log, read with a cursor while the log grows. */
module EventPaging {
  import opened RunTables
  import opened EventLog

  // ----- The queries -----

  /** WHERE number > after, in log order. */
  function After(log: seq<Event>, sel: Selector, after: nat): seq<Event> {
    if log == [] then []
    else
      var last := log[|log| - 1];
      After(log[..|log| - 1], sel, after) + if Number(sel, last) > after then [last] else []
  }

  function Limit(rows: seq<Event>, limit: nat): seq<Event> {
    if |rows| <= limit then rows else rows[..limit]
  }

  function ListEvents(events: seq<Event>, sel: Selector, after: nat, limit: nat): seq<Event> {
    Limit(After(Log(events, sel), sel, after), limit)
  }

  /** The cursor that a page returns: the number of its last event. */
  function NextAfter(sel: Selector, page: seq<Event>, after: nat): nat {
    if page == [] then after else Number(sel, page[|page| - 1])
  }

  /** COALESCE(MAX(number), 0) */
  function Cursor(log: seq<Event>, sel: Selector): nat {
    if log == [] then 0
    else
      var before, n := Cursor(log[..|log| - 1], sel), Number(sel, log[|log| - 1]);
      if n > before then n else before
  }

  /** What SQL promises of a page, without saying how the rows are found: rows of the table that the
      WHERE clause selects, in strictly ascending order, and at most `limit` of them; a selected row is
      left out only when the page is full, and then it comes after the page. */
  ghost predicate IsPage(events: seq<Event>, sel: Selector, after: nat, limit: nat, page: seq<Event>) {
    && |page| <= limit
    && (forall i :: 0 <= i < |page| ==> page[i] in events && Selects(sel, page[i]) && Number(sel, page[i]) > after)
    && (forall i, j :: 0 <= i < j < |page| ==> Number(sel, page[i]) < Number(sel, page[j]))
    && (forall e :: e in events && Selects(sel, e) && Number(sel, e) > after && e !in page ==>
          |page| == limit && forall i :: 0 <= i < |page| ==> Number(sel, page[i]) < Number(sel, e))
  }

  // ----- A page is a slice of the log -----

  /** Event k of the log has number k + 1. */
  ghost predicate Consecutive(log: seq<Event>, sel: Selector) {
    forall k :: 0 <= k < |log| ==> Number(sel, log[k]) == k + 1
  }

  /** The events of a log between two cursors. */
  function Between(log: seq<Event>, after: nat, upto: nat): seq<Event> {
    if after <= upto <= |log| then log[after..upto] else []
  }

  function Least(a: nat, b: nat): nat { if a <= b then a else b }

  function Slice(log: seq<Event>, after: nat, limit: nat): seq<Event> {
    Between(log, after, Least(after + limit, |log|))
  }

  lemma LogIsConsecutive(events: seq<Event>, sel: Selector)
    requires Positions(events)
    ensures Consecutive(Log(events, sel), sel)
  {
    LogIsNumbered(events, sel);
  }

  lemma {:induction false} AfterIsTail(log: seq<Event>, sel: Selector, after: nat)
    requires Consecutive(log, sel)
    ensures After(log, sel, after) == Between(log, after, |log|)
  {
    hide Number;
    if log != [] {
      var n := |log| - 1;
      var init, last := log[..n], log[n];
      AfterIsTail(init, sel, after);
      assert Number(sel, last) == n + 1;
      if after <= n {
        assert log[after..] == init[after..] + [last];
      }
    }
  }

  lemma {:induction false} CursorIsLength(log: seq<Event>, sel: Selector)
    requires Consecutive(log, sel)
    ensures Cursor(log, sel) == |log|
  {
    if log != [] {
      CursorIsLength(log[..|log| - 1], sel);
    }
  }

  /** The query returns the slice of the log that follows the cursor. */
  lemma ListEventsSlices(events: seq<Event>, sel: Selector, after: nat, limit: nat)
    requires Positions(events)
    ensures ListEvents(events, sel, after, limit) == Slice(Log(events, sel), after, limit)
  {
    LogIsNumbered(events, sel);
    AfterIsTail(Log(events, sel), sel, after);
  }

  /** Any reply that meets SQL's promise is that slice. */
  lemma PageIsSlice(events: seq<Event>, sel: Selector, after: nat, limit: nat, page: seq<Event>)
    requires Positions(events) && IsPage(events, sel, after, limit, page)
    ensures page == Slice(Log(events, sel), after, limit)
  {
    var log := Log(events, sel);
    hide Positions, Log, Number, Selects, IsPage, Consecutive;
    LogIsConsecutive(events, sel);
    LogMembers(events, sel);
    forall i | 0 <= i < |page| ensures InPlace(log, after, page, i) {
      PageFollowsLog(events, log, sel, after, limit, page, i);
    }
    PageIsFull(events, log, sel, after, limit, page);
    SameAsSlice(log, after, limit, page);
  }

  predicate InPlace(log: seq<Event>, after: nat, page: seq<Event>, i: nat)
    requires i < |page|
  {
    after + i < |log| && page[i] == log[after + i]
  }

  lemma SameAsSlice(log: seq<Event>, after: nat, limit: nat, page: seq<Event>)
    requires forall i :: 0 <= i < |page| ==> InPlace(log, after, page, i)
    requires |page| <= limit && (after + |page| < |log| ==> |page| == limit)
    ensures page == Slice(log, after, limit)
  {
    if page != [] { assert InPlace(log, after, page, |page| - 1); }
    var slice := Slice(log, after, limit);
    assert |page| == |slice|;
    forall i | 0 <= i < |page| ensures page[i] == slice[i] { assert InPlace(log, after, page, i); }
  }

  lemma PageIsFull(events: seq<Event>, log: seq<Event>, sel: Selector, after: nat, limit: nat, page: seq<Event>)
    requires IsPage(events, sel, after, limit, page) && Consecutive(log, sel)
    requires forall e :: e in log <==> e in events && Selects(sel, e)
    requires forall i :: 0 <= i < |page| ==> InPlace(log, after, page, i)
    ensures |page| <= limit && (after + |page| < |log| ==> |page| == limit)
  {
    hide Number, Selects;
    if after + |page| < |log| {
      var e := log[after + |page|];
      assert e in log && Number(sel, e) == after + |page| + 1;
      forall i | 0 <= i < |page| ensures page[i] != e {
        assert InPlace(log, after, page, i) && Number(sel, log[after + i]) == after + i + 1;
      }
    }
  }

  lemma PageFollowsLog(events: seq<Event>, log: seq<Event>, sel: Selector, after: nat, limit: nat, page: seq<Event>, i: nat)
    requires IsPage(events, sel, after, limit, page) && i < |page| && Consecutive(log, sel)
    requires forall e :: e in log <==> e in events && Selects(sel, e)
    ensures InPlace(log, after, page, i)
  {
    forall j | 0 <= j < i ensures InPlace(log, after, page, j) {
      PageFollowsLog(events, log, sel, after, limit, page, j);
    }
    assert page[i] in log;
    var k :| 0 <= k < |log| && log[k] == page[i];
    if i > 0 { assert InPlace(log, after, page, i - 1) &&  Number(sel, page[i - 1]) == after + i; }
    SkippedIsMissing(log, sel, after, page, i, k);
    assert log[after + i] in log;
  }

  /** If page element i came later in the log than it should, the event in its place would be missing. */
  lemma SkippedIsMissing(log: seq<Event>, sel: Selector, after: nat, page: seq<Event>, i: nat, k: nat)
    requires i < |page| && after + i <= k < |log| && page[i] == log[k] && Consecutive(log, sel)
    requires forall j :: 0 <= j < i ==> InPlace(log, after, page, j)
    requires forall a, b :: 0 <= a < b < |page| ==> Number(sel, page[a]) < Number(sel, page[b])
    ensures k > after + i ==> log[after + i] !in page
  {
    hide Number;
    if k > after + i {
      forall j | 0 <= j < |page| ensures Number(sel, page[j]) != after + i + 1 {
        if j < i { assert InPlace(log, after, page, j) && Number(sel, log[after + j]) == after + j + 1; }
        if j > i { assert Number(sel, page[i]) < Number(sel, page[j]); }
      }
      assert Number(sel, log[after + i]) == after + i + 1;
    }
  }

  /** And that slice meets SQL's promise. */
  lemma SliceIsPage(events: seq<Event>, sel: Selector, after: nat, limit: nat)
    requires Positions(events)
    ensures IsPage(events, sel, after, limit, Slice(Log(events, sel), after, limit))
  {
    LogIsNumbered(events, sel);
    LogMembers(events, sel);
    hide Positions, Log;
    var log := Log(events, sel);
    var page := Slice(log, after, limit);
    forall i | 0 <= i < |page| ensures page[i] == log[after + i] && page[i] in log {}
    forall k | after <= k < after + |page| ensures log[k] in page { assert page[k - after] == log[k]; }
    forall e | e in events && Selects(sel, e) && Number(sel, e) > after && e !in page
      ensures |page| == limit && forall i :: 0 <= i < |page| ==> Number(sel, page[i]) < Number(sel, e)
    {
      assert e in log;
      var k :| 0 <= k < |log| && log[k] == e;
    }
  }

  // ----- Reading page by page -----

  function Concat(pages: seq<seq<Event>>): seq<Event> {
    if pages == [] then [] else Concat(pages[..|pages| - 1]) + pages[|pages| - 1]
  }

  /** The cursor after the pages. */
  function CursorAfter(sel: Selector, pages: seq<seq<Event>>, after: nat): nat {
    if pages == [] then after
    else NextAfter(sel, pages[|pages| - 1], CursorAfter(sel, pages[..|pages| - 1], after))
  }

  /** Each page is the reply of a query on a later state of the table than the page before it, from the
      cursor that the pages before it left; between two queries the table may have grown. */
  ghost predicate Reads(views: seq<seq<Event>>, sel: Selector, after: nat, limits: seq<nat>, pages: seq<seq<Event>>) {
    && |views| == |limits| == |pages|
    && (pages != [] ==>
          var n := |pages| - 1;
          && Reads(views[..n], sel, after, limits[..n], pages[..n])
          && Positions(views[n]) && (n > 0 ==> views[n - 1] <= views[n])
          && IsPage(views[n], sel, CursorAfter(sel, pages[..n], after), limits[n], pages[n]))
  }

  /** Whatever the limits, and however the table grew between the queries, the pages together are one
      stretch of the log: from the first cursor to the last, without gap or repetition. */
  lemma {:induction false} PagesAreContiguous(views: seq<seq<Event>>, sel: Selector, after: nat,
                                              limits: seq<nat>, pages: seq<seq<Event>>)
    requires |views| > 0 && Reads(views, sel, after, limits, pages)
    ensures Stretch(Log(views[|views| - 1], sel), after, CursorAfter(sel, pages, after), Concat(pages))
  {
    var n := |pages| - 1;
    var before := CursorAfter(sel, pages[..n], after);
    if n == 0 {
      assert pages[..0] == [];
      assert Concat(pages[..0]) == [];
      ReadOn(views[0], views[0], sel, after, after, limits[0], pages[0], []);
      assert [] + pages[0] == pages[0];
    } else {
      PagesAreContiguous(views[..n], sel, after, limits[..n], pages[..n]);
      assert views[..n][n - 1] == views[n - 1];
      hide Reads, IsPage, Positions, Log;
      ReadOn(views[n - 1], views[n], sel, after, before, limits[n], pages[n], Concat(pages[..n]));
    }
  }

  /** `text` is what the log holds between two cursors; the first may lie beyond the log's end, and
      then the second is the same. */
  predicate Stretch(log: seq<Event>, after: nat, cursor: nat, text: seq<Event>) {
    after <= cursor && (cursor == after || cursor <= |log|) && text == Between(log, after, cursor)
  }

  /** One more page continues the stretch. */
  lemma ReadOn(earlier: seq<Event>, events: seq<Event>, sel: Selector, after: nat, before: nat, limit: nat,
               page: seq<Event>, text: seq<Event>)
    requires earlier <= events && Positions(events) && IsPage(events, sel, before, limit, page)
    requires Stretch(Log(earlier, sel), after, before, text)
    ensures Stretch(Log(events, sel), after, NextAfter(sel, page, before), text + page)
    ensures NextAfter(sel, page, before) == before + |page|
    ensures page == [] && limit > 0 ==> |Log(events, sel)| <= before
  {
    hide Positions, IsPage, Log, Consecutive;
    PageIsSlice(events, sel, before, limit, page);
    LogIsConsecutive(events, sel);
    LogPrefix(events, |earlier|, sel);
    assert events[..|earlier|] == earlier;
    SliceExtends(Log(earlier, sel), Log(events, sel), sel, after, before, limit);
  }

  lemma SliceExtends(earlier: seq<Event>, log: seq<Event>, sel: Selector, after: nat, cursor: nat, limit: nat)
    requires earlier <= log && after <= cursor && (cursor == after || cursor <= |earlier|) && Consecutive(log, sel)
    ensures var page := Slice(log, cursor, limit);
      && NextAfter(sel, page, cursor) == cursor + |page|
      && Stretch(log, after, cursor + |page|, Between(earlier, after, cursor) + page)
  {
    var page := Slice(log, cursor, limit);
    if page != [] {
      hide Number;
      var k := cursor + |page| - 1;
      assert page[|page| - 1] == log[k] && Number(sel, log[k]) == k + 1;
    }
    JoinedStretch(earlier, log, after, cursor, |page|);
  }

  lemma JoinedStretch(earlier: seq<Event>, log: seq<Event>, after: nat, cursor: nat, n: nat)
    requires earlier <= log && after <= cursor && (cursor == after || cursor <= |earlier|)
    requires n == 0 || cursor + n <= |log|
    ensures Between(earlier, after, cursor) + Between(log, cursor, cursor + n) == Between(log, after, cursor + n)
  {
    if cursor == after {
      assert Between(earlier, after, cursor) == [];
    } else {
      assert earlier[after..cursor] == log[after..cursor];
      assert log[after..cursor] + log[cursor..cursor + n] == log[after..cursor + n];
    }
  }

  /** Reading a finished log from 0 with limits of at least 1: the first empty page means that the whole
      log has been read, once and in order; and there is one after at most as many pages as events. */
  lemma {:induction false} PagesReadWholeLog(events: seq<Event>, views: seq<seq<Event>>, sel: Selector,
                                             limits: seq<nat>, pages: seq<seq<Event>>)
    requires |pages| > 0 && Reads(views, sel, 0, limits, pages)
    requires (forall i :: 0 <= i < |views| ==> views[i] == events) && forall i :: 0 <= i < |limits| ==> limits[i] >= 1
    ensures if pages[|pages| - 1] == [] then Concat(pages) == Log(events, sel)
            else |pages| <= CursorAfter(sel, pages, 0) <= |Log(events, sel)|
  {
    hide IsPage, Positions, Log, Reads;
    var n := |pages| - 1;
    LastRead(views, sel, 0, limits, pages);
    PagesAreContiguous(views, sel, 0, limits, pages);
    var before := CursorAfter(sel, pages[..n], 0);
    if n == 0 {
      assert pages[..0] == [];
      NothingRead(events, sel);
    } else {
      PagesReadWholeLog(events, views[..n], sel, limits[..n], pages[..n]);
      PagesAreContiguous(views[..n], sel, 0, limits[..n], pages[..n]);
    }
    LastPage(events, sel, before, limits[n], pages[n], Concat(pages[..n]));
  }

  lemma LastPage(events: seq<Event>, sel: Selector, before: nat, limit: nat, page: seq<Event>, text: seq<Event>)
    requires Positions(events) && IsPage(events, sel, before, limit, page) && limit >= 1
    requires Stretch(Log(events, sel), 0, before, text)
    ensures page == [] ==> before == |Log(events, sel)| && text + page == Log(events, sel)
    ensures page != [] ==> before < NextAfter(sel, page, before) <= |Log(events, sel)|
  {
    hide IsPage, Positions, Log;
    ReadOn(events, events, sel, 0, before, limit, page, text);
    assert text + [] == text && Between(Log(events, sel), 0, |Log(events, sel)|) == Log(events, sel);
  }

  lemma LastRead(views: seq<seq<Event>>, sel: Selector, after: nat, limits: seq<nat>, pages: seq<seq<Event>>)
    requires |pages| > 0 && Reads(views, sel, after, limits, pages)
    ensures var n := |pages| - 1;
      && |views| == |limits| == |pages|
      && Reads(views[..n], sel, after, limits[..n], pages[..n]) && Positions(views[n])
      && IsPage(views[n], sel, CursorAfter(sel, pages[..n], after), limits[n], pages[n])
  {
  }

  lemma NothingRead(events: seq<Event>, sel: Selector)
    ensures Stretch(Log(events, sel), 0, 0, Concat([]))
  {
  }
}
