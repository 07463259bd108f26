/** Capturing the output of a process: the first `limit` bytes go to a file, and their decoding to a
    sink, while the stream arrives in chunks of any size. */
module BoundedCapture {
  import opened Outcomes
  import opened Utf8

  /** One call of the sink. */
  datatype Notice = Notice(text: Text, truncated: bool)

  function Joined(chunks: seq<Bytes>): Bytes {
    if chunks == [] then [] else Joined(chunks[..|chunks| - 1]) + chunks[|chunks| - 1]
  }

  function First(b: Bytes, limit: nat): Bytes {
    if |b| <= limit then b else b[..limit]
  }

  /** All the text that the sink was given. */
  function Said(calls: seq<Notice>): Text {
    if calls == [] then [] else Said(calls[..|calls| - 1]) + calls[|calls| - 1].text
  }

  /** The number of calls that announced a truncation. */
  function Alerts(calls: seq<Notice>): nat {
    if calls == [] then 0 else Alerts(calls[..|calls| - 1]) + if calls[|calls| - 1].truncated then 1 else 0
  }

  lemma SaidAppend(calls: seq<Notice>, n: Notice)
    ensures Said(calls + [n]) == Said(calls) + n.text
    ensures Alerts(calls + [n]) == Alerts(calls) + if n.truncated then 1 else 0
  {
    assert (calls + [n])[..|calls|] == calls;
  }

  lemma {:induction false} FeedGrows(d: Decoder, bytes: Bytes)
    ensures d.text <= FeedAll(d, bytes).text
  {
    if bytes != [] { FeedGrows(d, bytes[..|bytes| - 1]); }
  }

  /** decoder.decode(bytes, final=False): the text that these bytes add. */
  function Added(d: Decoder, bytes: Bytes): Text {
    FeedGrows(d, bytes);
    FeedAll(d, bytes).text[|d.text|..]
  }

  lemma AddedText(d: Decoder, bytes: Bytes)
    ensures FeedAll(d, bytes).text == d.text + Added(d, bytes)
  {
    FeedGrows(d, bytes);
  }

  /** The state of the capture after the bytes `whole`, however they were cut into chunks. */
  ghost predicate Captured(whole: Bytes, limit: nat, file: Bytes, d: Decoder, truncated: bool, sink: bool,
                           calls: seq<Notice>)
  {
    && file == First(whole, limit)
    && (truncated <==> |whole| > limit)
    && (!sink ==> calls == [])
    && (sink ==>
          && d == FeedAll(START, file) && Said(calls) == d.text
          && Alerts(calls) == (if truncated then 1 else 0)
          && (truncated ==> calls != [] && calls[|calls| - 1].truncated)
          && (forall i :: 0 <= i < |calls| && !calls[i].truncated ==> calls[i].text != []))
  }

  /** One chunk of the loop. */
  method TakeChunk(chunk: Bytes, ghost whole: Bytes, limit: nat, file: Bytes, d: Decoder, truncated: bool,
                   sink: bool, calls: seq<Notice>)
    returns (file': Bytes, d': Decoder, truncated': bool, calls': seq<Notice>)
    requires chunk != [] && Captured(whole, limit, file, d, truncated, sink, calls)
    ensures Captured(whole + chunk, limit, file', d', truncated', sink, calls')
  {
    file', d', truncated', calls' := file, d, truncated, calls;
    var remaining := limit - |file|;
    if remaining <= 0 {
      truncated' := true;
      if sink && !truncated {
        calls' := calls + [Notice([], true)];
        SaidAppend(calls, Notice([], true));
      }
      return;
    }
    var size := if |chunk| < remaining then |chunk| else remaining;
    file' := file + chunk[..size];
    assert file' == First(whole + chunk, limit);
    if size < |chunk| {
      truncated' := true;
    }
    if sink {
      FeedAppend(START, file, chunk[..size]);
      AddedText(d, chunk[..size]);
      var text := Added(d, chunk[..size]);
      d' := FeedAll(d, chunk[..size]);
      if size < |chunk| || text != [] {
        calls' := calls + [Notice(text, size < |chunk|)];
        SaidAppend(calls, Notice(text, size < |chunk|));
      }
    }
  }

  /** _read_bounded.  For every way of cutting the stream into chunks: the file is its first `limit`
      bytes; the answer says whether it is longer; the sink is told of that exactly once and last; and
      what it was told in all is the decoding of the file, up to the bytes of an unfinished character
      at the end when the stream was truncated. */
  method ReadBounded(stream: Option<seq<Bytes>>, limit: nat, sink: bool)
    returns (truncated: bool, file: Bytes, calls: seq<Notice>)
    requires stream.Some? ==> forall i :: 0 <= i < |stream.value| ==> stream.value[i] != []
    ensures stream.None? ==> !truncated && file == [] && calls == []
    ensures stream.Some? ==>
              && file == First(Joined(stream.value), limit)
              && (truncated <==> |Joined(stream.value)| > limit)
    ensures !sink ==> calls == []
    ensures stream.Some? && sink ==>
              && Alerts(calls) == (if truncated then 1 else 0)
              && (truncated ==> calls != [] && calls[|calls| - 1].truncated)
              && Said(calls) == (if truncated then FeedAll(START, file).text else Decode(file, [REPLACEMENT]))
  {
    truncated, file, calls := false, [], [];
    if stream.None? { return; }
    var chunks, d, i := stream.value, START, 0;
    while i < |chunks|
      invariant 0 <= i <= |chunks|
      invariant Captured(Joined(chunks[..i]), limit, file, d, truncated, sink, calls)
    {
      assert chunks[..i + 1][..i] == chunks[..i];
      file, d, truncated, calls := TakeChunk(chunks[i], Joined(chunks[..i]), limit, file, d, truncated, sink, calls);
      i := i + 1;
    }
    assert chunks[..|chunks|] == chunks;
    if sink && !truncated {
      WholeDecoding(file);
      var tail := Finish(d);
      if tail != [] {
        SaidAppend(calls, Notice(tail, false));
        calls := calls + [Notice(tail, false)];
      }
    }
  }

  /** Decoding in pieces and then finishing is decoding at once. */
  lemma WholeDecoding(bytes: Bytes)
    ensures FeedAll(START, bytes).text + Finish(FeedAll(START, bytes)) == Decode(bytes, [REPLACEMENT])
  {
    var d := FeedAll(START, bytes);
    FeedIsDecode(START, bytes);
    assert [] + bytes == bytes && START.text + Decode(bytes, [REPLACEMENT]) == Decode(bytes, [REPLACEMENT]);
    if d.pending != [] { DecodeUnfinished(d.pending, [REPLACEMENT]); }
  }

  /** The decoder has decoded all bytes but those it is still waiting to finish. */
  ghost predicate Holding(bytes: Bytes, d: Decoder) {
    && |d.pending| <= |bytes| && bytes[|bytes| - |d.pending|..] == d.pending
    && d.text == Decode(bytes[..|bytes| - |d.pending|], [REPLACEMENT])
  }

  lemma FeedCases(e: Decoder, b: Byte)
    ensures var d := Feed(e, b);
      || d.pending == []
      || (d.pending == e.pending + [b] && d.text == e.text)
      || (d.pending == [b] && e.pending != [] && d.text == e.text + [REPLACEMENT])
  {
  }

  /** What truncation holds back from the sink: at most 3 bytes at the end of the file, which begin a
      character that is not finished there.  All that comes before them was decoded. */
  lemma {:induction false} HeldBack(bytes: Bytes)
    ensures var d := FeedAll(START, bytes);
      Holding(bytes, d) && |d.pending| <= 3 && Unfinished(d.pending)
  {
    hide Feed, Decode, Viable, Complete, Holding;
    var d := FeedAll(START, bytes);
    FeedIsDecode(START, bytes);
    if d.pending == [] {
      NothingHeld(bytes);
    } else {
      var init, b := bytes[..|bytes| - 1], bytes[|bytes| - 1];
      var e := FeedAll(START, init);
      HeldBack(init);
      FeedCases(e, b);
      assert bytes == init + [b];
      if d.pending == e.pending + [b] && d.text == e.text { HoldMore(init, b, e); } else { HoldLast(init, b, d); }
    }
  }

  lemma NothingHeld(bytes: Bytes)
    requires FeedAll(START, bytes).pending == []
    ensures Holding(bytes, FeedAll(START, bytes))
  {
    hide Feed, Viable, Complete;
    WholeDecoding(bytes);
    assert bytes[..|bytes|] == bytes && FeedAll(START, bytes).text + [] == FeedAll(START, bytes).text;
  }

  lemma HoldMore(init: Bytes, b: Byte, e: Decoder)
    requires Holding(init, e)
    ensures Holding(init + [b], Decoder(e.text, e.pending + [b]))
  {
    hide Decode;
    var n := |init| - |e.pending|;
    assert (init + [b])[..n] == init[..n] && (init + [b])[n..] == init[n..] + [b];
  }

  lemma HoldLast(init: Bytes, b: Byte, d: Decoder)
    requires var e := FeedAll(START, init);
      d == Decoder(e.text + [REPLACEMENT], [b]) && e.pending != []
    ensures Holding(init + [b], d)
  {
    hide Feed, Decode;
    WholeDecoding(init);
    assert (init + [b])[..|init|] == init;
  }
}
