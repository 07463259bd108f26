/** UTF-8 (RFC 3629): encoding, well-formed sequences, and decoding with Python's error handlers, in one
    go and byte by byte. */
module Utf8 {
  type Byte = b: int | 0 <= b < 256
  type Bytes = seq<Byte>

  /** A Unicode scalar value. */
  type Scalar = c: int | 0 <= c <= 0x10FFFF && !(0xD800 <= c <= 0xDFFF)
  type Text = seq<Scalar>

  const REPLACEMENT: Scalar := 0xFFFD

  // ----- Encoding -----

  function EncodeChar(c: Scalar): (b: Bytes)
    ensures 1 <= |b| <= 4
  {
    if c < 0x80 then [c]
    else if c < 0x800 then [0xC0 + c / 64, 0x80 + c % 64]
    else if c < 0x10000 then [0xE0 + c / 64 / 64, 0x80 + c / 64 % 64, 0x80 + c % 64]
    else [0xF0 + c / 64 / 64 / 64, 0x80 + c / 64 / 64 % 64, 0x80 + c / 64 % 64, 0x80 + c % 64]
  }

  function Encode(t: Text): Bytes {
    if t == [] then [] else EncodeChar(t[0]) + Encode(t[1..])
  }

  lemma {:induction false} EncodeAppend(a: Text, b: Text)
    ensures Encode(a + b) == Encode(a) + Encode(b)
  {
    if a == [] {
      assert a + b == b;
    } else {
      assert (a + b)[0] == a[0] && (a + b)[1..] == a[1..] + b;
      EncodeAppend(a[1..], b);
    }
  }

  // ----- Well-formed sequences (section 4 of RFC 3629) -----

  /** The length that a first byte announces; 0 for a byte that starts no sequence. */
  function Length(lead: Byte): nat {
    if lead < 0x80 then 1
    else if 0xC2 <= lead <= 0xDF then 2
    else if 0xE0 <= lead <= 0xEF then 3
    else if 0xF0 <= lead <= 0xF4 then 4
    else 0
  }

  predicate SecondOk(lead: Byte, b: Byte) {
    (if lead == 0xE0 then 0xA0 else if lead == 0xF0 then 0x90 else 0x80) <= b
    <= (if lead == 0xED then 0x9F else if lead == 0xF4 then 0x8F else 0xBF)
  }

  /** A nonempty prefix of a well-formed sequence. */
  predicate Viable(p: Bytes) {
    && 1 <= |p| <= Length(p[0])
    && (|p| >= 2 ==> SecondOk(p[0], p[1]))
    && (|p| >= 3 ==> 0x80 <= p[2] <= 0xBF)
    && (|p| >= 4 ==> 0x80 <= p[3] <= 0xBF)
  }

  predicate Complete(p: Bytes) {
    Viable(p) && |p| == Length(p[0])
  }

  /** Six more bits, from a continuation byte. */
  function Join(high: int, b: Byte): int { high * 64 + (b as int - 0x80) }

  function CharOf(p: Bytes): Scalar
    requires Complete(p)
  {
    if |p| == 1 then p[0]
    else if |p| == 2 then Join(p[0] as int - 0xC0, p[1])
    else if |p| == 3 then Join(Join(p[0] as int - 0xE0, p[1]), p[2])
    else Join(Join(Join(p[0] as int - 0xF0, p[1]), p[2]), p[3])
  }

  lemma EncodedIsComplete(c: Scalar)
    ensures Complete(EncodeChar(c)) && CharOf(EncodeChar(c)) == c
  {
    var h := c / 64;
    var g := h / 64;
    assert c == 64 * h + c % 64 && h == 64 * g + h % 64 && g == 64 * (g / 64) + g % 64;
  }

  lemma ViablePrefix(p: Bytes, n: nat)
    requires Viable(p) && 1 <= n <= |p|
    ensures Viable(p[..n]) && (n < |p| ==> !Complete(p[..n]))
  {
  }

  // ----- Decoding in one go -----

  /** The number of bytes at the front that belong to one character or to one error: a well-formed
      sequence, or else the longest prefix of one, or else a single byte. */
  function Unit(b: Bytes): (n: nat)
    requires b != []
    ensures 1 <= n <= |b| && n <= 4
    ensures n > 1 ==> Viable(b[..n])
  {
    if !Viable(b[..1]) || Complete(b[..1]) || |b| == 1 || !Viable(b[..2]) then 1
    else if Complete(b[..2]) || |b| == 2 || !Viable(b[..3]) then 2
    else if Complete(b[..3]) || |b| == 3 || !Viable(b[..4]) then 3
    else 4
  }

  /** bytes.decode("utf-8", errors=...): `bad` is what an error contributes, nothing for "ignore" and
      one U+FFFD for "replace". */
  function Decode(b: Bytes, bad: Text): Text {
    if b == [] then []
    else
      var n := Unit(b);
      (if Complete(b[..n]) then [CharOf(b[..n])] else bad) + Decode(b[n..], bad)
  }

  /** A well-formed sequence in front is a unit of its own. */
  lemma UnitOfComplete(p: Bytes, rest: Bytes)
    requires Complete(p)
    ensures Unit(p + rest) == |p|
  {
    var b := p + rest;
    assert b[..|p|] == p;
    if |p| > 1 { ViablePrefix(p, 1); assert b[..1] == p[..1]; }
    if |p| > 2 { ViablePrefix(p, 2); assert b[..2] == p[..2]; }
    if |p| > 3 { ViablePrefix(p, 3); assert b[..3] == p[..3]; }
  }

  lemma DecodeComplete(p: Bytes, rest: Bytes, bad: Text)
    requires Complete(p)
    ensures Decode(p + rest, bad) == [CharOf(p)] + Decode(rest, bad)
  {
    UnitOfComplete(p, rest);
    assert (p + rest)[..|p|] == p && (p + rest)[|p|..] == rest;
  }

  /** Decoding undoes encoding, and leaves what follows to itself. */
  lemma {:induction false} DecodeEncoded(t: Text, rest: Bytes, bad: Text)
    ensures Decode(Encode(t) + rest, bad) == t + Decode(rest, bad)
  {
    hide Decode, EncodeChar, CharOf, Complete;
    if t == [] {
      assert Encode(t) + rest == rest && t + Decode(rest, bad) == Decode(rest, bad);
    } else {
      var p := EncodeChar(t[0]);
      EncodedIsComplete(t[0]);
      assert Encode(t) + rest == p + (Encode(t[1..]) + rest);
      DecodeComplete(p, Encode(t[1..]) + rest, bad);
      DecodeEncoded(t[1..], rest, bad);
      assert t == [t[0]] + t[1..];
    }
  }

  /** An unfinished sequence at the end is one error. */
  lemma DecodeUnfinished(p: Bytes, bad: Text)
    requires Viable(p) && !Complete(p)
    ensures Decode(p, bad) == bad
  {
    if |p| > 1 { ViablePrefix(p, 1); }
    if |p| > 2 { ViablePrefix(p, 2); }
    assert Unit(p) == |p| && p[..|p|] == p && p[|p|..] == [];
  }

  // ----- Cutting a text to a number of bytes -----

  /** raw[:limit].decode("utf-8", errors="ignore") */
  function Cut(t: Text, limit: nat): Text {
    if |Encode(t)| <= limit then t else Decode(Encode(t)[..limit], [])
  }

  /** The cut keeps the longest prefix of whole characters that fits, and so at most 3 bytes of the
      limit go unused; the text is shortened exactly when its encoding does not fit. */
  lemma {:induction false} CutIsLongestPrefix(t: Text, limit: nat)
    ensures LongestPrefix(t, limit, Cut(t, limit))
  {
    hide Decode, EncodeChar;
    if |Encode(t)| > limit {
      if limit < |EncodeChar(t[0])| {
        CutInFirst(t, limit);
      } else {
        var room := limit - |EncodeChar(t[0])|;
        CutIsLongestPrefix(t[1..], room);
        CutStep(t, limit);
        LongestPrefixOfCons(t[0], t[1..], room, Cut(t[1..], room));
        assert t == [t[0]] + t[1..];
      }
    }
  }

  /** `kept` is the longest prefix of whole characters within the limit. */
  ghost predicate LongestPrefix(t: Text, limit: nat, kept: Text) {
    && kept <= t && |Encode(kept)| <= limit
    && (kept == t <==> |Encode(t)| <= limit)
    && (|kept| < |t| ==> |Encode(t[..|kept| + 1])| > limit && limit - |Encode(kept)| <= 3)
  }

  lemma CutInFirst(t: Text, limit: nat)
    requires t != [] && limit < |EncodeChar(t[0])|
    ensures LongestPrefix(t, limit, Cut(t, limit))
  {
    var p := EncodeChar(t[0]);
    EncodedIsComplete(t[0]);
    hide EncodeChar, CharOf, Unit;
    assert Encode(t)[..limit] == p[..limit];
    if limit > 0 {
      ViablePrefix(p, limit);
      DecodeUnfinished(p[..limit], []);
    }
    assert Cut(t, limit) == [];
    assert t[..1] == [t[0]] && Encode(t[..1]) == p + Encode([]);
  }

  lemma SizeOfCons(c: Scalar, t: Text)
    ensures Encode([c] + t) == EncodeChar(c) + Encode(t)
  {
    assert ([c] + t)[1..] == t;
  }

  lemma PrefixOfConcat(p: Bytes, tail: Bytes, n: nat)
    requires |p| <= n <= |p + tail|
    ensures (p + tail)[..n] == p + tail[..n - |p|]
  {
  }

  lemma CutStep(t: Text, limit: nat)
    requires t != [] && |EncodeChar(t[0])| <= limit < |Encode(t)|
    ensures Cut(t, limit) == [t[0]] + Cut(t[1..], limit - |EncodeChar(t[0])|)
    ensures |Encode(t[1..])| > limit - |EncodeChar(t[0])|
  {
    hide EncodeChar, CharOf, Unit, Complete, Decode;
    var p, tail := EncodeChar(t[0]), Encode(t[1..]);
    EncodedIsComplete(t[0]);
    assert Encode(t) == p + tail;
    hide Encode;
    PrefixOfConcat(p, tail, limit);
    DecodeComplete(p, tail[..limit - |p|], []);
  }

  lemma LongestPrefixOfCons(c: Scalar, rest: Text, room: nat, inner: Text)
    requires LongestPrefix(rest, room, inner)
    ensures LongestPrefix([c] + rest, room + |EncodeChar(c)|, [c] + inner)
  {
    hide EncodeChar, Encode;
    SizeOfCons(c, inner);
    SizeOfCons(c, rest);
    if |inner| < |rest| {
      SizeOfCons(c, rest[..|inner| + 1]);
      assert ([c] + rest)[..|[c] + inner| + 1] == [c] + rest[..|inner| + 1];
    } else {
      assert inner == rest;
    }
  }

  // ----- Decoding byte by byte -----

  /** The incremental decoder: the text so far, and the bytes of a character that is not finished. */
  datatype Decoder = Decoder(text: Text, pending: Bytes)

  const START := Decoder([], [])

  /** One byte, under errors="replace". */
  function Feed(d: Decoder, b: Byte): Decoder {
    var p := d.pending + [b];
    if Complete(p) then Decoder(d.text + [CharOf(p)], [])
    else if Viable(p) then Decoder(d.text, p)
    else if d.pending == [] then Decoder(d.text + [REPLACEMENT], [])
    else
      var text := d.text + [REPLACEMENT];
      if Complete([b]) then Decoder(text + [CharOf([b])], [])
      else if Viable([b]) then Decoder(text, [b])
      else Decoder(text + [REPLACEMENT], [])
  }

  function FeedAll(d: Decoder, bytes: Bytes): Decoder {
    if bytes == [] then d else Feed(FeedAll(d, bytes[..|bytes| - 1]), bytes[|bytes| - 1])
  }

  /** decode(b"", final=True) */
  function Finish(d: Decoder): Text {
    if d.pending == [] then [] else [REPLACEMENT]
  }

  lemma {:induction false} FeedAppend(d: Decoder, a: Bytes, b: Bytes)
    ensures FeedAll(d, a + b) == FeedAll(FeedAll(d, a), b)
  {
    if b == [] {
      assert a + b == a;
    } else {
      assert (a + b)[..|a + b| - 1] == a + b[..|b| - 1];
      FeedAppend(d, a, b[..|b| - 1]);
    }
  }

  predicate Unfinished(p: Bytes) {
    p == [] || (Viable(p) && !Complete(p))
  }

  lemma UnfinishedIsShort(p: Bytes)
    requires Unfinished(p)
    ensures |p| <= 3
  {
  }

  /** Decoding `bytes` behind an unfinished sequence gives what decoding them together would. */
  lemma {:induction false} FeedIsDecode(d: Decoder, bytes: Bytes)
    requires Unfinished(d.pending)
    ensures var e := FeedAll(d, bytes);
      && Unfinished(e.pending) && |e.pending| <= 3
      && d.text + Decode(d.pending + bytes, [REPLACEMENT]) == e.text + Decode(e.pending, [REPLACEMENT])
    decreases |bytes|
  {
    hide Decode, Feed, Viable, Complete;
    if bytes == [] {
      UnfinishedIsShort(d.pending);
      assert d.pending + bytes == d.pending;
    } else {
      var b, rest := bytes[0], bytes[1..];
      var next := Feed(d, b);
      FeedOne(d, b, rest);
      FeedIsDecode(next, rest);
      FeedAppend(d, [b], rest);
      assert [b] + rest == bytes && FeedAll(d, [b]) == Feed(FeedAll(d, []), b);
    }
  }

  lemma FeedOne(d: Decoder, b: Byte, rest: Bytes)
    requires Unfinished(d.pending)
    ensures var next := Feed(d, b);
      && Unfinished(next.pending)
      && d.text + Decode(d.pending + ([b] + rest), [REPLACEMENT]) == next.text + Decode(next.pending + rest, [REPLACEMENT])
  {
    hide Decode, CharOf, Viable, Complete;
    var p := d.pending + [b];
    assert d.pending + ([b] + rest) == p + rest;
    if Complete(p) {
      DecodeComplete(p, rest, [REPLACEMENT]);
      assert [] + rest == rest;
    } else if !Viable(p) {
      if d.pending == [] {
        assert p == [b] && [] + rest == rest;
        BadByte(b, rest);
      } else {
        BrokenSequence(d.pending, b, rest);
        FreshByte(d.text + [REPLACEMENT], b, rest);
      }
    }
  }

  lemma FreshByte(text: Text, b: Byte, rest: Bytes)
    ensures var next := if Complete([b]) then Decoder(text + [CharOf([b])], [])
                        else if Viable([b]) then Decoder(text, [b])
                        else Decoder(text + [REPLACEMENT], []);
      && Unfinished(next.pending)
      && text + Decode([b] + rest, [REPLACEMENT]) == next.text + Decode(next.pending + rest, [REPLACEMENT])
  {
    hide Decode, CharOf, Viable, Complete;
    assert [] + rest == rest;
    if Complete([b]) {
      DecodeComplete([b], rest, [REPLACEMENT]);
    } else if !Viable([b]) {
      BadByte(b, rest);
    }
  }

  lemma BadByte(b: Byte, rest: Bytes)
    requires !Viable([b])
    ensures Decode([b] + rest, [REPLACEMENT]) == [REPLACEMENT] + Decode(rest, [REPLACEMENT])
  {
    assert ([b] + rest)[..1] == [b] && ([b] + rest)[1..] == rest;
  }

  /** A byte that does not continue a sequence ends it as one error, and is looked at again. */
  lemma BrokenSequence(p: Bytes, b: Byte, rest: Bytes)
    requires Viable(p) && !Complete(p) && !Viable(p + [b])
    ensures Decode(p + [b] + rest, [REPLACEMENT]) == [REPLACEMENT] + Decode([b] + rest, [REPLACEMENT])
  {
    var all := p + [b] + rest;
    assert all[..|p|] == p && all[|p|..] == [b] + rest && all[..|p| + 1] == p + [b];
    if |p| > 1 { ViablePrefix(p, 1); assert all[..1] == p[..1]; }
    if |p| > 2 { ViablePrefix(p, 2); assert all[..2] == p[..2]; }
    assert Unit(all) == |p|;
  }
}
