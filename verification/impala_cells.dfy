/** Cells of a query result: how a driver value becomes a JSON value of bounded size. */
module ImpalaCells {
  import opened Outcomes
  import opened Utf8

  /** What a driver returns in a column: SQL NULL, booleans, integers, finite floats (as their JSON
      text), byte strings, and anything else by its str(). */
  datatype Value =
    | Null
    | Flag(flag: bool)
    | Whole(number: int)
    | Float(json: Text)
    | Binary(bytes: Bytes)
    | Other(text: Text)

  datatype Cell = Plain(value: Value) | Words(text: Text)

  // ----- Base 64 (section 4 of RFC 4648) -----

  function Sextet(n: nat): (c: Scalar)
    requires n < 64
    ensures c < 0x80
  {
    if n < 26 then 'A' as int + n
    else if n < 52 then 'a' as int + (n - 26)
    else if n < 62 then '0' as int + (n - 52)
    else if n == 62 then '+' as int
    else '/' as int
  }

  const PAD: Scalar := '=' as int

  // The four groups of six bits in three bytes, and back.

  function First(x: Byte): (n: nat)
    ensures n < 64
  {
    x / 4
  }

  function Second(x: Byte, y: Byte): (n: nat)
    ensures n < 64
  {
    x % 4 * 16 + y / 16
  }

  function Third(y: Byte, z: Byte): (n: nat)
    ensures n < 64
  {
    y % 16 * 4 + z / 64
  }

  function Fourth(z: Byte): (n: nat)
    ensures n < 64
  {
    z % 64
  }

  function Left(a: nat, b: nat): (x: Byte)
    requires a < 64 && b < 64
  {
    a * 4 + b / 16
  }

  function Middle(b: nat, c: nat): (y: Byte)
    requires b < 64 && c < 64
  {
    b % 16 * 16 + c / 4
  }

  function Right(c: nat, d: nat): (z: Byte)
    requires c < 64 && d < 64
  {
    c % 4 * 64 + d
  }

  lemma BitsComeBack(x: Byte, y: Byte, z: Byte)
    ensures Left(First(x), Second(x, y)) == x
    ensures Middle(Second(x, y), Third(y, z)) == y
    ensures Right(Third(y, z), Fourth(z)) == z
  {
  }

  function Base64(b: Bytes): Text {
    if b == [] then []
    else if |b| == 1 then [Sextet(First(b[0])), Sextet(Second(b[0], 0)), PAD, PAD]
    else if |b| == 2 then [Sextet(First(b[0])), Sextet(Second(b[0], b[1])), Sextet(Third(b[1], 0)), PAD]
    else Group(b) + Base64(b[3..])
  }

  function Group(b: Bytes): Text
    requires |b| >= 3
  {
    [Sextet(First(b[0])), Sextet(Second(b[0], b[1])), Sextet(Third(b[1], b[2])), Sextet(Fourth(b[2]))]
  }

  /** The number of a base 64 character. */
  function SextetOf(c: Scalar): (n: Option<nat>)
    ensures n.Some? ==> n.value < 64
  {
    if 'A' as int <= c <= 'Z' as int then Some(c - 'A' as int)
    else if 'a' as int <= c <= 'z' as int then Some(c - 'a' as int + 26)
    else if '0' as int <= c <= '9' as int then Some(c - '0' as int + 52)
    else if c == '+' as int then Some(62)
    else if c == '/' as int then Some(63)
    else None
  }

  /** Decoding: groups of four characters, the last of which may be padded. */
  function Unbase64(t: Text): Option<Bytes> {
    if t == [] then Some([])
    else if |t| < 4 || SextetOf(t[0]).None? || SextetOf(t[1]).None? then None
    else
      var a, b := SextetOf(t[0]).value, SextetOf(t[1]).value;
      if t[2] == PAD then if t[3] == PAD && |t| == 4 then Some([Left(a, b)]) else None
      else if SextetOf(t[2]).None? then None
      else
        var c := SextetOf(t[2]).value;
        if t[3] == PAD then if |t| == 4 then Some([Left(a, b), Middle(b, c)]) else None
        else if SextetOf(t[3]).None? || Unbase64(t[4..]).None? then None
        else Some([Left(a, b), Middle(b, c), Right(c, SextetOf(t[3]).value)] + Unbase64(t[4..]).value)
  }

  lemma SextetRoundTrip(n: nat)
    requires n < 64
    ensures SextetOf(Sextet(n)) == Some(n) && Sextet(n) != PAD
  {
  }

  /** Base 64 loses nothing. */
  lemma {:induction false} Base64RoundTrip(b: Bytes)
    ensures Unbase64(Base64(b)) == Some(b)
  {
    hide Sextet, SextetOf, First, Second, Third, Fourth, Left, Middle, Right;
    if b != [] {
      var x, y, z := b[0], if |b| > 1 then b[1] else 0, if |b| > 2 then b[2] else 0;
      BitsComeBack(x, y, z);
      SextetRoundTrip(First(x));
      SextetRoundTrip(Second(x, y));
      SextetRoundTrip(Third(y, z));
      SextetRoundTrip(Fourth(z));
      if |b| > 2 {
        Base64RoundTrip(b[3..]);
        assert Base64(b)[4..] == Base64(b[3..]);
        assert b == [x, y, z] + b[3..];
      } else if |b| == 2 {
        assert b == [x, y];
      } else {
        assert b == [x];
      }
    }
  }

  predicate Ascii(t: Text) {
    forall i :: 0 <= i < |t| ==> t[i] < 0x80
  }

  lemma {:induction false} Base64IsAscii(b: Bytes)
    ensures Ascii(Base64(b)) && |Base64(b)| >= |b|
  {
    if |b| >= 3 { Base64IsAscii(b[3..]); }
  }

  /** The first n characters depend on the first n bytes only. */
  lemma {:induction false} Base64Prefix(b: Bytes, n: nat)
    requires n <= |b|
    ensures |Base64(b[..n])| >= n && |Base64(b)| >= n && Base64(b[..n])[..n] == Base64(b)[..n]
  {
    hide Sextet;
    Base64IsAscii(b);
    Base64IsAscii(b[..n]);
    if n >= 3 {
      Base64Prefix(b[3..], n - 3);
      assert b[..n][3..] == b[3..][..n - 3];
      assert Group(b[..n]) == Group(b);
      hide Base64, Group;
      GroupPrefix(Group(b), Base64(b[..n][3..]), Base64(b[3..]), n);
    }
  }

  lemma GroupPrefix(head: Text, x: Text, y: Text, n: nat)
    requires |head| == 4 && n >= 3 && |x| >= n - 3 && |y| >= n - 3 && x[..n - 3] == y[..n - 3]
    ensures (head + x)[..n] == (head + y)[..n]
  {
    if n > 3 { assert x[..n - 4] == x[..n - 3][..n - 4] && y[..n - 4] == y[..n - 3][..n - 4]; }
  }

  lemma {:induction false} AsciiSize(t: Text)
    requires Ascii(t)
    ensures |Encode(t)| == |t|
  {
    if t != [] { AsciiSize(t[1..]); }
  }

  /** An ASCII text is cut to exactly `limit` characters. */
  lemma CutAscii(t: Text, limit: nat)
    requires Ascii(t)
    ensures Cut(t, limit) == if |t| <= limit then t else t[..limit]
  {
    AsciiSize(t);
    CutIsLongestPrefix(t, limit);
    var kept := Cut(t, limit);
    AsciiSize(kept);
    if |kept| < |t| { AsciiSize(t[..|kept| + 1]); }
  }

  // ----- _row -----

  predicate IsText(v: Value) {
    v.Binary? || v.Other?
  }

  /** The text of a value that is not cut. */
  function Full(v: Value): Text
    requires IsText(v)
  {
    if v.Binary? then Base64(v.bytes) else v.text
  }

  /** The value does not fit into `limit` bytes of text. */
  predicate TooLong(v: Value, limit: nat) {
    IsText(v) && |Encode(Full(v))| > limit
  }

  /** The cell of a value: its text, cut to the longest prefix of whole characters that fits. */
  function Kept(v: Value, limit: nat): Cell {
    if IsText(v) then Words(Cut(Full(v), limit)) else Plain(v)
  }

  /** Cutting the bytes first, as the code does, gives the same cell and the same flag. */
  lemma BinaryCell(bytes: Bytes, limit: nat)
    ensures var text := Base64(if |bytes| <= limit then bytes else bytes[..limit]);
      && Cut(text, limit) == Cut(Base64(bytes), limit)
      && (|bytes| > limit || |Encode(text)| > limit <==> TooLong(Binary(bytes), limit))
  {
    var text, full := Base64(if |bytes| <= limit then bytes else bytes[..limit]), Base64(bytes);
    Base64IsAscii(bytes);
    AsciiSize(full);
    CutAscii(full, limit);
    if |bytes| > limit {
      Base64IsAscii(bytes[..limit]);
      AsciiSize(text);
      CutAscii(text, limit);
      Base64Prefix(bytes, limit);
    }
  }

  /** One turn of the loop. */
  method CellOf(value: Value, limit: nat) returns (cell: Cell, cut: bool)
    ensures cell == Kept(value, limit) && cut == TooLong(value, limit)
  {
    cell, cut := Plain(value), false;
    if IsText(value) {
      var text;
      if value.Binary? {
        BinaryCell(value.bytes, limit);
        text := Base64(if |value.bytes| <= limit then value.bytes else value.bytes[..limit]);
        cut := |value.bytes| > limit;
      } else {
        text := value.text;
      }
      hide Base64, Decode, Encode;
      var raw := Encode(text);
      if |raw| > limit {
        text := Decode(raw[..limit], []);
        cut := true;
      }
      cell := Words(text);
    }
  }

  method Row(values: seq<Value>, limit: nat) returns (row: seq<Cell>, truncated: bool)
    ensures |row| == |values| && forall i :: 0 <= i < |values| ==> row[i] == Kept(values[i], limit)
    ensures truncated <==> exists i :: 0 <= i < |values| && TooLong(values[i], limit)
  {
    hide Kept, TooLong;
    row, truncated := [], false;
    for k := 0 to |values|
      invariant |row| == k && forall i :: 0 <= i < k ==> row[i] == Kept(values[i], limit)
      invariant truncated <==> exists i :: 0 <= i < k && TooLong(values[i], limit)
    {
      var cell, cut := CellOf(values[k], limit);
      truncated := truncated || cut;
      row := row + [cell];
    }
  }

  /** A text cell loses no more than it has to: it is the whole text, or else its longest prefix of
      whole characters within the limit, at most 3 bytes short of it.  Any other cell is its value. */
  lemma KeptIsLongestPrefix(v: Value, limit: nat)
    ensures IsText(v) ==>
              && Kept(v, limit).Words? && LongestPrefix(Full(v), limit, Kept(v, limit).text)
              && (TooLong(v, limit) <==> Kept(v, limit).text != Full(v))
    ensures !IsText(v) ==> Kept(v, limit) == Plain(v) && !TooLong(v, limit)
  {
    if IsText(v) { CutIsLongestPrefix(Full(v), limit); }
  }
}
