/** The JSON text of a query result, and what bounds its size. */
module ImpalaJson {
  import opened Outcomes
  import opened FileNames
  import opened Utf8
  import opened ImpalaCells

  datatype Status = Running | Succeeded | Failed | Cancelled | Unknown

  datatype Reason = RowLimit | ByteLimit | CellLimit

  datatype Problem = Problem(code: Text, message: Text)

  /** The result dict of a query; `error` and `elapsed` are keys that it has only at the end. */
  datatype Result = Result(
    queryRef: Text, queryId: Option<Text>, status: Status, department: Text, account: Text,
    columns: seq<Text>, rows: seq<seq<Cell>>, rowCount: nat, truncated: bool, reasons: seq<Reason>,
    error: Option<Problem>, elapsed: Option<nat>)

  // ----- json.dumps(..., ensure_ascii=False, separators=(",", ":")) -----

  function Lit(s: string): (b: Bytes)
    requires forall i :: 0 <= i < |s| ==> s[i] as int < 0x80
    ensures |b| == |s|
  {
    seq(|s|, i requires 0 <= i < |s| => s[i] as int)
  }

  function HexDigit(n: nat): Byte
    requires n < 16
  {
    if n < 10 then '0' as int + n else 'a' as int + (n - 10)
  }

  function Escape(c: Scalar): (b: Bytes)
    ensures |b| <= 6
  {
    if c == '"' as int || c == '\\' as int then ['\\' as int, c]
    else if c == 8 then Lit("\\b")
    else if c == 9 then Lit("\\t")
    else if c == 10 then Lit("\\n")
    else if c == 12 then Lit("\\f")
    else if c == 13 then Lit("\\r")
    else if c < 0x20 then Lit("\\u00") + [HexDigit(c / 16), HexDigit(c % 16)]
    else EncodeChar(c)
  }

  function Escaped(t: Text): (b: Bytes)
    ensures |b| <= 6 * |t|
  {
    if t == [] then [] else Escape(t[0]) + Escaped(t[1..])
  }

  function Quote(t: Text): (b: Bytes)
    ensures 2 <= |b| <= 6 * |t| + 2
  {
    Lit("\"") + Escaped(t) + Lit("\"")
  }

  function Number(n: int): Bytes {
    if n < 0 then Lit("-") + Lit(Padded(-n, 1)) else Lit(Padded(n, 1))
  }

  function Join(items: seq<Bytes>): Bytes {
    if items == [] then []
    else if |items| == 1 then items[0]
    else items[0] + Lit(",") + Join(items[1..])
  }

  function List(items: seq<Bytes>): Bytes {
    Lit("[") + Join(items) + Lit("]")
  }

  function CellJson(c: Cell): Bytes {
    match c
    case Words(text) => Quote(text)
    case Plain(Flag(b)) => if b then Lit("true") else Lit("false")
    case Plain(Whole(n)) => Number(n)
    case Plain(Float(json)) => Encode(json)
    case _ => Lit("null")
  }

  function RowJson(row: seq<Cell>): Bytes {
    List(seq(|row|, i requires 0 <= i < |row| => CellJson(row[i])))
  }

  function RowsJson(rows: seq<seq<Cell>>): Bytes {
    List(seq(|rows|, i requires 0 <= i < |rows| => RowJson(rows[i])))
  }

  function ColumnsJson(columns: seq<Text>): Bytes {
    List(seq(|columns|, i requires 0 <= i < |columns| => Quote(columns[i])))
  }

  function StatusJson(s: Status): (b: Bytes)
    ensures 8 <= |b| <= 11 && (s == Running ==> |b| == 9)
  {
    match s
    case Running => Lit("\"RUNNING\"")
    case Succeeded => Lit("\"SUCCEEDED\"")
    case Failed => Lit("\"FAILED\"")
    case Cancelled => Lit("\"CANCELLED\"")
    case Unknown => Lit("\"UNKNOWN\"")
  }

  function ReasonJson(r: Reason): (b: Bytes)
    ensures |b| <= 12
  {
    match r
    case RowLimit => Lit("\"row_limit\"")
    case ByteLimit => Lit("\"byte_limit\"")
    case CellLimit => Lit("\"cell_limit\"")
  }

  function ReasonsJson(reasons: seq<Reason>): Bytes {
    List(seq(|reasons|, i requires 0 <= i < |reasons| => ReasonJson(reasons[i])))
  }

  function Boolean(b: bool): (j: Bytes)
    ensures 4 <= |j| <= 5
  {
    if b then Lit("true") else Lit("false")
  }

  function ErrorJson(error: Option<Problem>): Bytes {
    if error.None? then []
    else Lit(",\"error\":{\"code\":") + Quote(error.value.code) + Lit(",\"message\":") + Quote(error.value.message) + Lit("}")
  }

  function ElapsedJson(elapsed: Option<nat>): Bytes {
    if elapsed.None? then [] else Lit(",\"elapsed_ms\":") + Number(elapsed.value)
  }

  /** encoded(result) */
  function Encoded(r: Result): Bytes {
    Lit("{\"query_ref\":") + Quote(r.queryRef)
    + Lit(",\"query_id\":") + (if r.queryId.None? then Lit("null") else Quote(r.queryId.value))
    + Lit(",\"status\":") + StatusJson(r.status)
    + Lit(",\"department\":") + Quote(r.department)
    + Lit(",\"account\":") + Quote(r.account)
    + Lit(",\"columns\":") + ColumnsJson(r.columns)
    + Lit(",\"rows\":") + RowsJson(r.rows)
    + Lit(",\"row_count\":") + Number(r.rowCount)
    + Lit(",\"truncated\":") + Boolean(r.truncated)
    + Lit(",\"truncation_reasons\":") + ReasonsJson(r.reasons)
    + ErrorJson(r.error) + ElapsedJson(r.elapsed) + Lit("}")
  }

  // ----- Reading a string back -----

  /** The value of a hexadecimal digit. */
  function DigitOf(c: Byte): Option<nat> {
    if '0' as int <= c <= '9' as int then Some(c - '0' as int)
    else if 'a' as int <= c <= 'f' as int then Some(c - 'a' as int + 10)
    else None
  }

  /** An escape sequence after its backslash: the byte it stands for, and its length. */
  function Unescaped(b: Bytes): Option<(Byte, nat)> {
    if b == [] then None
    else if b[0] == '"' as int || b[0] == '\\' as int then Some((b[0], 1))
    else if b[0] == 'b' as int then Some((8, 1))
    else if b[0] == 't' as int then Some((9, 1))
    else if b[0] == 'n' as int then Some((10, 1))
    else if b[0] == 'f' as int then Some((12, 1))
    else if b[0] == 'r' as int then Some((13, 1))
    else if b[0] == 'u' as int && |b| >= 5 && b[1] == b[2] == '0' as int && DigitOf(b[3]).Some? && DigitOf(b[4]).Some?
            && DigitOf(b[3]).value < 8 then
      Some((DigitOf(b[3]).value * 16 + DigitOf(b[4]).value, 5))
    else None
  }

  /** The bytes of a string literal behind its opening quote, and what follows its closing one. */
  function ReadString(b: Bytes): Option<(Bytes, Bytes)> {
    if b == [] || b[0] < 0x20 then None
    else if b[0] == '"' as int then Some(([], b[1..]))
    else if b[0] == '\\' as int then
      var unescaped := Unescaped(b[1..]);
      if unescaped.None? then None else Prepend([unescaped.value.0], ReadString(b[1 + unescaped.value.1..]))
    else Prepend([b[0]], ReadString(b[1..]))
  }

  function Prepend(head: Bytes, read: Option<(Bytes, Bytes)>): Option<(Bytes, Bytes)> {
    if read.None? then None else Some((head + read.value.0, read.value.1))
  }

  /** Every literal is read back as the UTF-8 of its text, and nothing after it is touched. */
  lemma {:induction false} QuotedReadsBack(t: Text, rest: Bytes)
    ensures Quote(t)[0] == '"' as int
    ensures ReadString((Quote(t) + rest)[1..]) == Some((Encode(t), rest))
  {
    assert (Quote(t) + rest)[1..] == Escaped(t) + (Lit("\"") + rest);
    EscapedReadsBack(t, rest);
  }

  lemma {:induction false} EscapedReadsBack(t: Text, rest: Bytes)
    ensures ReadString(Escaped(t) + (Lit("\"") + rest)) == Some((Encode(t), rest))
  {
    var tail := Lit("\"") + rest;
    if t == [] {
      assert Escaped(t) + tail == tail && tail[0] == '"' as int && tail[1..] == rest;
    } else {
      EscapedReadsBack(t[1..], rest);
      Regroup(Escape(t[0]), Escaped(t[1..]), tail);
      CharReadsBack(t[0], Escaped(t[1..]) + tail);
      hide Escape, EncodeChar, ReadString, Lit;
    }
  }

  lemma Regroup(a: Bytes, b: Bytes, c: Bytes)
    ensures a + b + c == a + (b + c)
  {
  }

  lemma PrependTwice(a: Bytes, b: Bytes, read: Option<(Bytes, Bytes)>)
    ensures Prepend(a, Prepend(b, read)) == Prepend(a + b, read)
  {
    if read.Some? { Regroup(a, b, read.value.0); }
  }

  lemma CharReadsBack(c: Scalar, more: Bytes)
    ensures ReadString(Escape(c) + more) == Prepend(EncodeChar(c), ReadString(more))
  {
    var b := Escape(c) + more;
    if c == '"' as int || c == '\\' as int || c < 0x20 {
      EscapeReadsBack(c, more);
    } else if c < 0x80 {
      assert b[1..] == more;
    } else {
      PlainReadsBack(EncodeChar(c), more);
    }
  }

  lemma EscapeReadsBack(c: Scalar, more: Bytes)
    requires c == '"' as int || c == '\\' as int || c < 0x20
    ensures ReadString(Escape(c) + more) == Prepend([c], ReadString(more))
  {
    var b := Escape(c) + more;
    assert b[0] == '\\' as int;
    if |Escape(c)| == 2 {
      assert b[1..][0] == Escape(c)[1] && b[2..] == more;
    } else {
      assert |Escape(c)| == 6 && b[6..] == more;
      assert forall i :: 1 <= i < 6 ==> b[1..][i - 1] == Escape(c)[i];
    }
  }

  /** Bytes that need no escape. */
  lemma {:induction false} PlainReadsBack(plain: Bytes, more: Bytes)
    requires forall i :: 0 <= i < |plain| ==> plain[i] >= 0x80
    ensures ReadString(plain + more) == Prepend(plain, ReadString(more))
  {
    if plain == [] {
      assert plain + more == more;
      assert ReadString(more).Some? ==> [] + ReadString(more).value.0 == ReadString(more).value.0;
    } else {
      PlainReadsBack(plain[1..], more);
      assert (plain + more)[1..] == plain[1..] + more;
      assert plain == [plain[0]] + plain[1..];
      PrependTwice([plain[0]], plain[1..], ReadString(more));
    }
  }

  /** The number that decimal digits spell, with or without a sign. */
  function Natural(b: Bytes): int {
    if b == [] then 0 else Natural(b[..|b| - 1]) * 10 + (b[|b| - 1] - '0' as int)
  }

  function Integer(b: Bytes): int {
    if b != [] && b[0] == '-' as int then -Natural(b[1..]) else Natural(b)
  }

  lemma {:induction false} LitIsValue(s: string)
    requires AllDigits(s)
    ensures Natural(Lit(s)) == FileNames.Value(s)
  {
    if s != "" {
      assert Lit(s)[..|s| - 1] == Lit(s[..|s| - 1]);
      LitIsValue(s[..|s| - 1]);
    }
  }

  /** Integers are read back with their sign. */
  lemma NumberReadsBack(n: int)
    ensures Integer(Number(n)) == n
  {
    if n < 0 {
      LitIsValue(Padded(-n, 1));
      assert Number(n)[0] == '-' as int && Number(n)[1..] == Lit(Padded(-n, 1));
    } else {
      LitIsValue(Padded(n, 1));
      assert Number(n)[0] != '-' as int by { assert Number(n)[0] == Padded(n, 1)[0] as int; }
    }
  }

  // ----- Sizes -----

  /** The part of the size that the end of a query changes. */
  function ClosingSize(r: Result): nat {
    |StatusJson(r.status)| + |Number(r.rowCount)| + |Boolean(r.truncated)| + |ReasonsJson(r.reasons)|
    + |ErrorJson(r.error)| + |ElapsedJson(r.elapsed)|
  }

  /** The rest. */
  function BodySize(r: Result): nat {
    |Quote(r.queryRef)| + (if r.queryId.None? then 4 else |Quote(r.queryId.value)|) + |Quote(r.department)|
    + |Quote(r.account)| + |ColumnsJson(r.columns)| + |RowsJson(r.rows)|
  }

  lemma EncodedSize(r: Result)
    ensures |Encoded(r)| == 128 + BodySize(r) + ClosingSize(r)
  {
    hide Quote, StatusJson, ColumnsJson, RowsJson, Number, Boolean, ReasonsJson, ErrorJson, ElapsedJson;
  }

  /** The number of digits of a number. */
  lemma {:induction false} DigitsBound(n: nat, k: nat)
    requires k >= 1 && n < Power10(k)
    ensures 1 <= |Number(n)| <= k
    decreases k
  {
    DigitCount(n, k);
  }

  lemma {:induction false} DigitCount(n: nat, k: nat)
    requires k >= 1 && n < Power10(k)
    ensures |Padded(n, 1)| <= k
    ensures k == 1 || |Padded(n / 10, 0)| <= k - 1
    decreases k
  {
    if k == 1 {
      assert Power10(1) == 10 && Power10(0) == 1;
    } else {
      NoPadding(n / 10, k - 1);
    }
  }

  lemma {:induction false} NoPadding(n: nat, k: nat)
    requires n < Power10(k)
    ensures |Padded(n, 0)| <= k
    decreases k
  {
    if n > 0 { NoPadding(n / 10, k - 1); }
  }

  lemma ReasonsSize(reasons: seq<Reason>)
    requires |reasons| <= 2
    ensures |ReasonsJson(reasons)| <= 27 && |ReasonsJson(reasons)| >= 2
    ensures |ReasonsJson([])| == 2
  {
    ShortList(seq(|reasons|, i requires 0 <= i < |reasons| => ReasonJson(reasons[i])));
    ShortList([]);
  }

  lemma ShortList(items: seq<Bytes>)
    requires |items| <= 2 && forall i :: 0 <= i < |items| ==> |items[i]| <= 12
    ensures 2 <= |List(items)| <= 27 && (items == [] ==> |List(items)| == 2)
  {
    if |items| == 2 {
      assert items[1..] == [items[1]] && Join([items[1]]) == items[1];
    }
  }

  /** A finished result is at most 84 bytes longer than one that is still running, for the same rows. */
  lemma SuccessSize(running: Result, done: Result)
    requires running.status == Running && running.rowCount == 0 && !running.truncated
    requires running.error.None? && running.elapsed.None?
    requires done == running.(status := Succeeded, rowCount := done.rowCount, truncated := done.truncated,
                              reasons := done.reasons, elapsed := done.elapsed)
    requires |running.reasons| <= 2 && |done.reasons| <= 2 && done.rowCount < Power10(5)
    requires done.elapsed.Some? && done.elapsed.value < Power10(20)
    ensures |Encoded(done)| <= |Encoded(running)| + 84
  {
    EncodedSize(running);
    EncodedSize(done);
    DigitsBound(0, 1);
    DigitsBound(done.rowCount, 5);
    DigitsBound(done.elapsed.value, 20);
    ReasonsSize(running.reasons);
    ReasonsSize(done.reasons);
    hide Encoded, Number, ReasonsJson, Power10, Quote, ColumnsJson, RowsJson, StatusJson, Boolean;
  }

  /** Reasons only add to the size. */
  lemma ReasonsOnlyAdd(r: Result)
    requires |r.reasons| <= 2
    ensures |Encoded(r.(reasons := []))| <= |Encoded(r)|
  {
    EncodedSize(r);
    EncodedSize(r.(reasons := []));
    ReasonsSize(r.reasons);
    hide Encoded, Number, ReasonsJson, Quote, ColumnsJson, RowsJson, StatusJson, Boolean, ErrorJson, ElapsedJson;
  }

  /** A result without rows and columns is small, whatever its status and its error. */
  lemma EmptySize(r: Result)
    requires r.rows == [] && r.columns == [] && r.rowCount == 0 && |r.reasons| <= 2
    requires |r.queryRef| <= 36 && |r.department| <= 100 && |r.account| <= 200
    requires r.queryId.Some? ==> |r.queryId.value| <= 33
    requires r.error.Some? ==> |r.error.value.code| <= 32 && |r.error.value.message| <= 200
    requires r.elapsed.Some? ==> r.elapsed.value < Power10(20)
    ensures |Encoded(r)| <= 4096
  {
    EncodedSize(r);
    EmptyBodySize(r);
    EmptyClosingSize(r);
    hide Encoded, BodySize, ClosingSize, Power10;
  }

  lemma EmptyBodySize(r: Result)
    requires r.rows == [] && r.columns == []
    requires |r.queryRef| <= 36 && |r.department| <= 100 && |r.account| <= 200
    requires r.queryId.Some? ==> |r.queryId.value| <= 33
    ensures BodySize(r) <= 2226
  {
    assert |ColumnsJson([])| == 2 && |RowsJson([])| == 2;
    hide Quote, ColumnsJson, RowsJson;
  }

  lemma EmptyClosingSize(r: Result)
    requires r.rowCount == 0 && |r.reasons| <= 2
    requires r.error.Some? ==> |r.error.value.code| <= 32 && |r.error.value.message| <= 200
    requires r.elapsed.Some? ==> r.elapsed.value < Power10(20)
    ensures ClosingSize(r) <= 1510
  {
    DigitsBound(0, 1);
    if r.elapsed.Some? { ElapsedSize(r.elapsed.value); }
    ErrorSize(r.error);
    ReasonsSize(r.reasons);
    hide Number, ReasonsJson, Power10, StatusJson, Boolean, ErrorJson;
  }

  lemma ElapsedSize(n: nat)
    requires n < Power10(20)
    ensures |ElapsedJson(Some(n))| <= 34
  {
    DigitsBound(n, 20);
    hide Number, Power10;
  }

  lemma ErrorSize(error: Option<Problem>)
    requires error.Some? ==> |error.value.code| <= 32 && |error.value.message| <= 200
    ensures |ErrorJson(error)| <= 1430
  {
    hide Quote;
  }
}
