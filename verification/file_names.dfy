/** The names of the JSONL files, content-000001.jsonl and so on, and the order sorted() puts them in. */
module FileNames {
  function Digit(d: nat): (c: char)
    requires d < 10
    ensures '0' <= c <= '9' && c as int == '0' as int + d
  {
    ('0' as int + d) as char
  }

  predicate AllDigits(s: string) {
    forall i :: 0 <= i < |s| ==> '0' <= s[i] <= '9'
  }

  /** The number that a string of digits spells. */
  function Value(s: string): nat
    requires AllDigits(s)
  {
    if s == "" then 0
    else Value(s[..|s| - 1]) * 10 + (s[|s| - 1] as int - '0' as int)
  }

  /** n in at least `width` digits: the format code 0{width}d. */
  function Padded(n: nat, width: nat): (s: string)
    ensures AllDigits(s) && |s| >= width && Value(s) == n
    ensures n < Power10(width) ==> |s| == width
    decreases n, width
  {
    if n == 0 && width == 0 then ""
    else Padded(n / 10, if width == 0 then 0 else width - 1) + [Digit(n % 10)]
  }

  function Power10(k: nat): nat {
    if k == 0 then 1 else 10 * Power10(k - 1)
  }

  const PREFIX := "content-"
  const SUFFIX := ".jsonl"

  function FileName(n: nat): string { PREFIX + Padded(n, 6) + SUFFIX }

  lemma FileNameInjective(n: nat, m: nat)
    requires FileName(n) == FileName(m)
    ensures n == m
  {
    var a, b := Padded(n, 6), Padded(m, 6);
    assert |a| == |b|;
    assert FileName(n)[|PREFIX|..|PREFIX| + |a|] == a;
    assert FileName(m)[|PREFIX|..|PREFIX| + |b|] == b;
  }

  // ----- String order -----

  /** str.__lt__ */
  predicate Before(a: string, b: string) {
    if b == "" then false
    else if a == "" then true
    else a[0] < b[0] || (a[0] == b[0] && Before(a[1..], b[1..]))
  }

  lemma {:induction false} OrderIsTotal(a: string, b: string)
    ensures a == b || Before(a, b) || Before(b, a)
    ensures !(Before(a, b) && Before(b, a))
    ensures !Before(a, a)
  {
    if a != "" && b != "" {
      OrderIsTotal(a[1..], b[1..]);
      assert a == [a[0]] + a[1..] && b == [b[0]] + b[1..];
    }
    if a != "" { OrderIsTotal(a[1..], a[1..]); }
  }

  lemma {:induction false} OrderIsTransitive(a: string, b: string, c: string)
    requires Before(a, b) && Before(b, c)
    ensures Before(a, c)
  {
    if a != "" && a[0] == b[0] == c[0] { OrderIsTransitive(a[1..], b[1..], c[1..]); }
  }

  lemma {:induction false} CommonPrefix(p: string, a: string, b: string)
    ensures Before(p + a, p + b) <==> Before(a, b)
  {
    if p == "" {
      assert p + a == a && p + b == b;
    } else {
      assert (p + a)[1..] == p[1..] + a && (p + b)[1..] == p[1..] + b;
      CommonPrefix(p[1..], a, b);
    }
  }

  /** What follows the first difference does not matter. */
  lemma {:induction false} OrderIgnoresSuffix(a: string, b: string, s: string, t: string)
    requires |a| == |b| && Before(a, b)
    ensures Before(a + s, b + t)
  {
    assert (a + s)[1..] == a[1..] + s && (b + t)[1..] == b[1..] + t;
    if a[0] == b[0] { OrderIgnoresSuffix(a[1..], b[1..], s, t); }
  }

  /** Between digit strings of one length, the order of strings is the order of numbers. */
  lemma {:induction false} OrderIsNumeric(a: string, b: string)
    requires |a| == |b| && AllDigits(a) && AllDigits(b) && Value(a) < Value(b)
    ensures Before(a, b)
  {
    var x, y := a[..|a| - 1], b[..|b| - 1];
    assert a == x + [a[|a| - 1]] && b == y + [b[|b| - 1]];
    if x == y {
      CommonPrefix(x, [a[|a| - 1]], [b[|b| - 1]]);
    } else if Value(x) < Value(y) {
      OrderIsNumeric(x, y);
      OrderIgnoresSuffix(x, y, [a[|a| - 1]], [b[|b| - 1]]);
    } else {
      SameValue(x, y);
    }
  }

  lemma {:induction false} SameValue(x: string, y: string)
    requires |x| == |y| && AllDigits(x) && AllDigits(y) && Value(x) == Value(y)
    ensures x == y
  {
    if x != "" {
      SameValue(x[..|x| - 1], y[..|y| - 1]);
      assert x == x[..|x| - 1] + [x[|x| - 1]] && y == y[..|y| - 1] + [y[|y| - 1]];
    }
  }

  /** Up to 999999 files, sorted() lists them in the order in which they were started. */
  lemma NamesSortByNumber(n: nat, m: nat)
    requires n < m <= 999_999
    ensures Before(FileName(n), FileName(m))
  {
    var a, b := Padded(n, 6), Padded(m, 6);
    assert Power10(6) == 1_000_000;
    OrderIsNumeric(a, b);
    OrderIgnoresSuffix(a, b, SUFFIX, SUFFIX);
    CommonPrefix(PREFIX, a + SUFFIX, b + SUFFIX);
    assert FileName(n) == PREFIX + (a + SUFFIX) && FileName(m) == PREFIX + (b + SUFFIX);
  }

  // ----- More than 999999 files -----

  /** Every digit but the last is a nine. */
  predicate NinesButLast(s: string) {
    forall i :: 0 <= i < |s| - 1 ==> s[i] == '9'
  }

  predicate AllNines(s: string) {
    forall i :: 0 <= i < |s| ==> s[i] == '9'
  }

  function Nines(k: nat): (s: string)
    ensures |s| == k && AllNines(s)
  {
    seq(k, _ => '9')
  }

  /** How large a number its digits spell. */
  lemma {:induction false} ValueBounds(s: string)
    requires AllDigits(s)
    ensures Value(s) < Power10(|s|)
    ensures s != "" && s[0] != '0' ==> Value(s) >= Power10(|s| - 1)
  {
    if s != "" {
      var init := s[..|s| - 1];
      ValueBounds(init);
      if init != "" && s[0] != '0' { assert init[0] == s[0]; }
    }
  }

  lemma {:induction false} Power10Grows(j: nat, k: nat)
    requires j <= k
    ensures 1 <= Power10(j) <= Power10(k)
    decreases k
  {
    if k > 0 { Power10Grows(if j == k then j - 1 else j, k - 1); }
  }

  /** A number that is longer than the format has no leading zero. */
  lemma {:induction false} LongHasNoZero(n: nat, width: nat)
    ensures |Padded(n, width)| > width ==> Padded(n, width)[0] != '0'
    decreases n, width
  {
    if n != 0 || width != 0 {
      var w := if width == 0 then 0 else width - 1;
      LongHasNoZero(n / 10, w);
      var init := Padded(n / 10, w);
      if |init| == 0 && width == 0 { assert Value(init) == 0; }
    }
  }

  lemma LastDigit(s: string)
    requires AllDigits(s) && s != ""
    ensures Value(s) / 10 == Value(s[..|s| - 1]) && Digit(Value(s) % 10) == s[|s| - 1]
  {
  }

  /** The format gives back the digits of a number, if they fill it and have no further leading zero. */
  lemma {:induction false} PaddedIs(s: string, width: nat)
    requires AllDigits(s) && |s| >= width && (|s| == width || s[0] != '0')
    ensures Padded(Value(s), width) == s
    decreases |s|
  {
    if s == "" {
      assert Padded(0, 0) == "";
    } else {
      var init, w := s[..|s| - 1], if width == 0 then 0 else width - 1;
      assert s == init + [s[|s| - 1]] && AllDigits(init) && (|init| > w ==> init[0] == s[0]);
      hide Value, Padded, AllDigits;
      PaddedIs(init, w);
      LastDigit(s);
      if width == 0 { NotZero(s); }
      PaddedStep(Value(s), width);
    }
  }

  lemma NotZero(s: string)
    requires AllDigits(s) && s != "" && s[0] != '0'
    ensures Value(s) > 0
  {
    ValueBounds(s);
    Power10Grows(0, |s| - 1);
  }

  lemma PaddedStep(n: nat, width: nat)
    requires n > 0 || width > 0
    ensures Padded(n, width) == Padded(n / 10, if width == 0 then 0 else width - 1) + [Digit(n % 10)]
  {
  }

  lemma LongerIsLater(k: nat, n: nat)
    requires k <= n
    ensures |Padded(k, 6)| <= |Padded(n, 6)|
  {
    var a, b := Padded(k, 6), Padded(n, 6);
    if |a| > |b| {
      LongHasNoZero(k, 6);
      ValueBounds(a);
      ValueBounds(b);
      Power10Grows(|b|, |a| - 1);
    }
  }

  /** Nothing of its length sorts after nines. */
  lemma {:induction false} NinesSortLast(a: string, b: string)
    requires AllDigits(a) && AllNines(b) && |a| == |b|
    ensures a == b || Before(a, b)
  {
    if a != "" {
      NinesSortLast(a[1..], b[1..]);
      assert a == [a[0]] + a[1..] && b == [b[0]] + b[1..];
    }
  }

  /** Where the digits before its last are nines, a number sorts after every smaller one. */
  lemma NinesSortAfterAll(k: nat, n: nat)
    requires k < n && (n <= 999_999 || NinesButLast(Padded(n, 6)))
    ensures Before(FileName(k), FileName(n))
  {
    hide Padded, Value, Before;
    if n <= 999_999 {
      NamesSortByNumber(k, n);
    } else {
      var a, b := Padded(k, 6), Padded(n, 6);
      LongerIsLater(k, n);
      NinesSortAfter(a, b);
      CommonPrefix(PREFIX, a + SUFFIX, b + SUFFIX);
      assert FileName(k) == PREFIX + (a + SUFFIX) && FileName(n) == PREFIX + (b + SUFFIX);
    }
  }

  lemma NinesSortAfter(a: string, b: string)
    requires AllDigits(a) && AllDigits(b) && |a| <= |b| && Value(a) < Value(b) && NinesButLast(b)
    ensures Before(a + SUFFIX, b + SUFFIX)
  {
    if |a| == |b| {
      OrderIsNumeric(a, b);
      OrderIgnoresSuffix(a, b, SUFFIX, SUFFIX);
    } else {
      var p, q := b[..|a|], b[|a|..];
      assert b + SUFFIX == p + (q + SUFFIX);
      NinesSortLast(a, p);
      if a == p {
        assert Before(SUFFIX, q + SUFFIX);
        CommonPrefix(a, SUFFIX, q + SUFFIX);
      } else {
        OrderIgnoresSuffix(a, p, SUFFIX, q + SUFFIX);
      }
    }
  }

  /** The greatest number with one digit less. */
  function Rival(n: nat): nat { Value(Nines(|Padded(n, 6)| - 1)) }

  lemma RivalIsSmaller(n: nat)
    requires n > 999_999
    ensures 1 <= Rival(n) < n && Padded(Rival(n), 6) == Nines(|Padded(n, 6)| - 1)
  {
    var b := Padded(n, 6);
    var nines := Nines(|b| - 1);
    LongIsLong(n);
    LongHasNoZero(n, 6);
    hide Padded, Power10, Value;
    ValueBounds(b);
    ValueBounds(nines);
    NotZero(nines);
    PaddedIs(nines, 6);
  }

  /** Otherwise it sorts before the greatest number with one digit less. */
  lemma OthersSortBeforeRival(n: nat)
    requires n > 999_999 && !NinesButLast(Padded(n, 6))
    ensures 1 <= Rival(n) < n && Before(FileName(n), FileName(Rival(n)))
  {
    RivalIsSmaller(n);
    hide Padded, Value, Rival, Before;
    var b := Padded(n, 6);
    var p, q, nines := b[..|b| - 1], b[|b| - 1..] + SUFFIX, Nines(|b| - 1);
    NinesSortLast(p, nines);
    var i :| 0 <= i < |b| - 1 && b[i] != '9';
    assert p[i] != nines[i];
    OrderIgnoresSuffix(p, nines, q, SUFFIX);
    assert b + SUFFIX == p + q;
    CommonPrefix(PREFIX, b + SUFFIX, nines + SUFFIX);
    assert FileName(n) == PREFIX + (b + SUFFIX) && FileName(Rival(n)) == PREFIX + (nines + SUFFIX);
  }

  lemma LongIsLong(n: nat)
    requires n > 999_999
    ensures |Padded(n, 6)| > 6
  {
    assert Power10(6) == 1_000_000;
    ValueBounds(Padded(n, 6));
    hide Padded, Value;
  }
}
