/**
 * Receipt numbers: `<YYYYMMDD><count>` where the count is the per-day
 * allocation counter written in decimal and zero-padded to at least four
 * digits (Python's `f"{today}{count:04d}"`).
 */
module ReceiptIds {

  predicate IsDigit(c: char) {
    '0' <= c <= '9'
  }

  predicate AllDigits(s: string) {
    forall i :: 0 <= i < |s| ==> IsDigit(s[i])
  }

  /** The day key produced by `strftime("%Y%m%d")`: eight decimal digits. */
  type DayKey = s: string | |s| == 8 && AllDigits(s) witness "00000000"

  function DigitChar(d: nat): (c: char)
    requires d < 10
    ensures IsDigit(c)
  {
    ('0' as int + d) as char
  }

  function DigitValue(c: char): (d: nat)
    requires IsDigit(c)
    ensures d < 10
  {
    c as int - '0' as int
  }

  function Pow10(k: nat): (p: nat)
    ensures p >= 1
  {
    if k == 0 then 1 else 10 * Pow10(k - 1)
  }

  /** Python's `str(n)` for a natural number. */
  function Decimal(n: nat): string
    decreases n
  {
    if n < 10 then [DigitChar(n)] else Decimal(n / 10) + [DigitChar(n % 10)]
  }

  /** `str(n)` is a non-empty digit string, without a leading zero unless n is 0. */
  lemma {:induction false} DecimalDigits(n: nat)
    ensures 1 <= |Decimal(n)| && AllDigits(Decimal(n))
    ensures n > 0 ==> Decimal(n)[0] != '0'
    decreases n
  {
    if n >= 10 {
      DecimalDigits(n / 10);
      assert Decimal(n)[0] == Decimal(n / 10)[0];
    }
  }

  function Zeros(k: nat): string {
    seq(k, _ => '0')
  }

  /** Python's format spec `{n:0<width>d}`: decimal, left-padded with zeros. */
  function ZeroPad(n: nat, width: nat): string {
    var d := Decimal(n);
    if |d| < width then Zeros(width - |d|) + d else d
  }

  /** The padded form is a digit string of the larger of the width and the decimal length. */
  lemma ZeroPadDigits(n: nat, width: nat)
    ensures AllDigits(ZeroPad(n, width))
    ensures |ZeroPad(n, width)| == if |Decimal(n)| < width then width else |Decimal(n)|
  {
    DecimalDigits(n);
  }

  /** The receipt number for the `count`-th allocation on `day`. */
  function ReceiptId(day: DayKey, count: nat): string {
    day + ZeroPad(count, 4)
  }

  /** The number a digit string denotes (reading it back). */
  function Value(s: string): nat
    requires AllDigits(s)
  {
    if s == [] then 0 else 10 * Value(s[..|s| - 1]) + DigitValue(s[|s| - 1])
  }

  lemma {:induction false} ValueOfDecimal(n: nat)
    ensures AllDigits(Decimal(n)) && Value(Decimal(n)) == n
    decreases n
  {
    var s := Decimal(n);
    DecimalDigits(n);
    if n >= 10 {
      ValueOfDecimal(n / 10);
      assert s[..|s| - 1] == Decimal(n / 10);
    }
  }

  lemma {:induction false} ValueOfLeadingZero(s: string)
    requires AllDigits(s)
    ensures Value(['0'] + s) == Value(s)
    decreases |s|
  {
    if s != [] {
      var t := ['0'] + s;
      assert t[..|t| - 1] == ['0'] + s[..|s| - 1];
      ValueOfLeadingZero(s[..|s| - 1]);
    }
  }

  lemma {:induction false} ValueOfZerosPrefix(k: nat, s: string)
    requires AllDigits(s)
    ensures Value(Zeros(k) + s) == Value(s)
  {
    if k > 0 {
      assert Zeros(k) + s == ['0'] + (Zeros(k - 1) + s);
      ValueOfZerosPrefix(k - 1, s);
      ValueOfLeadingZero(Zeros(k - 1) + s);
    } else {
      assert Zeros(k) + s == s;
    }
  }

  /** Zero padding loses nothing: the count is read back from the padded form. */
  lemma ZeroPadRoundTrip(n: nat, width: nat)
    ensures AllDigits(ZeroPad(n, width)) && Value(ZeroPad(n, width)) == n
  {
    var d := Decimal(n);
    ValueOfDecimal(n);
    ZeroPadDigits(n, width);
    if |d| < width {
      ValueOfZerosPrefix(width - |d|, d);
    }
  }

  /** A receipt number is 8 day digits followed by at least 4 count digits. */
  lemma ReceiptIdShape(day: DayKey, count: nat)
    ensures |ReceiptId(day, count)| >= 12
    ensures AllDigits(ReceiptId(day, count))
    ensures ReceiptId(day, count)[..8] == day
    ensures Value(ReceiptId(day, count)[8..]) == count
  {
    var id := ReceiptId(day, count);
    assert id[8..] == ZeroPad(count, 4);
    ZeroPadRoundTrip(count, 4);
    ZeroPadDigits(count, 4);
  }

  /** Distinct (day, count) pairs never share a receipt number, and back. */
  lemma ReceiptIdInjective(d1: DayKey, c1: nat, d2: DayKey, c2: nat)
    ensures ReceiptId(d1, c1) == ReceiptId(d2, c2) <==> d1 == d2 && c1 == c2
  {
    if ReceiptId(d1, c1) == ReceiptId(d2, c2) {
      ReceiptIdShape(d1, c1);
      ReceiptIdShape(d2, c2);
    }
  }

  lemma {:induction false} DecimalLength(n: nat, k: nat)
    requires k >= 1
    ensures |Decimal(n)| <= k <==> n < Pow10(k)
    decreases n
  {
    if n >= 10 {
      if k == 1 {
        assert |Decimal(n)| == |Decimal(n / 10)| + 1;
      } else {
        DecimalLength(n / 10, k - 1);
        assert n / 10 < Pow10(k - 1) <==> n < 10 * Pow10(k - 1);
      }
    } else {
      assert Pow10(k) >= 10 by {
        assert Pow10(k) == 10 * Pow10(k - 1);
      }
    }
  }

  /** The count part is exactly four digits wide while the count is below 10000. */
  lemma ReceiptIdFixedWidth(day: DayKey, count: nat)
    ensures |ReceiptId(day, count)| == 12 <==> count < 10000
  {
    ZeroPadDigits(count, 4);
    DecimalLength(count, 4);
    assert Pow10(4) == 10000;
  }

  /** Python's `<` on strings: code-point lexicographic order. */
  predicate LexLess(a: string, b: string) {
    if a == [] then b != []
    else b != [] && (a[0] < b[0] || (a[0] == b[0] && LexLess(a[1..], b[1..])))
  }

  lemma {:induction false} LexLessCommonPrefix(p: string, a: string, b: string)
    ensures LexLess(p + a, p + b) <==> LexLess(a, b)
  {
    if p != [] {
      assert (p + a)[1..] == p[1..] + a;
      assert (p + b)[1..] == p[1..] + b;
      LexLessCommonPrefix(p[1..], a, b);
    } else {
      assert p + a == a && p + b == b;
    }
  }

  lemma {:induction false} LexLessSnoc(a: string, x: char, b: string, y: char)
    requires |a| == |b|
    ensures LexLess(a + [x], b + [y]) <==> LexLess(a, b) || (a == b && x < y)
  {
    if a != [] {
      assert (a + [x])[1..] == a[1..] + [x];
      assert (b + [y])[1..] == b[1..] + [y];
      LexLessSnoc(a[1..], x, b[1..], y);
      assert a == b <==> a[0] == b[0] && a[1..] == b[1..] by {
        if a[0] == b[0] && a[1..] == b[1..] {
          assert a == [a[0]] + a[1..];
          assert b == [b[0]] + b[1..];
        }
      }
    }
  }

  lemma {:induction false} ValueInjective(a: string, b: string)
    requires AllDigits(a) && AllDigits(b) && |a| == |b|
    ensures Value(a) == Value(b) <==> a == b
    decreases |a|
  {
    if a != [] && Value(a) == Value(b) {
      var n := |a|;
      ValueInjective(a[..n - 1], b[..n - 1]);
      assert a == a[..n - 1] + [a[n - 1]];
      assert b == b[..n - 1] + [b[n - 1]];
    }
  }

  /** For digit strings of one width, string order is numeric order. */
  lemma {:induction false} LexLessIsNumeric(a: string, b: string)
    requires AllDigits(a) && AllDigits(b) && |a| == |b|
    ensures LexLess(a, b) <==> Value(a) < Value(b)
    decreases |a|
  {
    if a != [] {
      var n := |a|;
      var a', b' := a[..n - 1], b[..n - 1];
      assert a == a' + [a[n - 1]];
      assert b == b' + [b[n - 1]];
      LexLessSnoc(a', a[n - 1], b', b[n - 1]);
      LexLessIsNumeric(a', b');
      ValueInjective(a', b');
    }
  }

  /**
   * Receipt numbers of one day sort as strings in allocation order, as long
   * as the count stays below 10000 (the padded width).
   */
  lemma ReceiptIdOrder(day: DayKey, c1: nat, c2: nat)
    requires c1 < 10000 && c2 < 10000
    ensures LexLess(ReceiptId(day, c1), ReceiptId(day, c2)) <==> c1 < c2
  {
    ReceiptIdFixedWidth(day, c1);
    ReceiptIdFixedWidth(day, c2);
    ZeroPadDigits(c1, 4);
    ZeroPadDigits(c2, 4);
    LexLessCommonPrefix(day, ZeroPad(c1, 4), ZeroPad(c2, 4));
    LexLessIsNumeric(ZeroPad(c1, 4), ZeroPad(c2, 4));
    ZeroPadRoundTrip(c1, 4);
    ZeroPadRoundTrip(c2, 4);
  }

  /** The 10000th number of a day sorts before the 9999th: the width grows to five. */
  lemma OrderBreaksAtTenThousand(day: DayKey)
    ensures LexLess(ReceiptId(day, 10000), ReceiptId(day, 9999))
  {
    assert ZeroPad(10000, 4) == "10000";
    assert ZeroPad(9999, 4) == "9999";
    LexLessCommonPrefix(day, "10000", "9999");
  }

  // ---- the per-day counter (`daily_counter`) ----

  /** `daily_counter.get(day, 0)`. */
  function CountOn(counters: map<DayKey, nat>, day: DayKey): nat {
    if day in counters then counters[day] else 0
  }

  /** Every receipt number the counters say has been handed out. */
  ghost function Issued(counters: map<DayKey, nat>): set<string> {
    set d, c | d in counters && 1 <= c <= counters[d] :: ReceiptId(d, c)
  }

  /**
   * Allocating bumps today's count by one; the number it hands out was never
   * issued before, and it is the only new one.
   */
  lemma AllocationFresh(counters: map<DayKey, nat>, day: DayKey)
    ensures ReceiptId(day, CountOn(counters, day) + 1) !in Issued(counters)
    ensures Issued(counters[day := CountOn(counters, day) + 1])
         == Issued(counters) + {ReceiptId(day, CountOn(counters, day) + 1)}
  {
    var k := CountOn(counters, day) + 1;
    var id := ReceiptId(day, k);
    var after := counters[day := k];
    if id in Issued(counters) {
      var d, c :| d in counters && 1 <= c <= counters[d] && ReceiptId(d, c) == id;
      ReceiptIdInjective(d, c, day, k);
      assert false;
    }
    forall x | x in Issued(after) ensures x in Issued(counters) + {id} {
      var d, c :| d in after && 1 <= c <= after[d] && ReceiptId(d, c) == x;
      if d != day {
        assert d in counters && c <= counters[d];
      } else if c < k {
        assert day in counters && c <= counters[day];
      }
    }
    forall x | x in Issued(counters) + {id} ensures x in Issued(after) {
      if x != id {
        var d, c :| d in counters && 1 <= c <= counters[d] && ReceiptId(d, c) == x;
        assert d in after && 1 <= c <= after[d];
      }
    }
  }
}
