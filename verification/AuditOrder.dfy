/** When the text order of the audit table is the order of time.

    Timestamps are written in the RFC 3339 form with nanoseconds: fixed-width date and time, then
    the fraction without its trailing zeros, and no fraction at all on the whole second.  The
    statements compare these texts. */
module AuditOrder {
  import opened Coordinates
  import opened Sets
  import opened AuditRetention

  /** A civil time in UTC. */
  datatype Instant = Instant(year: nat, month: nat, day: nat, hour: nat, minute: nat, second: nat, nanos: nat)

  predicate ValidInstant(a: Instant) {
    && a.year < 10000 && 1 <= a.month <= 12 && 1 <= a.day <= 31
    && a.hour < 24 && a.minute < 60 && a.second < 60 && a.nanos < 1000000000
  }

  predicate SameSecond(a: Instant, b: Instant) {
    a.year == b.year && a.month == b.month && a.day == b.day && a.hour == b.hour && a.minute == b.minute && a.second == b.second
  }

  predicate EarlierSecond(a: Instant, b: Instant) {
    || a.year < b.year
    || (a.year == b.year && (
       || a.month < b.month
       || (a.month == b.month && (
          || a.day < b.day
          || (a.day == b.day && (
             || a.hour < b.hour
             || (a.hour == b.hour && (
                || a.minute < b.minute
                || (a.minute == b.minute && a.second < b.second)))))))))
  }

  predicate Earlier(a: Instant, b: Instant) {
    EarlierSecond(a, b) || (SameSecond(a, b) && a.nanos < b.nanos)
  }

  // ---- the text ----

  function DigitOf(n: nat): char
    requires n < 10
  {
    ('0' as int + n) as char
  }

  /** The decimal digits of n, with leading zeros, in exactly `width` places. */
  function Fixed(n: nat, width: nat): (s: string)
    ensures |s| == width && forall i :: 0 <= i < width ==> Digit(s[i])
  {
    if width == 0 then "" else Fixed(n / 10, width - 1) + [DigitOf(n % 10)]
  }

  function TrimZeros(s: string): string {
    if s != "" && s[|s| - 1] == '0' then TrimZeros(s[..|s| - 1]) else s
  }

  /** The digits of the fraction as they are written. */
  function Digits(a: Instant): string { TrimZeros(Fixed(a.nanos, 9)) }

  /** What follows the seconds. */
  function Tail(digits: string): string { if digits == "" then "Z" else "." + (digits + "Z") }

  function Stamp(a: Instant): string {
    Fixed(a.year, 4) + ("-" + (Fixed(a.month, 2) + ("-" + (Fixed(a.day, 2) + ("T" + (Fixed(a.hour, 2)
      + (":" + (Fixed(a.minute, 2) + (":" + (Fixed(a.second, 2) + Tail(Digits(a))))))))))))
  }

  // ---- fixed-width text compares like numbers ----

  /** Two texts that start with parts of one length compare by those parts first. */
  lemma {:induction false} ComparePrefixFirst(p: string, x: string, q: string, y: string)
    requires |p| == |q|
    ensures TextLess(p + x, q + y) <==> TextLess(p, q) || (p == q && TextLess(x, y))
  {
    if p == "" {
      assert p + x == x && q + y == y;
    } else {
      assert (p + x)[1..] == p[1..] + x && (q + y)[1..] == q[1..] + y;
      ComparePrefixFirst(p[1..], x, q[1..], y);
      assert p == [p[0]] + p[1..] && q == [q[0]] + q[1..];
    }
  }

  function Power(width: nat): nat { if width == 0 then 1 else 10 * Power(width - 1) }

  lemma {:induction false} FixedCompares(m: nat, n: nat, width: nat)
    requires m < Power(width) && n < Power(width)
    ensures TextLess(Fixed(m, width), Fixed(n, width)) <==> m < n
    ensures Fixed(m, width) == Fixed(n, width) <==> m == n
  {
    if width > 0 {
      var p, q := Fixed(m / 10, width - 1), Fixed(n / 10, width - 1);
      FixedCompares(m / 10, n / 10, width - 1);
      ComparePrefixFirst(p, [DigitOf(m % 10)], q, [DigitOf(n % 10)]);
      LastDigit(p, m % 10, q, n % 10);
    }
  }

  lemma LastDigit(p: string, i: nat, q: string, k: nat)
    requires |p| == |q| && i < 10 && k < 10
    ensures p + [DigitOf(i)] == q + [DigitOf(k)] <==> p == q && i == k
    ensures TextLess([DigitOf(i)], [DigitOf(k)]) <==> i < k
  {
    if p + [DigitOf(i)] == q + [DigitOf(k)] {
      assert (p + [DigitOf(i)])[..|p|] == p && (q + [DigitOf(k)])[..|q|] == q;
      assert (p + [DigitOf(i)])[|p|] == DigitOf(i) && (q + [DigitOf(k)])[|q|] == DigitOf(k);
    }
    assert !TextLess("", "");
  }

  lemma Powers()
    ensures Power(2) == 100 && Power(4) == 10000 && Power(9) == 1000000000
  {
    assert Power(1) == 10 && Power(3) == 1000 && Power(5) == 100000 && Power(6) == 1000000;
    assert Power(7) == 10000000 && Power(8) == 100000000;
  }

  /** One field of a stamp: smaller, or equal and then the rest decides. */
  lemma CompareField(m: nat, n: nat, width: nat, x: string, y: string)
    requires m < Power(width) && n < Power(width)
    ensures TextLess(Fixed(m, width) + x, Fixed(n, width) + y) <==> m < n || (m == n && TextLess(x, y))
  {
    FixedCompares(m, n, width);
    ComparePrefixFirst(Fixed(m, width), x, Fixed(n, width), y);
  }

  /** Across seconds the texts are in order of time; within one second the fractions decide. */
  lemma StampsCompare(a: Instant, b: Instant)
    requires ValidInstant(a) && ValidInstant(b)
    ensures TextLess(Stamp(a), Stamp(b)) <==> EarlierSecond(a, b) || (SameSecond(a, b) && TextLess(Tail(Digits(a)), Tail(Digits(b))))
  {
    hide Fixed, TextLess, Tail, Digits, Power;
    Powers();
    var xa, xb := Fixed(a.second, 2) + Tail(Digits(a)), Fixed(b.second, 2) + Tail(Digits(b));
    CompareField(a.second, b.second, 2, Tail(Digits(a)), Tail(Digits(b)));
    TextLessAfterPrefix(":", xa, xb);
    var ma, mb := Fixed(a.minute, 2) + (":" + xa), Fixed(b.minute, 2) + (":" + xb);
    CompareField(a.minute, b.minute, 2, ":" + xa, ":" + xb);
    TextLessAfterPrefix(":", ma, mb);
    var ha, hb := Fixed(a.hour, 2) + (":" + ma), Fixed(b.hour, 2) + (":" + mb);
    CompareField(a.hour, b.hour, 2, ":" + ma, ":" + mb);
    TextLessAfterPrefix("T", ha, hb);
    var da, db := Fixed(a.day, 2) + ("T" + ha), Fixed(b.day, 2) + ("T" + hb);
    CompareField(a.day, b.day, 2, "T" + ha, "T" + hb);
    TextLessAfterPrefix("-", da, db);
    var oa, ob := Fixed(a.month, 2) + ("-" + da), Fixed(b.month, 2) + ("-" + db);
    CompareField(a.month, b.month, 2, "-" + da, "-" + db);
    TextLessAfterPrefix("-", oa, ob);
    CompareField(a.year, b.year, 4, "-" + oa, "-" + ob);
  }

  // ---- fractions ----

  predicate AllDigits(s: string) { forall i :: 0 <= i < |s| ==> Digit(s[i]) }

  /** Trimming drops zeros from the end and nothing else. */
  lemma {:induction false} TrimmedZeros(s: string)
    ensures |TrimZeros(s)| <= |s| && TrimZeros(s) == s[..|TrimZeros(s)|]
    ensures forall i :: |TrimZeros(s)| <= i < |s| ==> s[i] == '0'
    ensures TrimZeros(s) != "" ==> TrimZeros(s)[|TrimZeros(s)| - 1] != '0'
  {
    if s != "" && s[|s| - 1] == '0' {
      TrimmedZeros(s[..|s| - 1]);
      assert s[..|s| - 1][..|TrimZeros(s)|] == s[..|TrimZeros(s)|];
    }
  }

  /** Where two texts of one length first differ. */
  lemma {:induction false} FirstDifference(s: string, t: string) returns (i: nat)
    requires |s| == |t| && TextLess(s, t)
    ensures i < |s| && s[..i] == t[..i] && s[i] < t[i]
  {
    if s[0] < t[0] {
      i := 0;
    } else {
      var k := FirstDifference(s[1..], t[1..]);
      i := k + 1;
      assert s[..i] == [s[0]] + s[1..][..k] && t[..i] == [t[0]] + t[1..][..k];
    }
  }

  lemma LessAt(u: string, v: string, i: nat)
    requires i < |u| && i < |v| && u[..i] == v[..i] && u[i] < v[i]
    ensures TextLess(u, v)
  {
    assert u == u[..i] + u[i..] && v == u[..i] + v[i..];
    TextLessAfterPrefix(u[..i], u[i..], v[i..]);
  }

  /** A fraction is written before a larger one unless its digits are a proper prefix of the other's. */
  lemma TailsCompare(s: string, t: string)
    requires |s| == |t| && AllDigits(s) && AllDigits(t) && TextLess(s, t)
    ensures var x, y := TrimZeros(s), TrimZeros(t);
      && (TextLess(Tail(x), Tail(y)) <==> !(x < y))
      && (x < y ==> TextLess(Tail(y), Tail(x)))
  {
    hide TextLess, TrimZeros;
    var x, y := TrimZeros(s), TrimZeros(t);
    TrimmedZeros(s);
    TrimmedZeros(t);
    var i := FirstDifference(s, t);
    assert t[i] != '0';
    assert i < |y| && y[i] == t[i];
    if i < |x| {
      assert x[i] == s[i];
      assert !(x < y);
      assert (x + "Z")[..i] == x[..i] && (y + "Z")[..i] == y[..i];
      assert x[..i] == s[..i] && y[..i] == t[..i];
      LessAt(x + "Z", y + "Z", i);
      TextLessAfterPrefix(".", x + "Z", y + "Z");
    } else {
      assert x == s[..|x|] && s[..i][..|x|] == x && t[..i][..|x|] == x;
      assert y[..|x|] == t[..|x|];
      assert x < y;
      ShorterIsAfter(x, y);
    }
  }

  /** The closing Z is greater than a digit and than the point. */
  lemma ShorterIsAfter(x: string, y: string)
    requires x < y && AllDigits(y)
    ensures TextLess(Tail(y), Tail(x)) && !TextLess(Tail(x), Tail(y))
  {
    hide TextLess;
    if x == "" {
      LessAt(Tail(y), Tail(x), 0);
    } else {
      var u, v := y + "Z", x + "Z";
      assert u[..|x|] == x && v[..|x|] == x && u[|x|] == y[|x|];
      LessAt(u, v, |x|);
      TextLessAfterPrefix(".", u, v);
    }
    TextLessIsTotal(Tail(x), Tail(y));
  }

  // ---- the exact condition ----

  /** The pairs the text order gets wrong: one second, and the digits written for the earlier
      fraction are a proper prefix of those of the later one. */
  predicate Masked(a: Instant, b: Instant) { SameSecond(a, b) && Digits(a) < Digits(b) }

  /** Of two stamps the earlier is the smaller text exactly when the pair is not masked. */
  lemma TextOrderIsTimeOrder(a: Instant, b: Instant)
    requires ValidInstant(a) && ValidInstant(b) && Earlier(a, b)
    ensures TextLess(Stamp(a), Stamp(b)) <==> !Masked(a, b)
    ensures TextLess(Stamp(b), Stamp(a)) <==> Masked(a, b)
  {
    hide Stamp, Fixed, TextLess, TrimZeros, Tail;
    StampsCompare(a, b);
    StampsCompare(b, a);
    if SameSecond(a, b) {
      Powers();
      FixedCompares(a.nanos, b.nanos, 9);
      TailsCompare(Fixed(a.nanos, 9), Fixed(b.nanos, 9));
      TextLessIsTotal(Tail(Digits(a)), Tail(Digits(b)));
    }
  }

  /** Only one instant is written as a given stamp. */
  lemma StampIsInjective(a: Instant, b: Instant)
    requires ValidInstant(a) && ValidInstant(b) && Stamp(a) == Stamp(b)
    ensures a == b
  {
    hide Stamp, TextLess, Digits;
    TextLessIsTotal(Stamp(a), Stamp(b));
    if Earlier(a, b) { TextOrderIsTimeOrder(a, b); }
    if Earlier(b, a) { TextOrderIsTimeOrder(b, a); }
  }

  /** A stamp on the whole second has no digits, so it masks every later stamp of its second. */
  lemma WholeSecondMasks(a: Instant, b: Instant)
    requires ValidInstant(a) && ValidInstant(b) && SameSecond(a, b) && a.nanos == 0 < b.nanos
    ensures Earlier(a, b) && Masked(a, b)
  {
    hide Fixed, TextLess, TrimZeros, Power;
    Powers();
    FixedCompares(0, b.nanos, 9);
    ZeroDigits(9);
    var i := FirstDifference(Fixed(0, 9), Fixed(b.nanos, 9));
    TrimmedZeros(Fixed(b.nanos, 9));
    assert Digits(a) == "" && Digits(b) != "";
  }

  lemma {:induction false} ZeroDigits(width: nat)
    ensures TrimZeros(Fixed(0, width)) == ""
  {
    if width > 0 {
      ZeroDigits(width - 1);
      assert Fixed(0, width)[..width - 1] == Fixed(0, width - 1);
    }
  }

  /** And ".5" masks ".51". */
  lemma HalfSecondMasks(second: Instant)
    requires ValidInstant(second)
    ensures var a, b := second.(nanos := 500000000), second.(nanos := 510000000);
            Digits(a) == "5" && Digits(b) == "51" && Earlier(a, b) && Masked(a, b)
  {
    hide TrimZeros, Fixed;
    Shifted(5, 1, 8);
    Shifted(51, 2, 7);
    assert Fixed(5, 1) == "5" && Fixed(51, 2) == "51" by { Spelled(); }
    assert Power(7) == 10000000 && Power(8) == 100000000 by { Powers(); }
    assert TrimZeros("5") == "5" && TrimZeros("51") == "51" by { Spelled(); }
  }

  lemma Spelled()
    ensures Fixed(5, 1) == "5" && Fixed(51, 2) == "51" && TrimZeros("5") == "5" && TrimZeros("51") == "51"
  {
    assert Fixed(5, 0) == "" && Fixed(0, 0) == "";
  }

  /** Zeros at the end of a fraction are not written. */
  lemma {:induction false} Shifted(n: nat, width: nat, zeros: nat)
    ensures TrimZeros(Fixed(n * Power(zeros), width + zeros)) == TrimZeros(Fixed(n, width))
  {
    hide TrimZeros, Fixed;
    if zeros > 0 {
      Shifted(n, width, zeros - 1);
      TenTimes(n, Power(zeros - 1));
      LastZero(n * Power(zeros - 1), width + zeros - 1);
    } else {
      assert Power(0) == 1;
    }
  }

  lemma TenTimes(n: nat, p: nat)
    ensures n * (10 * p) == 10 * (n * p)
  {
  }

  lemma LastZero(m: nat, width: nat)
    ensures TrimZeros(Fixed(10 * m, width + 1)) == TrimZeros(Fixed(m, width))
  {
    var s := Fixed(10 * m, width + 1);
    assert s == Fixed(m, width) + [DigitOf(0)];
    assert s[..|s| - 1] == Fixed(m, width);
  }

  // ---- the table ----

  /** Every row carries the stamp of the instant it was written at. */
  predicate Stamped(rows: set<Row>, at: map<Row, Instant>) {
    forall r :: r in rows ==> r in at && ValidInstant(at[r]) && r.created == Stamp(at[r])
  }

  /** Row x was written after row y; the id decides between rows of one instant. */
  predicate After(at: map<Row, Instant>, x: Row, y: Row) {
    x in at && y in at && (Earlier(at[y], at[x]) || (at[x] == at[y] && TextLess(y.id, x.id)))
  }

  function RowsAfter(rows: set<Row>, at: map<Row, Instant>, r: Row): set<Row> { set x | x in rows && After(at, x, r) }

  /** The n rows written last. */
  function Latest(rows: set<Row>, at: map<Row, Instant>, n: nat): set<Row> {
    set r | r in rows && |RowsAfter(rows, at, r)| < n
  }

  predicate HasMaskedPair(rows: set<Row>, at: map<Row, Instant>)
    requires Stamped(rows, at)
  {
    exists x, y :: x in rows && y in rows && Earlier(at[x], at[y]) && Masked(at[x], at[y])
  }

  /** For two rows, the listing is in order of time unless the pair is masked. */
  lemma ListedByTime(rows: set<Row>, at: map<Row, Instant>, x: Row, y: Row)
    requires Stamped(rows, at) && x in rows && y in rows
    ensures Earlier(at[x], at[y]) ==> (Above(y, x) <==> !Masked(at[x], at[y])) && (Above(x, y) <==> Masked(at[x], at[y]))
    ensures at[x] == at[y] ==> (Above(y, x) <==> After(at, y, x))
  {
    hide Stamp, Digits, TextLess;
    AboveIsTotal(x, y);
    TextLessIsTotal(x.created, y.created);
    if Earlier(at[x], at[y]) { TextOrderIsTimeOrder(at[x], at[y]); }
  }

  lemma AfterIsUpward(rows: set<Row>, at: map<Row, Instant>, x: Row, r: Row)
    requires x in rows && After(at, x, r)
    ensures |RowsAfter(rows, at, x)| < |RowsAfter(rows, at, r)|
  {
    hide TextLess;
    forall y | y in RowsAfter(rows, at, x) ensures y in RowsAfter(rows, at, r) {
      if at[y] == at[x] == at[r] { TextLessIsTransitive(r.id, x.id, y.id); }
    }
    TextLessIsTotal(x.id, x.id);
    SubsetSize(RowsAfter(rows, at, x) + {x}, RowsAfter(rows, at, r));
  }

  /** Pruning keeps the rows written last, for every limit, exactly when no pair is masked. */
  lemma PruningIsChronological(rows: set<Row>, at: map<Row, Instant>)
    requires Keyed(rows) && Stamped(rows, at)
    ensures (forall n: nat :: Newest(rows, n) == Latest(rows, at, n)) <==> !HasMaskedPair(rows, at)
  {
    hide Stamp, Digits, TextLess, Above, After;
    if HasMaskedPair(rows, at) {
      var x, y :| x in rows && y in rows && Earlier(at[x], at[y]) && Masked(at[x], at[y]);
      MaskedPairIsMisplaced(rows, at, x, y);
    } else {
      forall n: nat ensures Newest(rows, n) == Latest(rows, at, n) {
        forall r | r in rows ensures RowsAbove(rows, r) == RowsAfter(rows, at, r) { SameRanks(rows, at, r); }
      }
    }
  }

  lemma SameRanks(rows: set<Row>, at: map<Row, Instant>, r: Row)
    requires Stamped(rows, at) && !HasMaskedPair(rows, at) && r in rows
    ensures RowsAbove(rows, r) == RowsAfter(rows, at, r)
  {
    hide Stamp, Digits, TextLess, Masked, Above;
    forall x | x in rows ensures Above(x, r) <==> After(at, x, r) {
      ListedByTime(rows, at, x, r);
      ListedByTime(rows, at, r, x);
    }
  }

  /** With a masked pair some limit keeps the earlier row and drops the later one. */
  lemma MaskedPairIsMisplaced(rows: set<Row>, at: map<Row, Instant>, x: Row, y: Row)
    requires Keyed(rows) && Stamped(rows, at) && x in rows && y in rows && Earlier(at[x], at[y]) && Masked(at[x], at[y])
    ensures var n := |RowsAbove(rows, y)|; x in Newest(rows, n) && y !in Newest(rows, n)
    ensures forall n: nat :: x in Latest(rows, at, n) ==> y in Latest(rows, at, n)
    ensures exists n: nat :: Newest(rows, n) != Latest(rows, at, n)
  {
    hide Stamp, Digits, TextLess, Above, Earlier, Masked;
    assert Above(x, y) && After(at, y, x) by { ListedByTime(rows, at, x, y); }
    assert x in RowsAbove(rows, y);
    hide After, RowsAbove, RowsAfter;
    NewestIsUpward(rows, 0, y);
    AfterIsUpward(rows, at, y, x);
    var n := |RowsAbove(rows, y)|;
    assert x in Newest(rows, n) && y !in Newest(rows, n);
    assert y in Latest(rows, at, n) || x !in Latest(rows, at, n);
  }

  /** With room for one, the earlier row of a masked pair outlives the later one. */
  lemma MaskedPairAlone(x: Row, y: Row, at: map<Row, Instant>)
    requires Stamped({x, y}, at) && Earlier(at[x], at[y]) && Masked(at[x], at[y])
    ensures Newest({x, y}, 1) == {x} && Latest({x, y}, at, 1) == {y}
  {
    hide Stamp, Digits, TextLess, Masked;
    ListedByTime({x, y}, at, x, y);
    AboveIsTotal(x, y);
    AboveIsTotal(x, x);
    AboveIsTotal(y, y);
    TextLessIsTotal(x.id, x.id);
    TextLessIsTotal(y.id, y.id);
    assert RowsAbove({x, y}, x) == {} && RowsAbove({x, y}, y) == {x};
    assert RowsAfter({x, y}, at, y) == {} && RowsAfter({x, y}, at, x) == {y};
  }

  /** So over any run with one limit the table holds the rows written last, as long as no masked
      pair was ever inserted. */
  lemma TableIsLatestOfAll(calls: seq<Call>, n: nat, at: map<Row, Instant>)
    requires n > 0 && FreshRows(calls) && forall i :: 0 <= i < |calls| ==> calls[i].limit == n
    requires Stamped(RunLog(calls).inserted, at) && !HasMaskedPair(RunLog(calls).inserted, at)
    ensures RunLog(calls).table == Latest(RunLog(calls).inserted, at, n)
  {
    hide RunLog, Stamped, HasMaskedPair, Newest, Latest, FreshRows;
    TableIsNewestOfAll(calls, n);
    PruningIsChronological(RunLog(calls).inserted, at);
  }
}
