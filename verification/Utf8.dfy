/** Byte strings and the UTF-8 cuts made by the downloader, the supervisor and the gateway.

    `Lead` follows the grammar of section 4 of RFC 3629.  The repository trims a string
    that was cut at a byte limit by dropping one byte at a time until what is left is
    valid; `CutPoint` says where that loop must stop by walking forward over whole
    characters, and the methods below are proved to stop exactly there. */
module Utf8 {
  type Byte = b: int | 0 <= b < 256
  type Text = seq<Byte>

  predicate Tail(b: Byte) { 0x80 <= b <= 0xBF }

  /** The width of the character `t` starts with, or 0 when it starts with none. */
  function Lead(t: Text): (n: nat)
    ensures n <= 4 && n <= |t|
  {
    if |t| == 0 then 0
    else if t[0] < 0x80 then 1
    else if |t| >= 2 && 0xC2 <= t[0] <= 0xDF && Tail(t[1]) then 2
    else if |t| >= 3 && Tail(t[2]) && (
              || (t[0] == 0xE0 && 0xA0 <= t[1] <= 0xBF)
              || (0xE1 <= t[0] <= 0xEC && Tail(t[1]))
              || (t[0] == 0xED && 0x80 <= t[1] <= 0x9F)
              || (0xEE <= t[0] <= 0xEF && Tail(t[1]))) then 3
    else if |t| >= 4 && Tail(t[2]) && Tail(t[3]) && (
              || (t[0] == 0xF0 && 0x90 <= t[1] <= 0xBF)
              || (0xF1 <= t[0] <= 0xF3 && Tail(t[1]))
              || (t[0] == 0xF4 && 0x80 <= t[1] <= 0x8F)) then 4
    else 0
  }

  predicate Valid(t: Text) {
    |t| == 0 || (Lead(t) > 0 && Valid(t[Lead(t)..]))
  }

  /** The last character boundary at or before `limit` that is reached through valid characters only. */
  function CutPoint(t: Text, limit: nat): (k: nat)
    ensures k <= limit && k <= |t|
    decreases |t|
  {
    var n := Lead(t);
    if n == 0 || n > limit then 0 else n + CutPoint(t[n..], limit - n)
  }

  function Cut(t: Text, limit: nat): Text { t[..CutPoint(t, limit)] }

  // A character is recognised from its own bytes alone.
  lemma LeadOfPrefix(t: Text, k: nat)
    requires k <= |t| && Lead(t) > 0
    ensures Lead(t[..k]) == if k >= Lead(t) then Lead(t) else 0
  {
  }

  lemma NoLeadInPrefix(t: Text, k: nat)
    requires k <= |t| && Lead(t) == 0
    ensures Lead(t[..k]) == 0
  {
  }

  lemma {:induction false} ValidConcat(a: Text, b: Text)
    requires Valid(a) && Valid(b)
    ensures Valid(a + b)
    decreases |a|
  {
    hide Lead;
    if |a| == 0 {
      assert a + b == b;
    } else {
      var n := Lead(a);
      LeadOfConcat(a, b);
      DropConcat(a, b, n);
      ValidConcat(a[n..], b);
    }
  }

  lemma LeadOfConcat(a: Text, b: Text)
    requires Lead(a) > 0
    ensures Lead(a + b) == Lead(a)
  {
  }

  lemma DropConcat(a: Text, b: Text, n: nat)
    requires n <= |a|
    ensures (a + b)[n..] == a[n..] + b
  {
  }

  lemma {:induction false} AsciiValid(t: Text)
    requires forall i :: 0 <= i < |t| ==> t[i] < 0x80
    ensures Valid(t)
  {
    if |t| > 0 { AsciiValid(t[1..]); }
  }

  // ---- valid text is encoded text ----

  /** A Unicode scalar value. */
  predicate Scalar(c: nat) { c < 0xD800 || 0xE000 <= c < 0x110000 }

  /** The table of section 3 of RFC 3629. */
  function Encode(c: nat): Text
    requires Scalar(c)
  {
    if c < 0x80 then [c]
    else if c < 0x800 then [0xC0 + c / 64, 0x80 + c % 64]
    else if c < 0x10000 then [0xE0 + c / 4096, 0x80 + c / 64 % 64, 0x80 + c % 64]
    else [0xF0 + c / 262144, 0x80 + c / 4096 % 64, 0x80 + c / 64 % 64, 0x80 + c % 64]
  }

  /** The value of up to four digits to the base 64. */
  function Value(a: int, b: int, c: int, d: int): int { ((a * 64 + b) * 64 + c) * 64 + d }

  lemma Places(a: int, b: int, c: int, d: int)
    requires 0 <= b < 64 && 0 <= c < 64 && 0 <= d < 64
    ensures var v := Value(a, b, c, d); v % 64 == d && v / 64 % 64 == c && v / 4096 % 64 == b && v / 262144 == a
  {
    var v := Value(a, b, c, d);
    assert v / 64 == (a * 64 + b) * 64 + c;
    assert v / 4096 == v / 64 / 64 == a * 64 + b;
    assert v / 262144 == v / 4096 / 64;
  }

  function Decode(t: Text): int
    requires Lead(t) > 0
  {
    var first: int := t[0];
    match Lead(t)
    case 1 => first
    case 2 => Value(0, 0, first - 0xC0, (t[1] as int) - 0x80)
    case 3 => Value(0, first - 0xE0, (t[1] as int) - 0x80, (t[2] as int) - 0x80)
    case _ => Value(first - 0xF0, (t[1] as int) - 0x80, (t[2] as int) - 0x80, (t[3] as int) - 0x80)
  }

  lemma DigitsOf(v: nat)
    ensures Value(v / 262144, v / 4096 % 64, v / 64 % 64, v % 64) == v
  {
    var a := v / 64;
    var b := a / 64;
    assert v == a * 64 + v % 64 && a == b * 64 + a % 64 && b == b / 64 * 64 + b % 64;
    assert v / 4096 == b && v / 262144 == b / 64;
  }

  lemma LeadOf3(b: nat, c: nat, d: nat)
    requires b < 16 && c < 64 && d < 64 && 0x800 <= Value(0, b, c, d) && Scalar(Value(0, b, c, d))
    ensures Lead([0xE0 + b, 0x80 + c, 0x80 + d]) == 3
  {
  }

  lemma LeadOf4(a: nat, b: nat, c: nat, d: nat)
    requires a < 5 && b < 64 && c < 64 && d < 64 && 0x10000 <= Value(a, b, c, d) < 0x110000
    ensures Lead([0xF0 + a, 0x80 + b, 0x80 + c, 0x80 + d]) == 4
  {
  }

  lemma LeadOfEncoding(c: nat)
    requires Scalar(c)
    ensures Lead(Encode(c)) == |Encode(c)| > 0
  {
    if c < 0x800 {
      assert c >= 0x80 ==> 2 <= c / 64 < 32;
    } else {
      hide Lead;
      DigitsOf(c);
      if c < 0x10000 {
        assert c / 4096 < 16 && c / 262144 == 0;
        LeadOf3(c / 4096, c / 64 % 64, c % 64);
      } else {
        LeadOf4(c / 262144, c / 4096 % 64, c / 64 % 64, c % 64);
      }
    }
  }

  lemma EncodingOfLead(t: Text)
    requires Lead(t) > 0
    ensures Decode(t) >= 0 && Scalar(Decode(t)) && Encode(Decode(t)) == t[..Lead(t)]
  {
    match Lead(t)
    case 1 =>
    case 2 => Encoding2(t);
    case 3 => Encoding3(t);
    case _ => Encoding4(t);
  }

  lemma Encoding2(t: Text)
    requires Lead(t) == 2
    ensures Decode(t) >= 0 && Scalar(Decode(t)) && Encode(Decode(t)) == t[..2]
  {
    Places(0, 0, (t[0] as int) - 0xC0, (t[1] as int) - 0x80);
  }

  lemma Encoding3(t: Text)
    requires Lead(t) == 3
    ensures Decode(t) >= 0 && Scalar(Decode(t)) && Encode(Decode(t)) == t[..3]
  {
    Places(0, (t[0] as int) - 0xE0, (t[1] as int) - 0x80, (t[2] as int) - 0x80);
    assert Decode(t) / 4096 == (t[0] as int) - 0xE0;
  }

  lemma Encoding4(t: Text)
    requires Lead(t) == 4
    ensures Decode(t) >= 0 && Scalar(Decode(t)) && Encode(Decode(t)) == t[..4]
  {
    Places((t[0] as int) - 0xF0, (t[1] as int) - 0x80, (t[2] as int) - 0x80, (t[3] as int) - 0x80);
  }

  predicate Scalars(cs: seq<nat>) { forall i :: 0 <= i < |cs| ==> Scalar(cs[i]) }

  function EncodeAll(cs: seq<nat>): Text
    requires Scalars(cs)
  {
    if cs == [] then [] else Encode(cs[0]) + EncodeAll(cs[1..])
  }

  lemma {:induction false} EncodedIsValid(cs: seq<nat>)
    requires Scalars(cs)
    ensures Valid(EncodeAll(cs))
  {
    hide Lead, Encode, Scalar;
    if cs != [] {
      EncodedIsValid(cs[1..]);
      LeadOfEncoding(cs[0]);
      assert Encode(cs[0])[|Encode(cs[0])|..] == [];
      ValidConcat(Encode(cs[0]), EncodeAll(cs[1..]));
    }
  }

  lemma {:induction false} ValidIsEncoded(t: Text) returns (cs: seq<nat>)
    requires Valid(t)
    ensures Scalars(cs) && EncodeAll(cs) == t
    decreases |t|
  {
    hide Lead, Encode, Scalar, Decode;
    if t == [] {
      cs := [];
    } else {
      var n := Lead(t);
      EncodingOfLead(t);
      var rest := ValidIsEncoded(t[n..]);
      cs := [Decode(t)] + rest;
      assert cs[1..] == rest && t[..n] + t[n..] == t;
    }
  }

  /** Valid text is exactly what encoding some sequence of characters gives. */
  lemma ValidIffEncoded(t: Text)
    ensures Valid(t) <==> exists cs: seq<nat> :: Scalars(cs) && EncodeAll(cs) == t
  {
    hide Valid, EncodeAll, Scalar;
    if Valid(t) { var cs := ValidIsEncoded(t); }
    if cs: seq<nat> :| Scalars(cs) && EncodeAll(cs) == t { EncodedIsValid(cs); }
  }

  /** What the cut is for: a valid prefix within the limit, and no longer one exists. */
  lemma {:induction false} CutIsLongestValidPrefix(t: Text, limit: nat)
    ensures Valid(Cut(t, limit)) && |Cut(t, limit)| <= limit
    ensures forall k :: CutPoint(t, limit) < k <= limit && k <= |t| ==> !Valid(t[..k])
    decreases |t|
  {
    var n := Lead(t);
    if n == 0 || n > limit {
      forall k | 0 < k <= limit && k <= |t| ensures !Valid(t[..k]) {
        if n > 0 { LeadOfPrefix(t, k); } else { NoLeadInPrefix(t, k); }
      }
    } else {
      var rest := t[n..];
      CutIsLongestValidPrefix(rest, limit - n);
      var c := CutPoint(rest, limit - n);
      LeadOfPrefix(t, n + c);
      assert t[..n + c][n..] == rest[..c];
      forall k | n + c < k <= limit && k <= |t| ensures !Valid(t[..k]) {
        LeadOfPrefix(t, k);
        assert t[..k][n..] == rest[..k - n];
      }
    }
  }

  /** On valid text the cut loses at most three bytes, and nothing when the text fits. */
  lemma {:induction false} CutOfValidText(t: Text, limit: nat)
    requires Valid(t)
    ensures |t| <= limit ==> Cut(t, limit) == t
    ensures |t| > limit ==> limit - |Cut(t, limit)| <= 3
    decreases |t|
  {
    var n := Lead(t);
    if n != 0 && n <= limit {
      CutOfValidText(t[n..], limit - n);
    }
  }

  /** The trim loop shared by the four sites. */
  method DropInvalidTail(value: Text) returns (r: Text)
    ensures r == Cut(value, |value|)
  {
    CutIsLongestValidPrefix(value, |value|);
    r := value;
    while |r| > 0 && !Valid(r)
      invariant CutPoint(value, |value|) <= |r| <= |value| && r == value[..|r|]
      decreases |r|
    {
      r := r[..|r| - 1];
    }
  }

  lemma {:induction false} CutOfPrefix(t: Text, limit: nat)
    requires limit <= |t|
    ensures Cut(t[..limit], limit) == Cut(t, limit)
  {
    CutIsLongestValidPrefix(t, limit);
    CutIsLongestValidPrefix(t[..limit], limit);
    var a, b := CutPoint(t[..limit], limit), CutPoint(t, limit);
    assert t[..limit][..a] == t[..a] && t[..limit][..b] == t[..b];
  }

  method TruncateUtf8(value: Text, limit: nat) returns (r: Text)
    ensures |value| <= limit ==> r == value
    ensures |value| > limit ==> r == Cut(value, limit)
  {
    if |value| <= limit { return value; }
    r := DropInvalidTail(value[..limit]);
    CutOfPrefix(value, limit);
  }

  const REPLACEMENT: Text := [0xEF, 0xBF, 0xBD]

  /** Every run of bytes outside any character becomes one replacement character. */
  function ToValid(t: Text, inRun: bool := false): (r: Text)
    decreases |t|
  {
    var n := Lead(t);
    if |t| == 0 then []
    else if n > 0 then t[..n] + ToValid(t[n..], false)
    else (if inRun then [] else REPLACEMENT) + ToValid(t[1..], true)
  }

  lemma {:induction false} ToValidIsValid(t: Text, inRun: bool)
    ensures Valid(ToValid(t, inRun))
    ensures |t| > 0 && !inRun ==> |ToValid(t, inRun)| > 0
    decreases |t|
  {
    var n := Lead(t);
    if |t| != 0 {
      if n > 0 {
        ToValidIsValid(t[n..], false);
        LeadOfPrefix(t, n);
        assert Valid(t[..n]);
        ValidConcat(t[..n], ToValid(t[n..], false));
      } else {
        var rest := ToValid(t[1..], true);
        ToValidIsValid(t[1..], true);
        assert Lead(REPLACEMENT) == 3 && Valid(REPLACEMENT[3..]);
        ValidConcat(REPLACEMENT, rest);
        assert ToValid(t, inRun) == if inRun then rest else REPLACEMENT + rest;
      }
    }
  }

  lemma {:induction false} ToValidKeepsValidText(t: Text)
    requires Valid(t)
    ensures ToValid(t) == t
    decreases |t|
  {
    if |t| > 0 {
      ToValidKeepsValidText(t[Lead(t)..]);
      assert t == t[..Lead(t)] + t[Lead(t)..];
    }
  }

  /** No position of the run starts a character, whatever follows it. */
  predicate OutsideCharacters(run: Text, rest: Text) { forall i :: 0 <= i < |run| ==> Lead((run + rest)[i..]) == 0 }

  lemma {:induction false} ToValidAfterCharacters(a: Text, rest: Text)
    requires Valid(a)
    ensures ToValid(a + rest) == a + ToValid(rest)
    decreases |a|
  {
    hide Lead;
    if a == [] {
      assert a + rest == rest;
    } else {
      var n := Lead(a);
      LeadOfConcat(a, rest);
      DropConcat(a, rest, n);
      ToValidAfterCharacters(a[n..], rest);
      assert (a + rest)[..n] == a[..n] && a[..n] + a[n..] == a;
    }
  }

  lemma {:induction false} ToValidInsideRun(run: Text, rest: Text)
    requires OutsideCharacters(run, rest) && (rest == [] || Lead(rest) > 0)
    ensures ToValid(run + rest, true) == ToValid(rest)
    decreases |run|
  {
    hide Lead;
    if run == [] {
      assert run + rest == rest;
    } else {
      var all := run + rest;
      assert all[0..] == all && all[1..] == run[1..] + rest;
      assert forall i :: 0 <= i < |run| - 1 ==> (run[1..] + rest)[i..] == all[i + 1..];
      ToValidInsideRun(run[1..], rest);
    }
  }

  /** What the repair keeps: the characters before a run of stray bytes, one replacement for the run,
      and the repair of all that follows it. */
  lemma RepairKeepsTheRest(a: Text, run: Text, b: Text)
    requires Valid(a) && run != [] && OutsideCharacters(run, b) && (b == [] || Lead(b) > 0)
    ensures ToValid(a + run + b) == a + [0xEF, 0xBF, 0xBD] + ToValid(b)
  {
    hide Lead;
    var all := run + b;
    assert a + run + b == a + all && all[0..] == all;
    ToValidAfterCharacters(a, all);
    assert all[1..] == run[1..] + b;
    assert forall i :: 0 <= i < |run| - 1 ==> (run[1..] + b)[i..] == all[i + 1..];
    ToValidInsideRun(run[1..], b);
    assert ToValid(all) == REPLACEMENT + ToValid(b);
  }

  /** Every text that is not valid has such a first run, so the lemma above settles every text. */
  lemma {:induction false} FirstRun(t: Text) returns (a: Text, run: Text, b: Text)
    requires !Valid(t)
    ensures t == a + run + b && Valid(a) && run != [] && OutsideCharacters(run, b) && (b == [] || Lead(b) > 0)
    decreases |t|
  {
    hide Lead;
    var n := Lead(t);
    if n == 0 {
      a := [];
      run, b := RunFrom(t);
      assert t == a + run + b;
    } else {
      a, run, b := FirstRun(t[n..]);
      LeadOfPrefix(t, n);
      assert t[..n][n..] == [];
      ValidConcat(t[..n], a);
      assert t == t[..n] + (a + run + b) == (t[..n] + a) + run + b;
      a := t[..n] + a;
    }
  }

  lemma {:induction false} RunFrom(t: Text) returns (run: Text, b: Text)
    requires t != [] && Lead(t) == 0
    ensures t == run + b && run != [] && OutsideCharacters(run, b) && (b == [] || Lead(b) > 0)
    decreases |t|
  {
    hide Lead;
    var rest := t[1..];
    assert t[0..] == t;
    if rest == [] || Lead(rest) > 0 {
      run, b := t[..1], rest;
      assert run + b == t;
    } else {
      run, b := RunFrom(rest);
      assert t == [t[0]] + run + b;
      var longer := [t[0]] + run;
      forall i | 0 <= i < |longer| ensures Lead((longer + b)[i..]) == 0 {
        assert longer + b == t;
        if i > 0 { assert t[i..] == (run + b)[i - 1..]; }
      }
      run := longer;
    }
  }

  // ---- the error and log-line sites ----

  const MAX_ERROR_BYTES: nat := 65536
  const MAX_LINE_BYTES: nat := 65536
  /** The bytes of an ASCII literal. */
  function Ascii(s: string): (t: Text)
    ensures |t| == |s|
  {
    seq(|s|, i requires 0 <= i < |s| => (s[i] as int) % 128)
  }

  const ELLIPSIS: Text := [0xE2, 0x80, 0xA6]
  const ERROR_SUFFIX: Text := Ascii("... [truncated]")
  const LINE_SUFFIX: Text := ELLIPSIS + Ascii(" [truncated]")

  function BoundedError(value: Text): Text {
    var v := ToValid(value);
    if |v| <= MAX_ERROR_BYTES then v else Cut(v, MAX_ERROR_BYTES - |ERROR_SUFFIX|) + ERROR_SUFFIX
  }

  function BoundedLine(line: Text, truncated: bool): Text {
    var v := ToValid(line);
    if |v| > MAX_LINE_BYTES then Cut(v, MAX_LINE_BYTES) + LINE_SUFFIX
    else if truncated then v + LINE_SUFFIX
    else v
  }

  lemma AsciiIsValid(s: string)
    ensures Valid(Ascii(s))
  {
    AsciiValid(Ascii(s));
  }

  lemma SuffixesValid()
    ensures Valid(ERROR_SUFFIX) && Valid(LINE_SUFFIX)
  {
    AsciiIsValid("... [truncated]");
    AsciiIsValid(" [truncated]");
    assert Lead(ELLIPSIS) == 3 && Valid(ELLIPSIS[3..]);
    ValidConcat(ELLIPSIS, Ascii(" [truncated]"));
  }

  /** A stored error is valid, within 64 KiB, empty only for an empty text, and untouched when
      it was already acceptable; when it is cut, at most three bytes past the cut are lost. */
  lemma {:induction false} BoundedErrorAccepted(value: Text)
    ensures Valid(BoundedError(value)) && |BoundedError(value)| <= MAX_ERROR_BYTES
    ensures |value| > 0 ==> |BoundedError(value)| > 0
    ensures Valid(value) && |value| <= MAX_ERROR_BYTES ==> BoundedError(value) == value
    ensures |ToValid(value)| > MAX_ERROR_BYTES ==> |BoundedError(value)| >= MAX_ERROR_BYTES - 3
  {
    SuffixesValid();
    ToValidIsValid(value, false);
    if Valid(value) { ToValidKeepsValidText(value); }
    var v := ToValid(value);
    var cap: nat := MAX_ERROR_BYTES - |ERROR_SUFFIX|;
    CutIsLongestValidPrefix(v, cap);
    CutOfValidText(v, cap);
    ValidConcat(Cut(v, cap), ERROR_SUFFIX);
  }

  lemma {:induction false} BoundedLineAccepted(line: Text, truncated: bool)
    ensures Valid(BoundedLine(line, truncated))
    ensures |BoundedLine(line, truncated)| <= MAX_LINE_BYTES + |LINE_SUFFIX|
    ensures Valid(line) && |line| <= MAX_LINE_BYTES && !truncated ==> BoundedLine(line, truncated) == line
    ensures |ToValid(line)| > MAX_LINE_BYTES ==> |BoundedLine(line, truncated)| >= MAX_LINE_BYTES - 3 + |LINE_SUFFIX|
  {
    SuffixesValid();
    ToValidIsValid(line, false);
    if Valid(line) { ToValidKeepsValidText(line); }
    var v := ToValid(line);
    CutIsLongestValidPrefix(v, MAX_LINE_BYTES);
    CutOfValidText(v, MAX_LINE_BYTES);
    ValidConcat(Cut(v, MAX_LINE_BYTES), LINE_SUFFIX);
    ValidConcat(v, LINE_SUFFIX);
  }

  /** A stored line or error holds all of a text around its stray bytes, as long as it fits. */
  lemma BoundedTextKeepsTheRest(a: Text, run: Text, b: Text)
    requires Valid(a) && run != [] && OutsideCharacters(run, b) && (b == [] || Lead(b) > 0)
    requires |a| + 3 + |ToValid(b)| <= 65536
    ensures BoundedLine(a + run + b, false) == a + [0xEF, 0xBF, 0xBD] + ToValid(b)
    ensures BoundedLine(a + run + b, true) == a + [0xEF, 0xBF, 0xBD] + ToValid(b) + LINE_SUFFIX
    ensures BoundedError(a + run + b) == a + [0xEF, 0xBF, 0xBD] + ToValid(b)
  {
    hide Lead, ToValid;
    RepairKeepsTheRest(a, run, b);
  }

  /** What a text that does not fit becomes, in bytes. */
  lemma BoundedTextIsCut(value: Text)
    ensures LINE_SUFFIX == [0xE2, 0x80, 0xA6] + Ascii(" [truncated]") && ERROR_SUFFIX == Ascii("... [truncated]")
    ensures |LINE_SUFFIX| == 15 && |ERROR_SUFFIX| == 15
    ensures |ToValid(value)| > 65536 ==> BoundedLine(value, false) == Cut(ToValid(value), 65536) + LINE_SUFFIX == BoundedLine(value, true)
    ensures |ToValid(value)| > 65536 ==> BoundedError(value) == Cut(ToValid(value), 65521) + ERROR_SUFFIX
  {
  }

  method BoundDownloadError(value: Text) returns (r: Text)
    ensures r == BoundedError(value)
  {
    var v := ToValid(value);
    if |v| <= MAX_ERROR_BYTES { return v; }
    var cap: nat := MAX_ERROR_BYTES - |ERROR_SUFFIX|;
    r := DropInvalidTail(v[..cap]);
    CutOfPrefix(v, cap);
    r := r + ERROR_SUFFIX;
  }

  method BoundLogLine(line: Text, truncated: bool) returns (r: Text)
    ensures r == BoundedLine(line, truncated)
  {
    r := ToValid(line);
    var cut := truncated;
    if |r| > MAX_LINE_BYTES {
      CutOfPrefix(r, MAX_LINE_BYTES);
      r := DropInvalidTail(r[..MAX_LINE_BYTES]);
      cut := true;
    }
    if cut { r := r + LINE_SUFFIX; }
  }
}
