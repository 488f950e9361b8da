/** The size of the manifest a deletion writes, and the size reconciliation reads.

    The writer encodes the id and the path as one JSON object and a newline, and does not look at
    the size; the reader refuses a manifest of more than 4096 bytes. */
module DeletionManifest {
  import opened Wrappers
  import opened Coordinates
  import opened Database

  const MAX_MANIFEST: nat := 4096

  /** The object, its two field names and the newline, without the two values. */
  const FRAME: nat := 24

  /** The bytes of one character inside a string of the encoder, which also escapes what is special
      in HTML and the two line separators of JavaScript. */
  function JsonWidth(c: char): nat {
    var n := c as int;
    if c == '\"' || c == '\\' then 2
    else if n in {0x08, 0x09, 0x0A, 0x0C, 0x0D} then 2
    else if n < 0x20 || c == '<' || c == '>' || c == '&' || n == 0x2028 || n == 0x2029 then 6
    else Width(c)
  }

  function JsonBytes(s: string): nat { if s == "" then 0 else JsonWidth(s[0]) + JsonBytes(s[1..]) }

  function ManifestBytes(id: string, original: Path): nat { FRAME + JsonBytes(id) + JsonBytes(PathText(original.parts)) }

  /** What a caller of Delete can look at beforehand: the manifest for this model can be read back. */
  predicate ManifestFits(id: string, original: Path) { ManifestBytes(id, original) <= MAX_MANIFEST }

  lemma {:induction false} JsonBytesBounds(s: string)
    ensures ByteLength(s) <= JsonBytes(s) <= 6 * ByteLength(s)
  {
    if s != "" { JsonBytesBounds(s[1..]); }
  }

  lemma {:induction false} JsonBytesAppend(s: string, t: string)
    ensures JsonBytes(s + t) == JsonBytes(s) + JsonBytes(t)
  {
    if s == "" {
      assert s + t == t;
    } else {
      assert (s + t)[1..] == s[1..] + t;
      JsonBytesAppend(s[1..], t);
    }
  }

  lemma {:induction false} AmpersandBytes(s: string)
    requires forall i :: 0 <= i < |s| ==> s[i] == '&'
    ensures JsonBytes(s) == 6 * |s|
  {
    if s != "" { AmpersandBytes(s[1..]); }
  }

  lemma {:induction false} HexIsPlainJson(id: string)
    requires forall i :: 0 <= i < |id| ==> LowerHex(id[i])
    ensures JsonBytes(id) == |id|
  {
    if id != "" { HexIsPlainJson(id[1..]); }
  }

  // ---- the text that is counted ----

  function HexDigit(n: nat): char
    requires n < 16
  {
    if n < 10 then ('0' as int + n) as char else ('a' as int + n - 10) as char
  }

  function HexValue(c: char): Option<nat> {
    if '0' <= c <= '9' then Some(c as int - '0' as int)
    else if 'a' <= c <= 'f' then Some(c as int - 'a' as int + 10)
    else None
  }

  function UnicodeEscape(n: nat): string
    requires n < 65536
  {
    ['\\', 'u', HexDigit(n / 4096), HexDigit(n / 256 % 16), HexDigit(n / 16 % 16), HexDigit(n % 16)]
  }

  /** The letter after the backslash of a short escape. */
  function ShortEscape(c: char): Option<char> {
    var n := c as int;
    if c == '\"' || c == '\\' then Some(c)
    else if n == 0x08 then Some('b')
    else if n == 0x09 then Some('t')
    else if n == 0x0A then Some('n')
    else if n == 0x0C then Some('f')
    else if n == 0x0D then Some('r')
    else None
  }

  function ShortUnescape(c: char): Option<char> {
    if c == '\"' || c == '\\' || c == '/' then Some(c)
    else if c == 'b' then Some(0x08 as char)
    else if c == 't' then Some(0x09 as char)
    else if c == 'n' then Some(0x0A as char)
    else if c == 'f' then Some(0x0C as char)
    else if c == 'r' then Some(0x0D as char)
    else None
  }

  predicate LongEscaped(c: char) {
    (c as int) < 0x20 || c == '<' || c == '>' || c == '&' || (c as int) == 0x2028 || (c as int) == 0x2029
  }

  /** What the encoder writes for one character. */
  function JsonChar(c: char): string {
    if ShortEscape(c).Some? then ['\\', ShortEscape(c).value]
    else if LongEscaped(c) then UnicodeEscape(c as int)
    else [c]
  }

  function JsonText(s: string): string { if s == "" then "" else JsonChar(s[0]) + JsonText(s[1..]) }

  /** The four digits of an escape, as a character. */
  function EscapedChar(t: string): Option<char>
    requires |t| >= 4
  {
    var a, b, c, d := HexValue(t[0]), HexValue(t[1]), HexValue(t[2]), HexValue(t[3]);
    if a.None? || b.None? || c.None? || d.None? then None
    else
      var n := ((a.value * 16 + b.value) * 16 + c.value) * 16 + d.value;
      if n < 0xD800 || 0xE000 <= n < 0x10000 then Some(n as char) else None
  }

  /** The reader of the inside of a string. */
  function Unescaped(t: string): Option<string>
    decreases |t|
  {
    if t == "" then Some("")
    else if t[0] != '\\' then Prepended(if t[0] == '\"' || (t[0] as int) < 0x20 then None else Some(t[0]), Unescaped(t[1..]))
    else if |t| < 2 then None
    else if t[1] == 'u' then if |t| < 6 then None else Prepended(EscapedChar(t[2..6]), Unescaped(t[6..]))
    else Prepended(ShortUnescape(t[1]), Unescaped(t[2..]))
  }

  function Prepended(c: Option<char>, rest: Option<string>): Option<string> {
    if c.Some? && rest.Some? then Some([c.value] + rest.value) else None
  }

  lemma EscapeWidth(n: nat)
    requires n < 65536
    ensures ByteLength(UnicodeEscape(n)) == 6
  {
    AsciiBytes(UnicodeEscape(n));
  }

  lemma JsonCharWidth(c: char)
    ensures ByteLength(JsonChar(c)) == JsonWidth(c)
  {
    hide UnicodeEscape, ByteLength;
    if ShortEscape(c).Some? { AsciiBytes(JsonChar(c)); }
    else if LongEscaped(c) { EscapeWidth(c as int); }
    else { SingleWidth(c); }
  }

  lemma SingleWidth(c: char)
    ensures ByteLength([c]) == Width(c)
  {
    assert [c][1..] == "" && ByteLength("") == 0;
  }

  /** JsonBytes counts the bytes of the text that is written. */
  lemma {:induction false} JsonBytesCount(s: string)
    ensures ByteLength(JsonText(s)) == JsonBytes(s)
  {
    hide JsonChar, JsonWidth;
    if s != "" {
      JsonBytesCount(s[1..]);
      JsonCharWidth(s[0]);
      ByteLengthAppend(JsonChar(s[0]), JsonText(s[1..]));
    }
  }

  lemma HexRoundTrip(n: nat)
    requires n < 16
    ensures HexValue(HexDigit(n)) == Some(n)
  {
  }

  lemma EscapeRoundTrip(n: nat)
    requires n < 0xD800
    ensures EscapedChar(UnicodeEscape(n)[2..6]) == Some(n as char)
  {
    HexRoundTrip(n / 4096);
    HexRoundTrip(n / 256 % 16);
    HexRoundTrip(n / 16 % 16);
    HexRoundTrip(n % 16);
    assert n / 16 / 16 == n / 256 && n / 256 / 16 == n / 4096;
  }

  lemma CharRoundTrip(c: char, rest: string)
    ensures Unescaped(JsonChar(c) + rest) == Prepended(Some(c), Unescaped(rest))
  {
    hide UnicodeEscape, EscapedChar, ShortUnescape;
    var all := JsonChar(c) + rest;
    assert all[|JsonChar(c)|..] == rest;
    if ShortEscape(c).Some? {
      ShortRoundTrip(c);
      assert all[0] == '\\' && all[1] == ShortEscape(c).value && all[2..] == rest;
    } else if LongEscaped(c) {
      EscapeLooks(c as int);
      EscapeRoundTrip(c as int);
      assert all[0] == '\\' && all[1] == 'u' && all[2..6] == UnicodeEscape(c as int)[2..6] && all[6..] == rest;
    } else {
      assert all[0] == c && all[1..] == rest;
    }
  }

  lemma ShortRoundTrip(c: char)
    requires ShortEscape(c).Some?
    ensures ShortUnescape(ShortEscape(c).value) == Some(c) && ShortEscape(c).value != 'u'
  {
  }

  lemma EscapeLooks(n: nat)
    requires n < 65536
    ensures |UnicodeEscape(n)| == 6 && UnicodeEscape(n)[0] == '\\' && UnicodeEscape(n)[1] == 'u'
  {
  }

  /** What is written inside the quotes reads back as it was. */
  lemma {:induction false} JsonRoundTrip(s: string)
    ensures Unescaped(JsonText(s)) == Some(s)
  {
    hide JsonChar, Unescaped;
    if s == "" {
      NothingUnescaped();
    } else {
      JsonRoundTrip(s[1..]);
      CharRoundTrip(s[0], JsonText(s[1..]));
      assert [s[0]] + s[1..] == s;
    }
  }

  lemma NothingUnescaped()
    ensures Unescaped("") == Some("")
  {
  }

  /** The whole file, and its size. */
  function ManifestText(id: string, original: Path): string {
    "{\"id\":\"" + JsonText(id) + "\",\"original\":\"" + JsonText(PathText(original.parts)) + "\"}\n"
  }

  lemma ManifestSize(id: string, original: Path)
    ensures ByteLength(ManifestText(id, original)) == ManifestBytes(id, original)
  {
    hide JsonText, JsonBytes, PathText, ByteLength;
    var head, middle, tail := "{\"id\":\"", "\",\"original\":\"", "\"}\n";
    var a, b := JsonText(id), JsonText(PathText(original.parts));
    AsciiBytes(head);
    AsciiBytes(middle);
    AsciiBytes(tail);
    JsonBytesCount(id);
    JsonBytesCount(PathText(original.parts));
    ByteLengthAppend(head, a);
    ByteLengthAppend(head + a, middle);
    ByteLengthAppend(head + a + middle, b);
    ByteLengthAppend(head + a + middle + b, tail);
  }

  /** A path of at most 673 bytes always fits, one of more than 4040 never does; between them the
      characters the encoder escapes decide. */
  lemma FitsByLength(id: string, original: Path)
    requires ValidModelId(id)
    ensures ManifestFits(id, original) <==> JsonBytes(PathText(original.parts)) <= 4040
    ensures ByteLength(PathText(original.parts)) <= 673 ==> ManifestFits(id, original)
    ensures ByteLength(PathText(original.parts)) > 4040 ==> !ManifestFits(id, original)
  {
    hide PathText, JsonBytes, ByteLength;
    HexIsPlainJson(id);
    JsonBytesBounds(PathText(original.parts));
  }
}
