/** The loops that turn a child's output into log entries.

    The buffered reader hands back one piece of a line at a time and says whether more of
    the same line follows.  How a line is cut into pieces depends on the buffer and on the
    child; the entries must not. */
module LineStream {
  import opened Utf8
  import opened Wrappers
  import opened LogWindow

  datatype Read = Part(bytes: Text, more: bool)
  datatype Entry = Entry(line: Text, tail: Text, truncated: bool)

  const TAIL_BYTES: nat := 256

  /** The logical lines of a stream; a line still open at the end of input is the last one. */
  function LinesOf(input: seq<Read>, open: Option<Text>): seq<Text> {
    if input == [] then (if open.Some? then [open.value] else [])
    else
      var line := (if open.Some? then open.value else []) + input[0].bytes;
      if input[0].more then LinesOf(input[1..], Some(line))
      else [line] + LinesOf(input[1..], None)
  }

  function Suffix(t: Text, n: nat): Text { if |t| <= n then t else t[|t| - n..] }
  function Prefix(t: Text, n: nat): Text { if |t| <= n then t else t[..n] }

  function EntryOf(line: Text, capture: nat): Entry {
    Entry(Prefix(line, capture), Suffix(line, TAIL_BYTES), |line| > capture)
  }

  function Entries(lines: seq<Text>, capture: nat): seq<Entry> {
    seq(|lines|, i requires 0 <= i < |lines| => EntryOf(lines[i], capture))
  }

  /** However a reader cuts a line, the logical lines are the same. */
  lemma {:induction false} ReaderSplitsDoNotMatter(before: seq<Read>, x: Text, y: Text, more: bool, after: seq<Read>, open: Option<Text>)
    ensures LinesOf(before + [Part(x, true), Part(y, more)] + after, open)
         == LinesOf(before + [Part(x + y, more)] + after, open)
    decreases |before|
  {
    var split := before + [Part(x, true), Part(y, more)] + after;
    var whole := before + [Part(x + y, more)] + after;
    if before == [] {
      var o := if open.Some? then open.value else [];
      assert split[1..][0] == Part(y, more) && split[1..][1..] == after && whole[1..] == after;
      assert o + x + y == o + (x + y);
    } else {
      assert split[1..] == before[1..] + [Part(x, true), Part(y, more)] + after;
      assert whole[1..] == before[1..] + [Part(x + y, more)] + after;
      var line := (if open.Some? then open.value else []) + before[0].bytes;
      ReaderSplitsDoNotMatter(before[1..], x, y, more, after, if before[0].more then Some(line) else None);
    }
  }

  lemma EntriesMeaning(lines: seq<Text>, capture: nat)
    ensures |Entries(lines, capture)| == |lines| && forall i :: 0 <= i < |lines| ==>
              var l, e := lines[i], Entries(lines, capture)[i];
              && e.line == l[..if |l| < capture then |l| else capture]
              && e.tail == l[if |l| < 256 then 0 else |l| - 256..]
              && (e.truncated <==> |l| > capture)
  {
  }

  lemma EntriesAppend(lines: seq<Text>, line: Text, capture: nat)
    ensures Entries(lines + [line], capture) == Entries(lines, capture) + [EntryOf(line, capture)]
  {
  }

  // The two bounded buffers see a line grow piece by piece as they would see it whole.
  lemma BuffersGrow(line: Text, part: Text, capture: nat)
    ensures Suffix(Suffix(line, TAIL_BYTES) + part, TAIL_BYTES) == Suffix(line + part, TAIL_BYTES)
    ensures |line| >= capture ==> Prefix(line + part, capture) == Prefix(line, capture)
    ensures |line| < capture ==> Prefix(line + part, capture) == line + Prefix(part, capture - |line|)
  {
  }

  method TakePiece(ghost whole: Text, lineSoFar: Text, tailSoFar: Text, cutSoFar: bool, part: Text, capture: nat)
    returns (line: Text, tail: Text, truncated: bool)
    requires Entry(lineSoFar, tailSoFar, cutSoFar) == EntryOf(whole, capture)
    ensures Entry(line, tail, truncated) == EntryOf(whole + part, capture)
  {
    line, tail, truncated := lineSoFar, tailSoFar, cutSoFar;
    BuffersGrow(whole, part, capture);
    if |part| > 0 {
      var remaining := capture - |line|;
      if remaining > 0 {
        line := line + Prefix(part, remaining);
        truncated := truncated || remaining < |part|;
      } else {
        truncated := true;
      }
      tail := Suffix(tail + part, TAIL_BYTES);
    } else {
      assert whole + part == whole;
    }
  }

  lemma NextPiece(input: seq<Read>, i: nat, open: Option<Text>)
    requires i < |input|
    ensures var line := (if open.Some? then open.value else []) + input[i].bytes;
      LinesOf(input[i..], open) ==
        if input[i].more then LinesOf(input[i + 1..], Some(line)) else [line] + LinesOf(input[i + 1..], None)
  {
    assert input[i..][0] == input[i] && input[i..][1..] == input[i + 1..];
  }

  lemma NoPieces(input: seq<Read>, open: Option<Text>)
    ensures LinesOf(input[|input|..], open) == if open.Some? then [open.value] else []
    ensures LinesOf(input[0..], open) == LinesOf(input, open)
  {
    assert input[0..] == input;
  }

  lemma NothingYet(capture: nat)
    ensures EntryOf([], capture) == Entry([], [], false) && Entries([], capture) == []
  {
  }

  /** The download consumer: buffers of bounded size, one entry per logical line, in order. */
  method Consume(input: seq<Read>, capture: nat) returns (out: seq<Entry>)
    ensures out == Entries(LinesOf(input, None), capture)
    // of each line its first `capture` bytes, its last 256, and whether anything is missing
    ensures |out| == |LinesOf(input, None)| && forall i :: 0 <= i < |out| ==>
              var l := LinesOf(input, None)[i];
              && out[i].line == l[..if |l| < capture then |l| else capture]
              && out[i].tail == l[if |l| < 256 then 0 else |l| - 256..]
              && (out[i].truncated <==> |l| > capture)
  {
    hide LinesOf, EntryOf, Entries;
    EntriesMeaning(LinesOf(input, None), capture);
    var line: Text, tail: Text, truncated, haveLine := [], [], false, false;
    ghost var whole: Text := [];
    out := [];
    var i := 0;
    ghost var done: seq<Text> := [];
    NothingYet(capture);
    NoPieces(input, None);
    while i < |input|
      invariant 0 <= i <= |input|
      invariant Entry(line, tail, truncated) == EntryOf(whole, capture)
      invariant !haveLine ==> whole == []
      invariant out == Entries(done, capture)
      invariant LinesOf(input, None) == done + LinesOf(input[i..], if haveLine then Some(whole) else None)
    {
      var part, more := input[i].bytes, input[i].more;
      NextPiece(input, i, if haveLine then Some(whole) else None);
      assert (if haveLine then whole else []) + part == whole + part;
      haveLine := true;
      line, tail, truncated := TakePiece(whole, line, tail, truncated, part, capture);
      whole := whole + part;
      if !more {
        EntriesAppend(done, whole, capture);
        assert done + ([whole] + LinesOf(input[i + 1..], None)) == done + [whole] + LinesOf(input[i + 1..], None);
        out := out + [Entry(line, tail, truncated)];
        done := done + [whole];
        line, tail, truncated, haveLine, whole := [], [], false, false, [];
      }
      i := i + 1;
    }
    NoPieces(input, if haveLine then Some(whole) else None);
    // the read that reports the end of input carries no bytes
    if haveLine || truncated {
      EntriesAppend(done, whole, capture);
      out := out + [Entry(line, tail, truncated)];
    } else {
      assert done + [] == done;
    }
  }

  // ---- from bytes ----

  const NEWLINE: Byte := 0x0A
  const RETURN: Byte := 0x0D

  /** Where the first newline is, or the length when there is none. */
  function Newline(t: Text): (i: nat)
    ensures i <= |t| && (i < |t| ==> t[i] == NEWLINE) && forall k :: 0 <= k < i ==> t[k] != NEWLINE
  {
    if t == [] || t[0] == NEWLINE then 0 else 1 + Newline(t[1..])
  }

  function DropReturn(t: Text): Text { if t != [] && t[|t| - 1] == RETURN then t[..|t| - 1] else t }

  /** The lines of a byte stream: without their newline, and without a carriage return before it. */
  function TextLines(stream: Text): seq<Text>
    decreases |stream|
  {
    var i := Newline(stream);
    if stream == [] then [] else if i == |stream| then [stream] else [DropReturn(stream[..i])] + TextLines(stream[i + 1..])
  }

  /** A text that ends in a carriage return is followed by another. */
  predicate ReturnKept(open: Text, rest: Text) {
    open != [] && open[|open| - 1] == RETURN ==> rest != [] && rest[0] == RETURN
  }

  /** The lines of a text, once and for all: what precedes a newline, without a carriage return at its
      end, then the lines of what follows; a last line without a newline is kept as it is. */
  lemma TextLinesMeaning(line: Text, rest: Text)
    requires NEWLINE !in line
    ensures TextLines(line + [0x0A] + rest) ==
              [if line != [] && line[|line| - 1] == 0x0D then line[..|line| - 1] else line] + TextLines(rest)
    ensures TextLines(line) == if line == [] then [] else [line]
  {
    hide Newline, TextLines;
    var all := line + [0x0A] + rest;
    assert all[|line|] == NEWLINE && all[..|line|] == line && all[|line| + 1..] == rest;
    assert forall k :: 0 <= k < |line| ==> all[k] == line[k];
    assert Newline(all) == |line| && Newline(line) == |line|;
    TextLinesStep(all);
    if line == [] { NoText(); } else { TextLinesStep(line); }
  }

  /** The pieces a buffered line reader may hand back for a stream, whatever the size of its buffer:
      a piece that more follows stays inside a line, and of the carriage returns at its end the last
      is kept back for the next piece; a last piece ends a line, or the stream. */
  predicate Pieces(stream: Text, pieces: seq<Read>)
    decreases |pieces|
  {
    if pieces == [] then stream == []
    else
      var b, i := pieces[0].bytes, Newline(stream);
      if pieces[0].more then
        0 < |b| <= i && b == stream[..|b|] && ReturnKept(b, stream[|b|..]) && Pieces(stream[|b|..], pieces[1..])
      else if i == |stream| then stream != [] && b == stream && |pieces| == 1
      else b == DropReturn(stream[..i]) && Pieces(stream[i + 1..], pieces[1..])
  }

  lemma NewlineAfter(open: Text, stream: Text)
    requires forall k :: 0 <= k < |open| ==> open[k] != NEWLINE
    ensures Newline(open + stream) == |open| + Newline(stream)
  {
    hide Newline;
    var i, n := Newline(stream), Newline(open + stream);
    if i < |stream| { assert (open + stream)[|open| + i] == NEWLINE; }
    assert forall k :: 0 <= k < |open| + i ==> (open + stream)[k] != NEWLINE;
  }

  lemma TextLinesStep(t: Text)
    requires t != []
    ensures var n := Newline(t);
      TextLines(t) == if n == |t| then [t] else [DropReturn(t[..n])] + TextLines(t[n + 1..])
  {
    hide Newline;
  }

  lemma LinesStep(pieces: seq<Read>, open: Option<Text>)
    requires pieces != []
    ensures var line := (if open.Some? then open.value else []) + pieces[0].bytes;
      LinesOf(pieces, open) == if pieces[0].more then LinesOf(pieces[1..], Some(line)) else [line] + LinesOf(pieces[1..], None)
  {
  }

  lemma NoMorePieces(stream: Text, pieces: seq<Read>, open: Option<Text>)
    requires pieces == []
    ensures Pieces(stream, pieces) <==> stream == []
    ensures LinesOf(pieces, open) == if open.Some? then [open.value] else []
  {
  }

  /** A line that goes on in the stream, and what is left of the stream after it. */
  lemma LineContinues(open: Text, stream: Text)
    requires stream != [] && forall k :: 0 <= k < |open| ==> open[k] != NEWLINE
    requires ReturnKept(open, stream)
    ensures var i := Newline(stream);
      TextLines(open + stream) ==
        if i == |stream| then [open + stream] else [open + DropReturn(stream[..i])] + TextLines(stream[i + 1..])
  {
    hide Newline, TextLines;
    var all, i := open + stream, Newline(stream);
    NewlineAfter(open, stream);
    TextLinesStep(all);
    if i < |stream| {
      assert all[..|open| + i] == open + stream[..i] && all[|open| + i + 1..] == stream[i + 1..];
      assert DropReturn(open + stream[..i]) == open + DropReturn(stream[..i]);
    }
  }

  // A line already begun continues with the stream.
  lemma {:induction false} OpenLine(open: Text, stream: Text, pieces: seq<Read>)
    requires Pieces(stream, pieces)
    requires open != [] && ReturnKept(open, stream) && forall k :: 0 <= k < |open| ==> open[k] != NEWLINE
    ensures LinesOf(pieces, Some(open)) == TextLines(open + stream)
    decreases |pieces|
  {
    hide Newline, TextLines, LinesOf, DropReturn;
    if pieces == [] {
      NoMorePieces(stream, pieces, Some(open));
      NewlineAfter(open, []);
      TextLinesStep(open);
      assert open + stream == open && Newline([]) == 0;
    } else {
      var b, i := pieces[0].bytes, Newline(stream);
      LinesStep(pieces, Some(open));
      if pieces[0].more {
        assert open + stream == (open + b) + stream[|b|..];
        OpenLine(open + b, stream[|b|..], pieces[1..]);
      } else {
        if stream != [] { LineContinues(open, stream); }
        if i == |stream| { NoMorePieces([], pieces[1..], None); } else { CutsDoNotMatter(stream[i + 1..], pieces[1..]); }
      }
    }
  }

  /** However the reader cuts a byte stream into pieces, the logical lines are those of the stream. */
  lemma {:induction false} CutsDoNotMatter(stream: Text, pieces: seq<Read>)
    requires Pieces(stream, pieces)
    ensures LinesOf(pieces, None) == TextLines(stream)
    decreases |pieces|
  {
    hide Newline, TextLines, LinesOf, DropReturn;
    if pieces == [] {
      NoMorePieces(stream, pieces, None);
      NoText();
    } else {
      var b, i := pieces[0].bytes, Newline(stream);
      LinesStep(pieces, None);
      assert [] + b == b;
      if pieces[0].more {
        assert b + stream[|b|..] == stream;
        OpenLine(b, stream[|b|..], pieces[1..]);
      } else {
        if stream != [] { TextLinesStep(stream); }
        if i == |stream| { NoMorePieces([], pieces[1..], None); } else { CutsDoNotMatter(stream[i + 1..], pieces[1..]); }
      }
    }
  }

  lemma NoText()
    ensures TextLines([]) == []
  {
  }

  /** The consumer over the bytes themselves: the same entries for every buffer and every timing. */
  method ConsumeStream(ghost stream: Text, pieces: seq<Read>, capture: nat) returns (out: seq<Entry>)
    requires Pieces(stream, pieces)
    ensures out == Entries(TextLines(stream), capture)
  {
    CutsDoNotMatter(stream, pieces);
    out := Consume(pieces, capture);
  }

  /** What the log stores for each entry. */
  function StoredLines(entries: seq<Entry>): seq<Text> {
    seq(|entries|, i requires 0 <= i < |entries| => BoundedLine(entries[i].line, entries[i].truncated))
  }

  lemma NoHistory(maxLines: nat, maxBytes: nat)
    ensures Window([], maxLines, maxBytes) == [] && StoredLines([]) == []
  {
  }

  /** The supervisor's reader: the same loop feeding its log, which ends up holding the window
      of the bounded form of every line the child wrote. */
  method CollectLogs(input: seq<Read>, capture: nat, maxLines: nat, maxBytes: nat) returns (logs: seq<Text>)
    ensures logs == Window(StoredLines(Entries(LinesOf(input, None), capture)), maxLines, maxBytes)
  {
    hide LinesOf, EntryOf, Entries, BoundedLine, Window;
    var entries := Consume(input, capture);
    logs := [];
    NoHistory(maxLines, maxBytes);
    for i := 0 to |entries|
      invariant logs == Window(StoredLines(entries[..i]), maxLines, maxBytes)
    {
      var line := BoundLogLine(entries[i].line, entries[i].truncated);
      IncrementalWindow(StoredLines(entries[..i]), line, maxLines, maxBytes);
      assert StoredLines(entries[..i + 1]) == StoredLines(entries[..i]) + [line];
      logs := AppendLine(logs, line, maxLines, maxBytes);
    }
    assert entries[..|entries|] == entries;
  }

  /** Every stored line is one the restart validators accept. */
  lemma StoredLinesAccepted(entries: seq<Entry>)
    ensures AllWithin(StoredLines(entries), MAX_LINE_BYTES + |LINE_SUFFIX|)
  {
    forall i | 0 <= i < |entries| {
      BoundedLineAccepted(entries[i].line, entries[i].truncated);
    }
  }
}
