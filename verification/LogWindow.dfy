/** The bounded logs kept by a download job and by the runtime supervisor: the newest lines,
    at most `maxLines` of them and at most `maxBytes` bytes in all. */
module LogWindow {
  import opened Utf8

  const MAX_LOG_BYTES: nat := 4194304

  function Bytes(logs: seq<Text>): nat {
    if logs == [] then 0 else |logs[0]| + Bytes(logs[1..])
  }

  predicate Fits(logs: seq<Text>, maxLines: nat, maxBytes: nat) {
    |logs| <= maxLines && Bytes(logs) <= maxBytes
  }

  /** The longest suffix of a history that fits. */
  function Window(history: seq<Text>, maxLines: nat, maxBytes: nat): (w: seq<Text>)
    ensures |w| <= |history|
  {
    if Fits(history, maxLines, maxBytes) || history == [] then history
    else Window(history[1..], maxLines, maxBytes)
  }

  lemma {:induction false} BytesConcat(a: seq<Text>, b: seq<Text>)
    ensures Bytes(a + b) == Bytes(a) + Bytes(b)
  {
    if a == [] {
      assert a + b == b;
    } else {
      BytesConcat(a[1..], b);
      assert (a + b)[1..] == a[1..] + b;
    }
  }

  /** The window is a suffix, it fits, and every suffix that fits is inside it. */
  lemma {:induction false} WindowIsLongest(history: seq<Text>, maxLines: nat, maxBytes: nat)
    ensures var w := Window(history, maxLines, maxBytes);
      && Fits(w, maxLines, maxBytes)
      && w == history[|history| - |w|..]
      && forall k :: 0 <= k <= |history| && Fits(history[k..], maxLines, maxBytes) ==> |history| - k <= |w|
  {
    if !(Fits(history, maxLines, maxBytes) || history == []) {
      WindowIsLongest(history[1..], maxLines, maxBytes);
      forall k | 0 <= k <= |history| && Fits(history[k..], maxLines, maxBytes)
        ensures |history| - k <= |Window(history, maxLines, maxBytes)|
      {
        assert history[0..] == history;
        if k > 0 { assert history[k..] == history[1..][k - 1..]; }
      }
    }
  }

  lemma {:induction false} WindowOfSuffix(history: seq<Text>, k: nat, maxLines: nat, maxBytes: nat)
    requires k <= |history| && |history| - k >= |Window(history, maxLines, maxBytes)|
    ensures Window(history[k..], maxLines, maxBytes) == Window(history, maxLines, maxBytes)
    decreases k
  {
    if k == 0 {
      assert history[0..] == history;
    } else {
      WindowOfSuffix(history[1..], k - 1, maxLines, maxBytes);
      assert history[k..] == history[1..][k - 1..];
    }
  }

  /** Trimming after every line gives what trimming the whole history once would give. */
  lemma {:induction false} IncrementalWindow(history: seq<Text>, line: Text, maxLines: nat, maxBytes: nat)
    ensures Window(Window(history, maxLines, maxBytes) + [line], maxLines, maxBytes)
         == Window(history + [line], maxLines, maxBytes)
  {
    var w, all := Window(history, maxLines, maxBytes), history + [line];
    var z := Window(all, maxLines, maxBytes);
    WindowIsLongest(history, maxLines, maxBytes);
    WindowIsLongest(all, maxLines, maxBytes);
    var k := |history| - |w|;
    assert all[k..] == w + [line];
    if |z| > |w| + 1 {
      // z without its newest line is a suffix of the history that fits but is longer than w
      var j := |all| - |z|;
      assert all[j..] == history[j..] + [line];
      BytesConcat(history[j..], [line]);
      assert Fits(history[j..], maxLines, maxBytes);
    }
    WindowOfSuffix(all, k, maxLines, maxBytes);
  }

  /** The stored log after each append of a whole run. */
  function AppendAll(lines: seq<Text>, maxLines: nat, maxBytes: nat): seq<Text> {
    if lines == [] then []
    else Window(AppendAll(lines[..|lines| - 1], maxLines, maxBytes) + [lines[|lines| - 1]], maxLines, maxBytes)
  }

  /** Over any run the stored log is the window of everything ever appended, and while lines
      are no longer than the byte limit the newest line is never lost. */
  lemma {:induction false} RunIsWindowOfHistory(lines: seq<Text>, maxLines: nat, maxBytes: nat)
    ensures AppendAll(lines, maxLines, maxBytes) == Window(lines, maxLines, maxBytes)
    ensures lines != [] && maxLines >= 1 && |lines[|lines| - 1]| <= maxBytes
            ==> AppendAll(lines, maxLines, maxBytes) != []
                && AppendAll(lines, maxLines, maxBytes)[|AppendAll(lines, maxLines, maxBytes)| - 1] == lines[|lines| - 1]
  {
    if lines != [] {
      var before, last := lines[..|lines| - 1], lines[|lines| - 1];
      RunIsWindowOfHistory(before, maxLines, maxBytes);
      IncrementalWindow(before, last, maxLines, maxBytes);
      assert before + [last] == lines;
      WindowIsLongest(lines, maxLines, maxBytes);
      assert lines[|lines| - 1..] == [last] && Bytes([last]) == |last| + Bytes([last][1..]);
    }
  }

  predicate AllWithin(logs: seq<Text>, max: nat) {
    forall i :: 0 <= i < |logs| ==> Valid(logs[i]) && |logs[i]| <= max
  }

  lemma WindowKeepsLines(logs: seq<Text>, maxLines: nat, maxBytes: nat, max: nat)
    requires AllWithin(logs, max)
    ensures AllWithin(Window(logs, maxLines, maxBytes), max)
  {
    WindowIsLongest(logs, maxLines, maxBytes);
  }

  /** The two trims that follow an append: first by count, then by bytes from the front. */
  method AppendLine(logs: seq<Text>, line: Text, maxLines: nat, maxBytes: nat) returns (r: seq<Text>)
    ensures r == Window(logs + [line], maxLines, maxBytes)
  {
    var all := logs + [line];
    WindowIsLongest(all, maxLines, maxBytes);
    r := all;
    if |r| > maxLines {
      WindowOfSuffix(all, |r| - maxLines, maxLines, maxBytes);
      r := r[|r| - maxLines..];
    }
    while Bytes(r) > maxBytes
      invariant |r| <= maxLines && Window(r, maxLines, maxBytes) == Window(all, maxLines, maxBytes)
      decreases |r|
    {
      r := r[1..];
    }
  }
}
