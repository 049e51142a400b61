/**
 * Line splitting as done by a Go `bufio.Scanner` with its default split
 * function `ScanLines`, reading from a string. Each `char` of a `string`
 * stands for one byte of the Go string.
 *
 * `ScanLines` yields one token per '\n'-terminated line, drops one trailing
 * '\r' from each token, yields a final unterminated line as a token and
 * yields nothing for an empty input. The scanner's buffer is bounded by
 * `MaxScanTokenSize`: once the text in front of the next '\n' (or of the end
 * of the input) is that long, `Scan` fails with `ErrTooLong` and no further
 * token is produced.
 */
module Lines {

  /** `bufio.MaxScanTokenSize`, 64 KiB. */
  const MaxScanTokenSize: nat := 64 * 1024

  /** Position of the first '\n' of `s`, or `|s|` when there is none. */
  function IndexOfNewline(s: string): (i: nat)
    ensures i <= |s|
    ensures i < |s| ==> s[i] == '\n'
    ensures forall k :: 0 <= k < i ==> s[k] != '\n'
  {
    if s == [] then 0
    else if s[0] == '\n' then 0
    else 1 + IndexOfNewline(s[1..])
  }

  /** The text with one trailing '\r' removed, if it has one. */
  function DropCR(s: string): (r: string)
    ensures |s| > 0 && s[|s| - 1] == '\r' ==> r + "\r" == s
    ensures !(|s| > 0 && s[|s| - 1] == '\r') ==> r == s
  {
    if |s| > 0 && s[|s| - 1] == '\r' then s[..|s| - 1] else s
  }

  /** True when `line` can be written out as a line and read back unchanged. */
  predicate IsPlainLine(line: string)
  {
    && '\n' !in line
    && (|line| == 0 || line[|line| - 1] != '\r')
    && |line| < MaxScanTokenSize
  }

  /** The tokens a `bufio.Scanner` with `ScanLines` produces from `s`. */
  function ScanLines(s: string): (lines: seq<string>)
    ensures forall l :: l in lines ==> '\n' !in l && |l| < MaxScanTokenSize
    ensures s == [] ==> lines == []
    decreases |s|
  {
    if s == [] then []
    else
      var i := IndexOfNewline(s);
      if i >= MaxScanTokenSize then []
      else if i == |s| then [DropCR(s)]
      else [DropCR(s[..i])] + ScanLines(s[i + 1..])
  }

  /** Each line followed by one '\n', all concatenated. */
  function Unlines(lines: seq<string>): string
  {
    if lines == [] then "" else lines[0] + "\n" + Unlines(lines[1..])
  }

  lemma {:induction false} UnlinesAppend(a: seq<string>, b: seq<string>)
    ensures Unlines(a + b) == Unlines(a) + Unlines(b)
  {
    if a == [] {
      assert a + b == b;
    } else {
      assert (a + b)[1..] == a[1..] + b;
      UnlinesAppend(a[1..], b);
    }
  }

  /** A line without '\n' is found whole by `IndexOfNewline` when a '\n' follows it. */
  lemma NewlineAfterLine(line: string, rest: string)
    requires '\n' !in line
    ensures IndexOfNewline(line + "\n" + rest) == |line|
  {
    var s := line + "\n" + rest;
    assert s[|line|] == '\n';
  }

  /** One complete short line at the front of the input is the first token. */
  lemma {:induction false} ScanFirstLine(line: string, rest: string)
    requires '\n' !in line && |line| < MaxScanTokenSize
    ensures ScanLines(line + "\n" + rest) == [DropCR(line)] + ScanLines(rest)
  {
    var s := line + "\n" + rest;
    NewlineAfterLine(line, rest);
    assert s[..|line|] == line;
    assert s[|line| + 1..] == rest;
  }

  /**
   * A first line of `MaxScanTokenSize` characters or more makes the scanner
   * stop with `ErrTooLong` before any token, so nothing that follows it is
   * seen.
   */
  lemma {:induction false} LongLineEndsScan(line: string, rest: string)
    requires '\n' !in line && |line| >= MaxScanTokenSize
    ensures ScanLines(line + rest) == []
  {
    var s := line + rest;
    assert forall k :: 0 <= k < |line| ==> s[k] == line[k];
  }

  /**
   * A final line with no '\n' after it is still a token (with one trailing
   * '\r' dropped), as long as it is shorter than `MaxScanTokenSize`.
   */
  lemma ScanLastLine(line: string)
    requires '\n' !in line && 0 < |line| < MaxScanTokenSize
    ensures ScanLines(line) == [DropCR(line)]
  {
    assert forall k :: 0 <= k < |line| ==> line[k] != '\n';
  }

  /** A body ending in an unterminated line: the earlier lines, then that line. */
  lemma ScanEndsWithUnterminated(line: string, last: string)
    requires '\n' !in line && |line| < MaxScanTokenSize
    requires '\n' !in last && 0 < |last| < MaxScanTokenSize
    ensures ScanLines(line + "\n" + last) == [DropCR(line), DropCR(last)]
  {
    ScanFirstLine(line, last);
    ScanLastLine(last);
  }

  /** Round trip: plain lines written out one per line are read back as they were. */
  lemma {:induction false} ScanUnlines(lines: seq<string>)
    requires forall l :: l in lines ==> IsPlainLine(l)
    ensures ScanLines(Unlines(lines)) == lines
  {
    if lines != [] {
      var line := lines[0];
      assert line in lines;
      ScanFirstLine(line, Unlines(lines[1..]));
      assert DropCR(line) == line;
      ScanUnlines(lines[1..]);
    }
  }

  /**
   * Round trip in the other direction: text whose lines are all terminated,
   * do not end in '\r' and are short enough is rebuilt exactly from its
   * tokens.
   */
  lemma {:induction false} UnlinesScan(s: string)
    requires s == [] || s[|s| - 1] == '\n'
    requires forall l :: l in Segments(s) ==> IsPlainLine(l)
    ensures Unlines(ScanLines(s)) == s
    decreases |s|
  {
    if s != [] {
      var i := IndexOfNewline(s);
      assert i < |s|;
      var line, rest := s[..i], s[i + 1..];
      assert s == line + "\n" + rest;
      assert line in Segments(s);
      ScanFirstLine(line, rest);
      assert DropCR(line) == line;
      assert forall l :: l in Segments(rest) ==> l in Segments(s);
      UnlinesScan(rest);
    }
  }

  /** The '\n'-separated pieces of `s`, with no '\r' dropped and no length limit. */
  function Segments(s: string): (segs: seq<string>)
    ensures forall l :: l in segs ==> '\n' !in l
    decreases |s|
  {
    if s == [] then []
    else
      var i := IndexOfNewline(s);
      if i == |s| then [s] else [s[..i]] + Segments(s[i + 1..])
  }
}
