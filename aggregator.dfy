/**
 * The request handler of the metrics combiner: fan out one fetch per
 * configured upstream URL, drain the results in whatever order the fetches
 * complete, keep (and optionally line-filter by prefix) the successful
 * bodies, and decide the response.
 *
 * The goroutines are not modelled as such. The order in which they finish is
 * a parameter, `completion`, which may be any permutation of the URL
 * indices: the k-th fetch to finish is the one for `urls[completion[k]]`, and
 * that is also the order in which its result is received.
 */
module Aggregator {
  import opened Lines
  import opened Fetcher

  const StatusInternalServerError: int := 500
  const NoUpstreamsMessage: string := "No upstream URLs configured."
  const AllFailedMessage: string := "Failed to fetch one or more upstream services."

  /** Status code and body written to the client. */
  datatype Response = Response(status: int, body: string)

  /** `http.Error`: the message, with a newline added, under the given status. */
  function HttpError(msg: string, code: int): Response
  {
    Response(code, msg + "\n")
  }

  // ---------------------------------------------------------------------
  // Line filtering

  /** Some configured prefix is a prefix of `line` (`strings.HasPrefix`). */
  predicate Matches(line: string, prefixes: seq<string>)
  {
    exists p :: p in prefixes && p <= line
  }

  /** `a` is `b` with some elements left out. */
  ghost predicate IsSubsequence<T>(a: seq<T>, b: seq<T>)
    decreases |b|
  {
    if a == [] then true
    else if b == [] then false
    else (a[0] == b[0] && IsSubsequence(a[1..], b[1..])) || IsSubsequence(a, b[1..])
  }

  /** The lines that match some prefix, in their original order. */
  function FilterLines(lines: seq<string>, prefixes: seq<string>): seq<string>
  {
    if lines == [] then []
    else if Matches(lines[0], prefixes) then [lines[0]] + FilterLines(lines[1..], prefixes)
    else FilterLines(lines[1..], prefixes)
  }

  /**
   * The kept lines are exactly the matching ones: each kept line is a line of
   * the input that some prefix matches, every matching line is kept, and they
   * keep their relative order.
   */
  lemma {:induction false} FilterLinesSpec(lines: seq<string>, prefixes: seq<string>)
    ensures var kept := FilterLines(lines, prefixes);
      && IsSubsequence(kept, lines)
      && (forall l :: l in kept ==> l in lines && Matches(l, prefixes))
      && (forall l :: l in lines && Matches(l, prefixes) ==> l in kept)
      && (forall l :: multiset(kept)[l] == if Matches(l, prefixes) then multiset(lines)[l] else 0)
  {
    if lines != [] {
      FilterLinesSpec(lines[1..], prefixes);
      var rest := FilterLines(lines[1..], prefixes);
      assert lines == [lines[0]] + lines[1..];
      assert multiset(lines) == multiset{lines[0]} + multiset(lines[1..]);
      if Matches(lines[0], prefixes) {
        assert ([lines[0]] + rest)[1..] == rest;
        assert multiset([lines[0]] + rest) == multiset{lines[0]} + multiset(rest);
      } else if rest != [] {
        assert IsSubsequence(rest, lines[1..]);
      }
    }
  }

  lemma {:induction false} FilterLinesAppend(a: seq<string>, b: seq<string>, prefixes: seq<string>)
    ensures FilterLines(a + b, prefixes) == FilterLines(a, prefixes) + FilterLines(b, prefixes)
  {
    if a == [] {
      assert a + b == b;
    } else {
      assert (a + b)[0] == a[0];
      assert (a + b)[1..] == a[1..] + b;
      FilterLinesAppend(a[1..], b, prefixes);
    }
  }

  lemma FilterLinesSnoc(lines: seq<string>, line: string, prefixes: seq<string>)
    ensures Unlines(FilterLines(lines + [line], prefixes)) ==
      Unlines(FilterLines(lines, prefixes)) + (if Matches(line, prefixes) then line + "\n" else "")
  {
    FilterLinesAppend(lines, [line], prefixes);
    assert FilterLines([line], prefixes) == if Matches(line, prefixes) then [line] else [];
    UnlinesAppend(FilterLines(lines, prefixes), FilterLines([line], prefixes));
  }

  /** The text filtering the first `j` lines produces. */
  function FilteredPrefix(lines: seq<string>, j: nat, prefixes: seq<string>): string
    requires j <= |lines|
  {
    Unlines(FilterLines(lines[..j], prefixes))
  }

  /** Filtering one more scanned line adds that line's text, if it matches. */
  lemma FilterStep(lines: seq<string>, j: nat, prefixes: seq<string>)
    requires j < |lines|
    ensures FilteredPrefix(lines, j + 1, prefixes) ==
      FilteredPrefix(lines, j, prefixes) + (if Matches(lines[j], prefixes) then lines[j] + "\n" else "")
  {
    assert lines[..j + 1] == lines[..j] + [lines[j]];
    FilterLinesSnoc(lines[..j], lines[j], prefixes);
  }

  /**
   * What one successful body adds to the response: the body itself without
   * prefixes; with prefixes, each scanned line that some prefix matches,
   * followed by a newline. A failed fetch adds nothing.
   */
  function Contribution(prefixes: seq<string>, r: Result): string
  {
    match r
    case Err(_) => ""
    case Ok(body) =>
      if prefixes == [] then body
      else Unlines(FilterLines(ScanLines(body), prefixes))
  }

  /**
   * With prefixes configured, the text a body adds splits at its newlines
   * into exactly the body's matching lines, in order: every piece starts with
   * a prefix, is a line of the body, and is followed by exactly one newline.
   */
  lemma FilteredContribution(prefixes: seq<string>, body: string)
    requires prefixes != []
    ensures var out := Contribution(prefixes, Ok(body));
      && (out == [] || out[|out| - 1] == '\n')
      && Segments(out) == FilterLines(ScanLines(body), prefixes)
      && (forall l :: l in Segments(out) ==> Matches(l, prefixes))
      && IsSubsequence(Segments(out), ScanLines(body))
  {
    var kept := FilterLines(ScanLines(body), prefixes);
    FilterLinesSpec(ScanLines(body), prefixes);
    UnlinesTerminated(kept);
    SegmentsUnlines(kept);
  }

  lemma {:induction false} UnlinesTerminated(lines: seq<string>)
    ensures var s := Unlines(lines); s == [] || s[|s| - 1] == '\n'
  {
    if lines != [] {
      UnlinesTerminated(lines[1..]);
    }
  }

  /** Lines without newlines, written one per line, split back into themselves. */
  lemma {:induction false} SegmentsUnlines(lines: seq<string>)
    requires forall l :: l in lines ==> '\n' !in l
    ensures Segments(Unlines(lines)) == lines
  {
    if lines != [] {
      var line, rest := lines[0], Unlines(lines[1..]);
      assert line in lines;
      var s := line + "\n" + rest;
      NewlineAfterLine(line, rest);
      assert s[..|line|] == line;
      assert s[|line| + 1..] == rest;
      SegmentsUnlines(lines[1..]);
    }
  }

  /**
   * A line that several prefixes match is kept once: its contribution is the
   * line and one newline, however many prefixes match.
   */
  lemma MatchedLineKeptOnce(line: string, prefixes: seq<string>, i: nat, j: nat)
    requires IsPlainLine(line)
    requires i < j < |prefixes| && prefixes[i] <= line && prefixes[j] <= line
    ensures Contribution(prefixes, Ok(line + "\n")) == line + "\n"
  {
    assert prefixes[i] in prefixes;
    ScanFirstLine(line, "");
    assert line + "\n" + "" == line + "\n";
    assert DropCR(line) == line;
    assert ScanLines(line + "\n") == [line];
    assert FilterLines([line], prefixes) == [line];
    assert Unlines([line]) == line + "\n" + "";
  }

  /** Filtering an already filtered body gives the same text again. */
  lemma {:induction false} FilterIdempotent(prefixes: seq<string>, body: string)
    requires prefixes != []
    requires forall l :: l in ScanLines(body) ==> IsPlainLine(l)
    ensures var out := Contribution(prefixes, Ok(body));
      Contribution(prefixes, Ok(out)) == out
  {
    var lines := ScanLines(body);
    var kept := FilterLines(lines, prefixes);
    FilterLinesSpec(lines, prefixes);
    ScanUnlines(kept);
    FilterKeepsMatching(kept, prefixes);
  }

  lemma {:induction false} FilterKeepsMatching(lines: seq<string>, prefixes: seq<string>)
    requires forall l :: l in lines ==> Matches(l, prefixes)
    ensures FilterLines(lines, prefixes) == lines
  {
    if lines != [] {
      assert lines[0] in lines;
      FilterKeepsMatching(lines[1..], prefixes);
    }
  }

  // ---------------------------------------------------------------------
  // Collecting the drained results

  /** Each drained result's contribution, in drain order. */
  function Contributions(prefixes: seq<string>, drained: seq<Result>): seq<string>
  {
    seq(|drained|, k requires 0 <= k < |drained| => Contribution(prefixes, drained[k]))
  }

  /** The pieces one after the other. */
  function Concat(parts: seq<string>): string
  {
    if parts == [] then "" else parts[0] + Concat(parts[1..])
  }

  lemma {:induction false} ConcatAppend(a: seq<string>, b: seq<string>)
    ensures Concat(a + b) == Concat(a) + Concat(b)
  {
    if a == [] {
      assert a + b == b;
    } else {
      assert (a + b)[1..] == a[1..] + b;
      ConcatAppend(a[1..], b);
    }
  }

  /** The accumulated response body after draining `drained`. */
  function Aggregate(prefixes: seq<string>, drained: seq<Result>): string
  {
    Concat(Contributions(prefixes, drained))
  }

  lemma AggregateAppend(prefixes: seq<string>, a: seq<Result>, b: seq<Result>)
    ensures Aggregate(prefixes, a + b) == Aggregate(prefixes, a) + Aggregate(prefixes, b)
  {
    assert Contributions(prefixes, a + b) == Contributions(prefixes, a) + Contributions(prefixes, b);
    ConcatAppend(Contributions(prefixes, a), Contributions(prefixes, b));
  }

  lemma AggregateCons(prefixes: seq<string>, r: Result, rest: seq<Result>)
    ensures Aggregate(prefixes, [r] + rest) == Contribution(prefixes, r) + Aggregate(prefixes, rest)
  {
    assert Contributions(prefixes, [r] + rest) == [Contribution(prefixes, r)] + Contributions(prefixes, rest);
  }

  lemma AggregateSnoc(prefixes: seq<string>, drained: seq<Result>, r: Result)
    ensures Aggregate(prefixes, drained + [r]) == Aggregate(prefixes, drained) + Contribution(prefixes, r)
  {
    AggregateAppend(prefixes, drained, [r]);
    AggregateCons(prefixes, r, []);
    assert [r] + [] == [r];
  }

  /** Draining one more result adds its contribution and, if it failed, one error. */
  lemma DrainStep(prefixes: seq<string>, drained: seq<Result>, i: nat)
    requires i < |drained|
    ensures Aggregate(prefixes, drained[..i + 1]) == Aggregate(prefixes, drained[..i]) + Contribution(prefixes, drained[i])
    ensures FailureCount(drained[..i + 1]) == FailureCount(drained[..i]) + (if drained[i].Err? then 1 else 0)
  {
    assert drained[..i + 1] == drained[..i] + [drained[i]];
    AggregateSnoc(prefixes, drained[..i], drained[i]);
    FailureCountAppend(drained[..i], [drained[i]]);
  }

  /**
   * Each drained result's contribution appears whole in the accumulated body,
   * between what the results drained before it and after it contribute.
   */
  lemma AggregateAt(prefixes: seq<string>, drained: seq<Result>, k: nat)
    requires k < |drained|
    ensures Aggregate(prefixes, drained) ==
      Aggregate(prefixes, drained[..k]) + Contribution(prefixes, drained[k]) + Aggregate(prefixes, drained[k + 1..])
  {
    assert drained == drained[..k] + ([drained[k]] + drained[k + 1..]);
    AggregateAppend(prefixes, drained[..k], [drained[k]] + drained[k + 1..]);
    AggregateCons(prefixes, drained[k], drained[k + 1..]);
  }

  /** The bodies of the successful results, in order. */
  function SuccessBodies(rs: seq<Result>): seq<string>
  {
    if rs == [] then []
    else if rs[0].Ok? then [rs[0].body] + SuccessBodies(rs[1..])
    else SuccessBodies(rs[1..])
  }

  /**
   * Without prefixes the response body is the successful bodies verbatim, one
   * after the other in drain order; failures add nothing.
   */
  lemma {:induction false} AggregateWithoutPrefixes(drained: seq<Result>)
    ensures Aggregate([], drained) == Concat(SuccessBodies(drained))
  {
    if drained != [] {
      assert drained == [drained[0]] + drained[1..];
      AggregateCons([], drained[0], drained[1..]);
      AggregateWithoutPrefixes(drained[1..]);
    }
  }

  /** Failed results contribute nothing: only the successes make up the body. */
  lemma {:induction false} FailuresContributeNothing(prefixes: seq<string>, drained: seq<Result>)
    ensures Aggregate(prefixes, drained) == Aggregate(prefixes, Successes(drained))
  {
    if drained != [] {
      var r := drained[0];
      assert drained == [r] + drained[1..];
      AggregateCons(prefixes, r, drained[1..]);
      FailuresContributeNothing(prefixes, drained[1..]);
      if r.Ok? {
        AggregateCons(prefixes, r, Successes(drained[1..]));
      }
    }
  }

  /** The successful results, in order. */
  function Successes(rs: seq<Result>): seq<Result>
  {
    if rs == [] then []
    else if rs[0].Ok? then [rs[0]] + Successes(rs[1..])
    else Successes(rs[1..])
  }

  /** The number of failed results (the length of the `errors` slice). */
  function FailureCount(rs: seq<Result>): (n: nat)
    ensures n <= |rs|
  {
    if rs == [] then 0 else (if rs[0].Err? then 1 else 0) + FailureCount(rs[1..])
  }

  lemma {:induction false} FailureCountAppend(a: seq<Result>, b: seq<Result>)
    ensures FailureCount(a + b) == FailureCount(a) + FailureCount(b)
  {
    if a == [] {
      assert a + b == b;
    } else {
      assert (a + b)[1..] == a[1..] + b;
      FailureCountAppend(a[1..], b);
    }
  }

  /** Every result is a failure. */
  predicate AllFailed(rs: seq<Result>)
  {
    forall k :: 0 <= k < |rs| ==> rs[k].Err?
  }

  /** Counting failures up to the number of results means all failed. */
  lemma {:induction false} AllFailedByCount(rs: seq<Result>)
    ensures FailureCount(rs) == |rs| <==> AllFailed(rs)
  {
    if rs != [] {
      AllFailedByCount(rs[1..]);
      if AllFailed(rs) {
        assert AllFailed(rs[1..]) by {
          forall k | 0 <= k < |rs| - 1 ensures rs[1..][k].Err? {
            assert rs[1..][k] == rs[k + 1];
          }
        }
      }
      if FailureCount(rs) == |rs| {
        assert rs[0].Err?;
        forall k | 0 <= k < |rs| ensures rs[k].Err? {
          if k > 0 {
            assert rs[k] == rs[1..][k - 1];
          }
        }
      }
    }
  }

  // ---------------------------------------------------------------------
  // The response decision

  /**
   * The response for `urlCount` configured URLs whose results were drained
   * as `drained` (one per URL).
   */
  function Respond(urlCount: nat, prefixes: seq<string>, drained: seq<Result>): (resp: Response)
    requires |drained| == urlCount
    ensures urlCount == 0 ==>
      resp == Response(StatusInternalServerError, "No upstream URLs configured.\n")
    ensures urlCount > 0 && AllFailed(drained) ==>
      resp == Response(StatusInternalServerError, "Failed to fetch one or more upstream services.\n")
    ensures urlCount > 0 && !AllFailed(drained) ==>
      resp == Response(StatusOK, Aggregate(prefixes, drained))
  {
    AllFailedByCount(drained);
    if urlCount == 0 then HttpError(NoUpstreamsMessage, StatusInternalServerError)
    else if FailureCount(drained) == urlCount then HttpError(AllFailedMessage, StatusInternalServerError)
    else Response(StatusOK, Aggregate(prefixes, drained))
  }

  // ---------------------------------------------------------------------
  // Fan-out and drain order

  /** The result each URL's fetch produces, in URL order. */
  function Outcomes(urls: seq<string>, exchanges: seq<Exchange>): (rs: seq<Result>)
    requires |exchanges| == |urls|
    ensures |rs| == |urls|
  {
    seq(|urls|, i requires 0 <= i < |urls| => Fetch(urls[i], exchanges[i]))
  }

  /** `order` lists each of the indices 0 .. n-1 exactly once. */
  predicate IsPermutation(order: seq<nat>, n: nat)
  {
    && |order| == n
    && (forall k :: 0 <= k < n ==> order[k] < n)
    && (forall a, b :: 0 <= a < b < n ==> order[a] != order[b])
  }

  /** The elements of `xs` in the order the indices in `order` give. */
  function Reorder<T>(xs: seq<T>, order: seq<nat>): (ys: seq<T>)
    requires forall k :: 0 <= k < |order| ==> order[k] < |xs|
    ensures |ys| == |order|
  {
    seq(|order|, k requires 0 <= k < |order| => xs[order[k]])
  }

  /** Reordering by a permutation keeps every element, as often as before. */
  lemma {:induction false} ReorderMultiset<T>(xs: seq<T>, order: seq<nat>)
    requires IsPermutation(order, |xs|)
    ensures multiset(Reorder(xs, order)) == multiset(xs)
    decreases |xs|
  {
    if |xs| > 0 {
      var n := |xs|;
      var j := order[0];
      var xs' := xs[..j] + xs[j + 1..];
      var order' := seq(n - 1, k requires 0 <= k < n - 1 =>
        if order[k + 1] < j then order[k + 1] else order[k + 1] - 1);
      forall k | 0 <= k < n - 1 ensures order'[k] < n - 1 && xs'[order'[k]] == xs[order[k + 1]] {
        assert order[k + 1] != order[0];
      }
      forall a, b | 0 <= a < b < n - 1 ensures order'[a] != order'[b] {
        assert order[a + 1] != order[b + 1];
      }
      ReorderMultiset(xs', order');
      var ys := Reorder(xs, order);
      assert ys == [xs[j]] + Reorder(xs', order');
      assert xs == xs[..j] + [xs[j]] + xs[j + 1..];
    }
  }

  /**
   * The order in which fetches complete changes only the order of the
   * contributions: for any two completion orders the response has the same
   * status, the same multiset of per-result contributions, and the error
   * responses are identical.
   */
  lemma DrainOrderIrrelevant(urls: seq<string>, exchanges: seq<Exchange>, prefixes: seq<string>,
                             c1: seq<nat>, c2: seq<nat>)
    requires |exchanges| == |urls|
    requires IsPermutation(c1, |urls|) && IsPermutation(c2, |urls|)
    ensures var outcomes := Outcomes(urls, exchanges);
      var d1, d2 := Reorder(outcomes, c1), Reorder(outcomes, c2);
      && Respond(|urls|, prefixes, d1).status == Respond(|urls|, prefixes, d2).status
      && multiset(Contributions(prefixes, d1)) == multiset(Contributions(prefixes, d2))
      && (Respond(|urls|, prefixes, d1).status != StatusOK ==>
            Respond(|urls|, prefixes, d1) == Respond(|urls|, prefixes, d2))
  {
    var outcomes := Outcomes(urls, exchanges);
    DrainedLikeOutcomes(outcomes, prefixes, c1);
    DrainedLikeOutcomes(outcomes, prefixes, c2);
  }

  /** A drain in any completion order fails entirely exactly when every URL failed,
      and contributes what the URLs' results contribute. */
  lemma DrainedLikeOutcomes(outcomes: seq<Result>, prefixes: seq<string>, order: seq<nat>)
    requires IsPermutation(order, |outcomes|)
    ensures AllFailed(Reorder(outcomes, order)) <==> AllFailed(outcomes)
    ensures multiset(Contributions(prefixes, Reorder(outcomes, order))) ==
            multiset(Contributions(prefixes, outcomes))
  {
    var drained := Reorder(outcomes, order);
    ReorderMultiset(outcomes, order);
    var cs := Contributions(prefixes, outcomes);
    assert Contributions(prefixes, drained) == Reorder(cs, order);
    ReorderMultiset(cs, order);
    if !AllFailed(outcomes) {
      var i :| 0 <= i < |outcomes| && outcomes[i].Ok?;
      assert outcomes[i] in multiset(drained);
      var k :| 0 <= k < |drained| && drained[k] == outcomes[i];
    }
    if !AllFailed(drained) {
      var k :| 0 <= k < |drained| && drained[k].Ok?;
      assert drained[k] in multiset(outcomes);
      var i :| 0 <= i < |outcomes| && outcomes[i] == drained[k];
    }
  }

  /**
   * Whatever the completion order, the contribution of every URL whose fetch
   * succeeded appears whole in the 200 response's body.
   */
  lemma SuccessAppears(urls: seq<string>, exchanges: seq<Exchange>, prefixes: seq<string>,
                       completion: seq<nat>, i: nat)
    requires |exchanges| == |urls|
    requires IsPermutation(completion, |urls|)
    requires i < |urls| && Outcomes(urls, exchanges)[i].Ok?
    ensures var outcomes := Outcomes(urls, exchanges);
      var drained := Reorder(outcomes, completion);
      var resp := Respond(|urls|, prefixes, drained);
      && resp.status == StatusOK
      && exists k :: 0 <= k < |drained| && drained[k] == outcomes[i] &&
           resp.body == Aggregate(prefixes, drained[..k]) + Contribution(prefixes, outcomes[i])
                        + Aggregate(prefixes, drained[k + 1..])
  {
    var outcomes := Outcomes(urls, exchanges);
    var drained := Reorder(outcomes, completion);
    ReorderMultiset(outcomes, completion);
    assert outcomes[i] in multiset(drained);
    var k :| 0 <= k < |drained| && drained[k] == outcomes[i];
    AggregateAt(prefixes, drained, k);
  }

  // ---------------------------------------------------------------------
  // The handler

  /**
   * The prefix loop for one scanned line: try the prefixes in order and, on
   * the first that the line starts with, append the line and a newline and
   * stop, so that a line several prefixes match is written once.
   */
  method AppendIfMatches(acc: string, line: string, prefixes: seq<string>) returns (out: string)
    ensures Matches(line, prefixes) ==> out == acc + line + "\n"
    ensures !Matches(line, prefixes) ==> out == acc
  {
    out := acc;
    var q := 0;
    while q < |prefixes|
      invariant 0 <= q <= |prefixes|
      invariant forall q' :: 0 <= q' < q ==> !(prefixes[q'] <= line)
      invariant out == acc
    {
      if prefixes[q] <= line {
        out := out + line;
        out := out + "\n";
        assert prefixes[q] in prefixes;
        break;
      }
      q := q + 1;
    }
  }

  /**
   * The filtering branch of the drain loop: scan `body` line by line and,
   * for each line, try the prefixes in order; on the first that matches,
   * append the line and a newline and stop trying.
   */
  method AppendFiltered(acc: string, body: string, prefixes: seq<string>) returns (out: string)
    requires prefixes != []
    ensures out == acc + Unlines(FilterLines(ScanLines(body), prefixes))
  {
    out := acc;
    var lines := ScanLines(body);
    var j := 0;
    while j < |lines|
      invariant 0 <= j <= |lines|
      invariant out == acc + FilteredPrefix(lines, j, prefixes)
    {
      var line := lines[j];
      out := AppendIfMatches(out, line, prefixes);
      FilterStep(lines, j, prefixes);
      j := j + 1;
    }
    assert lines[..|lines|] == lines;
    assert FilteredPrefix(lines, |lines|, prefixes) == Unlines(FilterLines(lines, prefixes));
  }

  /**
   * `aggregatorHandler`: with no URLs, the configuration error; otherwise
   * one fetch per URL, finishing in `completion` order, each sending its
   * result on a channel with one slot per URL; the channel is closed once all
   * have sent, and its results are drained in order. Failures are collected
   * in `errors`; successes are appended verbatim, or line by line through the
   * prefix filter (first matching prefix wins). If every result was an error,
   * the total-failure response; otherwise 200 and the accumulated text.
   */
  method AggregatorHandler(urls: seq<string>, prefixes: seq<string>,
                           exchanges: seq<Exchange>, completion: seq<nat>)
    returns (resp: Response, ghost fetched: seq<nat>, ghost channelMade: bool)
    requires |exchanges| == |urls|
    requires IsPermutation(completion, |urls|)
    ensures resp == Respond(|urls|, prefixes, Reorder(Outcomes(urls, exchanges), completion))
    ensures fetched == completion
    ensures channelMade <==> |urls| > 0
    ensures |urls| == 0 ==> fetched == []
  {
    fetched, channelMade := [], false;
    if |urls| == 0 {
      resp := HttpError(NoUpstreamsMessage, StatusInternalServerError);
      return;
    }
    ghost var drained := Reorder(Outcomes(urls, exchanges), completion);

    var ch := new Channel(|urls|);
    channelMade := true;
    for k := 0 to |urls|
      invariant !ch.closed && ch.capacity == |urls|
      invariant ch.buffer == drained[..k]
      invariant fetched == completion[..k]
    {
      var u := completion[k];
      FetchURL(urls[u], exchanges[u], ch);
      fetched := fetched + [u];
      assert drained[..k + 1] == drained[..k] + [drained[k]];
    }
    ch.Close();

    var concatenated := "";
    var errors: seq<string> := [];
    ghost var received := 0;
    while true
      invariant ch.closed
      invariant 0 <= received <= |drained| && ch.buffer == drained[received..]
      invariant concatenated == Aggregate(prefixes, drained[..received])
      invariant |errors| == FailureCount(drained[..received])
      decreases |ch.buffer|
    {
      var res, ok := ch.Receive();
      if !ok {
        break;
      }
      DrainStep(prefixes, drained, received);
      received := received + 1;

      if res.Err? {
        errors := errors + [res.err];
        continue;
      }

      if |prefixes| == 0 {
        concatenated := concatenated + res.body;
      } else {
        concatenated := AppendFiltered(concatenated, res.body, prefixes);
      }
    }
    assert drained[..received] == drained;
    assert completion[..|urls|] == completion;

    if |errors| == |urls| {
      resp := HttpError(AllFailedMessage, StatusInternalServerError);
      return;
    }
    resp := Response(StatusOK, concatenated);
  }
}
