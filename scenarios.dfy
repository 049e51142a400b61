/**
 * The handler's behaviour on the upstreams of the repository's handler tests:
 * two healthy servers with two metric lines each, a server answering 500,
 * and an address nothing listens on. Each statement holds for every order
 * in which the fetches can complete.
 */
module Scenarios {
  import opened Lines
  import opened Fetcher
  import opened Aggregator

  const MetricA: string := "metric_a 1"
  const MetricB: string := "metric_b 2"
  const MetricC: string := "metric_c 3"
  const AnotherMetric: string := "another_metric 4"

  /** "metric_a 1\nmetric_b 2\n" */
  const Body1: string := MetricA + "\n" + MetricB + "\n"
  /** "metric_c 3\nanother_metric 4\n" */
  const Body2: string := MetricC + "\n" + AnotherMetric + "\n"

  const Healthy1: Exchange := Reply(200, "200 OK", Read(Body1))
  const Healthy2: Exchange := Reply(200, "200 OK", Read(Body2))
  const Broken: Exchange := Reply(500, "500 Internal Server Error", Read("internal server error\n"))
  const Unreachable: Exchange := TransportError("connection refused")

  /** The response for two upstreams answering `ex1` and `ex2`, completing in `completion` order. */
  function TwoUpstreams(prefixes: seq<string>, ex1: Exchange, ex2: Exchange, completion: seq<nat>): Response
    requires IsPermutation(completion, 2)
  {
    Respond(2, prefixes, Reorder(Outcomes(["http://one/metrics", "http://two/metrics"], [ex1, ex2]), completion))
  }

  /** Two completion orders exist for two fetches. */
  lemma TwoOrders(completion: seq<nat>)
    requires IsPermutation(completion, 2)
    ensures completion == [0, 1] || completion == [1, 0]
  {
    assert completion[0] != completion[1];
  }

  /** A body of two plain, terminated lines scans into those two lines. */
  lemma ScanTwoLines(body: string, l1: string, l2: string)
    requires IsPlainLine(l1) && IsPlainLine(l2)
    requires body == l1 + "\n" + l2 + "\n"
    ensures ScanLines(body) == [l1, l2]
  {
    assert [l1, l2][1..] == [l2];
    assert Unlines([l2]) == l2 + "\n" + Unlines([]);
    assert Unlines([l1, l2]) == body;
    ScanUnlines([l1, l2]);
  }

  /** What a two-line body contributes under a filter. */
  lemma FilterTwoLines(prefixes: seq<string>, body: string, l1: string, l2: string)
    requires prefixes != [] && IsPlainLine(l1) && IsPlainLine(l2)
    requires body == l1 + "\n" + l2 + "\n"
    ensures Contribution(prefixes, Ok(body)) ==
      (if Matches(l1, prefixes) then l1 + "\n" else "") + (if Matches(l2, prefixes) then l2 + "\n" else "")
  {
    ScanTwoLines(body, l1, l2);
    FilterLinesSnoc([l1], l2, prefixes);
    FilterLinesSnoc([], l1, prefixes);
    assert [] + [l1] == [l1];
    assert [l1] + [l2] == [l1, l2];
  }

  /** A prefix that differs from a line at position `k` does not match it. */
  lemma DiffersAt(prefix: string, line: string, k: nat)
    requires k < |prefix| && k < |line| && prefix[k] != line[k]
    ensures !(prefix <= line)
  {
  }

  /** The response from two results, whichever of them was drained first. */
  lemma TwoDrained(r1: Result, r2: Result, completion: seq<nat>)
    requires IsPermutation(completion, 2)
    ensures var drained := Reorder([r1, r2], completion);
      drained == [r1, r2] || drained == [r2, r1]
  {
    TwoOrders(completion);
  }

  lemma AggregateTwo(prefixes: seq<string>, r1: Result, r2: Result)
    ensures Aggregate(prefixes, [r1, r2]) == Contribution(prefixes, r1) + Contribution(prefixes, r2)
  {
    AggregateCons(prefixes, r1, [r2]);
    AggregateCons(prefixes, r2, []);
    assert [r1] + [r2] == [r1, r2];
    assert [r2] + [] == [r2];
  }

  /** Two upstreams answering 200: the two contributions, in completion order. */
  lemma TwoHealthy(prefixes: seq<string>, body1: string, body2: string, completion: seq<nat>)
    requires IsPermutation(completion, 2)
    ensures var resp := TwoUpstreams(prefixes, Reply(200, "200 OK", Read(body1)), Reply(200, "200 OK", Read(body2)), completion);
      var c1, c2 := Contribution(prefixes, Ok(body1)), Contribution(prefixes, Ok(body2));
      resp.status == 200 && (resp.body == c1 + c2 || resp.body == c2 + c1)
  {
    var outcomes := Outcomes(["http://one/metrics", "http://two/metrics"],
                             [Reply(200, "200 OK", Read(body1)), Reply(200, "200 OK", Read(body2))]);
    assert outcomes == [Ok(body1), Ok(body2)];
    TwoDrained(Ok(body1), Ok(body2), completion);
    var drained := Reorder(outcomes, completion);
    assert drained[0].Ok?;
    AggregateTwo(prefixes, Ok(body1), Ok(body2));
    AggregateTwo(prefixes, Ok(body2), Ok(body1));
  }

  /** Two healthy upstreams, no filter: both bodies verbatim, in either order. */
  lemma HealthyNoFilter(completion: seq<nat>)
    requires IsPermutation(completion, 2)
    ensures var resp := TwoUpstreams([], Healthy1, Healthy2, completion);
      resp.status == 200 && (resp.body == Body1 + Body2 || resp.body == Body2 + Body1)
  {
    TwoHealthy([], Body1, Body2, completion);
  }

  const OnePrefix: seq<string> := ["metric_"]
  const TwoPrefixes: seq<string> := ["metric_a", "another_"]

  lemma OnePrefixBody1()
    ensures Contribution(OnePrefix, Ok(Body1)) == MetricA + "\n" + MetricB + "\n"
  {
    assert "metric_" in OnePrefix;
    assert Matches(MetricA, OnePrefix) && Matches(MetricB, OnePrefix);
    FilterTwoLines(OnePrefix, Body1, MetricA, MetricB);
  }

  lemma OnePrefixBody2()
    ensures Contribution(OnePrefix, Ok(Body2)) == MetricC + "\n"
  {
    assert "metric_" in OnePrefix;
    assert Matches(MetricC, OnePrefix);
    DiffersAt("metric_", AnotherMetric, 0);
    assert !Matches(AnotherMetric, OnePrefix);
    FilterTwoLines(OnePrefix, Body2, MetricC, AnotherMetric);
  }

  lemma TwoPrefixesBody1()
    ensures Contribution(TwoPrefixes, Ok(Body1)) == MetricA + "\n"
  {
    assert "metric_a" in TwoPrefixes;
    assert Matches(MetricA, TwoPrefixes);
    DiffersAt("metric_a", MetricB, 7);
    DiffersAt("another_", MetricB, 0);
    assert !Matches(MetricB, TwoPrefixes);
    FilterTwoLines(TwoPrefixes, Body1, MetricA, MetricB);
  }

  lemma TwoPrefixesBody2()
    ensures Contribution(TwoPrefixes, Ok(Body2)) == AnotherMetric + "\n"
  {
    assert "another_" in TwoPrefixes;
    assert Matches(AnotherMetric, TwoPrefixes);
    DiffersAt("metric_a", MetricC, 7);
    DiffersAt("another_", MetricC, 0);
    assert !Matches(MetricC, TwoPrefixes);
    FilterTwoLines(TwoPrefixes, Body2, MetricC, AnotherMetric);
  }

  /** Two healthy upstreams, prefix "metric_": the three metric_ lines, not another_metric. */
  lemma HealthyOnePrefix(completion: seq<nat>)
    requires IsPermutation(completion, 2)
    ensures var resp := TwoUpstreams(OnePrefix, Healthy1, Healthy2, completion);
      && resp.status == 200
      && (resp.body == (MetricA + "\n" + MetricB + "\n") + (MetricC + "\n") ||
          resp.body == (MetricC + "\n") + (MetricA + "\n" + MetricB + "\n"))
  {
    OnePrefixBody1();
    OnePrefixBody2();
    TwoHealthy(OnePrefix, Body1, Body2, completion);
  }

  /** Two healthy upstreams, prefixes "metric_a" and "another_": exactly those two lines. */
  lemma HealthyTwoPrefixes(completion: seq<nat>)
    requires IsPermutation(completion, 2)
    ensures var resp := TwoUpstreams(TwoPrefixes, Healthy1, Healthy2, completion);
      && resp.status == 200
      && (resp.body == (MetricA + "\n") + (AnotherMetric + "\n") ||
          resp.body == (AnotherMetric + "\n") + (MetricA + "\n"))
  {
    TwoPrefixesBody1();
    TwoPrefixesBody2();
    TwoHealthy(TwoPrefixes, Body1, Body2, completion);
  }

  /** One healthy and one failing upstream: 200 with the healthy body alone. */
  lemma OneHealthyOneFailing(completion: seq<nat>)
    requires IsPermutation(completion, 2)
    ensures TwoUpstreams([], Healthy1, Broken, completion) == Response(200, Body1)
  {
    var outcomes := Outcomes(["http://one/metrics", "http://two/metrics"], [Healthy1, Broken]);
    assert outcomes[0] == Ok(Body1) && outcomes[1].Err?;
    TwoDrained(outcomes[0], outcomes[1], completion);
    assert outcomes == [outcomes[0], outcomes[1]];
    AggregateTwo([], outcomes[0], outcomes[1]);
    AggregateTwo([], outcomes[1], outcomes[0]);
  }

  /** A failing and an unreachable upstream: the fixed total-failure response. */
  lemma AllFailing(completion: seq<nat>)
    requires IsPermutation(completion, 2)
    ensures TwoUpstreams([], Broken, Unreachable, completion) ==
      Response(500, "Failed to fetch one or more upstream services.\n")
  {
    var outcomes := Outcomes(["http://one/metrics", "http://two/metrics"], [Broken, Unreachable]);
    assert outcomes[0].Err? && outcomes[1].Err?;
    TwoDrained(outcomes[0], outcomes[1], completion);
    assert outcomes == [outcomes[0], outcomes[1]];
  }

  /** No upstreams: the fixed configuration-error response. */
  lemma NoUpstreams(prefixes: seq<string>)
    ensures Respond(0, prefixes, Reorder(Outcomes([], []), [])) ==
      Response(500, "No upstream URLs configured.\n")
  {
  }
}
