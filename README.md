# Metrics combiner: a Dafny model of the request handler

The system is a small HTTP proxy for Prometheus-style metrics. On each request
to its endpoint it fetches every configured upstream URL concurrently. It keeps
the bodies of the fetches that succeeded, optionally keeping only the lines
that start with one of the configured prefixes, and returns them concatenated.
It returns a fixed error when no URL is configured or when every fetch failed.

The model covers `main.go`:

- `lines.dfy` (module `Lines`) models the line splitting the handler gets from
  `bufio.Scanner` with its default `ScanLines` split function:
  - split at `'\n'`, drop one trailing `'\r'` per line;
  - a final unterminated line is still a line; an empty body has no lines;
  - the scanner's 64 KiB token limit is modelled too: a line of 65536
    characters or more ends the scan, and since the handler never checks
    `scanner.Err()`, the rest of that body is silently skipped
    (`LongLineEndsScan`).
- `fetcher.dfy` (module `Fetcher`) models `fetchURL` and the `result` record.
  - What the network answered is an `Exchange` value: a transport error, or a
    status code, a status text and the outcome of reading the body.
  - `Fetch` maps it to exactly one `Result`.
  - `FetchURL` sends that result on a `Channel`, a class standing for the
    request's buffered Go channel.
- `aggregator.dfy` (module `Aggregator`) models `aggregatorHandler`.
  - The concurrency is reduced to one parameter, `completion`. It is any
    permutation of the URL indices and gives the order in which the fetches
    finish and their results are received.
  - `AggregatorHandler` is the imperative handler: fan-out loop, channel
    close, drain loop with an `errors` list and an accumulated body, the
    scanner loop (`AppendFiltered`) and the prefix loop with its `break`
    (`AppendIfMatches`), then the status decision.
  - It is proved equal to the specification function `Respond`. The lemmas
    about `Respond`, `Aggregate` and `FilterLines` state what the handler
    promises.
- `flags.dfy` (module `Flags`) models `stringList.Set`, the repeatable
  `-url` / `-prefix` flag.
- `scenarios.dfy` (module `Scenarios`) restates the repository's handler tests
  (`main_test.go`) as lemmas about the model. Each holds for both completion
  orders.

Only status 200 counts as success, not any 2xx status (`main.go:31`).
Successful bodies appear in the order their results are received, which is
the order the fetches complete, not the order of the URLs. The handler tests
in `main_test.go` write their expected bodies in URL order, but for 200
responses they check only that each expected line is present
(main_test.go:98-106). The scenario lemmas state the exact body for both
completion orders. A character of a
Dafny `string` stands for one byte of a Go string.

## Model

| member | source | states |
|---|---|---|
| `Lines.ScanLines` | main.go:100-102 | Every token the scanner yields is free of `'\n'` and shorter than the 64 KiB token limit; an empty body yields no tokens |
| `Lines.ScanFirstLine` | main.go:100-102 | A complete line shorter than the limit at the front of the input is the first token (with one trailing `'\r'` dropped), and scanning continues right after its `'\n'` |
| `Lines.ScanLastLine` | main.go:100-102 | A final line not followed by `'\n'` and shorter than the limit is still a token, with one trailing `'\r'` dropped |
| `Lines.ScanEndsWithUnterminated` | main.go:100-102 | A body whose last line has no `'\n'` yields its terminated line, then the unterminated one |
| `Lines.LongLineEndsScan` | main.go:100-101 | A first line of 65536 characters or more yields no token at all, so nothing after it in that body is seen |
| `Lines.ScanUnlines` | main.go:100-102 | Round trip: lines without `'\n'`, without a trailing `'\r'` and under the limit, written one per line, scan back into exactly those lines |
| `Lines.UnlinesScan` | main.go:100-102 | Round trip the other way: a `'\n'`-terminated text whose lines do not end in `'\r'` and are under the limit is rebuilt exactly from its tokens |
| `Fetcher.Fetch` | main.go:21-43 | The result is a success exactly when there was no transport error, the status code is exactly 200 and the body was read. A success carries the whole body. A non-200 status gives an error whose message contains "bad status" |
| `Fetcher.FetchURL` | main.go:21-43 | Every path sends exactly one result on the channel, the one `Fetch` gives, and leaves the channel open |
| `Fetcher.Channel.constructor` | main.go:71 | A new buffered channel with one slot per URL is empty and open |
| `Fetcher.Channel.Send` | main.go:26 | A send on an open channel with room appends the result to the buffered results |
| `Fetcher.Channel.Close` | main.go:79-82 | Closing keeps the buffered results |
| `Fetcher.Channel.Receive` | main.go:88 | A receive yields the oldest buffered result; once the channel is closed and empty it reports that, with the zero result (empty body, no error), which ends the `range` loop |
| `Aggregator.FilterLinesSpec` | main.go:100-110 | The kept lines are a subsequence of the body's lines (same relative order), each kept line matches some prefix, and every matching line is kept exactly as many times as it occurs in the body (a line that does not match is never kept) |
| `Aggregator.AppendIfMatches` | main.go:103-109 | Trying the prefixes in order with `break` on the first match appends the line and one `"\n"` when some prefix matches and nothing otherwise, so a line is written once however many prefixes match |
| `Aggregator.AppendFiltered` | main.go:99-111 | The scanner loop appends exactly the newline-terminated matching lines of the body, in order |
| `Aggregator.FilteredContribution` | main.go:99-111 | With prefixes, what a body adds ends in `'\n'` (or is empty). Split at `'\n'` it gives exactly the kept lines: each starts with a prefix, each is followed by exactly one newline, and they keep the body's order |
| `Aggregator.MatchedLineKeptOnce` | main.go:103-108 | For a one-line body, a line that two different prefixes match is emitted once, followed by one newline (for any body, `FilterLinesSpec` gives each line's exact count) |
| `Aggregator.FilterIdempotent` | main.go:99-111 | Filtering the filtered text again with the same prefixes gives the same text, when no scanned line still ends in `'\r'` (a body with `"\r\n"` line endings qualifies) |
| `Aggregator.AggregateWithoutPrefixes` | main.go:95-97 | Without prefixes the accumulated body is the successful bodies verbatim, concatenated in drain order |
| `Aggregator.FailuresContributeNothing` | main.go:89-93 | Failed results add nothing: the accumulated body equals that of the successful results alone |
| `Aggregator.AggregateAt` | main.go:88-112 | Each drained result's contribution appears whole in the accumulated body, between the contributions of the results drained before and after it |
| `Aggregator.AllFailedByCount` | main.go:115 | The count of errors equals the number of results exactly when every result is an error |
| `Aggregator.Respond` | main.go:65-121 | No URLs: 500 with exactly "No upstream URLs configured.\n". Every result failed: 500 with exactly "Failed to fetch one or more upstream services.\n", with nothing from any upstream. Otherwise: 200 with the concatenated contributions |
| `Aggregator.ReorderMultiset` | main.go:74-88 | Receiving results in any completion order keeps every result, as often as it was produced |
| `Aggregator.DrainedLikeOutcomes` | main.go:74-118 | In any completion order, all drained results fail exactly when all URLs' fetches failed, and the multiset of contributions is that of the URLs' results |
| `Aggregator.DrainOrderIrrelevant` | main.go:70-121 | For two completion orders, the status and the multiset of contributions are the same, and the error responses are identical |
| `Aggregator.SuccessAppears` | main.go:88-121 | Whatever the completion order, the response is 200 when a URL's fetch succeeded, and that URL's contribution appears whole in the body |
| `Aggregator.AggregatorHandler` | main.go:60-122 | The handler's response, computed with the channel, the drain loop, the `errors` list and the filter loops, equals `Respond` on the results in completion order. Each URL is fetched exactly once, in completion order (`fetched == completion`). With no URLs no fetch is started and no channel is created |
| `Flags.StringList.Set` | main.go:54-57 | Setting a flag appends its value to the list and returns no error |
| `Flags.TwoOccurrences` | main_test.go:166-178 | Two occurrences give both values in command-line order, with no error |
| `Scenarios.HealthyNoFilter` | main_test.go:42-48 | Two healthy upstreams without a filter: 200, both bodies verbatim in either order |
| `Scenarios.HealthyOnePrefix` | main_test.go:49-55 | With prefix "metric_": 200 and exactly the three `metric_` lines; `another_metric 4` is dropped |
| `Scenarios.HealthyTwoPrefixes` | main_test.go:56-62 | With prefixes "metric_a" and "another_": 200 and exactly `metric_a 1` and `another_metric 4` |
| `Scenarios.OneHealthyOneFailing` | main_test.go:63-69 | One healthy and one 500 upstream: 200 with the healthy body alone |
| `Scenarios.AllFailing` | main_test.go:70-76 | A 500 upstream and an unreachable one: 500 with exactly the total-failure message |
| `Scenarios.NoUpstreams` | main_test.go:77-83 | No upstreams: 500 with exactly the configuration-error message |

## Left out

- The HTTP transport (`http.Get`, `io.ReadAll`, `resp.Body.Close`) is foreign I/O. What an upstream answered is an input value (`Exchange`), and closing the body is not modelled.
- Goroutines and the `sync.WaitGroup` are not modelled. The model runs the fetches one after the other in the completion order and closes the channel once all have sent, then drains it. Concurrent receiving would get the same sequence of results.
- Blocking and scheduling on the channel are not modelled. Its capacity equals the number of URLs, so no send blocks.
- `log.Printf` and the verbose flag are side effects that do not affect the response.
- Response headers are not modelled: the `Content-Type` set on success, and the headers `http.Error` sets.
- `main()` is process plumbing: flag parsing, the start-up check for at least one URL, handler registration and `ListenAndServe`.
- `stringList.String` relies on `fmt`'s `%v` formatting, which is not modelled.
- Error texts follow the `fmt.Errorf` formats of `fetchURL`. The wrapped error and the status line are opaque strings, and only the "bad status" marker is proved.
- Go strings are byte strings. The model has characters in their place, with no UTF-8 decoding, which the handler does not do either.
