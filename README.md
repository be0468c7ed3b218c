# Endpoint health monitor — Dafny model

A model of the core of a small HTTP health monitor (`main.py`). The monitor
reads a list of endpoints and probes each one once per cycle. A probe is UP
when the endpoint answers with a 2xx status within 500 ms. Every result is
counted against the endpoint's domain in a table that keeps growing for as
long as the process runs. After each cycle the monitor reports the per-domain
availability and the cycle's results, then sleeps until 15 s have passed
since the report.

Modules:

- `Wrappers` (`wrappers.dfy`): `Option` and `Result`.
- `Domain` (`domain.dfy`): `extract_domain`. The netloc of a URL is computed
  the way `urlparse` does for a `scheme://netloc/...` URL. The domain is the
  netloc cut at its first `':'`.
- `Probe` (`probe.dfy`): `check_health` as pure functions.
  - What `json.loads` makes of the endpoint's body is given as a value
    (`JsonParse`): parsed (and whether the value is JSON `null`), or a
    decode error with its message.
  - The network's answer is a `RequestOutcome` value: a timeout, a transport
    error, or a response with a status code and an elapsed time.
  - `Monitor` pairs the two per endpoint as a `ProbeIo`.
  - Times are whole milliseconds, so 0.5 s is 500. A measured time is a
    difference of two wall-clock readings, so it is an `int` and may be
    negative.
- `Monitor` (`monitor.dfy`): the body of the `while True` loop in
  `monitor_endpoints`. The class `HealthMonitor` has these fields:
  - the configuration;
  - the cumulative `domain_stats` table, as a `map`;
  - the order in which its keys were first seen, as a `seq`, because a
    Python dict iterates in insertion order;
  - `last_log_time`.

  Its methods update these fields in place: `RecordResult`, `RunCycle` (the
  `for endpoint in config` loop) and `Step` (one pass of the loop). The clock
  readings are integer parameters.

Two behaviours of the code are easy to misread. The model follows the code
in both:

- A drift-corrected scheduler would run 15 s from the start of one cycle to
  the start of the next. The code sets `last_log_time` to the clock reading taken
  AFTER the cycle (main.py:102, 122). It then sleeps `15 - (now -
  last_log_time)`. So the sleep runs from the report, and one cycle start is
  `15 s + cycle length` after the previous one (`CadenceFromReport`).
- An endpoint's name is treated as optional: the code falls back to the URL
  when the name is absent (main.py:81).

Two more consequences of the code that the model proves:

- `extract_domain` is idempotent only on netlocs: cutting a netloc at its
  first colon twice is cutting it once (`ExtractDomainIdempotent`). On URLs
  it is not: a domain has neither a scheme nor `//`, so the domain of a
  domain is the empty string (`UrlDomainOfDomain`).
- A body that parses to JSON `null` becomes `json=None` (main.py:36-40,
  51), and then the request carries no body at all (`NullBodySendsNoBody`).

## Model

| member | source | states |
|---|---|---|
| Domain.AfterScheme | main.py:25 | the text after the scheme is a suffix of the URL; when it is not the whole URL, what precedes it is a scheme (a letter, then letters, digits, '+', '-', '.') and one ':' that is the URL's first colon |
| Domain.Authority | main.py:25 | after `//`, the authority is the text up to the first '/', '?' or '#' (or to the end), and it is empty when the text does not start with `//`; it contains none of those three characters |
| Domain.Netloc | main.py:25 | the netloc is the text after `scheme://` up to the first '/', '?' or '#', or empty when the URL has no `//` authority; it contains none of those three characters |
| Domain.ExtractDomain | main.py:26 | the result is a prefix of the netloc, contains no ':', and ends where the netloc ends or just before its first ':' |
| Domain.UrlDomain | main.py:24-26 | the domain of a URL is a colon-free, slash-free prefix of its netloc |
| Domain.ExtractDomainUnique | main.py:26 | those three properties determine the domain: any colon-free prefix that ends at a ':' or at the end is the result |
| Domain.ExtractDomainIdempotent | main.py:26 | cutting a netloc at its first colon twice gives the same as cutting it once |
| Domain.ExtractDomainNoColon | main.py:26 | a netloc without a colon is its own domain |
| Domain.ExtractDomainIgnoresPort | main.py:26 | `host:port` and `host` give the same domain, `host` |
| Domain.ExtractDomainUserInfo | main.py:26 | a `user:password@host` netloc gives `user`, because the cut is at the first colon |
| Domain.UrlDomainIgnoresPort | main.py:24-26 | `scheme://host:port/path` and `scheme://host/other` both give `host` |
| Domain.NetlocWithoutSchemeOrSlash | main.py:25 | text with no ':' and no '/' has no scheme and no `//`, hence an empty netloc |
| Domain.UrlDomainOfDomain | main.py:24-26 | `extract_domain` is not idempotent on URLs: the domain of a domain is the empty string |
| Probe.PrepareRequest | main.py:30-43 | method defaults to GET and headers to empty; a body is parsed only when present and non-empty; a parse error gives `Invalid JSON body: <error>`; otherwise the request carries the body exactly when there was a non-empty one that did not parse to `null` |
| Probe.Classify | main.py:45-65 | UP iff a response came with a code in [200,300) within 500 ms; UP carries no reason and DOWN always has one; an out-of-range code gives "Status code out of range" even when slow; an in-range slow response gives "Response too slow"; a response keeps its measured time; a timeout gives (DOWN, 500, "Timeout"); a transport error gives (DOWN, 0, its message) |
| Probe.CheckHealth | main.py:29-65 | a body that fails to parse gives (DOWN, 0, the parse reason); otherwise the outcome's classification; the reason is absent exactly when UP |
| Probe.InvalidBodySendsNothing | main.py:36-43 | with a body that fails to parse, the result is the same whatever the network would answer (no request is sent); it is DOWN at 0 ms with a reason starting "Invalid JSON body: " |
| Probe.EmptyBodyNotParsed | main.py:36-38 | an absent or empty body is never parsed: the result is the same whatever the parse would give, it is the outcome's classification, and the request has no body |
| Probe.NullBodySendsNoBody | main.py:36-53 | a non-empty body that parses to `null` is accepted, the request carries no body, and the result is the outcome's classification |
| Probe.UpIff | main.py:36-61 | an endpoint is UP iff its body does not fail to parse and the answer is a 2xx within 500 ms |
| Monitor.ProbeEndpoint | main.py:80-99 | a cycle result carries the URL's domain, the name or else the URL, and the probe's status, time and reason; `details` is None exactly for UP results |
| Monitor.Record | main.py:88-90 | recording a result adds exactly 1 to its domain's total and 1 to its UP count iff UP; it creates the domain when new and leaves every other domain unchanged |
| Monitor.RecordOrder | main.py:70-90 | the `defaultdict`'s key order: the old order stays a prefix, and it grows by one key, the recorded domain, exactly when that domain was not yet in the table |
| Monitor.RecordAll | main.py:79-90 | counting a run of results keeps every domain of the table and adds the domain of every result |
| Monitor.RecordWellFormed | main.py:88-90 | recording keeps every domain at up <= total and total >= 1, with the key order listing each domain once |
| Monitor.RecordAllCounts | main.py:79-90 | after any run of results, each domain's total grew by the number of results for it and its UP count by the number of those that were UP |
| Monitor.RecordAllOrder | main.py:70-90 | the `defaultdict`'s key order after a run of results: the old order stays a prefix, and each result adds at most one key |
| Monitor.RecordAllOrderPrefix | main.py:70-90 | counting a run of results never reorders or drops a key of the order, and lists every domain the table gains |
| Monitor.RecordAllKeys | main.py:79-90 | the table's domains afterwards are the old ones plus those of the results; none is removed |
| Monitor.CycleResults | main.py:78-99 | one result per configured endpoint, in configuration order, each that endpoint's probe |
| Monitor.CycleOccurrences | main.py:79-99 | a cycle produces, for each domain, as many results as the configuration has endpoints with that domain |
| Monitor.CycleTotals | main.py:78-99 | after a cycle, each domain's total grew by the number of configured endpoints with that domain |
| Monitor.SleepMs | main.py:122-127 | the program sleeps iff `15 s - (now - last report)` is positive, and then sleeps that long; with a clock that does not go back, the sleep is at most 15 s |
| Monitor.CadenceFromReport | main.py:102-127 | when the report is less than 15 s old, the next cycle starts exactly 15 s after the report, which is 15 s plus the cycle's own length after this cycle started |
| Monitor.HealthMonitor.constructor | main.py:69-73 | the table starts empty and `last_log_time` is the start time |
| Monitor.HealthMonitor.RecordResult | main.py:88-90 | the table becomes `Record` of the old table; a new domain joins the key order at the end; the invariant is kept |
| Monitor.HealthMonitor.RunCycle | main.py:78-99 | the results are `CycleResults` of the configuration, and the table becomes the old table with every result counted in order, and the key order grows by `RecordOrder` for each result in turn; the invariant is kept |
| Monitor.HealthMonitor.DomainLines | main.py:107-109 | one availability line per domain, in first-seen order, with its counts; every total is positive, so the percentage's division is defined |
| Monitor.HealthMonitor.Step | main.py:76-127 | one loop pass: a cycle (table and key order as in `RunCycle`), the availability lines, `last_log_time` set to the post-cycle clock, and the sleep given by `SleepMs` |

## Left out

- `load_config`: the YAML file, its validation and `sys.exit` are I/O. The
  configuration is given as a sequence of `Endpoint` values.
- The command-line checks under `__main__` and the `KeyboardInterrupt`
  handling are process plumbing and are not modelled.
- The `while True` loop itself is not modelled. `Step` models one pass of it.
- `requests.request` is not modelled: its outcome is a parameter. The model
  also does not check that the timeout applies to connect and read
  separately. A response may therefore take longer than 500 ms. A 2xx
  response that slow is classified "Response too slow"; a non-2xx one keeps
  "Status code out of range".
- Exceptions that the source does not catch are not modelled. One example
  is `json.loads` raising `TypeError` on a body that is not a string.
- `json.loads` is not modelled: its verdict on the body is an input
  (`JsonParse`). A body that parses to a value other than `null` is sent as
  its text. The model does not re-encode the parsed value. A body of `NaN`
  or `Infinity` parses, but `requests` refuses to re-encode it and raises a
  `RequestException`, so the source reports (DOWN, 0, the error's text) and
  sends nothing (main.py:64-65); the model covers this only as a
  `TransportError` outcome, which it does not tie to the body.
- Probe.PrepareRequest: a YAML key that is present with a null value is
  modelled as absent. The source's `.get(key, default)` returns None for
  it, not the default (main.py:31-33), so `method: null` and `headers: null`
  are passed to `requests` as None rather than "GET" and `{}`.
- Monitor.ProbeEndpoint: for the same reason, `name: null` gives the name
  None in the source (main.py:81), where the model falls back to the URL.
- `urlparse` is modelled only as the scheme split and the `//` netloc split.
  The model does not strip the leading C0 control characters and spaces that
  `urlsplit` strips, and does not delete tab, CR and LF anywhere in the URL.
  It does not lower-case the scheme. It does not validate IPv6 brackets, nor
  check a non-ASCII netloc under NFKC normalisation; both can raise
  `ValueError`.
- Times are whole milliseconds, not float seconds.
- Monitor.SleepMs: the bound of 15 s is stated only for a clock that does
  not go back. `time.time()` is a wall clock and may go back, and then the
  sleep can exceed 15 s.
- The availability percentage `round(100 * up / total, 2)` is float
  arithmetic. `DomainLines` states only that its denominator is positive.
- The printed report is output formatting: the timestamp, the symbols and
  the three-decimal times. The parse-error message printed at main.py:42 is
  not modelled either.
