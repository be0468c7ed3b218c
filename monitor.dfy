/** The body of `monitor_endpoints`' loop (main.py:76-127): probe every endpoint
    in order, count each result against its domain, report, and compute the
    sleep. The cumulative per-domain table persists across cycles and only grows. */
module Monitor {
  import opened Wrappers
  import opened Domain
  import opened Probe

  /** One `domain_stats` entry, `{"up": ..., "total": ...}`. */
  datatype Counts = Counts(up: nat, total: nat)

  /** One `cycle_results` entry. */
  datatype EndpointResult = EndpointResult(
    name: string,
    domain: string,
    status: Status,
    elapsedMs: int,
    details: Option<string>)

  /** What the outside world answers for one endpoint in one cycle: what
      `json.loads` makes of its body, and how its request ends. */
  datatype ProbeIo = ProbeIo(bodyParse: JsonParse, outcome: RequestOutcome)

  /** One line of the availability report: a domain and its counts. */
  datatype DomainLine = DomainLine(domain: string, up: nat, total: nat)

  /** The nominal interval between reports, 15 s. */
  const IntervalMs: int := 15000

  /** Lines 80-99 for one endpoint: a cycle result carries the URL's domain,
      the endpoint's name or else its URL, and the probe's status, time and
      reason; `details` is None exactly for UP results. */
  function ProbeEndpoint(e: Endpoint, io: ProbeIo): (r: EndpointResult)
    ensures r.domain == UrlDomain(e.url)
    ensures r.name == (if e.name.Some? then e.name.value else e.url)
    ensures r.details == None <==> r.status == Up
    ensures var h := CheckHealth(e, io.bodyParse, io.outcome);
      r.status == h.status && r.elapsedMs == h.elapsedMs && r.details == h.reason
  {
    var h := CheckHealth(e, io.bodyParse, io.outcome);
    EndpointResult(e.name.GetOr(e.url), UrlDomain(e.url), h.status, h.elapsedMs, h.reason)
  }

  /** The counts of `domain`, zero when it was never seen (the `defaultdict`). */
  function CountsOf(stats: map<string, Counts>, domain: string): Counts {
    if domain in stats then stats[domain] else Counts(0, 0)
  }

  /** Lines 88-90: one result counted against its domain. Its total grows by
      one, its UP count by one exactly when the result is UP, and every other
      domain keeps its counts; the domain is present afterwards. */
  function Record(stats: map<string, Counts>, domain: string, status: Status): (r: map<string, Counts>)
    ensures r.Keys == stats.Keys + {domain}
    ensures r[domain].total == CountsOf(stats, domain).total + 1
    ensures r[domain].up == CountsOf(stats, domain).up + (if status == Up then 1 else 0)
    ensures forall d :: d != domain ==> CountsOf(r, d) == CountsOf(stats, d)
  {
    var c := CountsOf(stats, domain);
    stats[domain := Counts(if status == Up then c.up + 1 else c.up, c.total + 1)]
  }

  /** The key order of the `defaultdict`: a domain joins at the end when first
      seen. The old order is kept as a prefix, and at most one key is added. */
  function RecordOrder(order: seq<string>, stats: map<string, Counts>, domain: string): (r: seq<string>)
    ensures order <= r && |r| <= |order| + 1
    ensures |r| == |order| + 1 <==> domain !in stats
    ensures |r| == |order| + 1 ==> r[|order|] == domain
  {
    if domain in stats then order else order + [domain]
  }

  /** The table after counting every result of `results`, in order: it keeps
      every domain it had and has every domain of the results. */
  function RecordAll(stats: map<string, Counts>, results: seq<EndpointResult>): (r: map<string, Counts>)
    ensures stats.Keys <= r.Keys
    ensures forall i :: 0 <= i < |results| ==> results[i].domain in r
    decreases |results|
  {
    if results == [] then stats
    else
      var last := results[|results| - 1];
      Record(RecordAll(stats, results[..|results| - 1]), last.domain, last.status)
  }

  /** The key order after counting every result of `results`, alongside
      `RecordAll`: the old order stays a prefix, and each result adds at most
      one key. */
  function RecordAllOrder(order: seq<string>, stats: map<string, Counts>, results: seq<EndpointResult>): (r: seq<string>)
    ensures order <= r && |r| <= |order| + |results|
    decreases |results|
  {
    if results == [] then order
    else
      var init := results[..|results| - 1];
      RecordOrder(RecordAllOrder(order, stats, init), RecordAll(stats, init), results[|results| - 1].domain)
  }

  /** A prefix one longer is the prefix and the next element. */
  lemma TakeOneMore<T>(s: seq<T>, i: nat)
    requires i < |s|
    ensures s[..i + 1] == s[..i] + [s[i]]
  {
  }

  /** Counting one more result is one more `Record`. */
  lemma RecordAllSnoc(stats: map<string, Counts>, results: seq<EndpointResult>, r: EndpointResult)
    ensures RecordAll(stats, results + [r]) == Record(RecordAll(stats, results), r.domain, r.status)
  {
    assert (results + [r])[..|results|] == results;
  }

  /** The key order after one more result is one more `RecordOrder`. */
  lemma RecordAllOrderSnoc(order: seq<string>, stats: map<string, Counts>, results: seq<EndpointResult>, r: EndpointResult)
    ensures RecordAllOrder(order, stats, results + [r]) ==
      RecordOrder(RecordAllOrder(order, stats, results), RecordAll(stats, results), r.domain)
  {
    assert (results + [r])[..|results|] == results;
  }

  /** Counting a run of results never reorders or drops a key: the old order is
      a prefix of the new one, and every key the table gains is listed. */
  lemma {:induction false} RecordAllOrderPrefix(order: seq<string>, stats: map<string, Counts>, results: seq<EndpointResult>)
    ensures order <= RecordAllOrder(order, stats, results)
    ensures forall d :: d in RecordAll(stats, results) && d !in stats ==> d in RecordAllOrder(order, stats, results)
    decreases |results|
  {
    if results != [] {
      var init := results[..|results| - 1];
      RecordAllOrderPrefix(order, stats, init);
      var before := RecordAllOrder(order, stats, init);
      var after := RecordAllOrder(order, stats, results);
      assert before <= after;
    }
  }

  /** How many of `results` are for `domain`. */
  function Occurrences(results: seq<EndpointResult>, domain: string): nat {
    if results == [] then 0
    else Occurrences(results[..|results| - 1], domain) + (if results[|results| - 1].domain == domain then 1 else 0)
  }

  /** How many of `results` are for `domain` and UP. */
  function UpOccurrences(results: seq<EndpointResult>, domain: string): nat {
    if results == [] then 0
    else
      var last := results[|results| - 1];
      UpOccurrences(results[..|results| - 1], domain) + (if last.domain == domain && last.status == Up then 1 else 0)
  }

  /** The table's invariant: every present domain has been counted at least
      once and was UP at most as often as it was counted; `order` lists each
      present domain exactly once. */
  ghost predicate WellFormed(stats: map<string, Counts>, order: seq<string>) {
    && (forall d :: d in stats ==> stats[d].up <= stats[d].total && stats[d].total >= 1)
    && (forall i :: 0 <= i < |order| ==> order[i] in stats)
    && (forall d :: d in stats ==> d in order)
    && (forall i, j :: 0 <= i < j < |order| ==> order[i] != order[j])
  }

  /** Counting a result keeps the table well formed. */
  lemma RecordWellFormed(stats: map<string, Counts>, order: seq<string>, domain: string, status: Status)
    requires WellFormed(stats, order)
    ensures WellFormed(Record(stats, domain, status), RecordOrder(order, stats, domain))
  {
  }

  /** After a run of results, each domain's total grew by the number of results
      for it, and its UP count by the number of those that were UP. */
  lemma {:induction false} RecordAllCounts(stats: map<string, Counts>, results: seq<EndpointResult>, domain: string)
    ensures CountsOf(RecordAll(stats, results), domain).total ==
      CountsOf(stats, domain).total + Occurrences(results, domain)
    ensures CountsOf(RecordAll(stats, results), domain).up ==
      CountsOf(stats, domain).up + UpOccurrences(results, domain)
    decreases |results|
  {
    if results != [] {
      var init := results[..|results| - 1];
      var last := results[|results| - 1];
      RecordAllCounts(stats, init, domain);
    }
  }

  /** The domains of a run of results one longer: those of the shorter run and
      the last one's. */
  lemma DomainsSnoc(results: seq<EndpointResult>, init: seq<EndpointResult>)
    requires results != [] && init == results[..|results| - 1]
    ensures (set i | 0 <= i < |results| :: results[i].domain) ==
      (set i | 0 <= i < |init| :: init[i].domain) + {results[|results| - 1].domain}
  {
    var before := set i | 0 <= i < |init| :: init[i].domain;
    var after := set i | 0 <= i < |results| :: results[i].domain;
    forall d | d in after ensures d in before + {results[|results| - 1].domain} {
      var i :| 0 <= i < |results| && results[i].domain == d;
      if i < |init| { assert init[i].domain == d; }
    }
    forall d | d in before ensures d in after {
      var i :| 0 <= i < |init| && init[i].domain == d;
      assert results[i].domain == d;
    }
  }

  /** The domains of a table after a run of results: those it had, and those
      of the results. No domain is ever removed. */
  lemma {:induction false} RecordAllKeys(stats: map<string, Counts>, results: seq<EndpointResult>)
    ensures RecordAll(stats, results).Keys == stats.Keys + set i | 0 <= i < |results| :: results[i].domain
    decreases |results|
  {
    if results != [] {
      var init := results[..|results| - 1];
      var last := results[|results| - 1];
      RecordAllKeys(stats, init);
      assert RecordAll(stats, results) == Record(RecordAll(stats, init), last.domain, last.status);
      DomainsSnoc(results, init);
    }
  }

  /** The results of probing `config`, `ios[i]` being what the outside world
      answers for endpoint `i`: one result per endpoint, in configuration order. */
  function CycleResults(config: seq<Endpoint>, ios: seq<ProbeIo>): (rs: seq<EndpointResult>)
    requires |ios| == |config|
    ensures |rs| == |config|
    ensures forall i :: 0 <= i < |config| ==> rs[i] == ProbeEndpoint(config[i], ios[i])
  {
    seq(|config|, i requires 0 <= i < |config| => ProbeEndpoint(config[i], ios[i]))
  }

  /** How many endpoints of `config` have the domain `domain`. */
  function EndpointsOf(config: seq<Endpoint>, domain: string): nat {
    if config == [] then 0
    else EndpointsOf(config[..|config| - 1], domain) + (if UrlDomain(config[|config| - 1].url) == domain then 1 else 0)
  }

  /** A cycle counts each domain once per endpoint of the configuration that has it. */
  lemma {:induction false} CycleOccurrences(config: seq<Endpoint>, ios: seq<ProbeIo>, domain: string)
    requires |ios| == |config|
    ensures Occurrences(CycleResults(config, ios), domain) == EndpointsOf(config, domain)
    decreases |config|
  {
    if config != [] {
      var n := |config| - 1;
      var rs := CycleResults(config, ios);
      assert rs[..n] == CycleResults(config[..n], ios[..n]);
      CycleOccurrences(config[..n], ios[..n], domain);
    }
  }

  /** After a cycle over `config`, each domain's total grew by the number of
      endpoints of `config` that have it, and its UP count by the number of
      this cycle's UP results for it. */
  lemma CycleTotals(stats: map<string, Counts>, config: seq<Endpoint>, ios: seq<ProbeIo>, domain: string)
    requires |ios| == |config|
    ensures var results := CycleResults(config, ios);
      && CountsOf(RecordAll(stats, results), domain).total == CountsOf(stats, domain).total + EndpointsOf(config, domain)
      && CountsOf(RecordAll(stats, results), domain).up == CountsOf(stats, domain).up + UpOccurrences(results, domain)
  {
    RecordAllCounts(stats, CycleResults(config, ios), domain);
    CycleOccurrences(config, ios, domain);
  }

  /** The sleep after a report at `reportTime` when the clock now reads `now`
      (lines 122-127): `15 - (now - last_log_time)` if positive, else none. */
  function SleepMs(reportTime: int, now: int): (s: nat)
    ensures s > 0 <==> now - reportTime < IntervalMs
    ensures s > 0 ==> s == IntervalMs - (now - reportTime)
    ensures now >= reportTime ==> s <= IntervalMs
  {
    var sleepTime := IntervalMs - (now - reportTime);
    if sleepTime > 0 then sleepTime else 0
  }

  /** The next cycle starts 15 s after the REPORT, not after the start of the
      cycle: a cycle of any length followed by an instant report and sleep is
      `15 s + cycle length` from one cycle start to the next. */
  lemma CadenceFromReport(cycleStart: int, reportTime: int, now: int)
    requires cycleStart <= reportTime <= now < reportTime + IntervalMs
    ensures now + SleepMs(reportTime, now) == reportTime + IntervalMs
    ensures now + SleepMs(reportTime, now) - cycleStart == IntervalMs + (reportTime - cycleStart)
  {
  }

  /** The monitor's state across cycles: the configuration, the cumulative
      `domain_stats` with the order its keys were first seen in, and
      `last_log_time`. */
  class HealthMonitor {
    const config: seq<Endpoint>
    var stats: map<string, Counts>
    var order: seq<string>
    var lastLogTime: int

    ghost predicate Valid()
      reads this
    {
      WellFormed(stats, order)
    }

    /** Lines 69-73: an empty table and `last_log_time = time.time()`. */
    constructor (config: seq<Endpoint>, startTime: int)
      ensures Valid()
      ensures this.config == config && stats == map[] && order == [] && lastLogTime == startTime
    {
      this.config := config;
      stats := map[];
      order := [];
      lastLogTime := startTime;
    }

    /** Lines 88-90: count one result against its domain. */
    method RecordResult(domain: string, status: Status)
      requires Valid()
      modifies this
      ensures Valid()
      ensures stats == Record(old(stats), domain, status)
      ensures order == RecordOrder(old(order), old(stats), domain)
      ensures lastLogTime == old(lastLogTime)
    {
      RecordWellFormed(stats, order, domain, status);
      order := RecordOrder(order, stats, domain);
      var c := CountsOf(stats, domain);
      var up := if status == Up then c.up + 1 else c.up;
      stats := stats[domain := Counts(up, c.total + 1)];
      assert stats == Record(old(stats), domain, status);
    }

    /** Lines 78-99: probe each endpoint in configuration order, count it, and
        collect this cycle's results. */
    method RunCycle(ios: seq<ProbeIo>) returns (results: seq<EndpointResult>)
      requires Valid()
      requires |ios| == |config|
      modifies this
      ensures Valid()
      ensures results == CycleResults(config, ios)
      ensures stats == RecordAll(old(stats), results)
      ensures order == RecordAllOrder(old(order), old(stats), results)
      ensures lastLogTime == old(lastLogTime)
    {
      ghost var expected := CycleResults(config, ios);
      results := [];
      var i := 0;
      while i < |config|
        invariant 0 <= i <= |config|
        invariant Valid()
        invariant results == expected[..i]
        invariant stats == RecordAll(old(stats), results)
        invariant order == RecordAllOrder(old(order), old(stats), results)
        invariant lastLogTime == old(lastLogTime)
      {
        var r := ProbeEndpoint(config[i], ios[i]);
        RecordResult(r.domain, r.status);
        RecordAllSnoc(old(stats), results, r);
        RecordAllOrderSnoc(old(order), old(stats), results, r);
        TakeOneMore(expected, i);
        results := results + [r];
        i := i + 1;
      }
      assert expected[..i] == expected;
    }

    /** Lines 107-109: the availability lines, in the order domains were
        first seen; every line's total is positive, so its percentage is
        defined. */
    method DomainLines() returns (lines: seq<DomainLine>)
      requires Valid()
      ensures |lines| == |order|
      ensures forall i :: 0 <= i < |lines| ==>
        && lines[i].domain == order[i]
        && lines[i].up == stats[order[i]].up
        && lines[i].total == stats[order[i]].total
        && 0 < lines[i].total && lines[i].up <= lines[i].total
    {
      lines := [];
      for i := 0 to |order|
        invariant |lines| == i
        invariant forall k :: 0 <= k < i ==>
          && lines[k].domain == order[k]
          && lines[k].up == stats[order[k]].up
          && lines[k].total == stats[order[k]].total
      {
        var c := stats[order[i]];
        lines := lines + [DomainLine(order[i], c.up, c.total)];
      }
    }

    /** One pass of the `while True` loop: a cycle, the report taken at
        `reportTime` (the clock after the cycle), then the sleep computed with
        the clock at `now`. */
    method Step(ios: seq<ProbeIo>, reportTime: int, now: int)
      returns (results: seq<EndpointResult>, lines: seq<DomainLine>, sleepMs: nat)
      requires Valid()
      requires |ios| == |config|
      modifies this
      ensures Valid()
      ensures results == CycleResults(config, ios)
      ensures stats == RecordAll(old(stats), results)
      ensures order == RecordAllOrder(old(order), old(stats), results)
      ensures |lines| == |order|
      ensures forall i :: 0 <= i < |lines| ==> lines[i] == DomainLine(order[i], stats[order[i]].up, stats[order[i]].total)
      ensures lastLogTime == reportTime
      ensures sleepMs == SleepMs(reportTime, now)
    {
      results := RunCycle(ios);
      lines := DomainLines();
      lastLogTime := reportTime;
      sleepMs := SleepMs(lastLogTime, now);
    }
  }
}
