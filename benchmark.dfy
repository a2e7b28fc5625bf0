/**
 * The benchmark executor (benchmark.go): each benchmark repeats one request with several
 * workers, either a fixed number of requests split over the workers or for a fixed time, and
 * the attempts are tallied into a BenchmarkResult. The first misconfigured benchmark aborts
 * the batch.
 *
 * The workers run one after another here. How many requests each worker of a timed run
 * completes before the stop signal, each attempt's I/O, and the wall-clock time of the run
 * are given as `Traffic`.
 */
module Benchmark {
  import opened Wrappers
  import opened Types
  import opened Client

  /** A load scenario: one request template, a worker count, and a request count or a duration (ns). */
  datatype Benchmark = Benchmark(
    name: string,
    httpMethod: string,
    url: string,
    headers: map<string, string>,
    body: string,
    concurrent: int,
    requests: int,
    duration: int)

  /** One attempt as a worker reports it. `duration` is in nanoseconds. */
  datatype RequestResult = RequestResult(success: bool, duration: nat, statusCode: int, responseSize: nat)

  /** The aggregate of one benchmark; times in nanoseconds. */
  datatype BenchmarkResult = BenchmarkResult(
    name: string,
    totalRequests: nat,
    successfulReqs: nat,
    failedReqs: nat,
    minResponseTime: nat,
    maxResponseTime: nat,
    avgResponseTime: nat,
    totalTime: nat)

  /** "either requests or duration must be specified", and the batch's "benchmark <name> failed: ...". */
  datatype BenchmarkError = NoRequestsOrDuration | BenchmarkFailed(name: string, cause: BenchmarkError)

  /** The two modes of executeBenchmark. */
  datatype Mode = FixedCount(total: int) | FixedDuration(duration: int)

  /**
   * What the world contributes to one benchmark: the I/O of request `i` of worker `w`, how many
   * requests worker `w` of a timed run completes before it sees the stop signal, and the time
   * the whole run took.
   */
  datatype Traffic = Traffic(attempt: (nat, nat) -> Io, timedShares: nat -> nat, totalTime: nat)

  /** The zero-valued BenchmarkResult. */
  const Zero := BenchmarkResult("", 0, 0, 0, 0, 0, 0, 0)

  // ---------------------------------------------------------------------------------------
  // Configuration

  /** The worker count: a non-positive one becomes 1. */
  function Concurrency(b: Benchmark): (c: nat)
    ensures c >= 1
    ensures b.concurrent > 0 ==> c == b.concurrent
    ensures b.concurrent <= 0 ==> c == 1
  {
    if b.concurrent <= 0 then 1 else b.concurrent
  }

  /** A request count wins over a duration; neither is an error. */
  function SelectMode(b: Benchmark): (r: Result<Mode, BenchmarkError>)
    ensures b.requests > 0 ==> r == Ok(FixedCount(b.requests))
    ensures b.requests <= 0 && b.duration > 0 ==> r == Ok(FixedDuration(b.duration))
    ensures r.Err? <==> b.requests <= 0 && b.duration <= 0
  {
    if b.requests > 0 then Ok(FixedCount(b.requests))
    else if b.duration > 0 then Ok(FixedDuration(b.duration))
    else Err(NoRequestsOrDuration)
  }

  /** The request every attempt sends: the template's method, URL, headers and body, nothing else. */
  function Template(b: Benchmark): (t: Test)
    ensures t.timeout == 0 && t.bodyFile == ""
  {
    Test("", b.httpMethod, b.url, b.headers, b.body, "", 0, [], map[], [])
  }

  // ---------------------------------------------------------------------------------------
  // Splitting the requests

  /** Worker i's share of `total` requests over `c` workers: the quotient, one more for the first `total % c`. */
  function FixedShares(total: nat, c: nat): (shares: seq<nat>)
    requires c >= 1
    ensures |shares| == c
  {
    seq(c, i requires 0 <= i < c => total / c + if i < total % c then 1 else 0)
  }

  /** The sum of a sequence of counts. */
  function Sum(s: seq<nat>): nat
    decreases |s|
  {
    if s == [] then 0 else Sum(s[..|s| - 1]) + s[|s| - 1]
  }

  /** The share loop of executeFixedRequests. */
  method WorkerShares(total: nat, c: nat) returns (shares: seq<nat>)
    requires c >= 1
    ensures shares == FixedShares(total, c)
  {
    var requestsPerWorker := total / c;
    var extraRequests := total % c;
    shares := [];
    var i := 0;
    while i < c
      invariant 0 <= i <= c
      invariant shares == FixedShares(total, c)[..i]
    {
      var requests := requestsPerWorker;
      if i < extraRequests {
        requests := requests + 1;
      }
      shares := shares + [requests];
      i := i + 1;
    }
  }

  // ---------------------------------------------------------------------------------------
  // Attempts

  /** One attempt: a success when the client returned no error and a successful record. */
  function Attempt(baseURL: string, timeout: int, test: Test, variables: map<string, string>, io: Io): RequestResult
  {
    var (result, err, _) := RequestOutcome(baseURL, timeout, test, variables, io);
    RequestResult(err == NoFailure && result.success, io.elapsed, result.statusCode, |result.response|)
  }

  /** The attempts of worker `w`, which sends `n` requests. */
  function WorkerAttempts(baseURL: string, timeout: int, test: Test, variables: map<string, string>,
                          traffic: Traffic, w: nat, n: nat): (rs: seq<RequestResult>)
    ensures |rs| == n
    ensures forall i :: 0 <= i < n ==> rs[i] == Attempt(baseURL, timeout, test, variables, traffic.attempt(w, i))
  {
    seq(n, i requires 0 <= i < n => Attempt(baseURL, timeout, test, variables, traffic.attempt(w, i)))
  }

  /** The attempts of all workers, worker by worker. */
  function AllAttempts(baseURL: string, timeout: int, test: Test, variables: map<string, string>,
                       traffic: Traffic, shares: seq<nat>): (rs: seq<RequestResult>)
    decreases |shares|
  {
    if shares == [] then []
    else
      AllAttempts(baseURL, timeout, test, variables, traffic, shares[..|shares| - 1])
        + WorkerAttempts(baseURL, timeout, test, variables, traffic, |shares| - 1, shares[|shares| - 1])
  }

  // ---------------------------------------------------------------------------------------
  // Aggregation

  /** The counters of collectResults: successes, failures, least and greatest duration. */
  datatype Tally = Tally(successes: nat, failures: nat, least: nat, greatest: nat)

  /** collectResults' loop over `rs`, with the minimum and maximum seeded from `seed`. */
  function Count(rs: seq<RequestResult>, seed: nat): Tally
    decreases |rs|
  {
    if rs == [] then Tally(0, 0, seed, seed)
    else
      var t := Count(rs[..|rs| - 1], seed);
      var r := rs[|rs| - 1];
      Tally(
        if r.success then t.successes + 1 else t.successes,
        if r.success then t.failures else t.failures + 1,
        if r.duration < t.least then r.duration else t.least,
        if r.duration > t.greatest then r.duration else t.greatest)
  }

  /** What collectResults returns for the attempts collected. */
  function Aggregate(rs: seq<RequestResult>): BenchmarkResult
  {
    if rs == [] then Zero
    else
      var t := Count(rs, rs[0].duration);
      BenchmarkResult("", |rs|, t.successes, t.failures, t.least, t.greatest, 0, 0)
  }

  /** The number of successful attempts. */
  function Successes(rs: seq<RequestResult>): nat
    decreases |rs|
  {
    if rs == [] then 0 else Successes(rs[..|rs| - 1]) + if rs[|rs| - 1].success then 1 else 0
  }

  /** collectResults */
  method CollectResults(rs: seq<RequestResult>) returns (r: BenchmarkResult)
    ensures r == Aggregate(rs)
  {
    if |rs| == 0 {
      return Zero;
    }
    var successful, failed := 0, 0;
    var minDuration := rs[0].duration;
    var maxDuration := rs[0].duration;
    var i := 0;
    while i < |rs|
      invariant 0 <= i <= |rs|
      invariant Count(rs[..i], rs[0].duration) == Tally(successful, failed, minDuration, maxDuration)
    {
      assert rs[..i + 1][..i] == rs[..i];
      var result := rs[i];
      if result.success {
        successful := successful + 1;
      } else {
        failed := failed + 1;
      }
      if result.duration < minDuration {
        minDuration := result.duration;
      }
      if result.duration > maxDuration {
        maxDuration := result.duration;
      }
      i := i + 1;
    }
    assert rs[..i] == rs;
    return BenchmarkResult("", |rs|, successful, failed, minDuration, maxDuration, 0, 0);
  }

  /** The name, the total time and, when there were requests, the average time per request. */
  function Finish(r: BenchmarkResult, name: string, totalTime: nat): (f: BenchmarkResult)
    ensures f.name == name && f.totalTime == totalTime
    ensures f.totalRequests > 0 ==> f.avgResponseTime == totalTime / f.totalRequests
    ensures f.totalRequests == 0 ==> f.avgResponseTime == r.avgResponseTime
    ensures f.(name := r.name, totalTime := r.totalTime, avgResponseTime := r.avgResponseTime) == r
  {
    var named := r.(name := name, totalTime := totalTime);
    if named.totalRequests > 0 then named.(avgResponseTime := Mean(totalTime, named.totalRequests)) else named
  }

  /** Integer division of a total over a positive count, as Go divides durations. */
  function Mean(total: nat, n: nat): nat
    requires n > 0
  {
    total / n
  }

  /** The requests each worker sends in a mode. */
  function ModeShares(mode: Mode, c: nat, traffic: Traffic): (shares: seq<nat>)
    requires c >= 1
    ensures |shares| == c
  {
    match mode
    case FixedCount(total) => FixedShares(if total < 0 then 0 else total, c)
    case FixedDuration(_) => TimedShares(traffic, c)
  }

  /** The requests each of `c` workers completes before the stop signal of a timed run. */
  function TimedShares(traffic: Traffic, c: nat): (shares: seq<nat>)
    ensures |shares| == c
    ensures forall w :: 0 <= w < c ==> shares[w] == traffic.timedShares(w)
  {
    if c == 0 then [] else TimedShares(traffic, c - 1) + [traffic.timedShares(c - 1)]
  }

  /** executeBenchmark */
  function BenchmarkOutcome(baseURL: string, timeout: int, b: Benchmark, variables: map<string, string>, traffic: Traffic)
    : (r: Result<BenchmarkResult, BenchmarkError>)
    ensures r.Err? <==> b.requests <= 0 && b.duration <= 0
    ensures r.Err? ==> r.error == NoRequestsOrDuration
    ensures r.Ok? ==> r.value.name == b.name && r.value.totalTime == traffic.totalTime
  {
    match Plan(b, traffic)
    case Err(e) => Err(e)
    case Ok(shares) => Ok(Finish(Aggregate(AllAttempts(baseURL, timeout, Template(b), variables, traffic, shares)), b.name, traffic.totalTime))
  }

  /** An attempt sent without a per-test timeout leaves the client's timeout as it was, and records the client's answer. */
  lemma AttemptRecord(baseURL: string, timeout: int, test: Test, variables: map<string, string>, io: Io)
    requires test.timeout <= 0
    ensures var (result, err, after) := RequestOutcome(baseURL, timeout, test, variables, io);
      && after == timeout
      && Attempt(baseURL, timeout, test, variables, io)
         == RequestResult(err == NoFailure && result.success, io.elapsed, result.statusCode, |result.response|)
  {
    TimeoutAfterCall(baseURL, timeout, test, variables, io);
  }

  /** The field updates at the end of executeBenchmark. */
  lemma FinishRecord(collected: BenchmarkResult, name: string, totalTime: nat, result: BenchmarkResult)
    requires var named := collected.(name := name, totalTime := totalTime);
      result == if named.totalRequests > 0 then named.(avgResponseTime := Mean(totalTime, named.totalRequests)) else named
    ensures result == Finish(collected, name, totalTime)
  {
  }

  /** A benchmark with a plan is the aggregate of the attempts its plan makes. */
  lemma OutcomeOfPlan(baseURL: string, timeout: int, b: Benchmark, variables: map<string, string>, traffic: Traffic, shares: seq<nat>)
    requires Plan(b, traffic) == Ok(shares)
    ensures BenchmarkOutcome(baseURL, timeout, b, variables, traffic)
      == Ok(Finish(Aggregate(AllAttempts(baseURL, timeout, Template(b), variables, traffic, shares)), b.name, traffic.totalTime))
  {
  }

  /** The mode step of executeBenchmark: each worker's request count, or the configuration error. */
  function Plan(b: Benchmark, traffic: Traffic): (r: Result<seq<nat>, BenchmarkError>)
    ensures r.Err? <==> b.requests <= 0 && b.duration <= 0
    ensures r.Err? ==> r.error == NoRequestsOrDuration
    ensures r.Ok? ==> |r.value| == Concurrency(b)
  {
    match SelectMode(b)
    case Err(e) => Err(e)
    case Ok(mode) => Ok(ModeShares(mode, Concurrency(b), traffic))
  }

  /** One benchmark's outcome, as ExecuteBenchmarks sees it. */
  type Measures = Benchmark -> Result<BenchmarkResult, BenchmarkError>

  /** executeBenchmark with a fixed client, variables and traffic per benchmark. */
  function Measuring(baseURL: string, timeout: int, variables: map<string, string>, traffic: Benchmark -> Traffic): Measures
  {
    b => BenchmarkOutcome(baseURL, timeout, b, variables, traffic(b))
  }

  /** ExecuteBenchmarks: the results in input order, or the first benchmark's error, named. */
  function Batch(benchmarks: seq<Benchmark>, measure: Measures): Result<seq<BenchmarkResult>, BenchmarkError>
    decreases |benchmarks|
  {
    if benchmarks == [] then Ok([])
    else
      var b := benchmarks[0];
      match measure(b)
      case Err(e) => Err(BenchmarkFailed(b.name, e))
      case Ok(r) => Prepend([r], Batch(benchmarks[1..], measure))
  }

  /** `done` in front of the rest of a batch, unless the rest failed. */
  function Prepend(done: seq<BenchmarkResult>, rest: Result<seq<BenchmarkResult>, BenchmarkError>)
    : (r: Result<seq<BenchmarkResult>, BenchmarkError>)
    ensures done == [] ==> r == rest
  {
    match rest
    case Err(e) => Err(e)
    case Ok(tail) => assert [] + tail == tail; Ok(done + tail)
  }

  /** One benchmark measured successfully moves from the rest of the batch to the results. */
  lemma BatchStep(done: seq<BenchmarkResult>, rest: seq<Benchmark>, measure: Measures)
    requires rest != [] && measure(rest[0]).Ok?
    ensures Prepend(done, Batch(rest, measure)) == Prepend(done + [measure(rest[0]).value], Batch(rest[1..], measure))
  {
    match Batch(rest[1..], measure)
    case Err(_) =>
    case Ok(tail) => assert done + ([measure(rest[0]).value] + tail) == done + [measure(rest[0]).value] + tail;
  }

  /** The mode step of executeBenchmark, as the source computes it. */
  method PlanShares(b: Benchmark, traffic: Traffic) returns (r: Result<seq<nat>, BenchmarkError>)
    ensures r == Plan(b, traffic)
  {
    var concurrent := b.concurrent;
    if concurrent <= 0 {
      concurrent := 1;
    }
    if b.requests > 0 {
      var shares := WorkerShares(b.requests, concurrent);
      return Ok(shares);
    } else if b.duration > 0 {
      return Ok(TimedShares(traffic, concurrent));
    }
    return Err(NoRequestsOrDuration);
  }

  // ---------------------------------------------------------------------------------------
  // The executor

  class BenchmarkExecutor {
    const client: HttpClient

    /** NewBenchmarkExecutor */
    constructor(baseURL: string)
      ensures fresh(client) && client.baseURL == baseURL && client.timeout == DefaultTimeout
    {
      client := new HttpClient(baseURL);
    }

    /** workerFixedRequests, and the loop of workerTimedRequests up to the stop signal. */
    method Worker(test: Test, variables: map<string, string>, traffic: Traffic, w: nat, requests: nat)
      returns (rs: seq<RequestResult>)
      requires test.timeout <= 0
      modifies client
      ensures client.timeout == old(client.timeout)
      ensures rs == WorkerAttempts(client.baseURL, client.timeout, test, variables, traffic, w, requests)
    {
      ghost var all := WorkerAttempts(client.baseURL, client.timeout, test, variables, traffic, w, requests);
      rs := [];
      var i := 0;
      while i < requests
        invariant 0 <= i <= requests
        invariant client.timeout == old(client.timeout)
        invariant rs == all[..i]
      {
        var io := traffic.attempt(w, i);
        AttemptRecord(client.baseURL, client.timeout, test, variables, io);
        var result, err := client.ExecuteRequest(test, variables, io);
        var record := RequestResult(err == NoFailure && result.success, io.elapsed, result.statusCode, |result.response|);
        assert record == all[i];
        assert all[..i + 1] == all[..i] + [all[i]];
        rs := rs + [record];
        i := i + 1;
      }
      assert all[..i] == all;
    }

    /** The workers of executeFixedRequests and executeTimedRequests, one after another. */
    method RunWorkers(test: Test, variables: map<string, string>, traffic: Traffic, shares: seq<nat>)
      returns (rs: seq<RequestResult>)
      requires test.timeout <= 0
      modifies client
      ensures client.timeout == old(client.timeout)
      ensures rs == AllAttempts(client.baseURL, client.timeout, test, variables, traffic, shares)
    {
      rs := [];
      var w := 0;
      while w < |shares|
        invariant 0 <= w <= |shares|
        invariant client.timeout == old(client.timeout)
        invariant rs == AllAttempts(client.baseURL, client.timeout, test, variables, traffic, shares[..w])
      {
        assert shares[..w + 1][..w] == shares[..w];
        var attempts := Worker(test, variables, traffic, w, shares[w]);
        rs := rs + attempts;
        w := w + 1;
      }
      assert shares[..w] == shares;
    }

    /** executeBenchmark */
    method ExecuteBenchmark(b: Benchmark, variables: map<string, string>, traffic: Traffic)
      returns (r: Result<BenchmarkResult, BenchmarkError>)
      modifies client
      ensures client.timeout == old(client.timeout)
      ensures r == BenchmarkOutcome(client.baseURL, client.timeout, b, variables, traffic)
    {
      var shares := PlanShares(b, traffic);
      if shares.Err? {
        return Err(shares.error);
      }
      var attempts := RunWorkers(Template(b), variables, traffic, shares.value);
      var collected := CollectResults(attempts);
      var result := collected.(name := b.name, totalTime := traffic.totalTime);
      if result.totalRequests > 0 {
        result := result.(avgResponseTime := Mean(result.totalTime, result.totalRequests));
      }
      FinishRecord(collected, b.name, traffic.totalTime, result);
      OutcomeOfPlan(client.baseURL, client.timeout, b, variables, traffic, shares.value);
      return Ok(result);
    }

    /** ExecuteBenchmarks */
    method ExecuteBenchmarks(benchmarks: seq<Benchmark>, variables: map<string, string>, traffic: Benchmark -> Traffic)
      returns (r: Result<seq<BenchmarkResult>, BenchmarkError>)
      modifies client
      ensures client.timeout == old(client.timeout)
      ensures r == Batch(benchmarks, Measuring(client.baseURL, client.timeout, variables, traffic))
    {
      ghost var measure := Measuring(client.baseURL, client.timeout, variables, traffic);
      var results := [];
      var i := 0;
      assert benchmarks[0..] == benchmarks;
      while i < |benchmarks|
        invariant 0 <= i <= |benchmarks|
        invariant client.timeout == old(client.timeout)
        invariant Batch(benchmarks, measure) == Prepend(results, Batch(benchmarks[i..], measure))
      {
        var b := benchmarks[i];
        assert benchmarks[i..][0] == b && benchmarks[i..][1..] == benchmarks[i + 1..];
        var result := ExecuteBenchmark(b, variables, traffic(b));
        assert result == measure(b);
        if result.Err? {
          return Err(BenchmarkFailed(b.name, result.error));
        }
        BatchStep(results, benchmarks[i..], measure);
        results := results + [result.value];
        i := i + 1;
      }
      assert benchmarks[i..] == [] && results + [] == results;
      return Ok(results);
    }
  }

  // ---------------------------------------------------------------------------------------
  // Properties

  /** The shares of a fixed run add up to the requested total. */
  lemma SharesSum(total: nat, c: nat)
    requires c >= 1
    ensures Sum(FixedShares(total, c)) == total
  {
    var q, r := total / c, total % c;
    assert total == c * q + r && r < c;
    QuotientShares(FixedShares(total, c), q, r);
  }

  /** `c` shares of `q`, the first `r` of them one larger, add up to `c * q + r`. */
  lemma {:induction false} QuotientShares(shares: seq<nat>, q: nat, r: nat)
    requires r <= |shares|
    requires forall i :: 0 <= i < |shares| ==> shares[i] == q + if i < r then 1 else 0
    ensures Sum(shares) == |shares| * q + r
  {
    var k := 0;
    while k < |shares|
      invariant 0 <= k <= |shares|
      invariant Sum(shares[..k]) == k * q + if k < r then k else r
    {
      assert shares[..k + 1][..k] == shares[..k];
      assert (k + 1) * q == k * q + q;
      k := k + 1;
    }
    assert shares[..k] == shares;
  }

  /** Shares differ by at most one, the larger ones going to the first workers. */
  lemma SharesBalanced(total: nat, c: nat)
    requires c >= 1
    ensures forall i, j :: 0 <= i < j < c ==>
      FixedShares(total, c)[j] <= FixedShares(total, c)[i] <= FixedShares(total, c)[j] + 1
    ensures forall i :: 0 <= i < c ==> FixedShares(total, c)[i] >= total / c
  {
  }

  /** Ten requests over three workers: 4, 3 and 3. */
  lemma TenOverThree()
    ensures FixedShares(10, 3) == [4, 3, 3]
  {
  }

  /** Every worker sends its share: there are as many attempts as the shares add up to. */
  lemma {:induction false} AttemptsCounted(baseURL: string, timeout: int, test: Test, variables: map<string, string>,
                                           traffic: Traffic, shares: seq<nat>)
    ensures |AllAttempts(baseURL, timeout, test, variables, traffic, shares)| == Sum(shares)
    decreases |shares|
  {
    if shares != [] {
      AttemptsCounted(baseURL, timeout, test, variables, traffic, shares[..|shares| - 1]);
    }
  }

  /** A fixed run reports exactly the requested number of requests, whatever the worker count. */
  lemma FixedRunTotal(baseURL: string, timeout: int, b: Benchmark, variables: map<string, string>, traffic: Traffic)
    requires b.requests > 0
    ensures BenchmarkOutcome(baseURL, timeout, b, variables, traffic).Ok?
    ensures BenchmarkOutcome(baseURL, timeout, b, variables, traffic).value.totalRequests == b.requests
  {
    var shares := FixedShares(b.requests, Concurrency(b));
    SharesSum(b.requests, Concurrency(b));
    AttemptsCounted(baseURL, timeout, Template(b), variables, traffic, shares);
  }

  /**
   * An attempt succeeds exactly when the request is built, sent, and its body read; the
   * status code plays no part, so a 500 response is a successful attempt.
   */
  lemma AttemptIgnoresStatus(baseURL: string, timeout: int, test: Test, variables: map<string, string>, io: Io)
    ensures Attempt(baseURL, timeout, test, variables, io).success <==>
      var planned := PlannedRequest(baseURL, timeout, test, variables, io);
      && planned.Ok?
      && io.send(planned.value).Ok?
      && io.send(planned.value).value.body.Ok?
  {
    OutcomeRecord(baseURL, timeout, test, variables, io);
  }

  /**
   * The counters of collectResults: every attempt is a success or a failure, and the least
   * and greatest durations bound all durations and are the seed or one of them.
   */
  lemma {:induction false} CountBounds(rs: seq<RequestResult>, seed: nat)
    ensures var t := Count(rs, seed);
      && t.successes == Successes(rs)
      && t.successes + t.failures == |rs|
      && t.least <= seed && (forall i :: 0 <= i < |rs| ==> t.least <= rs[i].duration)
      && (t.least == seed || exists i :: 0 <= i < |rs| && t.least == rs[i].duration)
      && t.greatest >= seed && (forall i :: 0 <= i < |rs| ==> t.greatest >= rs[i].duration)
      && (t.greatest == seed || exists i :: 0 <= i < |rs| && t.greatest == rs[i].duration)
    decreases |rs|
  {
    if rs != [] {
      var front := rs[..|rs| - 1];
      CountBounds(front, seed);
      var t := Count(front, seed);
      assert forall i :: 0 <= i < |front| ==> front[i] == rs[i];
      if t.least != seed {
        var i :| 0 <= i < |front| && t.least == front[i].duration;
        assert t.least == rs[i].duration;
      }
      if t.greatest != seed {
        var i :| 0 <= i < |front| && t.greatest == front[i].duration;
        assert t.greatest == rs[i].duration;
      }
    }
  }

  /** The least of a non-empty set of durations: at most each, and one of them. */
  ghost predicate IsLeast(d: nat, rs: seq<RequestResult>)
  {
    && (forall i :: 0 <= i < |rs| ==> d <= rs[i].duration)
    && (exists i :: 0 <= i < |rs| && d == rs[i].duration)
  }

  /** The greatest of a non-empty set of durations: at least each, and one of them. */
  ghost predicate IsGreatest(d: nat, rs: seq<RequestResult>)
  {
    && (forall i :: 0 <= i < |rs| ==> d >= rs[i].duration)
    && (exists i :: 0 <= i < |rs| && d == rs[i].duration)
  }

  /**
   * collectResults' aggregate of non-empty attempts: all of them counted, split into
   * successes and failures, with their least and greatest durations.
   */
  lemma AggregateMeaning(rs: seq<RequestResult>)
    ensures rs == [] ==> Aggregate(rs) == Zero
    ensures rs != [] ==> var r := Aggregate(rs);
      && r.totalRequests == |rs|
      && r.successfulReqs == Successes(rs)
      && r.successfulReqs + r.failedReqs == |rs|
      && IsLeast(r.minResponseTime, rs)
      && IsGreatest(r.maxResponseTime, rs)
  {
    if rs != [] {
      CountBounds(rs, rs[0].duration);
    }
  }

  /** Successes over a concatenation add up. */
  lemma {:induction false} SuccessesConcat(p: seq<RequestResult>, q: seq<RequestResult>)
    ensures Successes(p + q) == Successes(p) + Successes(q)
    decreases |q|
  {
    if q == [] {
      assert p + q == p;
    } else {
      var last := |q| - 1;
      assert (p + q)[..|p + q| - 1] == p + q[..last];
      SuccessesConcat(p, q[..last]);
    }
  }

  /** Successes do not depend on the order of the attempts. */
  lemma {:induction false} SuccessesOrderFree(a: seq<RequestResult>, b: seq<RequestResult>)
    requires multiset(a) == multiset(b)
    ensures Successes(a) == Successes(b)
    decreases |a|
  {
    if a != [] {
      var last := a[|a| - 1];
      assert a == a[..|a| - 1] + [last];
      assert last in multiset(b);
      var j :| 0 <= j < |b| && b[j] == last;
      assert b == b[..j] + [last] + b[j + 1..];
      var rest := b[..j] + b[j + 1..];
      calc {
        multiset(b);
        multiset(b[..j] + [last] + b[j + 1..]);
        multiset(b[..j]) + multiset{last} + multiset(b[j + 1..]);
        multiset(rest) + multiset{last};
      }
      assert multiset(a) == multiset(a[..|a| - 1]) + multiset{last};
      assert multiset(a[..|a| - 1]) == multiset(a) - multiset{last};
      assert multiset(rest) == multiset(b) - multiset{last};
      SuccessesOrderFree(a[..|a| - 1], rest);
      SuccessesConcat(b[..j] + [last], b[j + 1..]);
      SuccessesConcat(b[..j], [last]);
      SuccessesConcat(b[..j], b[j + 1..]);
      assert Successes([last]) == if last.success then 1 else 0 by {
        assert [last][..0] == [];
      }
    }
  }

  /** The least and greatest durations do not depend on the order of the attempts. */
  lemma ExtremesOrderFree(d: nat, a: seq<RequestResult>, b: seq<RequestResult>)
    requires multiset(a) == multiset(b)
    ensures IsLeast(d, a) ==> IsLeast(d, b)
    ensures IsGreatest(d, a) ==> IsGreatest(d, b)
  {
    forall j | 0 <= j < |b|
      ensures exists i :: 0 <= i < |a| && a[i] == b[j]
    {
      assert b[j] in multiset(a);
    }
    forall i | 0 <= i < |a|
      ensures exists j :: 0 <= j < |b| && b[j] == a[i]
    {
      assert a[i] in multiset(b);
    }
  }

  /** The unique least duration. */
  lemma LeastUnique(d: nat, e: nat, rs: seq<RequestResult>)
    requires IsLeast(d, rs) && IsLeast(e, rs)
    ensures d == e
  {
    var i :| 0 <= i < |rs| && d == rs[i].duration;
    var j :| 0 <= j < |rs| && e == rs[j].duration;
  }

  /** The unique greatest duration. */
  lemma GreatestUnique(d: nat, e: nat, rs: seq<RequestResult>)
    requires IsGreatest(d, rs) && IsGreatest(e, rs)
    ensures d == e
  {
    var i :| 0 <= i < |rs| && d == rs[i].duration;
    var j :| 0 <= j < |rs| && e == rs[j].duration;
  }

  /**
   * The workers' results reach collectResults through a channel in whatever order they
   * interleave; the aggregate is the same for every order.
   */
  lemma AggregateOrderFree(a: seq<RequestResult>, b: seq<RequestResult>)
    requires multiset(a) == multiset(b)
    ensures Aggregate(a) == Aggregate(b)
  {
    assert |a| == |multiset(a)| == |multiset(b)| == |b|;
    AggregateMeaning(a);
    AggregateMeaning(b);
    if a != [] {
      var ra, rb := Aggregate(a), Aggregate(b);
      SuccessesOrderFree(a, b);
      ExtremesOrderFree(ra.minResponseTime, a, b);
      ExtremesOrderFree(ra.maxResponseTime, a, b);
      LeastUnique(ra.minResponseTime, rb.minResponseTime, b);
      GreatestUnique(ra.maxResponseTime, rb.maxResponseTime, b);
    }
  }

  /** A batch succeeds exactly when every benchmark does, with their results in input order. */
  lemma {:induction false} BatchAllOk(benchmarks: seq<Benchmark>, measure: Measures)
    ensures Batch(benchmarks, measure).Ok? <==> forall i :: 0 <= i < |benchmarks| ==> measure(benchmarks[i]).Ok?
    ensures Batch(benchmarks, measure).Ok? ==>
      && |Batch(benchmarks, measure).value| == |benchmarks|
      && forall i :: 0 <= i < |benchmarks| ==> Batch(benchmarks, measure).value[i] == measure(benchmarks[i]).value
    decreases |benchmarks|
  {
    if benchmarks != [] {
      var rest := benchmarks[1..];
      BatchAllOk(rest, measure);
      assert forall i :: 1 <= i < |benchmarks| ==> benchmarks[i] == rest[i - 1];
    }
  }

  /**
   * A failed batch reports the first failing benchmark by name, with its error; the ones
   * before it succeeded and the ones after it were not run.
   */
  lemma {:induction false} BatchFirstError(benchmarks: seq<Benchmark>, measure: Measures)
    requires Batch(benchmarks, measure).Err?
    ensures exists i :: (
      && 0 <= i < |benchmarks|
      && (forall j :: 0 <= j < i ==> measure(benchmarks[j]).Ok?)
      && measure(benchmarks[i]).Err?
      && Batch(benchmarks, measure).error == BenchmarkFailed(benchmarks[i].name, measure(benchmarks[i]).error))
    decreases |benchmarks|
  {
    var b := benchmarks[0];
    if measure(b).Ok? {
      var rest := benchmarks[1..];
      BatchFirstError(rest, measure);
      var i :| 0 <= i < |rest|
        && (forall j :: 0 <= j < i ==> measure(rest[j]).Ok?)
        && measure(rest[i]).Err?
        && Batch(rest, measure).error == BenchmarkFailed(rest[i].name, measure(rest[i]).error);
      assert benchmarks[i + 1] == rest[i];
      assert forall j :: 1 <= j < i + 1 ==> benchmarks[j] == rest[j - 1];
    }
  }
}
