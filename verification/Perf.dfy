/**
 The perf collector: six Flux queries run concurrently, and their answers turned into metrics
 under one mutex.  Every schedule of the six goroutines is a run of `CollectPerf`'s loop; all of
 them agree with running the six in sequence, up to order.
 */
module Perf {
  import opened Collections
  import opened AuthClient
  import opened FluxDecode
  import opened Metrics

  const SUCCEEDED := "succeed_request_counter"
  const FAILED := "failed_request_counter"
  const READ_BYTES := "total_read_requests_size"
  const WRITE_BYTES := "total_write_requests_size"
  const P50 := "p50"
  const SYSTEM_ERRORS := "system_errors"
  const USER_ERRORS := "user_errors"
  const HEAD := "head"

  // ---------------------------------------------------------------- sumTPS and findField

  predicate IsCounter(r: FluxResult) { r.field == SUCCEEDED || r.field == FAILED }

  function Tps(results: seq<FluxResult>): real {
    if results == [] then 0.0
    else
      var last := results[|results| - 1];
      Tps(results[..|results| - 1]) + (if IsCounter(last) then last.value else 0.0)
  }

  predicate HasCounter(results: seq<FluxResult>) { exists r :: r in results && IsCounter(r) }

  method SumTPS(results: seq<FluxResult>) returns (sum: real, found: bool)
    ensures sum == Tps(results) && found == HasCounter(results)
  {
    sum, found := 0.0, false;
    for i := 0 to |results|
      invariant sum == Tps(results[..i]) && found == HasCounter(results[..i])
    {
      var r := results[i];
      assert results[..i + 1] == results[..i] + [r];
      if r.field == SUCCEEDED || r.field == FAILED {
        sum := sum + r.value;
        found := true;
        assert r in results[..i + 1];
      }
    }
    assert results[..|results|] == results;
  }

  lemma {:induction false} TpsConcat(a: seq<FluxResult>, b: seq<FluxResult>)
    ensures Tps(a + b) == Tps(a) + Tps(b)
    ensures HasCounter(a + b) <==> HasCounter(a) || HasCounter(b)
  {
    if b == [] {
      assert a + b == a;
    } else {
      assert (a + b)[..|a + b| - 1] == a + b[..|b| - 1];
      TpsConcat(a, b[..|b| - 1]);
    }
  }

  /** What counts: the values of the succeeded and of the failed request counters, and no others. */
  lemma TpsOfOne(r: FluxResult)
    ensures var counts := r.field == "succeed_request_counter" || r.field == "failed_request_counter";
            Tps([r]) == (if counts then r.value else 0.0) && (HasCounter([r]) <==> counts)
  {
    assert [r][..0] == [];
    assert r in [r];
  }

  /** The rate does not depend on the order of the results. */
  lemma {:induction false} TpsReordered(a: seq<FluxResult>, b: seq<FluxResult>)
    requires multiset(a) == multiset(b)
    ensures Tps(a) == Tps(b) && (HasCounter(a) <==> HasCounter(b))
    decreases |a|
  {
    forall r ensures r in a <==> r in b {
      assert r in multiset(a) <==> r in multiset(b);
    }
    if a == [] {
      assert |multiset(a)| == 0 == |multiset(b)|;
    } else {
      var l, r := TakeOut(a, b);
      var x := a[|a| - 1];
      TpsReordered(a[..|a| - 1], l + r);
      TpsConcat(l, r);
      TpsConcat(l, [x]);
      TpsConcat(l + [x], r);
    }
  }

  /** The reported rate is the total over all series of an answer, in whatever order the series
      and their rows come. */
  lemma TpsOfAnswer(codec: Codec, a: seq<FluxSeries>, b: seq<FluxSeries>)
    ensures Tps(DecodeAll(codec, a + b)) == Tps(DecodeAll(codec, a)) + Tps(DecodeAll(codec, b))
    ensures multiset(a) == multiset(b) ==> Tps(DecodeAll(codec, a)) == Tps(DecodeAll(codec, b))
  {
    DecodeAllConcat(codec, a, b);
    TpsConcat(DecodeAll(codec, a), DecodeAll(codec, b));
    if multiset(a) == multiset(b) {
      SeriesMayBeReordered(codec, a, b);
      TpsReordered(DecodeAll(codec, a), DecodeAll(codec, b));
    }
  }

  lemma TpsOfReorderedRows(codec: Codec, columns: seq<string>, a: seq<seq<string>>, b: seq<seq<string>>)
    requires multiset(a) == multiset(b)
    ensures Tps(DecodeRows(codec, columns, a)) == Tps(DecodeRows(codec, columns, b))
  {
    RowsMayBeReordered(codec, columns, a, b);
    TpsReordered(DecodeRows(codec, columns, a), DecodeRows(codec, columns, b));
  }

  /** `findField`: the first result of that field. */
  function FindField(results: seq<FluxResult>, field: string): (r: Option<real>)
    ensures r == None <==> forall x :: x in results ==> x.field != field
    ensures r.Some? ==> exists i :: 0 <= i < |results| && results[i].field == field && r.value == results[i].value
                                    && forall j :: 0 <= j < i ==> results[j].field != field
  {
    if results == [] then None
    else if results[0].field == field then Some(results[0].value)
    else
      var r := FindField(results[1..], field);
      assert forall x :: x in results <==> x == results[0] || x in results[1..];
      assert r.Some? ==> exists i :: 0 < i < |results| && results[i].field == field && r.value == results[i].value
                                     && forall j :: 0 <= j < i ==> results[j].field != field by {
        if r.Some? {
          var i :| 0 <= i < |results[1..]| && results[1..][i].field == field && r.value == results[1..][i].value
                   && forall j :: 0 <= j < i ==> results[1..][j].field != field;
          assert results[i + 1] == results[1..][i];
          assert forall j :: 0 < j < i + 1 ==> results[j] == results[1..][j - 1];
        }
      }
      r
  }

  // ---------------------------------------------------------------- the six goroutines

  /** The answer to one query. */
  datatype Answer = QueryFailed(error: Error) | Answered(results: seq<FluxResult>)

  const JOBS := 6

  function ThroughputMetric(vdc: string, r: FluxResult): seq<Metric> {
    if r.field == READ_BYTES then [Metric("obs_perf_read_bytes_per_second", [vdc], r.value)]
    else if r.field == WRITE_BYTES then [Metric("obs_perf_write_bytes_per_second", [vdc], r.value)]
    else []
  }

  function ErrorMetric(vdc: string, r: FluxResult): seq<Metric> {
    var errorType := if HEAD in r.tags then r.tags[HEAD] else "";
    if r.field == SYSTEM_ERRORS then [Metric("obs_perf_transaction_errors", [vdc, "system", errorType], r.value)]
    else if r.field == USER_ERRORS then [Metric("obs_perf_transaction_errors", [vdc, "user", errorType], r.value)]
    else []
  }

  function TpsMetric(name: string, vdc: string, results: seq<FluxResult>): seq<Metric> {
    if HasCounter(results) then [Metric(name, [vdc], Tps(results))] else []
  }

  function LatencyMetric(name: string, vdc: string, results: seq<FluxResult>): seq<Metric> {
    match FindField(results, P50)
    case Some(v) => [Metric(name, [vdc], v / 1000.0)]
    case None => []
  }

  /** The metrics goroutine k adds, one `addMetrics` each, in its order. */
  function JobMetrics(vdc: string, k: nat, answer: Answer): seq<Metric> {
    if answer.QueryFailed? then []
    else
      var results := answer.results;
      if k == 0 then FlatMap(r => ThroughputMetric(vdc, r), results)
      else if k == 1 then TpsMetric("obs_perf_read_transactions_per_second", vdc, results)
      else if k == 2 then TpsMetric("obs_perf_write_transactions_per_second", vdc, results)
      else if k == 3 then LatencyMetric("obs_perf_read_latency_seconds", vdc, results)
      else if k == 4 then LatencyMetric("obs_perf_write_latency_seconds", vdc, results)
      else FlatMap(r => ErrorMetric(vdc, r), results)
  }

  // ---------------------------------------------------------------- what each goroutine reports

  /** Goroutine 0 reports byte rates, result by result. */
  lemma ThroughputGauges(vdc: string, r: FluxResult, a: seq<FluxResult>, b: seq<FluxResult>)
    ensures JobMetrics(vdc, 0, Answered([r])) ==
            if r.field == "total_read_requests_size" then [Metric("obs_perf_read_bytes_per_second", [vdc], r.value)]
            else if r.field == "total_write_requests_size" then
              [Metric("obs_perf_write_bytes_per_second", [vdc], r.value)]
            else []
    ensures JobMetrics(vdc, 0, Answered(a + b)) == JobMetrics(vdc, 0, Answered(a)) + JobMetrics(vdc, 0, Answered(b))
  {
    var f := x => ThroughputMetric(vdc, x);
    FlatMapOfOne(f, r);
    FlatMapConcat(f, a, b);
  }

  /** Goroutines 1 and 2 report the total rate of reads and of writes, if a counter was answered. */
  lemma RateGauges(vdc: string, results: seq<FluxResult>)
    ensures var counted := (exists r :: r in results
                              && (r.field == "succeed_request_counter" || r.field == "failed_request_counter"));
            && JobMetrics(vdc, 1, Answered(results)) ==
               (if counted then [Metric("obs_perf_read_transactions_per_second", [vdc], Tps(results))] else [])
            && JobMetrics(vdc, 2, Answered(results)) ==
               (if counted then [Metric("obs_perf_write_transactions_per_second", [vdc], Tps(results))] else [])
  {
  }

  /** Goroutines 3 and 4 report the first median of reads and of writes, milliseconds as seconds. */
  lemma LatencyGauges(vdc: string, results: seq<FluxResult>, i: nat)
    ensures (forall r :: r in results ==> r.field != "p50") ==>
              JobMetrics(vdc, 3, Answered(results)) == JobMetrics(vdc, 4, Answered(results)) == []
    ensures i < |results| && results[i].field == "p50" && (forall j :: 0 <= j < i ==> results[j].field != "p50") ==>
              && JobMetrics(vdc, 3, Answered(results)) ==
                 [Metric("obs_perf_read_latency_seconds", [vdc], results[i].value / 1000.0)]
              && JobMetrics(vdc, 4, Answered(results)) ==
                 [Metric("obs_perf_write_latency_seconds", [vdc], results[i].value / 1000.0)]
  {
    var found := FindField(results, P50);
    if found.Some? {
      var k :| 0 <= k < |results| && results[k].field == "p50" && found.value == results[k].value
               && forall j :: 0 <= j < k ==> results[j].field != "p50";
      assert results[k] in results;
    }
  }

  /** Goroutine 5 reports system and user errors, result by result, by their `head` tag. */
  lemma ErrorGauges(vdc: string, r: FluxResult, a: seq<FluxResult>, b: seq<FluxResult>)
    ensures var head := if "head" in r.tags then r.tags["head"] else "";
            JobMetrics(vdc, 5, Answered([r])) ==
            if r.field == "system_errors" then [Metric("obs_perf_transaction_errors", [vdc, "system", head], r.value)]
            else if r.field == "user_errors" then [Metric("obs_perf_transaction_errors", [vdc, "user", head], r.value)]
            else []
    ensures JobMetrics(vdc, 5, Answered(a + b)) == JobMetrics(vdc, 5, Answered(a)) + JobMetrics(vdc, 5, Answered(b))
  {
    var f := x => ErrorMetric(vdc, x);
    FlatMapOfOne(f, r);
    FlatMapConcat(f, a, b);
  }

  /** A failed query reports nothing. */
  lemma FailedJobIsSilent(vdc: string, k: nat, error: Error)
    ensures JobMetrics(vdc, k, QueryFailed(error)) == []
  {
  }

  /** The six in sequence. */
  function Sequential(vdc: string, answers: seq<Answer>): seq<Metric> {
    if answers == [] then []
    else Sequential(vdc, answers[..|answers| - 1]) + JobMetrics(vdc, |answers| - 1, answers[|answers| - 1])
  }

  /** It starts from nothing and appends goroutine k's report on its own query's answer. */
  lemma SequentialAppends(vdc: string, answers: seq<Answer>, k: nat)
    requires k < |answers|
    ensures Sequential(vdc, answers[..0]) == []
    ensures Sequential(vdc, answers[..k + 1]) == Sequential(vdc, answers[..k]) + JobMetrics(vdc, k, answers[k])
  {
    assert answers[..k + 1][..k] == answers[..k];
  }

  method RunThroughput(vdc: string, results: seq<FluxResult>) returns (metrics: seq<Metric>)
    ensures metrics == FlatMap(r => ThroughputMetric(vdc, r), results)
  {
    metrics := [];
    var f := r => ThroughputMetric(vdc, r);
    for i := 0 to |results|
      invariant metrics == FlatMap(f, results[..i])
    {
      var r := results[i];
      assert results[..i + 1][..i] == results[..i];
      if r.field == READ_BYTES {
        metrics := metrics + [Metric("obs_perf_read_bytes_per_second", [vdc], r.value)];
      } else if r.field == WRITE_BYTES {
        metrics := metrics + [Metric("obs_perf_write_bytes_per_second", [vdc], r.value)];
      }
    }
    assert results[..|results|] == results;
  }

  method RunErrors(vdc: string, results: seq<FluxResult>) returns (metrics: seq<Metric>)
    ensures metrics == FlatMap(r => ErrorMetric(vdc, r), results)
  {
    metrics := [];
    var f := r => ErrorMetric(vdc, r);
    for i := 0 to |results|
      invariant metrics == FlatMap(f, results[..i])
    {
      var r := results[i];
      assert results[..i + 1][..i] == results[..i];
      var errorType := if HEAD in r.tags then r.tags[HEAD] else "";
      if r.field == SYSTEM_ERRORS {
        metrics := metrics + [Metric("obs_perf_transaction_errors", [vdc, "system", errorType], r.value)];
      } else if r.field == USER_ERRORS {
        metrics := metrics + [Metric("obs_perf_transaction_errors", [vdc, "user", errorType], r.value)];
      }
    }
    assert results[..|results|] == results;
  }

  method RunJob(vdc: string, k: nat, answer: Answer) returns (metrics: seq<Metric>)
    ensures metrics == JobMetrics(vdc, k, answer)
  {
    metrics := [];
    if answer.QueryFailed? {
      return;
    }
    var results := answer.results;
    if k == 1 || k == 2 {
      var sum, found := SumTPS(results);
      if found {
        var name := if k == 1 then "obs_perf_read_transactions_per_second"
            else "obs_perf_write_transactions_per_second";
        metrics := [Metric(name, [vdc], sum)];
      }
    } else if k == 3 {
      metrics := LatencyMetric("obs_perf_read_latency_seconds", vdc, results);
    } else if k == 4 {
      metrics := LatencyMetric("obs_perf_write_latency_seconds", vdc, results);
    } else if k == 0 {
      metrics := RunThroughput(vdc, results);
    } else {
      metrics := RunErrors(vdc, results);
    }
  }

  /** All metrics the goroutines have still to add. */
  ghost function Pool(pending: seq<seq<Metric>>): multiset<Metric> {
    if pending == [] then multiset{} else Pool(pending[..|pending| - 1]) + multiset(pending[|pending| - 1])
  }

  lemma {:induction false} PoolTake(pending: seq<seq<Metric>>, k: nat)
    requires k < |pending| && pending[k] != []
    ensures Pool(pending) == Pool(pending[k := pending[k][1..]]) + multiset{pending[k][0]}
  {
    var n, after := |pending| - 1, pending[k := pending[k][1..]];
    assert pending[k] == [pending[k][0]] + pending[k][1..];
    if k < n {
      PoolTake(pending[..n], k);
      assert pending[..n][k := pending[k][1..]] == after[..n];
    } else {
      assert pending[..n] == after[..n];
    }
  }

  lemma {:induction false} PoolEmpty(pending: seq<seq<Metric>>)
    requires forall k :: 0 <= k < |pending| ==> pending[k] == []
    ensures Pool(pending) == multiset{}
  {
    if pending != [] {
      PoolEmpty(pending[..|pending| - 1]);
    }
  }

  ghost function FailedJobs(answers: seq<Answer>): set<nat> {
    set k: nat | k < |answers| && answers[k].QueryFailed?
  }

  /** Goroutines about to enter the mutex: to record their error, or to add their next metric. */
  function Ready(pending: seq<seq<Metric>>, unrecorded: set<nat>): set<nat> {
    set k: nat | k < |pending| && (k in unrecorded || pending[k] != [])
  }

  /** The goroutines run to their end; which ready one goes next is not determined. */
  method Schedule(answers: seq<Answer>, jobs: seq<seq<Metric>>) returns (metrics: seq<Metric>, firstErr: Option<Error>)
    requires |jobs| == |answers|
    ensures multiset(metrics) == Pool(jobs)
    ensures firstErr.Some? <==> FailedJobs(answers) != {}
    ensures firstErr.Some? ==> QueryFailed(firstErr.value) in answers
  {
    var pending := jobs;
    var unrecorded := set k: nat | k < |answers| && answers[k].QueryFailed?;
    metrics, firstErr := [], None;
    var ready := Ready(pending, unrecorded);
    while ready != {}
      invariant |pending| == |answers| && unrecorded <= FailedJobs(answers)
      invariant ready == Ready(pending, unrecorded)
      invariant multiset(metrics) + Pool(pending) == Pool(jobs)
      invariant firstErr.Some? ==> QueryFailed(firstErr.value) in answers && FailedJobs(answers) != {}
      invariant firstErr == None ==> unrecorded == FailedJobs(answers)
      decreases |Pool(pending)| + |unrecorded|
    {
      var k :| k in ready;
      if k in unrecorded {
        if firstErr == None {
          firstErr := Some(answers[k].error);
        }
        unrecorded := unrecorded - {k};
      } else {
        PoolTake(pending, k);
        metrics, pending := metrics + [pending[k][0]], pending[k := pending[k][1..]];
      }
      ready := Ready(pending, unrecorded);
    }
    forall k: nat | k < |pending| ensures pending[k] == [] && k !in unrecorded {
      assert k !in Ready(pending, unrecorded);
    }
    PoolEmpty(pending);
  }

  /** Under every schedule: an error comes back exactly if the six in sequence yield no metric and
      one of them failed, and it is one of their errors; otherwise the metrics are those of the six
      in sequence, up to order. */
  method CollectPerf(vdc: string, answers: seq<Answer>) returns (metrics: seq<Metric>, err: Option<Error>)
    requires |answers| == 6
    ensures err.Some? <==> Sequential(vdc, answers) == [] && FailedJobs(answers) != {}
    ensures err.Some? ==> QueryFailed(err.value) in answers && metrics == []
    ensures multiset(metrics) == multiset(Sequential(vdc, answers))
  {
    var jobs: seq<seq<Metric>> := [];
    for k := 0 to JOBS
      invariant |jobs| == k && Pool(jobs) == multiset(Sequential(vdc, answers[..k]))
    {
      var added := RunJob(vdc, k, answers[k]);
      assert answers[..k + 1][..k] == answers[..k];
      assert (jobs + [added])[..k] == jobs;
      jobs := jobs + [added];
    }
    assert answers[..JOBS] == answers;
    var firstErr;
    metrics, firstErr := Schedule(answers, jobs);
    assert |metrics| == |multiset(metrics)| == |Sequential(vdc, answers)|;
    err := if |metrics| == 0 then firstErr else None;
  }
}
