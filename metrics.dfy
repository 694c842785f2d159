/** The metric extractor: the company-info attributes cut down to the metric
    names a request asks for. */
module Metrics {
  import opened Seqs
  import opened Dicts

  /** The requested names that `info` has, in request order. */
  function Available<V>(info: map<string, V>, names: seq<string>): (r: seq<string>)
    ensures forall m :: m in r <==> m in names && m in info
    ensures NoDuplicates(names) ==> NoDuplicates(r)
    ensures |r| <= |names|
    decreases |names|
  {
    if names == [] then []
    else
      var init, last := names[..|names| - 1], names[|names| - 1];
      assert names == init + [last];
      Available(info, init) + if last in info then [last] else []
  }

  /** Keeping only the available names keeps their relative order. */
  lemma {:induction false} AvailableInOrder<V>(info: map<string, V>, names: seq<string>, s: seq<string>)
    requires InFirstOccurrenceOrder(names, s)
    ensures InFirstOccurrenceOrder(Available(info, names), s)
    decreases |names|
  {
    if names != [] {
      var init, last := names[..|names| - 1], names[|names| - 1];
      assert names == init + [last];
      OrderedPrefix(names, s, |names| - 1);
      AvailableInOrder(info, init, s);
      var prefix := Available(info, init);
      if last in info {
        forall y | y in prefix ensures y in s && FirstIndex(s, y) < FirstIndex(s, last) {
          var k :| 0 <= k < |init| && init[k] == y;
          assert names[k] == y;
        }
        OrderedSnoc(prefix, last, s);
      }
    }
  }

  /** `analyze_metrics`: the requested metrics assigned one by one, in request
      order, into a fresh dict, each one that `info` has with its value there. */
  function Projection<V>(info: map<string, V>, metrics: seq<string>): Dict<string, V>
    decreases |metrics|
  {
    if metrics == [] then Empty()
    else
      var init, last := metrics[..|metrics| - 1], metrics[|metrics| - 1];
      var before := Projection(info, init);
      if last in info then Assign(before, last, info[last]) else before
  }

  /** The same analysis described at once: every requested metric that `info`
      has, once, in the order of first request, with the value `info` gives it. */
  function Selection<V>(info: map<string, V>, metrics: seq<string>): Dict<string, V> {
    Dict(Available(info, Distinct(metrics)), Requested(info, metrics))
  }

  /** The entries of `info` whose keys are requested. */
  function Requested<V>(info: map<string, V>, metrics: seq<string>): map<string, V> {
    map m | m in metrics && m in info :: info[m]
  }

  lemma {:induction false} AvailableSnoc<V>(info: map<string, V>, names: seq<string>, m: string)
    ensures Available(info, names + [m]) == Available(info, names) + if m in info then [m] else []
  {
    var s := names + [m];
    assert s[..|s| - 1] == names;
  }

  lemma {:induction false} SelectionStepKeys<V>(info: map<string, V>, metrics: seq<string>, m: string)
    ensures Selection(info, metrics + [m]).keys ==
      Selection(info, metrics).keys + if m in info && m !in metrics then [m] else []
  {
    var d := Distinct(metrics);
    DistinctSnoc(metrics, m);
    if m !in metrics {
      AvailableSnoc(info, d, m);
    }
  }

  lemma RequestedStep<V>(info: map<string, V>, metrics: seq<string>, m: string)
    ensures m in info ==> Requested(info, metrics + [m]) == Requested(info, metrics)[m := info[m]]
    ensures m !in info ==> Requested(info, metrics + [m]) == Requested(info, metrics)
  {
    var after, before := Requested(info, metrics + [m]), Requested(info, metrics);
    forall k ensures k in after <==> k in before || (k == m && m in info) {
      assert k in metrics + [m] <==> k in metrics || k == m;
    }
    if m in info {
      assert after == before[m := info[m]];
    } else {
      assert after == before;
    }
  }

  /** The one-by-one assignment and the description at once agree. */
  lemma {:induction false} ProjectionIsSelection<V>(info: map<string, V>, metrics: seq<string>)
    ensures Projection(info, metrics) == Selection(info, metrics)
    decreases |metrics|
  {
    if metrics != [] {
      var init, last := metrics[..|metrics| - 1], metrics[|metrics| - 1];
      assert metrics == init + [last];
      ProjectionIsSelection(info, init);
      SelectionStepKeys(info, init, last);
      RequestedStep(info, init, last);
    }
  }

  /** The analysis has a key exactly for each requested metric that `info` has,
      each listed once, with the value `info` gives it; a missing metric is
      simply left out. */
  lemma ProjectionContents<V>(info: map<string, V>, metrics: seq<string>)
    ensures var r := Projection(info, metrics);
      && r.Valid()
      && (forall m :: m in r.entries <==> m in metrics && m in info)
      && (forall m | m in r.entries :: r.entries[m] == info[m])
      && |r.keys| <= |metrics|
  {
    ProjectionIsSelection(info, metrics);
  }

  /** The analysis lists its metrics in the order they were first requested. */
  lemma ProjectionInRequestOrder<V>(info: map<string, V>, metrics: seq<string>)
    ensures InFirstOccurrenceOrder(Projection(info, metrics).keys, metrics)
  {
    ProjectionIsSelection(info, metrics);
    DistinctInFirstOccurrenceOrder(metrics);
    AvailableInOrder(info, Distinct(metrics), metrics);
  }

  /** Asking for a metric twice gives the same analysis as asking once. */
  lemma ProjectionIgnoresRepeats<V>(info: map<string, V>, metrics: seq<string>)
    ensures Projection(info, Distinct(metrics)) == Projection(info, metrics)
  {
    var d := Distinct(metrics);
    ProjectionIsSelection(info, metrics);
    ProjectionIsSelection(info, d);
    DistinctOfNoDuplicates(d);
    var a, b := Requested(info, d), Requested(info, metrics);
    forall k ensures k in a <==> k in b {
      assert k in d <==> k in metrics;
    }
    assert a == b;
    assert Selection(info, d) == Dict(Available(info, d), a);
  }
}
