/**
 * `src/utils/performance.ts`: the monitor keeps at most 100 metrics, pushing each new one and dropping
 * the oldest when over capacity. The browser's measure entries are a parameter of `endMeasure`, and
 * times are whole milliseconds.
 */
module Performance {
  import opened Wrappers
  import opened Bounded

  datatype PerformanceMetric = PerformanceMetric(name: string, startTime: int, duration: int, data: Option<string>)

  /** One entry of `performance.getEntriesByName(name)`. */
  datatype MeasureEntry = MeasureEntry(startTime: int, duration: int)

  /** `maxMetrics`. */
  const MAX_METRICS: nat := 100

  /** What `endMeasure` records for the entries the browser lists under the name: the last one, if any. */
  function MeasuredMetric(name: string, entries: seq<MeasureEntry>): (r: Option<PerformanceMetric>)
    ensures r.None? <==> entries == []
    ensures r.Some? ==> r.value == PerformanceMetric(name, entries[|entries| - 1].startTime, entries[|entries| - 1].duration, None)
  {
    if entries == [] then None
    else
      var last := entries[|entries| - 1];
      Some(PerformanceMetric(name, last.startTime, last.duration, None))
  }

  class PerformanceMonitor {
    /** The private `metrics` buffer. */
    var metrics: seq<PerformanceMetric>
    /** Every metric added since the monitor was made, oldest first. */
    ghost var history: seq<PerformanceMetric>

    /** The buffer holds the last min(n, 100) metrics of the history, in order. */
    ghost predicate Valid()
      reads this
    {
      metrics == LastN(history, MAX_METRICS)
    }

    constructor ()
      ensures Valid()
      ensures metrics == [] && history == []
    {
      metrics := [];
      history := [];
    }

    /** `addMetric`: push the metric, then shift the oldest one out when over capacity. */
    method AddMetric(name: string, startTime: int, duration: int, data: Option<string>)
      requires Valid()
      modifies this
      ensures Valid()
      ensures history == old(history) + [PerformanceMetric(name, startTime, duration, data)]
      ensures metrics == Push(old(metrics), PerformanceMetric(name, startTime, duration, data), MAX_METRICS)
      ensures |metrics| <= MAX_METRICS && metrics[|metrics| - 1] == PerformanceMetric(name, startTime, duration, data)
      ensures |old(metrics)| < MAX_METRICS ==> metrics == old(metrics) + [PerformanceMetric(name, startTime, duration, data)]
      ensures |old(metrics)| == MAX_METRICS ==> metrics == old(metrics)[1..] + [PerformanceMetric(name, startTime, duration, data)]
    {
      var metric := PerformanceMetric(name, startTime, duration, data);
      PushWithinCap(metrics, metric, MAX_METRICS);
      PushKeepsLast(history, metric, MAX_METRICS);
      metrics := metrics + [metric];
      if |metrics| > MAX_METRICS {
        metrics := metrics[1..];
      }
      history := history + [metric];
    }

    /** `endMeasure`: a metric is added only when the performance API exists and lists an entry for the name. */
    method EndMeasure(name: string, performanceAvailable: bool, entries: seq<MeasureEntry>)
      requires Valid()
      modifies this
      ensures Valid()
      ensures performanceAvailable && MeasuredMetric(name, entries).Some? ==>
        history == old(history) + [MeasuredMetric(name, entries).value] &&
        metrics == Push(old(metrics), MeasuredMetric(name, entries).value, MAX_METRICS)
      ensures !performanceAvailable || entries == [] ==> metrics == old(metrics) && history == old(history)
    {
      if performanceAvailable {
        var lastEntry := MeasuredMetric(name, entries);
        if lastEntry.Some? {
          AddMetric(name, lastEntry.value.startTime, lastEntry.value.duration, None);
        }
      }
    }

    /** `getMetrics`: a new array holding the buffer. */
    method GetMetrics() returns (copy: array<PerformanceMetric>)
      ensures fresh(copy)
      ensures copy[..] == metrics
    {
      copy := new PerformanceMetric[|metrics|](i requires 0 <= i < |metrics| reads this => metrics[i]);
    }
  }
}
