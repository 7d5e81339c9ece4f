/** A Prometheus gauge sample: descriptor name, label values, value (exact). */
module Metrics {
  import opened Collections

  /** Dashboard and quota sizes are taken as decimal gigabytes. */
  const GB_TO_BYTES := 1000000000.0

  datatype Metric = Metric(name: string, labels: seq<string>, value: real)

  /** A gauge for a reading that may be missing or unreadable. */
  function Gauge(name: string, labels: seq<string>, value: Option<real>, scale: real): seq<Metric> {
    if value.Some? then [Metric(name, labels, value.value * scale)] else []
  }

  /** Among these metrics the gauge of that name and those labels stands for the reading: it is there
      exactly if the reading is, and its value is the reading, scaled. */
  ghost predicate Shows(metrics: seq<Metric>, name: string, labels: seq<string>, reading: Option<real>, scale: real) {
    forall v :: Metric(name, labels, v) in metrics <==> reading.Some? && v == reading.value * scale
  }

  /** The two agree on the gauges of that name. */
  ghost predicate AgreeOn(part: seq<Metric>, whole: seq<Metric>, name: string) {
    forall m: Metric :: m.name == name ==> (m in whole <==> m in part)
  }

  lemma StillShows(part: seq<Metric>, whole: seq<Metric>, name: string, labels: seq<string>, reading: Option<real>,
      scale: real)
    requires Shows(part, name, labels, reading, scale) && AgreeOn(part, whole, name)
    ensures Shows(whole, name, labels, reading, scale)
  {
  }

  ghost predicate LabelledBy(metrics: seq<Metric>, first: string) {
    forall m :: m in metrics ==> m.labels != [] && m.labels[0] == first
  }
}
