/** The metrics backend seen from the exporter: labelled gauge series kept
    as a map from (metric name, label values in declaration order) to a
    value, the unlabelled node-count gauge and the error counter. */
module Metrics {

  /** The labelled gauges the exporter declares. */
  datatype Gauge =
    | TopicDepthGauge     // labels `topic`, `node`
    | MessageCountGauge   // labels `topic`, `node`
    | ChannelDepthGauge   // labels `topic`, `channel`

  /** The metric name each gauge is exported under. */
  function GaugeName(g: Gauge): string
  {
    match g
    case TopicDepthGauge => "nsq_topic_depth"
    case MessageCountGauge => "nsq_message_count"
    case ChannelDepthGauge => "nsq_depth"
  }

  const NodeCountName: string := "nsq_nsqd_node_count"
  const ErrorCountName: string := "nsq_watcher_error_count"

  /** The gauges are told apart by their exported names, and none of them is
      exported under the name of the node gauge or the error counter, so
      keying series by `Gauge` loses nothing. */
  lemma GaugeNamesDistinct(g1: Gauge, g2: Gauge)
    ensures GaugeName(g1) == GaugeName(g2) ==> g1 == g2
    ensures GaugeName(g1) != NodeCountName && GaugeName(g1) != ErrorCountName
  {
    assert GaugeName(TopicDepthGauge)[4] == 't';
    assert GaugeName(MessageCountGauge)[4] == 'm';
    assert GaugeName(ChannelDepthGauge)[4] == 'd';
    assert NodeCountName[4] == 'n' && ErrorCountName[4] == 'w';
  }

  /** One labelled series: a gauge and its label values in declaration order. */
  datatype SeriesKey = SeriesKey(gauge: Gauge, labels: seq<string>)

  datatype Registry = Registry(nodeCount: int, errorCount: nat, gauges: map<SeriesKey, int>)

  /** A fresh registry: no labelled series, both unlabelled metrics at 0. */
  function EmptyRegistry(): (r: Registry)
    ensures r.nodeCount == 0 && r.errorCount == 0 && |r.gauges| == 0
  {
    Registry(0, 0, map[])
  }

  /** `gauge.set({labels}, value)`: creates or overwrites one series. */
  function SetGauge(r: Registry, gauge: Gauge, labels: seq<string>, value: int): (r': Registry)
    ensures r'.gauges.Keys == r.gauges.Keys + {SeriesKey(gauge, labels)}
    ensures r'.gauges[SeriesKey(gauge, labels)] == value
    ensures forall sk :: sk in r.gauges && sk != SeriesKey(gauge, labels) ==> r'.gauges[sk] == r.gauges[sk]
    ensures r'.nodeCount == r.nodeCount && r'.errorCount == r.errorCount
  {
    r.(gauges := r.gauges[SeriesKey(gauge, labels) := value])
  }

  /** `gauge.remove(...labels)` for every series in `keys`; removing an
      absent series changes nothing. */
  function RemoveSeries(r: Registry, keys: set<SeriesKey>): (r': Registry)
    ensures r'.gauges.Keys == r.gauges.Keys - keys
    ensures forall sk :: sk in r'.gauges ==> r'.gauges[sk] == r.gauges[sk]
    ensures r'.nodeCount == r.nodeCount && r'.errorCount == r.errorCount
  {
    r.(gauges := r.gauges - keys)
  }

  /** `nodeGauge.set(value)` on the unlabelled node-count gauge. */
  function SetNodeCount(r: Registry, value: int): (r': Registry)
    ensures r'.nodeCount == value
    ensures r'.gauges == r.gauges && r'.errorCount == r.errorCount
  {
    r.(nodeCount := value)
  }

  /** `errorCounter.inc()`. */
  function IncErrorCount(r: Registry): (r': Registry)
    ensures r'.errorCount == r.errorCount + 1
    ensures r'.gauges == r.gauges && r'.nodeCount == r.nodeCount
  {
    r.(errorCount := r.errorCount + 1)
  }
}
