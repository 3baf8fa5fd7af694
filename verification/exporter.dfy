/** The liveness-windowed metric registry: three liveness ledgers, the
    handlers for the cluster watcher's events and the periodic cleanup tick,
    each a pure transition of one immutable state. */
module Exporter {
  import opened Strings
  import opened Liveness
  import opened Metrics
  import opened Config

  /** The three ledgers and the metrics they back. `nodes` is keyed by
      `address:port`, `topics` by `topic node` and `channels` by
      `topic channel`. */
  datatype State = State(nodes: Ledger, topics: Ledger, channels: Ledger, metrics: Registry)

  datatype NodeIdentity = NodeIdentity(broadcastAddress: string, httpPort: nat)

  /** One own property of the `channelDepths` object, in `Object.keys` order. */
  datatype ChannelEntry = ChannelEntry(channel: string, depth: int)

  /** The property names of one object are distinct. */
  predicate DistinctChannels(entries: seq<ChannelEntry>)
  {
    forall j, k :: 0 <= j < k < |entries| ==> entries[j].channel != entries[k].channel
  }

  /** The watcher's events; `Ready` is only logged. */
  datatype Event =
    | Ready
    | WatchError
    | Status(node: NodeIdentity)
    | TopicDepth(topic: string, depth: int, messageCount: int, node: NodeIdentity)
    | TopicChannelDepth(topic: string, totalDepth: int, channelDepths: seq<ChannelEntry>)

  function InitialState(): (s: State)
    ensures |s.nodes| == 0 && |s.topics| == 0 && |s.channels| == 0
    ensures s.metrics.nodeCount == 0 && s.metrics.errorCount == 0 && |s.metrics.gauges| == 0
  {
    State(map[], map[], map[], EmptyRegistry())
  }

  /** Period of the cleanup tick, in milliseconds. */
  const TickPeriodMillis: nat := 15 * 1000

  /** The time of the `k`-th cleanup tick of a process started at `start`:
      the interval first fires one period after it is set up. */
  function TickTime(start: int, k: nat): int
  {
    start + k * TickPeriodMillis
  }

  /** The index of the first tick strictly after time `x`. */
  function FirstTickAfter(start: int, x: int): (k: nat)
    ensures k >= 1 && x < TickTime(start, k)
    ensures k == 1 || TickTime(start, k - 1) <= x
  {
    if x < start + TickPeriodMillis then 1 else (x - start) / TickPeriodMillis + 1
  }

  const EphemeralSuffix: string := "#ephemeral"

  /** The ephemeral filter: only active when `ignoreEphemeral` is set, then
      it matches exactly the names ending in `#ephemeral`. */
  function IsEphemeral(cfg: Settings, name: string): (matched: bool)
    ensures matched <==> cfg.ignoreEphemeral && exists p: string :: name == p + EphemeralSuffix
  {
    EndsWithIsAppend(name, EphemeralSuffix);
    cfg.ignoreEphemeral && EndsWith(name, EphemeralSuffix)
  }

  /** `${broadcast_address}:${http_port}`. */
  function NodeName(node: NodeIdentity): (name: string)
    ensures |name| > |node.broadcastAddress| + 1
    ensures name[..|node.broadcastAddress|] == node.broadcastAddress
    ensures name[|node.broadcastAddress|] == ':'
    ensures forall i :: |node.broadcastAddress| < i < |name| ==> '0' <= name[i] <= '9'
    ensures DecimalValue(name[|node.broadcastAddress| + 1..]) == node.httpPort
    ensures |name| == |node.broadcastAddress| + 2 || name[|node.broadcastAddress| + 1] != '0'
  {
    node.broadcastAddress + ":" + Decimal(node.httpPort)
  }

  /** `${a} ${b}`: the key of a topic/node or topic/channel combination. */
  function ComboKey(a: string, b: string): (key: string)
    ensures |key| == |a| + 1 + |b|
    ensures key[..|a|] == a && key[|a|] == ' ' && key[|a| + 1..] == b
  {
    a + " " + b
  }

  /** Different nodes get different names: the port is the digits after the
      last colon, so the address (which may itself hold colons) is the rest. */
  lemma NodeNameInjective(n1: NodeIdentity, n2: NodeIdentity)
    requires NodeName(n1) == NodeName(n2)
    ensures n1 == n2
  {
    var d1 := Decimal(n1.httpPort);
    var d2 := Decimal(n2.httpPort);
    DecimalHasNoColon(n1.httpPort);
    DecimalHasNoColon(n2.httpPort);
    assert n1.broadcastAddress + [':'] + d1 == NodeName(n1);
    assert n2.broadcastAddress + [':'] + d2 == NodeName(n2);
    SplitAtLastSeparator(n1.broadcastAddress, d1, n2.broadcastAddress, d2, ':');
    DecimalInjective(n1.httpPort, n2.httpPort);
  }

  /** `const [a, b] = key.split(" ")`. A key without a space has no second
      part (JavaScript yields `undefined`); it is given a one-element label
      tuple, which no `set` call ever creates, so removing it changes nothing. */
  function ComboLabels(key: string): (labels: seq<string>)
    ensures 1 <= |labels| <= 2
    ensures |labels| == 2 <==> ' ' in key
    ensures forall i :: 0 <= i < |labels| ==> NoSpace(labels[i])
  {
    var parts := Split(key, ' ');
    CountPositive(key, ' ');
    if |parts| >= 2 then [parts[0], parts[1]] else [parts[0]]
  }

  /** A key the handlers can store: exactly one space. */
  predicate Shaped(key: string)
  {
    |Split(key, ' ')| == 2
  }

  /** Round trip of a combination key: built from two space-free names, it
      has one space and splits back into exactly those names. */
  lemma ComboKeyRoundTrip(a: string, b: string)
    requires NoSpace(a) && NoSpace(b)
    ensures Shaped(ComboKey(a, b))
    ensures ComboLabels(ComboKey(a, b)) == [a, b]
  {
    assert ComboKey(a, b) == a + [' '] + b;
    SplitPair(a, b, ' ');
  }

  /** The other direction: a key with one space is rebuilt from its labels. */
  lemma ShapedKeyRoundTrip(key: string)
    requires Shaped(key)
    ensures |ComboLabels(key)| == 2
    ensures NoSpace(ComboLabels(key)[0]) && NoSpace(ComboLabels(key)[1])
    ensures ComboKey(ComboLabels(key)[0], ComboLabels(key)[1]) == key
  {
    var parts := Split(key, ' ');
    SplitThenJoin(key, ' ');
    assert parts[1..] == [parts[1]];
    assert Join(parts, ' ') == parts[0] + [' '] + parts[1];
  }

  /** The `error` handler: counts the error and changes nothing else. */
  function OnError(s: State): (r: State)
    ensures r.metrics.errorCount == s.metrics.errorCount + 1
    ensures r.nodes == s.nodes && r.topics == s.topics && r.channels == s.channels
    ensures r.metrics.nodeCount == s.metrics.nodeCount && r.metrics.gauges == s.metrics.gauges
  {
    s.(metrics := IncErrorCount(s.metrics))
  }

  /** The `status` handler: the node is (re)stamped with `now` and the node
      gauge is reset to the number of known nodes. */
  function OnStatus(s: State, node: NodeIdentity, now: int): (r: State)
    ensures r.nodes.Keys == s.nodes.Keys + {NodeName(node)}
    ensures r.nodes[NodeName(node)] == now
    ensures forall k :: k in s.nodes && k != NodeName(node) ==> r.nodes[k] == s.nodes[k]
    ensures r.topics == s.topics && r.channels == s.channels
    ensures r.metrics.nodeCount == |r.nodes|
    ensures r.metrics.errorCount == s.metrics.errorCount && r.metrics.gauges == s.metrics.gauges
  {
    var nodes := Touch(s.nodes, NodeName(node), now);
    s.(nodes := nodes, metrics := SetNodeCount(s.metrics, |nodes|))
  }

  /** The `topic-depth` handler. An ephemeral topic is dropped; otherwise
      `topic node` is stamped and the depth and message-count series of
      `{topic, node}` are set. */
  function OnTopicDepth(cfg: Settings, s: State, topic: string, depth: int, messageCount: int,
                        node: NodeIdentity, now: int): (r: State)
    ensures IsEphemeral(cfg, topic) ==> r == s
    ensures !IsEphemeral(cfg, topic) ==>
              && r.topics.Keys == s.topics.Keys + {ComboKey(topic, NodeName(node))}
              && r.topics[ComboKey(topic, NodeName(node))] == now
              && r.metrics.gauges.Keys == s.metrics.gauges.Keys
                   + {SeriesKey(TopicDepthGauge, [topic, NodeName(node)]),
                      SeriesKey(MessageCountGauge, [topic, NodeName(node)])}
              && r.metrics.gauges[SeriesKey(TopicDepthGauge, [topic, NodeName(node)])] == depth
              && r.metrics.gauges[SeriesKey(MessageCountGauge, [topic, NodeName(node)])] == messageCount
    ensures forall k :: k in s.topics && k != ComboKey(topic, NodeName(node)) ==> r.topics[k] == s.topics[k]
    ensures forall sk :: sk in s.metrics.gauges
                         && sk !in {SeriesKey(TopicDepthGauge, [topic, NodeName(node)]),
                                    SeriesKey(MessageCountGauge, [topic, NodeName(node)])} ==>
              r.metrics.gauges[sk] == s.metrics.gauges[sk]
    ensures r.nodes == s.nodes && r.channels == s.channels
    ensures r.metrics.nodeCount == s.metrics.nodeCount && r.metrics.errorCount == s.metrics.errorCount
  {
    if IsEphemeral(cfg, topic) then s
    else
      var name := NodeName(node);
      var m := SetGauge(s.metrics, TopicDepthGauge, [topic, name], depth);
      s.(topics := Touch(s.topics, ComboKey(topic, name), now),
         metrics := SetGauge(m, MessageCountGauge, [topic, name], messageCount))
  }

  /** One iteration of the loop over `Object.keys(channelDepths)`: an
      ephemeral channel is skipped; otherwise `topic channel` is stamped and
      its depth series set, and nothing else changes. */
  function TouchChannel(cfg: Settings, s: State, topic: string, e: ChannelEntry, now: int): (r: State)
    ensures IsEphemeral(cfg, e.channel) ==> r == s
    ensures !IsEphemeral(cfg, e.channel) ==>
              && r.channels == Touch(s.channels, ComboKey(topic, e.channel), now)
              && r.metrics.gauges.Keys == s.metrics.gauges.Keys + {SeriesKey(ChannelDepthGauge, [topic, e.channel])}
              && r.metrics.gauges[SeriesKey(ChannelDepthGauge, [topic, e.channel])] == e.depth
    ensures forall sk :: sk in s.metrics.gauges && sk != SeriesKey(ChannelDepthGauge, [topic, e.channel]) ==>
              r.metrics.gauges[sk] == s.metrics.gauges[sk]
    ensures r.nodes == s.nodes && r.topics == s.topics
    ensures r.metrics.nodeCount == s.metrics.nodeCount && r.metrics.errorCount == s.metrics.errorCount
  {
    if IsEphemeral(cfg, e.channel) then s
    else
      s.(channels := Touch(s.channels, ComboKey(topic, e.channel), now),
         metrics := SetGauge(s.metrics, ChannelDepthGauge, [topic, e.channel], e.depth))
  }

  /** The ledger keys the loop stamps: those of the non-ephemeral channels. */
  function ChannelKeys(cfg: Settings, topic: string, entries: seq<ChannelEntry>): set<string>
    decreases |entries|
  {
    if |entries| == 0 then {}
    else
      var last := entries[|entries| - 1];
      ChannelKeys(cfg, topic, entries[..|entries| - 1])
        + (if IsEphemeral(cfg, last.channel) then {} else {ComboKey(topic, last.channel)})
  }

  /** The channel-depth series the loop sets. */
  function ChannelSeries(cfg: Settings, topic: string, entries: seq<ChannelEntry>): set<SeriesKey>
    decreases |entries|
  {
    if |entries| == 0 then {}
    else
      var last := entries[|entries| - 1];
      ChannelSeries(cfg, topic, entries[..|entries| - 1])
        + (if IsEphemeral(cfg, last.channel) then {} else {SeriesKey(ChannelDepthGauge, [topic, last.channel])})
  }

  /** The loop of the `topic-channel-depth` handler, entries taken in order.
      Exactly the non-ephemeral channels' keys are stamped with `now` and
      their series created or overwritten; everything else is kept. */
  function ApplyChannels(cfg: Settings, s: State, topic: string, entries: seq<ChannelEntry>, now: int): (r: State)
    ensures r.channels.Keys == s.channels.Keys + ChannelKeys(cfg, topic, entries)
    ensures forall k :: k in ChannelKeys(cfg, topic, entries) ==> r.channels[k] == now
    ensures forall k :: k in s.channels && k !in ChannelKeys(cfg, topic, entries) ==> r.channels[k] == s.channels[k]
    ensures r.metrics.gauges.Keys == s.metrics.gauges.Keys + ChannelSeries(cfg, topic, entries)
    ensures forall sk :: sk in s.metrics.gauges && sk !in ChannelSeries(cfg, topic, entries) ==>
              r.metrics.gauges[sk] == s.metrics.gauges[sk]
    ensures r.nodes == s.nodes && r.topics == s.topics
    ensures r.metrics.nodeCount == s.metrics.nodeCount && r.metrics.errorCount == s.metrics.errorCount
    decreases |entries|
  {
    if |entries| == 0 then s
    else
      var prefix := ApplyChannels(cfg, s, topic, entries[..|entries| - 1], now);
      TouchChannel(cfg, prefix, topic, entries[|entries| - 1], now)
  }

  /** The `topic-channel-depth` handler: an ephemeral topic drops the whole
      event, otherwise every channel entry is processed in turn. The total
      depth argument is not used. */
  function OnTopicChannelDepth(cfg: Settings, s: State, topic: string, entries: seq<ChannelEntry>, now: int): (r: State)
    ensures IsEphemeral(cfg, topic) ==> r == s
    ensures !IsEphemeral(cfg, topic) ==> r == ApplyChannels(cfg, s, topic, entries, now)
    ensures r.nodes == s.nodes && r.topics == s.topics
    ensures r.metrics.nodeCount == s.metrics.nodeCount && r.metrics.errorCount == s.metrics.errorCount
  {
    if IsEphemeral(cfg, topic) then s else ApplyChannels(cfg, s, topic, entries, now)
  }

  /** The series the tick removes for a set of evicted combination keys:
      one per key, labelled by the key's two space-separated parts. */
  function LabelSeries(gauge: Gauge, keys: set<string>): (series: set<SeriesKey>)
    ensures forall sk :: sk in series ==> sk.gauge == gauge
    ensures forall k :: k in keys ==> SeriesKey(gauge, ComboLabels(k)) in series
    ensures forall sk :: sk in series ==> exists k :: k in keys && sk == SeriesKey(gauge, ComboLabels(k))
  {
    set k | k in keys :: SeriesKey(gauge, ComboLabels(k))
  }

  /** The cleanup tick at time `now`. Nodes older than `nodeTTL` are dropped
      and the node gauge reset to the number left; topic/channel and
      topic/node combinations older than `topicChannelTTL` are dropped
      together with their series. */
  function Tick(cfg: Settings, s: State, now: int): (r: State)
    ensures r.metrics.nodeCount == |r.nodes|
    ensures forall k :: k in r.nodes <==> k in s.nodes && now - s.nodes[k] <= cfg.nodeTTL * MillisPerSecond
    ensures forall k :: k in r.topics <==> k in s.topics && now - s.topics[k] <= cfg.topicChannelTTL * MillisPerSecond
    ensures forall k :: k in r.channels <==> k in s.channels && now - s.channels[k] <= cfg.topicChannelTTL * MillisPerSecond
    ensures forall k :: k in r.nodes ==> r.nodes[k] == s.nodes[k]
    ensures forall k :: k in r.topics ==> r.topics[k] == s.topics[k]
    ensures forall k :: k in r.channels ==> r.channels[k] == s.channels[k]
    ensures r.metrics.gauges.Keys <= s.metrics.gauges.Keys
    ensures forall sk :: sk in r.metrics.gauges ==> r.metrics.gauges[sk] == s.metrics.gauges[sk]
    ensures r.metrics.errorCount == s.metrics.errorCount
  {
    var nodes := Evict(s.nodes, now, cfg.nodeTTL);
    var timedOutChannels := ExpiredKeys(s.channels, now, cfg.topicChannelTTL);
    var timedOutTopics := ExpiredKeys(s.topics, now, cfg.topicChannelTTL);
    var removed := LabelSeries(ChannelDepthGauge, timedOutChannels)
                   + LabelSeries(TopicDepthGauge, timedOutTopics)
                   + LabelSeries(MessageCountGauge, timedOutTopics);
    State(nodes,
          s.topics - timedOutTopics,
          s.channels - timedOutChannels,
          SetNodeCount(RemoveSeries(s.metrics, removed), |nodes|))
  }

  /** Dispatch of one watcher event at wall-clock time `now`. Only `error`
      counts, only `status` touches the node ledger and gauge, and `ready`
      changes nothing. */
  function Step(cfg: Settings, s: State, e: Event, now: int): (r: State)
    ensures e.Ready? ==> r == s
    ensures r.metrics.errorCount == s.metrics.errorCount + (if e.WatchError? then 1 else 0)
    ensures !e.Status? ==> r.nodes == s.nodes && r.metrics.nodeCount == s.metrics.nodeCount
    ensures e.Status? ==> r.metrics.nodeCount == |r.nodes| && NodeName(e.node) in r.nodes
    ensures !e.TopicDepth? ==> r.topics == s.topics
    ensures !e.TopicChannelDepth? ==> r.channels == s.channels
  {
    match e
    case Ready => s
    case WatchError => OnError(s)
    case Status(node) => OnStatus(s, node, now)
    case TopicDepth(topic, depth, count, node) => OnTopicDepth(cfg, s, topic, depth, count, node, now)
    case TopicChannelDepth(topic, _, entries) => OnTopicChannelDepth(cfg, s, topic, entries, now)
  }

  /** What the process does over time: events and cleanup ticks, serialised. */
  datatype Action = Observe(event: Event, at: int) | Cleanup(at: int)

  /** One serialised step of the process. */
  function Apply(cfg: Settings, s: State, a: Action): State
  {
    match a
    case Observe(e, at) => Step(cfg, s, e, at)
    case Cleanup(at) => Tick(cfg, s, at)
  }

  function Run(cfg: Settings, s: State, actions: seq<Action>): State
    decreases |actions|
  {
    if |actions| == 0 then s else Run(cfg, Apply(cfg, s, actions[0]), actions[1..])
  }
}
