/** The registry's central invariant: the node gauge equals the number of
    known nodes, and the labelled series are exactly those of the live
    topic/node and topic/channel keys. Every handler and the cleanup tick
    preserve it, provided the names that make up a key contain no space. */
module Invariant {
  import opened Strings
  import opened Liveness
  import opened Metrics
  import opened Config
  import opened Exporter

  /** The series that a set of live topic/node keys and a set of live
      topic/channel keys call for: depth and message count per topic/node
      key, depth per topic/channel key. */
  function SeriesOf(topics: set<string>, channels: set<string>): set<SeriesKey>
  {
    LabelSeries(TopicDepthGauge, topics) + LabelSeries(MessageCountGauge, topics)
      + LabelSeries(ChannelDepthGauge, channels)
  }

  predicate AllShaped(keys: set<string>)
  {
    forall k :: k in keys ==> Shaped(k)
  }

  /** Ledgers and gauges in step: the node gauge is the node count, every
      combination key has exactly one space, and the labelled series are
      exactly those the live keys call for. */
  predicate InStep(s: State)
  {
    && s.metrics.nodeCount == |s.nodes|
    && AllShaped(s.topics.Keys)
    && AllShaped(s.channels.Keys)
    && s.metrics.gauges.Keys == SeriesOf(s.topics.Keys, s.channels.Keys)
  }

  /** Events whose names can be stored in a space-separated key. */
  predicate WellFormed(e: Event)
  {
    match e
    case TopicDepth(topic, _, _, node) => NoSpace(topic) && NoSpace(node.broadcastAddress)
    case TopicChannelDepth(topic, _, entries) =>
      NoSpace(topic) && forall i :: 0 <= i < |entries| ==> NoSpace(entries[i].channel)
    case _ => true
  }

  lemma NodeNameHasNoSpace(node: NodeIdentity)
    requires NoSpace(node.broadcastAddress)
    ensures NoSpace(NodeName(node))
  {
    var d := Decimal(node.httpPort);
    assert ' ' !in d by {
      forall i | 0 <= i < |d| ensures d[i] != ' ' {
        assert '0' <= d[i] <= '9';
      }
    }
    assert NodeName(node) == node.broadcastAddress + ":" + d;
  }

  lemma InitialStateInStep()
    ensures InStep(InitialState())
  {
  }

  /** Adding a key adds the one series it calls for. */
  lemma LabelSeriesInsert(gauge: Gauge, keys: set<string>, a: string, b: string)
    requires NoSpace(a) && NoSpace(b)
    ensures LabelSeries(gauge, keys + {ComboKey(a, b)}) == LabelSeries(gauge, keys) + {SeriesKey(gauge, [a, b])}
  {
    ComboKeyRoundTrip(a, b);
  }

  /** Two distinct well-shaped keys never yield the same labels. */
  lemma ShapedLabelsDiffer(k1: string, k2: string)
    requires Shaped(k1) && Shaped(k2) && k1 != k2
    ensures ComboLabels(k1) != ComboLabels(k2)
  {
    ShapedKeyRoundTrip(k1);
    ShapedKeyRoundTrip(k2);
  }

  /** Removing well-shaped keys removes exactly the series they call for:
      no other key shares their labels. */
  lemma LabelSeriesRemove(gauge: Gauge, keys: set<string>, evicted: set<string>)
    requires AllShaped(keys) && evicted <= keys
    ensures LabelSeries(gauge, keys - evicted) == LabelSeries(gauge, keys) - LabelSeries(gauge, evicted)
  {
    forall sk | sk in LabelSeries(gauge, keys - evicted)
      ensures sk !in LabelSeries(gauge, evicted)
    {
      var k :| k in keys - evicted && sk == SeriesKey(gauge, ComboLabels(k));
      forall k' | k' in evicted ensures sk != SeriesKey(gauge, ComboLabels(k')) {
        ShapedLabelsDiffer(k, k');
      }
    }
  }

  /** Set algebra over the three gauges, whose series never coincide. */
  lemma RemoveByGauge(a: set<SeriesKey>, ra: set<SeriesKey>, b: set<SeriesKey>, rb: set<SeriesKey>,
                      c: set<SeriesKey>, rc: set<SeriesKey>)
    requires forall sk :: sk in a + ra ==> sk.gauge == TopicDepthGauge
    requires forall sk :: sk in b + rb ==> sk.gauge == MessageCountGauge
    requires forall sk :: sk in c + rc ==> sk.gauge == ChannelDepthGauge
    ensures (a + b + c) - (rc + ra + rb) == (a - ra) + (b - rb) + (c - rc)
  {
    forall sk | sk in (a - ra) + (b - rb) + (c - rc) ensures sk !in rc + ra + rb {
      if sk in a {
        assert sk.gauge == TopicDepthGauge;
      } else if sk in b {
        assert sk.gauge == MessageCountGauge;
      } else {
        assert sk.gauge == ChannelDepthGauge;
      }
    }
  }

  /** A key built from two space-free names keeps a ledger well shaped. */
  lemma InsertKeepsShaped(keys: set<string>, a: string, b: string)
    requires AllShaped(keys) && NoSpace(a) && NoSpace(b)
    ensures AllShaped(keys + {ComboKey(a, b)})
  {
    ComboKeyRoundTrip(a, b);
  }

  /** A new topic/node key arrives with exactly its two series. */
  lemma AddTopicSeries(s: State, r: State, a: string, b: string)
    requires s.metrics.gauges.Keys == SeriesOf(s.topics.Keys, s.channels.Keys)
    requires NoSpace(a) && NoSpace(b)
    requires r.channels == s.channels
    requires r.topics.Keys == s.topics.Keys + {ComboKey(a, b)}
    requires r.metrics.gauges.Keys == s.metrics.gauges.Keys
               + {SeriesKey(TopicDepthGauge, [a, b]), SeriesKey(MessageCountGauge, [a, b])}
    ensures r.metrics.gauges.Keys == SeriesOf(r.topics.Keys, r.channels.Keys)
  {
    var td := SeriesKey(TopicDepthGauge, [a, b]);
    var mc := SeriesKey(MessageCountGauge, [a, b]);
    LabelSeriesInsert(TopicDepthGauge, s.topics.Keys, a, b);
    LabelSeriesInsert(MessageCountGauge, s.topics.Keys, a, b);
    var t := LabelSeries(TopicDepthGauge, s.topics.Keys);
    var m := LabelSeries(MessageCountGauge, s.topics.Keys);
    var c := LabelSeries(ChannelDepthGauge, s.channels.Keys);
    Regroup(t, m, c, td, mc);
  }

  lemma Regroup<T>(t: set<T>, m: set<T>, c: set<T>, x: T, y: T)
    ensures (t + {x}) + (m + {y}) + c == t + m + c + {x, y}
  {
  }

  /** A new topic/channel key arrives with exactly its series. */
  lemma AddChannelSeries(s: State, r: State, a: string, b: string)
    requires s.metrics.gauges.Keys == SeriesOf(s.topics.Keys, s.channels.Keys)
    requires NoSpace(a) && NoSpace(b)
    requires r.topics == s.topics
    requires r.channels.Keys == s.channels.Keys + {ComboKey(a, b)}
    requires r.metrics.gauges.Keys == s.metrics.gauges.Keys + {SeriesKey(ChannelDepthGauge, [a, b])}
    ensures r.metrics.gauges.Keys == SeriesOf(r.topics.Keys, r.channels.Keys)
  {
    LabelSeriesInsert(ChannelDepthGauge, s.channels.Keys, a, b);
  }

  lemma OnTopicDepthKeepsInStep(cfg: Settings, s: State, topic: string, depth: int, count: int,
                                node: NodeIdentity, now: int)
    requires InStep(s)
    requires NoSpace(topic) && NoSpace(node.broadcastAddress)
    ensures InStep(OnTopicDepth(cfg, s, topic, depth, count, node, now))
  {
    if !IsEphemeral(cfg, topic) {
      var r := OnTopicDepth(cfg, s, topic, depth, count, node, now);
      NodeNameHasNoSpace(node);
      InsertKeepsShaped(s.topics.Keys, topic, NodeName(node));
      AddTopicSeries(s, r, topic, NodeName(node));
    }
  }

  lemma TouchChannelKeepsInStep(cfg: Settings, s: State, topic: string, e: ChannelEntry, now: int)
    requires InStep(s)
    requires NoSpace(topic) && NoSpace(e.channel)
    ensures InStep(TouchChannel(cfg, s, topic, e, now))
  {
    if !IsEphemeral(cfg, e.channel) {
      InsertKeepsShaped(s.channels.Keys, topic, e.channel);
      AddChannelSeries(s, TouchChannel(cfg, s, topic, e, now), topic, e.channel);
    }
  }

  lemma {:induction false} ApplyChannelsKeepsInStep(cfg: Settings, s: State, topic: string,
                                                    entries: seq<ChannelEntry>, now: int)
    requires InStep(s)
    requires NoSpace(topic) && forall i :: 0 <= i < |entries| ==> NoSpace(entries[i].channel)
    ensures InStep(ApplyChannels(cfg, s, topic, entries, now))
    decreases |entries|
  {
    if |entries| > 0 {
      var prefix := entries[..|entries| - 1];
      ApplyChannelsKeepsInStep(cfg, s, topic, prefix, now);
      TouchChannelKeepsInStep(cfg, ApplyChannels(cfg, s, topic, prefix, now), topic, entries[|entries| - 1], now);
    }
  }

  /** Retracting the series of evicted keys leaves exactly the series of
      the keys that remain. */
  lemma RetractSeries(topics: set<string>, channels: set<string>, et: set<string>, ec: set<string>)
    requires AllShaped(topics) && AllShaped(channels) && et <= topics && ec <= channels
    ensures SeriesOf(topics, channels)
              - (LabelSeries(ChannelDepthGauge, ec) + LabelSeries(TopicDepthGauge, et)
                 + LabelSeries(MessageCountGauge, et))
            == SeriesOf(topics - et, channels - ec)
  {
    LabelSeriesRemove(TopicDepthGauge, topics, et);
    LabelSeriesRemove(MessageCountGauge, topics, et);
    LabelSeriesRemove(ChannelDepthGauge, channels, ec);
    RemoveByGauge(LabelSeries(TopicDepthGauge, topics), LabelSeries(TopicDepthGauge, et),
                  LabelSeries(MessageCountGauge, topics), LabelSeries(MessageCountGauge, et),
                  LabelSeries(ChannelDepthGauge, channels), LabelSeries(ChannelDepthGauge, ec));
  }

  lemma TickKeepsInStep(cfg: Settings, s: State, now: int)
    requires InStep(s)
    ensures InStep(Tick(cfg, s, now))
  {
    var r := Tick(cfg, s, now);
    var ec := ExpiredKeys(s.channels, now, cfg.topicChannelTTL);
    var et := ExpiredKeys(s.topics, now, cfg.topicChannelTTL);
    assert r.channels.Keys == s.channels.Keys - ec;
    assert r.topics.Keys == s.topics.Keys - et;
    RetractSeries(s.topics.Keys, s.channels.Keys, et, ec);
  }

  lemma StepKeepsInStep(cfg: Settings, s: State, e: Event, now: int)
    requires InStep(s) && WellFormed(e)
    ensures InStep(Step(cfg, s, e, now))
  {
    match e
    case Ready =>
    case WatchError =>
    case Status(node) =>
    case TopicDepth(topic, depth, count, node) =>
      OnTopicDepthKeepsInStep(cfg, s, topic, depth, count, node, now);
    case TopicChannelDepth(topic, _, entries) =>
      if !IsEphemeral(cfg, topic) {
        ApplyChannelsKeepsInStep(cfg, s, topic, entries, now);
      }
  }

  lemma ApplyKeepsInStep(cfg: Settings, s: State, a: Action)
    requires InStep(s)
    requires a.Observe? ==> WellFormed(a.event)
    ensures InStep(Apply(cfg, s, a))
  {
    match a
    case Observe(e, at) => StepKeepsInStep(cfg, s, e, at);
    case Cleanup(at) => TickKeepsInStep(cfg, s, at);
  }

  /** Every state reached through events whose topic, channel and
      node-address names hold no space keeps ledgers and gauges in step; in
      particular the node gauge always equals the number of known nodes. */
  lemma {:induction false} RunKeepsInStep(cfg: Settings, s: State, actions: seq<Action>)
    requires InStep(s)
    requires forall i :: 0 <= i < |actions| && actions[i].Observe? ==> WellFormed(actions[i].event)
    ensures InStep(Run(cfg, s, actions))
    ensures Run(cfg, s, actions).metrics.nodeCount == |Run(cfg, s, actions).nodes|
    decreases |actions|
  {
    if |actions| > 0 {
      ApplyKeepsInStep(cfg, s, actions[0]);
      RunKeepsInStep(cfg, Apply(cfg, s, actions[0]), actions[1..]);
    }
  }

  /** What being in step means for one series: it carries two space-free
      labels, and the key they form is live in the ledger its gauge reads. */
  lemma SeriesHasLiveKey(s: State, sk: SeriesKey)
    requires InStep(s) && sk in s.metrics.gauges
    ensures |sk.labels| == 2 && NoSpace(sk.labels[0]) && NoSpace(sk.labels[1])
    ensures sk.gauge == ChannelDepthGauge ==> ComboKey(sk.labels[0], sk.labels[1]) in s.channels
    ensures sk.gauge != ChannelDepthGauge ==> ComboKey(sk.labels[0], sk.labels[1]) in s.topics
  {
    var k: string;
    if sk.gauge == ChannelDepthGauge {
      assert sk in LabelSeries(ChannelDepthGauge, s.channels.Keys);
      k :| k in s.channels && sk == SeriesKey(ChannelDepthGauge, ComboLabels(k));
    } else if sk.gauge == TopicDepthGauge {
      assert sk in LabelSeries(TopicDepthGauge, s.topics.Keys);
      k :| k in s.topics && sk == SeriesKey(TopicDepthGauge, ComboLabels(k));
    } else {
      assert sk in LabelSeries(MessageCountGauge, s.topics.Keys);
      k :| k in s.topics && sk == SeriesKey(MessageCountGauge, ComboLabels(k));
    }
    ShapedKeyRoundTrip(k);
  }
}
