/** Properties of the individual handlers and of the cleanup tick: what a
    repeated event changes, how one `topic-channel-depth` event treats its
    channels, which series a tick retracts, and the worked scenarios. */
module Properties {
  import opened Strings
  import opened Liveness
  import opened Metrics
  import opened Config
  import opened Exporter
  import opened Invariant

  /** Repeating a node's `status` event later restamps it and leaves the
      number of nodes, and so the node gauge, unchanged. */
  lemma StatusRepeated(s: State, node: NodeIdentity, first: int, second: int)
    ensures |OnStatus(OnStatus(s, node, first), node, second).nodes| == |OnStatus(s, node, first).nodes|
    ensures OnStatus(OnStatus(s, node, first), node, second).metrics.nodeCount
            == OnStatus(s, node, first).metrics.nodeCount
    ensures OnStatus(OnStatus(s, node, first), node, second).nodes == OnStatus(s, node, second).nodes
  {
    TouchAgain(s.nodes, NodeName(node), first, second);
  }

  /** Repeating a `topic-depth` event later keeps the number of topic/node
      keys and sets the same values again. */
  lemma TopicDepthRepeated(cfg: Settings, s: State, topic: string, depth: int, count: int,
                           node: NodeIdentity, first: int, second: int)
    ensures |OnTopicDepth(cfg, OnTopicDepth(cfg, s, topic, depth, count, node, first), topic, depth, count, node, second).topics|
            == |OnTopicDepth(cfg, s, topic, depth, count, node, first).topics|
    ensures OnTopicDepth(cfg, OnTopicDepth(cfg, s, topic, depth, count, node, first), topic, depth, count, node, second).metrics
            == OnTopicDepth(cfg, s, topic, depth, count, node, first).metrics
  {
    var r1 := OnTopicDepth(cfg, s, topic, depth, count, node, first);
    var r2 := OnTopicDepth(cfg, r1, topic, depth, count, node, second);
    if !IsEphemeral(cfg, topic) {
      var key := ComboKey(topic, NodeName(node));
      TouchAgain(s.topics, key, first, second);
      assert r2.topics == Touch(r1.topics, key, second);
      SetSameValue(r1.metrics, TopicDepthGauge, [topic, NodeName(node)], depth);
      var m := SetGauge(r1.metrics, TopicDepthGauge, [topic, NodeName(node)], depth);
      SetSameValue(m, MessageCountGauge, [topic, NodeName(node)], count);
    }
  }

  /** Setting a series to the value it already holds changes nothing. */
  lemma SetSameValue(m: Registry, gauge: Gauge, labels: seq<string>, value: int)
    requires SeriesKey(gauge, labels) in m.gauges && m.gauges[SeriesKey(gauge, labels)] == value
    ensures SetGauge(m, gauge, labels, value) == m
  {
    assert SetGauge(m, gauge, labels, value).gauges == m.gauges;
  }

  /** A combination key determines its second part. */
  lemma ComboKeyInjective(topic: string, a: string, b: string)
    requires ComboKey(topic, a) == ComboKey(topic, b)
    ensures a == b
  {
    assert ComboKey(topic, a)[|topic| + 1..] == a;
    assert ComboKey(topic, b)[|topic| + 1..] == b;
  }

  /** Every non-ephemeral channel of the event is among the stamped keys and
      the set series. */
  lemma {:induction false} LiveChannelTouched(cfg: Settings, topic: string, entries: seq<ChannelEntry>, i: nat)
    requires i < |entries| && !IsEphemeral(cfg, entries[i].channel)
    ensures ComboKey(topic, entries[i].channel) in ChannelKeys(cfg, topic, entries)
    ensures SeriesKey(ChannelDepthGauge, [topic, entries[i].channel]) in ChannelSeries(cfg, topic, entries)
    decreases |entries|
  {
    if i < |entries| - 1 {
      var prefix := entries[..|entries| - 1];
      assert prefix[i] == entries[i];
      LiveChannelTouched(cfg, topic, prefix, i);
    }
  }

  /** No ephemeral channel's key or series is stamped or set. */
  lemma {:induction false} EphemeralChannelNotTouched(cfg: Settings, topic: string, entries: seq<ChannelEntry>, c: string)
    requires IsEphemeral(cfg, c)
    ensures ComboKey(topic, c) !in ChannelKeys(cfg, topic, entries)
    ensures SeriesKey(ChannelDepthGauge, [topic, c]) !in ChannelSeries(cfg, topic, entries)
    decreases |entries|
  {
    if |entries| > 0 {
      var last := entries[|entries| - 1];
      EphemeralChannelNotTouched(cfg, topic, entries[..|entries| - 1], c);
      if !IsEphemeral(cfg, last.channel) && ComboKey(topic, c) == ComboKey(topic, last.channel) {
        ComboKeyInjective(topic, c, last.channel);
      }
    }
  }

  /** Conversely, every stamped key and every set series belongs to some
      non-ephemeral channel of the event. */
  lemma {:induction false} ChannelKeysAreLive(cfg: Settings, topic: string, entries: seq<ChannelEntry>, k: string)
    requires k in ChannelKeys(cfg, topic, entries)
    ensures exists i :: 0 <= i < |entries| && !IsEphemeral(cfg, entries[i].channel)
                        && k == ComboKey(topic, entries[i].channel)
    decreases |entries|
  {
    var prefix := entries[..|entries| - 1];
    var last := entries[|entries| - 1];
    if k in ChannelKeys(cfg, topic, prefix) {
      ChannelKeysAreLive(cfg, topic, prefix, k);
      var i :| 0 <= i < |prefix| && !IsEphemeral(cfg, prefix[i].channel) && k == ComboKey(topic, prefix[i].channel);
      assert entries[i] == prefix[i];
    } else {
      assert entries[|entries| - 1] == last;
    }
  }

  lemma {:induction false} ChannelSeriesAreLive(cfg: Settings, topic: string, entries: seq<ChannelEntry>, sk: SeriesKey)
    requires sk in ChannelSeries(cfg, topic, entries)
    ensures exists i :: 0 <= i < |entries| && !IsEphemeral(cfg, entries[i].channel)
                        && sk == SeriesKey(ChannelDepthGauge, [topic, entries[i].channel])
    decreases |entries|
  {
    var prefix := entries[..|entries| - 1];
    var last := entries[|entries| - 1];
    if sk in ChannelSeries(cfg, topic, prefix) {
      ChannelSeriesAreLive(cfg, topic, prefix, sk);
      var i :| 0 <= i < |prefix| && !IsEphemeral(cfg, prefix[i].channel)
               && sk == SeriesKey(ChannelDepthGauge, [topic, prefix[i].channel]);
      assert entries[i] == prefix[i];
    } else {
      assert entries[|entries| - 1] == last;
    }
  }

  /** With distinct channel names, each non-ephemeral channel's series holds
      that channel's depth once the loop is done. */
  lemma {:induction false} ChannelDepthRecorded(cfg: Settings, s: State, topic: string,
                                                entries: seq<ChannelEntry>, now: int, i: nat)
    requires DistinctChannels(entries)
    requires i < |entries| && !IsEphemeral(cfg, entries[i].channel)
    ensures SeriesKey(ChannelDepthGauge, [topic, entries[i].channel]) in ApplyChannels(cfg, s, topic, entries, now).metrics.gauges
    ensures ApplyChannels(cfg, s, topic, entries, now).metrics.gauges[SeriesKey(ChannelDepthGauge, [topic, entries[i].channel])]
            == entries[i].depth
    decreases |entries|
  {
    var prefix := entries[..|entries| - 1];
    var last := entries[|entries| - 1];
    if i < |entries| - 1 {
      assert prefix[i] == entries[i];
      assert entries[i].channel != last.channel;
      ChannelDepthRecorded(cfg, s, topic, prefix, now, i);
    }
  }

  /** The `topic-channel-depth` handler for a non-ephemeral topic: every
      non-ephemeral channel `c` has `topic c` stamped with `now` and its
      depth series set to its depth. */
  lemma TopicChannelDepthRecorded(cfg: Settings, s: State, topic: string, entries: seq<ChannelEntry>,
                                  now: int, i: nat)
    requires !IsEphemeral(cfg, topic) && DistinctChannels(entries)
    requires i < |entries| && !IsEphemeral(cfg, entries[i].channel)
    ensures ComboKey(topic, entries[i].channel) in OnTopicChannelDepth(cfg, s, topic, entries, now).channels
    ensures OnTopicChannelDepth(cfg, s, topic, entries, now).channels[ComboKey(topic, entries[i].channel)] == now
    ensures SeriesKey(ChannelDepthGauge, [topic, entries[i].channel]) in OnTopicChannelDepth(cfg, s, topic, entries, now).metrics.gauges
    ensures OnTopicChannelDepth(cfg, s, topic, entries, now).metrics.gauges[SeriesKey(ChannelDepthGauge, [topic, entries[i].channel])]
            == entries[i].depth
  {
    LiveChannelTouched(cfg, topic, entries, i);
    ChannelDepthRecorded(cfg, s, topic, entries, now, i);
  }

  /** An ephemeral channel is skipped on its own: its key and its series are
      exactly as before the event, whatever its siblings do. */
  lemma EphemeralChannelSkipped(cfg: Settings, s: State, topic: string, entries: seq<ChannelEntry>,
                                now: int, c: string)
    requires IsEphemeral(cfg, c)
    ensures var r := OnTopicChannelDepth(cfg, s, topic, entries, now);
              && (ComboKey(topic, c) in r.channels <==> ComboKey(topic, c) in s.channels)
              && (ComboKey(topic, c) in s.channels ==> r.channels[ComboKey(topic, c)] == s.channels[ComboKey(topic, c)])
    ensures var r := OnTopicChannelDepth(cfg, s, topic, entries, now);
              var sk := SeriesKey(ChannelDepthGauge, [topic, c]);
              && (sk in r.metrics.gauges <==> sk in s.metrics.gauges)
              && (sk in s.metrics.gauges ==> r.metrics.gauges[sk] == s.metrics.gauges[sk])
  {
    EphemeralChannelNotTouched(cfg, topic, entries, c);
  }

  /** Being in step, read for one label pair: the series exists exactly when
      the key made of its labels is live in the ledger of its gauge. */
  lemma SeriesIffLiveKey(s: State, gauge: Gauge, a: string, b: string)
    requires InStep(s) && NoSpace(a) && NoSpace(b)
    ensures gauge == ChannelDepthGauge ==>
              (SeriesKey(gauge, [a, b]) in s.metrics.gauges <==> ComboKey(a, b) in s.channels)
    ensures gauge != ChannelDepthGauge ==>
              (SeriesKey(gauge, [a, b]) in s.metrics.gauges <==> ComboKey(a, b) in s.topics)
  {
    ComboKeyRoundTrip(a, b);
    if SeriesKey(gauge, [a, b]) in s.metrics.gauges {
      SeriesHasLiveKey(s, SeriesKey(gauge, [a, b]));
    }
  }

  /** The tick retracts the channel-depth series `{t, c}` exactly when it
      evicts `t c`; a surviving series keeps its value. */
  lemma TickRetractsChannelSeries(cfg: Settings, s: State, now: int, a: string, b: string)
    requires InStep(s) && NoSpace(a) && NoSpace(b)
    requires SeriesKey(ChannelDepthGauge, [a, b]) in s.metrics.gauges
    ensures ComboKey(a, b) in s.channels
    ensures SeriesKey(ChannelDepthGauge, [a, b]) in Tick(cfg, s, now).metrics.gauges
            <==> now - s.channels[ComboKey(a, b)] <= cfg.topicChannelTTL * MillisPerSecond
    ensures SeriesKey(ChannelDepthGauge, [a, b]) in Tick(cfg, s, now).metrics.gauges ==>
              Tick(cfg, s, now).metrics.gauges[SeriesKey(ChannelDepthGauge, [a, b])]
              == s.metrics.gauges[SeriesKey(ChannelDepthGauge, [a, b])]
  {
    var r := Tick(cfg, s, now);
    SeriesIffLiveKey(s, ChannelDepthGauge, a, b);
    TickKeepsInStep(cfg, s, now);
    SeriesIffLiveKey(r, ChannelDepthGauge, a, b);
  }

  /** The tick retracts a topic series `{t, n}` (depth or message count)
      exactly when it evicts `t n`; a surviving series keeps its value. */
  lemma TickRetractsTopicSeries(cfg: Settings, s: State, now: int, gauge: Gauge, a: string, b: string)
    requires InStep(s) && NoSpace(a) && NoSpace(b) && gauge != ChannelDepthGauge
    requires SeriesKey(gauge, [a, b]) in s.metrics.gauges
    ensures ComboKey(a, b) in s.topics
    ensures SeriesKey(gauge, [a, b]) in Tick(cfg, s, now).metrics.gauges
            <==> now - s.topics[ComboKey(a, b)] <= cfg.topicChannelTTL * MillisPerSecond
    ensures SeriesKey(gauge, [a, b]) in Tick(cfg, s, now).metrics.gauges ==>
              Tick(cfg, s, now).metrics.gauges[SeriesKey(gauge, [a, b])] == s.metrics.gauges[SeriesKey(gauge, [a, b])]
  {
    var r := Tick(cfg, s, now);
    SeriesIffLiveKey(s, gauge, a, b);
    TickKeepsInStep(cfg, s, now);
    SeriesIffLiveKey(r, gauge, a, b);
  }

  /** A second tick at the same instant changes nothing. */
  lemma TickIdempotent(cfg: Settings, s: State, now: int)
    ensures Tick(cfg, Tick(cfg, s, now), now) == Tick(cfg, s, now)
  {
    SecondTickKeepsLedgers(cfg, s, now);
    SecondTickKeepsSeries(cfg, s, now);
  }

  lemma SecondTickKeepsLedgers(cfg: Settings, s: State, now: int)
    ensures Tick(cfg, Tick(cfg, s, now), now).nodes == Tick(cfg, s, now).nodes
    ensures Tick(cfg, Tick(cfg, s, now), now).topics == Tick(cfg, s, now).topics
    ensures Tick(cfg, Tick(cfg, s, now), now).channels == Tick(cfg, s, now).channels
  {
    NothingExpiredAfterTick(cfg, s, now);
  }

  lemma SecondTickKeepsSeries(cfg: Settings, s: State, now: int)
    ensures Tick(cfg, Tick(cfg, s, now), now).metrics.gauges == Tick(cfg, s, now).metrics.gauges
  {
    NothingExpiredAfterTick(cfg, s, now);
    TickWithoutExpiredKeepsSeries(cfg, Tick(cfg, s, now), now);
  }

  /** A tick that finds no expired topic or channel key retracts no series. */
  lemma TickWithoutExpiredKeepsSeries(cfg: Settings, s: State, now: int)
    requires ExpiredKeys(s.topics, now, cfg.topicChannelTTL) == {}
    requires ExpiredKeys(s.channels, now, cfg.topicChannelTTL) == {}
    ensures Tick(cfg, s, now).metrics.gauges == s.metrics.gauges
  {
    var none: set<string> := {};
    assert LabelSeries(ChannelDepthGauge, none) == LabelSeries(TopicDepthGauge, none)
           == LabelSeries(MessageCountGauge, none) == {};
    assert s.metrics.gauges - {} == s.metrics.gauges;
  }

  /** Right after a tick no entry of the topic or channel ledgers is expired
      at the same instant. */
  lemma NothingExpiredAfterTick(cfg: Settings, s: State, now: int)
    ensures ExpiredKeys(Tick(cfg, s, now).topics, now, cfg.topicChannelTTL) == {}
    ensures ExpiredKeys(Tick(cfg, s, now).channels, now, cfg.topicChannelTTL) == {}
    ensures Evict(Tick(cfg, s, now).nodes, now, cfg.nodeTTL) == Tick(cfg, s, now).nodes
  {
    EvictIdempotent(s.nodes, now, cfg.nodeTTL);
  }

  /** With a tick every 15 s from `start`, an entry last seen at `seen` is
      kept by every tick up to its expiry `seen + ttl * 1000`, and removed by
      the first tick after it, which comes at most one period after the
      expiry (or after the start, for an entry older than the process). */
  lemma RetractedWithinOnePeriod(l: Ledger, key: string, ttlSeconds: nat, start: int)
    requires key in l
    ensures var expiry := l[key] + ttlSeconds * MillisPerSecond;
            var k := FirstTickAfter(start, expiry);
            && key !in Evict(l, TickTime(start, k), ttlSeconds)
            && TickTime(start, k) <= (if expiry < start then start else expiry) + TickPeriodMillis
            && forall j: nat :: 1 <= j < k ==> key in Evict(l, TickTime(start, j), ttlSeconds)
  {
    var expiry := l[key] + ttlSeconds * MillisPerSecond;
    var k := FirstTickAfter(start, expiry);
    forall j: nat | 1 <= j < k ensures key in Evict(l, TickTime(start, j), ttlSeconds) {
      assert j * TickPeriodMillis <= (k - 1) * TickPeriodMillis;
      assert TickTime(start, j) <= TickTime(start, k - 1) <= expiry;
    }
  }

  /** A node reported at 0 with a 60 s TTL is still counted by a tick at
      60 s and is gone, with the gauge dropping from 1 to 0, at 61 s. */
  lemma NodeExpiryScenario(cfg: Settings, node: NodeIdentity)
    requires cfg.nodeTTL == 60
    ensures OnStatus(InitialState(), node, 0).metrics.nodeCount == 1
    ensures Tick(cfg, OnStatus(InitialState(), node, 0), 60000).metrics.nodeCount == 1
    ensures Tick(cfg, OnStatus(InitialState(), node, 0), 61000).metrics.nodeCount == 0
  {
    var s1 := OnStatus(InitialState(), node, 0);
    assert s1.nodes == map[NodeName(node) := 0];
    assert Tick(cfg, s1, 60000).nodes == s1.nodes;
    assert Tick(cfg, s1, 61000).nodes == map[];
  }

  /** With the filter on, `topic-depth` for `orders#ephemeral` changes
      nothing at all. */
  lemma EphemeralTopicScenario(cfg: Settings, s: State, node: NodeIdentity, now: int)
    requires cfg.ignoreEphemeral
    ensures OnTopicDepth(cfg, s, "orders#ephemeral", 5, 10, node, now) == s
  {
    assert "orders#ephemeral"[6..] == EphemeralSuffix;
  }

  /** With the filter on, `topic-channel-depth` for `orders` with channels
      `billing` (3) and `shipping#ephemeral` (7) records `billing` alone. */
  lemma MixedChannelsScenario(cfg: Settings, now: int)
    requires cfg.ignoreEphemeral
    ensures OnTopicChannelDepth(cfg, InitialState(), "orders",
              [ChannelEntry("billing", 3), ChannelEntry("shipping#ephemeral", 7)], now).channels
            == map["orders billing" := now]
    ensures OnTopicChannelDepth(cfg, InitialState(), "orders",
              [ChannelEntry("billing", 3), ChannelEntry("shipping#ephemeral", 7)], now).metrics.gauges
            == map[SeriesKey(ChannelDepthGauge, ["orders", "billing"]) := 3]
  {
    var entries := [ChannelEntry("billing", 3), ChannelEntry("shipping#ephemeral", 7)];
    assert !IsEphemeral(cfg, "orders");
    assert !IsEphemeral(cfg, "billing");
    assert "shipping#ephemeral"[8..] == EphemeralSuffix;
    assert IsEphemeral(cfg, "shipping#ephemeral");
    assert entries[..1] == [ChannelEntry("billing", 3)];
    assert entries[..1][..0] == [];
    assert ComboKey("orders", "billing") == "orders billing";
  }

  /** Why names must be space-free: a channel of topic `a b` is stored under
      `a b c`, which splits back into `a` and `b`, so evicting it retracts
      the wrong series and leaves `{a b, c}` behind with no ledger key. */
  lemma SpacedTopicLeavesOrphan(cfg: Settings)
    ensures var s := OnTopicChannelDepth(cfg, InitialState(), "a b", [ChannelEntry("c", 1)], 0);
            var r := Tick(cfg, s, cfg.topicChannelTTL * MillisPerSecond + 1);
            && |r.channels| == 0
            && SeriesKey(ChannelDepthGauge, ["a b", "c"]) in r.metrics.gauges
  {
    var s := OnTopicChannelDepth(cfg, InitialState(), "a b", [ChannelEntry("c", 1)], 0);
    SpacedTopicRecorded(cfg);
    SpacedKeyLabels();
    var now := cfg.topicChannelTTL * MillisPerSecond + 1;
    assert ExpiredKeys(s.channels, now, cfg.topicChannelTTL) == {"a b c"};
    assert ExpiredKeys(s.topics, now, cfg.topicChannelTTL) == {};
    assert SeriesKey(ChannelDepthGauge, ["a b", "c"]) !in LabelSeries(ChannelDepthGauge, {"a b c"});
  }

  lemma SpacedTopicRecorded(cfg: Settings)
    ensures OnTopicChannelDepth(cfg, InitialState(), "a b", [ChannelEntry("c", 1)], 0).channels == map["a b c" := 0]
    ensures OnTopicChannelDepth(cfg, InitialState(), "a b", [ChannelEntry("c", 1)], 0).topics == map[]
    ensures SeriesKey(ChannelDepthGauge, ["a b", "c"])
            in OnTopicChannelDepth(cfg, InitialState(), "a b", [ChannelEntry("c", 1)], 0).metrics.gauges
  {
    var entries := [ChannelEntry("c", 1)];
    assert !IsEphemeral(cfg, "a b") && !IsEphemeral(cfg, "c");
    assert entries[..0] == [];
    assert ComboKey("a b", "c") == "a b c";
  }

  /** Destructuring keeps only the first two space-separated fields: a key
      with more than one space loses everything after its second space. */
  lemma LabelsOfLongerKey(a: string, b: string, rest: string)
    requires NoSpace(a) && NoSpace(b)
    ensures ComboLabels(a + " " + b + " " + rest) == [a, b]
  {
    assert a + " " + b + " " + rest == a + [' '] + b + [' '] + rest;
    SplitTwoFields(a, b, rest, ' ');
  }

  /** `"a b c".split(" ")` starts with `"a"` and `"b"`. */
  lemma SpacedKeyLabels()
    ensures ComboLabels("a b c") == ["a", "b"]
  {
    assert "a b c" == "a" + " " + "b" + " " + "c";
    LabelsOfLongerKey("a", "b", "c");
  }
}
