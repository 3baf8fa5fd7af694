# NSQ Prometheus exporter: liveness-windowed metric registry

A Dafny model of the core of `nsq-prometheus-exporter`. This is the part that keeps
"last seen" timestamps for NSQ entities and keeps Prometheus gauge series for them.
It has three liveness ledgers:

- `nodes`, keyed `address:port`;
- `topics`, keyed `topic node`;
- `channels`, keyed `topic channel`.

Each ledger maps a key to the millisecond time the entity was last reported. The
cluster watcher's events update the ledgers and set labelled gauges:

- `error` counts;
- `status` stamps a node and resets the node-count gauge;
- `topic-depth` stamps a topic/node pair and sets `nsq_topic_depth` and
  `nsq_message_count`;
- `topic-channel-depth` stamps each topic/channel pair and sets `nsq_depth`.

A periodic cleanup tick evicts timed-out entries. It also removes the series those
entries fed and recomputes `nsq_nsqd_node_count`. The model also covers the two
custom configuration formats: `comma-separated-server-list` (coerce and validate)
and `optional-string` (validate). It also records the defaults of the settings the
registry reads.

Every handler and the tick is a pure function from one immutable `State` to the
next, with the wall-clock time `now` passed in. The metrics backend is abstract:

- a map from a series (gauge and label values, in declaration order) to its value;
- the unlabelled node count;
- the error counter.

Modules:

- `Strings`: JavaScript's `split` as a recursive function, with its join round trip;
  the `/#ephemeral$/` suffix test; decimal rendering of a port.
- `Liveness`: a ledger's touch and its strict-TTL eviction.
- `Metrics`: the abstract backend.
- `Config`: the validators and settings.
- `Exporter`: the state, the events, the handlers, the tick, and a serialised run
  of events and ticks.
- `Invariant`: ledgers and gauges stay in step across every state reached through
  events whose topic, channel and node-address names hold no space.
- `Properties`: per-handler and per-tick properties, plus worked scenarios.

The eviction test follows the code: `lastSeen < now - ttl * 1000`. An entry exactly
`ttl` seconds old therefore survives the tick. The model uses the metric names
declared in the code.

Keys are built as `a + " " + b` and split back with `split(" ")` at eviction. The
round trip only works when neither name contains a space. The in-step invariant is
therefore proved for events whose topic, channel and node address are free of
spaces. `Properties.SpacedTopicLeavesOrphan` shows the series left behind when a
topic name does contain a space. NSQ itself does not allow spaces in topic or
channel names.

## Model

| member | source | states |
|---|---|---|
| Liveness.Touch | nsq-prometheus-exporter.js:163 | a touched key is present with timestamp `now`; every other key keeps its timestamp and no key is dropped |
| Liveness.ExpiredKeys | nsq-prometheus-exporter.js:77-84 | a ledger key is collected as timed out exactly when its age exceeds `ttl * 1000` ms |
| Liveness.Evict | nsq-prometheus-exporter.js:77-93 | a key survives eviction exactly when its age is at most `ttl * 1000` ms, and survivors keep their timestamps |
| Liveness.EvictionBoundary | nsq-prometheus-exporter.js:81 | an entry exactly `ttl` seconds old survives; one a millisecond older is evicted |
| Liveness.TouchedKeySurvives | nsq-prometheus-exporter.js:81 | an entity touched at `seen` is still present, with that timestamp, at every tick within `ttl` seconds |
| Liveness.EvictIdempotent | nsq-prometheus-exporter.js:77-93 | evicting twice at the same instant equals evicting once |
| Liveness.EvictMonotone | nsq-prometheus-exporter.js:81 | a later tick keeps only keys an earlier tick would also have kept |
| Liveness.TouchAgain | nsq-prometheus-exporter.js:163 | touching a key twice leaves the last timestamp and the same number of entries |
| Metrics.GaugeNamesDistinct | nsq-prometheus-exporter.js:19-41 | the three labelled gauges have distinct exported names, none equal to the node gauge's or the error counter's |
| Metrics.EmptyRegistry | nsq-prometheus-exporter.js:18-42 | a fresh registry has no labelled series and both unlabelled metrics at 0 |
| Metrics.SetGauge | nsq-prometheus-exporter.js:181-189 | `set` creates or overwrites exactly one series and leaves the others and the unlabelled metrics alone |
| Metrics.RemoveSeries | nsq-prometheus-exporter.js:141-142 | `remove` drops exactly the named series, ignores absent ones and keeps the values of the rest |
| Metrics.SetNodeCount | nsq-prometheus-exporter.js:96 | the node gauge takes the given value and nothing else changes |
| Metrics.IncErrorCount | nsq-prometheus-exporter.js:157 | the error counter goes up by one and nothing else changes |
| Strings.Split | nsq-prometheus-exporter.js:116 | `split` yields one part more than there are separators, and no part holds the separator |
| Strings.SplitThenJoin | lib/config.js:8 | joining the parts of a split with the separator gives back the input |
| Strings.SplitWithoutSeparator | nsq-prometheus-exporter.js:140 | a string without the separator splits into itself alone |
| Strings.SplitAfterPrefix | nsq-prometheus-exporter.js:140 | a separator-free prefix is glued onto the first part of the rest's split |
| Strings.SplitTwoFields | nsq-prometheus-exporter.js:116 | `a + sep + b + sep + rest` with separator-free `a` and `b` splits into `a`, `b` and then the split of `rest` |
| Strings.SplitPair | nsq-prometheus-exporter.js:116 | `a + sep + b` with separator-free parts splits into exactly `[a, b]` |
| Strings.EndsWithIsAppend | nsq-prometheus-exporter.js:48-50 | the suffix test holds exactly when the string is some prefix followed by the suffix |
| Strings.Decimal | nsq-prometheus-exporter.js:163 | a port renders as a non-empty string of decimal digits whose value is the port, without leading zeros |
| Strings.DecimalInjective | nsq-prometheus-exporter.js:163 | different ports render as different strings |
| Strings.SplitAtLastSeparator | nsq-prometheus-exporter.js:163 | a string that is a prefix, a separator and a separator-free tail determines both prefix and tail |
| Strings.CountPositive | lib/config.js:14 | a separator occurs at least once exactly when it is in the string, so `split` yields more than one part exactly then |
| Config.CoerceServerList | lib/config.js:8 | the coerced list has at least one entry, no entry holds a comma, and joining with commas gives back the input |
| Config.CheckItems | lib/config.js:14-16 | the item scan accepts exactly when every item is a string with exactly one `:`; otherwise the first failing item decides: a non-string throws, a string without exactly two parts fails the check |
| Config.ValidateServerList | lib/config.js:9-17 | the length message comes exactly for a non-array or an empty array; a non-empty array gets the item scan's verdict, so it is accepted exactly when every item is a string with exactly one `:` |
| Config.CoercedListValidation | lib/config.js:4-18 | a string is accepted exactly when every comma-separated entry has exactly one `:`; the empty string fails the entry check |
| Config.RejectsEntriesWithoutColon | lib/config.js:14-16 | `""` and `"host"` are refused by the entry check |
| Config.RejectsEntryWithTwoColons | lib/config.js:14-16 | `"a:b:c"` is refused by the entry check |
| Config.AcceptsBareColon | lib/config.js:14-16 | `":"` splits into two parts and is accepted |
| Config.FirstFailingItemDecides | lib/config.js:10-16 | the first failing item decides the error (a number throws, a colon-less string fails the check), and the default `null` fails the length check |
| Config.ValidateOptionalString | lib/config.js:22 | the predicate is true exactly for `null`, `undefined` and strings, and false for every boolean, number, array and object |
| Config.OptionalStringAsWritten | lib/config.js:19-23 | the format as registered never throws, so the loader accepts every value |
| Config.OptionalStringFormat | lib/config.js:19-23 | the intended format accepts exactly `null`, `undefined` and strings and refuses every other value |
| Config.OptionalStringIgnoresVerdict | lib/config.js:19-23 | a boolean is refused by the predicate yet passes the registered format; the intended format refuses exactly what the predicate refuses |
| Config.DefaultSettings | lib/config.js:67-89 | the ephemeral filter is on by default, with node TTL 60 s and topic/channel TTL 120 s |
| Exporter.InitialState | nsq-prometheus-exporter.js:14-17 | all three ledgers start empty, with no series and both counters at 0 |
| Exporter.FirstTickAfter | nsq-prometheus-exporter.js:146 | the index of the first 15 s tick strictly after a given time: that tick is later, and the one before it is not |
| Exporter.IsEphemeral | nsq-prometheus-exporter.js:48-50 | the filter matches only when enabled, and then exactly the names of the form `p + "#ephemeral"` for some prefix `p` |
| Exporter.NodeName | nsq-prometheus-exporter.js:163 | a node key is the broadcast address, a colon, and decimal digits without leading zeros whose value is the HTTP port |
| Exporter.NodeNameInjective | nsq-prometheus-exporter.js:163 | different nodes (address or port) get different node keys, even when the address holds colons |
| Exporter.ComboKey | nsq-prometheus-exporter.js:179 | a combination key is the first name, a space, then the second name |
| Exporter.ComboLabels | nsq-prometheus-exporter.js:116 | destructuring a key's split yields two space-free labels exactly when the key holds a space, and one otherwise |
| Exporter.TouchChannel | nsq-prometheus-exporter.js:201-212 | one loop iteration skips an ephemeral channel; otherwise it stamps `topic channel` with `now` and sets that channel's depth series, changing nothing else |
| Exporter.LabelSeries | nsq-prometheus-exporter.js:115-117 | exactly one series per evicted key, labelled by its split and of the gauge being cleaned, and no other series |
| Exporter.Step | nsq-prometheus-exporter.js:149-214 | `ready` changes nothing; only `error` counts; only `status` touches the node ledger and node gauge; only `topic-depth` touches the topic ledger; only `topic-channel-depth` touches the channel ledger |
| Exporter.ComboKeyRoundTrip | nsq-prometheus-exporter.js:179 | a key built from two space-free names has one space and splits back into exactly those names |
| Exporter.ShapedKeyRoundTrip | nsq-prometheus-exporter.js:140 | a key with one space splits into two space-free labels that rebuild the key |
| Exporter.OnError | nsq-prometheus-exporter.js:152-158 | an `error` event increments the error counter by one and leaves ledgers, gauges and node count unchanged |
| Exporter.OnStatus | nsq-prometheus-exporter.js:161-167 | `status` stamps `address:port` with `now` and keeps every other node's timestamp; topics, channels and series are unchanged; the node gauge equals the node count |
| Exporter.OnTopicDepth | nsq-prometheus-exporter.js:170-190 | an ephemeral topic changes nothing; otherwise `topic node` is stamped and the depth and message-count series take the event's values; other keys and series are kept |
| Exporter.ApplyChannels | nsq-prometheus-exporter.js:200-213 | the stamped keys and set series are exactly those of the non-ephemeral channels; every other key and series is kept |
| Exporter.OnTopicChannelDepth | nsq-prometheus-exporter.js:193-214 | an ephemeral topic discards the event; otherwise every channel entry is processed; nodes, topics and counters are unchanged |
| Exporter.Tick | nsq-prometheus-exporter.js:72-146 | each ledger keeps exactly the entries within its TTL, with their timestamps; series only disappear and keep their values; the node gauge equals the remaining node count; errors are unchanged |
| Invariant.NodeNameHasNoSpace | nsq-prometheus-exporter.js:163 | a node key built from a space-free address contains no space |
| Invariant.InitialStateInStep | nsq-prometheus-exporter.js:14-42 | the initial state has ledgers and gauges in step |
| Invariant.LabelSeriesInsert | nsq-prometheus-exporter.js:179-189 | adding a key `a b` adds exactly the series labelled `[a, b]` |
| Invariant.ShapedLabelsDiffer | nsq-prometheus-exporter.js:116 | two different one-space keys yield different label pairs |
| Invariant.LabelSeriesRemove | nsq-prometheus-exporter.js:115-118 | removing the series of evicted one-space keys leaves exactly the series of the surviving keys |
| Invariant.InsertKeepsShaped | nsq-prometheus-exporter.js:207 | inserting a key built from space-free names keeps every key one-space |
| Invariant.AddTopicSeries | nsq-prometheus-exporter.js:179-189 | stamping `topic node` while setting both topic series keeps the state in step |
| Invariant.AddChannelSeries | nsq-prometheus-exporter.js:207-212 | stamping `topic channel` while setting its depth series keeps the state in step |
| Invariant.OnTopicDepthKeepsInStep | nsq-prometheus-exporter.js:170-190 | the `topic-depth` handler preserves the in-step invariant |
| Invariant.TouchChannelKeepsInStep | nsq-prometheus-exporter.js:201-212 | one channel iteration preserves the in-step invariant |
| Invariant.ApplyChannelsKeepsInStep | nsq-prometheus-exporter.js:200-213 | the whole channel loop preserves the in-step invariant |
| Invariant.RetractSeries | nsq-prometheus-exporter.js:115-118 | retracting the depth and message-count series of evicted topic keys and the depth series of evicted channel keys leaves exactly the series the surviving keys call for |
| Invariant.TickKeepsInStep | nsq-prometheus-exporter.js:72-146 | the tick preserves the in-step invariant: every evicted key's series go with it and no live key's series do |
| Invariant.StepKeepsInStep | nsq-prometheus-exporter.js:152-214 | every handler preserves the in-step invariant for events with space-free names |
| Invariant.ApplyKeepsInStep | nsq-prometheus-exporter.js:72-214 | one event or one tick preserves the in-step invariant |
| Invariant.RunKeepsInStep | nsq-prometheus-exporter.js:72-214 | after any sequence of events and ticks, ledgers and gauges are in step and the node gauge equals the number of known nodes |
| Invariant.SeriesHasLiveKey | nsq-prometheus-exporter.js:99-145 | in a state in step, every series has two space-free labels whose key is live in the ledger its gauge reads |
| Properties.StatusRepeated | nsq-prometheus-exporter.js:161-167 | repeating a `status` event later keeps the node count and the node gauge, and leaves the later timestamp |
| Properties.TopicDepthRepeated | nsq-prometheus-exporter.js:170-190 | repeating a `topic-depth` event later keeps the number of topic keys and all metrics |
| Properties.ComboKeyInjective | nsq-prometheus-exporter.js:207 | within one topic, the combination key determines the channel |
| Properties.LiveChannelTouched | nsq-prometheus-exporter.js:200-212 | every non-ephemeral channel of the event has its key stamped and its series set |
| Properties.EphemeralChannelNotTouched | nsq-prometheus-exporter.js:201-204 | an ephemeral channel's key and series are never among those the loop stamps or sets |
| Properties.ChannelKeysAreLive | nsq-prometheus-exporter.js:200-207 | every key the loop stamps is `topic c` for some non-ephemeral channel `c` of the event |
| Properties.ChannelSeriesAreLive | nsq-prometheus-exporter.js:200-212 | every series the loop sets is the depth series of some non-ephemeral channel of the event |
| Properties.ChannelDepthRecorded | nsq-prometheus-exporter.js:209-212 | after the loop, each non-ephemeral channel's series holds that channel's depth |
| Properties.TopicChannelDepthRecorded | nsq-prometheus-exporter.js:193-214 | for a non-ephemeral topic, each non-ephemeral channel's key is stamped with `now` and its series holds its depth |
| Properties.EphemeralChannelSkipped | nsq-prometheus-exporter.js:201-204 | an ephemeral channel's key and series are exactly as before, whatever its sibling channels do |
| Properties.SeriesIffLiveKey | nsq-prometheus-exporter.js:99-145 | in a state in step, a series `[a, b]` exists exactly when key `a b` is live in the ledger of its gauge |
| Properties.TickRetractsChannelSeries | nsq-prometheus-exporter.js:115-119 | `nsq_depth{t, c}` survives the tick exactly when `t c` does, and keeps its value |
| Properties.TickRetractsTopicSeries | nsq-prometheus-exporter.js:139-144 | `nsq_topic_depth{t, n}` and `nsq_message_count{t, n}` survive the tick exactly when `t n` does, and keep their values |
| Properties.TickIdempotent | nsq-prometheus-exporter.js:72-146 | a second tick at the same instant changes nothing |
| Properties.SecondTickKeepsLedgers | nsq-prometheus-exporter.js:77-93 | a second tick at the same instant keeps all three ledgers |
| Properties.SecondTickKeepsSeries | nsq-prometheus-exporter.js:114-144 | a second tick at the same instant keeps all series |
| Properties.TickWithoutExpiredKeepsSeries | nsq-prometheus-exporter.js:114-144 | a tick that finds no timed-out topic or channel removes no series |
| Properties.NothingExpiredAfterTick | nsq-prometheus-exporter.js:77-93 | right after a tick nothing is timed out at the same instant |
| Properties.RetractedWithinOnePeriod | nsq-prometheus-exporter.js:72-146 | with a tick every 15 s, an entry is kept by every tick up to its expiry and removed by the first tick after it, at most one period after the expiry or the process start, whichever is later |
| Properties.NodeExpiryScenario | nsq-prometheus-exporter.js:81-96 | with a 60 s node TTL, a node seen at 0 is counted at 60 s and gone at 61 s, with the gauge falling from 1 to 0 |
| Properties.EphemeralTopicScenario | nsq-prometheus-exporter.js:170-174 | with the filter on, `topic-depth` for `orders#ephemeral` changes nothing |
| Properties.MixedChannelsScenario | nsq-prometheus-exporter.js:193-214 | with the filter on, `orders` with `billing` and `shipping#ephemeral` records `billing` alone, in both ledger and gauges |
| Properties.SpacedTopicLeavesOrphan | nsq-prometheus-exporter.js:116 | a channel of topic `a b` is evicted but its series `{a b, c}` is left behind |
| Properties.SpacedTopicRecorded | nsq-prometheus-exporter.js:207-212 | the event for topic `a b` and channel `c` stores key `a b c` and the series `{a b, c}` |
| Properties.LabelsOfLongerKey | nsq-prometheus-exporter.js:116 | a key with more than one space destructures to its first two fields; everything after the second space is dropped |
| Properties.SpacedKeyLabels | nsq-prometheus-exporter.js:116 | `"a b c".split(" ")` destructures to `a` and `b` |

## Findings

| source | as written | input that shows it | evidently intended | confidence | as-written member | corrected member |
|---|---|---|---|---|---|---|
| lib/config.js:22 | the `optional-string` validate step returns a boolean; the configuration loader refuses a value only when a format throws, as `comma-separated-server-list` does at lib/config.js:11 and :15, so the boolean is discarded | `namespace: true` | refuse every value that is not `null`, `undefined` or a string | medium, not executed; rests on the loader's format contract, whose code is not part of this model | Config.OptionalStringAsWritten | Config.OptionalStringFormat |

## Left out

- The HTTP scrape server and the exposition format of `prometheus.register.metrics()`: I/O and a library's output format.
- `NsqWatch`: its construction, lookupd/nsqd polling and namespace-prefix stripping. It is a network client inside a library; its events are the model's input.
- `setInterval` and `Date.now()`: `now` is a parameter of every handler and of the tick. `Run` serialises events and ticks in the order given, as the single-threaded event loop does.
- Loggers, `lib/utils.js` and the `console` output: side effects only. The `ready` event is only logged, so `Step` leaves the state unchanged for it.
- The SIGINT handler: process control.
- convict's schema loading, environment and argument parsing, the built-in `port`, `nat` and `Boolean` formats, and strict validation. Settings are given as a record whose TTLs are naturals. Coercion is modelled for string input only, which is the only case convict applies it to.
- The `port`, `namespace` and poll-interval settings: the registry does not read them. The code names the TTL setting `topicChannelTTl`; the model calls the field `topicChannelTTL`.
- prom-client internals: the backend is an abstract map from series to value.
- Numbers: depths, message counts and timestamps are unbounded integers, not JavaScript doubles. A missing `meta.message_count` (JavaScript `undefined`) is not modelled; the event always carries an integer.
- Map and object iteration order: the outcome of a tick does not depend on it. Channel entries are processed in the order given.
- Config.ValidateOptionalString: states the predicate only. The loader ignores the returned boolean, so the format as registered accepts every value; see `Config.OptionalStringAsWritten` under Findings.
- Exporter.Tick: its own contract only says that series disappear and keep their values. Which series go, namely exactly those of the evicted keys, is stated for states in step by `Invariant.TickKeepsInStep`, `Properties.TickRetractsChannelSeries` and `Properties.TickRetractsTopicSeries`.
- Exporter.ApplyChannels: stamps every channel of one event with the same `now`. The code reads the clock once per channel, so stamps may differ by the time the loop takes.
- Exporter.ComboLabels: a key without a space gets a one-element label tuple, where JavaScript passes `undefined` as the second label. No `set` call ever creates such a series, so removing it changes nothing either way.
- Invariant.RunKeepsInStep: requires space-free topic, channel and node-address names. With a space the invariant is false; `Properties.SpacedTopicLeavesOrphan` shows why.
- Properties.ChannelDepthRecorded: requires distinct channel names in one event. The names are the property names of one JavaScript object, so they are always distinct.
