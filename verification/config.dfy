/** The exporter's configuration: the two custom value formats it registers
    with its configuration loader (`comma-separated-server-list` and
    `optional-string`) and the settings the metric registry consumes. */
module Config {
  import opened Strings

  /** The shapes of a configuration value as the validators can see them. */
  datatype Value =
    | Undefined
    | Null
    | Bool(b: bool)
    | Number(n: int)
    | Str(s: string)
    | Array(items: seq<Value>)
    | Object

  /** Why a server list was refused. `ItemNotString` is the `TypeError` raised
      when `item.split` is called on an array element that is not a string. */
  datatype FormatError = NotNonEmptyList | NotHostPortList | ItemNotString | NotOptionalString

  datatype Verdict = Accepted | Rejected(reason: FormatError)

  /** A `host:port` entry: splitting on `':'` yields exactly two parts. */
  predicate IsHostPort(item: string)
  {
    |Split(item, ':')| == 2
  }

  /** The coerce step of `comma-separated-server-list`: a value given as a
      string (from the environment or the command line) is split on commas.
      There is always at least one entry, no entry holds a comma, and joining
      the entries with commas gives back the input. */
  function CoerceServerList(raw: string): (entries: seq<string>)
    ensures |entries| >= 1
    ensures forall i :: 0 <= i < |entries| ==> ',' !in entries[i]
    ensures Join(entries, ',') == raw
  {
    SplitThenJoin(raw, ',');
    Split(raw, ',')
  }

  /** `items.every(item => item.split(":").length === 2)`, scanning left to
      right: the first non-string item throws, the first string item without
      exactly two parts stops the scan with a false result. */
  function CheckItems(items: seq<Value>): (v: Verdict)
    ensures v == Accepted <==> forall i :: 0 <= i < |items| ==> items[i].Str? && Count(items[i].s, ':') == 1
    ensures v != Accepted ==> v.reason != NotNonEmptyList
    ensures v == Rejected(ItemNotString) <==>
              exists i :: 0 <= i < |items| && !items[i].Str? && PassesBefore(items, i)
    ensures v == Rejected(NotHostPortList) <==>
              exists i :: 0 <= i < |items| && items[i].Str? && !IsHostPort(items[i].s) && PassesBefore(items, i)
    decreases |items|
  {
    if |items| == 0 then Accepted
    else if !items[0].Str? then
      assert PassesBefore(items, 0);
      Rejected(ItemNotString)
    else if !IsHostPort(items[0].s) then
      assert PassesBefore(items, 0);
      Rejected(NotHostPortList)
    else
      var v := CheckItems(items[1..]);
      ShiftPassesBefore(items);
      v
  }

  /** Every item before index `i` is a string that passes the check. */
  predicate PassesBefore(items: seq<Value>, i: int)
    requires 0 <= i <= |items|
  {
    forall j :: 0 <= j < i ==> items[j].Str? && IsHostPort(items[j].s)
  }

  /** When the first item passes, the items before `i + 1` pass exactly when
      the items of the tail before `i` do. */
  lemma ShiftPassesBefore(items: seq<Value>)
    requires |items| > 0 && items[0].Str? && IsHostPort(items[0].s)
    ensures forall i :: 0 <= i < |items| - 1 ==> (PassesBefore(items, i + 1) <==> PassesBefore(items[1..], i))
  {
    forall i | 0 <= i < |items| - 1
      ensures PassesBefore(items, i + 1) <==> PassesBefore(items[1..], i)
    {
      if PassesBefore(items[1..], i) {
        forall j | 0 <= j < i + 1 ensures items[j].Str? && IsHostPort(items[j].s) {
          if j > 0 { assert items[j] == items[1..][j - 1]; }
        }
      }
    }
  }

  /** The validate step of `comma-separated-server-list`. */
  function ValidateServerList(v: Value): (verdict: Verdict)
    ensures verdict == Rejected(NotNonEmptyList) <==> !v.Array? || |v.items| == 0
    ensures v.Array? && |v.items| >= 1 ==> verdict == CheckItems(v.items)
    ensures verdict == Accepted <==>
              v.Array? && |v.items| >= 1
              && forall i :: 0 <= i < |v.items| ==> v.items[i].Str? && Count(v.items[i].s, ':') == 1
  {
    if !v.Array? || |v.items| < 1 then Rejected(NotNonEmptyList)
    else CheckItems(v.items)
  }

  /** A list of strings as the configuration loader hands it to `validate`. */
  function Strs(entries: seq<string>): (vs: seq<Value>)
    ensures |vs| == |entries|
    ensures forall i :: 0 <= i < |vs| ==> vs[i] == Str(entries[i])
  {
    seq(|entries|, i requires 0 <= i < |entries| => Str(entries[i]))
  }

  /** A server list given as one string is accepted exactly when every
      comma-separated entry holds exactly one colon; the empty string is
      refused by the entry check, not by the length check. */
  lemma CoercedListValidation(raw: string)
    ensures ValidateServerList(Array(Strs(CoerceServerList(raw)))) == Accepted <==>
              forall i :: 0 <= i < |CoerceServerList(raw)| ==> Count(CoerceServerList(raw)[i], ':') == 1
    ensures raw == "" ==> ValidateServerList(Array(Strs(CoerceServerList(raw)))) == Rejected(NotHostPortList)
  {
    if raw == "" {
      assert CoerceServerList(raw) == [""];
    }
  }

  /** Entries without a colon, such as `""` and `"host"`, are refused. */
  lemma RejectsEntriesWithoutColon()
    ensures ValidateServerList(Array([Str("")])) == Rejected(NotHostPortList)
    ensures ValidateServerList(Array([Str("host")])) == Rejected(NotHostPortList)
  {
    assert Count("", ':') == 0;
    assert Count("host", ':') == Count("ost", ':') == Count("st", ':') == Count("t", ':') == 0;
  }

  /** An entry with two colons, such as `"a:b:c"`, is refused. */
  lemma RejectsEntryWithTwoColons()
    ensures ValidateServerList(Array([Str("a:b:c")])) == Rejected(NotHostPortList)
  {
    assert Count(":c", ':') == 1;
    assert Count("a:b:c", ':') == Count(":b:c", ':') == 2;
  }

  /** `":"` (empty host and empty port) passes the check. */
  lemma AcceptsBareColon()
    ensures ValidateServerList(Array([Str(":")])) == Accepted
  {
    assert Count(":", ':') == 1;
  }

  /** The scan stops at the first failing item, so the reported reason
      depends on which bad item comes first; the default `null` is refused. */
  lemma FirstFailingItemDecides()
    ensures ValidateServerList(Array([Number(4161)])) == Rejected(ItemNotString)
    ensures ValidateServerList(Array([Str("host"), Number(4161)])) == Rejected(NotHostPortList)
    ensures ValidateServerList(Null) == Rejected(NotNonEmptyList)
  {
    assert Count("host", ':') == Count("ost", ':') == Count("st", ':') == Count("t", ':') == 0;
  }

  /** `val == null`: loose equality with null holds for null and undefined. */
  predicate IsNullish(v: Value)
  {
    v == Null || v == Undefined
  }

  /** The predicate `optional-string` registers as its validate step: true
      exactly for null, undefined and strings, false for every other value. */
  function ValidateOptionalString(v: Value): (ok: bool)
    ensures ok <==> v.Null? || v.Undefined? || v.Str?
    ensures !ok <==> v.Bool? || v.Number? || v.Array? || v.Object?
  {
    IsNullish(v) || v.Str?
  }

  /** The loader's verdict on `optional-string` as registered: a format
      refuses a value only by throwing, and this validate step never throws,
      so its boolean is discarded and every value passes. */
  function OptionalStringAsWritten(v: Value): (verdict: Verdict)
    ensures verdict == Accepted
  {
    var _ := ValidateOptionalString(v);
    Accepted
  }

  /** The verdict the format evidently intends: the predicate's false turned
      into a refusal, as the server-list format refuses by throwing. */
  function OptionalStringFormat(v: Value): (verdict: Verdict)
    ensures verdict == Accepted <==> v.Null? || v.Undefined? || v.Str?
    ensures verdict != Accepted ==> verdict == Rejected(NotOptionalString)
  {
    if ValidateOptionalString(v) then Accepted else Rejected(NotOptionalString)
  }

  /** A boolean namespace passes the format as registered, although the
      predicate refuses it; the intended format refuses exactly the values
      the predicate refuses. */
  lemma OptionalStringIgnoresVerdict()
    ensures !ValidateOptionalString(Bool(true))
    ensures OptionalStringAsWritten(Bool(true)) == Accepted
    ensures OptionalStringFormat(Bool(true)) == Rejected(NotOptionalString)
    ensures forall v :: OptionalStringFormat(v) == Accepted <==> ValidateOptionalString(v)
  {
  }

  /** The settings the metric registry reads: TTLs are naturals in seconds. */
  datatype Settings = Settings(ignoreEphemeral: bool, nodeTTL: nat, topicChannelTTL: nat)

  function DefaultSettings(): (d: Settings)
    ensures d.ignoreEphemeral
    ensures d.nodeTTL == 60 && d.topicChannelTTL == 120
  {
    Settings(true, 60, 120)
  }
}
