/**
 * `Log.to_json` / `Log.from_json` of tests/statlog.py. The encoder turns a
 * `Log` and every `LogEntry` into its attribute dict; the decoder's object
 * hook turns every JSON object with exactly the two keys `time` and `value`
 * back into a `LogEntry` and leaves every other object a dict. Parsing and
 * printing of the JSON text itself are not modelled: `Json` is the tree the
 * text denotes.
 */
module LogJson {
  import opened Wrappers
  import opened Text
  import opened Statlog

  /** A dict key as Python holds it: the per-process dicts are keyed by `int`. */
  datatype Key = KStr(s: string) | KInt(n: int)

  /** The Python values that occur in a log; `PHandle` is the monitor object, which JSON cannot encode. */
  datatype PyValue =
    | PNone
    | PNum(n: real)
    | PStr(s: string)
    | PList(items: seq<PyValue>)
    | PDict(entries: seq<(Key, PyValue)>)
    | PEntry(time: PyValue, value: PyValue)
    | PHandle

  /** A JSON document; object members in text order. */
  datatype Json =
    | JNull
    | JNum(n: real)
    | JStr(s: string)
    | JArr(items: seq<Json>)
    | JObj(members: seq<(string, Json)>)

  /** `json.dumps` writes every key as a string; an `int` key as its decimal text. */
  function KeyText(k: Key): string {
    match k
    case KStr(s) => s
    case KInt(n) => IntToDecimal(n)
  }

  /** Whether the encoder can serialise `v` (it raises `TypeError` on the monitor handle). */
  predicate Encodable(v: PyValue) {
    match v
    case PList(items) => forall i :: 0 <= i < |items| ==> Encodable(items[i])
    case PDict(es) => forall i :: 0 <= i < |es| ==> Encodable(es[i].1)
    case PEntry(t, x) => Encodable(t) && Encodable(x)
    case PHandle => false
    case _ => true
  }

  /** The encoder: a `LogEntry` becomes the object of its two attributes. */
  function Encode(v: PyValue): Json
    requires Encodable(v)
  {
    match v
    case PNone => JNull
    case PNum(n) => JNum(n)
    case PStr(s) => JStr(s)
    case PList(items) => JArr(seq(|items|, i requires 0 <= i < |items| => Encode(items[i])))
    case PDict(es) => JObj(seq(|es|, i requires 0 <= i < |es| => (KeyText(es[i].0), Encode(es[i].1))))
    case PEntry(t, x) => JObj([("time", Encode(t)), ("value", Encode(x))])
  }

  // ---- decoding ----

  function KeysOf(d: seq<(string, PyValue)>): seq<string> {
    seq(|d|, i requires 0 <= i < |d| => d[i].0)
  }

  ghost predicate DistinctNames(d: seq<(string, PyValue)>) {
    forall i, j :: 0 <= i < j < |d| ==> d[i].0 != d[j].0
  }

  /** The position of the first entry for `k`. */
  function IndexOf(d: seq<(string, PyValue)>, k: string): (i: nat)
    requires k in KeysOf(d)
    ensures i < |d| && d[i].0 == k
    ensures forall j :: 0 <= j < i ==> d[j].0 != k
  {
    if d[0].0 == k then 0
    else
      assert KeysOf(d) == [d[0].0] + KeysOf(d[1..]);
      1 + IndexOf(d[1..], k)
  }

  /** `d[k] = v` on an insertion-ordered dict: a new key goes last (`PutReplaces`: a key already
      present keeps its place and takes the new value). */
  function Put(d: seq<(string, PyValue)>, k: string, v: PyValue): (r: seq<(string, PyValue)>)
    ensures k !in KeysOf(d) ==> r == d + [(k, v)]
  {
    if |d| == 0 then [(k, v)]
    else if d[0].0 == k then
      assert KeysOf(d)[0] == k;
      [(k, v)] + d[1..]
    else
      assert KeysOf(d) == [d[0].0] + KeysOf(d[1..]);
      [d[0]] + Put(d[1..], k, v)
  }

  /** Replacing the element at `i` of a tail is replacing the element at `i + 1` of the whole. */
  lemma ReplaceAfterHead<T>(h: T, t: seq<T>, i: nat, e: T)
    requires i < |t|
    ensures [h] + (t[..i] + [e] + t[i + 1..]) == ([h] + t)[..i + 1] + [e] + ([h] + t)[i + 2..]
  {
    assert ([h] + t)[..i + 1] == [h] + t[..i];
    assert ([h] + t)[i + 2..] == t[i + 1..];
  }

  /** Assigning a key the dict already holds replaces the value of its entry in place. */
  lemma {:induction false} PutReplaces(d: seq<(string, PyValue)>, k: string, v: PyValue)
    requires k in KeysOf(d)
    ensures Put(d, k, v) == d[..IndexOf(d, k)] + [(k, v)] + d[IndexOf(d, k) + 1..]
  {
    if d[0].0 == k {
      assert IndexOf(d, k) == 0;
      assert d[..0] == [];
    } else {
      var t := d[1..];
      assert KeysOf(d) == [d[0].0] + KeysOf(t);
      PutReplaces(t, k, v);
      var i := IndexOf(t, k);
      assert IndexOf(d, k) == i + 1;
      assert Put(d, k, v) == [d[0]] + Put(t, k, v);
      assert d == [d[0]] + t;
      ReplaceAfterHead(d[0], t, i, (k, v));
    }
  }

  /** The dict built from an object's members: a repeated key keeps its first position and its last value. */
  function DictOf(pairs: seq<(string, PyValue)>): seq<(string, PyValue)>
    decreases |pairs|
  {
    if |pairs| == 0 then []
    else
      var last := pairs[|pairs| - 1];
      Put(DictOf(pairs[..|pairs| - 1]), last.0, last.1)
  }

  lemma {:induction false} DictOfDistinct(pairs: seq<(string, PyValue)>)
    requires DistinctNames(pairs)
    ensures DictOf(pairs) == pairs
    decreases |pairs|
  {
    if |pairs| > 0 {
      var init := pairs[..|pairs| - 1];
      var last := pairs[|pairs| - 1];
      assert DistinctNames(init) by {
        forall i, j | 0 <= i < j < |init| ensures init[i].0 != init[j].0 {
          assert init[i] == pairs[i] && init[j] == pairs[j];
        }
      }
      DictOfDistinct(init);
      assert last.0 !in KeysOf(init) by {
        forall i | 0 <= i < |init| ensures KeysOf(init)[i] != last.0 {
          assert init[i] == pairs[i];
        }
      }
      assert DictOf(pairs) == Put(init, last.0, last.1);
      assert init + [last] == pairs;
    }
  }

  /** `d[k]`: the value of the first (in a dict, the only) entry for `k`. */
  function Lookup(d: seq<(string, PyValue)>, k: string): (r: PyValue)
    requires k in KeysOf(d)
    ensures d[IndexOf(d, k)] == (k, r)
  {
    if d[0].0 == k then d[0].1
    else
      assert KeysOf(d) == [d[0].0] + KeysOf(d[1..]);
      Lookup(d[1..], k)
  }

  /** `_LogJSONDecoder.object_hook`: an object of exactly the two keys `time` and `value` becomes a
      `LogEntry` of their values; any other object stays the dict of its members. */
  function ObjectHook(d: seq<(string, PyValue)>): (r: PyValue)
    ensures r.PEntry? <==> |d| == 2 && "time" in KeysOf(d) && "value" in KeysOf(d)
    ensures r.PEntry? ==> && (exists i :: 0 <= i < |d| && d[i] == ("time", r.time))
                          && (exists i :: 0 <= i < |d| && d[i] == ("value", r.value))
    ensures !r.PEntry? ==> && r.PDict? && |r.entries| == |d|
                           && forall i :: 0 <= i < |d| ==> r.entries[i] == (KStr(d[i].0), d[i].1)
  {
    if |d| == 2 && "time" in KeysOf(d) && "value" in KeysOf(d) then
      PEntry(Lookup(d, "time"), Lookup(d, "value"))
    else
      PDict(seq(|d|, i requires 0 <= i < |d| => (KStr(d[i].0), d[i].1)))
  }

  /** `json.loads` with the object hook applied to every object, innermost first. */
  function Decode(j: Json): PyValue {
    match j
    case JNull => PNone
    case JNum(n) => PNum(n)
    case JStr(s) => PStr(s)
    case JArr(items) => PList(seq(|items|, i requires 0 <= i < |items| => Decode(items[i])))
    case JObj(ms) => ObjectHook(DictOf(seq(|ms|, i requires 0 <= i < |ms| => (ms[i].0, Decode(ms[i].1)))))
  }

  // ---- round trip ----

  /** What a value reads as after `json.dumps`: every key becomes a string. */
  function Stringified(v: PyValue): PyValue {
    match v
    case PList(items) => PList(seq(|items|, i requires 0 <= i < |items| => Stringified(items[i])))
    case PDict(es) => PDict(seq(|es|, i requires 0 <= i < |es| => (KStr(KeyText(es[i].0)), Stringified(es[i].1))))
    case PEntry(t, x) => PEntry(Stringified(t), Stringified(x))
    case _ => v
  }

  function KeyTexts(es: seq<(Key, PyValue)>): seq<string> {
    seq(|es|, i requires 0 <= i < |es| => KeyText(es[i].0))
  }

  /** A dict the hook would mistake for a `LogEntry`. */
  predicate EntryShaped(es: seq<(Key, PyValue)>) {
    |es| == 2 && "time" in KeyTexts(es) && "value" in KeyTexts(es)
  }

  /** Values that survive the round trip: encodable, with no two keys of a dict written alike
      and no dict shaped like a `LogEntry`. */
  ghost predicate RoundTrips(v: PyValue) {
    match v
    case PList(items) => forall i :: 0 <= i < |items| ==> RoundTrips(items[i])
    case PDict(es) =>
      && (forall i, j :: 0 <= i < j < |es| ==> KeyText(es[i].0) != KeyText(es[j].0))
      && !EntryShaped(es)
      && (forall i :: 0 <= i < |es| ==> RoundTrips(es[i].1))
    case PEntry(t, x) => RoundTrips(t) && RoundTrips(x)
    case PHandle => false
    case _ => true
  }

  lemma {:induction false} RoundTripsEncodable(v: PyValue)
    requires RoundTrips(v)
    ensures Encodable(v)
  {
    match v
    case PList(items) =>
      forall i | 0 <= i < |items| ensures Encodable(items[i]) { RoundTripsEncodable(items[i]); }
    case PDict(es) =>
      forall i | 0 <= i < |es| ensures Encodable(es[i].1) { RoundTripsEncodable(es[i].1); }
    case PEntry(t, x) =>
      RoundTripsEncodable(t);
      RoundTripsEncodable(x);
    case _ =>
  }

  /** `loads(dumps(v))` gives `v` back, up to the stringified keys. */
  lemma {:induction false} DecodeEncode(v: PyValue)
    requires RoundTrips(v)
    ensures Encodable(v) && Decode(Encode(v)) == Stringified(v)
  {
    RoundTripsEncodable(v);
    match v
    case PList(items) =>
      forall i | 0 <= i < |items| ensures Decode(Encode(items[i])) == Stringified(items[i]) {
        DecodeEncode(items[i]);
      }
      DecodeEncodeList(items);
    case PDict(es) =>
      forall i | 0 <= i < |es| ensures Decode(Encode(es[i].1)) == Stringified(es[i].1) {
        DecodeEncode(es[i].1);
      }
      DecodeEncodeDict(es);
    case PEntry(t, x) =>
      DecodeEncode(t);
      DecodeEncode(x);
      DecodeEncodeEntry(t, x);
    case _ =>
  }

  lemma DecodeEncodeList(items: seq<PyValue>)
    requires Encodable(PList(items))
    requires forall i :: 0 <= i < |items| ==> Decode(Encode(items[i])) == Stringified(items[i])
    ensures Decode(Encode(PList(items))) == Stringified(PList(items))
  {
  }

  lemma DecodeEncodeDict(es: seq<(Key, PyValue)>)
    requires RoundTrips(PDict(es)) && Encodable(PDict(es))
    requires forall i :: 0 <= i < |es| ==> Decode(Encode(es[i].1)) == Stringified(es[i].1)
    ensures Decode(Encode(PDict(es))) == Stringified(PDict(es))
  {
    var ms := seq(|es|, i requires 0 <= i < |es| => (KeyText(es[i].0), Encode(es[i].1)));
    assert Encode(PDict(es)) == JObj(ms);
    var pairs := seq(|ms|, i requires 0 <= i < |ms| => (ms[i].0, Decode(ms[i].1)));
    assert pairs == seq(|es|, i requires 0 <= i < |es| => (KeyText(es[i].0), Stringified(es[i].1)));
    DictOfDistinct(pairs);
    assert KeysOf(pairs) == KeyTexts(es);
  }

  /** An object with exactly the members `time` and `value` decodes to a `LogEntry`. */
  lemma DecodeEntryObject(jt: Json, jx: Json)
    ensures Decode(JObj([("time", jt), ("value", jx)])) == PEntry(Decode(jt), Decode(jx))
  {
    var ms := [("time", jt), ("value", jx)];
    var pairs := seq(|ms|, i requires 0 <= i < |ms| => (ms[i].0, Decode(ms[i].1)));
    assert Decode(JObj(ms)) == ObjectHook(DictOf(pairs));
    assert pairs == [("time", Decode(jt)), ("value", Decode(jx))];
    assert "time" != "value";
    DictOfDistinct(pairs);
    assert KeysOf(pairs) == ["time", "value"];
    assert Lookup(pairs, "time") == Decode(jt);
    assert Lookup(pairs, "value") == Decode(jx);
  }

  lemma DecodeEncodeEntry(t: PyValue, x: PyValue)
    requires Encodable(t) && Encodable(x)
    requires Decode(Encode(t)) == Stringified(t) && Decode(Encode(x)) == Stringified(x)
    ensures Decode(Encode(PEntry(t, x))) == Stringified(PEntry(t, x))
  {
    assert Encode(PEntry(t, x)) == JObj([("time", Encode(t)), ("value", Encode(x))]);
    DecodeEntryObject(Encode(t), Encode(x));
  }

  // ---- the log's attribute dict ----

  function MarkerValue(e: Marker): PyValue { PEntry(PNum(e.time), PStr(e.value)) }
  function SampleValue(e: Sample): PyValue { PEntry(PNum(e.time), PNum(e.value)) }

  function MarkersValue(s: seq<Marker>): PyValue {
    PList(seq(|s|, i requires 0 <= i < |s| => MarkerValue(s[i])))
  }

  function SeriesValue(s: seq<Sample>): PyValue {
    PList(seq(|s|, i requires 0 <= i < |s| => SampleValue(s[i])))
  }

  function PidSeriesValue(d: PidSeries): PyValue {
    PDict(seq(|d|, i requires 0 <= i < |d| => (KInt(d[i].0), SeriesValue(d[i].1))))
  }

  /** The per-process dict as read back: keys are the pids' decimal text. */
  function LoadedPidSeries(d: PidSeries): PyValue {
    PDict(seq(|d|, i requires 0 <= i < |d| => (KStr(IntToDecimal(d[i].0)), SeriesValue(d[i].1))))
  }

  /** `log.__dict__`, in attribute assignment order (the monitor handle last). */
  function LogDict(log: Log): PyValue
    reads log
  {
    PDict(
      [ (KStr("time_log_start"), PNum(log.timeLogStart)),
        (KStr("time_log_end"), PNum(log.timeLogEnd)),
        (KStr("timestamps"), MarkersValue(log.timestamps)),
        (KStr("memory_ram"), PidSeriesValue(log.memoryRam)),
        (KStr("memory_gpu"), PidSeriesValue(log.memoryGpu)),
        (KStr("power"), SeriesValue(log.power)) ]
      + (if log.freqGpu.Some? then [(KStr("freq_gpu"), SeriesValue(log.freqGpu.value))] else [])
      + (if log.accuracy.Some? then [(KStr("accuracy"), PNum(log.accuracy.value))] else [])
      + (if log.sampling then [(KStr("_jtop"), PHandle)] else []))
  }

  /** `to_json`: `None` stands for the `TypeError` raised on the monitor handle. */
  function ToJson(log: Log): Option<Json>
    reads log
  {
    var d := LogDict(log);
    if Encodable(d) then Some(Encode(d)) else None
  }

  /** `from_json`: the decoded document becomes the new log's attribute dict,
      which Python only accepts when it is a dict. */
  function FromJson(j: Json): Option<seq<(Key, PyValue)>> {
    var v := Decode(j);
    if v.PDict? then Some(v.entries) else None
  }

  lemma SeriesRoundTrips(s: seq<Sample>)
    ensures RoundTrips(SeriesValue(s)) && Stringified(SeriesValue(s)) == SeriesValue(s)
  {
    var items := SeriesValue(s).items;
    assert forall i :: 0 <= i < |items| ==> items[i] == SampleValue(s[i]);
    assert forall i :: 0 <= i < |items| ==> Stringified(items[i]) == items[i];
  }

  lemma MarkersRoundTrip(s: seq<Marker>)
    ensures RoundTrips(MarkersValue(s)) && Stringified(MarkersValue(s)) == MarkersValue(s)
  {
    var items := MarkersValue(s).items;
    assert forall i :: 0 <= i < |items| ==> items[i] == MarkerValue(s[i]);
    assert forall i :: 0 <= i < |items| ==> Stringified(items[i]) == items[i];
  }

  lemma PidSeriesRoundTrips(d: PidSeries)
    requires DistinctKeys(d)
    ensures RoundTrips(PidSeriesValue(d))
    ensures Stringified(PidSeriesValue(d)) == LoadedPidSeries(d)
  {
    var es := PidSeriesValue(d).entries;
    forall i | 0 <= i < |es| ensures RoundTrips(es[i].1) && Stringified(es[i].1) == es[i].1 {
      SeriesRoundTrips(d[i].1);
    }
    forall i, j | 0 <= i < j < |es| ensures KeyText(es[i].0) != KeyText(es[j].0) {
      if KeyText(es[i].0) == KeyText(es[j].0) {
        IntToDecimalInjective(d[i].0, d[j].0);
      }
    }
    if |es| == 2 {
      var texts := KeyTexts(es);
      assert texts[0] == IntToDecimal(d[0].0) && texts[1] == IntToDecimal(d[1].0);
      assert "time"[0] == 't';
      assert "time" !in texts;
    }
  }

  /** The attribute dict of a log read back from its own JSON text. */
  function ReloadedDict(log: Log): seq<(Key, PyValue)>
    reads log
  {
    [ (KStr("time_log_start"), PNum(log.timeLogStart)),
      (KStr("time_log_end"), PNum(log.timeLogEnd)),
      (KStr("timestamps"), MarkersValue(log.timestamps)),
      (KStr("memory_ram"), LoadedPidSeries(log.memoryRam)),
      (KStr("memory_gpu"), LoadedPidSeries(log.memoryGpu)),
      (KStr("power"), SeriesValue(log.power)) ]
    + (if log.freqGpu.Some? then [(KStr("freq_gpu"), SeriesValue(log.freqGpu.value))] else [])
    + (if log.accuracy.Some? then [(KStr("accuracy"), PNum(log.accuracy.value))] else [])
  }

  /** Dict entries with distinct key texts whose values all round-trip. */
  ghost predicate GoodEntries(es: seq<(Key, PyValue)>) {
    && (forall i, j :: 0 <= i < j < |es| ==> KeyText(es[i].0) != KeyText(es[j].0))
    && (forall i :: 0 <= i < |es| ==> RoundTrips(es[i].1))
  }

  function StringifiedEntries(es: seq<(Key, PyValue)>): seq<(Key, PyValue)> {
    seq(|es|, i requires 0 <= i < |es| => (KStr(KeyText(es[i].0)), Stringified(es[i].1)))
  }

  lemma GoodAppend(es: seq<(Key, PyValue)>, k: Key, v: PyValue)
    requires GoodEntries(es) && RoundTrips(v)
    requires forall i :: 0 <= i < |es| ==> KeyText(es[i].0) != KeyText(k)
    ensures GoodEntries(es + [(k, v)])
    ensures StringifiedEntries(es + [(k, v)]) == StringifiedEntries(es) + [(KStr(KeyText(k)), Stringified(v))]
  {
  }

  function BaseEntries(log: Log): seq<(Key, PyValue)>
    reads log
  {
    [ (KStr("time_log_start"), PNum(log.timeLogStart)),
      (KStr("time_log_end"), PNum(log.timeLogEnd)),
      (KStr("timestamps"), MarkersValue(log.timestamps)),
      (KStr("memory_ram"), PidSeriesValue(log.memoryRam)),
      (KStr("memory_gpu"), PidSeriesValue(log.memoryGpu)),
      (KStr("power"), SeriesValue(log.power)) ]
  }

  /** The six attribute names the constructor assigns, in order. */
  const BaseNames: seq<string> := ["time_log_start", "time_log_end", "timestamps", "memory_ram", "memory_gpu", "power"]

  lemma BaseNamesDistinct()
    ensures forall i, j :: 0 <= i < j < |BaseNames| ==> BaseNames[i] != BaseNames[j]
  {
    var names := BaseNames;
    assert names[0][9] != names[1][9] && names[2][0] != names[3][0] && names[2][0] != names[4][0];
    assert names[3][7] != names[4][7] && names[5][0] != names[0][0];
  }

  lemma BaseEntriesGood(log: Log)
    requires log.Valid()
    ensures GoodEntries(BaseEntries(log))
  {
    var es := BaseEntries(log);
    MarkersRoundTrip(log.timestamps);
    SeriesRoundTrips(log.power);
    PidSeriesRoundTrips(log.memoryRam);
    DistinctKeysOfSameKeys(log.memoryRam, log.memoryGpu);
    PidSeriesRoundTrips(log.memoryGpu);
    BaseNamesDistinct();
    assert forall i :: 0 <= i < 6 ==> KeyText(es[i].0) == BaseNames[i];
  }

  lemma BaseEntriesStringified(log: Log)
    requires log.Valid()
    ensures StringifiedEntries(BaseEntries(log)) == ReloadedDict(log)[..6]
  {
    MarkersRoundTrip(log.timestamps);
    SeriesRoundTrips(log.power);
    PidSeriesRoundTrips(log.memoryRam);
    DistinctKeysOfSameKeys(log.memoryRam, log.memoryGpu);
    PidSeriesRoundTrips(log.memoryGpu);
  }

  /** `to_json` succeeds exactly when the monitor handle is gone, and `from_json`
      then restores every field: markers and samples unchanged, pids as decimal strings. */
  lemma LogRoundTrip(log: Log)
    requires log.Valid()
    ensures ToJson(log).Some? <==> !log.sampling
    ensures !log.sampling ==> FromJson(ToJson(log).value) == Some(ReloadedDict(log))
  {
    var d := LogDict(log);
    var es := d.entries;
    if log.sampling {
      assert es[|es| - 1] == (KStr("_jtop"), PHandle);
      assert !Encodable(d);
    } else {
      var base := BaseEntries(log);
      BaseEntriesGood(log);
      BaseEntriesStringified(log);
      var withFreq := base;
      if log.freqGpu.Some? {
        SeriesRoundTrips(log.freqGpu.value);
        assert "freq_gpu"[0] == 'f';
        GoodAppend(base, KStr("freq_gpu"), SeriesValue(log.freqGpu.value));
        withFreq := base + [(KStr("freq_gpu"), SeriesValue(log.freqGpu.value))];
      }
      var all := withFreq;
      if log.accuracy.Some? {
        assert "accuracy"[0] == 'a';
        GoodAppend(withFreq, KStr("accuracy"), PNum(log.accuracy.value));
        all := withFreq + [(KStr("accuracy"), PNum(log.accuracy.value))];
      }
      assert es == all;
      assert StringifiedEntries(all) == ReloadedDict(log);
      assert !EntryShaped(es);
      assert RoundTrips(d);
      DecodeEncode(d);
    }
  }
}
