/**
 * Period extraction shared by analysis/log_loader.py and its older copy
 * analysis/old_view_scripts/log_loader.py: every `<P>_START` marker whose
 * `<P>_END` partner exists names a period; each series is cut to the
 * closed window [start, end] and shifted so that the window starts at 0;
 * memory samples of several processes that land on the same shifted time
 * are added up.
 */
module Periods {
  import opened Wrappers
  import opened Text
  import opened Statlog

  /** A log as the loaders read it back. The per-process memory lists are kept
      in dict order; their pids play no part in the analysis. `freq_gpu`,
      `accuracy` and `tokens_generated` are attributes a saved log may lack:
      `Log()` never sets them. */
  datatype Record = Record(
    timestamps: seq<Marker>,
    power: seq<Sample>,
    freqGpu: Option<seq<Sample>>,
    memoryRam: seq<seq<Sample>>,
    memoryGpu: seq<seq<Sample>>,
    accuracy: Option<real>,
    tokensGenerated: Option<int>)

  /** `LogPeriod`: one named phase of one log. */
  datatype LogPeriod = LogPeriod(
    name: string,
    i: int,
    length: real,
    freqGpu: seq<Sample>,
    memoryRam: seq<Sample>,
    memoryGpu: seq<Sample>,
    power: seq<Sample>,
    tokensGenerated: int,
    accuracy: real)

  /** The exceptions that abort a whole folder load. */
  datatype LoadError =
    | MissingIteration        // `name.pop(1)` on a one-fragment name: IndexError
    | BadIteration(s: string) // `int(...)` on a fragment that is not an integer: ValueError
    | NoPeriodTime            // `end - start` with `None` operands: TypeError
    | TupleAssignment         // `prev[1] += ...` on a tuple: TypeError
    | EmptyIteration          // `x[0]` on a log without periods: IndexError
    | AbsentAttribute(attr: string) // reading an attribute the log lacks: AttributeError

  const StartSuffix: string := "_START"
  const EndSuffix: string := "_END"

  // ---- markers ----

  /** The index of the first marker labelled `wanted`. */
  function FindLabel(markers: seq<Marker>, wanted: string): (k: Option<nat>)
    ensures k.Some? ==> k.value < |markers| && markers[k.value].value == wanted
    ensures k.Some? ==> forall j :: 0 <= j < k.value ==> markers[j].value != wanted
    ensures k.None? ==> forall j :: 0 <= j < |markers| ==> markers[j].value != wanted
  {
    if |markers| == 0 then None
    else if markers[0].value == wanted then Some(0)
    else match FindLabel(markers[1..], wanted)
      case Some(k) => Some(k + 1)
      case None => None
  }

  /** `log.get_timestamp(label)`: the time of the first marker with that label, `-1` without one. */
  function GetTimestamp(markers: seq<Marker>, wanted: string): real {
    match FindLabel(markers, wanted)
    case Some(k) => markers[k].time
    case None => Unset
  }

  /** `-1` when no marker has the label, otherwise the time of the first marker that has it. */
  lemma GetTimestampSpec(markers: seq<Marker>, wanted: string)
    ensures (forall j :: 0 <= j < |markers| ==> markers[j].value != wanted) ==>
      GetTimestamp(markers, wanted) == Unset
    ensures forall k :: && 0 <= k < |markers| && markers[k].value == wanted
                        && (forall j :: 0 <= j < k ==> markers[j].value != wanted)
                        ==> GetTimestamp(markers, wanted) == markers[k].time
  {
  }

  /** `[x.value[:-6] for x in markers if x.value.endswith('_START')]` */
  function StartPrefixes(markers: seq<Marker>): seq<string>
    decreases |markers|
  {
    if markers == [] then []
    else
      var v := markers[|markers| - 1].value;
      StartPrefixes(markers[..|markers| - 1]) + (if EndsWith(v, StartSuffix) then [v[..|v| - 6]] else [])
  }

  /** The prefixes, in order, whose `_END` marker can be found. */
  function Ended(prefixes: seq<string>, markers: seq<Marker>): seq<string>
    decreases |prefixes|
  {
    if prefixes == [] then []
    else
      var p := prefixes[|prefixes| - 1];
      Ended(prefixes[..|prefixes| - 1], markers) + (if GetTimestamp(markers, p + EndSuffix) != Unset then [p] else [])
  }

  /** The names of the periods of a log, one per `_START` marker with an `_END` partner. */
  function PeriodNames(markers: seq<Marker>): seq<string> {
    Ended(StartPrefixes(markers), markers)
  }

  lemma {:induction false} StartPrefixesMembers(markers: seq<Marker>, p: string)
    ensures p in StartPrefixes(markers) <==> exists k :: 0 <= k < |markers| && markers[k].value == p + StartSuffix
    decreases |markers|
  {
    if markers != [] {
      var init := markers[..|markers| - 1];
      var v := markers[|markers| - 1].value;
      StartPrefixesMembers(init, p);
      if EndsWith(v, StartSuffix) {
        assert v == v[..|v| - 6] + StartSuffix;
      }
      if v == p + StartSuffix {
        assert EndsWith(v, StartSuffix) && v[..|v| - 6] == p;
      }
      if exists k :: 0 <= k < |markers| && markers[k].value == p + StartSuffix {
        var k :| 0 <= k < |markers| && markers[k].value == p + StartSuffix;
        if k < |markers| - 1 { assert init[k] == markers[k]; }
      }
      if exists k :: 0 <= k < |init| && init[k].value == p + StartSuffix {
        var k :| 0 <= k < |init| && init[k].value == p + StartSuffix;
        assert markers[k] == init[k];
      }
    }
  }

  lemma {:induction false} EndedMembers(prefixes: seq<string>, markers: seq<Marker>, p: string)
    ensures p in Ended(prefixes, markers) <==> p in prefixes && GetTimestamp(markers, p + EndSuffix) != Unset
    decreases |prefixes|
  {
    if prefixes != [] {
      var init := prefixes[..|prefixes| - 1];
      EndedMembers(init, markers, p);
      assert prefixes == init + [prefixes[|prefixes| - 1]];
    }
  }

  /** A period named `p` exists exactly when some marker reads `p_START` and
      looking up `p_END` does not give `-1`. */
  lemma PeriodNameMembers(markers: seq<Marker>, p: string)
    ensures p in PeriodNames(markers) <==>
      (exists k :: 0 <= k < |markers| && markers[k].value == p + StartSuffix)
      && GetTimestamp(markers, p + EndSuffix) != Unset
  {
    StartPrefixesMembers(markers, p);
    EndedMembers(StartPrefixes(markers), markers, p);
  }

  /** The period-name loop of `load_logs_from_folder`. */
  method FindPeriodNames(markers: seq<Marker>) returns (names: seq<string>)
    ensures names == PeriodNames(markers)
  {
    var prefixes: seq<string> := [];
    var k := 0;
    while k < |markers|
      invariant 0 <= k <= |markers|
      invariant prefixes == StartPrefixes(markers[..k])
    {
      assert markers[..k + 1][..k] == markers[..k];
      var v := markers[k].value;
      if EndsWith(v, StartSuffix) {
        prefixes := prefixes + [v[..|v| - 6]];
      }
      k := k + 1;
    }
    assert markers[..k] == markers;
    names := [];
    k := 0;
    while k < |prefixes|
      invariant 0 <= k <= |prefixes|
      invariant names == Ended(prefixes[..k], markers)
    {
      assert prefixes[..k + 1][..k] == prefixes[..k];
      if GetTimestamp(markers, prefixes[k] + EndSuffix) != Unset {
        names := names + [prefixes[k]];
      }
      k := k + 1;
    }
    assert prefixes[..k] == prefixes;
  }

  // ---- windows ----

  /** The samples of `series` with `start <= time <= end`, shifted by `-start`, in order. */
  function Window(series: seq<Sample>, start: real, end: real): (w: seq<Sample>)
    ensures |w| <= |series|
    decreases |series|
  {
    if series == [] then []
    else
      var e := series[|series| - 1];
      Window(series[..|series| - 1], start, end)
        + (if start <= e.time <= end then [LogEntry(e.time - start, e.value)] else [])
  }

  /** Cutting distributes over concatenation, so the window keeps the series' order. */
  lemma {:induction false} WindowAppend(a: seq<Sample>, b: seq<Sample>, start: real, end: real)
    ensures Window(a + b, start, end) == Window(a, start, end) + Window(b, start, end)
    decreases |b|
  {
    if b == [] {
      assert a + b == a;
    } else {
      var binit := b[..|b| - 1];
      WindowAppend(a, binit, start, end);
      assert (a + b)[..|a + b| - 1] == a + binit;
    }
  }

  /** Exactly the in-window samples appear, each shifted by `-start`. */
  lemma {:induction false} WindowMembers(series: seq<Sample>, start: real, end: real, x: Sample)
    ensures x in Window(series, start, end) <==>
      exists e :: e in series && start <= e.time <= end && x == LogEntry(e.time - start, e.value)
    decreases |series|
  {
    if series != [] {
      var init := series[..|series| - 1];
      var last := series[|series| - 1];
      WindowMembers(init, start, end, x);
      assert series == init + [last];
      if exists e :: e in series && start <= e.time <= end && x == LogEntry(e.time - start, e.value) {
        var e :| e in series && start <= e.time <= end && x == LogEntry(e.time - start, e.value);
        if e != last { assert e in init; }
      }
    }
  }

  /** Every shifted time lies in [0, end - start]. */
  lemma WindowInRange(series: seq<Sample>, start: real, end: real)
    ensures forall x :: x in Window(series, start, end) ==> 0.0 <= x.time <= end - start
  {
    forall x | x in Window(series, start, end) ensures 0.0 <= x.time <= end - start {
      WindowMembers(series, start, end, x);
    }
  }

  /** The comprehension-style cut of one series. */
  method CutAndShift(series: seq<Sample>, start: real, end: real) returns (out: seq<Sample>)
    ensures out == Window(series, start, end)
  {
    out := [];
    var k := 0;
    while k < |series|
      invariant 0 <= k <= |series|
      invariant out == Window(series[..k], start, end)
    {
      assert series[..k + 1][..k] == series[..k];
      var e := series[k];
      if e.time >= start && e.time <= end {
        out := out + [LogEntry(e.time - start, e.value)];
      }
      k := k + 1;
    }
    assert series[..k] == series;
  }

  // ---- memory totals ----

  /** The index of the first sample at time `t`. */
  function FirstAt(s: seq<Sample>, t: real): (k: Option<nat>)
    ensures k.Some? ==> k.value < |s| && s[k.value].time == t
    ensures k.Some? ==> forall j :: 0 <= j < k.value ==> s[j].time != t
    ensures k.None? ==> forall j :: 0 <= j < |s| ==> s[j].time != t
  {
    if |s| == 0 then None
    else if s[0].time == t then Some(0)
    else match FirstAt(s[1..], t)
      case Some(k) => Some(k + 1)
      case None => None
  }

  /** Add `e` to the first total at its time, or start a new total. */
  function AddToTotal(acc: seq<Sample>, e: Sample): seq<Sample> {
    match FirstAt(acc, e.time)
    case Some(k) => acc[k := LogEntry(acc[k].time, acc[k].value + e.value)]
    case None => acc + [e]
  }

  /** The totals built from `s` in order. */
  function Merged(s: seq<Sample>): seq<Sample>
    decreases |s|
  {
    if s == [] then [] else AddToTotal(Merged(s[..|s| - 1]), s[|s| - 1])
  }

  /** The in-window samples of all processes, process by process. */
  function FlatWindow(series: seq<seq<Sample>>, start: real, end: real): seq<Sample>
    decreases |series|
  {
    if series == [] then []
    else FlatWindow(series[..|series| - 1], start, end) + Window(series[|series| - 1], start, end)
  }

  /** The memory series of a period: one total per shifted time. */
  function MemoryTotals(series: seq<seq<Sample>>, start: real, end: real): seq<Sample> {
    Merged(FlatWindow(series, start, end))
  }

  /** The sum of the values at time `t`. */
  function TotalAt(s: seq<Sample>, t: real): real
    decreases |s|
  {
    if s == [] then 0.0 else TotalAt(s[..|s| - 1], t) + (if s[|s| - 1].time == t then s[|s| - 1].value else 0.0)
  }

  /** Some sample of `s` is at time `t`. */
  ghost predicate HasTime(s: seq<Sample>, t: real) {
    exists i :: 0 <= i < |s| && s[i].time == t
  }

  ghost predicate DistinctTimes(s: seq<Sample>) {
    forall i, j :: 0 <= i < j < |s| ==> s[i].time != s[j].time
  }

  lemma {:induction false} TotalAtUpdate(s: seq<Sample>, k: nat, v: real, t: real)
    requires k < |s|
    ensures TotalAt(s[k := LogEntry(s[k].time, v)], t)
      == TotalAt(s, t) + (if s[k].time == t then v - s[k].value else 0.0)
    decreases |s|
  {
    var u := s[k := LogEntry(s[k].time, v)];
    if k < |s| - 1 {
      TotalAtUpdate(s[..|s| - 1], k, v, t);
      assert u[..|u| - 1] == s[..|s| - 1][k := LogEntry(s[k].time, v)];
    } else {
      assert u[..|u| - 1] == s[..|s| - 1];
    }
  }

  lemma TotalAtAppend(s: seq<Sample>, e: Sample, t: real)
    ensures TotalAt(s + [e], t) == TotalAt(s, t) + (if e.time == t then e.value else 0.0)
  {
    assert (s + [e])[..|s|] == s;
  }

  lemma AddToTotalSpec(acc: seq<Sample>, e: Sample)
    requires DistinctTimes(acc)
    ensures DistinctTimes(AddToTotal(acc, e))
    ensures forall t :: TotalAt(AddToTotal(acc, e), t) == TotalAt(acc, t) + (if e.time == t then e.value else 0.0)
    ensures forall t :: HasTime(AddToTotal(acc, e), t) <==> HasTime(acc, t) || t == e.time
  {
    var r := AddToTotal(acc, e);
    match FirstAt(acc, e.time)
    case Some(k) =>
      forall t ensures TotalAt(r, t) == TotalAt(acc, t) + (if e.time == t then e.value else 0.0) {
        TotalAtUpdate(acc, k, acc[k].value + e.value, t);
      }
      assert forall i :: 0 <= i < |r| ==> r[i].time == acc[i].time;
    case None =>
      forall t ensures TotalAt(r, t) == TotalAt(acc, t) + (if e.time == t then e.value else 0.0) {
        TotalAtAppend(acc, e, t);
      }
      assert r[|acc|].time == e.time;
      assert forall i :: 0 <= i < |acc| ==> r[i] == acc[i];
  }

  /** The totals have distinct times, a time appears iff some sample has it, and
      the total at each time is the sum of all samples at that time. */
  lemma {:induction false} MergedSpec(s: seq<Sample>)
    ensures DistinctTimes(Merged(s))
    ensures forall t :: TotalAt(Merged(s), t) == TotalAt(s, t)
    ensures forall t :: HasTime(Merged(s), t) <==> HasTime(s, t)
    decreases |s|
  {
    if s != [] {
      var init := s[..|s| - 1];
      var e := s[|s| - 1];
      MergedSpec(init);
      AddToTotalSpec(Merged(init), e);
      forall t ensures HasTime(s, t) <==> HasTime(init, t) || t == e.time {
        if HasTime(s, t) {
          var i :| 0 <= i < |s| && s[i].time == t;
          if i < |init| { assert init[i] == s[i]; }
        }
        if HasTime(init, t) {
          var i :| 0 <= i < |init| && init[i].time == t;
          assert s[i] == init[i];
        }
      }
    }
  }

  /** With distinct times, the total at a present time is that sample's value. */
  lemma {:induction false} TotalAtDistinct(s: seq<Sample>, i: nat)
    requires DistinctTimes(s) && i < |s|
    ensures TotalAt(s, s[i].time) == s[i].value
    decreases |s|
  {
    var t := s[i].time;
    if i < |s| - 1 {
      TotalAtDistinct(s[..|s| - 1], i);
    } else {
      TotalAtAbsent(s[..|s| - 1], t);
    }
  }

  lemma {:induction false} TotalAtAbsent(s: seq<Sample>, t: real)
    requires forall j :: 0 <= j < |s| ==> s[j].time != t
    ensures TotalAt(s, t) == 0.0
    decreases |s|
  {
    if s != [] { TotalAtAbsent(s[..|s| - 1], t); }
  }

  lemma {:induction false} TotalAtConcat(a: seq<Sample>, b: seq<Sample>, t: real)
    ensures TotalAt(a + b, t) == TotalAt(a, t) + TotalAt(b, t)
    decreases |b|
  {
    if b == [] {
      assert a + b == a;
    } else {
      TotalAtConcat(a, b[..|b| - 1], t);
      assert (a + b)[..|a + b| - 1] == a + b[..|b| - 1];
    }
  }

  /** The summed total over the processes' windows at shifted time `t`. */
  function TotalOverProcesses(series: seq<seq<Sample>>, start: real, end: real, t: real): real
    decreases |series|
  {
    if series == [] then 0.0
    else TotalOverProcesses(series[..|series| - 1], start, end, t) + TotalAt(Window(series[|series| - 1], start, end), t)
  }

  lemma {:induction false} FlatWindowTotal(series: seq<seq<Sample>>, start: real, end: real, t: real)
    ensures TotalAt(FlatWindow(series, start, end), t) == TotalOverProcesses(series, start, end, t)
    decreases |series|
  {
    if series != [] {
      FlatWindowTotal(series[..|series| - 1], start, end, t);
      TotalAtConcat(FlatWindow(series[..|series| - 1], start, end), Window(series[|series| - 1], start, end), t);
    }
  }

  /** The memory series of a period has one entry per shifted time, and its value there
      is the sum over all processes of their in-window samples at that time. */
  /** A time appears in the flattened windows iff it appears in some PID's window. */
  lemma {:induction false} FlatWindowHasTime(series: seq<seq<Sample>>, start: real, end: real)
    ensures forall t :: HasTime(FlatWindow(series, start, end), t) <==>
      exists p :: 0 <= p < |series| && HasTime(Window(series[p], start, end), t)
    decreases |series|
  {
    if series != [] {
      var init := series[..|series| - 1];
      var w := Window(series[|series| - 1], start, end);
      var fi := FlatWindow(init, start, end);
      FlatWindowHasTime(init, start, end);
      assert FlatWindow(series, start, end) == fi + w;
      forall t ensures HasTime(fi + w, t) <==>
        exists p :: 0 <= p < |series| && HasTime(Window(series[p], start, end), t)
      {
        if HasTime(fi + w, t) {
          var i :| 0 <= i < |fi + w| && (fi + w)[i].time == t;
          if i < |fi| {
            assert HasTime(fi, t);
            var p :| 0 <= p < |init| && HasTime(Window(init[p], start, end), t);
            assert series[p] == init[p];
          } else {
            assert w[i - |fi|].time == t;
            assert HasTime(Window(series[|series| - 1], start, end), t);
          }
        }
        if exists p :: 0 <= p < |series| && HasTime(Window(series[p], start, end), t) {
          var p :| 0 <= p < |series| && HasTime(Window(series[p], start, end), t);
          if p < |init| {
            assert series[p] == init[p];
            assert HasTime(fi, t);
            var i :| 0 <= i < |fi| && fi[i].time == t;
            assert (fi + w)[i] == fi[i];
          } else {
            var i :| 0 <= i < |w| && w[i].time == t;
            assert (fi + w)[|fi| + i] == w[i];
          }
        }
      }
    }
  }

  lemma MemoryTotalsSpec(series: seq<seq<Sample>>, start: real, end: real)
    ensures DistinctTimes(MemoryTotals(series, start, end))
    ensures forall i :: 0 <= i < |MemoryTotals(series, start, end)| ==>
      MemoryTotals(series, start, end)[i].value
        == TotalOverProcesses(series, start, end, MemoryTotals(series, start, end)[i].time)
    ensures forall t :: HasTime(MemoryTotals(series, start, end), t) <==>
      exists p :: 0 <= p < |series| && HasTime(Window(series[p], start, end), t)
  {
    var flat := FlatWindow(series, start, end);
    MergedSpec(flat);
    FlatWindowHasTime(series, start, end);
    var m := Merged(flat);
    forall i | 0 <= i < |m| ensures m[i].value == TotalOverProcesses(series, start, end, m[i].time) {
      TotalAtDistinct(m, i);
      FlatWindowTotal(series, start, end, m[i].time);
    }
  }

  /** Adding one shifted sample to the running totals: the innermost loop, which
      updates the first total at the same time or else appends a new one. */
  method AddSample(totals: seq<Sample>, x: Sample) returns (out: seq<Sample>)
    ensures out == AddToTotal(totals, x)
  {
    out := totals;
    var flag := false;
    var m := 0;
    while m < |out|
      invariant 0 <= m <= |out| == |totals|
      invariant flag ==> FirstAt(totals, x.time).Some? && out == AddToTotal(totals, x)
      invariant !flag ==> out == totals && forall idx :: 0 <= idx < m ==> totals[idx].time != x.time
    {
      if !flag && out[m].time == x.time {
        assert FirstAt(totals, x.time) == Some(m);
        flag := true;
        out := out[m := LogEntry(out[m].time, out[m].value + x.value)];
      }
      m := m + 1;
    }
    if !flag {
      assert FirstAt(totals, x.time).None?;
      out := out + [x];
    }
  }

  lemma MergedSnoc(s: seq<Sample>, x: Sample)
    ensures Merged(s + [x]) == AddToTotal(Merged(s), x)
  {
    assert (s + [x])[..|s|] == s;
  }

  /** The loop over one process's samples. */
  method AddProcess(totals: seq<Sample>, entries: seq<Sample>, start: real, end: real, ghost done: seq<Sample>)
    returns (out: seq<Sample>)
    requires totals == Merged(done)
    ensures out == Merged(done + Window(entries, start, end))
  {
    out := totals;
    var j := 0;
    assert done + Window(entries[..0], start, end) == done;
    while j < |entries|
      invariant 0 <= j <= |entries|
      invariant out == Merged(done + Window(entries[..j], start, end))
    {
      var entry := entries[j];
      ghost var before := done + Window(entries[..j], start, end);
      assert entries[..j + 1] == entries[..j] + [entry];
      WindowAppend(entries[..j], [entry], start, end);
      assert Window([entry], start, end) == Window([], start, end)
        + (if start <= entry.time <= end then [LogEntry(entry.time - start, entry.value)] else []);
      if entry.time >= start && entry.time <= end {
        var x := LogEntry(entry.time - start, entry.value);
        assert done + Window(entries[..j + 1], start, end) == before + [x];
        MergedSnoc(before, x);
        out := AddSample(out, x);
      } else {
        assert done + Window(entries[..j + 1], start, end) == before;
      }
      j := j + 1;
    }
    assert entries[..j] == entries;
  }

  /** The summation of one memory dict into a period series (the corrected form of the
      nested loops: the matching total is updated instead of assigning into a tuple). */
  method MergeMemory(series: seq<seq<Sample>>, start: real, end: real) returns (out: seq<Sample>)
    ensures out == MemoryTotals(series, start, end)
  {
    out := [];
    var k := 0;
    while k < |series|
      invariant 0 <= k <= |series|
      invariant out == Merged(FlatWindow(series[..k], start, end))
    {
      out := AddProcess(out, series[k], start, end, FlatWindow(series[..k], start, end));
      assert series[..k + 1][..k] == series[..k];
      k := k + 1;
    }
    assert series[..k] == series;
  }

  /** The summation as written: the first repeated shifted time makes `prev[1] += v`
      assign into a tuple, which raises. */
  function MergedAsWritten(s: seq<Sample>): Result<seq<Sample>, LoadError>
    decreases |s|
  {
    if s == [] then Ok([])
    else match MergedAsWritten(s[..|s| - 1])
      case Err(e) => Err(e)
      case Ok(acc) => if FirstAt(acc, s[|s| - 1].time).Some? then Err(TupleAssignment) else Ok(acc + [s[|s| - 1]])
  }

  /** As written, the summation only succeeds when no two in-window samples share a
      shifted time, and it then sums nothing: it returns the samples unchanged. */
  lemma {:induction false} MergedAsWrittenSpec(s: seq<Sample>)
    ensures MergedAsWritten(s) == if DistinctTimes(s) then Ok(s) else Err(TupleAssignment)
    decreases |s|
  {
    if s != [] {
      var init := s[..|s| - 1];
      var e := s[|s| - 1];
      MergedAsWrittenSpec(init);
      DistinctTimesSnoc(init, e);
      assert s == init + [e];
    }
  }

  /** Appending a sample keeps the times distinct exactly when its time is new. */
  lemma DistinctTimesSnoc(init: seq<Sample>, e: Sample)
    ensures DistinctTimes(init + [e]) <==> DistinctTimes(init) && FirstAt(init, e.time).None?
  {
    var s := init + [e];
    assert forall i :: 0 <= i < |init| ==> s[i] == init[i];
    if FirstAt(init, e.time).Some? {
      var k := FirstAt(init, e.time).value;
      assert s[k].time == s[|init|].time;
    }
  }

  /** Where the code as written does not raise, the corrected summation agrees with it. */
  lemma MergedAgreesWhenDistinct(s: seq<Sample>)
    requires MergedAsWritten(s).Ok?
    ensures Merged(s) == MergedAsWritten(s).value
  {
    MergedAsWrittenSpec(s);
    MergedDistinctIdentity(s);
  }

  lemma {:induction false} MergedDistinctIdentity(s: seq<Sample>)
    requires DistinctTimes(s)
    ensures Merged(s) == s
    decreases |s|
  {
    if s != [] {
      var init := s[..|s| - 1];
      MergedDistinctIdentity(init);
      assert forall j :: 0 <= j < |init| ==> init[j].time != s[|s| - 1].time by {
        forall j | 0 <= j < |init| ensures init[j].time != s[|s| - 1].time { assert init[j] == s[j]; }
      }
      assert FirstAt(init, s[|s| - 1].time).None?;
    }
  }

  /** Two processes sampled at the same instant: the code as written raises,
      the corrected summation gives one total of both readings. */
  lemma TwoProcessesSameInstant()
    ensures MergedAsWritten(FlatWindow([[LogEntry(3.0, 100.0)], [LogEntry(3.0, 50.0)]], 2.0, 5.0)).Err?
    ensures MemoryTotals([[LogEntry(3.0, 100.0)], [LogEntry(3.0, 50.0)]], 2.0, 5.0) == [LogEntry(1.0, 150.0)]
  {
    var series := [[LogEntry(3.0, 100.0)], [LogEntry(3.0, 50.0)]];
    assert series[..1] == [[LogEntry(3.0, 100.0)]];
    assert [[LogEntry(3.0, 100.0)]][..0] == [];
    var w1 := Window([LogEntry(3.0, 100.0)], 2.0, 5.0);
    assert [LogEntry(3.0, 100.0)][..0] == [];
    assert w1 == [LogEntry(1.0, 100.0)];
    var w2 := Window([LogEntry(3.0, 50.0)], 2.0, 5.0);
    assert [LogEntry(3.0, 50.0)][..0] == [];
    assert w2 == [LogEntry(1.0, 50.0)];
    var flat := FlatWindow(series, 2.0, 5.0);
    assert flat == [LogEntry(1.0, 100.0), LogEntry(1.0, 50.0)];
    MergedAsWrittenSpec(flat);
    assert flat[..1] == [LogEntry(1.0, 100.0)];
    assert flat[..1][..0] == [];
    assert Merged(flat[..1]) == [LogEntry(1.0, 100.0)];
  }

  // ---- one period, all periods of a log ----

  /** The `LogPeriod` built for `name` in iteration `i`; the attributes are read in
      the order the loop body reads them. */
  function PeriodOf(log: Record, name: string, i: int): (r: Result<LogPeriod, LoadError>)
    ensures r.Err? <==> || log.accuracy.None? || log.tokensGenerated.None? || log.freqGpu.None?
                        || GetTimestamp(log.timestamps, name + StartSuffix) == Unset
                        || GetTimestamp(log.timestamps, name + EndSuffix) == Unset
    ensures r.Ok? ==> && r.value.name == name && r.value.i == i
                      && r.value.accuracy == log.accuracy.value
                      && r.value.tokensGenerated == log.tokensGenerated.value
                      && r.value.length == GetTimestamp(log.timestamps, name + EndSuffix)
                                           - GetTimestamp(log.timestamps, name + StartSuffix)
    ensures r.Ok? ==> var s := GetTimestamp(log.timestamps, name + StartSuffix);
                      var e := GetTimestamp(log.timestamps, name + EndSuffix);
                      && r.value.freqGpu == Window(log.freqGpu.value, s, e)
                      && r.value.power == Window(log.power, s, e)
                      && r.value.memoryRam == MemoryTotals(log.memoryRam, s, e)
                      && r.value.memoryGpu == MemoryTotals(log.memoryGpu, s, e)
  {
    if log.accuracy.None? then Err(AbsentAttribute("accuracy"))
    else if log.tokensGenerated.None? then Err(AbsentAttribute("tokens_generated"))
    else
      var start := GetTimestamp(log.timestamps, name + StartSuffix);
      var end := GetTimestamp(log.timestamps, name + EndSuffix);
      if start == Unset || end == Unset then Err(NoPeriodTime)
      else if log.freqGpu.None? then Err(AbsentAttribute("freq_gpu"))
      else Ok(LogPeriod(name, i, end - start,
                        Window(log.freqGpu.value, start, end),
                        MemoryTotals(log.memoryRam, start, end),
                        MemoryTotals(log.memoryGpu, start, end),
                        Window(log.power, start, end),
                        log.tokensGenerated.value, log.accuracy.value))
  }

  /** The periods of `log` for the given names, stopping at the first failure. */
  function PeriodsFor(log: Record, names: seq<string>, i: int): Result<seq<LogPeriod>, LoadError>
    decreases |names|
  {
    if names == [] then Ok([])
    else match PeriodsFor(log, names[..|names| - 1], i)
      case Err(e) => Err(e)
      case Ok(ps) =>
        match PeriodOf(log, names[|names| - 1], i)
        case Err(e) => Err(e)
        case Ok(p) => Ok(ps + [p])
  }

  /** `period_list` of one log. */
  function PeriodsOf(log: Record, i: int): (r: Result<seq<LogPeriod>, LoadError>)
    ensures r.Ok? ==> && |r.value| == |PeriodNames(log.timestamps)|
                      && forall k :: 0 <= k < |r.value| ==>
                           r.value[k].name == PeriodNames(log.timestamps)[k] && r.value[k].i == i
  {
    var r := PeriodsFor(log, PeriodNames(log.timestamps), i);
    if r.Ok? then PeriodsForSpec(log, PeriodNames(log.timestamps), i); r else r
  }

  /** `p` is the period called `name` of iteration `i`, and its length is the
      distance between the name's two markers. */
  predicate NamedPeriod(log: Record, p: LogPeriod, name: string, i: int) {
    && p.name == name && p.i == i
    && p.length == GetTimestamp(log.timestamps, name + EndSuffix)
                   - GetTimestamp(log.timestamps, name + StartSuffix)
  }

  /** A successful extraction is the extraction of all names but the last, then the last. */
  lemma PeriodsForOkSnoc(log: Record, names: seq<string>, i: int)
    requires names != [] && PeriodsFor(log, names, i).Ok?
    ensures var init := names[..|names| - 1];
      && PeriodsFor(log, init, i).Ok? && PeriodOf(log, names[|names| - 1], i).Ok?
      && PeriodsFor(log, names, i).value
         == PeriodsFor(log, init, i).value + [PeriodOf(log, names[|names| - 1], i).value]
  {
  }

  /** Each period is named in turn, and its length is the distance between its two markers. */
  lemma {:induction false} PeriodsForSpec(log: Record, names: seq<string>, i: int)
    requires PeriodsFor(log, names, i).Ok?
    ensures var ps := PeriodsFor(log, names, i).value;
      && |ps| == |names|
      && forall k :: 0 <= k < |ps| ==> NamedPeriod(log, ps[k], names[k], i)
    decreases |names|
  {
    if names != [] {
      var init := names[..|names| - 1];
      var n := names[|names| - 1];
      PeriodsForOkSnoc(log, names, i);
      PeriodsForSpec(log, init, i);
      var ps := PeriodsFor(log, init, i).value;
      var p := PeriodOf(log, n, i).value;
      var all := PeriodsFor(log, names, i).value;
      assert NamedPeriod(log, p, n, i);
      forall k | 0 <= k < |all| ensures NamedPeriod(log, all[k], names[k], i) {
        if k < |ps| {
          assert all[k] == ps[k] && names[k] == init[k];
        } else {
          assert all[k] == p && names[k] == n;
        }
      }
    }
  }

  /** A log that has all its attributes and whose markers all carry non-negative
      times always yields its periods. */
  lemma {:induction false} PeriodsForOk(log: Record, names: seq<string>, i: int)
    requires log.accuracy.Some? && log.tokensGenerated.Some? && log.freqGpu.Some?
    requires forall k :: 0 <= k < |log.timestamps| ==> log.timestamps[k].time >= 0.0
    requires forall k :: 0 <= k < |names| ==> names[k] in PeriodNames(log.timestamps)
    ensures PeriodsFor(log, names, i).Ok?
    decreases |names|
  {
    if names != [] {
      var p := names[|names| - 1];
      PeriodsForOk(log, names[..|names| - 1], i);
      PeriodNameMembers(log.timestamps, p);
      var k :| 0 <= k < |log.timestamps| && log.timestamps[k].value == p + StartSuffix;
      assert FindLabel(log.timestamps, p + StartSuffix).Some?;
    }
  }

  lemma PeriodsOfOk(log: Record, i: int)
    requires log.accuracy.Some? && log.tokensGenerated.Some? && log.freqGpu.Some?
    requires forall k :: 0 <= k < |log.timestamps| ==> log.timestamps[k].time >= 0.0
    ensures PeriodsOf(log, i).Ok?
  {
    PeriodsForOk(log, PeriodNames(log.timestamps), i);
  }

  /** A log with at least one period but without one of the attributes the loop
      body reads stops the load with `AttributeError` on its first period; a log
      without periods never reads them. */
  lemma PeriodsOfAbsentAttribute(log: Record, i: int)
    ensures PeriodNames(log.timestamps) == [] ==> PeriodsOf(log, i) == Ok([])
    ensures PeriodNames(log.timestamps) != [] && log.accuracy.None? ==>
      PeriodsOf(log, i) == Err(AbsentAttribute("accuracy"))
    ensures PeriodNames(log.timestamps) != [] && log.accuracy.Some? && log.tokensGenerated.None? ==>
      PeriodsOf(log, i) == Err(AbsentAttribute("tokens_generated"))
  {
    var names := PeriodNames(log.timestamps);
    if names != [] && (log.accuracy.None? || log.tokensGenerated.None?) {
      PeriodsForSnoc(log, names, 0, i);
      assert names[..0] == [];
      PeriodsForAbort(log, names, 1, i);
    }
  }

  /** A log whose markers pair up but which was saved without `freq_gpu`, as every
      log built by `Log()` is, stops the load once it has its accuracy and token count. */
  lemma PeriodsOfWithoutFreqGpu(log: Record, i: int)
    requires log.accuracy.Some? && log.tokensGenerated.Some? && log.freqGpu.None?
    requires forall k :: 0 <= k < |log.timestamps| ==> log.timestamps[k].time >= 0.0
    requires PeriodNames(log.timestamps) != []
    ensures PeriodsOf(log, i) == Err(AbsentAttribute("freq_gpu"))
  {
    var names := PeriodNames(log.timestamps);
    var p := names[0];
    PeriodNameMembers(log.timestamps, p);
    var k :| 0 <= k < |log.timestamps| && log.timestamps[k].value == p + StartSuffix;
    assert FindLabel(log.timestamps, p + StartSuffix).Some?;
    PeriodsForSnoc(log, names, 0, i);
    assert names[..0] == [];
    PeriodsForAbort(log, names, 1, i);
  }

  /** A phase marked at 2.0 s and 5.0 s has length 3.0, and a power sample taken at
      3.0 s appears at 1.0 s. */
  lemma ExamplePeriod()
    ensures var log := Record([LogEntry(2.0, "GEN_START"), LogEntry(5.0, "GEN_END")],
                              [LogEntry(1.0, 4.0), LogEntry(3.0, 7.0), LogEntry(6.0, 5.0)],
                              Some([]), [], [], Some(0.0), Some(0));
      PeriodOf(log, "GEN", 1) == Ok(LogPeriod("GEN", 1, 3.0, [], [], [], [LogEntry(1.0, 7.0)], 0, 0.0))
  {
    var markers := [LogEntry(2.0, "GEN_START"), LogEntry(5.0, "GEN_END")];
    assert "GEN" + StartSuffix == "GEN_START";
    assert "GEN" + EndSuffix == "GEN_END";
    assert markers[1..][1..] == [];
    assert FindLabel(markers, "GEN_START") == Some(0);
    assert "GEN_START" != "GEN_END";
    assert FindLabel(markers, "GEN_END") == Some(1);
    var power := [LogEntry(1.0, 4.0), LogEntry(3.0, 7.0), LogEntry(6.0, 5.0)];
    assert power[..2][..1][..0] == [];
    assert Window(power[..1], 2.0, 5.0) == [];
    assert Window(power[..2], 2.0, 5.0) == [LogEntry(1.0, 7.0)];
    assert Window(power, 2.0, 5.0) == [LogEntry(1.0, 7.0)];
    assert MemoryTotals([], 2.0, 5.0) == [];
    assert Window([], 2.0, 5.0) == [];
  }

  lemma PeriodsForSnoc(log: Record, names: seq<string>, k: nat, i: int)
    requires k < |names|
    ensures PeriodsFor(log, names[..k + 1], i) ==
      match PeriodsFor(log, names[..k], i)
      case Err(e) => Err(e)
      case Ok(ps) => (match PeriodOf(log, names[k], i) case Err(e) => Err(e) case Ok(p) => Ok(ps + [p]))
  {
    assert names[..k + 1][..k] == names[..k];
  }

  /** The first failing period aborts the whole log. */
  lemma {:induction false} PeriodsForAbort(log: Record, names: seq<string>, k: nat, i: int)
    requires k <= |names| && PeriodsFor(log, names[..k], i).Err?
    ensures PeriodsFor(log, names, i) == PeriodsFor(log, names[..k], i)
    decreases |names| - k
  {
    if k < |names| {
      PeriodsForSnoc(log, names, k, i);
      PeriodsForAbort(log, names, k + 1, i);
    } else {
      assert names[..k] == names;
    }
  }

  /** The series of one period, cut from the log by the loop body. */
  method CutSeries(log: Record, start: real, end: real)
      returns (freq: seq<Sample>, ram: seq<Sample>, gpu: seq<Sample>, power: seq<Sample>)
    requires log.freqGpu.Some?
    ensures freq == Window(log.freqGpu.value, start, end) && power == Window(log.power, start, end)
    ensures ram == MemoryTotals(log.memoryRam, start, end) && gpu == MemoryTotals(log.memoryGpu, start, end)
  {
    freq := CutAndShift(log.freqGpu.value, start, end);
    ram := MergeMemory(log.memoryRam, start, end);
    gpu := MergeMemory(log.memoryGpu, start, end);
    power := CutAndShift(log.power, start, end);
  }

  /** The body of the period loop: one `LogPeriod`. */
  method ExtractPeriod(log: Record, name: string, i: int) returns (r: Result<LogPeriod, LoadError>)
    ensures r == PeriodOf(log, name, i)
  {
    if log.accuracy.None? {
      return Err(AbsentAttribute("accuracy"));
    }
    if log.tokensGenerated.None? {
      return Err(AbsentAttribute("tokens_generated"));
    }
    var start := GetTimestamp(log.timestamps, name + StartSuffix);
    var end := GetTimestamp(log.timestamps, name + EndSuffix);
    if start == Unset || end == Unset {
      return Err(NoPeriodTime);
    }
    if log.freqGpu.None? {
      return Err(AbsentAttribute("freq_gpu"));
    }
    var freq, ram, gpu, power := CutSeries(log, start, end);
    r := Ok(LogPeriod(name, i, end - start, freq, ram, gpu, power, log.tokensGenerated.value, log.accuracy.value));
  }

  /** The period loop of one log. */
  method ExtractPeriods(log: Record, i: int) returns (r: Result<seq<LogPeriod>, LoadError>)
    ensures r == PeriodsOf(log, i)
  {
    var names := FindPeriodNames(log.timestamps);
    var periods: seq<LogPeriod> := [];
    var k := 0;
    while k < |names|
      invariant 0 <= k <= |names|
      invariant PeriodsFor(log, names[..k], i) == Ok(periods)
    {
      var p := ExtractPeriod(log, names[k], i);
      PeriodsForSnoc(log, names, k, i);
      if p.Err? {
        PeriodsForAbort(log, names, k + 1, i);
        assert names == PeriodNames(log.timestamps);
        return Err(p.error);
      }
      periods := periods + [p.value];
      k := k + 1;
    }
    assert names[..k] == names;
    r := Ok(periods);
  }
}
