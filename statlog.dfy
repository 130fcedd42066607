/**
 * The telemetry log of tests/statlog.py: a `Log` object that is created
 * idle, starts recording on `begin`, is finalized by `end`, and meanwhile
 * collects phase markers (from the foreground) and power, GPU-frequency and
 * per-process memory samples (from the hardware monitor's callback).
 *
 * The clock (`perf_counter`) is passed in as the reading each call takes,
 * and the monitor's readings as a `Snapshot` value.
 */
module Statlog {
  import opened Wrappers

  /** A value together with the time, in seconds since the log began, at which it was added. */
  datatype LogEntry<V> = LogEntry(time: real, value: V)

  type Marker = LogEntry<string>
  type Sample = LogEntry<real>

  /** A dict from process id to a list of samples, in key insertion order. */
  type PidSeries = seq<(int, seq<Sample>)>

  /** The `-1` stored in `time_log_start` / `time_log_end` while they are not set. */
  const Unset: real := -1.0
  /** The process whose memory is recorded. */
  const MonitoredProcess: string := "pt_main_thread"
  const LogStarted: string := "Log started"
  const LogFinished: string := "Log finished"

  /** The fields of one entry of the monitor's process table that the log reads:
      `proc[0]`, `proc[7]`, `proc[8]` and `proc[9]`. */
  datatype Proc = Proc(pid: int, ram: real, gpuMemory: real, name: string)

  /** One reading of the hardware monitor: total power (mW), current GPU frequency (kHz), processes. */
  datatype Snapshot = Snapshot(totalPowerMw: real, gpuFreqKhz: real, processes: seq<Proc>)

  /** The `RuntimeError`s of the log, and the `AttributeError` raised on a missing attribute. */
  datatype LogError =
    | TimestampBeforeStart
    | AlreadyStarted
    | EndBeforeStart
    | AlreadyEnded
    | MissingAttribute(attribute: string)

  // ---- per-process series ----

  /** The pids of a per-process dictionary, in insertion order. */
  function Keys(d: PidSeries): seq<int> {
    seq(|d|, i requires 0 <= i < |d| => d[i].0)
  }

  ghost predicate DistinctKeys(d: PidSeries) {
    forall i, j :: 0 <= i < j < |d| ==> d[i].0 != d[j].0
  }

  /** Two dictionaries with the same pids in the same order are both free of repeats. */
  lemma DistinctKeysOfSameKeys(a: PidSeries, b: PidSeries)
    requires DistinctKeys(a) && Keys(a) == Keys(b)
    ensures DistinctKeys(b)
  {
    assert |a| == |Keys(a)| == |Keys(b)| == |b|;
    forall i, j | 0 <= i < j < |b| ensures b[i].0 != b[j].0 {
      assert Keys(b)[i] == b[i].0 && Keys(b)[j] == b[j].0;
      assert Keys(a)[i] == a[i].0 && Keys(a)[j] == a[j].0;
    }
  }

  /** `d[pid]`, or the empty list when `pid` has no entry yet. */
  function SeriesOf(d: PidSeries, pid: int): seq<Sample> {
    if |d| == 0 then [] else if d[0].0 == pid then d[0].1 else SeriesOf(d[1..], pid)
  }

  /** Create the list for `pid` on first sight, then append `e` to it. */
  function AppendAt(d: PidSeries, pid: int, e: Sample): (r: PidSeries)
    ensures SeriesOf(r, pid) == SeriesOf(d, pid) + [e]
    ensures forall q :: q != pid ==> SeriesOf(r, q) == SeriesOf(d, q)
  {
    if |d| == 0 then [(pid, [e])]
    else if d[0].0 == pid then [(pid, d[0].1 + [e])] + d[1..]
    else [d[0]] + AppendAt(d[1..], pid, e)
  }

  /** A known pid keeps its place: the keys do not change. */
  lemma {:induction false} AppendAtKnown(d: PidSeries, pid: int, e: Sample)
    requires pid in Keys(d)
    ensures Keys(AppendAt(d, pid, e)) == Keys(d)
    decreases |d|
  {
    var r := AppendAt(d, pid, e);
    if d[0].0 == pid {
      assert forall i :: 0 <= i < |d| ==> Keys(r)[i] == Keys(d)[i];
    } else {
      KeysCons(d[0], d[1..]);
      assert [d[0]] + d[1..] == d;
      AppendAtKnown(d[1..], pid, e);
      KeysCons(d[0], AppendAt(d[1..], pid, e));
    }
  }

  /** A new pid is added at the end of the dict. */
  lemma {:induction false} AppendAtNew(d: PidSeries, pid: int, e: Sample)
    requires pid !in Keys(d)
    ensures Keys(AppendAt(d, pid, e)) == Keys(d) + [pid]
    decreases |d|
  {
    if |d| > 0 {
      assert d[0].0 == Keys(d)[0];
      KeysCons(d[0], d[1..]);
      assert [d[0]] + d[1..] == d;
      AppendAtNew(d[1..], pid, e);
      KeysCons(d[0], AppendAt(d[1..], pid, e));
    }
  }

  /** Appending keeps the keys distinct. */
  lemma {:induction false} AppendAtDistinct(d: PidSeries, pid: int, e: Sample)
    requires DistinctKeys(d)
    ensures DistinctKeys(AppendAt(d, pid, e))
    decreases |d|
  {
    if |d| > 0 {
      var r := AppendAt(d, pid, e);
      if d[0].0 == pid {
        assert forall i :: 0 <= i < |d| ==> r[i].0 == d[i].0;
      } else {
        DistinctKeysTail(d);
        var rest := AppendAt(d[1..], pid, e);
        AppendAtDistinct(d[1..], pid, e);
        if pid in Keys(d[1..]) {
          AppendAtKnown(d[1..], pid, e);
        } else {
          AppendAtNew(d[1..], pid, e);
        }
        assert d[0].0 !in Keys(rest);
        DistinctKeysCons(d[0], rest);
      }
    }
  }

  /** The keys after appending, whether or not the pid was known. */
  lemma AppendAtKeys(d: PidSeries, pid: int, e: Sample)
    ensures var r := AppendAt(d, pid, e);
      && (pid in Keys(d) ==> Keys(r) == Keys(d))
      && (pid !in Keys(d) ==> Keys(r) == Keys(d) + [pid])
      && (DistinctKeys(d) ==> DistinctKeys(r))
  {
    if pid in Keys(d) {
      AppendAtKnown(d, pid, e);
    } else {
      AppendAtNew(d, pid, e);
    }
    if DistinctKeys(d) {
      AppendAtDistinct(d, pid, e);
    }
  }

  lemma KeysCons(x: (int, seq<Sample>), d: PidSeries)
    ensures Keys([x] + d) == [x.0] + Keys(d)
  {
  }

  /** A dict with one more entry in front has distinct keys when its tail does and the new key is fresh. */
  lemma DistinctKeysCons(x: (int, seq<Sample>), d: PidSeries)
    requires DistinctKeys(d) && x.0 !in Keys(d)
    ensures DistinctKeys([x] + d)
  {
    var r := [x] + d;
    forall i, j | 0 <= i < j < |r| ensures r[i].0 != r[j].0 {
      assert r[j] == d[j - 1];
      if i > 0 {
        assert r[i] == d[i - 1];
      } else {
        assert Keys(d)[j - 1] == d[j - 1].0;
      }
    }
  }

  /** The tail of a dict with distinct keys has distinct keys, none equal to the head's. */
  lemma DistinctKeysTail(d: PidSeries)
    requires |d| > 0 && DistinctKeys(d)
    ensures DistinctKeys(d[1..]) && d[0].0 !in Keys(d[1..])
  {
    var t := d[1..];
    forall i, j | 0 <= i < j < |t| ensures t[i].0 != t[j].0 {
      assert t[i] == d[i + 1] && t[j] == d[j + 1];
    }
    forall i | 0 <= i < |t| ensures Keys(t)[i] != d[0].0 {
      assert t[i] == d[i + 1];
    }
  }

  /** The reading a process contributes to the RAM (`gpu == false`) or GPU memory series. */
  function Reading(p: Proc, gpu: bool): real {
    if gpu then p.gpuMemory else p.ram
  }

  /** The memory dict after one callback at time `t` has gone through `procs` in order. */
  function Track(d: PidSeries, procs: seq<Proc>, t: real, gpu: bool): PidSeries
    decreases |procs|
  {
    if procs == [] then d
    else
      var p := procs[|procs| - 1];
      var before := Track(d, procs[..|procs| - 1], t, gpu);
      if p.name == MonitoredProcess then AppendAt(before, p.pid, LogEntry(t, Reading(p, gpu))) else before
  }

  /** The samples a callback at time `t` adds for `pid`: one per monitored process entry with that id. */
  function ReadingsOf(procs: seq<Proc>, pid: int, t: real, gpu: bool): seq<Sample>
    decreases |procs|
  {
    if procs == [] then []
    else
      var p := procs[|procs| - 1];
      ReadingsOf(procs[..|procs| - 1], pid, t, gpu)
        + (if p.name == MonitoredProcess && p.pid == pid then [LogEntry(t, Reading(p, gpu))] else [])
  }

  /** The list for each pid grows by exactly that pid's monitored readings; other processes add nothing. */
  lemma {:induction false} TrackSeries(d: PidSeries, procs: seq<Proc>, t: real, gpu: bool, pid: int)
    ensures SeriesOf(Track(d, procs, t, gpu), pid) == SeriesOf(d, pid) + ReadingsOf(procs, pid, t, gpu)
    decreases |procs|
  {
    if procs != [] {
      TrackSeries(d, procs[..|procs| - 1], t, gpu, pid);
    }
  }

  /** Some monitored process entry carries `pid`. */
  ghost predicate Monitors(procs: seq<Proc>, pid: int) {
    exists p :: p in procs && p.name == MonitoredProcess && p.pid == pid
  }

  /** A pid has a list afterwards iff it had one before or a monitored process carries it;
      the earlier keys keep their order and new ones come after them. */
  lemma {:induction false} TrackKeys(d: PidSeries, procs: seq<Proc>, t: real, gpu: bool)
    ensures var r := Track(d, procs, t, gpu);
      && Keys(d) <= Keys(r)
      && (forall pid :: pid in Keys(r) <==> pid in Keys(d) || Monitors(procs, pid))
      && (DistinctKeys(d) ==> DistinctKeys(r))
    decreases |procs|
  {
    if procs != [] {
      var init := procs[..|procs| - 1];
      var p := procs[|procs| - 1];
      TrackKeys(d, init, t, gpu);
      if p.name == MonitoredProcess {
        AppendAtKeys(Track(d, init, t, gpu), p.pid, LogEntry(t, Reading(p, gpu)));
      }
      assert procs == init + [p];
      forall pid ensures Monitors(procs, pid) <==>
          Monitors(init, pid) || (p.name == MonitoredProcess && p.pid == pid) {
        if Monitors(procs, pid) {
          var q :| q in procs && q.name == MonitoredProcess && q.pid == pid;
          if q != p { assert q in init; }
        }
      }
    }
  }

  /** The RAM and GPU-memory dicts gain the same keys in the same order. */
  lemma {:induction false} TrackLockStep(d1: PidSeries, d2: PidSeries, procs: seq<Proc>, t: real)
    requires Keys(d1) == Keys(d2)
    ensures Keys(Track(d1, procs, t, false)) == Keys(Track(d2, procs, t, true))
    decreases |procs|
  {
    if procs != [] {
      var init := procs[..|procs| - 1];
      var p := procs[|procs| - 1];
      TrackLockStep(d1, d2, init, t);
      if p.name == MonitoredProcess {
        AppendAtKeys(Track(d1, init, t, false), p.pid, LogEntry(t, Reading(p, false)));
        AppendAtKeys(Track(d2, init, t, true), p.pid, LogEntry(t, Reading(p, true)));
      }
    }
  }

  class Log {
    var timeLogStart: real
    var timeLogEnd: real
    var timestamps: seq<Marker>
    /** `None` while the attribute does not exist. */
    var freqGpu: Option<seq<Sample>>
    var memoryRam: PidSeries
    var memoryGpu: PidSeries
    var power: seq<Sample>
    /** `None` until `log_accuracy` assigns it. */
    var accuracy: Option<real>
    /** Whether the `_jtop` attribute (the monitor handle) exists. */
    var sampling: bool

    ghost predicate Valid()
      reads this
    {
      && DistinctKeys(memoryRam)
      && Keys(memoryRam) == Keys(memoryGpu)
      && (timeLogStart == Unset ==> timestamps == [])
    }

    predicate Idle() reads this { timeLogStart == Unset }
    predicate Recording() reads this { timeLogStart != Unset && timeLogEnd == Unset }
    predicate Finalized() reads this { timeLogStart != Unset && timeLogEnd != Unset }

    /** Marker times never decrease and none is negative. */
    ghost predicate MarkersOrdered()
      reads this
    {
      && (forall i :: 0 <= i < |timestamps| ==> 0.0 <= timestamps[i].time)
      && (forall i, j :: 0 <= i < j < |timestamps| ==> timestamps[i].time <= timestamps[j].time)
    }

    /** `Log()` as written: `freq_gpu` is declared but never assigned. */
    constructor ()
      ensures Valid() && Idle() && timeLogEnd == Unset
      ensures timestamps == [] && power == [] && memoryRam == [] && memoryGpu == []
      ensures freqGpu == None && accuracy == None && !sampling
    {
      timeLogStart, timeLogEnd := Unset, Unset;
      timestamps := [];
      memoryRam, memoryGpu := [], [];
      power := [];
      freqGpu := None;
      accuracy := None;
      sampling := false;
    }

    /** `Log()` with `freq_gpu` initialised to an empty list, as the callback needs. */
    constructor Initialised()
      ensures Valid() && Idle() && timeLogEnd == Unset
      ensures timestamps == [] && power == [] && memoryRam == [] && memoryGpu == []
      ensures freqGpu == Some([]) && accuracy == None && !sampling
    {
      timeLogStart, timeLogEnd := Unset, Unset;
      timestamps := [];
      memoryRam, memoryGpu := [], [];
      power := [];
      freqGpu := Some([]);
      accuracy := None;
      sampling := false;
    }

    /** `_t`: seconds since the log began, for the clock reading `now`. */
    function Elapsed(now: real): real
      reads this`timeLogStart
    {
      now - timeLogStart
    }

    /** `add_timestamp(info)` with the clock reading `now`. */
    method AddTimestamp(now: real, info: string) returns (r: Outcome<LogError>)
      requires Valid()
      modifies this`timestamps
      ensures Valid()
      ensures old(Idle()) ==> r == Fail(TimestampBeforeStart) && timestamps == old(timestamps)
      ensures !old(Idle()) ==> r == Pass && timestamps == old(timestamps) + [LogEntry(now - timeLogStart, info)]
      ensures old(MarkersOrdered()) && timeLogStart <= now
              && (forall e :: e in old(timestamps) ==> e.time <= now - timeLogStart)
              ==> MarkersOrdered()
    {
      if timeLogStart == Unset {
        return Fail(TimestampBeforeStart);
      }
      timestamps := timestamps + [LogEntry(Elapsed(now), info)];
      r := Pass;
      assert forall i :: 0 <= i < |old(timestamps)| ==> timestamps[i] == old(timestamps)[i];
      assert forall i :: 0 <= i < |old(timestamps)| ==> old(timestamps)[i] in old(timestamps);
    }

    /** `log_accuracy(acc)`: the last value stored wins. */
    method LogAccuracy(acc: real)
      modifies this`accuracy
      ensures accuracy == Some(acc)
    {
      accuracy := Some(acc);
    }

    /** `_log_cb`: one callback of the hardware monitor, taking the clock reading `now`. */
    method LogCallback(now: real, snap: Snapshot) returns (r: Outcome<LogError>)
      requires Valid()
      modifies this`power, this`freqGpu, this`memoryRam, this`memoryGpu
      ensures Valid()
      ensures power == old(power) + [LogEntry(Elapsed(now), snap.totalPowerMw / 1000.0)]
      ensures old(freqGpu).None? ==>
        && r == Fail(MissingAttribute("freq_gpu"))
        && freqGpu == None && memoryRam == old(memoryRam) && memoryGpu == old(memoryGpu)
      ensures old(freqGpu).Some? ==>
        && r == Pass
        && freqGpu == Some(old(freqGpu).value + [LogEntry(Elapsed(now), snap.gpuFreqKhz / 1000.0)])
        && memoryRam == Track(old(memoryRam), snap.processes, Elapsed(now), false)
        && memoryGpu == Track(old(memoryGpu), snap.processes, Elapsed(now), true)
    {
      var t := Elapsed(now);
      power := power + [LogEntry(t, snap.totalPowerMw / 1000.0)];
      if freqGpu.None? {
        return Fail(MissingAttribute("freq_gpu"));
      }
      freqGpu := Some(freqGpu.value + [LogEntry(t, snap.gpuFreqKhz / 1000.0)]);
      var ram := memoryRam;
      var gpu := memoryGpu;
      var i := 0;
      label BeforeLoop:
      while i < |snap.processes|
        invariant 0 <= i <= |snap.processes|
        invariant ram == Track(old(memoryRam), snap.processes[..i], t, false)
        invariant gpu == Track(old(memoryGpu), snap.processes[..i], t, true)
        invariant DistinctKeys(ram) && Keys(ram) == Keys(gpu)
        invariant unchanged@BeforeLoop(this)
      {
        var proc := snap.processes[i];
        assert snap.processes[..i + 1][..i] == snap.processes[..i];
        if proc.name == MonitoredProcess {
          AppendAtKeys(ram, proc.pid, LogEntry(t, proc.ram));
          AppendAtKeys(gpu, proc.pid, LogEntry(t, proc.gpuMemory));
          ram := AppendAt(ram, proc.pid, LogEntry(t, proc.ram));
          gpu := AppendAt(gpu, proc.pid, LogEntry(t, proc.gpuMemory));
        }
        i := i + 1;
      }
      assert snap.processes[..i] == snap.processes;
      memoryRam := ram;
      memoryGpu := gpu;
      r := Pass;
    }

    /** `begin()`: `clockStart` is stored as the start time and `clockMarker` is
        the reading taken when the `Log started` marker is added. */
    method Begin(clockStart: real, clockMarker: real) returns (r: Outcome<LogError>)
      requires Valid()
      modifies this`sampling, this`timeLogStart, this`timestamps
      ensures Valid()
      ensures !old(Idle()) ==> r == Fail(AlreadyStarted) && unchanged(this)
      ensures old(Idle()) ==> sampling && timeLogStart == clockStart
      ensures old(Idle()) && clockStart != Unset ==>
        r == Pass && timestamps == [LogEntry(clockMarker - clockStart, LogStarted)]
      ensures old(Idle()) && clockStart == Unset ==> r == Fail(TimestampBeforeStart) && timestamps == []
    {
      if timeLogStart != Unset {
        return Fail(AlreadyStarted);
      }
      sampling := true;
      timeLogStart := clockStart;
      r := AddTimestamp(clockMarker, LogStarted);
    }

    /** `end()`: `clockMarker` is the reading for the `Log finished` marker and
        `clockEnd` the one stored as the end time. */
    method End(clockMarker: real, clockEnd: real) returns (r: Outcome<LogError>)
      requires Valid()
      modifies this`sampling, this`timestamps, this`timeLogEnd
      ensures Valid()
      ensures old(Idle()) ==> r == Fail(EndBeforeStart) && unchanged(this)
      ensures old(Finalized()) ==> r == Fail(AlreadyEnded) && unchanged(this)
      ensures old(Recording()) && !old(sampling) ==> r == Fail(MissingAttribute("_jtop")) && unchanged(this)
      ensures old(Recording()) && old(sampling) ==>
        && r == Pass && !sampling && timeLogEnd == clockEnd
        && timestamps == old(timestamps) + [LogEntry(clockMarker - timeLogStart, LogFinished)]
      ensures !old(sampling) ==> r.Fail?
    {
      if timeLogStart == Unset {
        return Fail(EndBeforeStart);
      }
      if timeLogEnd != Unset {
        return Fail(AlreadyEnded);
      }
      if !sampling {
        return Fail(MissingAttribute("_jtop"));
      }
      var added := AddTimestamp(clockMarker, LogFinished);
      timeLogEnd := clockEnd;
      sampling := false;
      r := Pass;
    }
  }

  /** `run_blocking` as written: a fresh `Log()` is begun, receives the monitor
      callbacks `pushes` (clock reading and snapshot) that arrive while the caller
      sleeps, and is ended. Each callback raises on the missing `freq_gpu` in the
      sampler's thread, after its power sample; the error does not reach the caller,
      and `failedCallbacks` counts it. */
  method RunBlocking(clockStart: real, clockMarker: real, pushes: seq<(real, Snapshot)>,
                     clockFinish: real, clockEnd: real)
    returns (log: Log, r: Outcome<LogError>, failedCallbacks: nat)
    ensures fresh(log) && log.Valid()
    ensures clockStart == Unset ==> r == Fail(TimestampBeforeStart) && failedCallbacks == 0
    ensures clockStart != Unset ==>
      && r == Pass && log.Finalized() == (clockEnd != Unset) && !log.sampling
      && log.timeLogStart == clockStart && log.timeLogEnd == clockEnd
      && log.timestamps == [LogEntry(clockMarker - clockStart, LogStarted),
                            LogEntry(clockFinish - clockStart, LogFinished)]
      && |log.power| == |pushes|
      && (forall k :: 0 <= k < |pushes| ==>
            log.power[k] == LogEntry(pushes[k].0 - clockStart, pushes[k].1.totalPowerMw / 1000.0))
      && log.freqGpu.None? && log.memoryRam == [] && log.memoryGpu == []
      && failedCallbacks == |pushes|
  {
    log := new Log();
    failedCallbacks := 0;
    r := log.Begin(clockStart, clockMarker);
    if r.Fail? {
      return;
    }
    var k := 0;
    while k < |pushes|
      invariant 0 <= k <= |pushes| && failedCallbacks == k
      invariant log.Valid() && log.Recording() && log.sampling && log.timeLogStart == clockStart
      invariant log.timestamps == [LogEntry(clockMarker - clockStart, LogStarted)]
      invariant log.freqGpu.None? && log.memoryRam == [] && log.memoryGpu == []
      invariant |log.power| == k
      invariant forall j :: 0 <= j < k ==>
        log.power[j] == LogEntry(pushes[j].0 - clockStart, pushes[j].1.totalPowerMw / 1000.0)
    {
      var pushed := log.LogCallback(pushes[k].0, pushes[k].1);
      if pushed.Fail? {
        failedCallbacks := failedCallbacks + 1;
      }
      k := k + 1;
    }
    r := log.End(clockFinish, clockEnd);
  }

  /** `run_blocking` on the corrected `Log.Initialised`: every callback also records
      its GPU frequency. */
  method RunBlockingInitialised(clockStart: real, clockMarker: real, pushes: seq<(real, Snapshot)>,
                                clockFinish: real, clockEnd: real)
    returns (log: Log, r: Outcome<LogError>)
    ensures fresh(log) && log.Valid()
    ensures clockStart == Unset ==> r == Fail(TimestampBeforeStart)
    ensures clockStart != Unset ==>
      && r == Pass && log.Finalized() == (clockEnd != Unset) && !log.sampling
      && log.timeLogStart == clockStart && log.timeLogEnd == clockEnd
      && log.timestamps == [LogEntry(clockMarker - clockStart, LogStarted),
                            LogEntry(clockFinish - clockStart, LogFinished)]
      && |log.power| == |pushes|
      && log.freqGpu.Some? && |log.freqGpu.value| == |pushes|
      && (forall k :: 0 <= k < |pushes| ==>
            && log.power[k] == LogEntry(pushes[k].0 - clockStart, pushes[k].1.totalPowerMw / 1000.0)
            && log.freqGpu.value[k] == LogEntry(pushes[k].0 - clockStart, pushes[k].1.gpuFreqKhz / 1000.0))
  {
    log := new Log.Initialised();
    r := log.Begin(clockStart, clockMarker);
    if r.Fail? {
      return;
    }
    var k := 0;
    while k < |pushes|
      invariant 0 <= k <= |pushes|
      invariant log.Valid() && log.Recording() && log.sampling && log.timeLogStart == clockStart
      invariant log.timestamps == [LogEntry(clockMarker - clockStart, LogStarted)]
      invariant |log.power| == k && log.freqGpu.Some? && |log.freqGpu.value| == k
      invariant forall j :: 0 <= j < k ==>
        && log.power[j] == LogEntry(pushes[j].0 - clockStart, pushes[j].1.totalPowerMw / 1000.0)
        && log.freqGpu.value[j] == LogEntry(pushes[j].0 - clockStart, pushes[j].1.gpuFreqKhz / 1000.0)
    {
      var pushed := log.LogCallback(pushes[k].0, pushes[k].1);
      k := k + 1;
    }
    r := log.End(clockFinish, clockEnd);
  }

  /** On the log as written, the first callback fails on the missing `freq_gpu`
      after having recorded the power sample, and records no memory. */
  method CallbackWithoutFreqGpu(clockStart: real, clockMarker: real, now: real, snap: Snapshot)
    returns (r: Outcome<LogError>, powerSamples: nat, memoryKeys: nat)
    requires clockStart != Unset
    ensures r == Fail(MissingAttribute("freq_gpu"))
    ensures powerSamples == 1 && memoryKeys == 0
  {
    var log := new Log();
    var begun := log.Begin(clockStart, clockMarker);
    r := log.LogCallback(now, snap);
    powerSamples := |log.power|;
    memoryKeys := |log.memoryRam|;
  }
}
