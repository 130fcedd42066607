/**
 * analysis/report_use_cases.py (whose helpers the other report scripts copy):
 * finding a phase's times from its markers, parsing a log's path into its
 * configuration tags, and picking the best configuration for each use case.
 */
module UseCases {
  import opened Wrappers
  import opened Text
  import opened Sorting
  import opened Statlog
  import Loader

  /** The failures that stop the report. */
  datatype ReportError =
    | NoStartTime           // `assert start >= 0`
    | NoEndTime             // `assert end >= 0`
    | MissingFragment       // a `pop` on a name with too few fragments: IndexError
    | BadIteration(s: string) // `int(...)` on a fragment that is not an integer: ValueError

  // ---- get_times_between_stamps ----

  /** A marker that sets `start`: it contains the prefix and "START". */
  predicate IsStartMarker(v: string, prefix: string) {
    Contains(v, prefix) && Contains(v, "START")
  }

  /** A marker that sets `end`: it contains the prefix and "END" but not "START". */
  predicate IsEndMarker(v: string, prefix: string) {
    Contains(v, prefix) && !Contains(v, "START") && Contains(v, "END")
  }

  /** The time of the last marker accepted by `accept`, `-1` without one. */
  function LastTime(markers: seq<Marker>, accept: string -> bool): (t: real)
    ensures (forall k :: 0 <= k < |markers| ==> !accept(markers[k].value)) ==> t == -1.0
    ensures (exists k :: 0 <= k < |markers| && accept(markers[k].value)) ==>
      exists k :: 0 <= k < |markers| && accept(markers[k].value) && t == markers[k].time
        && forall j :: k < j < |markers| ==> !accept(markers[j].value)
    decreases |markers|
  {
    if markers == [] then -1.0
    else
      var last := markers[|markers| - 1];
      var init := markers[..|markers| - 1];
      if accept(last.value) then last.time
      else
        var t := LastTime(init, accept);
        assert forall k :: 0 <= k < |init| ==> init[k] == markers[k];
        t
  }

  /** The times `get_times_between_stamps` returns: the last START-marker time and the last
      END-marker time, each of which must be non-negative. */
  function TimesBetween(markers: seq<Marker>, prefix: string): (r: Result<(real, real), ReportError>)
    ensures (forall k :: 0 <= k < |markers| ==> !IsStartMarker(markers[k].value, prefix)) ==> r == Err(NoStartTime)
    ensures r.Ok? ==> 0.0 <= r.value.0 && 0.0 <= r.value.1
    ensures r.Ok? ==> exists k :: && 0 <= k < |markers| && IsStartMarker(markers[k].value, prefix)
                                  && markers[k].time == r.value.0
    ensures r.Ok? ==> exists k :: && 0 <= k < |markers| && IsEndMarker(markers[k].value, prefix)
                                  && markers[k].time == r.value.1
  {
    var start := LastTime(markers, v => IsStartMarker(v, prefix));
    var end := LastTime(markers, v => IsEndMarker(v, prefix));
    if start < 0.0 then Err(NoStartTime)
    else if end < 0.0 then Err(NoEndTime)
    else Ok((start, end))
  }

  /** `get_times_between_stamps`: one pass keeping the last match of each kind. */
  method GetTimesBetweenStamps(markers: seq<Marker>, prefix: string) returns (r: Result<(real, real), ReportError>)
    ensures r == TimesBetween(markers, prefix)
  {
    var start := -1.0;
    var end := -1.0;
    var k := 0;
    while k < |markers|
      invariant 0 <= k <= |markers|
      invariant start == LastTime(markers[..k], v => IsStartMarker(v, prefix))
      invariant end == LastTime(markers[..k], v => IsEndMarker(v, prefix))
    {
      assert markers[..k + 1][..k] == markers[..k];
      var t := markers[k].time;
      var v := markers[k].value;
      if Contains(v, prefix) {
        if Contains(v, "START") {
          start := t;
        } else if Contains(v, "END") {
          end := t;
        }
      }
      k := k + 1;
    }
    assert markers[..k] == markers;
    if start < 0.0 {
      return Err(NoStartTime);
    }
    if end < 0.0 {
      return Err(NoEndTime);
    }
    r := Ok((start, end));
  }

  /** The `_END` marker of a phase whose name does not mention "START" is not a start marker. */
  lemma EndMarkerHasNoStart(p: string)
    requires !Contains(p, "START")
    ensures !Contains(p + "_END", "START")
  {
    var e := p + "_END";
    forall i | 0 <= i <= |e| - 5 ensures !OccursAt(e, "START", i) {
      if OccursAt(e, "START", i) {
        assert e[i + 4] == "START"[4] == 'T';
        if i + 4 < |p| {
          assert e[i..i + 5] == p[i..i + 5];
          assert OccursAt(p, "START", i);
        }
      }
    }
  }

  /** A phase recorded once, at non-negative times and after markers that do not name
      it, yields exactly those two times. */
  lemma TimesOfRecordedPhase(before: seq<Marker>, p: string, t0: real, t1: real)
    requires t0 >= 0.0 && t1 >= 0.0
    requires !Contains(p, "START")
    requires forall k :: 0 <= k < |before| ==> !Contains(before[k].value, p)
    ensures TimesBetween(before + [LogEntry(t0, p + "_START"), LogEntry(t1, p + "_END")], p) == Ok((t0, t1))
  {
    var m := before + [LogEntry(t0, p + "_START"), LogEntry(t1, p + "_END")];
    var s := p + "_START";
    var e := p + "_END";
    assert OccursAt(s, p, 0) && OccursAt(e, p, 0);
    assert OccursAt(s, "START", |p| + 1) by { assert s[|p| + 1..|p| + 6] == "START"; }
    assert OccursAt(e, "END", |p| + 1) by { assert e[|p| + 1..|p| + 4] == "END"; }
    EndMarkerHasNoStart(p);
    var m1 := m[..|m| - 1];
    assert m1 == before + [LogEntry(t0, s)];
    assert m1[..|m1| - 1] == before;
    assert LastTime(m, v => IsEndMarker(v, p)) == t1;
    assert LastTime(m1, v => IsStartMarker(v, p)) == t0;
    assert !IsStartMarker(e, p);
  }

  /** `is_within_times`: `t` lies in one of two closed intervals. */
  predicate IsWithinTimes(t: real, t1s: real, t1e: real, t2s: real, t2e: real) {
    (t1s <= t <= t1e) || (t2s <= t <= t2e)
  }

  /** `[x['value'] for x in series if is_within_times(x['time'], ...)]` */
  function ValuesWithin(series: seq<Sample>, t1s: real, t1e: real, t2s: real, t2e: real): (r: seq<real>)
    ensures |r| <= |series|
    decreases |series|
  {
    if series == [] then []
    else
      var e := series[|series| - 1];
      ValuesWithin(series[..|series| - 1], t1s, t1e, t2s, t2e)
        + (if IsWithinTimes(e.time, t1s, t1e, t2s, t2e) then [e.value] else [])
  }

  /** The memory values of an iteration are exactly those sampled during loading or generation. */
  lemma {:induction false} ValuesWithinMembers(series: seq<Sample>, t1s: real, t1e: real, t2s: real, t2e: real, v: real)
    ensures v in ValuesWithin(series, t1s, t1e, t2s, t2e) <==>
      exists k :: 0 <= k < |series| && series[k].value == v
        && ((t1s <= series[k].time <= t1e) || (t2s <= series[k].time <= t2e))
    decreases |series|
  {
    if series != [] {
      var init := series[..|series| - 1];
      ValuesWithinMembers(init, t1s, t1e, t2s, t2e, v);
      if exists k :: (0 <= k < |series| && series[k].value == v
        && ((t1s <= series[k].time <= t1e) || (t2s <= series[k].time <= t2e))) {
        var k :| 0 <= k < |series| && series[k].value == v
          && ((t1s <= series[k].time <= t1e) || (t2s <= series[k].time <= t2e));
        if k < |init| { assert init[k] == series[k]; }
      }
      if exists k :: (0 <= k < |init| && init[k].value == v
        && ((t1s <= init[k].time <= t1e) || (t2s <= init[k].time <= t2e))) {
        var k :| 0 <= k < |init| && init[k].value == v
          && ((t1s <= init[k].time <= t1e) || (t2s <= init[k].time <= t2e));
        assert series[k] == init[k];
      }
    }
  }

  // ---- file name to tags ----

  /** A tag is a name fragment, the iteration number or the path. */
  datatype Tag = TStr(s: string) | TInt(i: int)

  /** `os.path.basename(path)`: everything after the last '/'. */
  function Basename(path: string): (r: string)
    ensures '/' !in r
    ensures EndsWith(path, r)
    decreases |path|
  {
    if path == [] then []
    else if path[|path| - 1] == '/' then []
    else
      var r := Basename(path[..|path| - 1]) + [path[|path| - 1]];
      assert path[..|path| - 1] + [path[|path| - 1]] == path;
      r
  }

  lemma {:induction false} BasenameOfName(dir: string, name: string)
    requires '/' !in name
    ensures Basename(dir + "/" + name) == name
    decreases |name|
  {
    var path := dir + "/" + name;
    if name == [] {
      assert path[|path| - 1] == '/';
    } else {
      assert path[|path| - 1] == name[|name| - 1];
      assert path[..|path| - 1] == dir + "/" + name[..|name| - 1];
      BasenameOfName(dir, name[..|name| - 1]);
      assert name[..|name| - 1] + [name[|name| - 1]] == name;
    }
  }

  function Strs(fs: seq<string>): (r: seq<Tag>)
    ensures |r| == |fs| && forall i :: 0 <= i < |fs| ==> r[i] == TStr(fs[i])
  {
    seq(|fs|, i requires 0 <= i < |fs| => TStr(fs[i]))
  }

  /** The configuration tags of a log: device, power mode, model, iteration, the
      other fragments, then the path. */
  function FileTags(path: string): (r: Result<(int, seq<Tag>), ReportError>)
    ensures r.Ok? ==> |r.value.1| >= 5 && r.value.1[3] == TInt(r.value.0) && r.value.1[|r.value.1| - 1] == TStr(path)
  {
    var f := Loader.NameFragments(Basename(path));
    if |f| < 4 then Err(MissingFragment)
    else match ParseInt(f[1])
      case None => Err(BadIteration(f[1]))
      case Some(i) => Ok((i, [TStr(f[|f| - 2]), TStr(f[|f| - 1]), TStr(f[0]), TInt(i)] + Strs(f[2..|f| - 2]) + [TStr(path)]))
  }

  /** The pops of the path loop, in the order the script makes them. */
  method ParseFileTags(path: string) returns (r: Result<(int, seq<Tag>), ReportError>)
    ensures r == FileTags(path)
  {
    var data := Loader.NameFragments(Basename(path));
    ghost var f := data;
    if |data| < 2 {
      return Err(MissingFragment);
    }
    var tags: seq<Tag> := [];
    tags := tags + [TStr(data[|data| - 2])];
    data := data[..|data| - 2] + data[|data| - 1..];
    assert |data| == |f| - 1 && data[|data| - 1] == f[|f| - 1] && data[..|data| - 1] == f[..|f| - 2];
    tags := tags + [TStr(data[|data| - 1])];
    data := data[..|data| - 1];
    assert data == f[..|f| - 2];
    if |data| < 1 {
      return Err(MissingFragment);
    }
    tags := tags + [TStr(data[0])];
    data := data[1..];
    assert data == f[1..|f| - 2];
    if |data| < 1 {
      return Err(MissingFragment);
    }
    var iterText := data[0];
    data := data[1..];
    assert iterText == f[1] && data == f[2..|f| - 2];
    assert tags == [TStr(f[|f| - 2]), TStr(f[|f| - 1]), TStr(f[0])];
    match ParseInt(iterText) {
      case None =>
        return Err(BadIteration(iterText));
      case Some(iters) =>
        tags := tags + [TInt(iters)];
        assert tags == [TStr(f[|f| - 2]), TStr(f[|f| - 1]), TStr(f[0]), TInt(iters)];
        tags := tags + Strs(data) + [TStr(path)];
        r := Ok((iters, tags));
    }
  }

  /** The fragments of a conventional name hold no separator and no '/'. */
  lemma ConventionFragments(model: string, i: int, extras: seq<string>, device: string, pm: string)
    requires forall s :: s in [model, device, pm] + extras ==> '_' !in s && '/' !in s
    ensures var frags := [model, IntToDecimal(i)] + extras + [device, pm];
      forall j :: 0 <= j < |frags| ==> '_' !in frags[j] && '/' !in frags[j]
  {
    var frags := [model, IntToDecimal(i)] + extras + [device, pm];
    var d := IntToDecimal(i);
    assert '_' !in d && '/' !in d by {
      var digits := if i < 0 then NatToDecimal(-i) else NatToDecimal(i);
      assert AllDigits(digits);
      forall j | 0 <= j < |d| ensures d[j] != '_' && d[j] != '/' {
        if i < 0 && j >= 1 {
          assert d[j] == digits[j - 1];
        } else if i >= 0 {
          assert d[j] == digits[j];
        }
      }
    }
    forall j | 0 <= j < |frags| ensures '_' !in frags[j] && '/' !in frags[j] {
      if j != 1 {
        if 2 <= j < 2 + |extras| {
          assert frags[j] == extras[j - 2];
        }
        assert frags[j] in [model, device, pm] + extras;
      }
    }
  }

  /** The fragments of a conventional path are recovered from it. */
  lemma FragmentsOfPath(dir: string, frags: seq<string>)
    requires |frags| >= 1
    requires forall j :: 0 <= j < |frags| ==> '_' !in frags[j] && '/' !in frags[j]
    ensures Loader.NameFragments(Basename(dir + "/" + "log_" + Join(frags, '_') + ".json")) == frags
  {
    var name := "log_" + Join(frags, '_') + ".json";
    NoSlashInJoin(frags);
    assert '/' !in name;
    BasenameOfName(dir, name);
    assert dir + "/" + name == dir + "/" + "log_" + Join(frags, '_') + ".json";
    Loader.NameFragmentsOfLogName(frags);
  }

  /** A path following `log_<model>_<iteration>_<extras...>_<device>_<pm>.json` gives its tags back. */
  lemma FileTagsOfConvention(dir: string, model: string, i: int, extras: seq<string>, device: string, pm: string)
    requires forall s :: s in [model, device, pm] + extras ==> '_' !in s && '/' !in s
    ensures var frags := [model, IntToDecimal(i)] + extras + [device, pm];
      var path := dir + "/" + "log_" + Join(frags, '_') + ".json";
      FileTags(path) == Ok((i, [TStr(device), TStr(pm), TStr(model), TInt(i)] + Strs(extras) + [TStr(path)]))
  {
    var frags := [model, IntToDecimal(i)] + extras + [device, pm];
    var path := dir + "/" + "log_" + Join(frags, '_') + ".json";
    ConventionFragments(model, i, extras, device, pm);
    FragmentsOfPath(dir, frags);
    ParseIntToDecimal(i);
    assert frags[1] == IntToDecimal(i);
    assert frags[2..|frags| - 2] == extras;
    assert frags[|frags| - 2] == device && frags[|frags| - 1] == pm && frags[0] == model;
  }

  lemma {:induction false} NoSlashInJoin(parts: seq<string>)
    requires forall j :: 0 <= j < |parts| ==> '/' !in parts[j]
    ensures '/' !in Join(parts, '_')
    decreases |parts|
  {
    if |parts| > 1 {
      NoSlashInJoin(parts[1..]);
    }
  }

  // ---- the path loop ----

  /** `existing` and `max_iterations` after the path loop, or the failure that stops it. */
  function Scan(paths: seq<string>): Result<(seq<seq<Tag>>, int), ReportError>
    decreases |paths|
  {
    if paths == [] then Ok(([], 0))
    else match Scan(paths[..|paths| - 1])
      case Err(e) => Err(e)
      case Ok(acc) =>
        match FileTags(paths[|paths| - 1])
        case Err(e) => Err(e)
        case Ok(parsed) => Ok((acc.0 + [parsed.1], if parsed.0 > acc.1 then parsed.0 else acc.1))
  }

  /** `max_iterations` is 0 or some iteration, and no iteration exceeds it. */
  lemma {:induction false} ScanMax(paths: seq<string>)
    requires Scan(paths).Ok?
    ensures var (existing, maxIterations) := Scan(paths).value;
      && |existing| == |paths|
      && maxIterations >= 0
      && (forall k :: 0 <= k < |existing| ==> |existing[k]| >= 5 && existing[k][3].TInt? && existing[k][3].i <= maxIterations)
      && (maxIterations == 0 || exists k :: 0 <= k < |existing| && |existing[k]| >= 5 && existing[k][3] == TInt(maxIterations))
    decreases |paths|
  {
    if paths != [] {
      ScanMax(paths[..|paths| - 1]);
      var (ex, mx) := Scan(paths[..|paths| - 1]).value;
      var parsed := FileTags(paths[|paths| - 1]).value;
      var ex' := ex + [parsed.1];
      assert forall k :: 0 <= k < |ex| ==> ex'[k] == ex[k];
      assert ex'[|ex|] == parsed.1;
      if parsed.0 <= mx && mx != 0 {
        var k :| 0 <= k < |ex| && |ex[k]| >= 5 && ex[k][3] == TInt(mx);
        assert ex'[k] == ex[k];
      }
    }
  }

  lemma ScanSnoc(paths: seq<string>, k: nat)
    requires k < |paths|
    ensures Scan(paths[..k + 1]) ==
      match Scan(paths[..k])
      case Err(e) => Err(e)
      case Ok(acc) =>
        (match FileTags(paths[k])
         case Err(e) => Err(e)
         case Ok(parsed) => Ok((acc.0 + [parsed.1], if parsed.0 > acc.1 then parsed.0 else acc.1)))
  {
    assert paths[..k + 1][..k] == paths[..k];
  }

  lemma {:induction false} ScanAbort(paths: seq<string>, k: nat)
    requires k <= |paths| && Scan(paths[..k]).Err?
    ensures Scan(paths) == Scan(paths[..k])
    decreases |paths| - k
  {
    if k < |paths| {
      ScanSnoc(paths, k);
      ScanAbort(paths, k + 1);
    } else {
      assert paths[..k] == paths;
    }
  }

  /** The path loop (lines 75-88). */
  method ScanPaths(paths: seq<string>) returns (r: Result<(seq<seq<Tag>>, int), ReportError>)
    ensures r == Scan(paths)
  {
    var existing: seq<seq<Tag>> := [];
    var maxIterations := 0;
    var k := 0;
    while k < |paths|
      invariant 0 <= k <= |paths|
      invariant Scan(paths[..k]) == Ok((existing, maxIterations))
    {
      ScanSnoc(paths, k);
      var parsed := ParseFileTags(paths[k]);
      if parsed.Err? {
        ScanAbort(paths, k + 1);
        return Err(parsed.error);
      }
      var iters := parsed.value.0;
      var tags := parsed.value.1;
      maxIterations := if iters > maxIterations then iters else maxIterations;
      existing := existing + [tags];
      assert Scan(paths[..k + 1]) == Ok((existing, maxIterations));
      k := k + 1;
    }
    assert paths[..k] == paths;
    r := Ok((existing, maxIterations));
  }

  // ---- use cases ----

  /** One configuration's row of `results`. */
  datatype Summary = Summary(conf: string, lat: real, mem: real, pwr: real, enr: real, acc: real)

  datatype UseCase =
    | FastAccurate    // use case 1: power and latency limits, highest accuracy
    | FrugalFast      // use case 2: energy and memory limits, lowest latency
    | AccurateFast    // use case 3: accuracy floor and memory limit, lowest latency

  /** The filter of each use case for one pair of limits. */
  predicate Qualifies(uc: UseCase, x: Summary, a: real, b: real) {
    match uc
    case FastAccurate => x.pwr <= a && x.lat <= b
    case FrugalFast => x.enr <= a && x.mem <= b
    case AccurateFast => x.acc >= a && x.mem <= b
  }

  /** The sort key of each use case: smaller is better. */
  function Rank(uc: UseCase, x: Summary): real {
    match uc
    case FastAccurate => -x.acc
    case _ => x.lat
  }

  function RankKey(uc: UseCase): Summary -> real {
    x => Rank(uc, x)
  }

  function Candidates(results: seq<Summary>, uc: UseCase, a: real, b: real): (r: seq<Summary>)
    ensures |r| <= |results|
    ensures forall x :: x in r <==> x in results && Qualifies(uc, x, a, b)
    decreases |results|
  {
    if results == [] then []
    else
      var last := results[|results| - 1];
      assert results == results[..|results| - 1] + [last];
      Candidates(results[..|results| - 1], uc, a, b) + (if Qualifies(uc, last, a, b) then [last] else [])
  }

  /** Filter, sort by the use case's key, take the head if there is one. */
  function Select(results: seq<Summary>, uc: UseCase, a: real, b: real): Option<Summary> {
    var c := Candidates(results, uc, a, b);
    if |c| > 0 then Some(SortWith(c, KeyLess(RankKey(uc)))[0]) else None
  }

  /** A use case picks nothing exactly when no configuration meets its limits. */
  lemma SelectNone(results: seq<Summary>, uc: UseCase, a: real, b: real)
    ensures Select(results, uc, a, b).None? <==> forall x :: x in results ==> !Qualifies(uc, x, a, b)
  {
    var c := Candidates(results, uc, a, b);
    if |c| > 0 {
      assert c[0] in c;
    }
  }

  /** A pick is a configuration that meets the limits. */
  lemma SelectQualifies(results: seq<Summary>, uc: UseCase, a: real, b: real)
    requires Select(results, uc, a, b).Some?
    ensures Select(results, uc, a, b).value in results
    ensures Qualifies(uc, Select(results, uc, a, b).value, a, b)
  {
    var c := Candidates(results, uc, a, b);
    SelectBest(results, uc, a, b);
    assert c[FirstMin(c, RankKey(uc))] in c;
  }

  /** A pick ranks at least as well as every configuration that meets the limits
      (highest accuracy for use case 1, lowest latency for 2 and 3). */
  lemma SelectRanksBest(results: seq<Summary>, uc: UseCase, a: real, b: real, y: Summary)
    requires Select(results, uc, a, b).Some?
    requires y in results && Qualifies(uc, y, a, b)
    ensures Rank(uc, Select(results, uc, a, b).value) <= Rank(uc, y)
  {
    var c := Candidates(results, uc, a, b);
    SelectBest(results, uc, a, b);
    var key := RankKey(uc);
    assert y in c;
    var j :| 0 <= j < |c| && c[j] == y;
    assert key(c[FirstMin(c, key)]) <= key(c[j]);
  }

  /** Among equally ranked picks, the first in the filtered order wins. */
  lemma SelectFirstOfBest(results: seq<Summary>, uc: UseCase, a: real, b: real)
    requires Select(results, uc, a, b).Some?
    ensures var c := Candidates(results, uc, a, b);
      exists k :: (0 <= k < |c| && c[k] == Select(results, uc, a, b).value
        && forall j :: 0 <= j < k ==> Rank(uc, c[k]) < Rank(uc, c[j]))
  {
    var c := Candidates(results, uc, a, b);
    SelectBest(results, uc, a, b);
    var key := RankKey(uc);
    var k := FirstMin(c, key);
    assert forall j :: 0 <= j < k ==> key(c[k]) < key(c[j]);
  }

  lemma SelectBest(results: seq<Summary>, uc: UseCase, a: real, b: real)
    requires |Candidates(results, uc, a, b)| > 0
    ensures Select(results, uc, a, b) == Some(Candidates(results, uc, a, b)[FirstMin(Candidates(results, uc, a, b), RankKey(uc))])
  {
    SortByKeyHead(Candidates(results, uc, a, b), RankKey(uc));
  }

  /** The limits of the three use cases, paired as the script zips them. */
  const UseCase1Limits: seq<(real, real)> := [(45.0, 40.0), (30.0, 30.0), (15.0, 20.0)]
  const UseCase2Limits: seq<(real, real)> := [(240.0, 1400.0), (240.0, 700.0), (120.0, 700.0)]
  const UseCase3Limits: seq<(real, real)> := [(36.0, 800.0), (42.0, 1200.0), (48.0, 2000.0)]

  /** The configuration a pair of limits contributes: the pick's, if there is one. */
  function Picked(results: seq<Summary>, uc: UseCase, a: real, b: real): (r: seq<string>)
    ensures |r| <= 1
  {
    match Select(results, uc, a, b)
    case Some(x) => [x.conf]
    case None => []
  }

  lemma PickedQualifies(results: seq<Summary>, uc: UseCase, a: real, b: real)
    ensures forall c :: c in Picked(results, uc, a, b) ==>
      exists x :: x in results && Qualifies(uc, x, a, b) && x.conf == c
  {
    if Select(results, uc, a, b).Some? {
      SelectQualifies(results, uc, a, b);
    }
  }

  /** The picks of a use case, as a function of the pair of limits. */
  function PickOf(results: seq<Summary>, uc: UseCase): ((real, real)) -> seq<string> {
    (lim: (real, real)) => Picked(results, uc, lim.0, lim.1)
  }

  /** What each pair of limits contributes, concatenated in the order of the pairs. */
  function Gather(limits: seq<(real, real)>, f: ((real, real)) -> seq<string>): seq<string>
    decreases |limits|
  {
    if limits == [] then [] else Gather(limits[..|limits| - 1], f) + f(limits[|limits| - 1])
  }

  lemma {:induction false} GatherSpec(limits: seq<(real, real)>, f: ((real, real)) -> seq<string>)
    requires forall lim :: |f(lim)| <= 1
    ensures |Gather(limits, f)| <= |limits|
    ensures forall c :: c in Gather(limits, f) <==> exists k :: 0 <= k < |limits| && c in f(limits[k])
    decreases |limits|
  {
    if limits != [] {
      var init := limits[..|limits| - 1];
      var n := |limits| - 1;
      GatherSpec(init, f);
      forall c ensures c in Gather(limits, f) <==> exists k :: 0 <= k < |limits| && c in f(limits[k]) {
        if c in Gather(init, f) {
          var k :| 0 <= k < |init| && c in f(init[k]);
          assert limits[k] == init[k];
        }
        if exists k :: 0 <= k < |limits| && c in f(limits[k]) {
          var k :| 0 <= k < |limits| && c in f(limits[k]);
          if k < n {
            assert limits[k] == init[k];
          }
        }
      }
    }
  }

  lemma GatherSnoc(limits: seq<(real, real)>, f: ((real, real)) -> seq<string>, k: nat)
    requires k < |limits|
    ensures Gather(limits[..k + 1], f) == Gather(limits[..k], f) + f(limits[k])
  {
    assert limits[..k + 1][..k] == limits[..k];
  }

  /** `ucN_sol`: the chosen configuration of each pair of limits that has one. */
  function Solutions(results: seq<Summary>, uc: UseCase, limits: seq<(real, real)>): seq<string> {
    Gather(limits, PickOf(results, uc))
  }

  /** The solutions are exactly the picks of the pairs of limits, at most one per pair. */
  lemma SolutionsSpec(results: seq<Summary>, uc: UseCase, limits: seq<(real, real)>)
    ensures |Solutions(results, uc, limits)| <= |limits|
    ensures forall c :: c in Solutions(results, uc, limits) <==>
      exists k :: 0 <= k < |limits| && c in Picked(results, uc, limits[k].0, limits[k].1)
  {
    var f := PickOf(results, uc);
    forall lim: (real, real) ensures |f(lim)| <= 1 {
      assert f(lim) == Picked(results, uc, lim.0, lim.1);
    }
    GatherSpec(limits, f);
    assert forall k :: 0 <= k < |limits| ==> f(limits[k]) == Picked(results, uc, limits[k].0, limits[k].1);
  }

  /** Limits `lim` that admit no more than `(a, b)` does. */
  predicate NoLooser(uc: UseCase, lim: (real, real), a: real, b: real) {
    match uc
    case AccurateFast => lim.0 >= a && lim.1 <= b
    case _ => lim.0 <= a && lim.1 <= b
  }

  /** A result within limits no looser than `(a, b)` is within `(a, b)`. */
  lemma QualifiesLooser(uc: UseCase, x: Summary, lim: (real, real), a: real, b: real)
    requires NoLooser(uc, lim, a, b) && Qualifies(uc, x, lim.0, lim.1)
    ensures Qualifies(uc, x, a, b)
  {
  }

  /** A solution of a use case under limits each no looser than `(a, b)` meets `(a, b)`. */
  lemma SolutionsWithin(results: seq<Summary>, uc: UseCase, limits: seq<(real, real)>, a: real, b: real)
    requires forall k :: 0 <= k < |limits| ==> NoLooser(uc, limits[k], a, b)
    ensures forall c :: c in Solutions(results, uc, limits) ==>
      exists x :: x in results && x.conf == c && Qualifies(uc, x, a, b)
  {
    SolutionsSpec(results, uc, limits);
    forall c | c in Solutions(results, uc, limits)
      ensures exists x :: x in results && x.conf == c && Qualifies(uc, x, a, b)
    {
      var k :| 0 <= k < |limits| && c in Picked(results, uc, limits[k].0, limits[k].1);
      PickedQualifies(results, uc, limits[k].0, limits[k].1);
      var x :| x in results && Qualifies(uc, x, limits[k].0, limits[k].1) && x.conf == c;
      QualifiesLooser(uc, x, limits[k], a, b);
    }
  }

  /** Use case 1 of the report: at most three configurations, each within 45 W and 40 s. */
  lemma UseCase1Report(results: seq<Summary>)
    ensures |Solutions(results, FastAccurate, UseCase1Limits)| <= 3
    ensures forall c :: c in Solutions(results, FastAccurate, UseCase1Limits) ==>
      exists x :: x in results && x.conf == c && x.pwr <= 45.0 && x.lat <= 40.0
  {
    SolutionsSpec(results, FastAccurate, UseCase1Limits);
    SolutionsWithin(results, FastAccurate, UseCase1Limits, 45.0, 40.0);
  }

  /** Use case 2: at most three configurations, each within 240 J and 1400 MB. */
  lemma UseCase2Report(results: seq<Summary>)
    ensures |Solutions(results, FrugalFast, UseCase2Limits)| <= 3
    ensures forall c :: c in Solutions(results, FrugalFast, UseCase2Limits) ==>
      exists x :: x in results && x.conf == c && x.enr <= 240.0 && x.mem <= 1400.0
  {
    SolutionsSpec(results, FrugalFast, UseCase2Limits);
    SolutionsWithin(results, FrugalFast, UseCase2Limits, 240.0, 1400.0);
  }

  /** Use case 3: at most three configurations, each with accuracy at least 36 within 2000 MB. */
  lemma UseCase3Report(results: seq<Summary>)
    ensures |Solutions(results, AccurateFast, UseCase3Limits)| <= 3
    ensures forall c :: c in Solutions(results, AccurateFast, UseCase3Limits) ==>
      exists x :: x in results && x.conf == c && x.acc >= 36.0 && x.mem <= 2000.0
  {
    SolutionsSpec(results, AccurateFast, UseCase3Limits);
    SolutionsWithin(results, AccurateFast, UseCase3Limits, 36.0, 2000.0);
  }

  /** The loop of one use case over its limits. */
  method SolveUseCase(results: seq<Summary>, uc: UseCase, limits: seq<(real, real)>) returns (sol: seq<string>)
    ensures sol == Solutions(results, uc, limits)
  {
    ghost var f := PickOf(results, uc);
    sol := [];
    var k := 0;
    while k < |limits|
      invariant 0 <= k <= |limits|
      invariant sol == Gather(limits[..k], f)
    {
      var (a, b) := limits[k];
      GatherSnoc(limits, f, k);
      assert f(limits[k]) == Picked(results, uc, a, b);
      var candidates := Candidates(results, uc, a, b);
      var sorted := SortWith(candidates, KeyLess(RankKey(uc)));
      assert |sorted| == |candidates|;
      if |sorted| > 0 {
        sol := sol + [sorted[0].conf];
      }
      k := k + 1;
    }
    assert limits[..k] == limits;
  }
}
