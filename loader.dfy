/**
 * `load_logs_from_folder` of analysis/log_loader.py: collect the logs of a
 * folder with their name fragments, sort them by fragments, take fragment 1
 * as the iteration number, extract each log's periods and append them to
 * the first configuration whose tags cover the remaining fragments.
 */
module Loader {
  import opened Wrappers
  import opened Text
  import opened Sorting
  import opened Periods
  import opened Tagged

  /** One directory entry: its name and, when it could be opened and decoded, its log. */
  datatype FileEntry = FileEntry(fileName: string, contents: Option<Record>)

  /** A loaded log with the fragments of its file name. */
  datatype Loaded = Loaded(name: seq<string>, log: Record)

  /** `filename[4:-5].split('_')` */
  function NameFragments(fileName: string): seq<string> {
    Split(StripLogName(fileName), '_')
  }

  /** A file named `log_` + fragments joined by `_` + `.json` gives its fragments back. */
  lemma NameFragmentsOfLogName(frags: seq<string>)
    requires |frags| >= 1
    requires forall i :: 0 <= i < |frags| ==> '_' !in frags[i]
    ensures NameFragments("log_" + Join(frags, '_') + ".json") == frags
  {
    var body := Join(frags, '_');
    var fileName := "log_" + body + ".json";
    assert fileName[4..|fileName| - 5] == body;
    SplitJoin(frags, '_');
  }

  predicate Kept(f: FileEntry) {
    EndsWith(f.fileName, ".json") && f.contents.Some?
  }

  /** The logs that loaded, in directory order. */
  function Collected(files: seq<FileEntry>): (r: seq<Loaded>)
    ensures |r| <= |files|
    decreases |files|
  {
    if files == [] then []
    else
      var f := files[|files| - 1];
      Collected(files[..|files| - 1])
        + (if Kept(f) then [Loaded(NameFragments(f.fileName), f.contents.value)] else [])
  }

  /** A log is collected exactly when its file name ends in `.json` and it loaded;
      the others are skipped. */
  lemma {:induction false} CollectedMembers(files: seq<FileEntry>, x: Loaded)
    ensures x in Collected(files) <==>
      exists f :: f in files && Kept(f) && x == Loaded(NameFragments(f.fileName), f.contents.value)
    decreases |files|
  {
    if files != [] {
      var init := files[..|files| - 1];
      var last := files[|files| - 1];
      CollectedMembers(init, x);
      assert files == init + [last];
      if exists f :: f in files && Kept(f) && x == Loaded(NameFragments(f.fileName), f.contents.value) {
        var f :| f in files && Kept(f) && x == Loaded(NameFragments(f.fileName), f.contents.value);
        if f != last { assert f in init; }
      }
    }
  }

  /** The collecting loop; `numLoaded` counts only the files that loaded. */
  method Collect(files: seq<FileEntry>) returns (loaded: seq<Loaded>, numLoaded: nat)
    ensures loaded == Collected(files)
    ensures numLoaded == |loaded|
  {
    loaded := [];
    numLoaded := 0;
    var k := 0;
    while k < |files|
      invariant 0 <= k <= |files|
      invariant loaded == Collected(files[..k])
      invariant numLoaded == |loaded|
    {
      assert files[..k + 1][..k] == files[..k];
      var f := files[k];
      if EndsWith(f.fileName, ".json") {
        match f.contents {
          case Some(log) =>
            loaded := loaded + [Loaded(NameFragments(f.fileName), log)];
            numLoaded := numLoaded + 1;
          case None =>
        }
      }
      k := k + 1;
    }
    assert files[..k] == files;
  }

  /** `sorted(loaded, key=lambda x: x[0])` compares the fragment lists. */
  function NameLess(a: Loaded, b: Loaded): bool {
    ListLess(a.name, b.name)
  }

  function SortedLoaded(loaded: seq<Loaded>): seq<Loaded> {
    SortWith(loaded, NameLess)
  }

  /** The sorted logs are the collected ones, in fragment order. */
  lemma SortedLoadedSpec(loaded: seq<Loaded>)
    ensures multiset(SortedLoaded(loaded)) == multiset(loaded)
    ensures forall i :: 1 <= i < |SortedLoaded(loaded)| ==>
      !ListLess(SortedLoaded(loaded)[i].name, SortedLoaded(loaded)[i - 1].name)
  {
    forall x, y | x in loaded && y in loaded && NameLess(x, y) ensures !NameLess(y, x) {
      ListLessAsymmetric(x.name, y.name);
    }
    SortOrdered(loaded, NameLess);
  }

  /** `i = int(name.pop(1))`: the iteration number and the remaining fragments. */
  function PopIteration(name: seq<string>): (r: Result<(int, seq<string>), LoadError>)
    ensures r.Err? <==> |name| < 2 || ParseInt(name[1]).None?
    ensures |name| < 2 ==> r == Err(MissingIteration)
    ensures |name| >= 2 && ParseInt(name[1]).None? ==> r == Err(BadIteration(name[1]))
    ensures r.Ok? ==> ParseInt(name[1]) == Some(r.value.0)
    ensures r.Ok? ==> |r.value.1| == |name| - 1 && r.value.1[0] == name[0] && r.value.1[1..] == name[2..]
  {
    if |name| < 2 then Err(MissingIteration)
    else match ParseInt(name[1])
      case None => Err(BadIteration(name[1]))
      case Some(i) => Ok((i, [name[0]] + name[2..]))
  }

  /** A name following `<model>_<iteration>_<tags...>` gives back the iteration and the other fragments. */
  lemma PopIterationOfConvention(model: string, i: int, extras: seq<string>)
    ensures PopIteration([model, IntToDecimal(i)] + extras) == Ok((i, [model] + extras))
  {
    ParseIntToDecimal(i);
    var name := [model, IntToDecimal(i)] + extras;
    assert name[2..] == extras;
  }

  // ---- grouping ----

  /** The index of the first configuration whose tags cover `name`. */
  function FirstCovering(groups: seq<TaggedData>, name: seq<string>): (k: Option<nat>)
    ensures k.Some? ==> k.value < |groups| && HasTags(groups[k.value], name)
    ensures k.Some? ==> forall j :: 0 <= j < k.value ==> !HasTags(groups[j], name)
    ensures k.None? ==> forall j :: 0 <= j < |groups| ==> !HasTags(groups[j], name)
  {
    if groups == [] then None
    else if HasTags(groups[0], name) then Some(0)
    else match FirstCovering(groups[1..], name)
      case Some(k) => Some(k + 1)
      case None => None
  }

  /** Append the period list of one log to its configuration. */
  function Place(groups: seq<TaggedData>, name: seq<string>, periods: seq<LogPeriod>): seq<TaggedData> {
    match FirstCovering(groups, name)
    case Some(k) => groups[k := TaggedData(groups[k].tags, groups[k].periods + [periods])]
    case None => groups + [TaggedData(name, [periods])]
  }

  /** The number of iterations held by all configurations. */
  function Iterations(groups: seq<TaggedData>): nat
    decreases |groups|
  {
    if groups == [] then 0 else Iterations(groups[..|groups| - 1]) + |groups[|groups| - 1].periods|
  }

  lemma {:induction false} IterationsUpdate(groups: seq<TaggedData>, k: nat, g: TaggedData)
    requires k < |groups|
    ensures Iterations(groups[k := g]) == Iterations(groups) - |groups[k].periods| + |g.periods|
    decreases |groups|
  {
    var u := groups[k := g];
    if k < |groups| - 1 {
      IterationsUpdate(groups[..|groups| - 1], k, g);
      assert u[..|u| - 1] == groups[..|groups| - 1][k := g];
    } else {
      assert u[..|u| - 1] == groups[..|groups| - 1];
    }
  }

  /** `r` is `groups` with `periods` appended to configuration `k`, the first whose tags
      cover `name`, or to a new configuration `k == |groups|` tagged `name`; nothing else differs. */
  ghost predicate PlacedAt(groups: seq<TaggedData>, r: seq<TaggedData>, name: seq<string>, periods: seq<LogPeriod>, k: nat) {
    && k < |r|
    && HasTags(r[k], name)
    && r[k].periods == (if k < |groups| then groups[k].periods else []) + [periods]
    && (forall j :: 0 <= j < k && j < |groups| ==> !HasTags(groups[j], name))
    && (k < |groups| ==> r[k].tags == groups[k].tags && |r| == |groups|)
    && (k == |groups| ==> r[k].tags == name && |r| == |groups| + 1)
    && (forall j :: 0 <= j < |groups| && j != k ==> r[j] == groups[j])
  }

  /** Each log adds one period list to exactly one configuration: the first whose tags
      cover its fragments, or a new one tagged with them. Nothing else changes. */
  lemma PlaceSpec(groups: seq<TaggedData>, name: seq<string>, periods: seq<LogPeriod>)
    ensures Iterations(Place(groups, name, periods)) == Iterations(groups) + 1
    ensures exists k :: PlacedAt(groups, Place(groups, name, periods), name, periods, k)
  {
    var r := Place(groups, name, periods);
    match FirstCovering(groups, name)
    case Some(k) =>
      IterationsUpdate(groups, k, r[k]);
      assert HasTags(r[k], name);
      assert PlacedAt(groups, r, name, periods, k);
    case None =>
      assert r[..|groups|] == groups;
      assert HasTags(r[|groups|], name);
      assert PlacedAt(groups, r, name, periods, |groups|);
  }

  /** The placement loop with its `flag_used_old`. */
  method SavePeriods(groups: seq<TaggedData>, name: seq<string>, periods: seq<LogPeriod>) returns (out: seq<TaggedData>)
    ensures out == Place(groups, name, periods)
  {
    out := groups;
    var usedOld := false;
    var m := 0;
    while m < |out|
      invariant 0 <= m <= |out| == |groups|
      invariant usedOld ==> FirstCovering(groups, name).Some? && out == Place(groups, name, periods)
      invariant !usedOld ==> out == groups && forall j :: 0 <= j < m ==> !HasTags(groups[j], name)
    {
      if !usedOld && HasTags(out[m], name) {
        assert FirstCovering(groups, name) == Some(m);
        usedOld := true;
        out := out[m := TaggedData(out[m].tags, out[m].periods + [periods])];
      }
      m := m + 1;
    }
    if !usedOld {
      assert FirstCovering(groups, name).None?;
      out := out + [TaggedData(name, [periods])];
    }
  }

  /** One log of the grouping loop. */
  function Step(groups: Result<seq<TaggedData>, LoadError>, x: Loaded): Result<seq<TaggedData>, LoadError> {
    match groups
    case Err(e) => Err(e)
    case Ok(gs) =>
      match PopIteration(x.name)
      case Err(e) => Err(e)
      case Ok(popped) =>
        match PeriodsOf(x.log, popped.0)
        case Err(e) => Err(e)
        case Ok(ps) => Ok(Place(gs, popped.1, ps))
  }

  function Grouped(s: seq<Loaded>): Result<seq<TaggedData>, LoadError>
    decreases |s|
  {
    if s == [] then Ok([]) else Step(Grouped(s[..|s| - 1]), s[|s| - 1])
  }

  /** What loading a folder gives: the configurations, or the error that aborted it. */
  function LoadFolder(files: seq<FileEntry>): Result<seq<TaggedData>, LoadError> {
    Grouped(SortedLoaded(Collected(files)))
  }

  lemma GroupedSnoc(s: seq<Loaded>, k: nat)
    requires k < |s|
    ensures Grouped(s[..k + 1]) == Step(Grouped(s[..k]), s[k])
  {
    assert s[..k + 1][..k] == s[..k];
  }

  /** An error aborts the remaining logs. */
  lemma {:induction false} GroupedAbort(s: seq<Loaded>, k: nat)
    requires k <= |s| && Grouped(s[..k]).Err?
    ensures Grouped(s) == Grouped(s[..k])
    decreases |s| - k
  {
    if k < |s| {
      GroupedSnoc(s, k);
      GroupedAbort(s, k + 1);
    } else {
      assert s[..k] == s;
    }
  }

  /** Every log of a successful load is one iteration of one configuration. */
  lemma {:induction false} GroupedIterations(s: seq<Loaded>)
    requires Grouped(s).Ok?
    ensures Iterations(Grouped(s).value) == |s|
    decreases |s|
  {
    if s != [] {
      var init := s[..|s| - 1];
      GroupedIterations(init);
      var x := s[|s| - 1];
      var popped := PopIteration(x.name).value;
      PlaceSpec(Grouped(init).value, popped.1, PeriodsOf(x.log, popped.0).value);
    }
  }

  lemma StepErr(groups: Result<seq<TaggedData>, LoadError>, x: Loaded)
    requires PopIteration(x.name).Err?
    ensures Step(groups, x).Err?
  {
  }

  /** A loaded log whose name has no parsable iteration fragment aborts the whole load. */
  lemma {:induction false} BadNameAborts(s: seq<Loaded>, k: nat)
    requires k < |s| && PopIteration(s[k].name).Err?
    ensures Grouped(s).Err?
  {
    GroupedSnoc(s, k);
    StepErr(Grouped(s[..k]), s[k]);
    GroupedAbort(s, k + 1);
  }

  /** A successful load holds one iteration per loaded file; a loaded file whose
      name lacks an iteration number makes the load fail. */
  lemma LoadFolderSpec(files: seq<FileEntry>)
    ensures LoadFolder(files).Ok? ==> Iterations(LoadFolder(files).value) == |Collected(files)|
    ensures (exists x :: x in Collected(files) && PopIteration(x.name).Err?) ==> LoadFolder(files).Err?
  {
    var s := SortedLoaded(Collected(files));
    SortedLoadedSpec(Collected(files));
    assert |s| == |Collected(files)| by {
      assert |multiset(s)| == |multiset(Collected(files))|;
    }
    if LoadFolder(files).Ok? {
      GroupedIterations(s);
    }
    if exists x :: x in Collected(files) && PopIteration(x.name).Err? {
      var x :| x in Collected(files) && PopIteration(x.name).Err?;
      assert x in multiset(s);
      var k :| 0 <= k < |s| && s[k] == x;
      BadNameAborts(s, k);
    }
  }

  /** `load_logs_from_folder`, over the directory listing. */
  method LoadLogsFromFolder(files: seq<FileEntry>) returns (r: Result<seq<TaggedData>, LoadError>, numLoaded: nat)
    ensures numLoaded == |Collected(files)|
    ensures r == LoadFolder(files)
  {
    var loaded;
    loaded, numLoaded := Collect(files);
    var sorted := SortedLoaded(loaded);
    var groups: seq<TaggedData> := [];
    var k := 0;
    while k < |sorted|
      invariant 0 <= k <= |sorted|
      invariant Grouped(sorted[..k]) == Ok(groups)
    {
      var x := sorted[k];
      GroupedSnoc(sorted, k);
      var popped := PopIteration(x.name);
      if popped.Err? {
        GroupedAbort(sorted, k + 1);
        return Err(popped.error), numLoaded;
      }
      var i := popped.value.0;
      var periods := ExtractPeriods(x.log, i);
      if periods.Err? {
        GroupedAbort(sorted, k + 1);
        return Err(periods.error), numLoaded;
      }
      groups := SavePeriods(groups, popped.value.1, periods.value);
      k := k + 1;
    }
    assert sorted[..k] == sorted;
    r := Ok(groups);
  }
}
