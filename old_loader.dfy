/**
 * `load_logs_from_folder` of analysis/old_view_scripts/log_loader.py: the
 * logs are grouped under the string of their remaining name fragments
 * joined by `_`; each group's `(iteration, log)` list is re-sorted by
 * iteration after every append; each group becomes one `TaggedData` whose
 * tags are its key split on `_` and whose period lists are sorted by the
 * iteration of their first period.
 */
module OldLoader {
  import opened Wrappers
  import opened Text
  import opened Sorting
  import opened Periods
  import opened Tagged
  import opened Loader

  datatype IterLog = IterLog(i: int, log: Record)

  function IterKey(x: IterLog): real {
    x.i as real
  }

  /** `loaded_iter_groups`: the keys in insertion order and the list kept under each. */
  datatype IterGroups = IterGroups(keys: seq<string>, lists: map<string, seq<IterLog>>)

  ghost predicate ByIteration(lst: seq<IterLog>) {
    forall a, b :: 0 <= a < b < |lst| ==> lst[a].i <= lst[b].i
  }

  /** The keys are distinct and are exactly the dict's keys; every list is sorted by iteration. */
  ghost predicate WellFormed(g: IterGroups) {
    && (forall a, b :: 0 <= a < b < |g.keys| ==> g.keys[a] != g.keys[b])
    && (forall key :: key in g.lists <==> key in g.keys)
    && (forall key :: key in g.lists ==> ByIteration(g.lists[key]))
  }

  /** Create the key's list if needed, append, and re-sort the list by iteration. */
  function AddIteration(g: IterGroups, key: string, x: IterLog): IterGroups {
    var lst := if key in g.lists then g.lists[key] else [];
    IterGroups(if key in g.lists then g.keys else g.keys + [key],
               g.lists[key := SortWith(lst + [x], KeyLess(IterKey))])
  }

  lemma AddIterationSpec(g: IterGroups, key: string, x: IterLog)
    requires WellFormed(g)
    ensures WellFormed(AddIteration(g, key, x))
    ensures forall k :: k in AddIteration(g, key, x).keys <==> k in g.keys || k == key
    ensures multiset(AddIteration(g, key, x).lists[key])
      == multiset(if key in g.lists then g.lists[key] else []) + multiset{x}
    ensures forall k :: k in g.lists && k != key ==> AddIteration(g, key, x).lists[k] == g.lists[k]
  {
    var lst := if key in g.lists then g.lists[key] else [];
    SortByKeyOrdered(lst + [x], IterKey);
    var r := AddIteration(g, key, x);
    assert ByIteration(r.lists[key]);
  }

  /** The key a loaded log is filed under, once its iteration fragment is popped. */
  predicate KeyMatch(x: Loaded, key: string) {
    PopIteration(x.name).Ok? && Join(PopIteration(x.name).value.1, '_') == key
  }

  /** The first loop: every log is filed under its key; a bad name aborts. */
  function GroupsFrom(s: seq<Loaded>): Result<IterGroups, LoadError>
    decreases |s|
  {
    if s == [] then Ok(IterGroups([], map[]))
    else match GroupsFrom(s[..|s| - 1])
      case Err(e) => Err(e)
      case Ok(g) =>
        var x := s[|s| - 1];
        match PopIteration(x.name)
        case Err(e) => Err(e)
        case Ok(popped) => Ok(AddIteration(g, Join(popped.1, '_'), IterLog(popped.0, x.log)))
  }

  /** The `(iteration, log)` pairs of the logs filed under `key`. */
  ghost function Members(s: seq<Loaded>, key: string): multiset<IterLog>
    decreases |s|
  {
    if s == [] then multiset{}
    else
      var x := s[|s| - 1];
      Members(s[..|s| - 1], key)
        + (if KeyMatch(x, key) then multiset{IterLog(PopIteration(x.name).value.0, x.log)} else multiset{})
  }

  /** After the first loop the dict is well formed: distinct keys, one list per key,
      each sorted by iteration. */
  lemma {:induction false} GroupsFromWellFormed(s: seq<Loaded>)
    requires GroupsFrom(s).Ok?
    ensures WellFormed(GroupsFrom(s).value)
    decreases |s|
  {
    if s != [] {
      var init := s[..|s| - 1];
      var x := s[|s| - 1];
      GroupsFromWellFormed(init);
      var popped := PopIteration(x.name).value;
      AddIterationSpec(GroupsFrom(init).value, Join(popped.1, '_'), IterLog(popped.0, x.log));
    }
  }

  lemma AddIterationKeys(g: IterGroups, key: string, x: IterLog, k: string)
    requires WellFormed(g)
    ensures k in AddIteration(g, key, x).keys <==> k in g.keys || k == key
  {
  }

  ghost predicate SomeKeyMatch(s: seq<Loaded>, key: string) {
    exists k :: 0 <= k < |s| && KeyMatch(s[k], key)
  }

  lemma SomeKeyMatchSnoc(s: seq<Loaded>, key: string)
    requires s != []
    ensures SomeKeyMatch(s, key) <==> SomeKeyMatch(s[..|s| - 1], key) || KeyMatch(s[|s| - 1], key)
  {
    var init := s[..|s| - 1];
    if SomeKeyMatch(init, key) {
      var j :| 0 <= j < |init| && KeyMatch(init[j], key);
      assert s[j] == init[j];
    }
    if SomeKeyMatch(s, key) {
      var j :| 0 <= j < |s| && KeyMatch(s[j], key);
      if j < |init| { assert init[j] == s[j]; }
    }
  }

  /** There is one key per distinct joined name. */
  lemma {:induction false} GroupsFromKeys(s: seq<Loaded>)
    requires GroupsFrom(s).Ok?
    ensures forall key :: key in GroupsFrom(s).value.keys <==> SomeKeyMatch(s, key)
    decreases |s|
  {
    if s != [] {
      var init := s[..|s| - 1];
      var x := s[|s| - 1];
      GroupsFromKeys(init);
      GroupsFromWellFormed(init);
      var g := GroupsFrom(init).value;
      var popped := PopIteration(x.name).value;
      var key := Join(popped.1, '_');
      var r := GroupsFrom(s).value;
      assert r == AddIteration(g, key, IterLog(popped.0, x.log));
      forall k ensures k in r.keys <==> SomeKeyMatch(s, k) {
        AddIterationKeys(g, key, IterLog(popped.0, x.log), k);
        SomeKeyMatchSnoc(s, k);
      }
    }
  }

  /** Each key's list holds exactly the logs with that joined name. */
  lemma {:induction false} GroupsFromMembers(s: seq<Loaded>)
    requires GroupsFrom(s).Ok?
    ensures forall key :: key in GroupsFrom(s).value.lists ==> multiset(GroupsFrom(s).value.lists[key]) == Members(s, key)
    decreases |s|
  {
    if s != [] {
      var init := s[..|s| - 1];
      var x := s[|s| - 1];
      GroupsFromMembers(init);
      GroupsFromWellFormed(init);
      GroupsFromKeys(init);
      var g := GroupsFrom(init).value;
      var popped := PopIteration(x.name).value;
      var key := Join(popped.1, '_');
      AddIterationSpec(g, key, IterLog(popped.0, x.log));
      var r := GroupsFrom(s).value;
      assert r == AddIteration(g, key, IterLog(popped.0, x.log));
      forall k | k in r.lists ensures multiset(r.lists[k]) == Members(s, k) {
        if k != key {
          assert k in g.lists;
          assert !KeyMatch(x, k);
        } else if key !in g.lists {
          MembersAbsent(init, key);
        }
      }
    }
  }

  lemma {:induction false} MembersAbsent(s: seq<Loaded>, key: string)
    requires forall k :: 0 <= k < |s| ==> !KeyMatch(s[k], key)
    ensures Members(s, key) == multiset{}
    decreases |s|
  {
    if s != [] {
      MembersAbsent(s[..|s| - 1], key);
    }
  }

  /** The joined key splits back into the fragments it was joined from. */
  lemma TagsRecoverFragments(name: seq<string>)
    requires forall i :: 0 <= i < |name| ==> '_' !in name[i]
    requires PopIteration(name).Ok?
    ensures Split(Join(PopIteration(name).value.1, '_'), '_') == PopIteration(name).value.1
  {
    var rest := PopIteration(name).value.1;
    assert forall i :: 1 <= i < |rest| ==> rest[i] == name[i + 1] by {
      forall i | 1 <= i < |rest| ensures rest[i] == name[i + 1] {
        assert rest[1..][i - 1] == name[2..][i - 1];
      }
    }
    SplitJoin(rest, '_');
  }

  // ---- the second loop: one `TaggedData` per key ----

  /** The period lists of a group's logs, in list order. */
  function PeriodLists(lst: seq<IterLog>): Result<seq<seq<LogPeriod>>, LoadError>
    decreases |lst|
  {
    if lst == [] then Ok([])
    else match PeriodLists(lst[..|lst| - 1])
      case Err(e) => Err(e)
      case Ok(pl) =>
        match PeriodsOf(lst[|lst| - 1].log, lst[|lst| - 1].i)
        case Err(e) => Err(e)
        case Ok(ps) => Ok(pl + [ps])
  }

  lemma {:induction false} PeriodListsSpec(lst: seq<IterLog>)
    requires PeriodLists(lst).Ok?
    ensures |PeriodLists(lst).value| == |lst|
    ensures forall j :: 0 <= j < |lst| ==> PeriodsOf(lst[j].log, lst[j].i) == Ok(PeriodLists(lst).value[j])
    decreases |lst|
  {
    if lst != [] {
      var init := lst[..|lst| - 1];
      PeriodListsSpec(init);
      var pl := PeriodLists(init).value;
      var ps := PeriodsOf(lst[|lst| - 1].log, lst[|lst| - 1].i).value;
      assert PeriodLists(lst).value == pl + [ps];
      forall j | 0 <= j < |init| ensures lst[j] == init[j] { }
    }
  }

  /** `x[0].i`; only asked of non-empty lists. */
  function FirstIteration(ps: seq<LogPeriod>): real {
    if |ps| > 0 then ps[0].i as real else 0.0
  }

  /** `sorted(iter_periods_list, key=lambda x: x[0].i)`: a log without periods raises. */
  function SortByFirst(pl: seq<seq<LogPeriod>>): (r: Result<seq<seq<LogPeriod>>, LoadError>)
    ensures r.Err? <==> exists j :: 0 <= j < |pl| && pl[j] == []
    ensures r.Ok? ==> multiset(r.value) == multiset(pl)
    ensures r.Ok? ==> forall a :: 0 <= a < |r.value| ==> r.value[a] != []
    ensures r.Ok? ==> forall a, b :: 0 <= a < b < |r.value| ==>
      r.value[a][0].i <= r.value[b][0].i
  {
    if exists j | 0 <= j < |pl| :: |pl[j]| == 0 then Err(EmptyIteration)
    else
      var sorted := SortWith(pl, KeyLess(FirstIteration));
      SortByKeyOrdered(pl, FirstIteration);
      assert forall a :: 0 <= a < |sorted| ==> sorted[a] != [] by {
        forall a | 0 <= a < |sorted| ensures sorted[a] != [] {
          assert sorted[a] in multiset(sorted);
          assert sorted[a] in pl;
          var j :| 0 <= j < |pl| && pl[j] == sorted[a];
        }
      }
      Ok(sorted)
  }

  /** The lists already come in iteration order, so sorting by the first period's
      iteration leaves them as they are. */
  lemma SortByFirstKeepsOrder(lst: seq<IterLog>)
    requires ByIteration(lst)
    requires PeriodLists(lst).Ok?
    requires forall j :: 0 <= j < |PeriodLists(lst).value| ==> PeriodLists(lst).value[j] != []
    ensures SortByFirst(PeriodLists(lst).value) == Ok(PeriodLists(lst).value)
  {
    var pl := PeriodLists(lst).value;
    PeriodListsSpec(lst);
    forall j | 0 <= j < |pl| ensures FirstIteration(pl[j]) == lst[j].i as real {
      PeriodsForSpec(lst[j].log, PeriodNames(lst[j].log.timestamps), lst[j].i);
    }
    SortByKeyIdentity(pl, FirstIteration);
  }

  function TaggedOf(key: string, lst: seq<IterLog>): Result<TaggedData, LoadError> {
    match PeriodLists(lst)
    case Err(e) => Err(e)
    case Ok(pl) =>
      match SortByFirst(pl)
      case Err(e) => Err(e)
      case Ok(sorted) => Ok(TaggedData(Split(key, '_'), sorted))
  }

  function TaggedFrom(g: IterGroups, keys: seq<string>): Result<seq<TaggedData>, LoadError>
    decreases |keys|
  {
    if keys == [] then Ok([])
    else match TaggedFrom(g, keys[..|keys| - 1])
      case Err(e) => Err(e)
      case Ok(ts) =>
        var key := keys[|keys| - 1];
        match TaggedOf(key, if key in g.lists then g.lists[key] else [])
        case Err(e) => Err(e)
        case Ok(t) => Ok(ts + [t])
  }

  /** One group becomes a `TaggedData` tagged with its name's fragments, one period list per iteration. */
  lemma TaggedOfSpec(key: string, lst: seq<IterLog>)
    requires TaggedOf(key, lst).Ok?
    ensures TaggedOf(key, lst).value.tags == Split(key, '_')
    ensures |TaggedOf(key, lst).value.periods| == |lst|
  {
    PeriodListsSpec(lst);
    var pl := PeriodLists(lst).value;
    var sorted := SortByFirst(pl).value;
    assert |multiset(sorted)| == |multiset(pl)|;
  }

  /** A successful build is the build for all keys but the last, then the last key's group. */
  lemma TaggedFromOkSnoc(g: IterGroups, keys: seq<string>)
    requires keys != [] && TaggedFrom(g, keys).Ok?
    ensures var key := keys[|keys| - 1];
      var lst := if key in g.lists then g.lists[key] else [];
      && TaggedFrom(g, keys[..|keys| - 1]).Ok? && TaggedOf(key, lst).Ok?
      && TaggedFrom(g, keys).value == TaggedFrom(g, keys[..|keys| - 1]).value + [TaggedOf(key, lst).value]
  {
  }

  lemma {:induction false} TaggedFromSpec(g: IterGroups, keys: seq<string>)
    requires TaggedFrom(g, keys).Ok?
    ensures |TaggedFrom(g, keys).value| == |keys|
    ensures forall k :: 0 <= k < |keys| ==> TaggedFrom(g, keys).value[k].tags == Split(keys[k], '_')
    ensures forall k :: 0 <= k < |keys| && keys[k] in g.lists ==>
      |TaggedFrom(g, keys).value[k].periods| == |g.lists[keys[k]]|
    decreases |keys|
  {
    if keys != [] {
      var init := keys[..|keys| - 1];
      TaggedFromOkSnoc(g, keys);
      TaggedFromSpec(g, init);
      var key := keys[|keys| - 1];
      var lst := if key in g.lists then g.lists[key] else [];
      var ts := TaggedFrom(g, init).value;
      var t := TaggedOf(key, lst).value;
      var r := TaggedFrom(g, keys).value;
      TaggedOfSpec(key, lst);
      forall k | 0 <= k < |keys|
        ensures r[k].tags == Split(keys[k], '_')
        ensures keys[k] in g.lists ==> |r[k].periods| == |g.lists[keys[k]]|
      {
        if k < |init| {
          assert r[k] == ts[k] && keys[k] == init[k];
        } else {
          assert r[k] == t && keys[k] == key;
        }
      }
    }
  }

  /** What the old loader gives for a folder. */
  function OldLoadFolder(files: seq<FileEntry>): Result<seq<TaggedData>, LoadError> {
    match GroupsFrom(SortedLoaded(Collected(files)))
    case Err(e) => Err(e)
    case Ok(g) => TaggedFrom(g, g.keys)
  }

  /** The distinct joined names of the loaded logs. */
  ghost function JoinedNames(files: seq<FileEntry>): set<string> {
    set x | x in Collected(files) && PopIteration(x.name).Ok? :: Join(PopIteration(x.name).value.1, '_')
  }

  lemma {:induction false} DistinctCard(keys: seq<string>)
    requires forall a, b :: 0 <= a < b < |keys| ==> keys[a] != keys[b]
    ensures |set k | k in keys| == |keys|
    decreases |keys|
  {
    if keys != [] {
      var init := keys[..|keys| - 1];
      DistinctCard(init);
      assert (set k | k in keys) == (set k | k in init) + {keys[|keys| - 1]};
    }
  }

  /** A key some reordering of the collected logs maps to is a joined name, and back. */
  lemma SomeKeyMatchJoined(files: seq<FileEntry>, s: seq<Loaded>, key: string)
    requires multiset(s) == multiset(Collected(files))
    ensures SomeKeyMatch(s, key) <==> key in JoinedNames(files)
  {
    if SomeKeyMatch(s, key) {
      var j :| 0 <= j < |s| && KeyMatch(s[j], key);
      assert s[j] in multiset(s);
      assert s[j] in Collected(files);
    }
    if key in JoinedNames(files) {
      var x :| x in Collected(files) && PopIteration(x.name).Ok? && Join(PopIteration(x.name).value.1, '_') == key;
      assert x in multiset(Collected(files));
      assert x in s;
      var j :| 0 <= j < |s| && s[j] == x;
      assert KeyMatch(s[j], key);
    }
  }

  lemma KeysAreJoinedNames(files: seq<FileEntry>)
    requires GroupsFrom(SortedLoaded(Collected(files))).Ok?
    ensures (set k | k in GroupsFrom(SortedLoaded(Collected(files))).value.keys) == JoinedNames(files)
  {
    var s := SortedLoaded(Collected(files));
    SortedLoadedSpec(Collected(files));
    var g := GroupsFrom(s).value;
    GroupsFromKeys(s);
    forall key ensures key in g.keys <==> key in JoinedNames(files) {
      SomeKeyMatchJoined(files, s, key);
    }
  }

  /** The old loader makes one configuration per distinct joined name. */
  lemma OldLoadFolderCount(files: seq<FileEntry>)
    requires OldLoadFolder(files).Ok?
    ensures |OldLoadFolder(files).value| == |JoinedNames(files)|
  {
    var s := SortedLoaded(Collected(files));
    var g := GroupsFrom(s).value;
    GroupsFromWellFormed(s);
    TaggedFromSpec(g, g.keys);
    KeysAreJoinedNames(files);
    DistinctCard(g.keys);
  }

  /** Each configuration is tagged with the remaining fragments of the logs filed under it. */
  lemma OldLoadFolderTags(files: seq<FileEntry>, k: nat)
    requires OldLoadFolder(files).Ok? && k < |OldLoadFolder(files).value|
    ensures exists x :: x in Collected(files) && PopIteration(x.name).Ok? && OldLoadFolder(files).value[k].tags == PopIteration(x.name).value.1
  {
    var s := SortedLoaded(Collected(files));
    SortedLoadedSpec(Collected(files));
    var g := GroupsFrom(s).value;
    GroupsFromKeys(s);
    TaggedFromSpec(g, g.keys);
    assert g.keys[k] in g.keys;
    assert SomeKeyMatch(s, g.keys[k]);
    var j :| 0 <= j < |s| && KeyMatch(s[j], g.keys[k]);
    var x := s[j];
    assert x in multiset(Collected(files));
    NamesHaveNoSeparator(files, x);
    TagsRecoverFragments(x.name);
  }

  lemma NamesHaveNoSeparator(files: seq<FileEntry>, x: Loaded)
    requires x in Collected(files)
    ensures forall i :: 0 <= i < |x.name| ==> '_' !in x.name[i]
  {
    CollectedMembers(files, x);
  }

  // ---- the loops ----

  lemma GroupsFromStep(s: seq<Loaded>, k: nat, g: IterGroups)
    requires k < |s| && GroupsFrom(s[..k]) == Ok(g) && PopIteration(s[k].name).Ok?
    ensures GroupsFrom(s[..k + 1])
      == Ok(AddIteration(g, Join(PopIteration(s[k].name).value.1, '_'), IterLog(PopIteration(s[k].name).value.0, s[k].log)))
  {
    assert s[..k + 1][..k] == s[..k];
  }

  lemma GroupsFromErr(s: seq<Loaded>, k: nat)
    requires k < |s| && GroupsFrom(s[..k]).Err?
    ensures GroupsFrom(s[..k + 1]) == GroupsFrom(s[..k])
  {
    assert s[..k + 1][..k] == s[..k];
  }

  lemma GroupsFromPopErr(s: seq<Loaded>, k: nat)
    requires k < |s| && GroupsFrom(s[..k]).Ok? && PopIteration(s[k].name).Err?
    ensures GroupsFrom(s[..k + 1]) == Err(PopIteration(s[k].name).error)
  {
    assert s[..k + 1][..k] == s[..k];
  }

  lemma {:induction false} GroupsFromAbort(s: seq<Loaded>, k: nat)
    requires k <= |s| && GroupsFrom(s[..k]).Err?
    ensures GroupsFrom(s) == GroupsFrom(s[..k])
    decreases |s| - k
  {
    if k < |s| {
      GroupsFromErr(s, k);
      GroupsFromAbort(s, k + 1);
    } else {
      assert s[..k] == s;
    }
  }

  /** Filling `loaded_iter_groups`. */
  method GroupIterations(sorted: seq<Loaded>) returns (r: Result<IterGroups, LoadError>)
    ensures r == GroupsFrom(sorted)
  {
    var keys: seq<string> := [];
    var lists: map<string, seq<IterLog>> := map[];
    var k := 0;
    while k < |sorted|
      invariant 0 <= k <= |sorted|
      invariant GroupsFrom(sorted[..k]) == Ok(IterGroups(keys, lists))
    {
      var popped := PopIteration(sorted[k].name);
      if popped.Err? {
        GroupsFromPopErr(sorted, k);
        GroupsFromAbort(sorted, k + 1);
        return Err(popped.error);
      }
      GroupsFromStep(sorted, k, IterGroups(keys, lists));
      var nameStr := Join(popped.value.1, '_');
      var entry := IterLog(popped.value.0, sorted[k].log);
      keys, lists := AddToDict(keys, lists, nameStr, entry);
      k := k + 1;
    }
    assert sorted[..k] == sorted;
    r := Ok(IterGroups(keys, lists));
  }

  /** One iteration of the first loop: create the key's list if needed, append, re-sort. */
  method AddToDict(keys: seq<string>, lists: map<string, seq<IterLog>>, nameStr: string, entry: IterLog)
    returns (keys': seq<string>, lists': map<string, seq<IterLog>>)
    ensures IterGroups(keys', lists') == AddIteration(IterGroups(keys, lists), nameStr, entry)
  {
    keys', lists' := keys, lists;
    if nameStr !in lists' {
      keys' := keys' + [nameStr];
      lists' := lists'[nameStr := []];
    }
    lists' := lists'[nameStr := lists'[nameStr] + [entry]];
    lists' := lists'[nameStr := SortWith(lists'[nameStr], KeyLess(IterKey))];
    var lst := if nameStr in lists then lists[nameStr] else [];
    assert lists' == lists[nameStr := SortWith(lst + [entry], KeyLess(IterKey))];
  }

  lemma PeriodListsSnoc(lst: seq<IterLog>, k: nat)
    requires k < |lst|
    ensures PeriodLists(lst[..k + 1]) ==
      match PeriodLists(lst[..k])
      case Err(e) => Err(e)
      case Ok(pl) => (match PeriodsOf(lst[k].log, lst[k].i) case Err(e) => Err(e) case Ok(ps) => Ok(pl + [ps]))
  {
    assert lst[..k + 1][..k] == lst[..k];
  }

  lemma {:induction false} PeriodListsAbort(lst: seq<IterLog>, k: nat)
    requires k <= |lst| && PeriodLists(lst[..k]).Err?
    ensures PeriodLists(lst) == PeriodLists(lst[..k])
    decreases |lst| - k
  {
    if k < |lst| {
      PeriodListsSnoc(lst, k);
      PeriodListsAbort(lst, k + 1);
    } else {
      assert lst[..k] == lst;
    }
  }

  /** The period lists of one group (`iter_periods_list`). */
  method GroupPeriods(lst: seq<IterLog>) returns (r: Result<seq<seq<LogPeriod>>, LoadError>)
    ensures r == PeriodLists(lst)
  {
    var pl: seq<seq<LogPeriod>> := [];
    var k := 0;
    while k < |lst|
      invariant 0 <= k <= |lst|
      invariant PeriodLists(lst[..k]) == Ok(pl)
    {
      PeriodListsSnoc(lst, k);
      var ps := ExtractPeriods(lst[k].log, lst[k].i);
      if ps.Err? {
        PeriodListsAbort(lst, k + 1);
        return Err(ps.error);
      }
      pl := pl + [ps.value];
      k := k + 1;
    }
    assert lst[..k] == lst;
    r := Ok(pl);
  }

  lemma TaggedFromSnoc(g: IterGroups, keys: seq<string>, k: nat)
    requires k < |keys|
    ensures TaggedFrom(g, keys[..k + 1]) ==
      match TaggedFrom(g, keys[..k])
      case Err(e) => Err(e)
      case Ok(ts) =>
        (match TaggedOf(keys[k], if keys[k] in g.lists then g.lists[keys[k]] else [])
         case Err(e) => Err(e)
         case Ok(t) => Ok(ts + [t]))
  {
    assert keys[..k + 1][..k] == keys[..k];
  }

  lemma {:induction false} TaggedFromAbort(g: IterGroups, keys: seq<string>, k: nat)
    requires k <= |keys| && TaggedFrom(g, keys[..k]).Err?
    ensures TaggedFrom(g, keys) == TaggedFrom(g, keys[..k])
    decreases |keys| - k
  {
    if k < |keys| {
      TaggedFromSnoc(g, keys, k);
      TaggedFromAbort(g, keys, k + 1);
    } else {
      assert keys[..k] == keys;
    }
  }

  /** The second loop: one `TaggedData` per key, in key order. */
  method BuildTagged(g: IterGroups) returns (r: Result<seq<TaggedData>, LoadError>)
    ensures r == TaggedFrom(g, g.keys)
  {
    var keys := g.keys;
    var list: seq<TaggedData> := [];
    var k := 0;
    while k < |keys|
      invariant 0 <= k <= |keys|
      invariant TaggedFrom(g, keys[..k]) == Ok(list)
    {
      TaggedFromSnoc(g, keys, k);
      var nameStr := keys[k];
      var iterList := if nameStr in g.lists then g.lists[nameStr] else [];
      var pl := GroupPeriods(iterList);
      if pl.Err? {
        TaggedFromAbort(g, keys, k + 1);
        return Err(pl.error);
      }
      var sorted := SortByFirst(pl.value);
      if sorted.Err? {
        TaggedFromAbort(g, keys, k + 1);
        return Err(sorted.error);
      }
      list := list + [TaggedData(Split(nameStr, '_'), sorted.value)];
      k := k + 1;
    }
    assert keys[..k] == keys;
    r := Ok(list);
  }

  /** The old `load_logs_from_folder`, over the directory listing. */
  method OldLoadLogsFromFolder(files: seq<FileEntry>) returns (r: Result<seq<TaggedData>, LoadError>, numLoaded: nat)
    ensures numLoaded == |Collected(files)|
    ensures r == OldLoadFolder(files)
  {
    var loaded;
    loaded, numLoaded := Collect(files);
    var groups := GroupIterations(SortedLoaded(loaded));
    if groups.Err? {
      return Err(groups.error), numLoaded;
    }
    r := BuildTagged(groups.value);
  }
}
