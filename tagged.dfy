/**
 * The query side of both loaders: a `TaggedData` is one configuration (its tag
 * list and, per iteration, the list of its periods); a `TaggedDataList` is
 * filtered by tags.
 */
module Tagged {
  import opened Wrappers
  import opened Periods

  datatype TaggedData = TaggedData(tags: seq<string>, periods: seq<seq<LogPeriod>>)

  /** `_periods[iteration]` with an index outside [-n, n). */
  datatype QueryError = IterationOutOfRange

  /** Every string of `check` occurs in `tags`. */
  ghost predicate Covers(tags: seq<string>, check: seq<string>) {
    forall c :: c in check ==> c in tags
  }

  /** `has_tags`: the loop returns False at the first tag to check that is missing. */
  function HasTags(td: TaggedData, check: seq<string>): (b: bool)
    ensures b <==> Covers(td.tags, check)
  {
    if check == [] then true
    else if check[0] !in td.tags then false
    else HasTags(td, check[1..])
  }

  /** Python list indexing: negative indices count from the end. */
  function PyIndex(n: nat, i: int): (k: Option<nat>)
    ensures k.Some? <==> -(n as int) <= i < n
    ensures k.Some? ==> k.value < n && (k.value == i || k.value == n + i)
  {
    if 0 <= i < n then Some(i)
    else if -(n as int) <= i < 0 then Some(n + i)
    else None
  }

  /** The index of the first period of `ps` named `name`. */
  function FirstNamed(ps: seq<LogPeriod>, name: string): (k: Option<nat>)
    ensures k.Some? ==> k.value < |ps| && ps[k.value].name == name
    ensures k.Some? ==> forall j :: 0 <= j < k.value ==> ps[j].name != name
    ensures k.None? ==> forall j :: 0 <= j < |ps| ==> ps[j].name != name
  {
    if ps == [] then None
    else if ps[0].name == name then Some(0)
    else match FirstNamed(ps[1..], name)
      case Some(k) => Some(k + 1)
      case None => None
  }

  /** `period(name, iteration)`: the first period of that name in that iteration,
      `None` without one, an error for an iteration that does not exist. */
  function Period(td: TaggedData, name: string, iteration: int): (r: Result<Option<LogPeriod>, QueryError>)
    ensures r.Err? <==> !(-|td.periods| <= iteration < |td.periods|)
    ensures r.Ok? ==> var k := if iteration >= 0 then iteration else |td.periods| + iteration;
      && 0 <= k < |td.periods|
      && (r.value.Some? ==> exists j :: (&& 0 <= j < |td.periods[k]| && r.value.value == td.periods[k][j]
                                         && r.value.value.name == name
                                         && forall j' :: 0 <= j' < j ==> td.periods[k][j'].name != name))
      && (r.value.None? <==> forall j :: 0 <= j < |td.periods[k]| ==> td.periods[k][j].name != name)
  {
    match PyIndex(|td.periods|, iteration)
    case None => Err(IterationOutOfRange)
    case Some(k) =>
      match FirstNamed(td.periods[k], name)
      case Some(j) => Ok(Some(td.periods[k][j]))
      case None => Ok(None)
  }

  /** `with_tags`: the configurations that carry every given tag, in list order. */
  function WithTags(list: seq<TaggedData>, tags: seq<string>): (r: seq<TaggedData>)
    ensures |r| <= |list|
    ensures forall td :: td in r <==> td in list && HasTags(td, tags)
    decreases |list|
  {
    if list == [] then []
    else
      var last := list[|list| - 1];
      assert list == list[..|list| - 1] + [last];
      WithTags(list[..|list| - 1], tags) + (if HasTags(last, tags) then [last] else [])
  }

  /** `without_tags`: the configurations missing at least one given tag, in list order. */
  function WithoutTags(list: seq<TaggedData>, tags: seq<string>): (r: seq<TaggedData>)
    ensures |r| <= |list|
    ensures forall td :: td in r <==> td in list && !HasTags(td, tags)
    decreases |list|
  {
    if list == [] then []
    else
      var last := list[|list| - 1];
      assert list == list[..|list| - 1] + [last];
      WithoutTags(list[..|list| - 1], tags) + (if !HasTags(last, tags) then [last] else [])
  }

  /** `with_and_without_tags`: every tag of `tagsWith` and not every tag of `tagsWithout`. */
  function WithAndWithoutTags(list: seq<TaggedData>, tagsWith: seq<string>, tagsWithout: seq<string>): (r: seq<TaggedData>)
    ensures forall td :: td in r <==> td in list && HasTags(td, tagsWith) && !HasTags(td, tagsWithout)
    decreases |list|
  {
    if list == [] then []
    else
      var last := list[|list| - 1];
      assert list == list[..|list| - 1] + [last];
      WithAndWithoutTags(list[..|list| - 1], tagsWith, tagsWithout)
        + (if HasTags(last, tagsWith) && !HasTags(last, tagsWithout) then [last] else [])
  }

  /** The two filters split a list: together they keep every configuration exactly once. */
  lemma {:induction false} FiltersPartition(list: seq<TaggedData>, tags: seq<string>)
    ensures multiset(WithTags(list, tags)) + multiset(WithoutTags(list, tags)) == multiset(list)
    ensures |WithTags(list, tags)| + |WithoutTags(list, tags)| == |list|
    decreases |list|
  {
    if list != [] {
      var init := list[..|list| - 1];
      var last := list[|list| - 1];
      FiltersPartition(init, tags);
      assert list == init + [last];
      WithTagsSnoc(init, last, tags);
      WithoutTagsSnoc(init, last, tags);
      PartitionStep(WithTags(init, tags), WithoutTags(init, tags), init, last, HasTags(last, tags));
    }
  }

  lemma PartitionStep(w: seq<TaggedData>, wo: seq<TaggedData>, init: seq<TaggedData>, last: TaggedData, keep: bool)
    requires multiset(w) + multiset(wo) == multiset(init)
    ensures multiset(w + (if keep then [last] else [])) + multiset(wo + (if !keep then [last] else []))
      == multiset(init + [last])
  {
  }

  /** The combined filter is the two single filters applied one after the other. */
  lemma {:induction false} WithAndWithoutIsComposition(list: seq<TaggedData>, tagsWith: seq<string>, tagsWithout: seq<string>)
    ensures WithAndWithoutTags(list, tagsWith, tagsWithout) == WithTags(WithoutTags(list, tagsWithout), tagsWith)
    decreases |list|
  {
    if list != [] {
      var init := list[..|list| - 1];
      var last := list[|list| - 1];
      WithAndWithoutIsComposition(init, tagsWith, tagsWithout);
      var wo := WithoutTags(init, tagsWithout);
      var hasWith := HasTags(last, tagsWith);
      var hasWithout := HasTags(last, tagsWithout);
      assert WithAndWithoutTags(list, tagsWith, tagsWithout)
        == WithAndWithoutTags(init, tagsWith, tagsWithout) + (if hasWith && !hasWithout then [last] else []);
      assert WithoutTags(list, tagsWithout) == wo + (if !hasWithout then [last] else []);
      if !hasWithout {
        WithTagsSnoc(wo, last, tagsWith);
        assert WithTags(wo + [last], tagsWith) == WithTags(wo, tagsWith) + (if hasWith then [last] else []);
        assert WithAndWithoutTags(list, tagsWith, tagsWithout) == WithTags(WithoutTags(list, tagsWithout), tagsWith);
      } else {
        assert WithoutTags(list, tagsWithout) == wo;
        assert WithAndWithoutTags(list, tagsWith, tagsWithout) == WithAndWithoutTags(init, tagsWith, tagsWithout);
      }
    }
  }

  lemma WithoutTagsSnoc(list: seq<TaggedData>, last: TaggedData, tags: seq<string>)
    ensures WithoutTags(list + [last], tags) == WithoutTags(list, tags) + (if !HasTags(last, tags) then [last] else [])
  {
    assert (list + [last])[..|list|] == list;
  }

  lemma WithTagsSnoc(list: seq<TaggedData>, last: TaggedData, tags: seq<string>)
    ensures WithTags(list + [last], tags) == WithTags(list, tags) + (if HasTags(last, tags) then [last] else [])
  {
    assert (list + [last])[..|list|] == list;
  }

  /** Every configuration covers the empty tag list, so an empty `tagsWithout`
      rejects everything. */
  lemma {:induction false} WithoutNoTagsIsEmpty(list: seq<TaggedData>, tagsWith: seq<string>)
    ensures WithAndWithoutTags(list, tagsWith, []) == []
    decreases |list|
  {
    if list != [] {
      WithoutNoTagsIsEmpty(list[..|list| - 1], tagsWith);
      assert HasTags(list[|list| - 1], []);
    }
  }

  /** Filtering by no tags keeps the whole list. */
  lemma {:induction false} WithNoTags(list: seq<TaggedData>)
    ensures WithTags(list, []) == list
    decreases |list|
  {
    if list != [] {
      WithNoTags(list[..|list| - 1]);
      assert list == list[..|list| - 1] + [list[|list| - 1]];
    }
  }
}
