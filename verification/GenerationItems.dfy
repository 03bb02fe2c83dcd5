// The items of one generation, slice by slice.
module GenerationItems {
  import opened Wrappers
  import opened Records
  import opened Sorting
  import opened ScanResolution
  import opened ScanAssembly

  // Item identifiers start with the name of their slice.
  function Prefix(k: nat): string
    requires k < |SLICES|
  {
    ["omarchy:", "arch:", "aur:", "flatpak:user:", "flatpak:system:", "mise:", "security:", "cisa-kev:"][k]
  }

  // The two security feeds contribute no items.
  predicate InSlice(item: NormalizedItem, k: nat)
    requires k < |SLICES|
  {
    && k < 6
    && item.source == [ItemSource.Omarchy, ItemSource.Arch, ItemSource.Aur, ItemSource.Flatpak, ItemSource.Flatpak,
                       ItemSource.Mise][k]
    && Prefix(k) <= item.itemId
  }

  lemma BelongsToOwn(item: NormalizedItem, k: nat)
    requires k < |SLICES| && InSlice(item, k)
    ensures BelongsTo(item, SLICES[k])
  {
  }

  // Items a slice may contribute: its own, with different identifiers.
  predicate Part(items: seq<NormalizedItem>, k: nat)
    requires k < |SLICES|
  {
    UniqueIds(items) && forall item :: item in items ==> InSlice(item, k)
  }

  lemma BelongsToOne(item: NormalizedItem, j: nat, k: nat)
    requires j < |SLICES| && k < |SLICES|
    requires InSlice(item, j) && BelongsTo(item, SLICES[k])
    ensures j == k
  {
    assert Prefix(3)[8] == 'u' && Prefix(4)[8] == 's';
    assert j == 3 || k == 3 ==> Prefix(3) <= item.itemId && item.itemId[8] == 'u';
    assert j == 4 || k == 4 ==> Prefix(4) <= item.itemId && item.itemId[8] == 's';
  }

  lemma PrefixesDiffer(a: NormalizedItem, b: NormalizedItem, j: nat, k: nat)
    requires j < k < |SLICES|
    requires InSlice(a, j) && InSlice(b, k)
    ensures a.itemId != b.itemId
  {
    assert a.itemId[0] == Prefix(j)[0] && a.itemId[1] == Prefix(j)[1];
    assert b.itemId[0] == Prefix(k)[0] && b.itemId[1] == Prefix(k)[1];
    if j == 3 && k == 4 {
      assert a.itemId[8] == Prefix(3)[8];
      assert b.itemId[8] == Prefix(4)[8];
    }
  }

  // Identifiers

  function Ids(items: seq<NormalizedItem>): seq<string> {
    Map((item: NormalizedItem) => item.itemId, items)
  }

  lemma UniqueIdsDistinct(items: seq<NormalizedItem>)
    ensures UniqueIds(items) <==> Distinct(Ids(items))
  {
    var ids := Ids(items);
    assert forall i :: 0 <= i < |items| ==> ids[i] == items[i].itemId;
  }

  lemma {:induction false} UniqueIdsFilter(p: NormalizedItem -> bool, items: seq<NormalizedItem>)
    requires UniqueIds(items)
    ensures UniqueIds(Filter(p, items))
  {
    if items != [] {
      UniqueIdsFilter(p, items[1..]);
      var rest := Filter(p, items[1..]);
      forall j | 0 <= j < |rest|
        ensures rest[j].itemId != items[0].itemId
      {
        assert rest[j] in items[1..];
      }
    }
  }

  lemma ByIdPreorder()
    ensures TotalPreorder(ById)
  {
    forall a: NormalizedItem, b: NormalizedItem
      ensures ById(a, b) || ById(b, a)
    {
      StringLeTotal(a.itemId, b.itemId);
    }
    forall a: NormalizedItem, b: NormalizedItem, c: NormalizedItem | ById(a, b) && ById(b, c)
      ensures ById(a, c)
    {
      StringLeTransitive(a.itemId, b.itemId, c.itemId);
    }
  }

  lemma SortKeepsUniqueIds(items: seq<NormalizedItem>)
    requires UniqueIds(items)
    ensures UniqueIds(Sort(items, ById))
  {
    UniqueIdsDistinct(items);
    SortMap((item: NormalizedItem) => item.itemId, items, ById, ByText);
    SortDistinct(Ids(items), ByText);
    UniqueIdsDistinct(Sort(items, ById));
  }

  // What normalisation makes of the items of one slice

  function Refresh(sha: Sha256, items: seq<NormalizedItem>): seq<NormalizedItem> {
    Sort(Collected(sha, items), ById)
  }

  lemma CollectedSort(sha: Sha256, items: seq<NormalizedItem>)
    ensures Collected(sha, Sort(items, ById)) == Sort(Collected(sha, items), ById)
  {
    ByIdPreorder();
    FilterSort(NotSystem, items, ById);
    SortMap(Stamp(sha), Filter(NotSystem, items), ById, ById);
  }

  lemma FilterMarked(items: seq<NormalizedItem>)
    ensures Filter(NotSystem, Marked(items)) == Marked(Filter(NotSystem, items))
  {
    FilterMap(NotSystem, NotSystem, MarkLastGood, items);
  }

  lemma CollectedAgain(sha: Sha256, items: seq<NormalizedItem>)
    ensures Filter(NotSystem, Collected(sha, items)) == Collected(sha, items)
  {
    forall item | item in Collected(sha, items)
      ensures NotSystem(item)
    {
      var i :| 0 <= i < |Collected(sha, items)| && Collected(sha, items)[i] == item;
      assert Filter(NotSystem, items)[i] in Filter(NotSystem, items);
    }
    FilterAll(NotSystem, Collected(sha, items));
  }

  lemma CollectedMarkedCollected(sha: Sha256, items: seq<NormalizedItem>)
    ensures Collected(sha, Marked(Collected(sha, items))) == Collected(sha, Marked(items))
  {
    FilterMarked(items);
    FilterMarked(Collected(sha, items));
    CollectedAgain(sha, items);
  }

  // Re-reading refreshed items as last good ones changes nothing but their provenance.
  lemma RefreshAgain(sha: Sha256, items: seq<NormalizedItem>)
    ensures Refresh(sha, Marked(Refresh(sha, items))) == Refresh(sha, Marked(items))
  {
    var c := Collected(sha, items);
    SortMap(MarkLastGood, c, ById, ById);
    CollectedSort(sha, Marked(c));
    CollectedMarkedCollected(sha, items);
    var r := Collected(sha, Marked(items));
    assert Collected(sha, Marked(Refresh(sha, items))) == Sort(r, ById);
    ByIdPreorder();
    SortSorted(r, ById);
    SortOfSorted(Sort(r, ById), ById);
  }

  lemma MarkedTwice(items: seq<NormalizedItem>)
    ensures Marked(Marked(items)) == Marked(items)
  {
  }

  // Every collected item is one of the items, under the same identifier and source.
  lemma CollectedOrigin(sha: Sha256, items: seq<NormalizedItem>, item: NormalizedItem)
    requires item in Collected(sha, items)
    ensures exists o :: o in items && o.itemId == item.itemId && o.source == item.source && o.provenance == item.provenance
  {
    var i :| 0 <= i < |Collected(sha, items)| && Collected(sha, items)[i] == item;
    var kept := Filter(NotSystem, items);
    assert kept[i] in kept;
  }

  // All slices together

  ghost predicate Parts(resolved: seq<ResolvedOutcome>, from: nat) {
    from + |resolved| == |SLICES| && forall k :: 0 <= k < |resolved| ==> Part(resolved[k].items, from + k)
  }

  lemma {:induction false} AllItemsUnique(resolved: seq<ResolvedOutcome>, from: nat)
    requires Parts(resolved, from)
    ensures UniqueIds(AllItems(resolved))
    ensures forall item :: item in AllItems(resolved) ==> exists k :: from <= k < |SLICES| && InSlice(item, k)
    decreases |resolved|
  {
    if resolved != [] {
      AllItemsUnique(resolved[1..], from + 1);
      var own, rest := resolved[0].items, AllItems(resolved[1..]);
      assert Part(own, from);
      forall i, j | 0 <= i < |own| && 0 <= j < |rest|
        ensures own[i].itemId != rest[j].itemId
      {
        assert own[i] in own && rest[j] in rest;
        var k :| from + 1 <= k < |SLICES| && InSlice(rest[j], k);
        PrefixesDiffer(own[i], rest[j], from, k);
      }
    }
  }

  lemma PartOfSlice(items: seq<NormalizedItem>, j: nat, k: nat)
    requires j < |SLICES| && k < |SLICES| && Part(items, j)
    ensures Filter(Belonging(SLICES[k]), items) == if j == k then items else []
  {
    var p := Belonging(SLICES[k]);
    forall item | item in items
      ensures p(item) <==> j == k
    {
      BelongsToOwn(item, j);
      if p(item) {
        BelongsToOne(item, j, k);
      }
    }
    if j == k {
      FilterAll(p, items);
    } else {
      FilterNone(p, items);
    }
  }

  lemma {:induction false} AllItemsOfSlice(resolved: seq<ResolvedOutcome>, from: nat, k: nat)
    requires Parts(resolved, from) && k < |SLICES|
    ensures Filter(Belonging(SLICES[k]), AllItems(resolved)) == if k < from then [] else resolved[k - from].items
    decreases |resolved|
  {
    if resolved != [] {
      assert Part(resolved[0].items, from);
      AllItemsOfSlice(resolved[1..], from + 1, k);
      FilterConcat(Belonging(SLICES[k]), resolved[0].items, AllItems(resolved[1..]));
      PartOfSlice(resolved[0].items, from, k);
    }
  }

  ghost predicate StrictlySorted(items: seq<NormalizedItem>) {
    UniqueIds(items) && Sorted(items, ById)
  }

  ghost predicate AllInSlices(items: seq<NormalizedItem>) {
    forall item :: item in items ==> exists k :: 0 <= k < |SLICES| && InSlice(item, k)
  }

  lemma CollectedOfSlice(sha: Sha256, items: seq<NormalizedItem>, slice: Slice)
    ensures Filter(Belonging(slice), Collected(sha, items)) == Collected(sha, Filter(Belonging(slice), items))
  {
    var p := Belonging(slice);
    FilterMap(p, p, Stamp(sha), Filter(NotSystem, items));
    FilterSwap(p, NotSystem, items);
  }

  lemma RefreshOfSlice(sha: Sha256, items: seq<NormalizedItem>, slice: Slice)
    ensures Filter(Belonging(slice), Refresh(sha, items)) == Refresh(sha, Filter(Belonging(slice), items))
  {
    ByIdPreorder();
    FilterSort(Belonging(slice), Collected(sha, items), ById);
    CollectedOfSlice(sha, items, slice);
  }

  lemma CollectedUnique(sha: Sha256, items: seq<NormalizedItem>)
    requires UniqueIds(items)
    ensures UniqueIds(Collected(sha, items))
  {
    UniqueIdsFilter(NotSystem, items);
  }

  lemma RefreshInSlices(sha: Sha256, items: seq<NormalizedItem>)
    requires AllInSlices(items)
    ensures AllInSlices(Refresh(sha, items))
  {
    SortMembers(Collected(sha, items), ById);
    forall item | item in Collected(sha, items)
      ensures exists k :: 0 <= k < |SLICES| && InSlice(item, k)
    {
      CollectedOrigin(sha, items, item);
      var o :| o in items && o.itemId == item.itemId && o.source == item.source;
      var k :| 0 <= k < |SLICES| && InSlice(o, k);
      SameSlice(o, item, k);
    }
  }

  lemma SameSlice(a: NormalizedItem, b: NormalizedItem, k: nat)
    requires k < |SLICES| && InSlice(a, k) && a.itemId == b.itemId && a.source == b.source
    ensures InSlice(b, k)
  {
  }

  // When every slice contributes only its own items, normalisation finds no
  // duplicate and treats each slice on its own.
  lemma NormalizedBySlice(sha: Sha256, resolved: seq<ResolvedOutcome>)
    requires Parts(resolved, 0)
    ensures NormalizedItems(sha, resolved) == Ok(Refresh(sha, AllItems(resolved)))
    ensures StrictlySorted(Refresh(sha, AllItems(resolved)))
    ensures AllInSlices(Refresh(sha, AllItems(resolved)))
    ensures forall k :: 0 <= k < |SLICES| ==>
              Filter(Belonging(SLICES[k]), Refresh(sha, AllItems(resolved))) == Refresh(sha, resolved[k].items)
  {
    var all := AllItems(resolved);
    AllItemsUnique(resolved, 0);
    CollectedUnique(sha, all);
    SortKeepsUniqueIds(Collected(sha, all));
    ByIdPreorder();
    SortSorted(Collected(sha, all), ById);
    RefreshInSlices(sha, all);
    forall k | 0 <= k < |SLICES|
      ensures Filter(Belonging(SLICES[k]), Refresh(sha, all)) == Refresh(sha, resolved[k].items)
    {
      RefreshOfSlice(sha, all, SLICES[k]);
      AllItemsOfSlice(resolved, 0, k);
    }
  }

  ghost predicate KeptTwice(resolved: seq<ResolvedOutcome>) {
    !UniqueIds(Filter(NotSystem, AllItems(resolved)))
  }

  // Whatever the slices contribute, a scan is refused exactly when two of the items it
  // keeps have the same identifier.
  lemma RefusedIff(sha: Sha256, resolved: seq<ResolvedOutcome>)
    ensures NormalizedItems(sha, resolved).Err? <==> KeptTwice(resolved)
    ensures KeptTwice(resolved) ==> NormalizedItems(sha, resolved) == Err(DuplicateItemId)
  {
    var kept := Filter(NotSystem, AllItems(resolved));
    assert forall i :: 0 <= i < |kept| ==> Collected(sha, AllItems(resolved))[i].itemId == kept[i].itemId;
  }
}
