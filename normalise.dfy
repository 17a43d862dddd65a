/** The normalisation loop, which turns the ordered page ids into content items,
    and the classifier pass, which picks allPages and counts postCount. */
module Normalise {

  import opened Optional
  import opened NotionRecords
  import opened Sorting
  import opened Selection

  /** The item produced for one page id: nothing when the id has no block value,
      otherwise whatever the property extractor returns. The ensures only unfold
      the body for callers; what extraction contributes to collectionData is
      stated by CollectionDataIsSubsequence. */
  function Extracted(id: string, block: BlockMap, co: Collaborators,
                     schema: Option<Schema>, tagOptions: Option<OptionsResult>): (r: Option<ContentItem>)
    ensures ValueOf(block, id).None? ==> r.None?
    ensures ValueOf(block, id).Some? ==> r == co.pageProperties(id, block, schema, tagOptions)
  {
    if ValueOf(block, id).None? then None else co.pageProperties(id, block, schema, tagOptions)
  }

  /** collectionData: the extracted items of the page ids, in id order. */
  function CollectionData(ids: seq<string>, block: BlockMap, co: Collaborators,
                          schema: Option<Schema>, tagOptions: Option<OptionsResult>): seq<ContentItem>
  {
    if ids == [] then []
    else
      var last := Extracted(ids[|ids| - 1], block, co, schema, tagOptions);
      CollectionData(ids[..|ids| - 1], block, co, schema, tagOptions)
        + (if last.Some? then [last.value] else [])
  }

  /** The positions of the page ids that yield an item, in increasing order. */
  function Kept(ids: seq<string>, block: BlockMap, co: Collaborators,
                schema: Option<Schema>, tagOptions: Option<OptionsResult>): seq<nat>
  {
    if ids == [] then []
    else
      Kept(ids[..|ids| - 1], block, co, schema, tagOptions)
        + (if Extracted(ids[|ids| - 1], block, co, schema, tagOptions).Some? then [|ids| - 1] else [])
  }

  /** collectionData is a subsequence of the page ids' items: its k-th element is the
      item of the id at the k-th kept position, the kept positions increase, and a
      position is kept exactly when its id has a block value and a property record. */
  lemma {:induction false} CollectionDataIsSubsequence(ids: seq<string>, block: BlockMap, co: Collaborators,
                                                      schema: Option<Schema>, tagOptions: Option<OptionsResult>)
    ensures var data, kept := CollectionData(ids, block, co, schema, tagOptions), Kept(ids, block, co, schema, tagOptions);
      && |kept| == |data| <= |ids|
      && (forall k :: 0 <= k < |kept| ==>
            kept[k] < |ids| && Extracted(ids[kept[k]], block, co, schema, tagOptions) == Some(data[k]))
      && (forall k, l :: 0 <= k < l < |kept| ==> kept[k] < kept[l])
      && (forall i :: 0 <= i < |ids| ==>
            (i in kept <==> ValueOf(block, ids[i]).Some? && co.pageProperties(ids[i], block, schema, tagOptions).Some?))
  {
    if ids != [] {
      var init := ids[..|ids| - 1];
      CollectionDataIsSubsequence(init, block, co, schema, tagOptions);
      var kept0 := Kept(init, block, co, schema, tagOptions);
      var kept := Kept(ids, block, co, schema, tagOptions);
      forall i | 0 <= i < |ids|
        ensures i in kept <==> ValueOf(block, ids[i]).Some? && co.pageProperties(ids[i], block, schema, tagOptions).Some?
      {
        if i < |ids| - 1 {
          assert ids[i] == init[i];
          assert i in kept <==> i in kept0;
        }
      }
    }
  }

  /** The loop of lines 597-614 (and 772-791): walks the ids in order and pushes
      every item the extractor returns for an id with a block value. */
  method CollectPages(ids: seq<string>, block: BlockMap, co: Collaborators,
                      schema: Option<Schema>, tagOptions: Option<OptionsResult>) returns (data: seq<ContentItem>)
    ensures data == CollectionData(ids, block, co, schema, tagOptions)
  {
    data := [];
    var i := 0;
    while i < |ids|
      invariant 0 <= i <= |ids|
      invariant data == CollectionData(ids[..i], block, co, schema, tagOptions)
    {
      var id := ids[i];
      var value := ValueOf(block, id);
      assert ids[..i + 1][..i] == ids[..i];
      if value.None? {
        i := i + 1;
        continue;
      }
      var properties := co.pageProperties(id, block, schema, tagOptions);
      if properties.Some? {
        data := data + [properties.value];
      }
      i := i + 1;
    }
    assert ids[..|ids|] == ids;
  }

  /** The id-only variant's collectionData: the content posts among the items the
      extractor returns without schema or tag options. */
  function PostIdsData(ids: seq<string>, block: BlockMap, co: Collaborators): seq<ContentItem> {
    Filter(CollectionData(ids, block, co, None, None), Post)
  }

  /** The loop of lines 521-541: like CollectPages, but an item is pushed only when it
      is a Published content post. */
  method CollectPostIds(ids: seq<string>, block: BlockMap, co: Collaborators) returns (data: seq<ContentItem>)
    ensures data == PostIdsData(ids, block, co)
  {
    data := [];
    var i := 0;
    while i < |ids|
      invariant 0 <= i <= |ids|
      invariant data == Filter(CollectionData(ids[..i], block, co, None, None), Post)
    {
      var id := ids[i];
      var value := ValueOf(block, id);
      assert ids[..i + 1][..i] == ids[..i];
      if value.None? {
        assert CollectionData(ids[..i + 1], block, co, None, None) == CollectionData(ids[..i], block, co, None, None);
        i := i + 1;
        continue;
      }
      var properties := co.pageProperties(id, block, None, None);
      assert Extracted(id, block, co, None, None) == properties;
      if properties.Some? {
        var p := properties.value;
        assert CollectionData(ids[..i + 1], block, co, None, None) == CollectionData(ids[..i], block, co, None, None) + [p];
        FilterSnoc(CollectionData(ids[..i], block, co, None, None), p, Post);
        if !IsNonPostType(p.kind) && p.status == Published {
          data := data + [p];
        }
      } else {
        assert CollectionData(ids[..i + 1], block, co, None, None) == CollectionData(ids[..i], block, co, None, None);
      }
      i := i + 1;
    }
    assert ids[..|ids|] == ids;
  }

  /** The id-only variant keeps exactly the content posts the full variant would collect. */
  lemma PostIdsDataSpec(ids: seq<string>, block: BlockMap, co: Collaborators)
    ensures |PostIdsData(ids, block, co)| <= |ids|
    ensures forall p :: p in PostIdsData(ids, block, co) <==>
      p in CollectionData(ids, block, co, None, None) && !IsNonPostType(p.kind) && p.status == Published
  {
    CollectionDataIsSubsequence(ids, block, co, None, None);
    FilterSelects(CollectionData(ids, block, co, None, None), Post);
  }

  /** allPages before and after the optional sort by publishDate. */
  function AllPages(data: seq<ContentItem>, sortByDate: bool): seq<ContentItem> {
    if sortByDate then SortDesc(Filter(data, PublicPage), ByPublishDate) else Filter(data, PublicPage)
  }

  /** allPages holds exactly the public items of collectionData, each as often as
      there; unsorted it is their filter in order, sorted it is non-increasing by
      publishDate and items with the same date keep their order. */
  lemma AllPagesSpec(data: seq<ContentItem>, sortByDate: bool)
    ensures multiset(AllPages(data, sortByDate)) == multiset(Filter(data, PublicPage))
    ensures forall p :: p in AllPages(data, sortByDate) <==> p in data && Selects(PublicPage, p)
    ensures !sortByDate ==> AllPages(data, sortByDate) == Filter(data, PublicPage)
    ensures sortByDate ==> NonIncreasing(AllPages(data, sortByDate), ByPublishDate)
    ensures sortByDate ==> forall v :: WithKey(AllPages(data, sortByDate), ByPublishDate, v)
                                       == WithKey(Filter(data, PublicPage), ByPublishDate, v)
  {
    var pages := Filter(data, PublicPage);
    FilterSelects(data, PublicPage);
    if sortByDate {
      SortDescPermutes(pages, ByPublishDate);
      SortDescOrdered(pages, ByPublishDate);
      forall v ensures WithKey(SortDesc(pages, ByPublishDate), ByPublishDate, v) == WithKey(pages, ByPublishDate, v) {
        SortDescStable(pages, ByPublishDate, v);
      }
      forall p ensures p in SortDesc(pages, ByPublishDate) <==> p in pages {
        assert p in multiset(SortDesc(pages, ByPublishDate)) <==> p in multiset(pages);
      }
    }
  }

  /** postCount of the full variant. */
  function PostCount(data: seq<ContentItem>, kind: string): nat {
    |Filter(data, CountedFor(kind))|
  }

  /** The per-type branches of the side-count: the four named types count their own
      Published items, "Page" counts Published GuestBook items, every other type
      counts all of collectionData. */
  lemma PostCountCases(data: seq<ContentItem>, kind: string)
    ensures kind in {"Record", "Devproject", "Engineering", "GuestBook"} ==>
      PostCount(data, kind) == |Filter(data, PublishedOf(kind))|
    ensures kind == "Page" ==> PostCount(data, kind) == |Filter(data, PublishedOf("GuestBook"))|
    ensures kind !in {"Record", "Devproject", "Engineering", "GuestBook", "Page"} ==>
      PostCount(data, kind) == |data|
  {
    if kind in {"Record", "Devproject", "Engineering", "GuestBook"} {
      FilterEquivalent(data, CountedFor(kind), PublishedOf(kind));
    } else if kind == "Page" {
      FilterEquivalent(data, CountedFor(kind), PublishedOf("GuestBook"));
    } else {
      FilterEverything(data, CountedFor(kind));
    }
  }

  /** The filter pass of lines 617-658: one walk over collectionData that counts
      postCount as a side effect and keeps the public items, then the optional sort. */
  method Classify(data: seq<ContentItem>, kind: string, sortByDate: bool)
    returns (allPages: seq<ContentItem>, postCount: nat)
    ensures allPages == AllPages(data, sortByDate)
    ensures postCount == PostCount(data, kind)
  {
    postCount := 0;
    allPages := [];
    var i := 0;
    while i < |data|
      invariant 0 <= i <= |data|
      invariant postCount == |Filter(data[..i], CountedFor(kind))|
      invariant allPages == Filter(data[..i], PublicPage)
    {
      var post := data[i];
      assert data[..i + 1] == data[..i] + [post];
      FilterSnoc(data[..i], post, CountedFor(kind));
      FilterSnoc(data[..i], post, PublicPage);
      if kind == "Record" {
        if post.kind == "Record" && post.status == Published {
          postCount := postCount + 1;
        }
      } else if kind == "Devproject" {
        if post.kind == "Devproject" && post.status == Published {
          postCount := postCount + 1;
        }
      } else if kind == "Engineering" {
        if post.kind == "Engineering" && post.status == Published {
          postCount := postCount + 1;
        }
      } else if kind == "GuestBook" {
        if post.kind == "GuestBook" && post.status == Published {
          postCount := postCount + 1;
        }
      } else if kind == "Page" {
        if post.kind == "GuestBook" && post.status == Published {
          postCount := postCount + 1;
        }
      } else {
        postCount := postCount + 1;
      }
      if post.slug != "" && !JsSemantics.StartsWith(post.slug, "http")
         && (post.status == Invisible || post.status == Published) {
        allPages := allPages + [post];
      }
      i := i + 1;
    }
    assert data[..|data|] == data;
    if sortByDate {
      allPages := Sorted(allPages, ByPublishDate);
    }
  }

  /** allPages of the one-record variant. */
  function RecordPages(data: seq<ContentItem>, kind: string, sortByDate: bool): seq<ContentItem> {
    if sortByDate then SortDesc(Filter(data, RecordPage(kind)), ByPublishDate) else Filter(data, RecordPage(kind))
  }

  /** The one-record variant lists only Published items of the requested type with an
      internal slug, and counts every Published item of that type, so the list is
      never longer than the count. The list is a permutation of those items: in
      collectionData order without the date sort, and with it non-increasing by
      publishDate and stable. */
  lemma RecordPagesSpec(data: seq<ContentItem>, kind: string, sortByDate: bool)
    ensures forall p :: p in RecordPages(data, kind, sortByDate) <==>
      p in data && p.kind == kind && p.status == Published && Selection.IsInternalSlug(p.slug)
    ensures |RecordPages(data, kind, sortByDate)| <= |Filter(data, PublishedOf(kind))|
    ensures multiset(RecordPages(data, kind, sortByDate)) == multiset(Filter(data, RecordPage(kind)))
    ensures !sortByDate ==> RecordPages(data, kind, sortByDate) == Filter(data, RecordPage(kind))
    ensures sortByDate ==> NonIncreasing(RecordPages(data, kind, sortByDate), ByPublishDate)
    ensures sortByDate ==> forall v :: WithKey(RecordPages(data, kind, sortByDate), ByPublishDate, v)
                                       == WithKey(Filter(data, RecordPage(kind)), ByPublishDate, v)
  {
    var pages := Filter(data, RecordPage(kind));
    FilterSelects(data, RecordPage(kind));
    FilterNarrower(data, RecordPage(kind), PublishedOf(kind));
    if sortByDate {
      SortDescPermutes(pages, ByPublishDate);
      SortDescOrdered(pages, ByPublishDate);
      forall v ensures WithKey(SortDesc(pages, ByPublishDate), ByPublishDate, v) == WithKey(pages, ByPublishDate, v) {
        SortDescStable(pages, ByPublishDate, v);
      }
      forall p ensures p in SortDesc(pages, ByPublishDate) <==> p in pages {
        assert p in multiset(SortDesc(pages, ByPublishDate)) <==> p in multiset(pages);
      }
    }
  }

  /** The filter pass of lines 794-820: counts the Published items of the requested
      type and keeps those with an internal slug, then the optional sort. */
  method ClassifyOne(data: seq<ContentItem>, kind: string, sortByDate: bool)
    returns (allPages: seq<ContentItem>, postCount: nat)
    ensures allPages == RecordPages(data, kind, sortByDate)
    ensures postCount == |Filter(data, PublishedOf(kind))|
  {
    postCount := 0;
    allPages := [];
    var i := 0;
    while i < |data|
      invariant 0 <= i <= |data|
      invariant postCount == |Filter(data[..i], PublishedOf(kind))|
      invariant allPages == Filter(data[..i], RecordPage(kind))
    {
      var post := data[i];
      assert data[..i + 1] == data[..i] + [post];
      FilterSnoc(data[..i], post, PublishedOf(kind));
      FilterSnoc(data[..i], post, RecordPage(kind));
      if post.kind == kind && post.status == Published {
        postCount := postCount + 1;
      }
      if post.slug != "" && post.kind == kind && !JsSemantics.StartsWith(post.slug, "http")
         && post.status == Published {
        allPages := allPages + [post];
      }
      i := i + 1;
    }
    assert data[..|data|] == data;
    if sortByDate {
      allPages := Sorted(allPages, ByPublishDate);
    }
  }
}
