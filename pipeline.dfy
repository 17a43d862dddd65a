/** The three readers of a database (getDataBaseInfoByNotionAPI, its one-record
    variant and the id-only getDataBasePageIdsByNotionAPI), the EmptyData sentinel
    they return for a root that is not a database, and the sanitiser that strips
    the raw parts from a result before it is handed out. */
module Pipeline {

  import opened Optional
  import opened NotionRecords
  import opened Selection
  import opened Normalise
  import opened Navigation
  import opened Views

  /** The EmptyData object of lines 437-474; `{}` values are RawJson "{}". */
  datatype EmptyData = EmptyData(
    notice: Option<NoticeInfo>,
    siteInfo: SiteInfo,
    allPages: seq<ContentItem>,
    allNavPages: seq<NavPage>,
    collection: seq<CollectionRecord>,
    collectionQuery: RawJson,
    collectionId: Option<string>,
    collectionView: RawJson,
    viewIds: seq<string>,
    block: BlockMap,
    schema: Schema,
    tagOptions: seq<SelectOption>,
    categoryOptions: seq<SelectOption>,
    rawMetadata: RawJson,
    customNav: seq<NavLink>,
    customMenu: seq<MenuEntry>,
    postCount: nat,
    pageIds: seq<string>,
    latestPosts: seq<ContentItem>)

  /** The result object of getDataBaseInfoByNotionAPI (lines 693-716). */
  datatype PageData = PageData(
    notice: Option<NoticeInfo>,
    siteInfo: SiteInfo,
    allPages: seq<ContentItem>,
    allNavPages: seq<NavPage>,
    allNavPagesForGitBook: seq<NavPage>,
    collection: Collection,
    collectionQuery: RawJson,
    collectionId: Option<string>,
    collectionView: RawJson,
    viewIds: Option<seq<string>>,
    block: BlockMap,
    schema: Option<Schema>,
    tagOptions: seq<SelectOption>,
    categoryOptions: seq<SelectOption>,
    rawMetadata: BlockValue,
    customNav: seq<NavLink>,
    customMenu: seq<MenuEntry>,
    postCount: nat,
    pageIds: seq<string>,
    latestPosts: seq<ContentItem>,
    signedUrls: RawJson,
    previewImages: RawJson)

  /** What a reader resolves to: `{}` after a failed fetch, the sentinel, or one of
      the three result shapes. */
  datatype DbResult =
    | FetchFailed
    | Empty(empty: EmptyData)
    | Database(page: PageData)
    | Records(allPages: seq<ContentItem>, postCount: nat)
    | PostIds(collectionData: seq<ContentItem>)

  /** The number of latest posts the full reader asks for. */
  const LatestPostCount: nat := 6

  /** The slug of the placeholder item. */
  const PlaceholderSlug := "13a171332816461db29d50e9f575b00d"

  /** The title of the placeholder item, which names the page id it was made for. */
  function PlaceholderTitle(pageId: string): string {
    "Unable to get Notion data\U{FF0C}Please check Notion_ID\U{FF1A} \n current " + pageId
  }

  /** `EmptyData(pageId)`: one placeholder post, postCount 1, everything else empty.
      The placeholder's numeric id 1 is the string "1" here. */
  function MakeEmptyData(cfg: BlogConfig, pageId: string): EmptyData {
    var placeholder := ContentItem("1", "Post", Published, PlaceholderSlug, PlaceholderTitle(pageId),
                                   "", "", "", " ", "", None, 0, 0);
    EmptyData(None, Defaults(None, cfg), [placeholder], [], [], "{}", None, "{}", [], map[], [],
              [], [], "{}", [], [], 1, [], [])
  }

  /** The sentinel holds exactly one item, a Published Post whose title names the
      page id, counts one post, and has no page ids, links, menus or latest posts. */
  lemma EmptyDataSpec(cfg: BlogConfig, pageId: string)
    ensures var e := MakeEmptyData(cfg, pageId);
      && |e.allPages| == 1 && e.postCount == 1
      && e.allPages[0].status == Published && e.allPages[0].kind == "Post"
      && e.allPages[0].slug == PlaceholderSlug
      && PlaceholderTitle(pageId)[|PlaceholderTitle(pageId)| - |pageId|..] == pageId
      && e.allPages[0].title == PlaceholderTitle(pageId)
      && e.pageIds == [] && e.customNav == [] && e.customMenu == [] && e.latestPosts == []
      && e.notice.None? && e.siteInfo == Defaults(None, cfg)
  {
  }

  // ------------------------------------------------------------------
  // Reading the record map
  // ------------------------------------------------------------------

  /** `pageRecordMap.block || {}`. */
  function BlockOf(rm: RecordMap): BlockMap {
    if rm.block.Some? then rm.block.value else map[]
  }

  /** `Object.values(pageRecordMap.collection)[0]?.value || {}`. */
  function FirstCollection(rm: RecordMap): Collection {
    if |rm.collection| > 0 && rm.collection[0].value.Some? then rm.collection[0].value.value else EmptyCollection
  }

  /** The root check of lines 563-566: a page database or an inline database. */
  predicate IsDatabaseRoot(raw: Option<BlockValue>) {
    raw.Some? && (raw.value.kind == "collection_view_page" || raw.value.kind == "collection_view")
  }

  /** `getAllPageIds(collection_query, collection_id, collection_view, view_ids)`. */
  function PageIdsOfRoot(rm: RecordMap, root: BlockValue, co: Collaborators): seq<string> {
    co.allPageIds(rm.collectionQuery, root.collectionId, rm.collectionView, root.viewIds)
  }

  // ------------------------------------------------------------------
  // getDataBaseInfoByNotionAPI
  // ------------------------------------------------------------------

  /** getDataBaseInfoByNotionAPI (lines 552-717). `kind` is the requested type and
      `cfg.recordsSortBy == "date"` switches the sort on. A TypeError is a rejected
      promise. */
  function DatabaseInfo(pageId: string, from: string, kind: string, cfg: BlogConfig, co: Collaborators)
    : Completion<DbResult>
  {
    var fetched := co.postBlocks(pageId, from);
    if fetched.None? then Normal(FetchFailed)
    else
      var rm := fetched.value;
      var uuid := co.idToUuid(pageId);
      var block := BlockOf(rm);
      var raw := ValueOf(block, uuid);
      if !IsDatabaseRoot(raw) then Normal(Empty(MakeEmptyData(cfg, uuid)))
      else
        var collection := FirstCollection(rm);
        var siteInfo := SiteInfoOf(Some(collection), true, None, cfg, co);
        if siteInfo.TypeError? then TypeError
        else Normal(Database(AssemblePageData(rm, raw.value, block, collection, siteInfo.value, kind, cfg, co)))
  }

  /** Lines 577-716 of the full reader, once the root and the site information are known. */
  function AssemblePageData(rm: RecordMap, root: BlockValue, block: BlockMap, collection: Collection,
                            siteInfo: SiteInfo, kind: string, cfg: BlogConfig, co: Collaborators): PageData
  {
    var schema := collection.schema;
    var pageIds := PageIdsOfRoot(rm, root, co);
    var data := CollectionData(pageIds, block, co, schema, Some(TagOptions(schema, cfg)));
    var allPages := AllPages(data, cfg.recordsSortBy == "date");
    var navPages := NavPages(allPages);
    PageData(
      Notice(data, co), siteInfo, allPages, navPages, navPages,
      collection, rm.collectionQuery, root.collectionId, rm.collectionView, root.viewIds,
      block, schema,
      co.allTags(allPages, TagOptions(schema, cfg)),
      co.allCategories(allPages, CategoryOptions(schema, cfg)),
      root, NavLinks(Filter(data, PublishedOf("Page"))), MenuTree(cfg, MenuPages(data, cfg)),
      PostCount(data, kind), pageIds, LatestPosts(allPages, LatestPostCount),
      rm.signedUrls, rm.previewImages)
  }

  /** The reader as the source runs it: the collection loop, the classifier pass,
      getCustomNav and getCustomMenu as loops. */
  method FetchDatabaseInfo(pageId: string, from: string, kind: string, cfg: BlogConfig, co: Collaborators)
    returns (r: Completion<DbResult>)
    ensures r == DatabaseInfo(pageId, from, kind, cfg, co)
  {
    var fetched := co.postBlocks(pageId, from);
    if fetched.None? {
      return Normal(FetchFailed);
    }
    var rm := fetched.value;
    var uuid := co.idToUuid(pageId);
    var block := BlockOf(rm);
    var raw := ValueOf(block, uuid);
    if !IsDatabaseRoot(raw) {
      return Normal(Empty(MakeEmptyData(cfg, uuid)));
    }
    var collection := FirstCollection(rm);
    var siteInfo := SiteInfoOf(Some(collection), true, None, cfg, co);
    if siteInfo.TypeError? {
      return TypeError;
    }
    var schema := collection.schema;
    var pageIds := PageIdsOfRoot(rm, raw.value, co);
    var data := CollectPages(pageIds, block, co, schema, Some(TagOptions(schema, cfg)));
    var allPages, postCount := Classify(data, kind, cfg.recordsSortBy == "date");
    var notice := Notice(data, co);
    var categoryOptions := co.allCategories(allPages, CategoryOptions(schema, cfg));
    var tagOptions := co.allTags(allPages, TagOptions(schema, cfg));
    var customNav := CustomNav(Filter(data, PublishedOf("Page")));
    assert customNav == NavLinks(Filter(data, PublishedOf("Page")));
    var customMenu := CustomMenu(data, cfg);
    var latestPosts := LatestPosts(allPages, LatestPostCount);
    var allNavPages := NavPages(allPages);
    var allNavPagesForGitBook := NavPages(allPages);
    r := Normal(Database(PageData(
      notice, siteInfo.value, allPages, allNavPages, allNavPagesForGitBook,
      collection, rm.collectionQuery, raw.value.collectionId, rm.collectionView, raw.value.viewIds,
      block, schema, tagOptions, categoryOptions, raw.value, customNav, customMenu,
      postCount, pageIds, latestPosts, rm.signedUrls, rm.previewImages)));
  }

  /** Every public item of collectionData is the property record of one of the
      page ids, for an id that has a block value. */
  lemma PublicPagesFromIds(ids: seq<string>, block: BlockMap, co: Collaborators,
                           schema: Option<Schema>, tags: Option<OptionsResult>, sortByDate: bool)
    ensures forall p :: p in AllPages(CollectionData(ids, block, co, schema, tags), sortByDate) ==>
      && Selects(PublicPage, p)
      && exists i :: 0 <= i < |ids| && ValueOf(block, ids[i]).Some? && co.pageProperties(ids[i], block, schema, tags) == Some(p)
  {
    var data := CollectionData(ids, block, co, schema, tags);
    CollectionDataIsSubsequence(ids, block, co, schema, tags);
    var kept := Kept(ids, block, co, schema, tags);
    AllPagesSpec(data, sortByDate);
    forall p | p in AllPages(data, sortByDate)
      ensures exists i :: 0 <= i < |ids| && ValueOf(block, ids[i]).Some? && co.pageProperties(ids[i], block, schema, tags) == Some(p)
    {
      var k :| 0 <= k < |data| && data[k] == p;
      assert Extracted(ids[kept[k]], block, co, schema, tags) == Some(p);
    }
  }

  /** A page data object counts at most one post per page id, lists at most one
      page per page id, each of them public and the record of one of the ids, and
      at most six latest posts; both navigation lists are the same. */
  lemma AssemblePageDataSpec(rm: RecordMap, root: BlockValue, block: BlockMap, collection: Collection,
                             siteInfo: SiteInfo, kind: string, cfg: BlogConfig, co: Collaborators)
    ensures var d := AssemblePageData(rm, root, block, collection, siteInfo, kind, cfg, co);
      && d.rawMetadata == root && d.block == block && d.siteInfo == siteInfo
      && d.pageIds == PageIdsOfRoot(rm, root, co)
      && d.postCount <= |d.pageIds|
      && |d.allPages| <= |d.pageIds|
      && |d.latestPosts| <= LatestPostCount
      && d.allNavPages == d.allNavPagesForGitBook
      && forall p :: p in d.allPages ==>
           && Selects(PublicPage, p)
           && exists i :: 0 <= i < |d.pageIds| && ValueOf(block, d.pageIds[i]).Some?
                && co.pageProperties(d.pageIds[i], block, d.schema, Some(TagOptions(d.schema, cfg))) == Some(p)
  {
    var d := AssemblePageData(rm, root, block, collection, siteInfo, kind, cfg, co);
    var tags := Some(TagOptions(d.schema, cfg));
    var sortByDate := cfg.recordsSortBy == "date";
    var data := CollectionData(d.pageIds, block, co, d.schema, tags);
    CollectionDataIsSubsequence(d.pageIds, block, co, d.schema, tags);
    AllPagesSpec(data, sortByDate);
    FilterSelects(data, PublicPage);
    FilterSelects(data, CountedFor(kind));
    LatestPostsSpec(d.allPages, LatestPostCount);
    assert |d.allPages| == |Filter(data, PublicPage)| by {
      assert |multiset(d.allPages)| == |multiset(Filter(data, PublicPage))|;
    }
    PublicPagesFromIds(d.pageIds, block, co, d.schema, tags, sortByDate);
  }

  /** The outcomes of the full reader: `{}` exactly when the fetch fails, the
      sentinel for a root that is not a database, a TypeError only from the site
      information, and otherwise the page data assembled from the root. */
  lemma DatabaseInfoSpec(pageId: string, from: string, kind: string, cfg: BlogConfig, co: Collaborators)
    ensures var r := DatabaseInfo(pageId, from, kind, cfg, co);
      var fetched := co.postBlocks(pageId, from);
      && (r == Normal(FetchFailed) <==> fetched.None?)
      && (fetched.Some? && !IsDatabaseRoot(ValueOf(BlockOf(fetched.value), co.idToUuid(pageId))) ==>
            r == Normal(Empty(MakeEmptyData(cfg, co.idToUuid(pageId)))))
      && (fetched.Some? && IsDatabaseRoot(ValueOf(BlockOf(fetched.value), co.idToUuid(pageId))) ==>
            r.TypeError? || (r.Normal? && r.value.Database?))
      && (r.TypeError? ==> fetched.Some? && SiteInfoOf(Some(FirstCollection(fetched.value)), true, None, cfg, co).TypeError?)
      && (r.Normal? && r.value.Database? ==>
            && fetched.Some?
            && IsDatabaseRoot(ValueOf(BlockOf(fetched.value), co.idToUuid(pageId)))
            && r.value.page.rawMetadata.kind in {"collection_view_page", "collection_view"}
            && r.value.page.block == BlockOf(fetched.value))
  {
    var r := DatabaseInfo(pageId, from, kind, cfg, co);
    var fetched := co.postBlocks(pageId, from);
    if r.Normal? && r.value.Database? {
      var rm := fetched.value;
      var raw := ValueOf(BlockOf(rm), co.idToUuid(pageId));
      var collection := FirstCollection(rm);
      AssemblePageDataSpec(rm, raw.value, BlockOf(rm), collection,
                           SiteInfoOf(Some(collection), true, None, cfg, co).value, kind, cfg, co);
    }
  }

  // ------------------------------------------------------------------
  // getDataBaseInfoByNotionAPIForOne
  // ------------------------------------------------------------------

  /** getDataBaseInfoByNotionAPIForOne (lines 723-826) without its recordId, which
      only reaches a log statement. */
  function DatabaseInfoForOne(pageId: string, from: string, kind: string, cfg: BlogConfig, co: Collaborators)
    : DbResult
  {
    var fetched := co.postBlocks(pageId, from);
    if fetched.None? then FetchFailed
    else
      var rm := fetched.value;
      var uuid := co.idToUuid(pageId);
      var block := BlockOf(rm);
      var raw := ValueOf(block, uuid);
      if !IsDatabaseRoot(raw) then Empty(MakeEmptyData(cfg, uuid))
      else
        var schema := FirstCollection(rm).schema;
        var data := CollectionData(PageIdsOfRoot(rm, raw.value, co), block, co, schema, Some(TagOptions(schema, cfg)));
        Records(RecordPages(data, kind, cfg.recordsSortBy == "date"), |Filter(data, PublishedOf(kind))|)
  }

  method FetchDatabaseInfoForOne(pageId: string, from: string, kind: string, cfg: BlogConfig, co: Collaborators)
    returns (r: DbResult)
    ensures r == DatabaseInfoForOne(pageId, from, kind, cfg, co)
  {
    var fetched := co.postBlocks(pageId, from);
    if fetched.None? {
      return FetchFailed;
    }
    var rm := fetched.value;
    var uuid := co.idToUuid(pageId);
    var block := BlockOf(rm);
    var raw := ValueOf(block, uuid);
    if !IsDatabaseRoot(raw) {
      return Empty(MakeEmptyData(cfg, uuid));
    }
    var schema := FirstCollection(rm).schema;
    var pageIds := PageIdsOfRoot(rm, raw.value, co);
    var data := CollectPages(pageIds, block, co, schema, Some(TagOptions(schema, cfg)));
    var allPages, postCount := ClassifyOne(data, kind, cfg.recordsSortBy == "date");
    r := Records(allPages, postCount);
  }

  /** The one-record reader on a database lists only Published items of the
      requested type, never more than it counts, and never more than there are ids. */
  lemma DatabaseInfoForOneSpec(pageId: string, from: string, kind: string, cfg: BlogConfig, co: Collaborators)
    ensures var r := DatabaseInfoForOne(pageId, from, kind, cfg, co);
      var fetched := co.postBlocks(pageId, from);
      && (r == FetchFailed <==> fetched.None?)
      && (fetched.Some? && !IsDatabaseRoot(ValueOf(BlockOf(fetched.value), co.idToUuid(pageId))) ==>
            r == Empty(MakeEmptyData(cfg, co.idToUuid(pageId))))
      && (fetched.Some? && IsDatabaseRoot(ValueOf(BlockOf(fetched.value), co.idToUuid(pageId))) ==> r.Records?)
      && (r.Records? ==>
            && |r.allPages| <= r.postCount
            && (forall p :: p in r.allPages ==> p.kind == kind && p.status == Published && IsInternalSlug(p.slug))
            && r.postCount <= |PageIdsOfRoot(fetched.value, ValueOf(BlockOf(fetched.value), co.idToUuid(pageId)).value, co)|)
  {
    var r := DatabaseInfoForOne(pageId, from, kind, cfg, co);
    var fetched := co.postBlocks(pageId, from);
    if r.Records? {
      var rm := fetched.value;
      var block := BlockOf(rm);
      var raw := ValueOf(block, co.idToUuid(pageId));
      var schema := FirstCollection(rm).schema;
      var ids := PageIdsOfRoot(rm, raw.value, co);
      var data := CollectionData(ids, block, co, schema, Some(TagOptions(schema, cfg)));
      RecordPagesSpec(data, kind, cfg.recordsSortBy == "date");
      CollectionDataIsSubsequence(ids, block, co, schema, Some(TagOptions(schema, cfg)));
      FilterSelects(data, PublishedOf(kind));
    }
  }

  // ------------------------------------------------------------------
  // getDataBasePageIdsByNotionAPI
  // ------------------------------------------------------------------

  /** getDataBasePageIdsByNotionAPI (lines 480-546). */
  function PageIdsInfo(pageId: string, from: string, cfg: BlogConfig, co: Collaborators): DbResult {
    var fetched := co.postBlocks(pageId, from);
    if fetched.None? then FetchFailed
    else
      var rm := fetched.value;
      var uuid := co.idToUuid(pageId);
      var block := BlockOf(rm);
      var raw := ValueOf(block, uuid);
      if !IsDatabaseRoot(raw) then Empty(MakeEmptyData(cfg, uuid))
      else PostIds(PostIdsData(PageIdsOfRoot(rm, raw.value, co), block, co))
  }

  /** The outcomes of the id-only reader: `{}` exactly when the fetch fails, the
      sentinel for a root that is not a database, and otherwise the Published
      content posts among the extracted items, never more than there are ids. */
  lemma PageIdsInfoSpec(pageId: string, from: string, cfg: BlogConfig, co: Collaborators)
    ensures var r := PageIdsInfo(pageId, from, cfg, co);
      var fetched := co.postBlocks(pageId, from);
      && (r == FetchFailed <==> fetched.None?)
      && (fetched.Some? && !IsDatabaseRoot(ValueOf(BlockOf(fetched.value), co.idToUuid(pageId))) ==>
            r == Empty(MakeEmptyData(cfg, co.idToUuid(pageId))))
      && (fetched.Some? && IsDatabaseRoot(ValueOf(BlockOf(fetched.value), co.idToUuid(pageId))) ==> r.PostIds?)
      && (r.PostIds? ==>
            var block := BlockOf(fetched.value);
            var ids := PageIdsOfRoot(fetched.value, ValueOf(block, co.idToUuid(pageId)).value, co);
            && |r.collectionData| <= |ids|
            && forall p :: p in r.collectionData <==>
                 p in CollectionData(ids, block, co, None, None) && !IsNonPostType(p.kind) && p.status == Published)
  {
    var r := PageIdsInfo(pageId, from, cfg, co);
    var fetched := co.postBlocks(pageId, from);
    if r.PostIds? {
      var block := BlockOf(fetched.value);
      PostIdsDataSpec(PageIdsOfRoot(fetched.value, ValueOf(block, co.idToUuid(pageId)).value, co), block, co);
    }
  }

  method FetchPageIds(pageId: string, from: string, cfg: BlogConfig, co: Collaborators) returns (r: DbResult)
    ensures r == PageIdsInfo(pageId, from, cfg, co)
  {
    var fetched := co.postBlocks(pageId, from);
    if fetched.None? {
      return FetchFailed;
    }
    var rm := fetched.value;
    var uuid := co.idToUuid(pageId);
    var block := BlockOf(rm);
    var raw := ValueOf(block, uuid);
    if !IsDatabaseRoot(raw) {
      return Empty(MakeEmptyData(cfg, uuid));
    }
    var pageIds := PageIdsOfRoot(rm, raw.value, co);
    var data := CollectPostIds(pageIds, block, co);
    r := PostIds(data);
  }

  // ------------------------------------------------------------------
  // The sanitiser
  // ------------------------------------------------------------------

  /** A property value of a result object. */
  datatype Field =
    | NoticeField(notice: Option<NoticeInfo>)
    | SiteField(site: SiteInfo)
    | ItemsField(items: seq<ContentItem>)
    | NavPagesField(navPages: seq<NavPage>)
    | CollectionField(collection: Collection)
    | CollectionsField(collections: seq<CollectionRecord>)
    | RawField(raw: RawJson)
    | IdField(id: Option<string>)
    | IdsField(ids: Option<seq<string>>)
    | BlockField(block: BlockMap)
    | SchemaField(schema: Option<Schema>)
    | OptionsField(options: seq<SelectOption>)
    | MetadataField(metadata: BlockValue)
    | NavField(nav: seq<NavLink>)
    | MenuField(menu: seq<MenuEntry>)
    | CountField(count: nat)

  /** The property names of the result objects, "siteInfo" as SiteInfoKey and so on. */
  datatype Property =
    | NoticeKey | SiteInfoKey | AllPagesKey | AllNavPagesKey
    | AllNavPagesForGitBookKey | CollectionKey | CollectionQueryKey | CollectionIdKey
    | CollectionViewKey | ViewIdsKey | BlockKey | SchemaKey
    | TagOptionsKey | CategoryOptionsKey | RawMetadataKey | CustomNavKey
    | CustomMenuKey | PostCountKey | PageIdsKey | LatestPostsKey
    | SignedUrlsKey | PreviewImagesKey | CollectionDataKey

  /** A JavaScript object as its own enumerable properties. */
  type JsObject = map<Property, Field>

  /** The value of property k of a reader's result, None when the object has no
      such property. */
  function FieldOf(r: DbResult, k: Property): Option<Field> {
    match r
    case FetchFailed => None
    case Empty(e) => (
      match k
      case NoticeKey => Some(NoticeField(e.notice))
      case SiteInfoKey => Some(SiteField(e.siteInfo))
      case AllPagesKey => Some(ItemsField(e.allPages))
      case AllNavPagesKey => Some(NavPagesField(e.allNavPages))
      case CollectionKey => Some(CollectionsField(e.collection))
      case CollectionQueryKey => Some(RawField(e.collectionQuery))
      case CollectionIdKey => Some(IdField(e.collectionId))
      case CollectionViewKey => Some(RawField(e.collectionView))
      case ViewIdsKey => Some(IdsField(Some(e.viewIds)))
      case BlockKey => Some(BlockField(e.block))
      case SchemaKey => Some(SchemaField(Some(e.schema)))
      case TagOptionsKey => Some(OptionsField(e.tagOptions))
      case CategoryOptionsKey => Some(OptionsField(e.categoryOptions))
      case RawMetadataKey => Some(RawField(e.rawMetadata))
      case CustomNavKey => Some(NavField(e.customNav))
      case CustomMenuKey => Some(MenuField(e.customMenu))
      case PostCountKey => Some(CountField(e.postCount))
      case PageIdsKey => Some(IdsField(Some(e.pageIds)))
      case LatestPostsKey => Some(ItemsField(e.latestPosts))
      case _ => None
    )
    case Database(d) => (
      match k
      case NoticeKey => Some(NoticeField(d.notice))
      case SiteInfoKey => Some(SiteField(d.siteInfo))
      case AllPagesKey => Some(ItemsField(d.allPages))
      case AllNavPagesKey => Some(NavPagesField(d.allNavPages))
      case AllNavPagesForGitBookKey => Some(NavPagesField(d.allNavPagesForGitBook))
      case CollectionKey => Some(CollectionField(d.collection))
      case CollectionQueryKey => Some(RawField(d.collectionQuery))
      case CollectionIdKey => Some(IdField(d.collectionId))
      case CollectionViewKey => Some(RawField(d.collectionView))
      case ViewIdsKey => Some(IdsField(d.viewIds))
      case BlockKey => Some(BlockField(d.block))
      case SchemaKey => Some(SchemaField(d.schema))
      case TagOptionsKey => Some(OptionsField(d.tagOptions))
      case CategoryOptionsKey => Some(OptionsField(d.categoryOptions))
      case RawMetadataKey => Some(MetadataField(d.rawMetadata))
      case CustomNavKey => Some(NavField(d.customNav))
      case CustomMenuKey => Some(MenuField(d.customMenu))
      case PostCountKey => Some(CountField(d.postCount))
      case PageIdsKey => Some(IdsField(Some(d.pageIds)))
      case LatestPostsKey => Some(ItemsField(d.latestPosts))
      case SignedUrlsKey => Some(RawField(d.signedUrls))
      case PreviewImagesKey => Some(RawField(d.previewImages))
      case _ => None
    )
    case Records(pages, count) => (
      match k
      case AllPagesKey => Some(ItemsField(pages))
      case PostCountKey => Some(CountField(count))
      case _ => None
    )
    case PostIds(data) => if k == CollectionDataKey then Some(ItemsField(data)) else None
  }

  /** The result of a reader as an object. */
  function ObjectOf(r: DbResult): JsObject {
    map k | FieldOf(r, k).Some? :: FieldOf(r, k).value
  }

  /** The keys the sanitisers delete. */
  const SensitiveKeys: set<Property> :=
    {BlockKey, SchemaKey, RawMetadataKey, PageIdsKey, ViewIdsKey, CollectionKey, CollectionQueryKey,
     CollectionIdKey, CollectionViewKey}

  /** The nine `delete` statements of lines 32-40, 67-75 and 102-110, applied to the
      deep clone `db`. */
  method Sanitise(db: JsObject) returns (out: JsObject)
    ensures out.Keys == db.Keys - SensitiveKeys
    ensures forall k :: k in out ==> out[k] == db[k]
  {
    out := db;
    out := out - {BlockKey};
    out := out - {SchemaKey};
    out := out - {RawMetadataKey};
    out := out - {PageIdsKey};
    out := out - {ViewIdsKey};
    out := out - {CollectionKey};
    out := out - {CollectionQueryKey};
    out := out - {CollectionIdKey};
    out := out - {CollectionViewKey};
  }

  /** The object a sanitiser hands out for a result. */
  function Sanitised(r: DbResult): JsObject {
    map k | FieldOf(r, k).Some? && k !in SensitiveKeys :: FieldOf(r, k).value
  }

  /** No raw part of a result survives the sanitiser, every key that does keeps its
      value, and a failed fetch stays `{}`. */
  lemma SanitisedKeys(r: DbResult)
    ensures Sanitised(r).Keys !! SensitiveKeys
    ensures forall k :: k in Sanitised(r) ==> k in ObjectOf(r) && Sanitised(r)[k] == ObjectOf(r)[k]
    ensures r.FetchFailed? ==> Sanitised(r) == map[]
  {
  }

  /** The one-record result keeps both its fields and the id-only result its
      collected posts: neither holds a key the sanitiser deletes. */
  lemma SanitisedKeepsSmallResults(r: DbResult)
    requires r.Records? || r.PostIds?
    ensures Sanitised(r) == ObjectOf(r)
  {
    forall k | k in ObjectOf(r) ensures k !in SensitiveKeys {
      assert FieldOf(r, k).Some?;
      if r.Records? {
        assert k == AllPagesKey || k == PostCountKey;
      } else {
        assert k == CollectionDataKey;
      }
    }
  }

  /** The keys getGlobalData and getCustomedGlobalData hand out for a page data object. */
  const PublicPageDataKeys: set<Property> :=
    {NoticeKey, SiteInfoKey, AllPagesKey, AllNavPagesKey, AllNavPagesForGitBookKey, TagOptionsKey,
     CategoryOptionsKey, CustomNavKey, CustomMenuKey, PostCountKey, LatestPostsKey, SignedUrlsKey, PreviewImagesKey}

  /** The keys they hand out for the sentinel. */
  const PublicEmptyDataKeys: set<Property> :=
    {NoticeKey, SiteInfoKey, AllPagesKey, AllNavPagesKey, TagOptionsKey, CategoryOptionsKey,
     CustomNavKey, CustomMenuKey, PostCountKey, LatestPostsKey}

  /** A page data object has every property but `collectionData`. */
  lemma DatabaseFields(d: PageData, k: Property)
    ensures FieldOf(Database(d), k).None? <==> k == CollectionDataKey
  {
  }

  /** The public keys of a page data object are all but the sensitive ones and `collectionData`. */
  lemma PublicPageDataKey(k: Property)
    ensures k in PublicPageDataKeys <==> k != CollectionDataKey && k !in SensitiveKeys
  {
  }

  lemma SanitisedDatabaseKeys(d: PageData)
    ensures Sanitised(Database(d)).Keys == PublicPageDataKeys
  {
    forall k ensures k in Sanitised(Database(d)) <==> k in PublicPageDataKeys {
      DatabaseFields(d, k);
      PublicPageDataKey(k);
    }
  }

  /** The properties the sentinel lacks. */
  const MissingFromEmptyData: set<Property> :=
    {AllNavPagesForGitBookKey, SignedUrlsKey, PreviewImagesKey, CollectionDataKey}

  lemma EmptyDataFields(e: EmptyData, k: Property)
    ensures FieldOf(Empty(e), k).None? <==> k in MissingFromEmptyData
  {
  }

  lemma PublicEmptyDataKey(k: Property)
    ensures k in PublicEmptyDataKeys <==> k !in MissingFromEmptyData && k !in SensitiveKeys
  {
  }

  lemma SanitisedEmptyKeys(e: EmptyData)
    ensures Sanitised(Empty(e)).Keys == PublicEmptyDataKeys
  {
    forall k ensures k in Sanitised(Empty(e)) <==> k in PublicEmptyDataKeys {
      EmptyDataFields(e, k);
      PublicEmptyDataKey(k);
    }
  }

  /** getGlobalPageIdData (lines 55-77): the id-only reader, sanitised. */
  method GlobalPageIdData(pageId: string, from: string, cfg: BlogConfig, co: Collaborators) returns (db: JsObject)
    ensures db == Sanitised(PageIdsInfo(pageId, from, cfg, co))
  {
    var data := FetchPageIds(pageId, from, cfg, co);
    db := Sanitise(ObjectOf(data));
  }
}
