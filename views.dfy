/** The derived views of the page data: the latest posts, the reduced navigation
    pages, the option lists of the schema, the notice and the site information. */
module Views {

  import opened Optional
  import opened NotionRecords
  import opened JsSemantics
  import opened Sorting
  import opened Selection

  // ------------------------------------------------------------------
  // getLatestPosts
  // ------------------------------------------------------------------

  /** getLatestPosts (lines 121-139): the content posts of allPages, sorted on a copy
      by `lastEditedDate || publishDate` descending, and the first `count` of them. */
  function LatestPosts(allPages: seq<ContentItem>, count: nat): seq<ContentItem> {
    var sorted := SortDesc(Filter(allPages, Post), ByLastEdited);
    if count <= |sorted| then sorted[..count] else sorted
  }

  /** At most `count` items, all Published content posts of allPages and no more
      copies of any than allPages has, newest first; fewer than `count` only when
      there are no more posts. */
  lemma LatestPostsSpec(allPages: seq<ContentItem>, count: nat)
    ensures |LatestPosts(allPages, count)| <= count
    ensures |LatestPosts(allPages, count)| == if count <= |Filter(allPages, Post)| then count else |Filter(allPages, Post)|
    ensures forall p :: p in LatestPosts(allPages, count) ==>
      p in allPages && !IsNonPostType(p.kind) && p.status == Published
    ensures multiset(LatestPosts(allPages, count)) <= multiset(allPages)
    ensures NonIncreasing(LatestPosts(allPages, count), ByLastEdited)
    ensures forall p, q :: p in allPages && Selects(Post, p) && p !in LatestPosts(allPages, count)
                           && q in LatestPosts(allPages, count) ==>
      Key(ByLastEdited, p) <= Key(ByLastEdited, q)
  {
    var posts := Filter(allPages, Post);
    var sorted := SortDesc(posts, ByLastEdited);
    FilterSelects(allPages, Post);
    SortDescPermutes(posts, ByLastEdited);
    SortDescOrdered(posts, ByLastEdited);
    assert |sorted| == |posts| by {
      assert |multiset(sorted)| == |multiset(posts)|;
    }
    TakeSpec(sorted, count);
    forall p | p in LatestPosts(allPages, count) ensures p in allPages && Selects(Post, p) {
      assert p in multiset(sorted);
    }
    forall p, q | p in allPages && Selects(Post, p) && p !in LatestPosts(allPages, count)
                  && q in LatestPosts(allPages, count)
      ensures Key(ByLastEdited, p) <= Key(ByLastEdited, q)
    {
      assert p in multiset(posts);
      assert p in sorted;
      TakeDominates(sorted, count, p, q);
    }
  }

  /** An item of a non-increasing sequence that the first `count` items leave out
      has a key no larger than any of them. */
  lemma TakeDominates(s: seq<ContentItem>, count: nat, p: ContentItem, q: ContentItem)
    requires NonIncreasing(s, ByLastEdited)
    requires p in s && p !in (if count <= |s| then s[..count] else s)
    requires q in (if count <= |s| then s[..count] else s)
    ensures Key(ByLastEdited, p) <= Key(ByLastEdited, q)
  {
    var t := if count <= |s| then s[..count] else s;
    var m := |t|;
    assert t == s[..m];
    var i :| 0 <= i < |s| && s[i] == p;
    var j :| 0 <= j < m && t[j] == q;
    assert forall k :: 0 <= k < m ==> t[k] != p;
    assert s[j] == q;
  }

  /** `s.slice(0, count)` of a non-increasing sequence. */
  lemma TakeSpec(s: seq<ContentItem>, count: nat)
    requires NonIncreasing(s, ByLastEdited)
    ensures var r := if count <= |s| then s[..count] else s;
      && multiset(r) <= multiset(s)
      && NonIncreasing(r, ByLastEdited)
  {
    if count <= |s| {
      assert s == s[..count] + s[count..];
      assert multiset(s) == multiset(s[..count]) + multiset(s[count..]);
    }
  }

  // ------------------------------------------------------------------
  // getNavPages / getNavPagesForGitBook
  // ------------------------------------------------------------------

  /** The reduced page of the navigation lists; None stands for `null`, and `kind`
      is the number `item.type | ""`. Tags are `item.tags || null`: an array, even an
      empty one, is truthy, so absent tags alone become `null`. */
  datatype NavPage = NavPage(
    id: string, title: string, pageCoverThumbnail: string,
    category: Option<string>, tags: Option<seq<string>>, summary: Option<string>,
    slug: string, pageIcon: string, lastEditedDate: int, kind: int)

  function OrNull(s: string): (r: Option<string>)
    ensures r.None? <==> s == ""
    ensures r.Some? ==> r.value == s
  {
    if s == "" then None else Some(s)
  }

  function NavPageOf(p: ContentItem): NavPage {
    NavPage(p.id, OrElse(p.title, ""), OrElse(p.pageCoverThumbnail, ""),
            OrNull(p.category), p.tags, OrNull(p.summary),
            p.slug, OrElse(p.pageIcon, ""), p.lastEditedDate, StringOr(p.kind, ""))
  }

  /** getNavPages and getNavPagesForGitBook (lines 357-422), which are the same:
      the Published content posts with an internal slug, each reduced to a NavPage. */
  function NavPages(allPages: seq<ContentItem>): seq<NavPage> {
    var posts := Filter(allPages, NavPost);
    seq(|posts|, i requires 0 <= i < |posts| => NavPageOf(posts[i]))
  }

  /** One reduced page per navigable post of allPages, in order, keeping its
      id, slug, title, tags, date, category, summary, icon and cover thumbnail;
      an empty category or summary becomes `null`. */
  lemma NavPagesSpec(allPages: seq<ContentItem>)
    ensures var posts := Filter(allPages, NavPost);
      && |NavPages(allPages)| == |posts| <= |allPages|
      && forall i :: 0 <= i < |posts| ==>
           && posts[i] in allPages
           && IsInternalSlug(posts[i].slug) && !IsNonPostType(posts[i].kind) && posts[i].status == Published
           && NavPages(allPages)[i].id == posts[i].id && NavPages(allPages)[i].slug == posts[i].slug
           && NavPages(allPages)[i].title == posts[i].title && NavPages(allPages)[i].tags == posts[i].tags
           && NavPages(allPages)[i].lastEditedDate == posts[i].lastEditedDate
           && NavPages(allPages)[i].kind == StringOr(posts[i].kind, "")
           && NavPages(allPages)[i].category == OrNull(posts[i].category)
           && NavPages(allPages)[i].summary == OrNull(posts[i].summary)
           && NavPages(allPages)[i].pageIcon == posts[i].pageIcon
           && NavPages(allPages)[i].pageCoverThumbnail == posts[i].pageCoverThumbnail
  {
    var posts := Filter(allPages, NavPost);
    FilterSelects(allPages, NavPost);
    forall i | 0 <= i < |posts| ensures posts[i] in allPages && Selects(NavPost, posts[i]) {
      assert posts[i] in posts;
    }
  }

  /** `item.type | ""` is the number 0 for every type that starts with an ASCII
      letter (such as "Post"), and the type's value for a short decimal numeral. */
  lemma NavPageKind(p: ContentItem)
    ensures p.kind != [] && IsAsciiLetter(p.kind[0]) ==> NavPageOf(p).kind == 0
    ensures IsDigitString(p.kind) && DigitsValue(p.kind, 10) < 0x8000_0000 ==>
      NavPageOf(p).kind == DigitsValue(p.kind, 10)
  {
    if p.kind != [] && IsAsciiLetter(p.kind[0]) {
      LetterLeadingIsZero(p.kind);
    }
    if IsDigitString(p.kind) && DigitsValue(p.kind, 10) < 0x8000_0000 {
      DigitStringValue(p.kind);
    }
  }

  // ------------------------------------------------------------------
  // getTagOptions / getCategoryOptions
  // ------------------------------------------------------------------

  /** The index of the first schema entry with the given name, from position i on. */
  function FindFrom(schema: Schema, name: string, i: nat): (r: Option<nat>)
    requires i <= |schema|
    ensures r.Some? ==> i <= r.value < |schema| && schema[r.value].name == name
                        && forall j :: i <= j < r.value ==> schema[j].name != name
    ensures r.None? ==> forall j :: i <= j < |schema| ==> schema[j].name != name
    decreases |schema| - i
  {
    if i == |schema| then None
    else if schema[i].name == name then Some(i)
    else FindFrom(schema, name, i + 1)
  }

  /** `Object.values(schema).find(e => e.name === name)?.options || []`, and `{}`
      without a schema. */
  function SchemaOptions(schema: Option<Schema>, name: string): OptionsResult {
    if schema.None? then NoSchema
    else match FindFrom(schema.value, name, 0)
      case None => OptionList([])
      case Some(k) => OptionList(OptionsOf(schema.value[k]))
  }

  /** `entry.options || []`. */
  function OptionsOf(entry: SchemaEntry): seq<SelectOption> {
    if entry.options.Some? then entry.options.value else []
  }

  function TagOptions(schema: Option<Schema>, cfg: BlogConfig): OptionsResult {
    SchemaOptions(schema, cfg.tagsProperty)
  }

  function CategoryOptions(schema: Option<Schema>, cfg: BlogConfig): OptionsResult {
    SchemaOptions(schema, cfg.categoryProperty)
  }

  /** `{}` exactly without a schema; otherwise the options of the first entry with
      the name, or [] when no entry has it or that entry has no options. */
  lemma SchemaOptionsSpec(schema: Option<Schema>, name: string)
    ensures SchemaOptions(schema, name).NoSchema? <==> schema.None?
    ensures schema.Some? && (forall j :: 0 <= j < |schema.value| ==> schema.value[j].name != name) ==>
      SchemaOptions(schema, name) == OptionList([])
    ensures schema.Some? ==>
      forall k :: 0 <= k < |schema.value| && schema.value[k].name == name
                  && (forall j :: 0 <= j < k ==> schema.value[j].name != name)
                  ==> SchemaOptions(schema, name) == OptionList(OptionsOf(schema.value[k]))
  {
  }

  // ------------------------------------------------------------------
  // The notice
  // ------------------------------------------------------------------

  /** A notice post together with the blocks fetched for it. */
  datatype NoticeInfo = NoticeInfo(post: ContentItem, blockMap: Option<RecordMap>)

  /** The first Published Notice of collectionData, passed through getNotice
      (lines 427-434, 660-669), which fetches its blocks; `null` when there is none. */
  function Notice(data: seq<ContentItem>, co: Collaborators): Option<NoticeInfo> {
    var notices := Filter(data, PublishedOf("Notice"));
    if notices == [] then None
    else Some(NoticeInfo(notices[0], co.postBlocks(notices[0].id, "data-notice")))
  }

  /** There is a notice exactly when collectionData holds a Published Notice; it is
      the first one, with the blocks fetched for its id. */
  lemma NoticeSpec(data: seq<ContentItem>, co: Collaborators)
    ensures Notice(data, co).None? <==> forall i :: 0 <= i < |data| ==> !(data[i].kind == "Notice" && data[i].status == Published)
    ensures Notice(data, co).Some? ==>
      && Notice(data, co).value.blockMap == co.postBlocks(Notice(data, co).value.post.id, "data-notice")
      && exists i :: 0 <= i < |data| && data[i] == Notice(data, co).value.post
           && data[i].kind == "Notice" && data[i].status == Published
           && forall j :: 0 <= j < i ==> !(data[j].kind == "Notice" && data[j].status == Published)
  {
    FilterFirst(data, PublishedOf("Notice"));
  }

  // ------------------------------------------------------------------
  // getSiteInfo
  // ------------------------------------------------------------------

  /** The site information; a description of None is `undefined`. */
  datatype SiteInfo = SiteInfo(title: string, description: Option<string>, pageCover: string, icon: string, link: string)

  /** The site information made of `NOTION_CONFIG?.X || BLOG.X` alone. */
  function Defaults(nc: Option<NotionConfig>, cfg: BlogConfig): SiteInfo {
    var n := if nc.Some? then nc.value else NotionConfig("", "", "", "", "");
    SiteInfo(OrElse(n.title, cfg.title), Some(OrElse(n.description, cfg.description)),
             OrElse(n.homeBannerImage, cfg.homeBannerImage), OrElse(n.avatar, cfg.avatar),
             OrElse(n.link, cfg.link))
  }

  /** `rt[0][0]` on a rich text: a TypeError when there is no first run, undefined
      (None) when the first run is empty. */
  function FirstText(rt: RichText): Completion<Option<string>> {
    if rt == [] then TypeError
    else if rt[0] == [] then Normal(None)
    else Normal(Some(rt[0][0]))
  }

  /** The icon getSiteInfo computes before the emoji test: the collection's icon
      rewritten by mapImgUrl, or the default icon, then compressed. */
  function CollectionIcon(c: Collection, defaultIcon: string, co: Collaborators): string {
    co.compressImage(if c.icon != "" then co.mapImgUrl(c.icon, c, "collection") else defaultIcon)
  }

  /** getSiteInfo (lines 307-348). `collection` None is an undefined collection and
      `hasBlock` says whether a block map was passed. The title falls back on a
      falsy first text, the description only on an absent description, and an empty
      or emoji icon is replaced by the default icon. */
  function SiteInfoOf(collection: Option<Collection>, hasBlock: bool, nc: Option<NotionConfig>,
                      cfg: BlogConfig, co: Collaborators): Completion<SiteInfo>
  {
    var d := Defaults(nc, cfg);
    if collection.None? && !hasBlock then Normal(d)
    else
      var c := if collection.Some? then collection.value else EmptyCollection;
      var title := if c.name.None? then Normal(None) else FirstText(c.name.value);
      if title.TypeError? then TypeError
      else
        var description := if c.description.None? then Normal(d.description) else FirstText(c.description.value);
        if description.TypeError? then TypeError
        else
          var pageCover := if c.cover != "" then co.mapImgUrl(c.cover, c, "collection") else d.pageCover;
          var icon := CollectionIcon(c, d.icon, co);
          var link := OrElse(if nc.Some? then nc.value.link else "", d.link);
          var finalIcon := if icon == "" || PatternTest(Utf16(icon)) then d.icon else icon;
          Normal(SiteInfo(OrElse(if title.value.Some? then title.value.value else "", d.title),
                          description.value, pageCover, finalIcon, link))
  }

  /** Without collection and block the defaults are returned as they are. */
  lemma SiteInfoDefaults(nc: Option<NotionConfig>, cfg: BlogConfig, co: Collaborators)
    ensures SiteInfoOf(None, false, nc, cfg, co) == Normal(Defaults(nc, cfg))
    ensures Defaults(nc, cfg).description.Some?
  {
  }

  /** getSiteInfo throws exactly when a collection or block is passed and the
      collection's name or description is a rich text without runs. */
  lemma SiteInfoThrows(collection: Option<Collection>, hasBlock: bool, nc: Option<NotionConfig>,
                       cfg: BlogConfig, co: Collaborators)
    ensures SiteInfoOf(collection, hasBlock, nc, cfg, co).TypeError? <==>
      collection.Some?
      && (collection.value.name == Some([]) || collection.value.description == Some([]))
  {
  }

  /** The site icon is the default icon, or a non-empty icon without a code point of
      the emoji blocks U+1F300..U+1F64F: a computed icon of that kind is kept and
      any other is replaced by the default icon;
      the link is always the default link; the title is the name's first text when
      that is non-empty and the default title otherwise; a present description is
      its first text and an absent one the default description; the cover is the
      collection's cover when it has one and the default cover otherwise. */
  lemma SiteInfoIcon(collection: Option<Collection>, hasBlock: bool, nc: Option<NotionConfig>,
                     cfg: BlogConfig, co: Collaborators)
    ensures var r := SiteInfoOf(collection, hasBlock, nc, cfg, co);
      r.Normal? ==>
        && (r.value.icon == Defaults(nc, cfg).icon || (r.value.icon != "" && !HasEmoji(r.value.icon)))
        && r.value.link == Defaults(nc, cfg).link
        && (r.value.title == Defaults(nc, cfg).title
            || (collection.Some? && collection.value.name.Some? && collection.value.name.value != []
                && collection.value.name.value[0] != [] && r.value.title == collection.value.name.value[0][0] != ""))
    ensures var r := SiteInfoOf(collection, hasBlock, nc, cfg, co);
      var c := if collection.Some? then collection.value else EmptyCollection;
      var icon := CollectionIcon(c, Defaults(nc, cfg).icon, co);
      r.Normal? && (collection.Some? || hasBlock) ==>
        && (icon != "" && !HasEmoji(icon) ==> r.value.icon == icon)
        && (icon == "" || HasEmoji(icon) ==> r.value.icon == Defaults(nc, cfg).icon)
        && (c.cover != "" ==> r.value.pageCover == co.mapImgUrl(c.cover, c, "collection"))
        && (c.cover == "" ==> r.value.pageCover == Defaults(nc, cfg).pageCover)
        && (c.description.None? ==> r.value.description == Defaults(nc, cfg).description)
    ensures var r := SiteInfoOf(collection, hasBlock, nc, cfg, co);
      r.Normal? && collection.Some? ==>
        && (var name := collection.value.name;
            name.Some? && name.value[0] != [] && name.value[0][0] != "" ==> r.value.title == name.value[0][0])
        && (var desc := collection.value.description;
            desc.Some? ==> r.value.description == if desc.value[0] == [] then None else Some(desc.value[0][0]))
  {
    var r := SiteInfoOf(collection, hasBlock, nc, cfg, co);
    if r.Normal? && r.value.icon != Defaults(nc, cfg).icon {
      PatternMatchesEmoji(r.value.icon);
    }
    var c := if collection.Some? then collection.value else EmptyCollection;
    var icon := CollectionIcon(c, Defaults(nc, cfg).icon, co);
    if r.Normal? && (collection.Some? || hasBlock) {
      PatternMatchesEmoji(icon);
    }
  }
}
