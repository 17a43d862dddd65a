# Notion data layer of the blog, in Dafny

This project models the data layer of a statically generated blog that reads its
posts, pages and menus from a Notion database. The layer is
`lib/notion/getNotionData.js`. Its job is to fetch the record map of the root
page and to check that the root is a database. When the root is not a database,
it returns a sentinel (`EmptyData`). When it is, the layer:

- walks the page ids and collects the property record of every page (`collectionData`);
- filters that into `allPages`, counting `postCount` along the way, and optionally
  sorts it by publish date;
- derives the views: the latest posts, the two navigation lists, the old flat nav
  (`customNav`), the menu tree (`customMenu`), the tag and category options, the
  notice and the site information.

A read-through cache keyed by `"page_block_" + pageId` sits in front of the
readers. It serves only stored results with a non-empty `pageIds` list. The three
public entry points deep-clone a result and delete nine sensitive keys before
handing it out.

The modules follow that structure:

| module | file | what it holds |
|---|---|---|
| `Optional` | `optional.dfy` | `Option` and `Completion` (a value, or a TypeError thrown by the code) |
| `JsSemantics` | `js_semantics.dfy` | the JavaScript behaviour the layer relies on: `startsWith`, `a \|\| b` on strings, the UTF-16 form of strings with the emoji regular expression, and `x \| ""` (ToNumber, ToInt32, 32-bit OR) |
| `NotionRecords` | `notion_records.dfy` | the record map, blocks, collection and schema; the normalised item; the site configuration; the foreign helpers as a record of functions |
| `Sorting` | `sorting.dfy` | the two descending date orders as a stable sort on sequences, and the in-place array sort proved to compute it |
| `Selection` | `selection.dfy` | the filter callbacks of the file as one `Selector` datatype, and `Array.prototype.filter` |
| `Normalise` | `normalise.dfy` | the collection loops, the classifier pass (`allPages` plus the `postCount` side-count) and its one-record variant |
| `Navigation` | `navigation.dfy` | `getCustomNav` and `getCustomMenu` (loops), with the menu tree defined by grouping |
| `Views` | `views.dfy` | `getLatestPosts`, `getNavPages`/`getNavPagesForGitBook`, `getTagOptions`/`getCategoryOptions`, the notice and `getSiteInfo` |
| `Pipeline` | `pipeline.dfy` | the three readers, `EmptyData`, result objects as maps from property to value, and the key-deleting sanitiser |
| `Cache` | `cache.dfy` | the cache gate as a class over a map, and the entry points `getGlobalData` and `getCustomedGlobalData` |

Some behaviour of the code is easy to misread. It is modelled as written:

- **Failed fetches are cached.** A failed fetch returns `{}`, which is truthy, so
  it is stored. It is never served, because it has no `pageIds`.
- **`postCount` is not always the count of Published items of the requested
  type.** The type `"Page"` counts Published `GuestBook` items. Every type other
  than Record, Devproject, Engineering, GuestBook and Page counts all of
  `collectionData`.
- **The emoji check covers only part of the emoji range.** It rejects only the
  code points U+1F300 to U+1F64F.
- **Navigation pages do not keep their type name.** The `type` of a navigation
  page is the number `item.type | ""`: 0 for a type name such as `"Post"`.

The JavaScript semantics the layer relies on are written out:

- A string is falsy only when it is empty.
- `s.indexOf("http") === 0` is read as `startsWith`.
- The rich-text accesses `name[0][0]` and `description[0][0]` throw a TypeError
  on a rich-text name or description of `[]`. That TypeError,
  raised inside `getSiteInfo`, is the one way the full reader rejects; a rejected
  read is not cached.

Values the source leaves out of a record are modelled as follows:

- an absent string is `""`;
- an absent date is `0`;
- absent `tags` are `None`, which the navigation pages pass on as `null`;
- `null`/`undefined` fields of results are `Option`s.

What the code calls but does not define is taken as a parameter (`Collaborators`):

- `getPostBlocks`, `idToUuid`, `getAllPageIds`, `getPageProperties` (which is also
  `getOnlyPageIdProperties`), `getAllTags`, `getAllCategories`, `mapImgUrl` and
  `compressImage`;
- the configuration constants `BLOG.*` (`BlogConfig`).

## Model

| member | source | states |
|---|---|---|
| Cache.PageCache.GetNotionPageData | lib/notion/getNotionData.js:148-163 | a hit (stored value with non-empty pageIds) is returned as stored and the store is unchanged; a miss returns the full reader's result and stores it under the key exactly when the reader completes; since the store holds only reader results, a hit is always full page data with page ids |
| Cache.PageCache.GetNotionPageDataForOne | lib/notion/getNotionData.js:172-196 | the same gate in front of the one-record reader, sharing the key, so a cached full result with page ids is what it returns on a hit |
| Cache.PageCache.GetGlobalData | lib/notion/getNotionData.js:90-112 | the gated read with the requested type, sanitised; a rejected read stays rejected; the store changes as the gate changes it |
| Cache.PageCache.GetCustomedGlobalData | lib/notion/getNotionData.js:24-42 | getGlobalData with the default type "Record" |
| Cache.CacheKey | lib/notion/getNotionData.js:151 | the key starts with "page_block_" and continues with the page id, eleven characters longer |
| Cache.CacheKeyInjective | lib/notion/getNotionData.js:180 | two page ids share a cache key exactly when they are equal |
| Cache.HitIsDatabase | lib/notion/getNotionData.js:153 | in a store of reader results, a key hits exactly when it holds a full page-data result with at least one page id; the sentinel, `{}`, one-record and id-only results never hit |
| Cache.ReadersStorable | lib/notion/getNotionData.js:437-474 | every result either reader produces is storable: a sentinel always has empty pageIds |
| Cache.SentinelMisses | lib/notion/getNotionData.js:153 | a stored sentinel is never served |
| Cache.GateStoreFrame | lib/notion/getNotionData.js:156-160 | the gate writes only its own key; after a completed miss the key holds the computed result; on a hit or a rejection the store is unchanged |
| Cache.GateRepeat | lib/notion/getNotionData.js:151-162 | once a full result with page ids has been read, the next read returns the same result without writing, whatever a new computation would give |
| Cache.GateMissRepeats | lib/notion/getNotionData.js:153-156 | a result that is not page data is recomputed on the next read |
| Cache.SanitisedCompletion | lib/notion/getNotionData.js:99-110 | the sanitised read completes exactly when the read does, and then holds none of the sensitive keys |
| Pipeline.Sanitise | lib/notion/getNotionData.js:102-110 | the nine deletes on the clone leave exactly the keys of the input minus the nine sensitive ones, each with its value |
| Pipeline.SanitisedKeys | lib/notion/getNotionData.js:32-40 | no sensitive key survives, every surviving key keeps its value, and `{}` stays `{}` |
| Pipeline.SanitisedKeepsSmallResults | lib/notion/getNotionData.js:67-75 | the one-record result and the id-only result pass the sanitiser unchanged |
| Pipeline.SanitisedDatabaseKeys | lib/notion/getNotionData.js:693-716 | a sanitised page-data object has exactly the thirteen public keys (notice, siteInfo, allPages, both navigation lists, tag and category options, customNav, customMenu, postCount, latestPosts, signedUrls, previewImages) |
| Pipeline.SanitisedEmptyKeys | lib/notion/getNotionData.js:437-474 | a sanitised sentinel has exactly its ten public keys |
| Pipeline.GlobalPageIdData | lib/notion/getNotionData.js:55-77 | getGlobalPageIdData is the id-only reader's result, sanitised, without the cache |
| Pipeline.EmptyDataSpec | lib/notion/getNotionData.js:437-474 | the sentinel has exactly one item, a Published Post with the placeholder slug and a title ending in the page id; postCount 1; empty pageIds, customNav, customMenu and latestPosts; no notice; default site information |
| Pipeline.FetchDatabaseInfo | lib/notion/getNotionData.js:552-717 | the full reader, run with its loops, computes DatabaseInfo |
| Pipeline.DatabaseInfoSpec | lib/notion/getNotionData.js:553-571 | `{}` exactly when the fetch fails; the sentinel for a root that is neither collection_view_page nor collection_view; a fetched database root gives page data or a TypeError, never the sentinel; a TypeError only from the site information; page data only for a database root, holding that root and its block map |
| Pipeline.AssemblePageDataSpec | lib/notion/getNotionData.js:577-716 | the page data keeps the root, block map, site information and page ids; postCount and the number of allPages never exceed the number of page ids; at most six latest posts; both navigation lists are equal; every page is public and is the property record of a page id with a block value |
| Pipeline.PublicPagesFromIds | lib/notion/getNotionData.js:597-658 | every item of allPages is public and is what the extractor returned for one of the page ids that has a block value |
| Pipeline.FetchDatabaseInfoForOne | lib/notion/getNotionData.js:723-826 | the one-record reader, run with its loops, computes DatabaseInfoForOne |
| Pipeline.DatabaseInfoForOneSpec | lib/notion/getNotionData.js:794-825 | `{}` exactly on a failed fetch; the sentinel for a non-database root and records for a fetched database root; then its pages are Published items of the requested type with an internal slug, no more than it counts, and it counts no more than there are page ids |
| Pipeline.FetchPageIds | lib/notion/getNotionData.js:480-546 | the id-only reader, run with its loop, computes PageIdsInfo |
| Pipeline.PageIdsInfoSpec | lib/notion/getNotionData.js:480-546 | `{}` exactly when the fetch fails; the sentinel for a root that is neither collection_view_page nor collection_view; post ids for a fetched database root, holding exactly the Published content posts among the extracted items and never more than the ids |
| Normalise.CollectionDataIsSubsequence | lib/notion/getNotionData.js:597-614 | collectionData is the subsequence of the ids' items in id order: it has at most as many items as ids, each is the extracted item of a kept id, kept positions increase, and an id is kept exactly when it has a block value and a property record |
| Normalise.CollectPages | lib/notion/getNotionData.js:597-614 | the loop computes CollectionData |
| Normalise.CollectPostIds | lib/notion/getNotionData.js:521-541 | the id-only loop pushes exactly the Published content posts among the extracted items |
| Normalise.PostIdsDataSpec | lib/notion/getNotionData.js:521-541 | the id-only collectionData holds exactly the extracted items that are Published and not of a non-post type, never more than the ids |
| Normalise.Classify | lib/notion/getNotionData.js:617-658 | the filter pass yields allPages and the side-counted postCount as AllPages and PostCount state |
| Normalise.AllPagesSpec | lib/notion/getNotionData.js:645-658 | allPages is a permutation of the public items (non-empty slug not starting with "http", Published or Invisible); without the date sort it is their filter in order; with it, it is non-increasing by publishDate and stable |
| Normalise.PostCountCases | lib/notion/getNotionData.js:617-644 | Record, Devproject, Engineering and GuestBook count their own Published items; "Page" counts Published GuestBook items; every other type counts all of collectionData |
| Normalise.ClassifyOne | lib/notion/getNotionData.js:794-820 | the one-record pass yields RecordPages and the count of Published items of the type |
| Normalise.RecordPagesSpec | lib/notion/getNotionData.js:806-820 | the one-record allPages holds exactly the Published items of the type with an internal slug, never more than the count; it is a permutation of their filter, equal to it in order without the date sort, and non-increasing by publishDate and stable with it |
| Sorting.SortInPlace | lib/notion/getNotionData.js:654-658 | the in-place sort leaves the array holding SortDesc of its old contents |
| Sorting.InsertInPlace | lib/notion/getNotionData.js:655-657 | one insertion step puts the next element where Insert puts it and leaves the rest of the array alone |
| Sorting.Sorted | lib/notion/getNotionData.js:654-658 | sorting a copy yields SortDesc of the input |
| Sorting.SortDescPermutes | lib/notion/getNotionData.js:654-658 | the sort is a permutation |
| Sorting.SortDescOrdered | lib/notion/getNotionData.js:655-657 | the sort is non-increasing by its key |
| Sorting.SortDescStable | lib/notion/getNotionData.js:654-658 | items with equal keys keep their relative order |
| Selection.FilterSelects | lib/notion/getNotionData.js:620-650 | a filter keeps exactly the selected items, each no more often than in its input |
| Selection.FilterFirst | lib/notion/getNotionData.js:660-669 | a filter is empty exactly when no item is selected, and its head is the first selected item |
| Navigation.CustomNav | lib/notion/getNotionData.js:203-227 | one link per page, in page order |
| Navigation.NavLinkSpec | lib/notion/getNotionData.js:207-223 | an external slug gives `to = slug` and target "_blank"; any other gives "/" + slug and "_self"; always shown, named after the title, icon or null |
| Navigation.CustomMenu | lib/notion/getNotionData.js:234-267 | the forEach over the menu pages yields the menu tree MenuTree |
| Navigation.MenuFoldIsTree | lib/notion/getNotionData.js:244-264 | the step-by-step fold attaches leading sub-menu items to the last entry so far and appends the grouped tree |
| Navigation.MenuTopLevel | lib/notion/getNotionData.js:249-250 | the top level holds exactly the Published Menu items, in collectionData order |
| Navigation.OrphansDropped | lib/notion/getNotionData.js:255-262 | sub-menu items with no Menu item before them contribute nothing |
| Navigation.MenuTreeFrom | lib/notion/getNotionData.js:235-250 | over any item list: every entry is a menu item and every sub-menu link a sub-menu item of the input, each shown and with target "_blank" exactly for an external slug; a set subMenus is non-empty |
| Navigation.MenuPublished | lib/notion/getNotionData.js:235-262 | the menu built from collectionData holds only Published items of collectionData: each entry a menu item, each sub-menu link a sub-menu item |
| Navigation.MenuExample | lib/notion/getNotionData.js:234-267 | Menu Docs, SubMenu Guide, SubMenuPage Intro, Menu API give two entries, Docs holding Guide and Intro, API with no sub-menus |
| Views.LatestPostsSpec | lib/notion/getNotionData.js:121-139 | at most latestPostCount items, exactly that many unless there are fewer posts; each a Published content post of allPages; no item more often than in allPages; non-increasing by `lastEditedDate \|\| publishDate`; every Published content post of allPages that is left out has a key no larger than any returned post, so the posts returned are the latest |
| Views.NavPagesSpec | lib/notion/getNotionData.js:394-422 | one reduced page per Published content post with an internal slug, in order, keeping id, slug, title, tags, lastEditedDate, pageIcon and pageCoverThumbnail, with category and summary null when empty and type `item.type \| ""` |
| Views.NavPageKind | lib/notion/getNotionData.js:420 | `item.type \| ""` is 0 for a type starting with a letter, and the value of a decimal numeral below 2^31 |
| Views.SchemaOptionsSpec | lib/notion/getNotionData.js:274-293 | `{}` exactly without a schema; the options of the first entry with the configured name; [] when there is none or it has no options |
| Views.FindFrom | lib/notion/getNotionData.js:276-278 | the index found is the first schema entry with the name, and none is found only when no entry has it |
| Views.NoticeSpec | lib/notion/getNotionData.js:660-669 | a notice exists exactly when collectionData holds a Published Notice; it is the first one, with the blocks fetched for its id under "data-notice" |
| Views.SiteInfoDefaults | lib/notion/getNotionData.js:314-322 | without collection and block the defaults are returned, with a description |
| Views.SiteInfoThrows | lib/notion/getNotionData.js:324-327 | getSiteInfo throws a TypeError exactly when a collection is given whose name or description is a rich text with no runs |
| Views.SiteInfoIcon | lib/notion/getNotionData.js:324-347 | a non-empty computed icon free of U+1F300 to U+1F64F is kept and any other icon is replaced by the default; the link is the default link; the title is the name's first text when that is non-empty, else the default; a present description is its first text and an absent one the default; the cover is the collection's cover when set, else the default cover |
| JsSemantics.PatternMatchesEmoji | lib/notion/getNotionData.js:343 | the regular expression finds a match in the UTF-16 form of a string exactly when the string holds a code point of U+1F300 to U+1F64F |
| JsSemantics.OrEmptyIsToInt32 | lib/notion/getNotionData.js:383 | `x \| ""` is ToInt32 of ToNumber(x), with the numeral read exactly (see Left out) |
| JsSemantics.LetterLeadingIsZero | lib/notion/getNotionData.js:383 | `x \| ""` is 0 for a string starting with an ASCII letter |
| JsSemantics.DigitStringValue | lib/notion/getNotionData.js:420 | `x \| ""` is the value of a decimal numeral below 2^31 |

## Left out

- I/O: every network fetch (`getPostBlocks`), the cache backend, and `console.log`/`console.error` are left out. The fetch and the cache store are parameters or a map. `async`/`await` is sequential.
- The helpers `getAllPageIds`, `getPageProperties`, `getAllTags`, `getAllCategories`, `idToUuid`, `mapImgUrl` and `compressImage` are fields of `Collaborators`. Their own behaviour is not part of this model.
- `Cache.PageCache.GetNotionPageDataForOne`: `recordId` is not a parameter, because the code only logs it.
- Default parameters from `BLOG.NOTION_PAGE_ID` are not modelled; the page id is always passed.
- `getSiteInfo` is always called without `NOTION_CONFIG` by the code. The model keeps the parameter, and the readers pass `None`.
- `Views.SiteInfoOf`: `Object.assign` and the `cover`/`icon` lookups are modelled as reads of the collection record, and `compressImage` as an arbitrary string function.
- Aliasing is not modelled. `getCustomMenu` sets `show`/`target` on the items of `collectionData` itself and writes `subMenus` on the Menu items among them, and `getNotice` adds `blockMap` to its post. The model builds new `MenuLink`/`NoticeInfo` values and leaves the items unchanged; what a later reader of the mutated items would see is not captured.
- `JsSemantics.OrEmptyIsToInt32`: ToNumber is read exactly rather than rounded to the nearest IEEE-754 double. A numeral that a double cannot hold exactly (such as `"1e23"`, `"9007199254740993"` or `"0.99999999999999999"`) can give a different `x | ""` than JavaScript; letter-leading types and decimal numerals below 2^31, the cases `Views.NavPageKind` states, are exact in both.
- `Sorting.Key`: dates are integers, so `new Date(...)` parsing is not modelled, and an absent date is 0 rather than NaN. The comparator's NaN results for items without dates are therefore not modelled.
- `Pipeline.MakeEmptyData`: the placeholder's `date` object is left out, and its numeric id 1 is the string "1".
- An absent `slug` is `""`. The code would turn it into the link "/undefined" in `getCustomNav`.
- `Object.values(pageRecordMap.collection)` on an absent collection (a TypeError) is not modelled: the collection list is always present.
- `Array.prototype.sort` is modelled by a stable insertion sort. Any stable sort gives the same order, but running time is not modelled.
- `Cache.HitIsDatabase`: stated for stores holding reader results only. A sentinel with page ids would hit, but no code produces one.
- `Pipeline.SanitisedKeys` says nothing of deep cloning. Values are immutable, so the clone is the value itself.
- The recommendation selector and the prev/next navigation are not in this file and are not modelled.
