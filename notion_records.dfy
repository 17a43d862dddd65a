/** The records the normalisation layer reads and writes: the raw record map the
    workspace API returns, the typed content items it is turned into, the site
    configuration, and the collaborators whose internals are outside the model. */
module NotionRecords {

  import opened Optional

  /** Serialised form of a raw sub-record the layer passes along without reading it
      (collection_query, collection_view, signed_urls, preview_images). */
  type RawJson = string

  /** One normalised content item, the record getPageProperties produces.
      An absent string is "", an absent date is 0, absent tags are None; `kind` is
      the item's `type`. */
  datatype ContentItem = ContentItem(
    id: string,
    kind: string,
    status: string,
    slug: string,
    title: string,
    icon: string,
    pageIcon: string,
    pageCoverThumbnail: string,
    summary: string,
    category: string,
    tags: Option<seq<string>>,
    publishDate: int,
    lastEditedDate: int)

  /** Rich text as the API encodes it: a list of runs whose first element is the text. */
  type RichText = seq<seq<string>>

  datatype SelectOption = SelectOption(id: string, color: string, value: string)

  /** One property of a collection schema. */
  datatype SchemaEntry = SchemaEntry(name: string, kind: string, options: Option<seq<SelectOption>>)

  /** A schema as `Object.values(schema)` lists it. */
  type Schema = seq<SchemaEntry>

  datatype Collection = Collection(
    name: Option<RichText>,
    description: Option<RichText>,
    cover: string,
    icon: string,
    schema: Option<Schema>)

  /** The `{}` used when the record map carries no collection value. */
  const EmptyCollection := Collection(None, None, "", "", None)

  /** The `value` of a block: its type, and for a collection view its collection and views. */
  datatype BlockValue = BlockValue(kind: string, collectionId: Option<string>, viewIds: Option<seq<string>>)

  datatype Block = Block(value: Option<BlockValue>)

  type BlockMap = map<string, Block>

  datatype CollectionRecord = CollectionRecord(value: Option<Collection>)

  /** The raw response of the workspace API for one page id. */
  datatype RecordMap = RecordMap(
    block: Option<BlockMap>,
    collection: seq<CollectionRecord>,
    collectionQuery: RawJson,
    collectionView: RawJson,
    signedUrls: RawJson,
    previewImages: RawJson)

  /** `block[id]?.value`. The ensures only unfold the body for callers. */
  function ValueOf(block: BlockMap, id: string): (v: Option<BlockValue>)
    ensures v.Some? ==> id in block && block[id].value == v
    ensures id !in block ==> v == None
  {
    if id in block then block[id].value else None
  }

  /** The static site configuration the layer reads. */
  datatype BlogConfig = BlogConfig(
    title: string,
    description: string,
    homeBannerImage: string,
    avatar: string,
    link: string,
    recordsSortBy: string,
    tagsProperty: string,
    categoryProperty: string,
    typeMenu: string,
    typeSubMenu: string,
    typeSubMenuPage: string)

  /** Overrides read from the workspace itself; "" is an absent entry. */
  datatype NotionConfig = NotionConfig(
    title: string,
    description: string,
    homeBannerImage: string,
    avatar: string,
    link: string)

  /** What getTagOptions and getCategoryOptions return: `{}` without a schema,
      otherwise an option list. */
  datatype OptionsResult = NoSchema | OptionList(options: seq<SelectOption>)

  /** Code the layer calls but that is not part of this model. Each is a
      deterministic function of its arguments. */
  datatype Collaborators = Collaborators(
    /** getPostBlocks(pageId, from); None when the fetch fails */
    postBlocks: (string, string) -> Option<RecordMap>,
    /** idToUuid */
    idToUuid: string -> string,
    /** getAllPageIds(collectionQuery, collectionId, collectionView, viewIds) */
    allPageIds: (RawJson, Option<string>, RawJson, Option<seq<string>>) -> seq<string>,
    /** getPageProperties(id, block, schema, null, tagOptions); None for a falsy result */
    pageProperties: (string, BlockMap, Option<Schema>, Option<OptionsResult>) -> Option<ContentItem>,
    /** getAllTags({allPages, tagOptions}) */
    allTags: (seq<ContentItem>, OptionsResult) -> seq<SelectOption>,
    /** getAllCategories({allPages, categoryOptions}) */
    allCategories: (seq<ContentItem>, OptionsResult) -> seq<SelectOption>,
    /** mapImgUrl(url, collection, "collection") */
    mapImgUrl: (string, Collection, string) -> string,
    /** compressImage(url) */
    compressImage: string -> string)

  const Published := "Published"
  const Invisible := "Invisible"
}
