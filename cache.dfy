/** The read-through cache in front of the readers (getNotionPageData and
    getNotionPageDataForOne) and the three entry points that hand a sanitised copy
    of a result to callers (getGlobalData, getCustomedGlobalData and, without the
    cache, getGlobalPageIdData). The cache store is a map from key to the stored
    result; what the storage backend does beyond get and set is not modelled. */
module Cache {

  import opened Optional
  import opened NotionRecords
  import opened Pipeline

  /** The cache key of a page: "page_block_" followed by the page id. */
  function CacheKey(pageId: string): (key: string)
    ensures |key| == |pageId| + 11
    ensures key[..11] == "page_block_"
    ensures key[11..] == pageId
  {
    "page_block_" + pageId
  }

  /** Distinct pages never share a cache entry. */
  lemma CacheKeyInjective(a: string, b: string)
    ensures CacheKey(a) == CacheKey(b) <==> a == b
  {
    if CacheKey(a) == CacheKey(b) {
      assert a == CacheKey(a)[11..] == CacheKey(b)[11..] == b;
    }
  }

  /** `data.pageIds` of a stored result, absent for the shapes without that key. */
  function PageIdsOf(r: DbResult): Option<seq<string>> {
    match r
    case Empty(e) => Some(e.pageIds)
    case Database(d) => Some(d.pageIds)
    case _ => None
  }

  /** `data && data.pageIds?.length > 0`: a stored result with a non-empty page id
      list. Every stored result is an object, so it is always truthy. */
  predicate IsHit(entries: map<string, DbResult>, key: string) {
    key in entries && PageIdsOf(entries[key]).Some? && |PageIdsOf(entries[key]).value| > 0
  }

  /** What the readers store: a sentinel always has an empty page id list. */
  predicate Storable(r: DbResult) {
    r.Empty? ==> r.empty.pageIds == []
  }

  /** Both gated readers only ever produce storable results. */
  lemma ReadersStorable(pageId: string, from: string, kind: string, cfg: BlogConfig, co: Collaborators)
    ensures DatabaseInfo(pageId, from, kind, cfg, co).Normal? ==> Storable(DatabaseInfo(pageId, from, kind, cfg, co).value)
    ensures Storable(DatabaseInfoForOne(pageId, from, kind, cfg, co))
  {
    var uuid := co.idToUuid(pageId);
    EmptyDataSpec(cfg, uuid);
  }

  /** Only a full reader result with at least one page id is ever served from a
      store of reader results: the sentinel, `{}`, a one-record result and an
      id-only result miss. */
  lemma HitIsDatabase(entries: map<string, DbResult>, key: string)
    requires key in entries ==> Storable(entries[key])
    ensures IsHit(entries, key) <==> key in entries && entries[key].Database? && |entries[key].page.pageIds| > 0
  {
    if key in entries && entries[key].Empty? {
      assert PageIdsOf(entries[key]).value == entries[key].empty.pageIds;
    }
  }

  /** The sentinel never becomes a hit, since its page id list is empty. */
  lemma {:induction false} SentinelMisses(entries: map<string, DbResult>, key: string, cfg: BlogConfig, pageId: string)
    requires key in entries && entries[key] == Empty(MakeEmptyData(cfg, pageId))
    ensures !IsHit(entries, key)
  {
    EmptyDataSpec(cfg, pageId);
  }

  /** The value the cache gate returns, given what the reader would compute. */
  function GateResult(entries: map<string, DbResult>, key: string, computed: Completion<DbResult>)
    : Completion<DbResult>
  {
    if IsHit(entries, key) then Normal(entries[key]) else computed
  }

  /** The store after the gate: unchanged on a hit; on a miss the computed result is
      written under the key whenever the reader completes (an object being truthy). */
  function GateStore(entries: map<string, DbResult>, key: string, computed: Completion<DbResult>)
    : map<string, DbResult>
  {
    if IsHit(entries, key) then entries
    else if computed.Normal? then entries[key := computed.value]
    else entries
  }

  /** The gate writes at most the one key: every other entry is kept as it was, and
      the key holds the computed result after a completed miss. */
  lemma GateStoreFrame(entries: map<string, DbResult>, key: string, computed: Completion<DbResult>)
    ensures forall k :: k != key ==> (k in GateStore(entries, key, computed) <==> k in entries)
    ensures forall k :: k != key && k in entries ==> GateStore(entries, key, computed)[k] == entries[k]
    ensures !IsHit(entries, key) && computed.Normal? ==>
              key in GateStore(entries, key, computed) && GateStore(entries, key, computed)[key] == computed.value
    ensures IsHit(entries, key) || computed.TypeError? ==> GateStore(entries, key, computed) == entries
  {
  }

  /** Reading a page twice: once the reader has produced a full result with page ids,
      the second read is served from the cache, returns that same result and leaves
      the store as the first read did, whatever a new computation would give. */
  lemma {:induction false} GateRepeat(entries: map<string, DbResult>, key: string,
                                      first: Completion<DbResult>, second: Completion<DbResult>)
    requires first.Normal? && first.value.Database? && |first.value.page.pageIds| > 0
    ensures var after := GateStore(entries, key, first);
            var got := GateResult(entries, key, first);
            GateResult(after, key, second) == got
            && GateStore(after, key, second) == after
  {
    var after := GateStore(entries, key, first);
    if !IsHit(entries, key) {
      assert after[key] == first.value;
      assert PageIdsOf(after[key]) == Some(first.value.page.pageIds);
    }
    assert IsHit(after, key);
  }

  /** A result that never hits is recomputed on every read. */
  lemma {:induction false} GateMissRepeats(entries: map<string, DbResult>, key: string,
                                           first: Completion<DbResult>, second: Completion<DbResult>)
    requires first.Normal? && !first.value.Database? && Storable(first.value)
    requires !IsHit(entries, key)
    ensures GateResult(GateStore(entries, key, first), key, second) == second
  {
    HitIsDatabase(GateStore(entries, key, first), key);
  }

  /** The sanitised form of a completed read; a rejected read stays rejected. */
  function SanitisedCompletion(c: Completion<DbResult>): (out: Completion<JsObject>)
    ensures out.Normal? <==> c.Normal?
    ensures out.Normal? ==> out.value.Keys !! SensitiveKeys
  {
    SanitisedNoSensitive(c);
    match c
    case Normal(v) => Normal(Sanitised(v))
    case TypeError => TypeError
  }

  lemma SanitisedNoSensitive(c: Completion<DbResult>)
    ensures c.Normal? ==> Sanitised(c.value).Keys !! SensitiveKeys
  {
    if c.Normal? {
      SanitisedKeys(c.value);
    }
  }

  class PageCache {

    /** The stored results, by cache key. */
    var entries: map<string, DbResult>

    /** Every stored value is one a reader produced. */
    ghost predicate Valid()
      reads this
    {
      forall k :: k in entries ==> Storable(entries[k])
    }

    constructor()
      ensures entries == map[]
      ensures Valid()
    {
      entries := map[];
    }

    /** getNotionPageData (lines 148-163): a hit is returned as stored and nothing is
        computed or written; a miss runs the full reader and stores what it returns. */
    method GetNotionPageData(pageId: string, from: string, kind: string, cfg: BlogConfig, co: Collaborators)
      returns (r: Completion<DbResult>)
      requires Valid()
      modifies this
      ensures Valid()
      ensures r == GateResult(old(entries), CacheKey(pageId), DatabaseInfo(pageId, from, kind, cfg, co))
      ensures entries == GateStore(old(entries), CacheKey(pageId), DatabaseInfo(pageId, from, kind, cfg, co))
      ensures IsHit(old(entries), CacheKey(pageId)) ==> r.Normal? && r.value.Database? && |r.value.page.pageIds| > 0
    {
      var key := CacheKey(pageId);
      HitIsDatabase(entries, key);
      if key in entries {
        var data := entries[key];
        var ids := PageIdsOf(data);
        if ids.Some? && |ids.value| > 0 {
          return Normal(data);
        }
      }
      r := FetchDatabaseInfo(pageId, from, kind, cfg, co);
      ReadersStorable(pageId, from, kind, cfg, co);
      if r.Normal? {
        entries := entries[key := r.value];
      }
    }

    /** getNotionPageDataForOne (lines 172-196): the same gate in front of the
        one-record reader. It shares the key, so it returns a full result cached by
        getNotionPageData; what it stores itself is never a hit. */
    method GetNotionPageDataForOne(pageId: string, from: string, kind: string, cfg: BlogConfig, co: Collaborators)
      returns (r: DbResult)
      requires Valid()
      modifies this
      ensures Valid()
      ensures Normal(r) == GateResult(old(entries), CacheKey(pageId), Normal(DatabaseInfoForOne(pageId, from, kind, cfg, co)))
      ensures entries == GateStore(old(entries), CacheKey(pageId), Normal(DatabaseInfoForOne(pageId, from, kind, cfg, co)))
      ensures IsHit(old(entries), CacheKey(pageId)) ==> r.Database? && |r.page.pageIds| > 0
    {
      var key := CacheKey(pageId);
      HitIsDatabase(entries, key);
      if key in entries {
        var data := entries[key];
        var ids := PageIdsOf(data);
        if ids.Some? && |ids.value| > 0 {
          return data;
        }
      }
      r := FetchDatabaseInfoForOne(pageId, from, kind, cfg, co);
      ReadersStorable(pageId, from, kind, cfg, co);
      entries := entries[key := r];
    }

    /** getGlobalData (lines 90-112): the gated read, deep-cloned and stripped of the
        sensitive keys. */
    method GetGlobalData(pageId: string, kind: string, from: string, cfg: BlogConfig, co: Collaborators)
      returns (db: Completion<JsObject>)
      requires Valid()
      modifies this
      ensures Valid()
      ensures db == SanitisedCompletion(GateResult(old(entries), CacheKey(pageId),
                                                   DatabaseInfo(pageId, from, kind, cfg, co)))
      ensures entries == GateStore(old(entries), CacheKey(pageId), DatabaseInfo(pageId, from, kind, cfg, co))
    {
      var data := GetNotionPageData(pageId, from, kind, cfg, co);
      if data.TypeError? {
        return TypeError;
      }
      var out := Sanitise(ObjectOf(data.value));
      assert out == Sanitised(data.value);
      db := Normal(out);
    }

    /** getCustomedGlobalData (lines 24-42): getGlobalData with the default type "Record". */
    method GetCustomedGlobalData(pageId: string, from: string, cfg: BlogConfig, co: Collaborators)
      returns (db: Completion<JsObject>)
      requires Valid()
      modifies this
      ensures Valid()
      ensures db == SanitisedCompletion(GateResult(old(entries), CacheKey(pageId),
                                                   DatabaseInfo(pageId, from, "Record", cfg, co)))
      ensures entries == GateStore(old(entries), CacheKey(pageId), DatabaseInfo(pageId, from, "Record", cfg, co))
    {
      db := GetGlobalData(pageId, "Record", from, cfg, co);
    }
  }
}
