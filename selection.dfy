/** The item predicates the layer filters `collectionData` and `allPages` with,
    and one order-preserving filter over them. */
module Selection {

  import opened NotionRecords
  import opened JsSemantics

  /** The filter callbacks of getNotionData.js, one constructor per distinct test. */
  datatype Selector =
      /** allPages: slug set, not external, Published or Invisible */
    | PublicPage
      /** allPages of the one-record variant: slug set, of the requested type, not external, Published */
    | RecordPage(kind: string)
      /** a Published item of a content type (not CONFIG, Menu, SubMenu, SubMenuPage, Notice or Page) */
    | Post
      /** a Post with a slug that is set and not external */
    | NavPost
      /** a Published item of one of the three configured menu types */
    | MenuPage(menu: string, subMenu: string, subMenuPage: string)
      /** a Published item of the given type */
    | PublishedOf(kind: string)
      /** an item the postCount side-count of the full variant counts for the requested type */
    | CountedFor(kind: string)

  /** The types that are not content posts. */
  predicate IsNonPostType(kind: string) {
    kind == "CONFIG" || kind == "Menu" || kind == "SubMenu" || kind == "SubMenuPage"
    || kind == "Notice" || kind == "Page"
  }

  /** A slug that is set and does not start with "http". */
  predicate IsInternalSlug(slug: string) {
    slug != "" && !StartsWith(slug, "http")
  }

  predicate Selects(sel: Selector, p: ContentItem) {
    match sel
    case PublicPage => IsInternalSlug(p.slug) && (p.status == Invisible || p.status == Published)
    case RecordPage(kind) => p.slug != "" && p.kind == kind && !StartsWith(p.slug, "http") && p.status == Published
    case Post => !IsNonPostType(p.kind) && p.status == Published
    case NavPost => IsInternalSlug(p.slug) && !IsNonPostType(p.kind) && p.status == Published
    case MenuPage(m, sm, smp) => (p.kind == m || p.kind == sm || p.kind == smp) && p.status == Published
    case PublishedOf(kind) => p.kind == kind && p.status == Published
    case CountedFor(kind) =>
      if kind == "Record" then p.kind == "Record" && p.status == Published
      else if kind == "Devproject" then p.kind == "Devproject" && p.status == Published
      else if kind == "Engineering" then p.kind == "Engineering" && p.status == Published
      else if kind == "GuestBook" then p.kind == "GuestBook" && p.status == Published
      else if kind == "Page" then p.kind == "GuestBook" && p.status == Published
      else true
  }

  /** Array.prototype.filter with the selector as callback. */
  function Filter(s: seq<ContentItem>, sel: Selector): seq<ContentItem> {
    if s == [] then []
    else (if Selects(sel, s[0]) then [s[0]] else []) + Filter(s[1..], sel)
  }

  lemma FilterCons(x: ContentItem, s: seq<ContentItem>, sel: Selector)
    ensures Filter([x] + s, sel) == (if Selects(sel, x) then [x] else []) + Filter(s, sel)
  {
    assert ([x] + s)[1..] == s;
  }

  lemma {:induction false} FilterAppend(a: seq<ContentItem>, b: seq<ContentItem>, sel: Selector)
    ensures Filter(a + b, sel) == Filter(a, sel) + Filter(b, sel)
  {
    if a == [] {
      assert a + b == b;
    } else {
      var x, t := a[0], a[1..];
      assert a == [x] + t;
      assert a + b == [x] + (t + b);
      FilterAppend(t, b, sel);
      FilterCons(x, t + b, sel);
      FilterCons(x, t, sel);
    }
  }

  /** A filter keeps exactly the selected elements of its input, and no more copies
      of any element than the input has. */
  lemma {:induction false} FilterSelects(s: seq<ContentItem>, sel: Selector)
    ensures |Filter(s, sel)| <= |s|
    ensures multiset(Filter(s, sel)) <= multiset(s)
    ensures forall p :: p in Filter(s, sel) <==> p in s && Selects(sel, p)
  {
    if s != [] {
      FilterSelects(s[1..], sel);
      assert s == [s[0]] + s[1..];
    }
  }

  /** Filtering with a selector that implies another keeps at most as many items. */
  lemma {:induction false} FilterNarrower(s: seq<ContentItem>, a: Selector, b: Selector)
    requires forall p :: Selects(a, p) ==> Selects(b, p)
    ensures |Filter(s, a)| <= |Filter(s, b)|
  {
    if s != [] {
      FilterNarrower(s[1..], a, b);
    }
  }

  lemma FilterSnoc(s: seq<ContentItem>, x: ContentItem, sel: Selector)
    ensures Filter(s + [x], sel) == Filter(s, sel) + (if Selects(sel, x) then [x] else [])
  {
    FilterAppend(s, [x], sel);
    FilterCons(x, [], sel);
    assert [x] + [] == [x];
  }

  /** Selectors that accept the same items filter alike. */
  lemma {:induction false} FilterEquivalent(s: seq<ContentItem>, a: Selector, b: Selector)
    requires forall p :: Selects(a, p) <==> Selects(b, p)
    ensures Filter(s, a) == Filter(s, b)
  {
    if s != [] {
      FilterEquivalent(s[1..], a, b);
    }
  }

  /** A selector that accepts every item keeps the whole sequence. */
  lemma {:induction false} FilterEverything(s: seq<ContentItem>, sel: Selector)
    requires forall p :: Selects(sel, p)
    ensures Filter(s, sel) == s
  {
    if s != [] {
      FilterEverything(s[1..], sel);
      assert s == [s[0]] + s[1..];
    }
  }

  /** The head of a filter is the first selected element of the input, and a
      filter is empty exactly when no element is selected. */
  lemma {:induction false} FilterFirst(s: seq<ContentItem>, sel: Selector)
    ensures Filter(s, sel) == [] <==> forall i :: 0 <= i < |s| ==> !Selects(sel, s[i])
    ensures Filter(s, sel) != [] ==> exists i :: 0 <= i < |s| && s[i] == Filter(s, sel)[0] && Selects(sel, s[i])
                                              && forall j :: 0 <= j < i ==> !Selects(sel, s[j])
  {
    if s != [] {
      FilterFirst(s[1..], sel);
      if !Selects(sel, s[0]) && Filter(s[1..], sel) != [] {
        var i :| 0 <= i < |s[1..]| && s[1..][i] == Filter(s[1..], sel)[0] && Selects(sel, s[1..][i])
                 && forall j :: 0 <= j < i ==> !Selects(sel, s[1..][j]);
        assert s[i + 1] == Filter(s, sel)[0];
        assert forall j :: 0 <= j < i + 1 ==> !Selects(sel, s[j]) by {
          forall j | 0 <= j < i + 1 ensures !Selects(sel, s[j]) {
            if j > 0 {
              assert s[j] == s[1..][j - 1];
            }
          }
        }
      }
      if !Selects(sel, s[0]) {
        assert (forall i :: 0 <= i < |s| ==> !Selects(sel, s[i]))
           <==> (forall i :: 0 <= i < |s[1..]| ==> !Selects(sel, s[1..][i]));
      }
    }
  }
}
