/** The two menus built from collectionData: the flat custom nav of single pages
    and the custom menu, a tree that hangs every sub-menu item under the nearest
    menu item before it. */
module Navigation {

  import opened Optional
  import opened NotionRecords
  import opened JsSemantics
  import opened Selection

  /** One entry of customNav; `icon` is None for `null`. */
  datatype NavLink = NavLink(icon: Option<string>, name: string, to: string, target: string, show: bool)

  /** The link getCustomNav pushes for one page. */
  function NavLinkOf(p: ContentItem): NavLink {
    var icon := if p.icon == "" then None else Some(p.icon);
    if StartsWith(p.slug, "http") then NavLink(icon, p.title, p.slug, "_blank", true)
    else NavLink(icon, p.title, "/" + p.slug, "_self", true)
  }

  /** An external slug opens as itself in a new tab; any other slug becomes the
      site path "/" + slug in the same tab. Every link is shown, named after the
      page's title, and carries the page's icon or null. */
  lemma NavLinkSpec(p: ContentItem)
    ensures NavLinkOf(p).target == "_blank" <==> StartsWith(p.slug, "http")
    ensures NavLinkOf(p).target == "_blank" || NavLinkOf(p).target == "_self"
    ensures NavLinkOf(p).to == (if StartsWith(p.slug, "http") then p.slug else "/" + p.slug)
    ensures NavLinkOf(p).show && NavLinkOf(p).name == p.title
    ensures NavLinkOf(p).icon == None <==> p.icon == ""
    ensures NavLinkOf(p).icon.Some? ==> NavLinkOf(p).icon.value == p.icon
  {
  }

  /** The links of the pages, one per page. */
  function NavLinks(pages: seq<ContentItem>): seq<NavLink> {
    seq(|pages|, i requires 0 <= i < |pages| => NavLinkOf(pages[i]))
  }

  /** getCustomNav (lines 203-227): one link per page, in page order. */
  method CustomNav(pages: seq<ContentItem>) returns (nav: seq<NavLink>)
    ensures |nav| == |pages|
    ensures forall i :: 0 <= i < |pages| ==> nav[i] == NavLinkOf(pages[i])
  {
    nav := [];
    if |pages| > 0 {
      var i := 0;
      while i < |pages|
        invariant 0 <= i <= |pages|
        invariant |nav| == i
        invariant forall j :: 0 <= j < i ==> nav[j] == NavLinkOf(pages[j])
      {
        var p := pages[i];
        var icon := if p.icon == "" then None else Some(p.icon);
        if StartsWith(p.slug, "http") {
          nav := nav + [NavLink(icon, p.title, p.slug, "_blank", true)];
        } else {
          nav := nav + [NavLink(icon, p.title, "/" + p.slug, "_self", true)];
        }
        i := i + 1;
      }
    }
  }

  /** A menu page as getCustomMenu leaves it: `show` set, and `target` set to
      "_blank" for an external slug (None: the item carries no target). */
  datatype MenuLink = MenuLink(item: ContentItem, show: bool, target: Option<string>)

  /** A top-level menu item and the sub-menu items attached to it, if any. */
  datatype MenuEntry = MenuEntry(link: MenuLink, subMenus: Option<seq<MenuLink>>)

  predicate IsMenu(cfg: BlogConfig, p: ContentItem) {
    p.kind == cfg.typeMenu
  }

  predicate IsSub(cfg: BlogConfig, p: ContentItem) {
    p.kind == cfg.typeSubMenu || p.kind == cfg.typeSubMenuPage
  }

  function LinkOf(p: ContentItem): MenuLink {
    MenuLink(p, true, if StartsWith(p.slug, "http") then Some("_blank") else None)
  }

  /** The Published items of the three menu types, in collectionData order. */
  function MenuPages(data: seq<ContentItem>, cfg: BlogConfig): seq<ContentItem> {
    Filter(data, MenuPage(cfg.typeMenu, cfg.typeSubMenu, cfg.typeSubMenuPage))
  }

  /** The entry for a menu item with the given sub-menu links; no links leave
      `subMenus` unset. */
  function Entry(p: ContentItem, subs: seq<MenuLink>): MenuEntry {
    MenuEntry(LinkOf(p), if subs == [] then None else Some(subs))
  }

  /** The links of the sub-menu items before the first menu item of s. */
  function LeadingSubs(cfg: BlogConfig, s: seq<ContentItem>): seq<MenuLink> {
    if s == [] || IsMenu(cfg, s[0]) then []
    else (if IsSub(cfg, s[0]) then [LinkOf(s[0])] else []) + LeadingSubs(cfg, s[1..])
  }

  /** The menu tree, defined by grouping: every menu item of s becomes an entry
      holding the sub-menu items that follow it up to the next menu item; items
      before the first menu item belong to no entry. */
  function MenuTree(cfg: BlogConfig, s: seq<ContentItem>): seq<MenuEntry> {
    if s == [] then []
    else if IsMenu(cfg, s[0]) then [Entry(s[0], LeadingSubs(cfg, s[1..]))] + MenuTree(cfg, s[1..])
    else MenuTree(cfg, s[1..])
  }

  /** Appends the links to the sub-menus of the last entry; without entries there
      is no parent and the links are dropped. */
  function AttachToLast(menus: seq<MenuEntry>, links: seq<MenuLink>): seq<MenuEntry> {
    if menus == [] || links == [] then menus
    else
      var parent := menus[|menus| - 1];
      var subs := if parent.subMenus.Some? then parent.subMenus.value else [];
      menus[..|menus| - 1] + [parent.(subMenus := Some(subs + links))]
  }

  /** One step of the forEach of getCustomMenu. */
  function MenuStep(cfg: BlogConfig, menus: seq<MenuEntry>, e: ContentItem): seq<MenuEntry> {
    if IsMenu(cfg, e) then menus + [MenuEntry(LinkOf(e), None)]
    else if IsSub(cfg, e) then AttachToLast(menus, [LinkOf(e)])
    else menus
  }

  /** The forEach of getCustomMenu over s, starting from the menus built so far. */
  function MenuFold(cfg: BlogConfig, menus: seq<MenuEntry>, s: seq<ContentItem>): seq<MenuEntry>
    decreases |s|
  {
    if s == [] then menus else MenuFold(cfg, MenuStep(cfg, menus, s[0]), s[1..])
  }

  lemma AttachNothing(menus: seq<MenuEntry>)
    ensures AttachToLast(menus, []) == menus
  {
  }

  lemma AttachTwice(menus: seq<MenuEntry>, a: seq<MenuLink>, b: seq<MenuLink>)
    ensures AttachToLast(AttachToLast(menus, a), b) == AttachToLast(menus, a + b)
  {
    if menus != [] && a != [] && b != [] {
      var parent := menus[|menus| - 1];
      var subs := if parent.subMenus.Some? then parent.subMenus.value else [];
      var once := AttachToLast(menus, a);
      assert once[..|once| - 1] == menus[..|menus| - 1];
      assert once[|once| - 1] == parent.(subMenus := Some(subs + a));
      assert subs + a + b == subs + (a + b);
    } else if a == [] {
      assert a + b == b;
    } else if b == [] {
      assert a + b == a;
    }
  }

  /** Folding over s from any menus attaches the leading sub-menu items to the last
      of those menus and appends the tree of s. */
  lemma {:induction false} MenuFoldIsTree(cfg: BlogConfig, menus: seq<MenuEntry>, s: seq<ContentItem>)
    ensures MenuFold(cfg, menus, s) == AttachToLast(menus, LeadingSubs(cfg, s)) + MenuTree(cfg, s)
    decreases |s|
  {
    if s == [] {
      AttachNothing(menus);
    } else {
      var e := s[0];
      MenuFoldIsTree(cfg, MenuStep(cfg, menus, e), s[1..]);
      if IsMenu(cfg, e) {
        var subs := LeadingSubs(cfg, s[1..]);
        assert AttachToLast(menus + [MenuEntry(LinkOf(e), None)], subs) == menus + [Entry(e, subs)] by {
          var m := menus + [MenuEntry(LinkOf(e), None)];
          if subs != [] {
            assert m[..|m| - 1] == menus;
            assert [] + subs == subs;
          }
        }
        AttachNothing(menus);
      } else if IsSub(cfg, e) {
        assert LeadingSubs(cfg, s) == [LinkOf(e)] + LeadingSubs(cfg, s[1..]);
        AttachTwice(menus, [LinkOf(e)], LeadingSubs(cfg, s[1..]));
      } else {
        assert LeadingSubs(cfg, s) == LeadingSubs(cfg, s[1..]);
      }
    }
  }

  /** getCustomMenu (lines 234-267): the menu pages are walked in order; a menu item
      is appended as a new entry, a sub-menu item is added to the sub-menus of the
      last entry, or dropped when there is none. The result is the grouped tree. */
  method CustomMenu(data: seq<ContentItem>, cfg: BlogConfig) returns (menus: seq<MenuEntry>)
    ensures menus == MenuTree(cfg, MenuPages(data, cfg))
  {
    var menuPages := Filter(data, MenuPage(cfg.typeMenu, cfg.typeSubMenu, cfg.typeSubMenuPage));
    menus := [];
    var i := 0;
    while i < |menuPages|
      invariant 0 <= i <= |menuPages|
      invariant MenuFold(cfg, menus, menuPages[i..]) == MenuFold(cfg, [], menuPages)
    {
      var e := menuPages[i];
      assert menuPages[i..][1..] == menuPages[i + 1..];
      var link := MenuLink(e, true, if StartsWith(e.slug, "http") then Some("_blank") else None);
      if e.kind == cfg.typeMenu {
        menus := menus + [MenuEntry(link, None)];
      } else if e.kind == cfg.typeSubMenu || e.kind == cfg.typeSubMenuPage {
        if |menus| > 0 {
          var parent := menus[|menus| - 1];
          if parent.subMenus.Some? {
            parent := parent.(subMenus := Some(parent.subMenus.value + [link]));
          } else {
            assert [] + [link] == [link];
            parent := parent.(subMenus := Some([link]));
          }
          menus := menus[..|menus| - 1] + [parent];
        }
      }
      i := i + 1;
    }
    MenuFoldIsTree(cfg, [], menuPages);
  }

  /** The links of the top-level entries. */
  function TopLinks(menus: seq<MenuEntry>): seq<MenuLink> {
    if menus == [] then [] else [menus[0].link] + TopLinks(menus[1..])
  }

  function LinksOf(s: seq<ContentItem>): seq<MenuLink> {
    if s == [] then [] else [LinkOf(s[0])] + LinksOf(s[1..])
  }

  lemma TopLinksCons(e: MenuEntry, rest: seq<MenuEntry>)
    ensures TopLinks([e] + rest) == [e.link] + TopLinks(rest)
  {
    assert ([e] + rest)[1..] == rest;
  }

  lemma LinksOfCons(p: ContentItem, rest: seq<ContentItem>)
    ensures LinksOf([p] + rest) == [LinkOf(p)] + LinksOf(rest)
  {
    assert ([p] + rest)[1..] == rest;
  }

  /** The top level of the menu holds exactly the Published menu items, in
      collectionData order. */
  lemma {:induction false} MenuTopLevel(data: seq<ContentItem>, cfg: BlogConfig)
    ensures TopLinks(MenuTree(cfg, MenuPages(data, cfg))) == LinksOf(Filter(data, PublishedOf(cfg.typeMenu)))
  {
    var sel := MenuPage(cfg.typeMenu, cfg.typeSubMenu, cfg.typeSubMenuPage);
    if data != [] {
      var d, rest := data[0], data[1..];
      MenuTopLevel(rest, cfg);
      assert data == [d] + rest;
      FilterCons(d, rest, sel);
      FilterCons(d, rest, PublishedOf(cfg.typeMenu));
      var tail := Filter(rest, sel);
      assert MenuPages(data, cfg) == (if Selects(sel, d) then [d] else []) + tail;
      assert MenuPages(rest, cfg) == tail;
      if Selects(sel, d) {
        assert ([d] + tail)[1..] == tail;
        if IsMenu(cfg, d) {
          assert MenuTree(cfg, [d] + tail) == [Entry(d, LeadingSubs(cfg, tail))] + MenuTree(cfg, tail);
          TopLinksCons(Entry(d, LeadingSubs(cfg, tail)), MenuTree(cfg, tail));
          LinksOfCons(d, Filter(rest, PublishedOf(cfg.typeMenu)));
        } else {
          assert MenuTree(cfg, [d] + tail) == MenuTree(cfg, tail);
          assert !Selects(PublishedOf(cfg.typeMenu), d);
          assert Filter(data, PublishedOf(cfg.typeMenu)) == Filter(rest, PublishedOf(cfg.typeMenu));
        }
      } else {
        assert [] + tail == tail;
        assert !Selects(PublishedOf(cfg.typeMenu), d);
        assert Filter(data, PublishedOf(cfg.typeMenu)) == Filter(rest, PublishedOf(cfg.typeMenu));
      }
    }
  }

  /** Items before the first menu item contribute nothing to the tree: a sub-menu
      item with no menu item before it is dropped. */
  lemma {:induction false} OrphansDropped(cfg: BlogConfig, s: seq<ContentItem>, k: nat)
    requires k <= |s|
    requires forall i :: 0 <= i < k ==> !IsMenu(cfg, s[i])
    ensures MenuTree(cfg, s) == MenuTree(cfg, s[k..])
  {
    if k > 0 {
      OrphansDropped(cfg, s[1..], k - 1);
      assert s[1..][k - 1..] == s[k..];
    }
  }

  /** The link of a used menu page: shown, and opened in a new tab exactly when
      its slug is external. */
  predicate IsUsedLink(l: MenuLink) {
    l.show && (l.target == Some("_blank") <==> StartsWith(l.item.slug, "http"))
  }

  lemma {:induction false} LeadingSubsFrom(cfg: BlogConfig, s: seq<ContentItem>)
    ensures forall l :: l in LeadingSubs(cfg, s) ==> IsUsedLink(l) && l.item in s && IsSub(cfg, l.item)
  {
    if s != [] && !IsMenu(cfg, s[0]) {
      LeadingSubsFrom(cfg, s[1..]);
    }
  }

  /** Every entry is a menu item of s and every sub-menu link a sub-menu item of s,
      all with `show` set and `target` as the slug demands. */
  lemma {:induction false} MenuTreeFrom(cfg: BlogConfig, s: seq<ContentItem>)
    ensures forall e :: e in MenuTree(cfg, s) ==>
      && IsUsedLink(e.link) && e.link.item in s && IsMenu(cfg, e.link.item)
      && (e.subMenus.Some? ==>
            && e.subMenus.value != []
            && forall l :: l in e.subMenus.value ==> IsUsedLink(l) && l.item in s && IsSub(cfg, l.item))
  {
    if s != [] {
      MenuTreeFrom(cfg, s[1..]);
      if IsMenu(cfg, s[0]) {
        LeadingSubsFrom(cfg, s[1..]);
      }
    }
  }

  /** The menu getCustomMenu builds from collectionData uses Published items of
      collectionData only: every entry a menu item, every sub-menu link a
      sub-menu item. */
  lemma MenuPublished(cfg: BlogConfig, data: seq<ContentItem>)
    ensures forall e :: e in MenuTree(cfg, MenuPages(data, cfg)) ==>
      && e.link.item in data && e.link.item.status == Published && IsMenu(cfg, e.link.item)
      && (e.subMenus.Some? ==>
            forall l :: l in e.subMenus.value ==> l.item in data && l.item.status == Published && IsSub(cfg, l.item))
  {
    MenuTreeFrom(cfg, MenuPages(data, cfg));
    FilterSelects(data, MenuPage(cfg.typeMenu, cfg.typeSubMenu, cfg.typeSubMenuPage));
  }

  /** The example of a menu declared as Menu "Docs", SubMenu "Guide",
      SubMenuPage "Intro", Menu "API". */
  lemma MenuExample(cfg: BlogConfig, docs: ContentItem, guide: ContentItem, intro: ContentItem, api: ContentItem)
    requires cfg.typeMenu == "Menu" && cfg.typeSubMenu == "SubMenu" && cfg.typeSubMenuPage == "SubMenuPage"
    requires docs.kind == "Menu" && guide.kind == "SubMenu" && intro.kind == "SubMenuPage" && api.kind == "Menu"
    requires docs.title == "Docs" && guide.title == "Guide" && intro.title == "Intro" && api.title == "API"
    requires forall p :: p in [docs, guide, intro, api] ==> p.status == Published
    ensures MenuTree(cfg, MenuPages([docs, guide, intro, api], cfg))
         == [Entry(docs, [LinkOf(guide), LinkOf(intro)]), Entry(api, [])]
  {
    var s := [docs, guide, intro, api];
    var sel := MenuPage(cfg.typeMenu, cfg.typeSubMenu, cfg.typeSubMenuPage);
    FilterEverythingSelected(s, sel);
    assert s[1..] == [guide, intro, api] && s[1..][1..] == [intro, api] && s[1..][1..][1..] == [api];
    assert [api][1..] == [];
    assert LeadingSubs(cfg, [api]) == [];
    assert LeadingSubs(cfg, [intro, api]) == [LinkOf(intro)];
    assert LeadingSubs(cfg, [guide, intro, api]) == [LinkOf(guide), LinkOf(intro)];
    assert MenuTree(cfg, [api]) == [Entry(api, [])];
    assert MenuTree(cfg, [intro, api]) == [Entry(api, [])];
    assert MenuTree(cfg, [guide, intro, api]) == [Entry(api, [])];
  }

  lemma {:induction false} FilterEverythingSelected(s: seq<ContentItem>, sel: Selector)
    requires forall p :: p in s ==> Selects(sel, p)
    ensures Filter(s, sel) == s
  {
    if s != [] {
      FilterEverythingSelected(s[1..], sel);
      assert s == [s[0]] + s[1..];
    }
  }
}
