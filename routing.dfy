/**
 * The client-side router (js/router.js): a fixed table from paths to page ids,
 * history kept in step with the current path, "active" flags on navigation
 * links and page sections, and one `pageChange` event per navigation.
 *
 * The browser is abstracted as a `Window` object: the current pathname, the
 * history entries, the document's elements as two sequences, and a log of the
 * `pageChange` events dispatched.
 */
module Routing {
  import opened Wrappers

  /** An element with an `id` attribute; `isPage` when it carries the class `page`. */
  datatype Section = Section(id: string, isPage: bool, active: bool)

  /** An element with an `href` attribute; `isNavLink` when it carries the class `nav-link`. */
  datatype Link = Link(href: string, isNavLink: bool, active: bool)

  /** The router's `routes` table, path to page id. */
  const RouteTable: map<string, string> := map[
    "/" := "home",
    "/home" := "home",
    "/dota2" := "dota2",
    "/csgo2" := "csgo2",
    "/valorant" := "valorant",
    "/league" := "league",
    "/fortnite" := "fortnite",
    "/overwatch" := "overwatch",
    "/pubg" := "pubg",
    "/about" := "about",
    "/contacts" := "contacts",
    "/news" := "news",
    "/tournaments" := "tournaments",
    "/streams" := "streams",
    "/merchandise" := "merchandise"
  ]

  /** `routes[path] || 'home'`: a missing entry (or a falsy one) falls back to home. */
  function Resolve(path: string): (page: string)
    ensures path in RouteTable ==> page == RouteTable[path]
    ensures path !in RouteTable ==> page == "home"
    ensures page in RouteTable.Values
  {
    var hit := if path in RouteTable then Some(RouteTable[path]) else None;
    assert RouteTable["/"] == "home";
    if Truthy(hit) then hit.value else "home"
  }

  /** The page ids the table maps to: home and one per section of the site. */
  const PageIds: set<string> := {
    "home", "dota2", "csgo2", "valorant", "league", "fortnite", "overwatch",
    "pubg", "about", "contacts", "news", "tournaments", "streams", "merchandise"
  }

  /** The table's range is exactly the fourteen page ids. */
  lemma RouteTableRange()
    ensures RouteTable.Values == PageIds
  {
    forall page | page in PageIds ensures page in RouteTable.Values {
      PageIdRoute(page);
    }
  }

  /** The route "/id" of each page id, spelled out one id at a time. */
  lemma PageIdRoute(page: string)
    requires page in PageIds
    ensures "/" + page in RouteTable && RouteTable["/" + page] == page
  {
    if page == "home" {
      assert "/" + page == "/home" && RouteTable["/home"] == "home";
    } else if page == "dota2" {
      assert "/" + page == "/dota2" && RouteTable["/dota2"] == "dota2";
    } else if page == "csgo2" {
      assert "/" + page == "/csgo2" && RouteTable["/csgo2"] == "csgo2";
    } else if page == "valorant" {
      assert "/" + page == "/valorant" && RouteTable["/valorant"] == "valorant";
    } else if page == "league" {
      assert "/" + page == "/league" && RouteTable["/league"] == "league";
    } else if page == "fortnite" {
      assert "/" + page == "/fortnite" && RouteTable["/fortnite"] == "fortnite";
    } else if page == "overwatch" {
      assert "/" + page == "/overwatch" && RouteTable["/overwatch"] == "overwatch";
    } else if page == "pubg" {
      assert "/" + page == "/pubg" && RouteTable["/pubg"] == "pubg";
    } else if page == "about" {
      assert "/" + page == "/about" && RouteTable["/about"] == "about";
    } else if page == "contacts" {
      assert "/" + page == "/contacts" && RouteTable["/contacts"] == "contacts";
    } else if page == "news" {
      assert "/" + page == "/news" && RouteTable["/news"] == "news";
    } else if page == "tournaments" {
      assert "/" + page == "/tournaments" && RouteTable["/tournaments"] == "tournaments";
    } else if page == "streams" {
      assert "/" + page == "/streams" && RouteTable["/streams"] == "streams";
    } else if page == "merchandise" {
      assert "/" + page == "/merchandise" && RouteTable["/merchandise"] == "merchandise";
    }
  }

  /** Every page id has a route of the form "/id", the href that marks its link. */
  lemma PageHrefsRoundTrip(page: string)
    requires page in RouteTable.Values
    ensures "/" + page in RouteTable && Resolve("/" + page) == page
  {
    RouteTableRange();
    PageIdRoute(page);
  }

  /** Every key of the table is "/" or "/" followed by the page id it maps to. */
  lemma RouteKeysNamePages(path: string)
    requires path in RouteTable
    ensures path == "/" || path == "/" + RouteTable[path]
  {
  }

  // ---- the document's "active" flags ------------------------------------

  function WithId(id: string): Section -> bool {
    (x: Section) => x.id == id
  }

  function WithHref(href: string): Link -> bool {
    (x: Link) => x.href == href
  }

  function Hidden(x: Section): Section {
    if x.isPage then x.(active := false) else x
  }

  function Deactivated(l: Link): Link {
    if l.isNavLink then l.(active := false) else l
  }

  /** `querySelectorAll('.page').forEach(remove 'active')`. */
  function HidePages(s: seq<Section>): seq<Section> {
    seq(|s|, k requires 0 <= k < |s| => Hidden(s[k]))
  }

  /** `querySelectorAll('.nav-link').forEach(remove 'active')`. */
  function ClearNavLinks(s: seq<Link>): seq<Link> {
    seq(|s|, k requires 0 <= k < |s| => Deactivated(s[k]))
  }

  /** The document after `showPage(id)`: pages hidden, then `getElementById(id)` marked. */
  function ShowSections(s: seq<Section>, id: string): seq<Section> {
    var c := HidePages(s);
    match FirstIndex(s, WithId(id))
    case None => c
    case Some(i) => c[i := c[i].(active := true)]
  }

  /**
   * The element `updateNavigation(page)` marks: the first with href "/page",
   * else the first with href "#page", else none.
   */
  function ChosenLink(s: seq<Link>, page: string): (r: Option<nat>)
    ensures r.Some? ==> r.value < |s|
    ensures r.Some? ==> s[r.value].href == "/" + page || s[r.value].href == "#" + page
    ensures (exists j :: 0 <= j < |s| && s[j].href == "/" + page) ==> r.Some? && s[r.value].href == "/" + page
    ensures r.Some? && s[r.value].href == "/" + page ==> forall j :: 0 <= j < r.value ==> s[j].href != "/" + page
    ensures r.Some? && s[r.value].href != "/" + page ==>
              (forall j :: 0 <= j < |s| ==> s[j].href != "/" + page) &&
              forall j :: 0 <= j < r.value ==> s[j].href != "#" + page
    ensures r.None? <==> forall j :: 0 <= j < |s| ==> s[j].href != "/" + page && s[j].href != "#" + page
  {
    var slash := FirstIndex(s, WithHref("/" + page));
    if slash.Some? then slash else FirstIndex(s, WithHref("#" + page))
  }

  /** The document after `updateNavigation(page)`. */
  function MarkLinks(s: seq<Link>, page: string): seq<Link> {
    var c := ClearNavLinks(s);
    match ChosenLink(s, page)
    case None => c
    case Some(i) => c[i := c[i].(active := true)]
  }

  /**
   * After `showPage(id)` an element is active exactly when it is the first
   * element with that id, or it is not a page and was active already.
   */
  lemma ShowSectionsActive(s: seq<Section>, id: string, k: nat)
    requires k < |s|
    ensures |ShowSections(s, id)| == |s|
    ensures ShowSections(s, id)[k].id == s[k].id && ShowSections(s, id)[k].isPage == s[k].isPage
    ensures ShowSections(s, id)[k].active <==>
              FirstIndex(s, WithId(id)) == Some(k) || (!s[k].isPage && s[k].active)
  {
  }

  /** After `showPage(id)` at most one page section is active, and it has id `id`. */
  lemma ShowSectionsSingle(s: seq<Section>, id: string, i: nat, j: nat)
    requires i < |s| && j < |s|
    requires s[i].isPage && s[j].isPage
    requires ShowSections(s, id)[i].active && ShowSections(s, id)[j].active
    ensures i == j && s[i].id == id
  {
    ShowSectionsActive(s, id, i);
    ShowSectionsActive(s, id, j);
  }

  /** After `showPage(id)`, the first element with id `id` is active when there is one. */
  lemma ShowSectionsTarget(s: seq<Section>, id: string, k: nat)
    requires k < |s| && s[k].id == id
    ensures exists i :: 0 <= i <= k && s[i].id == id && ShowSections(s, id)[i].active
  {
    var i := FirstIndex(s, WithId(id)).value;
    ShowSectionsActive(s, id, i);
  }

  /**
   * After `updateNavigation(page)` an element is active exactly when it is the
   * chosen one, or it is not a nav link and was active already.
   */
  lemma MarkLinksActive(s: seq<Link>, page: string, k: nat)
    requires k < |s|
    ensures |MarkLinks(s, page)| == |s|
    ensures MarkLinks(s, page)[k].href == s[k].href && MarkLinks(s, page)[k].isNavLink == s[k].isNavLink
    ensures MarkLinks(s, page)[k].active <==>
              ChosenLink(s, page) == Some(k) || (!s[k].isNavLink && s[k].active)
  {
  }

  /** After `updateNavigation(page)` at most one nav link is active. */
  lemma MarkLinksSingle(s: seq<Link>, page: string, i: nat, j: nat)
    requires i < |s| && j < |s|
    requires s[i].isNavLink && s[j].isNavLink
    requires MarkLinks(s, page)[i].active && MarkLinks(s, page)[j].active
    ensures i == j
    ensures s[i].href == "/" + page || s[i].href == "#" + page
  {
    MarkLinksActive(s, page, i);
    MarkLinksActive(s, page, j);
  }

  /** Showing the same page twice leaves the sections as showing it once. */
  lemma ShowSectionsIdempotent(s: seq<Section>, id: string)
    ensures ShowSections(ShowSections(s, id), id) == ShowSections(s, id)
  {
    var r := ShowSections(s, id);
    forall k | 0 <= k < |s| ensures WithId(id)(r[k]) == WithId(id)(s[k]) {
      ShowSectionsActive(s, id, k);
    }
    FirstIndexAgrees(r, s, WithId(id));
  }

  /** Marking the links for the same page twice leaves them as marking once. */
  lemma MarkLinksIdempotent(s: seq<Link>, page: string)
    ensures MarkLinks(MarkLinks(s, page), page) == MarkLinks(s, page)
  {
    var r := MarkLinks(s, page);
    forall k | 0 <= k < |s|
      ensures WithHref("/" + page)(r[k]) == WithHref("/" + page)(s[k])
      ensures WithHref("#" + page)(r[k]) == WithHref("#" + page)(s[k])
    {
      MarkLinksActive(s, page, k);
    }
    FirstIndexAgrees(r, s, WithHref("/" + page));
    FirstIndexAgrees(r, s, WithHref("#" + page));
  }

  // ---- the browser -------------------------------------------------------

  /** The parts of `window` and `document` the router reads and writes. */
  class Window {
    /** `window.location.pathname` */
    var pathname: string
    /** The session history entries, oldest first. */
    var history: seq<string>
    /** The position of the current entry in `history`. */
    var index: nat
    /** Elements with an `id`, in document order. */
    var sections: seq<Section>
    /** Elements with an `href`, in document order. */
    var links: seq<Link>
    /** `detail.page` of every `pageChange` event dispatched, oldest first. */
    var events: seq<string>

    /** The location is the current history entry. */
    ghost predicate Valid()
      reads this
    {
      index < |history| && history[index] == pathname
    }

    /** A page loaded at `pathname`. */
    constructor (pathname: string, sections: seq<Section>, links: seq<Link>)
      ensures Valid()
      ensures this.pathname == pathname && history == [pathname] && index == 0
      ensures this.sections == sections && this.links == links && events == []
    {
      this.pathname := pathname;
      history := [pathname];
      index := 0;
      this.sections := sections;
      this.links := links;
      events := [];
    }

    /**
     * `history.pushState({}, '', path)`: the entries after the current one
     * are discarded, `path` is appended and becomes the current entry.
     */
    method PushState(path: string)
      requires Valid()
      modifies this`pathname, this`history, this`index
      ensures Valid()
      ensures history == old(history)[..old(index) + 1] + [path]
      ensures index == old(index) + 1 && pathname == path
    {
      history := history[..index + 1] + [path];
      index := index + 1;
      pathname := path;
    }

    /** The back or forward button: the location moves to entry `i`, and `popstate` follows. */
    method Traverse(i: nat)
      requires i < |history|
      modifies this`pathname, this`index
      ensures Valid()
      ensures index == i && pathname == history[i]
    {
      index := i;
      pathname := history[i];
    }
  }

  // ---- the router --------------------------------------------------------

  class Router {
    const win: Window
    var currentPage: string

    /** Everything one `navigateToPage(path)` does to the router and the window. */
    twostate predicate NavigatedTo(path: string)
      reads this, win
    {
      && currentPage == Resolve(path)
      && win.Valid()
      && win.pathname == path
      && (if old(win.pathname) != path then
            && old(win.index) < |old(win.history)|
            && win.history == old(win.history)[..old(win.index) + 1] + [path]
            && win.index == old(win.index) + 1
          else
            win.history == old(win.history) && win.index == old(win.index))
      && win.links == MarkLinks(old(win.links), Resolve(path))
      && win.sections == ShowSections(old(win.sections), Resolve(path))
      && win.events == old(win.events) + [Resolve(path)]
    }

    /** `new Router()`: the constructor runs `init()`, which navigates to the current location. */
    constructor (win: Window)
      requires win.Valid()
      modifies win
      ensures this.win == win && win.Valid()
      ensures currentPage == Resolve(old(win.pathname))
      ensures win.pathname == old(win.pathname) && win.history == old(win.history) && win.index == old(win.index)
      ensures win.links == MarkLinks(old(win.links), currentPage)
      ensures win.sections == ShowSections(old(win.sections), currentPage)
      ensures win.events == old(win.events) + [currentPage]
    {
      this.win := win;
      currentPage := "home";
      new;
      NavigateToPage(win.pathname);
    }

    method NavigateToPage(path: string)
      requires win.Valid()
      modifies this`currentPage, win
      ensures NavigatedTo(path)
    {
      var pageName := Resolve(path);
      if win.pathname != path {
        win.PushState(path);
      }
      UpdateNavigation(pageName);
      ShowPage(pageName);
      currentPage := pageName;
    }

    method UpdateNavigation(activePage: string)
      modifies win`links
      ensures win.links == MarkLinks(old(win.links), activePage)
    {
      ghost var before := win.links;
      var i := 0;
      while i < |win.links|
        invariant 0 <= i <= |win.links| == |before|
        invariant forall k :: 0 <= k < i ==> win.links[k] == Deactivated(before[k])
        invariant forall k :: i <= k < |before| ==> win.links[k] == before[k]
      {
        if win.links[i].isNavLink {
          win.links := win.links[i := win.links[i].(active := false)];
        }
        i := i + 1;
      }
      assert win.links == ClearNavLinks(before);
      FirstIndexAgrees(win.links, before, WithHref("/" + activePage));
      FirstIndexAgrees(win.links, before, WithHref("#" + activePage));
      var activeLink := FirstIndex(win.links, WithHref("/" + activePage));
      if activeLink.None? {
        activeLink := FirstIndex(win.links, WithHref("#" + activePage));
      }
      if activeLink.Some? {
        var k := activeLink.value;
        win.links := win.links[k := win.links[k].(active := true)];
      }
    }

    method ShowPage(pageName: string)
      modifies win`sections, win`events
      ensures win.sections == ShowSections(old(win.sections), pageName)
      ensures win.events == old(win.events) + [pageName]
    {
      ghost var before := win.sections;
      var i := 0;
      while i < |win.sections|
        invariant 0 <= i <= |win.sections| == |before|
        invariant forall k :: 0 <= k < i ==> win.sections[k] == Hidden(before[k])
        invariant forall k :: i <= k < |before| ==> win.sections[k] == before[k]
        invariant win.events == old(win.events)
      {
        if win.sections[i].isPage {
          win.sections := win.sections[i := win.sections[i].(active := false)];
        }
        i := i + 1;
      }
      assert win.sections == HidePages(before);
      FirstIndexAgrees(win.sections, before, WithId(pageName));
      var targetPage := FirstIndex(win.sections, WithId(pageName));
      if targetPage.Some? {
        var k := targetPage.value;
        win.sections := win.sections[k := win.sections[k].(active := true)];
      }
      win.events := win.events + [pageName];
    }

    /** The public `navigate(path)`: exactly `navigateToPage(path)`. */
    method Navigate(path: string)
      requires win.Valid()
      modifies this`currentPage, win
      ensures NavigatedTo(path)
    {
      NavigateToPage(path);
    }

    /** The `popstate` listener from `init()`: re-navigate to the location the browser moved to. */
    method OnPopState()
      requires win.Valid()
      modifies this`currentPage, win
      ensures NavigatedTo(old(win.pathname))
      ensures win.history == old(win.history) && win.index == old(win.index) && win.pathname == old(win.pathname)
    {
      NavigateToPage(win.pathname);
    }
  }

  /**
   * Navigating to the same path twice: history changes as for one
   * navigation, the document ends as after one navigation, and both calls
   * dispatch the event.
   */
  method NavigateTwice(r: Router, path: string)
    requires r.win.Valid()
    modifies r, r.win
    ensures r.currentPage == Resolve(path) && r.win.pathname == path && r.win.Valid()
    ensures r.win.history ==
              if old(r.win.pathname) != path then old(r.win.history)[..old(r.win.index) + 1] + [path]
              else old(r.win.history)
    ensures r.win.index == if old(r.win.pathname) != path then old(r.win.index) + 1 else old(r.win.index)
    ensures r.win.sections == ShowSections(old(r.win.sections), Resolve(path))
    ensures r.win.links == MarkLinks(old(r.win.links), Resolve(path))
    ensures r.win.events == old(r.win.events) + [Resolve(path), Resolve(path)]
  {
    r.Navigate(path);
    r.Navigate(path);
    ShowSectionsIdempotent(old(r.win.sections), Resolve(path));
    MarkLinksIdempotent(old(r.win.links), Resolve(path));
  }
}
