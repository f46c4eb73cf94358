/**
 * The `GamingUniverse` controller of js/main.js: what a page change does to
 * the 3D scene's child list and to the animation loop, and how it is wired to
 * the router.
 *
 * The host's frame scheduler is modelled by two fields: the set of frame
 * requests that are still pending (neither run nor cancelled) and the id that
 * `requestAnimationFrame` hands out next. Each pending request is one running
 * animation loop, because every `animate` call requests the next frame.
 */
module Universe {
  import opened Wrappers
  import opened Scene
  import Routing
  import Controls

  class GamingUniverse {
    const router: Routing.Router
    /** `this.scene.children`, in order. */
    var children: seq<Drawable>
    /** `this.animationId`; 0 stands for its initial `null` (frame ids are positive). */
    var animationId: nat
    var currentPage: string
    /** Host: frame requests neither run nor cancelled. */
    var pendingFrames: set<nat>
    /** Host: the id the next `requestAnimationFrame` returns. */
    var nextFrame: nat

    /**
     * Frame ids are positive and the ones handed out so far are all below
     * `nextFrame`; the window's location is its current history entry.
     */
    ghost predicate Valid()
      reads this, router.win
    {
      && router.win.Valid()
      && 0 < nextFrame
      && animationId < nextFrame
      && forall id | id in pendingFrames :: 0 < id < nextFrame
    }

    /** At most one loop runs, and `animationId` holds its pending frame. */
    ghost predicate OneLoop()
      reads this
    {
      pendingFrames <= {animationId}
    }

    /**
     * `new GamingUniverse()` as written: the router is built first, and its
     * initial navigation dispatches `pageChange` before any listener exists;
     * `init()` then calls `handlePageChange()` with its default argument.
     */
    constructor (win: Routing.Window)
      requires win.Valid()
      modifies win
      ensures Valid() && pendingFrames == {animationId} && animationId != 0
      ensures router.win == win && fresh(router) && router.currentPage == Routing.Resolve(old(win.pathname))
      ensures win.pathname == old(win.pathname) && win.history == old(win.history) && win.index == old(win.index)
      ensures win.links == Routing.MarkLinks(old(win.links), router.currentPage)
      ensures win.sections == Routing.ShowSections(old(win.sections), router.currentPage)
      ensures win.events == old(win.events) + [router.currentPage]
      ensures currentPage == "home" && children == SceneOf(Home)
    {
      router := new Routing.Router(win);
      children := [Light];  // setupThreeJS adds an ambient light first
      animationId := 0;
      currentPage := "home";
      pendingFrames := {};
      nextFrame := 1;
      new;
      HandlePageChange("home");
    }

    /** The same start-up with the scene built for the page the router resolved. */
    constructor Listening(win: Routing.Window)
      requires win.Valid()
      modifies win
      ensures Valid() && pendingFrames == {animationId} && animationId != 0
      ensures router.win == win && fresh(router) && router.currentPage == Routing.Resolve(old(win.pathname))
      ensures win.pathname == old(win.pathname) && win.history == old(win.history) && win.index == old(win.index)
      ensures win.links == Routing.MarkLinks(old(win.links), router.currentPage)
      ensures win.sections == Routing.ShowSections(old(win.sections), router.currentPage)
      ensures win.events == old(win.events) + [router.currentPage]
      ensures currentPage == router.currentPage && children == SceneOf(SelectBuilder(currentPage))
    {
      router := new Routing.Router(win);
      children := [Light];
      animationId := 0;
      currentPage := "home";
      pendingFrames := {};
      nextFrame := 1;
      new;
      HandlePageChange(router.currentPage);
    }

    // ---- the host's frame scheduler --------------------------------------

    /** `requestAnimationFrame`: a fresh positive id, now pending. */
    method RequestFrame() returns (id: nat)
      requires Valid()
      modifies this`pendingFrames, this`nextFrame
      ensures Valid()
      ensures 0 < id && id == old(nextFrame) && id !in old(pendingFrames)
      ensures pendingFrames == old(pendingFrames) + {id} && nextFrame == id + 1
    {
      id := nextFrame;
      nextFrame := nextFrame + 1;
      pendingFrames := pendingFrames + {id};
    }

    /** `cancelAnimationFrame(id)`. */
    method CancelFrame(id: nat)
      modifies this`pendingFrames
      ensures pendingFrames == old(pendingFrames) - {id}
    {
      pendingFrames := pendingFrames - {id};
    }

    /** `animate()`: request the next frame and keep its id (the per-object motion and the render are not modelled). */
    method Animate()
      requires Valid()
      modifies this`animationId, this`pendingFrames, this`nextFrame
      ensures Valid()
      ensures animationId == old(nextFrame) && animationId !in old(pendingFrames)
      ensures pendingFrames == old(pendingFrames) + {animationId}
    {
      animationId := RequestFrame();
    }

    /** The host runs the callback of a pending frame request, which calls `animate()` again. */
    method Tick(id: nat)
      requires Valid() && id in pendingFrames
      modifies this`animationId, this`pendingFrames, this`nextFrame
      ensures Valid()
      ensures pendingFrames == (old(pendingFrames) - {id}) + {animationId}
      ensures |pendingFrames| == |old(pendingFrames)|
      ensures old(OneLoop()) ==> pendingFrames == {animationId}
    {
      pendingFrames := pendingFrames - {id};
      Animate();
    }

    // ---- the scene -------------------------------------------------------

    /** `while (children.length > 0) scene.remove(children[0])`. */
    method ClearScene()
      modifies this`children
      ensures children == []
    {
      while |children| > 0
        decreases |children|
      {
        children := children[1..];
      }
    }

    /** One builder loop: `n` times `scene.add` of an object of one kind. */
    method AddObjects(d: Drawable, n: nat)
      modifies this`children
      ensures children == old(children) + Repeat(d, n)
    {
      for i := 0 to n
        invariant children == old(children) + Repeat(d, i)
      {
        children := children + [d];
      }
    }

    /** `create<Page>Scene()` for builder `b`. */
    method Build(b: Builder)
      modifies this`children
      ensures children == old(children) + SceneOf(b)
    {
      match b
      case Home =>
        AddObjects(Mesh(DriftAndSpin), 15);
        AddObjects(Light, 1);
      case Dota2 =>
        AddObjects(Particles, 1);
        AddObjects(Mesh(DriftAndSpin), 8);
      case Csgo2 =>
        AddObjects(Mesh(AxisSpin), 12);
      case Valorant =>
        AddObjects(Mesh(Still), 1);
        AddObjects(Particles, 1);
        AddObjects(Mesh(AxisSpin), 6);
      case League =>
        AddObjects(Mesh(Still), 1);
        AddObjects(Mesh(DriftAndSpin), 10);
      case Fortnite =>
        AddObjects(Mesh(DriftAndSpin), 20);
      case Overwatch =>
        AddObjects(Mesh(AxisSpin), 15);
      case Pubg =>
        AddObjects(Mesh(AxisSpin), 18);
      case News =>
        AddObjects(Mesh(DriftAndSpin), 12);
      case Tournaments =>
        AddObjects(Mesh(DriftAndSpin), 10);
      case Streams =>
        AddObjects(Mesh(DriftAndSpin), 14);
      case Merchandise =>
        AddObjects(Mesh(AxisSpin), 16);
      case Contacts =>
        AddObjects(Mesh(DriftAndSpin), 12);
      case About =>
        AddObjects(Mesh(AxisSpin), 15);
    }

    /**
     * `handlePageChange(page)`: cancel the pending frame, empty the scene,
     * run the builder the page selects, record the page and restart the loop.
     */
    method HandlePageChange(page: string)
      requires Valid()
      modifies this`children, this`animationId, this`currentPage, this`pendingFrames, this`nextFrame
      ensures Valid()
      ensures children == SceneOf(SelectBuilder(page))
      ensures currentPage == page
      ensures old(animationId) != 0 ==> old(animationId) !in pendingFrames
      ensures animationId == old(nextFrame) && animationId !in old(pendingFrames)
      ensures pendingFrames == (old(pendingFrames) - {old(animationId)}) + {animationId}
      ensures old(OneLoop()) ==> pendingFrames == {animationId}
    {
      if animationId != 0 {
        CancelFrame(animationId);
      }
      ClearScene();
      assert children == [];
      Build(SelectBuilder(page));
      currentPage := page;
      Animate();
    }

    /**
     * `startHomeAnimation()` as written: the home objects are added to
     * whatever the scene holds and a second `animate()` call starts another
     * loop beside the running one.
     */
    method StartHomeAnimation()
      requires Valid()
      modifies this`children, this`animationId, this`pendingFrames, this`nextFrame
      ensures Valid()
      ensures children == old(children) + SceneOf(Home)
      ensures animationId == old(nextFrame) && animationId !in old(pendingFrames)
      ensures pendingFrames == old(pendingFrames) + {animationId}
      ensures old(animationId) in old(pendingFrames) ==> |pendingFrames| == |old(pendingFrames)| + 1
    {
      Build(Home);
      Animate();
    }

    /**
     * `startHomeAnimation()` corrected: the running loop is replaced rather
     * than joined, and the scene is rebuilt for the page being shown, which
     * is home unless the location named another page.
     */
    method ResumeAnimation()
      requires Valid()
      modifies this`children, this`animationId, this`currentPage, this`pendingFrames, this`nextFrame
      ensures Valid()
      ensures currentPage == old(currentPage) && children == SceneOf(SelectBuilder(currentPage))
      ensures old(animationId) != 0 ==> old(animationId) !in pendingFrames
      ensures animationId == old(nextFrame) && animationId !in old(pendingFrames)
      ensures pendingFrames == (old(pendingFrames) - {old(animationId)}) + {animationId}
      ensures old(OneLoop()) ==> pendingFrames == {animationId}
    {
      HandlePageChange(currentPage);
    }

    // ---- listeners wired to the router -----------------------------------

    /** The `pageChange` listener: `handlePageChange(e.detail.page)` on the latest event. */
    method DeliverPageChange()
      requires Valid() && router.win.events != []
      modifies this`children, this`animationId, this`currentPage, this`pendingFrames, this`nextFrame
      ensures Valid()
      ensures currentPage == router.win.events[|router.win.events| - 1]
      ensures children == SceneOf(SelectBuilder(currentPage))
      ensures old(animationId) != 0 ==> old(animationId) !in pendingFrames
      ensures animationId == old(nextFrame) && animationId !in old(pendingFrames)
      ensures pendingFrames == (old(pendingFrames) - {old(animationId)}) + {animationId}
      ensures old(OneLoop()) ==> pendingFrames == {animationId}
    {
      HandlePageChange(router.win.events[|router.win.events| - 1]);
    }

    /** `router.navigate(path)`, which dispatches `pageChange` to the listener above. */
    method NavigateTo(path: string)
      requires Valid()
      modifies this`children, this`animationId, this`currentPage, this`pendingFrames, this`nextFrame
      modifies router`currentPage, router.win
      ensures Valid()
      ensures router.NavigatedTo(path)
      ensures currentPage == router.currentPage == Routing.Resolve(path)
      ensures children == SceneOf(SelectBuilder(currentPage))
      ensures old(animationId) != 0 ==> old(animationId) !in pendingFrames
      ensures animationId == old(nextFrame) && animationId !in old(pendingFrames)
      ensures pendingFrames == (old(pendingFrames) - {old(animationId)}) + {animationId}
      ensures old(OneLoop()) ==> pendingFrames == {animationId}
    {
      router.Navigate(path);
      DeliverPageChange();
    }

    /** A `.nav-link` click: the guard, then `router.navigate(href)`. */
    method OnNavLinkClick(href: Option<string>) returns (prevented: bool)
      requires Valid()
      modifies this`children, this`animationId, this`currentPage, this`pendingFrames, this`nextFrame
      modifies router`currentPage, router.win
      ensures Valid()
      ensures prevented
      ensures Controls.ShouldNavigate(href) ==> router.NavigatedTo(href.value)
      ensures Controls.ShouldNavigate(href) ==>
                currentPage == router.currentPage && children == SceneOf(SelectBuilder(currentPage))
      ensures !Controls.ShouldNavigate(href) ==>
                unchanged(this) && unchanged(router) && unchanged(router.win)
      ensures Controls.ShouldNavigate(href) && old(animationId) != 0 ==> old(animationId) !in pendingFrames
      ensures Controls.ShouldNavigate(href) ==>
                animationId == old(nextFrame) && animationId !in old(pendingFrames)
      ensures Controls.ShouldNavigate(href) ==>
                pendingFrames == (old(pendingFrames) - {old(animationId)}) + {animationId}
      ensures old(OneLoop()) ==> OneLoop()
    {
      var outcome := Controls.NavLinkClick(href);
      prevented := outcome.preventDefault;
      if outcome.navigateTo.Some? {
        NavigateTo(outcome.navigateTo.value);
      }
    }

    /** The browser's back or forward button: the location moves, then the router's `popstate` listener runs. */
    method OnHistoryTraverse(i: nat)
      requires Valid() && i < |router.win.history|
      modifies this`children, this`animationId, this`currentPage, this`pendingFrames, this`nextFrame
      modifies router`currentPage, router.win
      ensures Valid()
      ensures router.win.history == old(router.win.history) && router.win.index == i
      ensures router.win.pathname == router.win.history[i]
      ensures currentPage == router.currentPage == Routing.Resolve(router.win.pathname)
      ensures router.win.links == Routing.MarkLinks(old(router.win.links), currentPage)
      ensures router.win.sections == Routing.ShowSections(old(router.win.sections), currentPage)
      ensures router.win.events == old(router.win.events) + [currentPage]
      ensures children == SceneOf(SelectBuilder(currentPage))
      ensures old(animationId) != 0 ==> old(animationId) !in pendingFrames
      ensures animationId == old(nextFrame) && animationId !in old(pendingFrames)
      ensures pendingFrames == (old(pendingFrames) - {old(animationId)}) + {animationId}
      ensures old(OneLoop()) ==> pendingFrames == {animationId}
    {
      router.win.Traverse(i);
      router.OnPopState();
      DeliverPageChange();
    }
  }

  /** Every page the router can resolve to has a scene builder of its own. */
  lemma RoutedPagesHaveScenes(page: string)
    requires page in Routing.RouteTable.Values
    ensures PageOf(SelectBuilder(page)) == page
  {
    Routing.RouteTableRange();
    assert Routing.PageIds == KnownPages;
  }

  // ---- scenarios ---------------------------------------------------------

  /** A document with the home and valorant sections and their nav links, home shown. */
  const LoadedSections: seq<Routing.Section> :=
    [Routing.Section("home", true, true), Routing.Section("valorant", true, false)]
  const LoadedLinks: seq<Routing.Link> :=
    [Routing.Link("/", true, true), Routing.Link("/valorant", true, false)]

  /** The same document once valorant is shown: only the valorant section and link are active. */
  const ValorantSections: seq<Routing.Section> :=
    [Routing.Section("home", true, false), Routing.Section("valorant", true, true)]
  const ValorantLinks: seq<Routing.Link> :=
    [Routing.Link("/", true, false), Routing.Link("/valorant", true, true)]

  /** Marking valorant in the loaded document gives the valorant document. */
  lemma ValorantMarked()
    ensures Routing.ShowSections(LoadedSections, "valorant") == ValorantSections
    ensures Routing.MarkLinks(LoadedLinks, "valorant") == ValorantLinks
  {
    assert Routing.WithId("valorant")(LoadedSections[1]);
    assert !Routing.WithId("valorant")(LoadedSections[0]);
    assert FirstIndex(LoadedSections, Routing.WithId("valorant")) == Some(1);
    assert Routing.WithHref("/valorant")(LoadedLinks[1]);
    assert !Routing.WithHref("/valorant")(LoadedLinks[0]);
    assert FirstIndex(LoadedLinks, Routing.WithHref("/valorant")) == Some(1);
  }

  /**
   * Loading `/`, following a link to `/dota2` and pressing back, all before
   * the loading screen has finished: the router is on home again, one loop
   * runs and it draws the home scene.
   */
  method BackToHome() returns (u: GamingUniverse)
    ensures fresh(u) && fresh(u.router) && fresh(u.router.win) && u.Valid()
    ensures u.router.currentPage == "home" && u.currentPage == "home"
    ensures u.children == SceneOf(Home) && u.OneLoop()
    ensures u.router.win.history == ["/", "/dota2"] && u.router.win.index == 0
  {
    var win := new Routing.Window("/", [], []);
    u := new GamingUniverse(win);
    var _ := u.OnNavLinkClick(Some("/dota2"));
    u.OnHistoryTraverse(0);
  }

  /** Navigating after that back press discards the forward entry `/dota2`. */
  method ForwardEntryDropped() returns (u: GamingUniverse)
    ensures u.router.currentPage == "csgo2" && u.children == SceneOf(Csgo2)
    ensures u.router.win.history == ["/", "/csgo2"] && u.router.win.index == 1
  {
    u := BackToHome();
    u.NavigateTo("/csgo2");
  }

  /**
   * The loading screen finishes after `init()` has started the home loop:
   * two loops run and the scene holds the home objects twice.
   */
  method TwoLoopsAfterLoading() returns (u: GamingUniverse, first: nat)
    ensures fresh(u) && fresh(u.router) && fresh(u.router.win) && u.Valid()
    ensures u.router.win.history == ["/"] && u.router.win.pathname == "/"
    ensures u.children == SceneOf(Home) + SceneOf(Home)
    ensures |u.children| == 2 * ObjectCount(Home)
    ensures u.pendingFrames == {first, u.animationId} && first != u.animationId
    ensures |u.pendingFrames| == 2 && !u.OneLoop()
  {
    var win := new Routing.Window("/", [], []);
    u := new GamingUniverse(win);
    first := u.animationId;
    u.StartHomeAnimation();
    SceneSizes(Home);
  }

  /** After that, a page change cancels only one of the two loops: the other keeps running. */
  method LingeringLoop() returns (u: GamingUniverse)
    ensures u.currentPage == "dota2" && u.children == SceneOf(Dota2)
    ensures |u.pendingFrames| == 2 && !u.OneLoop()
  {
    var stale;
    u, stale := TwoLoopsAfterLoading();
    u.HandlePageChange("dota2");
    assert u.pendingFrames == {stale, u.animationId};
  }

  /**
   * The back-button trip of `BackToHome` once the loading screen has
   * finished, as it normally has before a user clicks: the stale loop
   * survives the click and the back press.
   */
  method BackToHomeAfterLoading() returns (u: GamingUniverse)
    ensures u.router.currentPage == "home" && u.currentPage == "home"
    ensures u.children == SceneOf(Home)
    ensures |u.pendingFrames| == 2 && !u.OneLoop()
  {
    var stale;
    u, stale := DotaAfterLoading();
    u.OnHistoryTraverse(0);
    assert stale != u.animationId;
    assert u.pendingFrames == {stale, u.animationId};
  }

  /** The first half of that trip: the click to `/dota2` leaves the stale loop running. */
  method DotaAfterLoading() returns (u: GamingUniverse, stale: nat)
    ensures fresh(u) && fresh(u.router) && fresh(u.router.win) && u.Valid()
    ensures u.router.win.history == ["/", "/dota2"] && u.router.win.index == 1
    ensures u.pendingFrames == {stale, u.animationId} && stale != u.animationId
  {
    u, stale := TwoLoopsAfterLoading();
    var _ := u.OnNavLinkClick(Some("/dota2"));
    assert stale != u.animationId;
  }

  /** The same trip with the corrected loading finish: one loop runs throughout. */
  method BackToHomeResumed() returns (u: GamingUniverse)
    ensures u.router.currentPage == "home" && u.currentPage == "home"
    ensures u.children == SceneOf(Home) && u.pendingFrames == {u.animationId}
    ensures u.router.win.history == ["/", "/dota2"] && u.router.win.index == 0
  {
    var win := new Routing.Window("/", [], []);
    u := new GamingUniverse.Listening(win);
    u.ResumeAnimation();
    var _ := u.OnNavLinkClick(Some("/dota2"));
    u.OnHistoryTraverse(0);
  }

  /**
   * Loading `/valorant` directly: the valorant section and nav link are
   * active, but the background is the home scene.
   */
  method DirectLoadShowsHome() returns (u: GamingUniverse)
    ensures u.router.currentPage == "valorant" && u.currentPage == "home"
    ensures u.router.win.sections == ValorantSections && u.router.win.links == ValorantLinks
    ensures u.children == SceneOf(Home)
  {
    var win := new Routing.Window("/valorant", LoadedSections, LoadedLinks);
    u := new GamingUniverse(win);
    ValorantMarked();
  }

  /**
   * The same load with the corrected start-up and the corrected loading
   * finish: the scene is valorant's and one loop runs.
   */
  method DirectLoadShowsValorant() returns (u: GamingUniverse)
    ensures u.router.currentPage == "valorant" && u.currentPage == "valorant"
    ensures u.router.win.sections == ValorantSections && u.router.win.links == ValorantLinks
    ensures u.children == SceneOf(Valorant) && u.pendingFrames == {u.animationId}
  {
    var win := new Routing.Window("/valorant", LoadedSections, LoadedLinks);
    u := new GamingUniverse.Listening(win);
    u.ResumeAnimation();
    ValorantMarked();
  }
}
