/**
 * The interaction logic of js/main.js outside the 3D scene: the guard on
 * navigation clicks (`setupEventListeners`) and the mobile menu's three class
 * flags (`setupMobileNavigation`).
 */
module Controls {
  import opened Wrappers

  // ---- clicks that navigate ----------------------------------------------

  /** What a click listener does: whether it calls `preventDefault`, and what it passes to `router.navigate`. */
  datatype ClickOutcome = ClickOutcome(preventDefault: bool, navigateTo: Option<string>)

  /** `href && href !== '#'` on the element's `getAttribute('href')`. */
  predicate ShouldNavigate(href: Option<string>) {
    Truthy(href) && href.value != "#"
  }

  /** A `.nav-link` click: the default is always prevented; the router is called when the guard passes. */
  function NavLinkClick(href: Option<string>): (o: ClickOutcome)
    ensures o.preventDefault
    ensures o.navigateTo.Some? <==> href.Some? && href.value != "" && href.value != "#"
    ensures o.navigateTo.Some? ==> o.navigateTo == href
  {
    ClickOutcome(true, if ShouldNavigate(href) then href else None)
  }

  /** A hero button click: the default is prevented only when the router is called. */
  function ButtonClick(href: Option<string>): (o: ClickOutcome)
    ensures o.preventDefault <==> o.navigateTo.Some?
    ensures o.navigateTo.Some? <==> href.Some? && href.value != "" && href.value != "#"
    ensures o.navigateTo.Some? ==> o.navigateTo == href
  {
    var go := ShouldNavigate(href);
    ClickOutcome(go, if go then href else None)
  }

  /** Links and buttons navigate for the same hrefs; they differ only in a refused click's default. */
  lemma ClicksAgree(href: Option<string>)
    ensures NavLinkClick(href).navigateTo == ButtonClick(href).navigateTo
    ensures NavLinkClick(href) != ButtonClick(href) <==> !ShouldNavigate(href)
  {
  }

  // ---- the mobile menu ---------------------------------------------------

  /** The `active` class on `.hamburger` and on `.nav-menu`, and `menu-open` on `body`. */
  datatype MenuState = MenuState(hamburger: bool, menu: bool, body: bool)

  const Closed := MenuState(false, false, false)

  /** The events `setupMobileNavigation` listens to. */
  datatype MenuEvent =
    | HamburgerClick
    | LinkClick
    | DocumentClick(onHamburger: bool, inMenu: bool)  // where the click's target lies
    | KeyDown(key: string)

  /** The effect of one event on the three flags. */
  function Step(s: MenuState, e: MenuEvent): MenuState {
    match e
    case HamburgerClick => MenuState(!s.hamburger, !s.menu, !s.menu)
    case LinkClick => Closed
    case DocumentClick(onHamburger, inMenu) =>
      if s.menu && !onHamburger && !inMenu then Closed else s
    case KeyDown(key) =>
      if key == "Escape" && s.menu then Closed else s
  }

  /** The flags after a sequence of events, oldest first. */
  function Run(s: MenuState, events: seq<MenuEvent>): MenuState
    decreases |events|
  {
    if events == [] then s else Run(Step(s, events[0]), events[1..])
  }

  /** The three flags agree: the menu is either shown everywhere or nowhere. */
  predicate InStep(s: MenuState) {
    s.hamburger == s.menu && s.menu == s.body
  }

  /**
   * A hamburger click flips the hamburger and menu flags and makes the body
   * flag follow the menu's new flag.
   */
  lemma HamburgerFlips(s: MenuState)
    ensures Step(s, HamburgerClick).hamburger != s.hamburger
    ensures Step(s, HamburgerClick).menu != s.menu
    ensures Step(s, HamburgerClick).body == Step(s, HamburgerClick).menu
  {
  }

  /** Two hamburger clicks restore the flags exactly when the body flag already followed the menu. */
  lemma HamburgerTwice(s: MenuState)
    ensures Step(Step(s, HamburgerClick), HamburgerClick) == s <==> s.body == s.menu
  {
  }

  /**
   * A link click always closes the menu; an outside click or Escape closes it
   * when it is open and otherwise changes nothing.
   */
  lemma ClosingEvents(s: MenuState, e: MenuEvent)
    ensures e.LinkClick? ==> Step(s, e) == Closed
    ensures e.DocumentClick? && !e.onHamburger && !e.inMenu ==> Step(s, e) == if s.menu then Closed else s
    ensures e == KeyDown("Escape") ==> Step(s, e) == if s.menu then Closed else s
    ensures !e.HamburgerClick? ==> Step(s, e) == s || Step(s, e) == Closed
    ensures !e.HamburgerClick? && !e.LinkClick? && !s.menu ==> Step(s, e) == s
  {
  }

  lemma StepKeepsInStep(s: MenuState, e: MenuEvent)
    requires InStep(s)
    ensures InStep(Step(s, e))
  {
  }

  /** From flags that agree, they agree after any sequence of events. */
  lemma {:induction false} RunKeepsInStep(s: MenuState, events: seq<MenuEvent>)
    requires InStep(s)
    ensures InStep(Run(s, events))
    decreases |events|
  {
    if events != [] {
      StepKeepsInStep(s, events[0]);
      RunKeepsInStep(Step(s, events[0]), events[1..]);
    }
  }

  /** From a page where no flag is set, the three flags stay equal whatever happens. */
  lemma ClosedStaysInStep(events: seq<MenuEvent>)
    ensures InStep(Run(Closed, events))
  {
    RunKeepsInStep(Closed, events);
  }

  /** The three class flags, changed in place by the listeners. */
  class MobileMenu {
    var hamburgerActive: bool
    var menuActive: bool
    var bodyMenuOpen: bool

    function State(): MenuState
      reads this
    {
      MenuState(hamburgerActive, menuActive, bodyMenuOpen)
    }

    constructor (initial: MenuState)
      ensures State() == initial
    {
      hamburgerActive := initial.hamburger;
      menuActive := initial.menu;
      bodyMenuOpen := initial.body;
    }

    /** The hamburger's click listener. */
    method OnHamburgerClick()
      modifies this
      ensures hamburgerActive == !old(hamburgerActive) && menuActive == !old(menuActive)
      ensures bodyMenuOpen == menuActive
      ensures State() == Step(old(State()), HamburgerClick)
    {
      hamburgerActive := !hamburgerActive;
      menuActive := !menuActive;
      if menuActive {
        bodyMenuOpen := true;
      } else {
        bodyMenuOpen := false;
      }
    }

    /** The listener each `.nav-link` gets from `setupMobileNavigation`. */
    method OnLinkClick()
      modifies this
      ensures State() == Closed
      ensures State() == Step(old(State()), LinkClick)
    {
      hamburgerActive := false;
      menuActive := false;
      bodyMenuOpen := false;
    }

    /** The document's click listener. */
    method OnDocumentClick(onHamburger: bool, inMenu: bool)
      modifies this
      ensures State() == if old(menuActive) && !onHamburger && !inMenu then Closed else old(State())
      ensures State() == Step(old(State()), DocumentClick(onHamburger, inMenu))
    {
      if menuActive && !onHamburger && !inMenu {
        hamburgerActive := false;
        menuActive := false;
        bodyMenuOpen := false;
      }
    }

    /** The document's keydown listener. */
    method OnKeyDown(key: string)
      modifies this
      ensures State() == if key == "Escape" && old(menuActive) then Closed else old(State())
      ensures State() == Step(old(State()), KeyDown(key))
    {
      if key == "Escape" && menuActive {
        hamburgerActive := false;
        menuActive := false;
        bodyMenuOpen := false;
      }
    }
  }
}
