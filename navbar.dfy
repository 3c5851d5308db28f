/**
 * The navigation bar (`Navbar`): it hides while the page scrolls down past 100 pixels
 * (unless the mobile menu is open), highlights the first section, in menu order, that
 * covers the line 100 pixels below the top of the viewport, and carries a mobile menu.
 * The page layout at each event is a parameter: the bounding rectangles of the elements
 * present, by id. Scroll events reach the two handlers once per animation frame; here
 * each frame is the event `OnScrollFrame`.
 */
module Navbar {
  import opened Wrappers
  import JsText

  datatype NavItem = NavItem(name: string, href: string)

  const NavItems: seq<NavItem> := [
    NavItem("Home", "#home"),
    NavItem("About", "#about"),
    NavItem("Pricing", "#pricing"),
    NavItem("Services", "#services"),
    NavItem("FAQ", "#faq"),
    NavItem("Contact", "#contact")
  ]

  /** The bar may hide only below this scroll position. */
  const HideAfter: int := 100

  /** The viewport line that decides the active section. */
  const ProbeLine: int := 100

  /** Top and bottom of an element's bounding rectangle, relative to the viewport. */
  datatype Rect = Rect(top: int, bottom: int)

  /** The elements present in the page, by id, with their rectangles at the moment of the event. */
  type Dom = map<string, Rect>

  /** The section ids scanned, in menu order: the menu labels in lower case. */
  function Sections(): (s: seq<string>)
    ensures |s| == |NavItems|
    ensures forall i :: 0 <= i < |s| ==> s[i] == JsText.ToLower(NavItems[i].name)
  {
    seq(|NavItems|, i requires 0 <= i < |NavItems| => JsText.ToLower(NavItems[i].name))
  }

  /** Section `id` exists and its rectangle spans the probe line. */
  predicate Qualifies(dom: Dom, id: string)
    ensures Qualifies(dom, id) ==> id in dom
    ensures id in dom && dom[id].top <= ProbeLine <= dom[id].bottom ==> Qualifies(dom, id)
  {
    id in dom && dom[id].top <= ProbeLine && dom[id].bottom >= ProbeLine
  }

  /** The first position at or after `from` whose section qualifies. */
  function FirstMatchFrom(ids: seq<string>, dom: Dom, from: nat): (k: Option<nat>)
    requires from <= |ids|
    ensures k.Some? ==> from <= k.value < |ids| && Qualifies(dom, ids[k.value])
    ensures k.Some? ==> forall j :: from <= j < k.value ==> !Qualifies(dom, ids[j])
    ensures k.None? ==> forall j :: from <= j < |ids| ==> !Qualifies(dom, ids[j])
    decreases |ids| - from
  {
    if from == |ids| then None
    else if Qualifies(dom, ids[from]) then Some(from)
    else FirstMatchFrom(ids, dom, from + 1)
  }

  /** The first section, in order, that qualifies; none when no section does. */
  function FirstMatch(ids: seq<string>, dom: Dom): (k: Option<nat>)
    ensures k.Some? ==> k.value < |ids| && Qualifies(dom, ids[k.value])
    ensures k.Some? ==> forall j :: 0 <= j < k.value ==> !Qualifies(dom, ids[j])
    ensures k.None? <==> forall j :: 0 <= j < |ids| ==> !Qualifies(dom, ids[j])
  {
    FirstMatchFrom(ids, dom, 0)
  }

  /** The bar's visibility after a scroll to `scrollY`: hidden exactly when scrolling down, past the threshold, with the menu closed. */
  function VisibleAfter(scrollY: int, lastScrollY: int, menuOpen: bool): (v: bool)
    ensures !v ==> scrollY > lastScrollY && scrollY > HideAfter && !menuOpen
    ensures scrollY > lastScrollY && scrollY > HideAfter && !menuOpen ==> !v
  {
    !(scrollY > lastScrollY && scrollY > HideAfter && !menuOpen)
  }

  class NavBar {
    var isVisible: bool
    var lastScrollY: int
    var activeSection: string
    var isMobileMenuOpen: bool

    constructor ()
      ensures isVisible && lastScrollY == 0 && activeSection == "home" && !isMobileMenuOpen
    {
      isVisible := true;
      lastScrollY := 0;
      activeSection := "home";
      isMobileMenuOpen := false;
    }

    /** `controlNavbar` at scroll position `scrollY`; it always records the position it saw. */
    method ControlNavbar(scrollY: int)
      modifies this
      ensures isVisible == VisibleAfter(scrollY, old(lastScrollY), old(isMobileMenuOpen))
      ensures old(isMobileMenuOpen) ==> isVisible
      ensures lastScrollY == scrollY
      ensures activeSection == old(activeSection) && isMobileMenuOpen == old(isMobileMenuOpen)
    {
      var currentScrollY := scrollY;
      if currentScrollY > lastScrollY && currentScrollY > HideAfter && !isMobileMenuOpen {
        isVisible := false;
      } else {
        isVisible := true;
      }
      lastScrollY := currentScrollY;
    }

    /** `handleScroll`: the first qualifying section in menu order becomes active; if none qualifies nothing changes. */
    method HandleScroll(dom: Dom)
      modifies this
      ensures FirstMatch(Sections(), dom).Some? ==> activeSection == Sections()[FirstMatch(Sections(), dom).value]
      ensures FirstMatch(Sections(), dom).None? ==> activeSection == old(activeSection)
      ensures isVisible == old(isVisible) && lastScrollY == old(lastScrollY)
      ensures isMobileMenuOpen == old(isMobileMenuOpen)
    {
      var sections := Sections();
      var i := 0;
      while i < |sections|
        invariant 0 <= i <= |sections|
        invariant forall j :: 0 <= j < i ==> !Qualifies(dom, sections[j])
        invariant activeSection == old(activeSection)
      {
        var section := sections[i];
        if section in dom {
          var rect := dom[section];
          if rect.top <= ProbeLine && rect.bottom >= ProbeLine {
            activeSection := section;
            break;
          }
        }
        i := i + 1;
      }
    }

    /** One animation frame after scrolling: `controlNavbar` then `handleScroll`. */
    method OnScrollFrame(scrollY: int, dom: Dom)
      modifies this
      ensures isVisible == VisibleAfter(scrollY, old(lastScrollY), old(isMobileMenuOpen))
      ensures lastScrollY == scrollY
      ensures FirstMatch(Sections(), dom).Some? ==> activeSection == Sections()[FirstMatch(Sections(), dom).value]
      ensures FirstMatch(Sections(), dom).None? ==> activeSection == old(activeSection)
      ensures isMobileMenuOpen == old(isMobileMenuOpen)
    {
      ControlNavbar(scrollY);
      HandleScroll(dom);
    }

    /**
     * `scrollToSection(href)` for an id selector `#id`: when the element exists the page
     * scrolls to it and the mobile menu closes; a missing element leaves everything alone.
     */
    method ScrollToSection(href: string, dom: Dom) returns (found: bool)
      requires |href| >= 1 && href[0] == '#'
      modifies this
      ensures found <==> href[1..] in dom
      ensures found ==> !isMobileMenuOpen
      ensures !found ==> isMobileMenuOpen == old(isMobileMenuOpen)
      ensures isVisible == old(isVisible) && lastScrollY == old(lastScrollY) && activeSection == old(activeSection)
    {
      found := href[1..] in dom;
      if found {
        isMobileMenuOpen := false;
      }
    }

    /** The menu button flips the mobile menu. */
    method ToggleMenu()
      modifies this
      ensures isMobileMenuOpen == !old(isMobileMenuOpen)
      ensures isVisible == old(isVisible) && lastScrollY == old(lastScrollY) && activeSection == old(activeSection)
    {
      isMobileMenuOpen := !isMobileMenuOpen;
    }

    /** The menu's backdrop and its close button close the mobile menu. */
    method CloseMenu()
      modifies this
      ensures !isMobileMenuOpen
      ensures isVisible == old(isVisible) && lastScrollY == old(lastScrollY) && activeSection == old(activeSection)
    {
      isMobileMenuOpen := false;
    }
  }

  /** The ids the scroll scan looks for are the targets of the menu's links: label in lower case is href without `#`. */
  lemma SectionsAreLinkTargets()
    ensures forall i :: 0 <= i < |NavItems| ==> Sections()[i] == NavItems[i].href[1..]
  {
    assert JsText.ToLower("Home") == "home";
    assert JsText.ToLower("About") == "about";
    assert JsText.ToLower("Pricing") == "pricing";
    assert JsText.ToLower("Services") == "services";
    assert JsText.ToLower("FAQ") == "faq";
    assert JsText.ToLower("Contact") == "contact";
  }
}
