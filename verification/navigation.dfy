/**
 * The site navigation (src/components/navigation/Navigation.tsx): section ids derived
 * from the nav links, the scroll handler's "scrolled" flag and first-section-under-
 * the-line selection, the menu state, and the scroll-progress ratio.
 */
module Navigation {
  import opened Wrappers

  datatype NavItem = NavItem(name: string, href: string)

  /** The navigation links, in display order. */
  const NAV_ITEMS: seq<NavItem> := [
    NavItem("Set Sail", "#hero"),
    NavItem("Crewmate Log", "#about"),
    NavItem("Wanted Board", "#projects"),
    NavItem("Dev Haki", "#skills"),
    NavItem("Transponder Snail", "#contact")
  ]

  /** The section active before any scroll event. */
  const INITIAL_SECTION: string := "hero"
  /** Scroll offset beyond which the bar counts as scrolled. */
  const SCROLL_THRESHOLD: real := 50.0
  /** The horizontal line, in viewport pixels, a section must straddle to be active. */
  const ACTIVE_LINE: real := 100.0

  /** `href.substring(1)`: the href without its first character. */
  function SectionId(href: string): (id: string)
    ensures |href| > 0 ==> href == [href[0]] + id
    ensures |href| == 0 ==> id == ""
  {
    if |href| == 0 then "" else href[1..]
  }

  /** The section ids, one per nav item, in nav order. */
  function SectionIds(items: seq<NavItem>): (ids: seq<string>)
    ensures |ids| == |items|
    ensures forall i :: 0 <= i < |items| ==> ids[i] == SectionId(items[i].href)
  {
    seq(|items|, i requires 0 <= i < |items| => SectionId(items[i].href))
  }

  /** The site's ids are the hrefs without their `#`, and none is empty. */
  lemma NavSectionIds()
    ensures SectionIds(NAV_ITEMS) == ["hero", "about", "projects", "skills", "contact"]
  {
    assert SectionId("#hero") == "hero";
    assert SectionId("#about") == "about";
    assert SectionId("#projects") == "projects";
    assert SectionId("#skills") == "skills";
    assert SectionId("#contact") == "contact";
  }

  /** A bounding client rectangle, vertically. */
  datatype Rect = Rect(top: real, bottom: real)

  /** The document as the handler sees it: the rectangle of each element by id. */
  type Document = map<string, Rect>

  /** A section is under the line when its element exists and spans `top <= 100 <= bottom`. */
  predicate UnderLine(doc: Document, id: string)
  {
    id in doc && doc[id].top <= ACTIVE_LINE && doc[id].bottom >= ACTIVE_LINE
  }

  /** `sections.find(...)`: the position of the first section under the line, if any. */
  function FindFirst(ids: seq<string>, doc: Document): (r: Option<nat>)
    ensures r.Some? ==> r.value < |ids| && UnderLine(doc, ids[r.value])
    ensures r.Some? ==> forall j :: 0 <= j < r.value ==> !UnderLine(doc, ids[j])
    ensures r.None? ==> forall j :: 0 <= j < |ids| ==> !UnderLine(doc, ids[j])
  {
    if |ids| == 0 then None
    else if UnderLine(doc, ids[0]) then Some(0)
    else
      var rest := FindFirst(ids[1..], doc);
      if rest.Some? then Some(rest.value + 1) else None
  }

  /** The page geometry the progress bar reads; absent on the server. */
  datatype Viewport = Viewport(scrollY: real, scrollHeight: real, innerHeight: real)

  /**
   * `scrollY / (scrollHeight - innerHeight)`, or 0 on the server. `None` stands for the
   * non-finite value JavaScript produces when the page is exactly one viewport high.
   */
  function Progress(v: Option<Viewport>): (r: Option<real>)
    ensures v.None? ==> r == Some(0.0)
    ensures v.Some? ==> (r.None? <==> v.value.scrollHeight == v.value.innerHeight)
    ensures v.Some? && r.Some? ==> r.value * (v.value.scrollHeight - v.value.innerHeight) == v.value.scrollY
  {
    match v
    case None => Some(0.0)
    case Some(w) =>
      var range := w.scrollHeight - w.innerHeight;
      if range == 0.0 then None else Some(w.scrollY / range)
  }

  /** The ratio is not clamped: scrolled past the computed range it exceeds 1. */
  lemma ProgressUnclamped(w: Viewport)
    requires w.scrollHeight - w.innerHeight > 0.0 && w.scrollY > w.scrollHeight - w.innerHeight
    ensures Progress(Some(w)).Some? && Progress(Some(w)).value > 1.0
  {
    var range := w.scrollHeight - w.innerHeight;
    var q := w.scrollY / range;
    assert q * range == w.scrollY;
    assert (q - 1.0) * range == w.scrollY - range;
    PositiveFactor(q - 1.0, range);
  }

  /** A product with a positive right factor is positive only if the left one is. */
  lemma PositiveFactor(a: real, b: real)
    requires b > 0.0 && a * b > 0.0
    ensures a > 0.0
  {
  }

  /** The navigation bar's three state cells. */
  class NavBar {
    var isOpen: bool
    var scrolled: bool
    var activeSection: string

    constructor ()
      ensures !isOpen && !scrolled && activeSection == INITIAL_SECTION
    {
      isOpen := false;
      scrolled := false;
      activeSection := INITIAL_SECTION;
    }

    /**
     * The scroll handler: `scrolled` records whether the page is past 50px; the first
     * section in nav order straddling the line becomes active; with none, the active
     * section is kept.
     */
    method HandleScroll(scrollY: real, doc: Document)
      modifies this
      ensures scrolled <==> scrollY > SCROLL_THRESHOLD
      ensures isOpen == old(isOpen)
      ensures var r := FindFirst(SectionIds(NAV_ITEMS), doc);
        if r.Some? && SectionIds(NAV_ITEMS)[r.value] != "" then activeSection == SectionIds(NAV_ITEMS)[r.value]
        else activeSection == old(activeSection)
    {
      scrolled := scrollY > SCROLL_THRESHOLD;
      var sections := SectionIds(NAV_ITEMS);
      var found := FindFirst(sections, doc);
      if found.Some? && sections[found.value] != "" {
        activeSection := sections[found.value];
      }
    }

    /** Clicking a nav link: the menu closes only when the target section exists. */
    method ScrollToSection(href: string, doc: Document)
      modifies this
      ensures SelectorFound(href, doc) ==> !isOpen
      ensures !SelectorFound(href, doc) ==> isOpen == old(isOpen)
      ensures scrolled == old(scrolled) && activeSection == old(activeSection)
    {
      if SelectorFound(href, doc) {
        isOpen := false;
      }
    }

    /** The menu button. */
    method ToggleMenu()
      modifies this
      ensures isOpen == !old(isOpen)
      ensures scrolled == old(scrolled) && activeSection == old(activeSection)
    {
      isOpen := !isOpen;
    }
  }

  /** `document.querySelector(href)` finds something: an `#id` selector whose element exists. */
  predicate SelectorFound(href: string, doc: Document)
  {
    |href| > 0 && href[0] == '#' && SectionId(href) in doc
  }

  /** When a section straddles the line, the handler activates the first such one in nav order. */
  lemma ScrollActivatesFirstMatch(doc: Document, i: nat)
    requires i < |NAV_ITEMS| && UnderLine(doc, SectionIds(NAV_ITEMS)[i])
    ensures var r := FindFirst(SectionIds(NAV_ITEMS), doc);
      r.Some? && r.value <= i && SectionIds(NAV_ITEMS)[r.value] != ""
  {
    NavSectionIds();
  }
}
