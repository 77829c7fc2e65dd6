/** The top navigation bar (`Navigation`): the site search over a fixed list of entries,
    the section links with their scroll fallback, and the menu and search toggles. */
module Navigation {
  import opened Text

  /** An entry of `searchableContent`. */
  datatype Entry = Entry(title: string, section: string, description: string)

  const SearchableContent: seq<Entry> := [
    Entry("AI-Powered Insights", "features", "Advanced machine learning algorithms for marketing insights"),
    Entry("Precision Targeting", "features", "Reach the right audience at the right time"),
    Entry("Automated Campaigns", "features", "Intelligent automation workflows for marketing"),
    Entry("Advanced Analytics", "features", "Comprehensive dashboards and reports"),
    Entry("Customer Journey Mapping", "features", "Visualize and optimize customer touchpoints"),
    Entry("Data Security", "features", "Enterprise-grade security and compliance"),
    Entry("Starter Plan", "pricing", "$29/month - Perfect for small teams"),
    Entry("Professional Plan", "pricing", "$79/month - Advanced features for growing businesses"),
    Entry("Enterprise Plan", "pricing", "$199/month - Full suite for large organizations"),
    Entry("Customer Reviews", "testimonials", "What our customers are saying"),
    Entry("Frequently Asked Questions", "faq", "Common questions about our platform"),
    Entry("Blog & Resources", "blog", "Latest insights and marketing strategies"),
    Entry("Contact Us", "contact", "Get in touch with our team"),
    Entry("Free Trial", "pricing", "Start your 14-day free trial")]

  /** An entry matches when its lower-cased title or description contains the lower-cased
      query; the query is not trimmed for this test. */
  predicate Matches(e: Entry, query: string) {
    Contains(ToLower(e.title), ToLower(query)) || Contains(ToLower(e.description), ToLower(query))
  }

  function MatcherOf(query: string): Entry -> bool {
    e => Matches(e, query)
  }

  /** The search effect's result for a query over a list of entries: nothing for a blank
      query, otherwise the matching entries. */
  function SearchIn(content: seq<Entry>, query: string): (r: seq<Entry>)
    ensures IsBlank(query) ==> r == []
    ensures !IsBlank(query) ==> forall e :: e in r <==> e in content && Matches(e, query)
  {
    TrimEmptyIffBlank(query);
    if Trim(query) == [] then [] else Filter(content, MatcherOf(query))
  }

  /** The search over `searchableContent`. */
  function Search(query: string): (r: seq<Entry>)
    ensures IsBlank(query) ==> r == []
    ensures !IsBlank(query) ==> forall e :: e in r <==> e in SearchableContent && Matches(e, query)
  {
    SearchIn(SearchableContent, query)
  }

  /** The results keep the order of the list they come from. */
  lemma SearchKeepsOrder(content: seq<Entry>, query: string, i: int, j: int)
    requires !IsBlank(query)
    requires 0 <= i < j < |content|
    requires Matches(content[i], query) && Matches(content[j], query)
    ensures exists a, b ::
      && 0 <= a < b < |SearchIn(content, query)|
      && SearchIn(content, query)[a] == content[i]
      && SearchIn(content, query)[b] == content[j]
  {
    TrimEmptyIffBlank(query);
    assert SearchIn(content, query) == Filter(content, MatcherOf(query));
    assert MatcherOf(query)(content[i]) && MatcherOf(query)(content[j]);
    FilterKeepsOrder(content, MatcherOf(query), i, j);
  }

  /** Searching is blind to the query's letter case. */
  lemma SearchIgnoresCase(content: seq<Entry>, query: string)
    ensures SearchIn(content, ToLower(query)) == SearchIn(content, query)
  {
    ToLowerIdempotent(query);
    ToLowerKeepsBlank(query);
    TrimEmptyIffBlank(query);
    TrimEmptyIffBlank(ToLower(query));
    if !IsBlank(query) {
      FilterAgreeing(content, MatcherOf(ToLower(query)), MatcherOf(query));
    }
  }

  /** The offsets `sectionMap` gives the sections that may lack an element. */
  const SectionMap: map<string, int> := map[
    "features" := 800, "demo" := 1600, "pricing" := 2400, "testimonials" := 3200,
    "faq" := 4000, "blog" := 4800, "contact" := 5600]

  /** `sectionMap[section] || 0`: the section's offset, or the top of the page for a
      section the map does not know. */
  function FallbackOffset(section: string): (r: int)
    ensures section in SectionMap ==> r == SectionMap[section]
    ensures section !in SectionMap ==> r == 0
    ensures r >= 0
  {
    if section in SectionMap && SectionMap[section] != 0 then SectionMap[section] else 0
  }

  /** The known sections lie 800 pixels apart in page order, so a link to a known section
      never falls back to the top. */
  lemma SectionOffsetsInPageOrder()
    ensures FallbackOffset("features") == 800 && FallbackOffset("demo") == 1600
    ensures FallbackOffset("pricing") == 2400 && FallbackOffset("testimonials") == 3200
    ensures FallbackOffset("faq") == 4000 && FallbackOffset("blog") == 4800
    ensures FallbackOffset("contact") == 5600
    ensures forall s :: FallbackOffset(s) != 0 <==> s in SectionMap
  {
    forall s ensures FallbackOffset(s) != 0 <==> s in SectionMap {
      if s in SectionMap {
        assert SectionMap[s] >= 800;
      }
    }
  }

  /** Where a section link scrolls: to the element when the page has one with that id,
      otherwise to the fallback offset. */
  datatype Scroll = IntoView(id: string) | ToOffset(top: int)

  class NavigationBar {
    var isSearchOpen: bool
    var isMobileMenuOpen: bool
    var searchQuery: string
    var searchResults: seq<Entry>
    var isScrolled: bool

    /** The search effect has run since the last change of the query. */
    ghost predicate Settled()
      reads this
    {
      searchResults == Search(searchQuery)
    }

    /** "No results found" shows inside the open search panel for a non-empty query with
        no results. */
    predicate ShowsNoResults()
      reads this
    {
      isSearchOpen && searchQuery != "" && searchResults == []
    }

    constructor ()
      ensures Settled()
      ensures !isSearchOpen && !isMobileMenuOpen && searchQuery == "" && searchResults == []
      ensures !isScrolled
    {
      isSearchOpen := false;
      isMobileMenuOpen := false;
      searchQuery := "";
      searchResults := [];
      isScrolled := false;
    }

    /** The search button flips the search bar and nothing else. */
    method ToggleSearch()
      modifies this
      ensures isSearchOpen == !old(isSearchOpen)
      ensures isMobileMenuOpen == old(isMobileMenuOpen) && searchQuery == old(searchQuery)
      ensures searchResults == old(searchResults) && isScrolled == old(isScrolled)
    {
      isSearchOpen := !isSearchOpen;
    }

    /** The menu button flips the mobile menu and nothing else. */
    method ToggleMobileMenu()
      modifies this
      ensures isMobileMenuOpen == !old(isMobileMenuOpen)
      ensures isSearchOpen == old(isSearchOpen) && searchQuery == old(searchQuery)
      ensures searchResults == old(searchResults) && isScrolled == old(isScrolled)
    {
      isMobileMenuOpen := !isMobileMenuOpen;
    }

    /** Typing into the search box. */
    method SetQuery(q: string)
      modifies this
      ensures searchQuery == q
      ensures isSearchOpen == old(isSearchOpen) && isMobileMenuOpen == old(isMobileMenuOpen)
      ensures searchResults == old(searchResults) && isScrolled == old(isScrolled)
    {
      searchQuery := q;
    }

    /** The effect that runs after the query changes. */
    method RunSearchEffect()
      modifies this
      ensures Settled()
      ensures searchQuery == old(searchQuery)
      ensures isSearchOpen == old(isSearchOpen) && isMobileMenuOpen == old(isMobileMenuOpen)
      ensures isScrolled == old(isScrolled)
    {
      var content := SearchableContent;
      if Trim(searchQuery) != [] {
        searchResults := Filter(content, MatcherOf(searchQuery));
      } else {
        searchResults := [];
      }
    }

    /** `handleNavClick` (also used by a search result): scrolls to the section and closes
        the menu and the search, clearing the query, whether or not the element exists. */
    method HandleNavClick(section: string, elementExists: bool) returns (scroll: Scroll)
      modifies this
      ensures scroll == if elementExists then IntoView(section) else ToOffset(FallbackOffset(section))
      ensures !isMobileMenuOpen && !isSearchOpen && searchQuery == ""
      ensures searchResults == old(searchResults) && isScrolled == old(isScrolled)
    {
      if elementExists {
        scroll := IntoView(section);
      } else {
        scroll := ToOffset(FallbackOffset(section));
      }
      isMobileMenuOpen := false;
      isSearchOpen := false;
      searchQuery := "";
    }

    /** The scroll listener: the bar is styled as scrolled past 20 pixels. */
    method HandleScroll(scrollY: int)
      modifies this
      ensures isScrolled == (scrollY > 20)
      ensures isSearchOpen == old(isSearchOpen) && isMobileMenuOpen == old(isMobileMenuOpen)
      ensures searchQuery == old(searchQuery) && searchResults == old(searchResults)
    {
      isScrolled := scrollY > 20;
    }
  }

  /** Once the effect has run after a navigation click, the results are empty and no
      "No results found" shows. */
  method NavClickThenEffect(bar: NavigationBar, section: string, elementExists: bool)
    modifies bar
    ensures bar.Settled() && bar.searchResults == [] && !bar.ShowsNoResults()
    ensures !bar.isMobileMenuOpen && !bar.isSearchOpen
  {
    var _ := bar.HandleNavClick(section, elementExists);
    bar.RunSearchEffect();
  }
}
