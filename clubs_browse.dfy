/**
 * The club listing page: its filter state (search text, category, sort) is
 * read from the URL once, sent to the backend as query parameters, and written
 * back to the URL by each handler.
 */
module ClubsBrowse {
  import opened Wrappers
  import opened JsValues
  import opened UrlParams

  const Categories: seq<string> := [
    "All", "Photography", "Sports", "Technology", "Arts & Crafts", "Music", "Outdoors", "Gaming", "Books",
    "Food & Cooking"
  ]

  const SortOptions: seq<string> := ["newest", "oldest", "fee-high", "fee-low", "name-az", "name-za"]

  datatype ClubFilters = ClubFilters(search: string, category: string, sort: string)

  /** The state read from the URL when the page mounts: `get(key) || default`. */
  function InitialFilters(url: Pairs): (f: ClubFilters)
    ensures f.category != "" && f.sort != ""
    ensures Lookup(url, "search") == None ==> f.search == ""
    ensures Lookup(url, "category") == None ==> f.category == "All"
    ensures Lookup(url, "sort") == None ==> f.sort == "newest"
  {
    ClubFilters(TextOr(Lookup(url, "search"), ""), TextOr(Lookup(url, "category"), "All"),
                TextOr(Lookup(url, "sort"), "newest"))
  }

  function Optional(present: bool, key: string, value: string): Pairs {
    if present then [(key, value)] else []
  }

  /** The pairs every URL handler writes: search and sort when non-empty, category unless it is "All". */
  function UrlPairs(f: ClubFilters): Pairs {
    Optional(f.search != "", "search", f.search) + Optional(f.category != "All", "category", f.category)
    + Optional(f.sort != "", "sort", f.sort)
  }

  /** The pairs the listing request sends: like the URL, but an empty category is left out too. */
  function RequestPairs(f: ClubFilters): Pairs {
    Optional(f.search != "", "search", f.search) + Optional(f.category != "" && f.category != "All", "category", f.category)
    + Optional(f.sort != "", "sort", f.sort)
  }

  lemma LookupOptional(present: bool, key: string, value: string, probe: string)
    ensures Lookup(Optional(present, key, value), probe) == if present && probe == key then Some(value) else None
  {
  }

  /** Reading each key back from the three optional pairs. */
  lemma LookupThree(a: Pairs, b: Pairs, c: Pairs, probe: string)
    ensures Lookup(a + b + c, probe) ==
      if Lookup(a, probe).Some? then Lookup(a, probe)
      else if Lookup(b, probe).Some? then Lookup(b, probe)
      else Lookup(c, probe)
  {
    LookupAppend(a + b, c, probe);
    LookupAppend(a, b, probe);
  }

  /**
   * Reloading a URL written by a handler restores the same filters, whenever
   * the category and the sort are non-empty (as every category button and
   * sort option is).
   */
  lemma RoundTrip(f: ClubFilters)
    requires f.category != "" && f.sort != ""
    ensures InitialFilters(UrlPairs(f)) == f
  {
    var a := Optional(f.search != "", "search", f.search);
    var b := Optional(f.category != "All", "category", f.category);
    var c := Optional(f.sort != "", "sort", f.sort);
    LookupThree(a, b, c, "search");
    LookupThree(a, b, c, "category");
    LookupThree(a, b, c, "sort");
    LookupOptional(f.search != "", "search", f.search, "search");
    LookupOptional(f.category != "All", "category", f.category, "search");
    LookupOptional(f.category != "All", "category", f.category, "category");
    LookupOptional(f.sort != "", "sort", f.sort, "search");
    LookupOptional(f.sort != "", "sort", f.sort, "category");
    LookupOptional(f.sort != "", "sort", f.sort, "sort");
    LookupOptional(f.search != "", "search", f.search, "category");
    LookupOptional(f.search != "", "search", f.search, "sort");
    LookupOptional(f.category != "All", "category", f.category, "sort");
  }

  /** With the page's own categories and sort options, every handler's URL reloads to the same filters. */
  lemma RoundTripOfChoices(search: string, category: string, sort: string)
    requires category in Categories && sort in SortOptions
    ensures InitialFilters(UrlPairs(ClubFilters(search, category, sort))) == ClubFilters(search, category, sort)
  {
    RoundTrip(ClubFilters(search, category, sort));
  }

  /** An empty category is written to the URL but reloads as "All". */
  lemma EmptyCategoryReloadsAsAll(search: string, sort: string)
    ensures InitialFilters(UrlPairs(ClubFilters(search, "", sort))).category == "All"
  {
    var f := ClubFilters(search, "", sort);
    LookupThree(Optional(f.search != "", "search", f.search), [("category", "")], Optional(f.sort != "", "sort", f.sort), "category");
  }

  /** The request and the URL carry the same pairs unless the category is empty. */
  lemma RequestMatchesUrl(f: ClubFilters)
    ensures f.category != "" <==> RequestPairs(f) == UrlPairs(f)
  {
    if f.category == "" {
      assert |RequestPairs(f)| < |UrlPairs(f)|;
    }
  }

  /** The listing page: filter state and the URL's search parameters. */
  class ClubsPage {
    var search: string
    var category: string
    var sort: string
    var url: Pairs

    function Filters(): ClubFilters
      reads this
    {
      ClubFilters(search, category, sort)
    }

    /** Mounting on a URL. */
    constructor(url0: Pairs)
      ensures Filters() == InitialFilters(url0) && url == url0
    {
      var f := InitialFilters(url0);
      search, category, sort := f.search, f.category, f.sort;
      url := url0;
    }

    /** The `queryFn`: a fresh parameter list built with `append`, in the order search, category, sort. */
    method RequestParams() returns (params: Pairs)
      ensures params == RequestPairs(Filters())
      ensures Lookup(params, "category").Some? <==> category != "" && category != "All"
    {
      var p := new SearchParams();
      if search != "" {
        p.Append("search", search);
      }
      if category != "" && category != "All" {
        p.Append("category", category);
      }
      if sort != "" {
        p.Append("sort", sort);
      }
      params := p.pairs;
      LookupThree(Optional(search != "", "search", search),
                  Optional(category != "" && category != "All", "category", category),
                  Optional(sort != "", "sort", sort), "category");
    }

    /** The three-key rule, built with `set` on a fresh parameter list and stored as the URL. */
    method WriteUrl(f: ClubFilters)
      modifies this
      ensures url == UrlPairs(f)
      ensures search == old(search) && category == old(category) && sort == old(sort)
    {
      var p := new SearchParams();
      if f.search != "" {
        p.Set("search", f.search);
      }
      assert p.pairs == Optional(f.search != "", "search", f.search);
      if f.category != "All" {
        SetAbsentAppends(p.pairs, "category", f.category);
        p.Set("category", f.category);
      }
      assert p.pairs == Optional(f.search != "", "search", f.search) + Optional(f.category != "All", "category", f.category);
      if f.sort != "" {
        LookupAppend(Optional(f.search != "", "search", f.search), Optional(f.category != "All", "category", f.category), "sort");
        SetAbsentAppends(p.pairs, "sort", f.sort);
        p.Set("sort", f.sort);
      }
      url := p.pairs;
    }

    /** The search box's `onChange`: only the search text changes. */
    method TypeSearch(text: string)
      modifies this
      ensures search == text && category == old(category) && sort == old(sort) && url == old(url)
    {
      search := text;
    }

    /** `handleSearch`: the current filters are written to the URL. */
    method HandleSearch()
      modifies this
      ensures Filters() == old(Filters()) && url == UrlPairs(Filters())
    {
      WriteUrl(Filters());
    }

    /** `handleCategoryChange`: the category changes, and the URL is rewritten with it. */
    method HandleCategoryChange(newCategory: string)
      modifies this
      ensures Filters() == old(Filters()).(category := newCategory) && url == UrlPairs(Filters())
    {
      category := newCategory;
      WriteUrl(Filters());
    }

    /** `handleSortChange`: the sort changes, and the URL is rewritten with it. */
    method HandleSortChange(newSort: string)
      modifies this
      ensures Filters() == old(Filters()).(sort := newSort) && url == UrlPairs(Filters())
    {
      sort := newSort;
      WriteUrl(Filters());
    }
  }
}
