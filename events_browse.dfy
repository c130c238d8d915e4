/**
 * The event listing page: its sort and "upcoming only" state are read from the
 * URL once, sent to the backend as query parameters, and written back to the
 * URL by each handler.
 */
module EventsBrowse {
  import opened Wrappers
  import opened JsValues
  import opened UrlParams
  import opened ClubsBrowse

  const EventSortOptions: seq<string> := ["date-asc", "date-desc", "newest", "oldest"]

  datatype EventFilters = EventFilters(sort: string, showUpcoming: bool)

  /** The state read when the page mounts: sort defaults to "date-asc"; only `upcoming=false` turns the filter off. */
  function InitialEventFilters(url: Pairs): (f: EventFilters)
    ensures f.sort != ""
    ensures Lookup(url, "sort") == None ==> f.sort == "date-asc"
    ensures !f.showUpcoming <==> Lookup(url, "upcoming") == Some("false")
  {
    EventFilters(TextOr(Lookup(url, "sort"), "date-asc"), Lookup(url, "upcoming") != Some("false"))
  }

  /** The pairs both the request and every URL handler write: sort when non-empty, `upcoming=true` when on. */
  function EventPairs(f: EventFilters): Pairs {
    Optional(f.sort != "", "sort", f.sort) + Optional(f.showUpcoming, "upcoming", "true")
  }

  lemma LookupEventPairs(f: EventFilters)
    ensures Lookup(EventPairs(f), "sort") == if f.sort != "" then Some(f.sort) else None
    ensures Lookup(EventPairs(f), "upcoming") == if f.showUpcoming then Some("true") else None
  {
    LookupAppend(Optional(f.sort != "", "sort", f.sort), Optional(f.showUpcoming, "upcoming", "true"), "sort");
    LookupAppend(Optional(f.sort != "", "sort", f.sort), Optional(f.showUpcoming, "upcoming", "true"), "upcoming");
  }

  /** The `upcoming=true` pair is present exactly when the filter is on. */
  lemma UpcomingPairIffOn(f: EventFilters)
    ensures ("upcoming", "true") in EventPairs(f) <==> f.showUpcoming
  {
    if ("upcoming", "true") in EventPairs(f) {
      LookupEventPairs(f);
    }
  }

  /** A non-empty sort survives a reload of the URL. */
  lemma SortRoundTrip(f: EventFilters)
    requires f.sort != ""
    ensures InitialEventFilters(EventPairs(f)).sort == f.sort
  {
    LookupEventPairs(f);
  }

  /** The filter being on survives a reload. */
  lemma UpcomingOnRoundTrip(f: EventFilters)
    requires f.showUpcoming
    ensures InitialEventFilters(EventPairs(f)).showUpcoming
  {
    LookupEventPairs(f);
  }

  /** As written, the filter being off does not survive: no pair is written, and no pair reads as on. */
  lemma UpcomingOffLost(f: EventFilters)
    requires !f.showUpcoming
    ensures InitialEventFilters(EventPairs(f)).showUpcoming
  {
    LookupEventPairs(f);
  }

  /** The URL an "upcoming only" filter evidently should produce: the off state is written as `upcoming=false`. */
  function CorrectedUrlPairs(f: EventFilters): Pairs {
    Optional(f.sort != "", "sort", f.sort) + [("upcoming", if f.showUpcoming then "true" else "false")]
  }

  /** With the corrected URL, every state with a non-empty sort survives a reload. */
  lemma CorrectedRoundTrip(f: EventFilters)
    requires f.sort != ""
    ensures InitialEventFilters(CorrectedUrlPairs(f)) == f
  {
    var tail: Pairs := [("upcoming", if f.showUpcoming then "true" else "false")];
    LookupAppend(Optional(f.sort != "", "sort", f.sort), tail, "sort");
    LookupAppend(Optional(f.sort != "", "sort", f.sort), tail, "upcoming");
  }

  /** The listing page: filter state and the URL's search parameters. */
  class EventsPage {
    var sort: string
    var showUpcoming: bool
    var url: Pairs

    function Filters(): EventFilters
      reads this
    {
      EventFilters(sort, showUpcoming)
    }

    constructor(url0: Pairs)
      ensures Filters() == InitialEventFilters(url0) && url == url0
    {
      var f := InitialEventFilters(url0);
      sort, showUpcoming := f.sort, f.showUpcoming;
      url := url0;
    }

    /** The `queryFn`: sort, then `upcoming=true`, appended to a fresh list. */
    method RequestParams() returns (params: Pairs)
      ensures params == EventPairs(Filters())
      ensures ("upcoming", "true") in params <==> showUpcoming
    {
      var p := new SearchParams();
      if sort != "" {
        p.Append("sort", sort);
      }
      if showUpcoming {
        p.Append("upcoming", "true");
      }
      params := p.pairs;
      UpcomingPairIffOn(Filters());
    }

    method WriteUrl(f: EventFilters)
      modifies this
      ensures url == EventPairs(f) && sort == old(sort) && showUpcoming == old(showUpcoming)
    {
      var p := new SearchParams();
      if f.sort != "" {
        p.Set("sort", f.sort);
      }
      if f.showUpcoming {
        SetAbsentAppends(p.pairs, "upcoming", "true");
        p.Set("upcoming", "true");
      }
      url := p.pairs;
    }

    /** `handleSortChange`: the sort changes and the filter is kept. */
    method HandleSortChange(newSort: string)
      modifies this
      ensures sort == newSort && showUpcoming == old(showUpcoming) && url == EventPairs(Filters())
    {
      sort := newSort;
      WriteUrl(Filters());
    }

    /** `handleUpcomingToggle`: the filter flips and the sort is kept. */
    method HandleUpcomingToggle()
      modifies this
      ensures showUpcoming == !old(showUpcoming) && sort == old(sort) && url == EventPairs(Filters())
    {
      showUpcoming := !showUpcoming;
      WriteUrl(Filters());
    }
  }
}
