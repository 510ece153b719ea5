/**
 * The dashboard's client-side event filter: an optional title search and an
 * optional location filter, both case-insensitive substring tests; an empty
 * input switches its filter off.
 */
module Dashboard {
  import opened Text
  import opened Sequences
  import opened Records

  /** One event passes when it satisfies every filter that is switched on. */
  function Wanted(searchQuery: string, locationFilter: string): Event -> bool
  {
    (e: Event) => (searchQuery != "" ==> Includes(e.title, searchQuery))
                  && (locationFilter != "" ==> Includes(e.location, locationFilter))
  }

  /** The events to show, defined in one pass over the fetched list. */
  function Visible(events: seq<Event>, searchQuery: string, locationFilter: string): (r: seq<Event>)
    ensures forall i :: 0 <= i < |r| ==> r[i] in events
    ensures forall i :: 0 <= i < |r| && searchQuery != "" ==> Includes(r[i].title, searchQuery)
    ensures forall i :: 0 <= i < |r| && locationFilter != "" ==> Includes(r[i].location, locationFilter)
    ensures forall i :: 0 <= i < |events|
                        && (searchQuery != "" ==> Includes(events[i].title, searchQuery))
                        && (locationFilter != "" ==> Includes(events[i].location, locationFilter))
                        ==> events[i] in r
    ensures forall e: Event :: multiset(r)[e] ==
              if (searchQuery != "" ==> Includes(e.title, searchQuery))
                 && (locationFilter != "" ==> Includes(e.location, locationFilter))
              then multiset(events)[e] else 0
  {
    FilterCounts(events, Wanted(searchQuery, locationFilter));
    Filter(events, Wanted(searchQuery, locationFilter))
  }

  /** What is shown is the fetched list with some events left out, in the fetched order. */
  lemma VisibleIsSubsequence(events: seq<Event>, searchQuery: string, locationFilter: string)
    ensures IsSubsequence(Visible(events, searchQuery, locationFilter), events)
  {
    FilterIsSubsequence(events, Wanted(searchQuery, locationFilter));
  }

  /** With both inputs empty, every fetched event is shown. */
  lemma NoFilterShowsAll(events: seq<Event>)
    ensures Visible(events, "", "") == events
  {
    FilterKeepsAll(events, Wanted("", ""));
  }

  /** Applying the location filter before the title search gives the same list. */
  lemma LocationFirstSameResult(events: seq<Event>, searchQuery: string, locationFilter: string)
    requires searchQuery != "" && locationFilter != ""
    ensures Filter(Filter(events, LocationIncludes(locationFilter)), TitleIncludes(searchQuery))
         == Visible(events, searchQuery, locationFilter)
  {
    FilterCommutes(events, LocationIncludes(locationFilter), TitleIncludes(searchQuery));
    FilterFuse(events, TitleIncludes(searchQuery), LocationIncludes(locationFilter));
    FilterCongruent(events, Both(TitleIncludes(searchQuery), LocationIncludes(locationFilter)),
                    Wanted(searchQuery, locationFilter));
  }

  /** The page state that `filterEvents` reads and writes. */
  class DashboardPage {
    var events: seq<Event>
    var filteredEvents: seq<Event>
    var searchQuery: string
    var locationFilter: string

    constructor ()
      ensures events == [] && filteredEvents == [] && searchQuery == "" && locationFilter == ""
    {
      events := [];
      filteredEvents := [];
      searchQuery := "";
      locationFilter := "";
    }

    /** `filterEvents`: narrow by title, then by location, and store the result. */
    method FilterEvents()
      modifies this`filteredEvents
      ensures filteredEvents == Visible(events, searchQuery, locationFilter)
    {
      var filtered := events;
      if searchQuery != "" {
        filtered := Filter(filtered, TitleIncludes(searchQuery));
      }
      if locationFilter != "" {
        filtered := Filter(filtered, LocationIncludes(locationFilter));
      }
      filteredEvents := filtered;

      var wanted := Wanted(searchQuery, locationFilter);
      if searchQuery != "" && locationFilter != "" {
        FilterFuse(events, TitleIncludes(searchQuery), LocationIncludes(locationFilter));
        FilterCongruent(events, Both(TitleIncludes(searchQuery), LocationIncludes(locationFilter)), wanted);
      } else if searchQuery != "" {
        FilterCongruent(events, TitleIncludes(searchQuery), wanted);
      } else if locationFilter != "" {
        FilterCongruent(events, LocationIncludes(locationFilter), wanted);
      } else {
        FilterKeepsAll(events, wanted);
      }
    }
  }
}
