/**
 * The event store: the catalogue of events, the public filters and the
 * ticket-only toggle, the mutators that replace them, and the derived
 * views (filtered, today, weekend, upcoming, with tickets, by slug).
 *
 * Every list view keeps published events that satisfy its own predicate
 * and orders them by start time with a stable sort.
 */
module EventsStore {
  import opened Wrappers
  import opened Seqs
  import opened Text
  import opened EventTypes
  import opened EventCalendar

  /** The upcoming list is cut after this many events. */
  const UpcomingLimit := 12

  // ---------------------------------------------------------------------------
  // Ordering by start time

  predicate SortedByStart(s: seq<Event>) {
    forall i, j :: 0 <= i < j < |s| ==> s[i].startDateTime <= s[j].startDateTime
  }

  /** Puts `x` before the first element that does not start earlier. */
  function InsertByStart(x: Event, s: seq<Event>): (r: seq<Event>)
    ensures |r| == |s| + 1
    ensures multiset(r) == multiset(s) + multiset{x}
  {
    if s == [] then [x]
    else if x.startDateTime <= s[0].startDateTime then [x] + s
    else
      assert s == [s[0]] + s[1..];
      [s[0]] + InsertByStart(x, s[1..])
  }

  /** Every event of `s` starts at `b` or later. */
  predicate StartsFrom(b: int, s: seq<Event>) {
    forall k :: 0 <= k < |s| ==> b <= s[k].startDateTime
  }

  /** An event followed by a sorted list of later events is sorted. */
  lemma SortedCons(a: Event, t: seq<Event>)
    requires SortedByStart(t) && StartsFrom(a.startDateTime, t)
    ensures SortedByStart([a] + t)
  {
    var r := [a] + t;
    forall i, j | 0 <= i < j < |r|
      ensures r[i].startDateTime <= r[j].startDateTime
    {
      assert r[j] == t[j - 1];
      if i > 0 {
        assert r[i] == t[i - 1];
      }
    }
  }

  /** Inserting an event no earlier than `b` keeps every start at `b` or later. */
  lemma {:induction false} InsertKeepsBound(b: int, x: Event, s: seq<Event>)
    requires StartsFrom(b, s) && b <= x.startDateTime
    ensures StartsFrom(b, InsertByStart(x, s))
  {
    if s != [] && x.startDateTime > s[0].startDateTime {
      InsertKeepsBound(b, x, s[1..]);
      var rest := InsertByStart(x, s[1..]);
      assert InsertByStart(x, s) == [s[0]] + rest;
    }
  }

  /** Inserting into a sorted list keeps it sorted. */
  lemma {:induction false} InsertKeepsSorted(x: Event, s: seq<Event>)
    requires SortedByStart(s)
    ensures SortedByStart(InsertByStart(x, s))
  {
    if s == [] {
    } else if x.startDateTime <= s[0].startDateTime {
      SortedCons(x, s);
    } else {
      InsertKeepsSorted(x, s[1..]);
      assert StartsFrom(s[0].startDateTime, s[1..]);
      InsertKeepsBound(s[0].startDateTime, x, s[1..]);
      SortedCons(s[0], InsertByStart(x, s[1..]));
    }
  }

  /** `sort((a, b) => a.start - b.start)`: ascending start times, same elements. */
  function SortByStart(s: seq<Event>): (r: seq<Event>)
    ensures SortedByStart(r)
    ensures multiset(r) == multiset(s)
  {
    if s == [] then []
    else
      var rest := SortByStart(s[1..]);
      InsertKeepsSorted(s[0], rest);
      assert s == [s[0]] + s[1..];
      InsertByStart(s[0], rest)
  }

  /** Two events given in the wrong order come out earliest first. */
  lemma SortTwoEvents(a: Event, b: Event)
    requires b.startDateTime < a.startDateTime
    ensures SortByStart([a, b]) == [b, a]
  {
    assert [a, b][1..] == [b];
  }

  /** In a sorted list, the elements cut off after position `n` start no earlier than those kept. */
  lemma {:induction false} CutKeepsEarliest(s: seq<Event>, n: nat, e: Event)
    requires SortedByStart(s) && n <= |s|
    requires multiset(s[..n])[e] < multiset(s)[e]
    ensures forall i :: 0 <= i < n ==> s[i].startDateTime <= e.startDateTime
  {
    assert s == s[..n] + s[n..];
    assert multiset(s) == multiset(s[..n]) + multiset(s[n..]);
    assert e in s[n..];
    var k :| 0 <= k < |s| - n && s[n..][k] == e;
    assert s[n + k] == e;
  }

  /** `slice(0, n)`: the first `n` elements, or all of them when there are fewer. */
  function Prefix(s: seq<Event>, n: nat): (r: seq<Event>)
    ensures |r| == if |s| <= n then |s| else n
  {
    if |s| <= n then s else s[..n]
  }

  /** The first `n` of a sorted list are sorted, occur in it, and none of the rest starts earlier than any of them. */
  lemma {:induction false} PrefixOfSorted(s: seq<Event>, n: nat)
    requires SortedByStart(s)
    ensures SortedByStart(Prefix(s, n))
    ensures forall e :: multiset(Prefix(s, n))[e] <= multiset(s)[e]
    ensures forall e, i :: 0 <= i < |Prefix(s, n)| && multiset(Prefix(s, n))[e] < multiset(s)[e]
              ==> Prefix(s, n)[i].startDateTime <= e.startDateTime
  {
    var m := |Prefix(s, n)|;
    assert Prefix(s, n) == s[..m];
    assert s == s[..m] + s[m..];
    assert multiset(s) == multiset(s[..m]) + multiset(s[m..]);
    forall e | multiset(s[..m])[e] < multiset(s)[e] {
      CutKeepsEarliest(s, m, e);
    }
  }

  // ---------------------------------------------------------------------------
  // The predicates of the views

  predicate IsPublished(e: Event) { e.status == Published }

  /** The search of the public listing: title, description, place name or address contains the text, ignoring case. */
  predicate MatchesSearch(e: Event, searchText: string) {
    var search := Lower(searchText);
    Contains(Lower(e.title), search) || Contains(Lower(e.description), search)
    || Contains(Lower(e.locationName), search) || Contains(Lower(e.address), search)
  }

  predicate InCategory(e: Event, c: CategoryFilter) {
    c.AnyCategory? || e.category == c.category
  }

  predicate InDateRange(e: Event, range: DateRange, now: int) {
    match range
    case AnyDate => true
    case Today => IsToday(now, e.startDateTime)
    case Weekend => IsThisWeekend(now, e.startDateTime)
    case Upcoming => IsUpcoming(now, e.startDateTime)
  }

  /** What `getFilteredEvents` keeps; an empty search text keeps everything. */
  predicate IsListed(e: Event, f: Filters, onlyWithTickets: bool, now: int) {
    && IsPublished(e)
    && (onlyWithTickets ==> HasTickets(e))
    && (f.searchText == "" || MatchesSearch(e, f.searchText))
    && InCategory(e, f.category)
    && InDateRange(e, f.dateRange, now)
  }

  predicate IsTodayListed(now: int, e: Event) {
    IsPublished(e) && IsToday(now, e.startDateTime)
  }

  predicate IsWeekendListed(now: int, e: Event) {
    IsPublished(e) && IsThisWeekend(now, e.startDateTime)
  }

  predicate IsUpcomingListed(now: int, e: Event) {
    IsPublished(e) && IsAfterToday(now, e.startDateTime) && !IsThisWeekend(now, e.startDateTime)
  }

  predicate IsTicketListed(e: Event) {
    IsPublished(e) && HasTickets(e)
  }

  function TodayPred(now: int): Event -> bool { e => IsTodayListed(now, e) }
  function WeekendPred(now: int): Event -> bool { e => IsWeekendListed(now, e) }
  function UpcomingPred(now: int): Event -> bool { e => IsUpcomingListed(now, e) }
  function IdIsNot(id: string): Event -> bool { (e: Event) => e.id != id }
  function SearchPred(searchText: string): Event -> bool { e => MatchesSearch(e, searchText) }
  function CategoryPred(c: CategoryFilter): Event -> bool { e => InCategory(e, c) }
  function DateRangePred(range: DateRange, now: int): Event -> bool { e => InDateRange(e, range, now) }

  /** An empty search text is contained in every field, so skipping the search step when it is empty removes nothing. */
  lemma EmptySearchMatchesAll(e: Event)
    ensures MatchesSearch(e, "")
  {
    ContainsEmpty(Lower(e.title));
  }

  /** The search is case-insensitive: "jazz" finds "Festival de Jazz". */
  lemma SearchFindsJazz(e: Event)
    requires e.title == "Festival de Jazz"
    ensures MatchesSearch(e, "jazz")
  {
    var front := "Festival de ";
    assert e.title == front + "Jazz";
    LowerConcat(front, "Jazz");
    assert Lower("Jazz") == "jazz" && Lower("jazz") == "jazz";
    var t := Lower(front) + "jazz";
    assert t[|front|..|front| + 4] == "jazz";
    assert OccursAt(t, "jazz", |front|);
    ContainsIff(t, "jazz");
  }

  /** A search text longer than every searched field finds nothing. */
  lemma {:induction false} LongSearchFindsNothing(e: Event, searchText: string)
    requires |searchText| > |e.title| && |searchText| > |e.description|
    requires |searchText| > |e.locationName| && |searchText| > |e.address|
    ensures !MatchesSearch(e, searchText)
  {
    var q := Lower(searchText);
    ContainsIff(Lower(e.title), q);
    ContainsIff(Lower(e.description), q);
    ContainsIff(Lower(e.locationName), q);
    ContainsIff(Lower(e.address), q);
  }

  /** A filtered, sorted view: ascending start times, and each event satisfying `p` as often as stored. */
  lemma SortedView(events: seq<Event>, p: Event -> bool)
    ensures SortedByStart(SortByStart(Filter(events, p)))
    ensures forall e :: multiset(SortByStart(Filter(events, p)))[e] == if p(e) then multiset(events)[e] else 0
    ensures forall i :: 0 <= i < |SortByStart(Filter(events, p))| ==>
      SortByStart(Filter(events, p))[i] in events && p(SortByStart(Filter(events, p))[i])
  {
    var r := SortByStart(Filter(events, p));
    forall i | 0 <= i < |r|
      ensures r[i] in events && p(r[i])
    {
      assert multiset(r)[r[i]] > 0;
    }
  }

  /** Sorting keeps the number of events. */
  lemma SortKeepsLength(s: seq<Event>)
    ensures |SortByStart(s)| == |s|
  {
    assert |multiset(SortByStart(s))| == |multiset(s)|;
  }

  /** `getUpcomingEvents` on a list of events: sort the qualifying ones, keep the first twelve. */
  function UpcomingOf(events: seq<Event>, now: int): seq<Event> {
    Prefix(SortByStart(Filter(events, UpcomingPred(now))), UpcomingLimit)
  }

  /** The upcoming list holds as many qualifying events as there are, up to twelve. */
  lemma UpcomingSize(events: seq<Event>, now: int)
    ensures |UpcomingOf(events, now)| <= UpcomingLimit
    ensures |UpcomingOf(events, now)| == if |Filter(events, UpcomingPred(now))| <= UpcomingLimit
                                          then |Filter(events, UpcomingPred(now))| else UpcomingLimit
  {
    SortKeepsLength(Filter(events, UpcomingPred(now)));
  }

  /** Every event of the upcoming list is a stored, published event after today and outside this weekend's window. */
  lemma UpcomingMembers(events: seq<Event>, now: int)
    ensures forall i :: 0 <= i < |UpcomingOf(events, now)| ==>
      UpcomingOf(events, now)[i] in events && IsUpcomingListed(now, UpcomingOf(events, now)[i])
    ensures forall e :: multiset(UpcomingOf(events, now))[e] <= if IsUpcomingListed(now, e) then multiset(events)[e] else 0
  {
    var sorted := SortByStart(Filter(events, UpcomingPred(now)));
    var r := UpcomingOf(events, now);
    PrefixOfSorted(sorted, UpcomingLimit);
    forall i | 0 <= i < |r|
      ensures r[i] in events && IsUpcomingListed(now, r[i])
    {
      assert multiset(r)[r[i]] > 0;
    }
  }

  /** The upcoming list is sorted, and no qualifying event left out starts before an event kept. */
  lemma UpcomingOrder(events: seq<Event>, now: int)
    ensures SortedByStart(UpcomingOf(events, now))
    ensures forall e, i :: 0 <= i < |UpcomingOf(events, now)| && IsUpcomingListed(now, e)
              && multiset(UpcomingOf(events, now))[e] < multiset(events)[e]
              ==> UpcomingOf(events, now)[i].startDateTime <= e.startDateTime
  {
    var sorted := SortByStart(Filter(events, UpcomingPred(now)));
    PrefixOfSorted(sorted, UpcomingLimit);
    forall e | IsUpcomingListed(now, e)
      ensures multiset(sorted)[e] == multiset(events)[e]
    {
      assert UpcomingPred(now)(e);
    }
  }

  // ---------------------------------------------------------------------------
  // Partial updates

  /** `Partial<EventFilters>`: `None` leaves the field as it is. */
  datatype FiltersPatch = FiltersPatch(
    searchText: Option<string>,
    category: Option<CategoryFilter>,
    dateRange: Option<DateRange>)

  /** `{ ...filters, ...patch }` */
  function MergeFilters(f: Filters, p: FiltersPatch): (r: Filters)
    ensures r.searchText == p.searchText.GetOr(f.searchText)
    ensures r.category == p.category.GetOr(f.category)
    ensures r.dateRange == p.dateRange.GetOr(f.dateRange)
  {
    Filters(p.searchText.GetOr(f.searchText), p.category.GetOr(f.category), p.dateRange.GetOr(f.dateRange))
  }

  /** A patch that names no field changes nothing; a later patch of the same field wins. */
  lemma MergeFiltersLaws(f: Filters, p: FiltersPatch, q: FiltersPatch)
    ensures MergeFilters(f, FiltersPatch(None, None, None)) == f
    ensures q.searchText.Some? && q.category.Some? && q.dateRange.Some? ==>
      MergeFilters(MergeFilters(f, p), q) == MergeFilters(f, q)
  {
  }

  /**
   * `Partial<Event>`. A required field is `None` when the key is absent.
   * An optional field is `None` when the key is absent and `Some(None)`
   * when the key is present with the value `undefined`, which clears it.
   */
  datatype EventPatch = EventPatch(
    id: Option<string>,
    slug: Option<string>,
    title: Option<string>,
    description: Option<string>,
    category: Option<Category>,
    startDateTime: Option<int>,
    endDateTime: Option<int>,
    locationName: Option<string>,
    address: Option<string>,
    latitude: Option<Option<real>>,
    longitude: Option<Option<real>>,
    imageUrl: Option<string>,
    isFeatured: Option<bool>,
    ticketUrl: Option<Option<string>>,
    createdAt: Option<int>,
    updatedAt: Option<int>,
    status: Option<Status>,
    hasOnlineTickets: Option<Option<bool>>,
    ticketPrices: Option<Option<seq<TicketPrice>>>)

  const NoChanges := EventPatch(None, None, None, None, None, None, None, None, None, None,
                                None, None, None, None, None, None, None, None, None)

  /** `{ status }`, the patch of the publish toggle. */
  function StatusPatch(s: Status): EventPatch { NoChanges.(status := Some(s)) }

  /** `{ ...event, ...patch, updatedAt: now }` */
  function Merge(e: Event, p: EventPatch, now: int): (r: Event)
    ensures r.updatedAt == now
  {
    Event(
      p.id.GetOr(e.id), p.slug.GetOr(e.slug), p.title.GetOr(e.title),
      p.description.GetOr(e.description), p.category.GetOr(e.category),
      p.startDateTime.GetOr(e.startDateTime), p.endDateTime.GetOr(e.endDateTime),
      p.locationName.GetOr(e.locationName), p.address.GetOr(e.address),
      p.latitude.GetOr(e.latitude), p.longitude.GetOr(e.longitude),
      p.imageUrl.GetOr(e.imageUrl), p.isFeatured.GetOr(e.isFeatured),
      p.ticketUrl.GetOr(e.ticketUrl), p.createdAt.GetOr(e.createdAt),
      now, p.status.GetOr(e.status),
      p.hasOnlineTickets.GetOr(e.hasOnlineTickets), p.ticketPrices.GetOr(e.ticketPrices))
  }

  /** An empty patch only refreshes `updatedAt`; a status patch changes only the status besides it. */
  lemma MergeLaws(e: Event, s: Status, now: int)
    ensures Merge(e, NoChanges, now) == e.(updatedAt := now)
    ensures Merge(e, StatusPatch(s), now) == e.(status := s, updatedAt := now)
  {
  }

  /** `events.map(e => e.id === id ? Merge(e, patch, now) : e)` */
  function UpdateMatching(s: seq<Event>, id: string, p: EventPatch, now: int): (r: seq<Event>)
    ensures |r| == |s|
    ensures forall i :: 0 <= i < |s| ==> r[i] == if s[i].id == id then Merge(s[i], p, now) else s[i]
  {
    if s == [] then []
    else [if s[0].id == id then Merge(s[0], p, now) else s[0]] + UpdateMatching(s[1..], id, p, now)
  }

  /** Updating an id that no event has changes nothing. */
  lemma {:induction false} UpdateMissingIdIsIdentity(s: seq<Event>, id: string, p: EventPatch, now: int)
    requires forall i :: 0 <= i < |s| ==> s[i].id != id
    ensures UpdateMatching(s, id, p, now) == s
  {
    var r := UpdateMatching(s, id, p, now);
    assert forall i :: 0 <= i < |s| ==> r[i] == s[i];
  }

  /** The index of the first event with this slug, if any. */
  function FirstWithSlug(s: seq<Event>, slug: string): (r: Option<nat>)
    ensures r.Some? ==> r.value < |s| && s[r.value].slug == slug
    ensures r.Some? ==> forall j :: 0 <= j < r.value ==> s[j].slug != slug
    ensures r.None? ==> forall j :: 0 <= j < |s| ==> s[j].slug != slug
  {
    if s == [] then None
    else if s[0].slug == slug then Some(0)
    else match FirstWithSlug(s[1..], slug)
      case None => None
      case Some(k) => Some(k + 1)
  }

  // ---------------------------------------------------------------------------
  // The store

  class Store {
    var events: seq<Event>
    var filters: Filters
    var showOnlyWithTickets: bool
    var isLoading: bool
    var error: Option<string>

    constructor ()
      ensures events == [] && filters == DefaultFilters && !showOnlyWithTickets
      ensures !isLoading && error == None
    {
      events := [];
      filters := DefaultFilters;
      showOnlyWithTickets := false;
      isLoading := false;
      error := None;
    }

    /** `setFilters`: overwrite the supplied fields only. */
    method SetFilters(p: FiltersPatch)
      modifies this
      ensures filters == MergeFilters(old(filters), p)
      ensures events == old(events) && showOnlyWithTickets == old(showOnlyWithTickets)
      ensures isLoading == old(isLoading) && error == old(error)
    {
      filters := MergeFilters(filters, p);
    }

    /** `resetFilters`: default filters and the ticket toggle off. */
    method ResetFilters()
      modifies this
      ensures filters == DefaultFilters && !showOnlyWithTickets
      ensures filters.searchText == "" && filters.category == AnyCategory && filters.dateRange == AnyDate
      ensures events == old(events) && isLoading == old(isLoading) && error == old(error)
    {
      filters := DefaultFilters;
      showOnlyWithTickets := false;
    }

    method SetShowOnlyWithTickets(show: bool)
      modifies this
      ensures showOnlyWithTickets == show
      ensures events == old(events) && filters == old(filters)
      ensures isLoading == old(isLoading) && error == old(error)
    {
      showOnlyWithTickets := show;
    }

    /** `addEvent`: append at the end, with no check that the id or the slug is new. */
    method AddEvent(e: Event)
      modifies this
      ensures events == old(events) + [e]
      ensures filters == old(filters) && showOnlyWithTickets == old(showOnlyWithTickets)
      ensures isLoading == old(isLoading) && error == old(error)
    {
      events := events + [e];
    }

    /** `updateEvent`: merge the patch and a fresh `updatedAt` into every event with this id. */
    method UpdateEvent(id: string, p: EventPatch, now: int)
      modifies this
      ensures events == UpdateMatching(old(events), id, p, now)
      ensures |events| == |old(events)|
      ensures forall i :: 0 <= i < |events| && old(events)[i].id != id ==> events[i] == old(events)[i]
      ensures forall i :: 0 <= i < |events| && old(events)[i].id == id ==> events[i] == Merge(old(events)[i], p, now)
      ensures filters == old(filters) && showOnlyWithTickets == old(showOnlyWithTickets)
      ensures isLoading == old(isLoading) && error == old(error)
    {
      events := UpdateMatching(events, id, p, now);
    }

    /** `deleteEvent`: drop every event with this id, keep the others in order. */
    method DeleteEvent(id: string)
      modifies this
      ensures events == Filter(old(events), IdIsNot(id))
      ensures forall e :: e in events <==> e in old(events) && e.id != id
      ensures IsSubsequence(events, old(events))
      ensures filters == old(filters) && showOnlyWithTickets == old(showOnlyWithTickets)
      ensures isLoading == old(isLoading) && error == old(error)
    {
      ghost var was := events;
      FilterIsSubsequence(events, IdIsNot(id));
      events := Filter(events, IdIsNot(id));
      forall e ensures e in events <==> e in was && e.id != id {
        FilterMember(was, IdIsNot(id), e);
      }
    }

    /**
     * `loadEvents`, with its delay collapsed: `Some(batch)` is a load that
     * installs `batch`, `None` is the failure branch, which keeps the events
     * and records the error message.
     */
    method LoadEvents(loaded: Option<seq<Event>>)
      modifies this
      ensures !isLoading
      ensures loaded.Some? ==> events == loaded.value && error == None
      ensures loaded.None? ==> events == old(events) && error == Some("Não foi possível carregar os eventos")
      ensures filters == old(filters) && showOnlyWithTickets == old(showOnlyWithTickets)
    {
      isLoading, error := true, None;
      match loaded
      case Some(batch) =>
        events, isLoading := batch, false;
      case None =>
        error, isLoading := Some("Não foi possível carregar os eventos"), false;
    }

    /**
     * `getFilteredEvents`: narrows a local list step by step (published,
     * tickets, search, category, date range), then sorts it.
     */
    method GetFilteredEvents(now: int) returns (r: seq<Event>)
      ensures SortedByStart(r)
      ensures forall e :: multiset(r)[e] == if IsListed(e, filters, showOnlyWithTickets, now) then multiset(events)[e] else 0
      ensures forall e :: e in r <==> e in events && IsListed(e, filters, showOnlyWithTickets, now)
    {
      var filtered := Filter(events, IsPublished);
      PublishedStage(now);
      TicketStage(filtered, now);
      if showOnlyWithTickets {
        filtered := Filter(filtered, HasTickets);
      }
      SearchStage(filtered, now);
      if filters.searchText != "" {
        filtered := Filter(filtered, SearchPred(filters.searchText));
      }
      CategoryStage(filtered, now);
      if filters.category != AnyCategory {
        filtered := Filter(filtered, CategoryPred(filters.category));
      }
      DateStage(filtered, now);
      if filters.dateRange != AnyDate {
        filtered := Filter(filtered, DateRangePred(filters.dateRange, now));
      }
      r := SortByStart(filtered);
      LastStageIsListed(filtered, r, now);
    }

    /** After the last step the kept events are exactly the listed ones. */
    lemma LastStageIsListed(filtered: seq<Event>, r: seq<Event>, now: int)
      requires Kept(filtered, 4, now) && multiset(r) == multiset(filtered)
      ensures forall e :: multiset(r)[e] == if IsListed(e, filters, showOnlyWithTickets, now) then multiset(events)[e] else 0
      ensures forall e :: e in r <==> e in events && IsListed(e, filters, showOnlyWithTickets, now)
    {
      forall e ensures multiset(r)[e] == if IsListed(e, filters, showOnlyWithTickets, now) then multiset(events)[e] else 0 {
        assert PassesStages(e, 4, now) == IsListed(e, filters, showOnlyWithTickets, now);
      }
      forall e ensures e in r <==> e in events && IsListed(e, filters, showOnlyWithTickets, now) {
        assert e in r <==> multiset(r)[e] > 0;
        assert e in events <==> multiset(events)[e] > 0;
      }
    }

    /** The first step keeps the published events. */
    lemma PublishedStage(now: int)
      ensures Kept(Filter(events, IsPublished), 0, now)
    {
    }

    /** With the toggle on, the second step keeps the events with tickets. */
    lemma TicketStage(s: seq<Event>, now: int)
      requires Kept(s, 0, now)
      ensures showOnlyWithTickets ==> Kept(Filter(s, HasTickets), 1, now)
      ensures !showOnlyWithTickets ==> Kept(s, 1, now)
    {
      if showOnlyWithTickets {
        NarrowStage(s, HasTickets, 1, now);
      } else {
        SkipStage(s, 1, now);
      }
    }

    /** With a search text, the third step keeps the events that match it. */
    lemma SearchStage(s: seq<Event>, now: int)
      requires Kept(s, 1, now)
      ensures filters.searchText != "" ==> Kept(Filter(s, SearchPred(filters.searchText)), 2, now)
      ensures filters.searchText == "" ==> Kept(s, 2, now)
    {
      if filters.searchText != "" {
        NarrowStage(s, SearchPred(filters.searchText), 2, now);
      } else {
        SkipStage(s, 2, now);
      }
    }

    /** With a category chosen, the fourth step keeps that category. */
    lemma CategoryStage(s: seq<Event>, now: int)
      requires Kept(s, 2, now)
      ensures filters.category != AnyCategory ==> Kept(Filter(s, CategoryPred(filters.category)), 3, now)
      ensures filters.category == AnyCategory ==> Kept(s, 3, now)
    {
      if filters.category != AnyCategory {
        NarrowStage(s, CategoryPred(filters.category), 3, now);
      } else {
        SkipStage(s, 3, now);
      }
    }

    /** With a date range chosen, the last step keeps that range. */
    lemma DateStage(s: seq<Event>, now: int)
      requires Kept(s, 3, now)
      ensures filters.dateRange != AnyDate ==> Kept(Filter(s, DateRangePred(filters.dateRange, now)), 4, now)
      ensures filters.dateRange == AnyDate ==> Kept(s, 4, now)
    {
      if filters.dateRange != AnyDate {
        NarrowStage(s, DateRangePred(filters.dateRange, now), 4, now);
      } else {
        SkipStage(s, 4, now);
      }
    }

    /** One step of the pipeline: filtering by `p` narrows stage `stage - 1` to stage `stage`. */
    lemma NarrowStage(s: seq<Event>, p: Event -> bool, stage: nat, now: int)
      requires 1 <= stage && Kept(s, stage - 1, now)
      requires forall e :: PassesStages(e, stage, now) == (PassesStages(e, stage - 1, now) && p(e))
      ensures Kept(Filter(s, p), stage, now)
    {
    }

    /** A step the pipeline skips: stage `stage` keeps what stage `stage - 1` kept. */
    lemma SkipStage(s: seq<Event>, stage: nat, now: int)
      requires 1 <= stage && Kept(s, stage - 1, now)
      requires forall e :: PassesStages(e, stage, now) == PassesStages(e, stage - 1, now)
      ensures Kept(s, stage, now)
    {
    }

    /** The events that pass the first `stage` + 1 steps of `GetFilteredEvents`, with their multiplicities. */
    ghost predicate Kept(s: seq<Event>, stage: nat, now: int)
      reads this
    {
      forall e :: multiset(s)[e] == if PassesStages(e, stage, now) then multiset(events)[e] else 0
    }

    ghost predicate PassesStages(e: Event, stage: nat, now: int)
      reads this
    {
      && IsPublished(e)
      && (stage >= 1 && showOnlyWithTickets ==> HasTickets(e))
      && (stage >= 2 && filters.searchText != "" ==> MatchesSearch(e, filters.searchText))
      && (stage >= 3 ==> InCategory(e, filters.category))
      && (stage >= 4 ==> InDateRange(e, filters.dateRange, now))
    }

    /** `getTodayEvents`: published events starting today, earliest first. */
    function TodayEvents(now: int): (r: seq<Event>)
      reads this
      ensures SortedByStart(r)
      ensures forall e :: multiset(r)[e] == if IsTodayListed(now, e) then multiset(events)[e] else 0
      ensures forall i :: 0 <= i < |r| ==> r[i] in events && IsPublished(r[i]) && IsToday(now, r[i].startDateTime)
    {
      SortedView(events, TodayPred(now));
      SortByStart(Filter(events, TodayPred(now)))
    }

    /** `getWeekendEvents`: published events in this weekend's window, earliest first. */
    function WeekendEvents(now: int): (r: seq<Event>)
      reads this
      ensures SortedByStart(r)
      ensures forall e :: multiset(r)[e] == if IsWeekendListed(now, e) then multiset(events)[e] else 0
      ensures forall i :: 0 <= i < |r| ==> r[i] in events && IsPublished(r[i]) && IsThisWeekend(now, r[i].startDateTime)
    {
      SortedView(events, WeekendPred(now));
      SortByStart(Filter(events, WeekendPred(now)))
    }

    /**
     * `getUpcomingEvents`: the first twelve, by start time, of the published
     * events after today that are not in this weekend's window.
     */
    function UpcomingEvents(now: int): (r: seq<Event>)
      reads this
      ensures |r| <= UpcomingLimit
      ensures SortedByStart(r)
      ensures forall i :: 0 <= i < |r| ==>
        r[i] in events && IsPublished(r[i]) && IsAfterToday(now, r[i].startDateTime)
        && !IsThisWeekend(now, r[i].startDateTime)
      ensures forall e :: multiset(r)[e] <= if IsUpcomingListed(now, e) then multiset(events)[e] else 0
      ensures |r| == if |Filter(events, UpcomingPred(now))| <= UpcomingLimit
                     then |Filter(events, UpcomingPred(now))| else UpcomingLimit
      ensures forall e, i :: 0 <= i < |r| && IsUpcomingListed(now, e) && multiset(r)[e] < multiset(events)[e]
                ==> r[i].startDateTime <= e.startDateTime
    {
      UpcomingSize(events, now);
      UpcomingMembers(events, now);
      UpcomingOrder(events, now);
      UpcomingOf(events, now)
    }

    /** `getEventsWithTickets`: published events with a ticket link or online tickets, earliest first. */
    function EventsWithTickets(): (r: seq<Event>)
      reads this
      ensures SortedByStart(r)
      ensures forall e :: multiset(r)[e] == if IsTicketListed(e) then multiset(events)[e] else 0
      ensures forall i :: 0 <= i < |r| ==> r[i] in events && IsPublished(r[i]) && HasTickets(r[i])
    {
      SortedView(events, IsTicketListed);
      SortByStart(Filter(events, IsTicketListed))
    }

    /** `getEventBySlug`: the first event with this slug whatever its status, or none. */
    function EventBySlug(slug: string): (r: Option<Event>)
      reads this
      ensures r.None? <==> forall i :: 0 <= i < |events| ==> events[i].slug != slug
      ensures r.Some? ==> exists i :: 0 <= i < |events| && events[i] == r.value && events[i].slug == slug
                            && forall j :: 0 <= j < i ==> events[j].slug != slug
    {
      match FirstWithSlug(events, slug)
      case None => None
      case Some(i) => Some(events[i])
    }

    /** No upcoming event is also a weekend event: the upcoming list excludes the window outright. */
    lemma UpcomingAvoidsWeekend(now: int)
      ensures forall e :: e in UpcomingEvents(now) ==> e !in WeekendEvents(now)
    {
      var u := UpcomingEvents(now);
      var w := WeekendEvents(now);
      forall e | e in u ensures e !in w {
        var i :| 0 <= i < |u| && u[i] == e;
        assert !IsThisWeekend(now, e.startDateTime);
        assert multiset(w)[e] == 0;
      }
    }

    /** On a Sunday the weekend list is empty. */
    lemma {:induction false} NoWeekendEventsOnSunday(now: int)
      requires DayOfWeek(now) == 0
      ensures WeekendEvents(now) == []
    {
      var w := WeekendEvents(now);
      if w != [] {
        SundayWindowIsEmpty(now, w[0].startDateTime);
        assert false;
      }
    }
  }
}
