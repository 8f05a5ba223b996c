/**
 * The admin event list: a search over title and description plus a status
 * filter, applied to every stored event whatever its status, and the
 * publish/unpublish toggle.
 */
module EventsList {
  import opened Seqs
  import opened Text
  import opened EventTypes
  import opened EventsStore

  /** The status selector: one status, or all of them. */
  datatype StatusFilter = AnyStatus | OnlyStatus(status: Status)

  /** Lower-cased title or description contains the lower-cased query, and the status passes the selector. */
  predicate Listed(e: Event, query: string, statusFilter: StatusFilter) {
    && (Contains(Lower(e.title), Lower(query)) || Contains(Lower(e.description), Lower(query)))
    && (statusFilter == AnyStatus || e.status == statusFilter.status)
  }

  function ListedBy(query: string, statusFilter: StatusFilter): Event -> bool {
    (e: Event) => Listed(e, query, statusFilter)
  }

  /** `filteredEvents`: the store's events in their stored order, without sorting. */
  function Listing(events: seq<Event>, query: string, statusFilter: StatusFilter): (r: seq<Event>)
    ensures |r| <= |events|
    ensures forall e :: e in r <==> e in events && Listed(e, query, statusFilter)
    ensures forall e :: multiset(r)[e] == if Listed(e, query, statusFilter) then multiset(events)[e] else 0
  {
    var r := Filter(events, ListedBy(query, statusFilter));
    forall e ensures e in r <==> e in events && Listed(e, query, statusFilter) {
      FilterMember(events, ListedBy(query, statusFilter), e);
    }
    r
  }

  /** The listing keeps the stored order: it is a subsequence of the events. */
  lemma ListingKeepsOrder(events: seq<Event>, query: string, statusFilter: StatusFilter)
    ensures IsSubsequence(Listing(events, query, statusFilter), events)
  {
    FilterIsSubsequence(events, ListedBy(query, statusFilter));
  }

  /** With an empty query and every status, the listing is all the events, drafts and cancelled ones included. */
  lemma EmptyQueryListsAll(events: seq<Event>)
    ensures Listing(events, "", AnyStatus) == events
  {
    forall i | 0 <= i < |events|
      ensures Listed(events[i], "", AnyStatus)
    {
      ContainsEmpty(Lower(events[i].title));
    }
    FilterKeepsAll(events, ListedBy("", AnyStatus));
  }

  /** Location and address are not searched: an event matching only there is not listed. */
  lemma LocationIsNotSearched(e: Event, query: string, statusFilter: StatusFilter)
    requires !Contains(Lower(e.title), Lower(query)) && !Contains(Lower(e.description), Lower(query))
    ensures !Listed(e, query, statusFilter)
  {
  }

  /** The status the toggle sets: a published event becomes a draft, any other becomes published. */
  function ToggledStatus(s: Status): (r: Status)
    ensures r == Draft <==> s == Published
    ensures r == Published <==> s != Published
  {
    if s == Published then Draft else Published
  }

  /** Two toggles bring a published event back, but turn a scheduled or cancelled one into a draft. */
  lemma ToggleTwice(s: Status)
    ensures ToggledStatus(ToggledStatus(s)) == (if s == Published then Published else Draft)
    ensures ToggledStatus(ToggledStatus(s)) == s <==> s == Published || s == Draft
  {
  }

  /** `togglePublishStatus`: the store's `updateEvent` with a status-only patch. */
  method TogglePublishStatus(store: Store, eventId: string, currentStatus: Status, now: int)
    modifies store
    ensures |store.events| == |old(store.events)|
    ensures forall i :: 0 <= i < |store.events| ==>
      store.events[i] == if old(store.events)[i].id == eventId
                         then old(store.events)[i].(status := ToggledStatus(currentStatus), updatedAt := now)
                         else old(store.events)[i]
    ensures store.filters == old(store.filters) && store.showOnlyWithTickets == old(store.showOnlyWithTickets)
    ensures store.isLoading == old(store.isLoading) && store.error == old(store.error)
  {
    var newStatus := ToggledStatus(currentStatus);
    forall e: Event {
      MergeLaws(e, newStatus, now);
    }
    store.UpdateEvent(eventId, StatusPatch(newStatus), now);
  }
}
