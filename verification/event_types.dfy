/**
 * The event record and the filter record of the catalogue.
 *
 * Timestamps (start, end, creation, update) are integers: local
 * wall-clock milliseconds, see module EventCalendar. Prices are integers
 * in centavos.
 */
module EventTypes {
  import opened Wrappers

  /** Six categories: the five of the type declaration plus `hospedagens`, which the category table and the filter chips also use. */
  datatype Category = Musica | Gastronomia | Cultura | Natureza | Infantil | Hospedagens

  datatype Status = Draft | Scheduled | Published | Canceled

  /** One entry of an event's price list (`type`, `price`, optional `description`). */
  datatype TicketPrice = TicketPrice(kind: string, price: int, description: Option<string>)

  datatype Event = Event(
    id: string,
    slug: string,
    title: string,
    description: string,
    category: Category,
    startDateTime: int,
    endDateTime: int,
    locationName: string,
    address: string,
    latitude: Option<real>,
    longitude: Option<real>,
    imageUrl: string,
    isFeatured: bool,
    ticketUrl: Option<string>,
    createdAt: int,
    updatedAt: int,
    status: Status,
    // read by the store and the payment modal although the type does not declare them
    hasOnlineTickets: Option<bool>,
    ticketPrices: Option<seq<TicketPrice>>
  )

  /** The category selector: one category, or all of them. */
  datatype CategoryFilter = AnyCategory | OnlyCategory(category: Category)

  datatype DateRange = AnyDate | Today | Weekend | Upcoming

  datatype Filters = Filters(searchText: string, category: CategoryFilter, dateRange: DateRange)

  /** The filters the store starts with and `resetFilters` restores. */
  const DefaultFilters := Filters("", AnyCategory, AnyDate)

  /** `event.ticketUrl || event.hasOnlineTickets`: a non-empty ticket link or the online-ticket flag set. */
  predicate HasTickets(e: Event) {
    (e.ticketUrl.Some? && e.ticketUrl.value != "") || e.hasOnlineTickets == Some(true)
  }
}
