# Paraty em Agenda — a verified model of the event catalogue

This project models, in Dafny, the logic at the core of the Paraty em Agenda
web application. The application is a public agenda of events for the town of
Paraty, with an admin area where events are created and published. The model covers:

- **The event store** (`EventsStore`, with `EventCalendar` and `EventTypes`).
  - A class holding the event list, the filter record and the ticket-only toggle.
  - Methods for the mutators: add, update by id with a partial patch, delete by
    id, set and reset filters, toggle, load.
  - Functions for the derived views: today, this weekend, upcoming (first twelve),
    with tickets, and by slug.
  - A method for the step-by-step filter pipeline `getFilteredEvents`.
  - Each view is stated as "sorted by start time and a permutation of exactly the
    stored events satisfying its predicate". The upcoming view is stated as the first
    twelve of that list.
  - The calendar predicates work on integer timestamps, with `now` as a parameter.
    The lemmas characterise today, the weekend window and the upcoming bound as
    ranges of whole days. They include the fact that the weekend window is empty on
    a Sunday.
- **The ticket purchase wizard** (`PaymentModal`).
  - Ticket options are built from an event's price list.
  - A quantity table holds one entry per ticket type, in insertion order and never
    negative, with its ticket and price totals.
  - The four-step flow tickets → details → payment → success is a pure step
    function plus a `PurchaseWizard` class.
- **The admin event form** (`EventForm`).
  - Saved and preview slug derivation.
  - The schema checks as a set of failing fields.
  - The record built on submission, and the choice between `addEvent` and
    `updateEvent` on the store.
  - The back/discard dialog.
- **The admin event list** (`EventsList`): the search and status filter over all
  stored events, and the publish/unpublish toggle through the store.
- **The admin session** (`Auth`): fixed-credential login, logout, and the route
  guard.
- **Helpers**:
  - `Dates`: `isEventStartingSoon`;
  - `Categories`: the category table with label and colour fallbacks;
  - `Text`: ASCII `toLowerCase`, whitespace, and `includes`;
  - `Seqs`: `filter` and subsequences.

Modelling conventions:

- **Timestamps.** A timestamp is an integer count of local wall-clock
  milliseconds, with a fixed offset. The calendar day is `t / 86400000`, and day 0
  is a Thursday, as 1 January 1970 was.
- **Prices.** Prices are integers (centavos).
- **Inputs passed in as parameters.** The current time, generated ids and the data
  installed by `loadEvents` are parameters.
- **Delays.** Every simulated delay is collapsed into an instantaneous
  transition.
- **Partial patches.** A `Partial<Event>` patch gives each field one of three
  states:
  - `None`: absent, so the field is kept;
  - `Some(v)`: set to `v`;
  - `Some(None)`: for optional fields, set explicitly to undefined, which clears it.

Points of the code's behaviour worth knowing:

- **The weekend window** (`src/domain/events/useEventsStore.ts:45-46`):
  - it is empty only on a Sunday;
  - on a Saturday it runs from Saturday 00:00 to Sunday 23:59:59.999.
- **Categories.** The event type declares five categories. The category table and
  the filter chips add `hospedagens`, so `Category` has six values. The form's
  schema still accepts only five, so the form rejects an event whose category is
  `hospedagens`.
- **Fields outside the event type.** The store and the payment modal read
  `hasOnlineTickets` and `ticketPrices`, which the event type does not declare.
  They are optional fields of the record.

## Model

| member | source | states |
|---|---|---|
| Seqs.Filter | src/domain/events/useEventsStore.ts:88 | `filter` keeps each element exactly as often as it occurs when the predicate holds and drops it otherwise, and every kept element satisfies the predicate |
| Seqs.FilterIsSubsequence | src/domain/events/useEventsStore.ts:184-188 | the kept elements stay in their original order |
| Text.Lower | src/domain/events/useEventsStore.ts:95 | `toLowerCase` keeps the length and lower-cases each ASCII capital, leaving every other character alone |
| Text.ContainsIff | src/domain/events/useEventsStore.ts:98-101 | `includes` holds exactly when the needle occurs at some position of the string |
| EventCalendar.TodayIsOneDay | src/domain/events/useEventsStore.ts:33-40 | `isToday` holds exactly from 00:00:00.000 to 23:59:59.999 of the current day |
| EventCalendar.UpcomingIncludesRestOfToday | src/domain/events/useEventsStore.ts:59-63 | `isUpcoming` also accepts events later today (anything after midnight) |
| EventCalendar.AfterTodayIsLaterDay | src/domain/events/useEventsStore.ts:142-148 | the upcoming list's bound (after 23:59:59.999 today) means a later calendar day |
| EventCalendar.AfterTodayIsUpcoming | src/domain/events/useEventsStore.ts:59-63 | everything after today is upcoming |
| EventCalendar.SundayWindowIsEmpty | src/domain/events/useEventsStore.ts:42-57 | on a Sunday the window's start lies after its end, so no timestamp is "this weekend" |
| EventCalendar.WeekendWindowDays | src/domain/events/useEventsStore.ts:42-57 | on any other day a timestamp is in the window exactly when its day lies between the coming Friday (or today on a Saturday) and the coming Sunday |
| EventCalendar.WeekendWindowShape | src/domain/events/useEventsStore.ts:42-57 | off Sunday the window is non-empty, starts at 00:00 of a Friday (a Saturday on Saturdays) and ends at 23:59:59.999 of a Sunday |
| EventCalendar.WeekendIsFridayToSunday | src/domain/events/useEventsStore.ts:42-57 | every weekend timestamp falls on a Friday, Saturday or Sunday |
| EventsStore.InsertByStart | src/domain/events/useEventsStore.ts:117-119 | inserting adds exactly that one event to the list and removes nothing |
| EventsStore.InsertKeepsSorted | src/domain/events/useEventsStore.ts:117-119 | inserting into a list sorted by start time keeps it sorted |
| EventsStore.SortByStart | src/domain/events/useEventsStore.ts:117-119 | the sort yields ascending start times and the same multiset of events |
| EventsStore.SortTwoEvents | src/domain/events/useEventsStore.ts:117-119 | two events in the wrong order come out earliest first |
| EventsStore.PrefixOfSorted | src/domain/events/useEventsStore.ts:153 | `slice(0, n)` of a sorted list is sorted, drawn from it, and nothing cut off starts earlier than a kept event |
| EventsStore.EmptySearchMatchesAll | src/domain/events/useEventsStore.ts:94-103 | an empty search text matches every event, so skipping the search step removes nothing |
| EventsStore.SearchFindsJazz | src/domain/events/useEventsStore.ts:94-103 | the search ignores case: "jazz" finds the title "Festival de Jazz" |
| EventsStore.LongSearchFindsNothing | src/domain/events/useEventsStore.ts:94-103 | a search text longer than all four searched fields matches nothing |
| EventsStore.SortedView | src/domain/events/useEventsStore.ts:122-163 | filtering by a predicate then sorting gives a sorted list holding each stored event that satisfies the predicate exactly as often as stored, and nothing else |
| EventsStore.UpcomingSize | src/domain/events/useEventsStore.ts:140-154 | the upcoming list has at most 12 events, and exactly `min(qualifying, 12)` |
| EventsStore.UpcomingMembers | src/domain/events/useEventsStore.ts:140-154 | every event of the upcoming list is stored, published, after today and outside the weekend window, and none appears more often than stored |
| EventsStore.UpcomingOrder | src/domain/events/useEventsStore.ts:140-154 | the upcoming list is sorted, and every qualifying event left out starts no earlier than every event kept |
| EventsStore.MergeFilters | src/domain/events/useEventsStore.ts:72-76 | each supplied filter field replaces the stored one and every other field is kept |
| EventsStore.MergeFiltersLaws | src/domain/events/useEventsStore.ts:72-76 | an empty patch changes nothing; a later patch of every field wins over an earlier one |
| EventsStore.Merge | src/domain/events/useEventsStore.ts:179 | the merged event always carries the fresh `updatedAt` |
| EventsStore.MergeLaws | src/domain/events/useEventsStore.ts:176-182 | an empty patch changes only `updatedAt`; a status patch changes only the status and `updatedAt` |
| EventsStore.UpdateMatching | src/domain/events/useEventsStore.ts:176-182 | the list keeps its length and order; events with the id are merged with the patch, the others are unchanged |
| EventsStore.UpdateMissingIdIsIdentity | src/domain/events/useEventsStore.ts:176-182 | updating an id no event has leaves the list as it is |
| EventsStore.FirstWithSlug | src/domain/events/useEventsStore.ts:165-168 | gives the index of the first event with the slug, or none exactly when no event has it |
| EventsStore.Store.constructor | src/domain/events/useEventsStore.ts:65-70 | the store starts empty, with default filters, the toggle off, not loading and no error |
| EventsStore.Store.SetFilters | src/domain/events/useEventsStore.ts:72-76 | the filters become the merge of the old ones with the patch; nothing else changes |
| EventsStore.Store.ResetFilters | src/domain/events/useEventsStore.ts:78-80 | the filters become search "", category all, date range all, and the ticket toggle is off; events are untouched |
| EventsStore.Store.SetShowOnlyWithTickets | src/domain/events/useEventsStore.ts:82-84 | sets the toggle only |
| EventsStore.Store.AddEvent | src/domain/events/useEventsStore.ts:170-174 | appends the event at the end, with no uniqueness check, and changes nothing else |
| EventsStore.Store.UpdateEvent | src/domain/events/useEventsStore.ts:176-182 | the same length and order; each event with the id is merged with the patch and a fresh `updatedAt`, the other events and all other state are unchanged |
| EventsStore.Store.DeleteEvent | src/domain/events/useEventsStore.ts:184-188 | removes exactly the events with the id and keeps the rest in order (a subsequence holding every other event) |
| EventsStore.Store.LoadEvents | src/domain/events/useEventsStore.ts:190-198 | on success installs the loaded events with no error; on failure keeps the events and records the error message; loading ends either way |
| EventsStore.Store.GetFilteredEvents | src/domain/events/useEventsStore.ts:86-120 | the result is sorted by start and holds each stored event exactly as often as stored when it passes every active filter (published; tickets when the toggle is on; the search in any of four fields; the category; the date range), and not at all otherwise |
| EventsStore.Store.TodayEvents | src/domain/events/useEventsStore.ts:122-129 | sorted, and exactly the published events starting today, each as often as stored |
| EventsStore.Store.WeekendEvents | src/domain/events/useEventsStore.ts:131-138 | sorted, and exactly the published events in the weekend window, each as often as stored |
| EventsStore.Store.UpcomingEvents | src/domain/events/useEventsStore.ts:140-154 | at most 12 events, sorted, each published, after today and outside the weekend window; as many as qualify up to 12, and no qualifying event left out starts earlier than one kept |
| EventsStore.Store.EventsWithTickets | src/domain/events/useEventsStore.ts:156-163 | sorted, and exactly the published events with a non-empty ticket link or online tickets, each as often as stored |
| EventsStore.Store.EventBySlug | src/domain/events/useEventsStore.ts:165-168 | the first event with the slug whatever its status, or none exactly when no event has that slug |
| EventsStore.Store.UpcomingAvoidsWeekend | src/domain/events/useEventsStore.ts:140-154 | no event of the upcoming list is in the weekend list |
| EventsStore.Store.NoWeekendEventsOnSunday | src/domain/events/useEventsStore.ts:131-138 | on a Sunday the weekend list is empty |
| PaymentModal.TicketName | src/components/PaymentModal.tsx:57-59 | single → "Ingresso", inteira → "Ingresso Inteira", meia → "Meia Entrada", any other type → "Infantil" |
| PaymentModal.TicketOptions | src/components/PaymentModal.tsx:54-64 | one option per price entry, in order, with its type as id, its name, its price, its description (or "Acesso ao evento") and quantity 0, when the event sells online; no options otherwise |
| PaymentModal.RendersIffOptions | src/components/PaymentModal.tsx:66-69 | the modal renders exactly when there is at least one ticket option |
| PaymentModal.SetQuantity | src/components/PaymentModal.tsx:71-76 | storing a quantity keeps ids distinct, sets that id's lookup, leaves every other lookup unchanged and keeps the table non-negative |
| PaymentModal.LookupNonNegative | src/components/PaymentModal.tsx:84 | no lookup in a non-negative table is negative |
| PaymentModal.AbsentIdHasZero | src/components/PaymentModal.tsx:84 | an id without an entry reads as 0 |
| PaymentModal.ClampQuantity | src/components/PaymentModal.tsx:74 | `max(0, q)`: never negative, and unchanged when not negative |
| PaymentModal.SumAfterSet | src/components/PaymentModal.tsx:78-80 | after storing `n` for an id, the ticket total changes by `n` minus that id's old quantity |
| PaymentModal.SumOfNonNegative | src/components/PaymentModal.tsx:78-80 | the ticket total is not negative, and it is zero exactly when every quantity is zero |
| PaymentModal.NoTicketsNoPrice | src/components/PaymentModal.tsx:82-87 | with no tickets chosen the price total is zero |
| PaymentModal.TotalPriceNonNegative | src/components/PaymentModal.tsx:82-87 | non-negative prices and quantities give a non-negative price total |
| PaymentModal.NextStep | src/components/PaymentModal.tsx:89-109 | next either stays or moves exactly one step; tickets moves only with a non-zero total, details only with name, email and phone filled in (cpf not needed), payment only with all four card fields; success stays |
| PaymentModal.BackStep | src/components/PaymentModal.tsx:353-361 | back is offered only on details and payment, and goes exactly one step back |
| PaymentModal.SuccessNeedsCard | src/components/PaymentModal.tsx:102-123 | success is reached only from the payment step with complete card data |
| PaymentModal.TicketsStepNeedsATicket | src/components/PaymentModal.tsx:90-95 | with no negative quantities the ticket step moves on exactly when at least one ticket is chosen |
| PaymentModal.PurchaseWizard.constructor | src/components/PaymentModal.tsx:38-52 | starts on the ticket step with nothing chosen and empty customer and card data |
| PaymentModal.PurchaseWizard.UpdateTicketQuantity | src/components/PaymentModal.tsx:71-76 | stores `max(0, q)` for the id, keeps every other entry and the non-negative invariant, and shifts the ticket total by the change |
| PaymentModal.PurchaseWizard.AddOne | src/components/PaymentModal.tsx:186 | the "+" button adds one ticket of that type and one to the total |
| PaymentModal.PurchaseWizard.RemoveOne | src/components/PaymentModal.tsx:177-178 | the "-" button removes one ticket of that type, never going below zero |
| PaymentModal.PurchaseWizard.SetCustomerData | src/components/PaymentModal.tsx:215-243 | replaces the customer data only |
| PaymentModal.PurchaseWizard.SetPaymentData | src/components/PaymentModal.tsx:264-294 | replaces the card data only |
| PaymentModal.PurchaseWizard.ProcessPayment | src/components/PaymentModal.tsx:111-123 | called from the payment step with the card filled in, as `handleNextStep` does; completing the payment moves to success and changes nothing else |
| PaymentModal.PurchaseWizard.HandleNextStep | src/components/PaymentModal.tsx:89-109 | the step becomes the guarded next step; the data is untouched |
| PaymentModal.PurchaseWizard.Back | src/components/PaymentModal.tsx:353-361 | details → tickets and payment → details; no change on the other steps |
| PaymentModal.PurchaseWizard.HandleClose | src/components/PaymentModal.tsx:125-131 | back to the ticket step, with quantities, customer data and card data cleared |
| EventForm.DashSpaces | src/pages/admin/EventFormPage.tsx:153 | replacing whitespace runs leaves no whitespace, never lengthens the text, and is empty only for empty input |
| EventForm.DashSpacesFixesSpaceFree | src/pages/admin/EventFormPage.tsx:153 | text without whitespace is left unchanged |
| EventForm.DashSpacesKeepsWord | src/pages/admin/EventFormPage.tsx:153 | text without whitespace in front is copied through unchanged, whatever follows |
| EventForm.DashSpacesCollapsesRun | src/pages/admin/EventFormPage.tsx:153 | a maximal whitespace run of any length becomes exactly one dash, whatever follows; with the row above this fixes the result for every input |
| EventForm.DashSpacesExample | src/pages/admin/EventFormPage.tsx:153 | a run of several whitespace characters becomes one dash |
| EventForm.KeepSlugChars | src/pages/admin/EventFormPage.tsx:153 | dropping the characters outside `[a-z0-9-]` leaves only slug characters and never lengthens the text |
| EventForm.KeepSlugCharsFixesSlugs | src/pages/admin/EventFormPage.tsx:153 | text made only of slug characters is left unchanged |
| EventForm.KeepSlugCharsKeepsOrder | src/pages/admin/EventFormPage.tsx:153 | the result is a subsequence of the input holding every slug character of it as often as it occurs |
| EventForm.Slug | src/pages/admin/EventFormPage.tsx:153 | the saved slug has only `a`-`z`, `0`-`9` and `-`, and is no longer than the title |
| EventForm.SlugIdempotent | src/pages/admin/EventFormPage.tsx:153 | deriving a slug from a slug gives the same slug |
| EventForm.PreviewSlug | src/pages/admin/EventFormPage.tsx:128 | the preview slug is never empty: "preview" for an empty title, otherwise the lower-cased, dashed title with nothing removed |
| EventForm.PreviewMatchesSlugIff | src/pages/admin/EventFormPage.tsx:128 | for a non-empty title the preview equals the saved slug exactly when the dashed title has only slug characters |
| EventForm.PreviewDiffersFromSlug | src/pages/admin/EventFormPage.tsx:128 | "Rock!" previews as "rock!" but saves as "rock"; an empty title previews as "preview" but saves as "" |
| EventForm.Errors | src/pages/admin/EventFormPage.tsx:33-57 | each field is reported exactly when its check fails: title < 5, description < 20, location < 3, address < 5, a category outside the five of the schema, a blank start; the end is reported when it is blank or, for a category in the schema, not strictly after the start |
| EventForm.ValidIff | src/pages/admin/EventFormPage.tsx:33-57 | a form is accepted exactly when every length holds, the category is one of the five, and both dates parse with the end strictly after the start |
| EventForm.EndBeforeStartBlamesEnd | src/pages/admin/EventFormPage.tsx:47-57 | an end at or before the start is reported on the end field alone |
| EventForm.FindById | src/pages/admin/EventFormPage.tsx:72 | the first event with the id, or none exactly when no event has it |
| EventForm.ExistingEvent | src/pages/admin/EventFormPage.tsx:71-72 | on the creation page there is no existing event; on the editing page it is the first stored event with the route id (no earlier event has it), or none exactly when no event has it |
| EventForm.CreateStampsNow | src/pages/admin/EventFormPage.tsx:151-168 | a record built on the creation page takes the fresh id and the current time as `createdAt`, whatever ids the store holds |
| EventForm.BuildRecord | src/pages/admin/EventFormPage.tsx:151-169 | the saved record keeps the route id (or takes the fresh one), derives the slug from the title, takes the button's status, stores an empty ticket link as absent, keeps the existing `createdAt` (or now), and ends after it starts |
| EventForm.EditKeepsOnlineTickets | src/pages/admin/EventFormPage.tsx:171-172 | updating with the saved record replaces every field it lists and keeps the event's online-ticket fields |
| EventForm.EditKeepsIdentity | src/pages/admin/EventFormPage.tsx:146-185 | an edited event keeps its id and creation time and the online-ticket fields, and takes the new title and the button's status |
| EventForm.FormPage.constructor | src/pages/admin/EventFormPage.tsx:63-69 | the page starts neither submitting, nor asking to discard, nor changed |
| EventForm.FormPage.SetHasChanges | src/pages/admin/EventFormPage.tsx:120-122 | mirrors the form's dirty flag |
| EventForm.FormPage.Submit | src/pages/admin/EventFormPage.tsx:146-185 | saves exactly when the form is valid; a rejected form changes nothing; when editing the store gets `updateEvent` with the record built from the edited event, otherwise `addEvent` appends a record created now; then the page navigates away |
| EventForm.FormPage.HandleBack | src/pages/admin/EventFormPage.tsx:187-193 | with unsaved changes it opens the discard dialog and stays; otherwise it navigates away |
| EventForm.FormPage.HandleDiscard | src/pages/admin/EventFormPage.tsx:195-198 | closes the dialog and navigates away |
| EventForm.FormPage.KeepEditing | src/pages/admin/EventFormPage.tsx:476 | closes the dialog and stays |
| EventsList.Listing | src/pages/admin/EventsListPage.tsx:52-59 | an event is listed exactly when its lower-cased title or description contains the lower-cased query and its status passes the selector, each as often as stored |
| EventsList.ListingKeepsOrder | src/pages/admin/EventsListPage.tsx:52 | the listing is a subsequence of the stored events, unsorted |
| EventsList.EmptyQueryListsAll | src/pages/admin/EventsListPage.tsx:52-59 | an empty query with every status lists all events, drafts and cancelled ones included |
| EventsList.LocationIsNotSearched | src/pages/admin/EventsListPage.tsx:53-55 | an event whose title and description do not match is not listed, whatever its location and address |
| EventsList.ToggledStatus | src/pages/admin/EventsListPage.tsx:62 | published becomes draft, every other status becomes published |
| EventsList.ToggleTwice | src/pages/admin/EventsListPage.tsx:61-63 | two toggles return published and draft to themselves, and turn scheduled or cancelled into draft |
| EventsList.TogglePublishStatus | src/pages/admin/EventsListPage.tsx:61-67 | every event with the id gets the toggled status and a fresh `updatedAt`, and nothing else changes |
| Auth.Guard | src/components/ProtectedRoute.tsx:8-16 | the admin content is shown exactly when authenticated |
| Auth.AuthStore.constructor | src/domain/auth/useAuthStore.ts:14-15 | starts not authenticated with no user: the signed-out session |
| Auth.AuthStore.Login | src/domain/auth/useAuthStore.ts:17-29 | succeeds exactly for "admin@paraty.com" / "admin123", recording the user with the name "Administrador"; a failure changes nothing; the new state is `AfterLogin` of the old one |
| Auth.AuthStore.Logout | src/domain/auth/useAuthStore.ts:31-36 | not authenticated and no user, whatever the state before; the new state is `AfterLogout` of the old one |
| Auth.AuthStore.Shows | src/components/ProtectedRoute.tsx:11-15 | the store's state shows admin content exactly when authenticated |
| Auth.AfterLogin | src/domain/auth/useAuthStore.ts:17-29 | the session after a login: signed in as that email for the admin pair, unchanged otherwise |
| Auth.AfterLogout | src/domain/auth/useAuthStore.ts:31-36 | the session after a logout is signed out with no user |
| Auth.TransitionsKeepValid | src/domain/auth/useAuthStore.ts:11-36 | both transitions keep "authenticated exactly when a user is recorded" |
| Auth.SessionLaws | src/domain/auth/useAuthStore.ts:17-36 | logout is idempotent; a failed login keeps an existing session; after a logout, a login signs in exactly with the admin pair |
| Auth.AdminNeedsCredentials | src/domain/auth/useAuthStore.ts:20-25 | from the signed-out start, the admin content is reached exactly through the admin pair |
| Dates.StartingSoonInMs | src/lib/dates.ts:35-40 | starting soon is exactly "more than 0 and at most 1,800,000 ms after now" |
| Dates.StartingSoonBoundaries | src/lib/dates.ts:38-39 | a start at or before now is not soon, exactly 30 minutes ahead is, and one millisecond more is not |
| Dates.StartingSoonShift | src/lib/dates.ts:36-38 | only the difference between start and now matters |
| Categories.Key | src/lib/categories.ts:11-42 | every category's key has an entry in the category table |
| Categories.KeysDistinct | src/domain/events/types.ts:3 | distinct categories are stored under distinct keys |
| Categories.LabelOf | src/lib/categories.ts:44-46 | the configured label, or the key itself when the table has no entry |
| Categories.ColorOf | src/lib/categories.ts:52-54 | the configured classes, or "bg-gray-100 text-gray-700" when the table has no entry |
| Categories.CategoryLabels | src/lib/categories.ts:11-46 | every category has an entry; musica reads "Música", gastronomia "Gastronomia", cultura "Cultura", natureza "Natureza", infantil "Infantil", hospedagens "Hospedagens" |
| Categories.LabelsDistinct | src/lib/categories.ts:11-42 | two categories share a label only when they are the same category |
| Categories.UnknownKeyFallback | src/lib/categories.ts:44-54 | a key outside the table reads as itself, in neutral grey |

## Left out

- Rendering, layouts, routing, styling, icons (`getCategoryIcon`), toasts and the carousel: they only present what the model computes. Navigation is a single "navigated away" flag.
- Date parsing and formatting. Timestamps are integers in local wall-clock time with a fixed offset, so daylight-saving jumps and time zones are not modelled. The form's date inputs arrive as blank, unparseable or a timestamp.
- Floating point: `parseFloat` of latitude and longitude (they arrive as optional reals); ticket prices are integers; the minutes quotient in `isEventStartingSoon` is an exact real quotient.
- Unicode: `toLowerCase`, the `\s` class and the slug are ASCII only.
- EventForm.Errors: the schema's minimum lengths count UTF-16 code units, while the model counts characters (`|s|`); a title of three emoji has length 6 in the source and passes `min(5)`, but has length 3 here and fails. Characters outside the Basic Multilingual Plane are not modelled as two units.
- The URL checks on the image and ticket links in the form's schema: URL syntax is not modelled, so these two fields always pass.
- Persistence of the session in local storage, and the mock data that `loadEvents` installs: the data is a parameter of `LoadEvents`.
- The simulated delays of `loadEvents`, `login`, form submission and `processPayment`: each is one instantaneous transition, so the intermediate `isLoading`, `isSubmitting` and `isProcessing` states between its start and end are not visible.
- PaymentModal.PurchaseWizard: the `isProcessing` flag is not a field because payment completes in one step. The source's `handleClose` does not reset that flag.
- EventsStore.Store.SetFilters: a filter field passed explicitly as `undefined` is not modelled; a patch field is either absent or a value.
- EventsStore.SortByStart: it is a stable sort, as `Array.prototype.sort` is, but only sortedness and permutation are stated, not stability.
- EventForm.Errors: only which fields fail is modelled, not the error messages. An out-of-schema category stops the schema before its end-after-start refinement, so then only a blank end is reported on the end field.
- The preview card's other fields (placeholder title, description and dates) are not modelled; only the preview slug is.
- Generated ids (`Date.now()`) and the current time are parameters.
