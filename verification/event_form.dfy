/**
 * The rules of the admin event form: slug derivation (saved and preview),
 * the schema checks, the record built on submission, the choice between
 * creating and updating, and the back/discard flow.
 *
 * Date inputs are already reduced to timestamps (or to blank / unparseable),
 * latitude and longitude to optional numbers; the submission delay is collapsed.
 */
module EventForm {
  import opened Wrappers
  import opened Seqs
  import opened Text
  import opened EventTypes
  import opened EventsStore

  // ---------------------------------------------------------------------------
  // Slugs

  /** The characters a saved slug keeps: `a`-`z`, `0`-`9` and `-`. */
  predicate SlugChar(c: char) { 'a' <= c <= 'z' || '0' <= c <= '9' || c == '-' }

  /** Drops the whitespace at the front of `s`. */
  function SkipSpaces(s: string): (r: string)
    ensures |r| <= |s| && r == s[|s| - |r|..]
    ensures r == [] || !IsSpace(r[0])
    ensures forall i :: 0 <= i < |s| - |r| ==> IsSpace(s[i])
  {
    if s != [] && IsSpace(s[0]) then SkipSpaces(s[1..]) else s
  }

  /** `replace(/\s+/g, '-')`: every maximal run of whitespace becomes a single `-`. */
  function DashSpaces(s: string): (r: string)
    ensures |r| <= |s|
    ensures r == [] <==> s == []
    ensures forall i :: 0 <= i < |r| ==> !IsSpace(r[i])
    decreases |s|
  {
    if s == [] then ""
    else
      var rest := if IsSpace(s[0]) then DashSpaces(SkipSpaces(s[1..])) else DashSpaces(s[1..]);
      var c := if IsSpace(s[0]) then '-' else s[0];
      assert !IsSpace(c);
      [c] + rest
  }

  /** A string without whitespace has no run to replace. */
  lemma {:induction false} DashSpacesFixesSpaceFree(s: string)
    requires forall i :: 0 <= i < |s| ==> !IsSpace(s[i])
    ensures DashSpaces(s) == s
  {
    if s != [] {
      DashSpacesFixesSpaceFree(s[1..]);
    }
  }

  /** Skipping whitespace passes over a whole run and stops at the first other character. */
  lemma {:induction false} SkipSpacesRun(run: string, s: string)
    requires forall i :: 0 <= i < |run| ==> IsSpace(run[i])
    requires s == [] || !IsSpace(s[0])
    ensures SkipSpaces(run + s) == s
  {
    if run == [] {
      assert run + s == s;
    } else {
      assert (run + s)[1..] == run[1..] + s;
      SkipSpacesRun(run[1..], s);
    }
  }

  /** Text without whitespace is copied through unchanged, character by character. */
  lemma {:induction false} DashSpacesKeepsWord(w: string, s: string)
    requires forall i :: 0 <= i < |w| ==> !IsSpace(w[i])
    ensures DashSpaces(w + s) == w + DashSpaces(s)
  {
    if w == [] {
      assert w + s == s;
    } else {
      assert (w + s)[0] == w[0] && (w + s)[1..] == w[1..] + s;
      DashSpacesKeepsWord(w[1..], s);
    }
  }

  /** A maximal run of whitespace, however long, becomes exactly one dash. */
  lemma DashSpacesCollapsesRun(run: string, s: string)
    requires run != [] && forall i :: 0 <= i < |run| ==> IsSpace(run[i])
    requires s == [] || !IsSpace(s[0])
    ensures DashSpaces(run + s) == "-" + DashSpaces(s)
  {
    assert (run + s)[0] == run[0] && (run + s)[1..] == run[1..] + s;
    SkipSpacesRun(run[1..], s);
  }

  /** A run of whitespace inside a word collapses to one dash, whatever its length. */
  lemma DashSpacesExample()
    ensures DashSpaces("a  \tb") == "a-b"
  {
    assert !IsSpace('b') && DashSpaces("b"[1..]) == "";
    assert DashSpaces("b") == "b";
    assert SkipSpaces("\tb"[1..]) == "b";
    assert SkipSpaces(" \tb"[1..]) == "b";
    assert SkipSpaces("  \tb"[1..]) == "b";
    assert DashSpaces("  \tb") == "-b";
    assert "a  \tb"[1..] == "  \tb";
  }

  /** `replace(/[^a-z0-9-]/g, '')`: drops every character that is not a slug character. */
  function KeepSlugChars(s: string): (r: string)
    ensures |r| <= |s|
    ensures forall i :: 0 <= i < |r| ==> SlugChar(r[i])
  {
    if s == [] then ""
    else if SlugChar(s[0]) then [s[0]] + KeepSlugChars(s[1..])
    else KeepSlugChars(s[1..])
  }

  /** A string made of slug characters loses nothing. */
  lemma {:induction false} KeepSlugCharsFixesSlugs(s: string)
    requires forall i :: 0 <= i < |s| ==> SlugChar(s[i])
    ensures KeepSlugChars(s) == s
  {
    if s != [] {
      KeepSlugCharsFixesSlugs(s[1..]);
    }
  }

  /** Every slug character of the input survives, in order: the result is the input with the others removed. */
  lemma {:induction false} KeepSlugCharsKeepsOrder(s: string)
    ensures IsSubsequence(KeepSlugChars(s), s)
    ensures forall c :: SlugChar(c) ==> multiset(KeepSlugChars(s))[c] == multiset(s)[c]
  {
    if s != [] {
      KeepSlugCharsKeepsOrder(s[1..]);
      assert s == [s[0]] + s[1..];
      if SlugChar(s[0]) {
        assert KeepSlugChars(s)[1..] == KeepSlugChars(s[1..]);
      } else {
        SubsequenceOfTail(KeepSlugChars(s), s);
      }
    }
  }

  /** The saved slug: lower-case, dash the whitespace runs, then drop every character outside `[a-z0-9-]`. */
  function Slug(title: string): (r: string)
    ensures |r| <= |title|
    ensures forall i :: 0 <= i < |r| ==> SlugChar(r[i])
  {
    KeepSlugChars(DashSpaces(Lower(title)))
  }

  /** Deriving a slug from a slug changes nothing. */
  lemma SlugIdempotent(title: string)
    ensures Slug(Slug(title)) == Slug(title)
  {
    var s := Slug(title);
    LowerFixesNonUpper(s);
    DashSpacesFixesSpaceFree(s);
    KeepSlugCharsFixesSlugs(s);
  }

  /** The slug shown in the live preview: no character is dropped, and an empty result reads as "preview". */
  function PreviewSlug(title: string): (r: string)
    ensures r != []
    ensures title == [] ==> r == "preview"
    ensures title != [] ==> r == DashSpaces(Lower(title))
  {
    var dashed := DashSpaces(Lower(title));
    if dashed == [] then "preview" else dashed
  }

  /** For a non-empty title the preview shows the saved slug exactly when the dashed title has only slug characters. */
  lemma PreviewMatchesSlugIff(title: string)
    requires title != []
    ensures PreviewSlug(title) == Slug(title) <==>
      forall i :: 0 <= i < |DashSpaces(Lower(title))| ==> SlugChar(DashSpaces(Lower(title))[i])
  {
    var dashed := DashSpaces(Lower(title));
    assert PreviewSlug(title) == dashed;
    if forall i :: 0 <= i < |dashed| ==> SlugChar(dashed[i]) {
      KeepSlugCharsFixesSlugs(dashed);
    } else {
      var i :| 0 <= i < |dashed| && !SlugChar(dashed[i]);
      assert dashed != Slug(title) by {
        if |Slug(title)| == |dashed| {
          assert SlugChar(Slug(title)[i]);
        }
      }
    }
  }

  /** "Rock!" lower-cases to "rock!" and has no whitespace to dash. */
  lemma RockDashed()
    ensures DashSpaces(Lower("Rock!")) == "rock!"
  {
    var lowered := Lower("Rock!");
    assert lowered == "rock!";
    DashSpacesFixesSpaceFree(lowered);
  }

  /** The preview and the saved slug differ on punctuation and on an empty title. */
  lemma PreviewDiffersFromSlug()
    ensures PreviewSlug("Rock!") == "rock!" && Slug("Rock!") == "rock"
    ensures PreviewSlug("") == "preview" && Slug("") == ""
  {
    RockDashed();
    assert KeepSlugChars("!") == "" by {
      assert !SlugChar('!');
      assert "!"[1..] == "";
    }
    assert KeepSlugChars("rock!") == "rock" by {
      assert "rock!"[1..] == "ock!" && "ock!"[1..] == "ck!" && "ck!"[1..] == "k!" && "k!"[1..] == "!";
    }
  }

  // ---------------------------------------------------------------------------
  // The form and its checks

  /** A date-time input: left blank, not a date, or a timestamp. */
  datatype DateInput = Blank | Unparseable | At(ms: int)

  datatype FormData = FormData(
    title: string,
    description: string,
    category: Category,
    startDateTime: DateInput,
    endDateTime: DateInput,
    locationName: string,
    address: string,
    latitude: Option<real>,
    longitude: Option<real>,
    imageUrl: string,
    ticketUrl: string,
    isFeatured: bool,
    status: Status)

  /** The fields a check can fail on. */
  datatype Field = TitleField | DescriptionField | CategoryField | StartField | EndField | LocationField | AddressField

  /** The five categories the form's schema accepts; `hospedagens` is not one of them. */
  predicate FormCategory(c: Category) { c != Hospedagens }

  /** The refinement: both dates parse and the end is strictly later than the start. */
  predicate EndAfterStart(f: FormData) {
    f.startDateTime.At? && f.endDateTime.At? && f.endDateTime.ms > f.startDateTime.ms
  }

  /** The check of one field fails. */
  predicate Fails(f: FormData, x: Field) {
    match x
    case TitleField => |f.title| < 5
    case DescriptionField => |f.description| < 20
    case CategoryField => !FormCategory(f.category)
    case StartField => f.startDateTime == Blank
    case EndField => f.endDateTime == Blank || (FormCategory(f.category) && !EndAfterStart(f))
    case LocationField => |f.locationName| < 3
    case AddressField => |f.address| < 5
  }

  /**
   * The fields whose check fails. An out-of-schema category stops the
   * object before its refinement, so then the end field reports only a blank input.
   */
  function Errors(f: FormData): (r: set<Field>)
    ensures TitleField in r <==> |f.title| < 5
    ensures DescriptionField in r <==> |f.description| < 20
    ensures CategoryField in r <==> !FormCategory(f.category)
    ensures StartField in r <==> f.startDateTime == Blank
    ensures EndField in r <==> f.endDateTime == Blank || (FormCategory(f.category) && !EndAfterStart(f))
    ensures LocationField in r <==> |f.locationName| < 3
    ensures AddressField in r <==> |f.address| < 5
  {
    set x: Field | Fails(f, x)
  }

  predicate Valid(f: FormData) { Errors(f) == {} }

  /** A form is accepted exactly when every length holds, the category is in the schema and the end is after the start. */
  lemma ValidIff(f: FormData)
    ensures Valid(f) <==>
      && |f.title| >= 5 && |f.description| >= 20
      && |f.locationName| >= 3 && |f.address| >= 5
      && FormCategory(f.category)
      && EndAfterStart(f)
  {
    if !Valid(f) {
      var x :| x in Errors(f);
    }
  }

  /** An end at or before the start is reported on the end field alone when every other field is fine. */
  lemma EndBeforeStartBlamesEnd(f: FormData)
    requires |f.title| >= 5 && |f.description| >= 20 && |f.locationName| >= 3 && |f.address| >= 5
    requires FormCategory(f.category) && f.startDateTime.At? && f.endDateTime.At?
    requires f.endDateTime.ms <= f.startDateTime.ms
    ensures Errors(f) == {EndField}
  {
  }

  // ---------------------------------------------------------------------------
  // The saved record

  /** `events.find(e => e.id === id)` */
  function FindById(events: seq<Event>, id: string): (r: Option<Event>)
    ensures r.None? <==> forall i :: 0 <= i < |events| ==> events[i].id != id
    ensures r.Some? ==> exists i :: 0 <= i < |events| && events[i] == r.value
                                     && events[i].id == id
                                     && forall j :: 0 <= j < i ==> events[j].id != id
  {
    if events == [] then None
    else if events[0].id == id then Some(events[0])
    else
      var r := FindById(events[1..], id);
      if r.Some? then
        var i :| 0 <= i < |events[1..]| && events[1..][i] == r.value && events[1..][i].id == id
                 && forall j :: 0 <= j < i ==> events[1..][j].id != id;
        assert events[i + 1] == r.value;
        r
      else r
  }

  /**
   * `existingEvent`: looked up only on the editing page; on the creation page
   * there is no existing event, whatever ids the store holds.
   */
  function ExistingEvent(events: seq<Event>, routeId: string): (r: Option<Event>)
    ensures routeId == "" ==> r.None?
    ensures r.None? <==> routeId == "" || forall i :: 0 <= i < |events| ==> events[i].id != routeId
    ensures r.Some? ==> r.value.id == routeId
    ensures r.Some? ==> exists i :: 0 <= i < |events| && events[i] == r.value
                                     && forall j :: 0 <= j < i ==> events[j].id != routeId
  {
    if routeId != "" then FindById(events, routeId) else None
  }

  /** A record built on the creation page is stamped with the current time, whatever the store holds. */
  lemma CreateStampsNow(events: seq<Event>, f: FormData, saveStatus: Status, freshId: string, now: int)
    requires Valid(f)
    ensures BuildRecord(f, saveStatus, "", freshId, ExistingEvent(events, ""), now).createdAt == now
    ensures BuildRecord(f, saveStatus, "", freshId, ExistingEvent(events, ""), now).id == freshId
  {
  }

  /**
   * The record `onSubmit` saves. `routeId` is the id in the address ("" when
   * creating), `freshId` the generated id, `existing` the event being edited.
   */
  function BuildRecord(f: FormData, saveStatus: Status, routeId: string, freshId: string,
                       existing: Option<Event>, now: int): (r: Event)
    requires Valid(f)
    ensures r.id == (if routeId != "" then routeId else freshId)
    ensures r.slug == Slug(f.title)
    ensures r.status == saveStatus
    ensures r.ticketUrl.None? <==> f.ticketUrl == ""
    ensures r.ticketUrl.Some? ==> r.ticketUrl.value == f.ticketUrl
    ensures r.createdAt == (if existing.Some? then existing.value.createdAt else now)
    ensures r.updatedAt == now
    ensures r.endDateTime > r.startDateTime
    ensures r.hasOnlineTickets.None? && r.ticketPrices.None?
  {
    ValidIff(f);
    Event(
      if routeId != "" then routeId else freshId,
      Slug(f.title), f.title, f.description, f.category,
      f.startDateTime.ms, f.endDateTime.ms,
      f.locationName, f.address, f.latitude, f.longitude,
      f.imageUrl, f.isFeatured,
      if f.ticketUrl == "" then None else Some(f.ticketUrl),
      if existing.Some? then existing.value.createdAt else now,
      now, saveStatus, None, None)
  }

  /** The record passed to `updateEvent`: every field it lists, which excludes the online-ticket fields. */
  function RecordPatch(r: Event): EventPatch {
    EventPatch(
      Some(r.id), Some(r.slug), Some(r.title), Some(r.description), Some(r.category),
      Some(r.startDateTime), Some(r.endDateTime), Some(r.locationName), Some(r.address),
      Some(r.latitude), Some(r.longitude), Some(r.imageUrl), Some(r.isFeatured),
      Some(r.ticketUrl), Some(r.createdAt), Some(r.updatedAt), Some(r.status),
      None, None)
  }

  /** An edit replaces the event by the new record, except that its online-ticket fields survive. */
  lemma EditKeepsOnlineTickets(old_: Event, r: Event, now: int)
    requires r.updatedAt == now
    ensures Merge(old_, RecordPatch(r), now)
         == r.(hasOnlineTickets := old_.hasOnlineTickets, ticketPrices := old_.ticketPrices)
  {
  }

  // ---------------------------------------------------------------------------
  // The page's state

  class FormPage {
    /** The `:id` route parameter; "" on the creation page. */
    const routeId: string
    var isSubmitting: bool
    var showDiscardDialog: bool
    var hasChanges: bool
    /** Set once the page has navigated back to the event list. */
    var navigated: bool

    constructor (routeId: string)
      ensures this.routeId == routeId
      ensures !isSubmitting && !showDiscardDialog && !hasChanges && !navigated
    {
      this.routeId := routeId;
      isSubmitting := false;
      showDiscardDialog := false;
      hasChanges := false;
      navigated := false;
    }

    predicate IsEditing()
      reads this
    {
      routeId != ""
    }

    /** The effect that mirrors the form's dirty flag. */
    method SetHasChanges(dirty: bool)
      modifies this
      ensures hasChanges == dirty
      ensures isSubmitting == old(isSubmitting) && showDiscardDialog == old(showDiscardDialog) && navigated == old(navigated)
    {
      hasChanges := dirty;
    }

    /**
     * One of the two save buttons: the schema check, then `onSubmit` with the
     * button's status. A rejected form changes nothing; an accepted one is
     * added to, or merged into, the store and the page navigates away.
     */
    method Submit(store: Store, f: FormData, saveStatus: Status, freshId: string, now: int) returns (saved: bool)
      modifies this, store
      ensures saved <==> Valid(f)
      ensures !saved ==> store.events == old(store.events)
                         && isSubmitting == old(isSubmitting) && navigated == old(navigated)
      ensures saved ==>
        var rec := BuildRecord(f, saveStatus, routeId, freshId, ExistingEvent(old(store.events), routeId), now);
        && (routeId != "" ==> store.events == UpdateMatching(old(store.events), routeId, RecordPatch(rec), now))
        && (routeId == "" ==> store.events == old(store.events) + [rec] && rec.createdAt == now)
        && navigated && !isSubmitting
      ensures store.filters == old(store.filters) && store.showOnlyWithTickets == old(store.showOnlyWithTickets)
      ensures store.isLoading == old(store.isLoading) && store.error == old(store.error)
      ensures showDiscardDialog == old(showDiscardDialog) && hasChanges == old(hasChanges)
    {
      if !Valid(f) {
        return false;
      }
      isSubmitting := true;
      var rec := BuildRecord(f, saveStatus, routeId, freshId, ExistingEvent(store.events, routeId), now);
      if routeId != "" {
        store.UpdateEvent(routeId, RecordPatch(rec), now);
      } else {
        store.AddEvent(rec);
      }
      navigated := true;
      isSubmitting := false;
      return true;
    }

    /** `handleBack`: with unsaved changes ask first, otherwise leave. */
    method HandleBack()
      modifies this
      ensures old(hasChanges) ==> showDiscardDialog && navigated == old(navigated)
      ensures !old(hasChanges) ==> navigated && showDiscardDialog == old(showDiscardDialog)
      ensures hasChanges == old(hasChanges) && isSubmitting == old(isSubmitting)
    {
      if hasChanges {
        showDiscardDialog := true;
      } else {
        navigated := true;
      }
    }

    /** `handleDiscard`: close the dialog and leave without saving. */
    method HandleDiscard()
      modifies this
      ensures !showDiscardDialog && navigated
      ensures hasChanges == old(hasChanges) && isSubmitting == old(isSubmitting)
    {
      showDiscardDialog := false;
      navigated := true;
    }

    /** "Continuar editando": close the dialog and stay. */
    method KeepEditing()
      modifies this
      ensures !showDiscardDialog
      ensures navigated == old(navigated) && hasChanges == old(hasChanges) && isSubmitting == old(isSubmitting)
    {
      showDiscardDialog := false;
    }
  }

  /** Editing an event that exists keeps its id and creation time and takes the new fields. */
  lemma EditKeepsIdentity(events: seq<Event>, f: FormData, saveStatus: Status, routeId: string, freshId: string, now: int, i: int)
    requires Valid(f) && routeId != ""
    requires 0 <= i < |events| && events[i].id == routeId
    ensures
      var rec := BuildRecord(f, saveStatus, routeId, freshId, ExistingEvent(events, routeId), now);
      var updated := UpdateMatching(events, routeId, RecordPatch(rec), now);
      && updated[i].id == events[i].id
      && updated[i].createdAt == FindById(events, routeId).value.createdAt
      && updated[i].title == f.title && updated[i].status == saveStatus
      && updated[i].hasOnlineTickets == events[i].hasOnlineTickets
      && updated[i].ticketPrices == events[i].ticketPrices
  {
  }
}
