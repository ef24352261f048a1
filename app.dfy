/**
 * The community site's application object (js/main.js): the in-memory event
 * list, its copy in `localStorage`, the add-event form, deletion, the sidebar's
 * statistics and recent-events list, and the upcoming-events list.
 */
module CommunityApp {
  import opened JsValues
  import opened Text
  import opened EventModel
  import opened BrowserStorage
  import opened Sheets

  const Version := "1.0.0"

  /** One day in milliseconds. */
  const Day := 24 * 60 * 60 * 1000

  // ---------------------------------------------------------------------------
  // Loading and saving

  /** The storage after `saveEvents`: the events under `taizeEvents`, and the events
    * with the version and save time under `taizeMetadata`. */
  function SavedItems(p: Platform, items: map<string, string>, events: seq<Event>, clock: int): (r: map<string, string>)
    ensures r.Keys == items.Keys + {EventsKey, MetadataKey}
    ensures r[EventsKey] == p.encodeEvents(events)
    ensures r[MetadataKey] == p.encodeMetadata(events, Version, p.isoString(clock))
    ensures forall k :: k in items && k != EventsKey && k != MetadataKey ==> r[k] == items[k]
  {
    items[EventsKey := p.encodeEvents(events)][MetadataKey := p.encodeMetadata(events, Version, p.isoString(clock))]
  }

  /** `loadEvents` when `taizeEvents` holds a non-empty text: the validated list, or the
    * sample events when the text does not parse as an array. */
  function StoredLoad(p: Platform, text: string, clock: int): (r: seq<Event>)
    ensures clock > 0 ==> forall k :: 0 <= k < |r| ==> IsComplete(r[k])
  {
    match p.decodeEvents(text)
    case Some(events) => ValidEvents(events)
    case None => DefaultEvents(clock)
  }

  /** `loadEvents` on a first visit: the spreadsheet's events when there are any, else
    * the list already in memory, else the sample events. */
  function ColdStartEvents(prior: seq<Event>, fromSheets: seq<Event>, clock: int): (r: seq<Event>)
    ensures |r| > 0
    ensures |fromSheets| > 0 ==> r == fromSheets
    ensures |fromSheets| == 0 && |prior| > 0 ==> r == prior
    ensures |fromSheets| == 0 && |prior| == 0 ==> r == DefaultEvents(clock)
  {
    if |fromSheets| > 0 then fromSheets
    else if |prior| == 0 then DefaultEvents(clock)
    else prior
  }

  /** A stored list is read back as the complete events of the list that was saved,
    * as long as its JSON text round-trips. */
  lemma SavedEventsLoadBack(p: Platform, items: map<string, string>, events: seq<Event>, clock: int)
    requires p.encodeEvents(events) != ""
    requires p.decodeEvents(p.encodeEvents(events)) == Some(events)
    ensures SavedItems(p, items, events, clock)[EventsKey] != ""
    ensures StoredLoad(p, SavedItems(p, items, events, clock)[EventsKey], clock) == ValidEvents(events)
  {
  }

  /** Saving the list a load produced and loading it again changes nothing. */
  lemma {:induction false} ReloadIsStable(p: Platform, events: seq<Event>, clock: int)
    requires p.encodeEvents(ValidEvents(events)) != ""
    requires p.decodeEvents(p.encodeEvents(ValidEvents(events))) == Some(ValidEvents(events))
    ensures StoredLoad(p, p.encodeEvents(ValidEvents(events)), clock) == ValidEvents(events)
  {
    ValidEventsIdempotent(events);
  }

  // ---------------------------------------------------------------------------
  // The add-event form

  /** The form's fields, each already trimmed by `getElementValue`. */
  datatype FormData = FormData(
    title: string, date: string, location: string, lat: string, lng: string,
    description: string, fullDescription: string, programLink: string, photos: string)

  /** `getFormData`: every field's value, trimmed. */
  function ReadForm(raw: FormData): (d: FormData)
    ensures d.title == Trim(raw.title) && d.date == Trim(raw.date) && d.location == Trim(raw.location)
    ensures d.lat == Trim(raw.lat) && d.lng == Trim(raw.lng)
    ensures d.description == Trim(raw.description) && d.fullDescription == Trim(raw.fullDescription)
    ensures d.programLink == Trim(raw.programLink) && d.photos == Trim(raw.photos)
  {
    FormData(Trim(raw.title), Trim(raw.date), Trim(raw.location), Trim(raw.lat), Trim(raw.lng),
      Trim(raw.description), Trim(raw.fullDescription), Trim(raw.programLink), Trim(raw.photos))
  }

  /** Reading a form whose fields were already read changes nothing: no value keeps
    * white space at either end. */
  lemma ReadFormIdempotent(raw: FormData)
    ensures ReadForm(ReadForm(raw)) == ReadForm(raw)
  {
    TrimIdempotent(raw.title);
    TrimIdempotent(raw.date);
    TrimIdempotent(raw.location);
    TrimIdempotent(raw.lat);
    TrimIdempotent(raw.lng);
    TrimIdempotent(raw.description);
    TrimIdempotent(raw.fullDescription);
    TrimIdempotent(raw.programLink);
    TrimIdempotent(raw.photos);
  }

  datatype FormError =
    | MissingTitle | MissingDate | MissingLocation | BadLatitude | BadLongitude | MissingDescription
    | LatitudeOutsideUkraine | LongitudeOutsideUkraine

  /** A parsed coordinate within the closed range. */
  predicate WithinRange(v: Option<real>, lo: real, hi: real)
  {
    v.Some? && lo <= v.value <= hi
  }

  /** What the form must satisfy: the four texts filled in, latitude in [44, 52] and
    * longitude in [22, 40] (the territory of Ukraine). */
  predicate FormAcceptable(p: Platform, d: FormData)
  {
    d.title != "" && d.date != "" && d.location != "" && d.description != ""
    && d.lat != "" && WithinRange(p.parseFloat(Str(d.lat)), 44.0, 52.0)
    && d.lng != "" && WithinRange(p.parseFloat(Str(d.lng)), 22.0, 40.0)
  }

  /** The messages of `validateFormData`, in the order it collects them. A coordinate
    * that does not parse gets the "incorrect" message and no range message. */
  function FormErrors(p: Platform, d: FormData): (r: seq<FormError>)
    ensures r == [] <==> FormAcceptable(p, d)
    ensures |r| <= 8
  {
    var lat := p.parseFloat(Str(d.lat));
    var lng := p.parseFloat(Str(d.lng));
    (if d.title == "" then [MissingTitle] else [])
    + (if d.date == "" then [MissingDate] else [])
    + (if d.location == "" then [MissingLocation] else [])
    + (if d.lat == "" || lat.None? then [BadLatitude] else [])
    + (if d.lng == "" || lng.None? then [BadLongitude] else [])
    + (if d.description == "" then [MissingDescription] else [])
    + (if lat.Some? && (lat.value < 44.0 || lat.value > 52.0) then [LatitudeOutsideUkraine] else [])
    + (if lng.Some? && (lng.value < 22.0 || lng.value > 40.0) then [LongitudeOutsideUkraine] else [])
  }

  /** `validateFormData`: true exactly when no message was collected. */
  function ValidateFormData(p: Platform, d: FormData): (ok: bool)
    ensures ok <==> FormAcceptable(p, d)
  {
    FormErrors(p, d) == []
  }

  /** `parseFloat(text)` as an event field: NaN when it does not parse. */
  function NumberField(v: Option<real>): (r: Val)
    ensures v.Some? ==> r == Num(v.value)
    ensures v.None? ==> r == NaN
  {
    if v.Some? then Num(v.value) else NaN
  }

  /** `createEventFromForm`: the clock reading is the id, the full description falls back
    * to the short one, and photos keep the valid URLs. An accepted form gives an event
    * that survives `validateEvents`. */
  function CreateEventFromForm(p: Platform, d: FormData, clock: int): (e: Event)
    ensures e.id == Num(clock as real)
    ensures e.photos == ParsePhotos(p, d.photos)
    ensures e.fullDescription == if d.fullDescription != "" then Str(d.fullDescription) else Str(d.description)
    ensures FormAcceptable(p, d) && clock != 0 ==> IsComplete(e)
    ensures FormAcceptable(p, d) ==> e.lat == Num(p.parseFloat(Str(d.lat)).value) && e.lng == Num(p.parseFloat(Str(d.lng)).value)
    ensures p.parseFloat(Str(d.lat)).None? ==> e.lat == NaN
    ensures p.parseFloat(Str(d.lng)).None? ==> e.lng == NaN
  {
    Event(
      id := Num(clock as real),
      title := Str(d.title),
      date := Str(d.date),
      location := Str(d.location),
      lat := NumberField(p.parseFloat(Str(d.lat))),
      lng := NumberField(p.parseFloat(Str(d.lng))),
      description := Str(d.description),
      fullDescription := Or(Str(d.fullDescription), Str(d.description)),
      programLink := Str(d.programLink),
      photos := ParsePhotos(p, d.photos),
      createdAt := Str(p.isoString(clock)),
      status := Undefined,
      source := Undefined)
  }

  // ---------------------------------------------------------------------------
  // Deletion

  /** `events.filter(event => event.id !== eventId)`. */
  function RemoveId(events: seq<Event>, id: Val): (r: seq<Event>)
  {
    Filter((e: Event) => !StrictEquals(e.id, id), events)
  }

  /** Deletion keeps, in order, exactly the events whose id is not strictly equal to the
    * given one; a NaN id equals nothing, so it deletes nothing. */
  lemma {:induction false} RemoveIdSpec(events: seq<Event>, id: Val)
    ensures IsSubsequence(RemoveId(events, id), events)
    ensures forall k :: 0 <= k < |RemoveId(events, id)| ==> !StrictEquals(RemoveId(events, id)[k].id, id)
    ensures forall e :: e in events && !StrictEquals(e.id, id) ==> e in RemoveId(events, id)
    ensures forall e :: multiset(RemoveId(events, id))[e] == if !StrictEquals(e.id, id) then multiset(events)[e] else 0
    ensures id.NaN? ==> RemoveId(events, id) == events
  {
    var keep := (e: Event) => !StrictEquals(e.id, id);
    FilterKeepsExactly(keep, events);
    forall e | e in events && keep(e) ensures e in RemoveId(events, id) {
      assert multiset(events)[e] > 0;
    }
    if id.NaN? {
      FilterAllPass(keep, events);
    }
  }

  // ---------------------------------------------------------------------------
  // Statistics and the event lists

  /** `new Date(event.date) < now`: an unparsable date is neither past nor upcoming. */
  predicate IsPast(p: Platform, now: int, e: Event)
  {
    p.parseDate(e.date).Some? && p.parseDate(e.date).value < now
  }

  /** `new Date(event.date) >= now`. */
  predicate IsUpcoming(p: Platform, now: int, e: Event)
  {
    p.parseDate(e.date).Some? && p.parseDate(e.date).value >= now
  }

  /** `new Date(event.date) > now`: the upcoming-events list leaves out an event at `now`. */
  predicate IsLater(p: Platform, now: int, e: Event)
  {
    p.parseDate(e.date).Some? && p.parseDate(e.date).value > now
  }

  /** `new Date(event.date) >= now`, as a filter. */
  function UpcomingAt(p: Platform, now: int): Event -> bool
  {
    (e: Event) => IsUpcoming(p, now, e)
  }

  datatype Statistics = Statistics(total: nat, past: nat, future: nat, withPhotos: nat)

  /** `getStatistics`: past and upcoming never overlap, and cover the list exactly when
    * every date parses. */
  function GetStatistics(p: Platform, events: seq<Event>, now: int): (r: Statistics)
    ensures r.total == |events|
    ensures events == [] ==> r == Statistics(0, 0, 0, 0)
    ensures r.past + r.future <= r.total && r.withPhotos <= r.total
    ensures (forall k :: 0 <= k < |events| ==> p.parseDate(events[k].date).Some?) ==> r.past + r.future == r.total
  {
    CountPartition(PastAt(p, now), UpcomingAt(p, now), events);
    Statistics(|events|, Count(PastAt(p, now), events), Count(UpcomingAt(p, now), events), Count(HasPhotoList(), events))
  }

  /** One more event adds one to the total, and one to each counter whose test it
    * passes: past for a date before now, future for a date at or after now, and
    * with-photos for a non-empty photo list. */
  lemma GetStatisticsAppend(p: Platform, events: seq<Event>, e: Event, now: int)
    ensures var before, after := GetStatistics(p, events, now), GetStatistics(p, events + [e], now);
      && after.total == before.total + 1
      && after.past == before.past + (if IsPast(p, now, e) then 1 else 0)
      && after.future == before.future + (if IsUpcoming(p, now, e) then 1 else 0)
      && after.withPhotos == before.withPhotos + (if |e.photos| > 0 then 1 else 0)
  {
    CountAppend(PastAt(p, now), events, e);
    CountAppend(UpcomingAt(p, now), events, e);
    CountAppend(HasPhotoList(), events, e);
  }

  /** `x` goes before the first element whose key is not smaller, so ahead of any with
    * an equal key; inserting from the back keeps equal keys in their original order. */
  function InsertBy<T>(key: T -> int, x: T, s: seq<T>): (r: seq<T>)
    ensures |r| == |s| + 1
    ensures multiset(r) == multiset(s) + multiset{x}
  {
    if s == [] || key(x) <= key(s[0]) then [x] + s
    else
      assert s == [s[0]] + s[1..];
      [s[0]] + InsertBy(key, x, s[1..])
  }

  /** The list reordered by non-decreasing key. */
  function SortBy<T>(key: T -> int, s: seq<T>): (r: seq<T>)
    ensures |r| == |s|
    ensures multiset(r) == multiset(s)
  {
    if s == [] then []
    else
      assert s == [s[0]] + s[1..];
      InsertBy(key, s[0], SortBy(key, s[1..]))
  }

  predicate SortedBy<T>(key: T -> int, s: seq<T>)
  {
    forall i, j :: 0 <= i < j < |s| ==> key(s[i]) <= key(s[j])
  }

  lemma {:induction false} InsertBySorted<T>(key: T -> int, x: T, s: seq<T>)
    requires SortedBy(key, s)
    ensures SortedBy(key, InsertBy(key, x, s))
  {
    if s != [] && key(x) > key(s[0]) {
      InsertBySorted(key, x, s[1..]);
      var rest := InsertBy(key, x, s[1..]);
      assert forall k :: 0 <= k < |rest| ==> key(s[0]) <= key(rest[k]) by {
        forall k | 0 <= k < |rest| ensures key(s[0]) <= key(rest[k]) {
          assert rest[k] in multiset(rest);
          assert rest[k] == x || rest[k] in multiset(s[1..]);
          if rest[k] != x {
            var j :| 0 <= j < |s[1..]| && s[1..][j] == rest[k];
            assert s[j + 1] == rest[k];
          }
        }
      }
    }
  }

  lemma {:induction false} SortBySorted<T>(key: T -> int, s: seq<T>)
    ensures SortedBy(key, SortBy(key, s))
  {
    if s != [] {
      SortBySorted(key, s[1..]);
      InsertBySorted(key, s[0], SortBy(key, s[1..]));
    }
  }

  /** The time of an event's date, 0 when it does not parse (only parsable dates are ordered). */
  function DateKey(p: Platform, e: Event): int
  {
    if p.parseDate(e.date).Some? then p.parseDate(e.date).value else 0
  }

  const RecentLimit := 6

  /** The sidebar's recent events: past events, newest first, at most six. */
  function RecentEvents(p: Platform, events: seq<Event>, now: int): seq<Event>
  {
    var newestFirst := SortBy((e: Event) => -DateKey(p, e), Filter((e: Event) => IsPast(p, now, e), events));
    if |newestFirst| <= RecentLimit then newestFirst else newestFirst[..RecentLimit]
  }

  /** The recent list holds past events of the list, newest first; it is as long as it
    * can be up to six; and every past event newer than the oldest one shown is shown. */
  lemma {:induction false} RecentEventsSpec(p: Platform, events: seq<Event>, now: int)
    ensures var r := RecentEvents(p, events, now);
      && |r| == (if Count((e: Event) => IsPast(p, now, e), events) < RecentLimit
                 then Count((e: Event) => IsPast(p, now, e), events) else RecentLimit)
      && (forall k :: 0 <= k < |r| ==> r[k] in events && IsPast(p, now, r[k]))
      && (forall i, j :: 0 <= i < j < |r| ==> DateKey(p, r[i]) >= DateKey(p, r[j]))
      && (forall e :: e in events && IsPast(p, now, e) && r != [] && DateKey(p, e) > DateKey(p, r[|r| - 1]) ==> e in r)
  {
    var past := (e: Event) => IsPast(p, now, e);
    var key := (e: Event) => -DateKey(p, e);
    var pastEvents := Filter(past, events);
    var sorted := SortBy(key, pastEvents);
    SortBySorted(key, pastEvents);
    var r := RecentEvents(p, events, now);
    assert r == sorted[..|r|];
    forall k | 0 <= k < |r| ensures r[k] in events && IsPast(p, now, r[k]) {
      SortedFromFiltered(past, key, events, r[k]);
    }
    forall e | e in events && past(e) && r != [] && DateKey(p, e) > DateKey(p, r[|r| - 1]) ensures e in r {
      FilterHolds(past, events, e);
      assert e in multiset(pastEvents);
      PrefixOfSorted(key, sorted, |r|, e);
    }
  }

  /** An element of a sorted filtered list is an element of the list that passes the filter. */
  lemma SortedFromFiltered<T>(f: T -> bool, key: T -> int, s: seq<T>, x: T)
    requires x in SortBy(key, Filter(f, s))
    ensures x in s && f(x)
  {
    assert x in multiset(SortBy(key, Filter(f, s)));
    FilterElementsFrom(f, s);
    var j :| 0 <= j < |Filter(f, s)| && Filter(f, s)[j] == x;
  }

  /** An element of the list that passes the filter is kept by it. */
  lemma FilterHolds<T>(f: T -> bool, s: seq<T>, x: T)
    requires x in s && f(x)
    ensures x in Filter(f, s)
  {
    FilterKeepsExactly(f, s);
    assert multiset(s)[x] > 0;
    assert x in multiset(Filter(f, s));
  }

  /** The first `n` of a list sorted by key hold every element whose key is below the `n`-th one's. */
  lemma PrefixOfSorted<T>(key: T -> int, s: seq<T>, n: nat, x: T)
    requires SortedBy(key, s) && 0 < n <= |s|
    requires x in s && key(x) < key(s[n - 1])
    ensures x in s[..n]
  {
    var j :| 0 <= j < |s| && s[j] == x;
    assert j < n;
    assert s[..n][j] == x;
  }

  /** `updateFutureEventsList`'s selection: events after now, soonest first. */
  function FutureEvents(p: Platform, events: seq<Event>, now: int): seq<Event>
  {
    SortBy((e: Event) => DateKey(p, e), Filter((e: Event) => IsLater(p, now, e), events))
  }

  /** The upcoming list is the events dated after now, each as often as in the list,
    * soonest first. */
  lemma {:induction false} FutureEventsSpec(p: Platform, events: seq<Event>, now: int)
    ensures var r := FutureEvents(p, events, now);
      && multiset(r) == multiset(Filter((e: Event) => IsLater(p, now, e), events))
      && (forall k :: 0 <= k < |r| ==> IsLater(p, now, r[k]))
      && (forall i, j :: 0 <= i < j < |r| ==> DateKey(p, r[i]) <= DateKey(p, r[j]))
  {
    var later := (e: Event) => IsLater(p, now, e);
    var key := (e: Event) => DateKey(p, e);
    var selected := Filter(later, events);
    SortBySorted(key, selected);
    var r := FutureEvents(p, events, now);
    forall k | 0 <= k < |r| ensures later(r[k]) {
      assert r[k] in multiset(selected);
      var j :| 0 <= j < |selected| && selected[j] == r[k];
    }
  }

  /** How `formatDateShort` renders a date in the sidebar. */
  datatype ShortDate =
    | Today
    | Yesterday
    | DaysAgo(days: int)
    | WeeksAgo(weeks: int)
    | CalendarDay(date: Option<int>)  // toLocaleDateString; "Invalid Date" for None

  /** `formatDateShort`: whole days elapsed, floored. A date in the future gives a
    * negative day count, which the code renders as "days ago". */
  function FormatDateShort(p: Platform, dateText: Val, now: int): (r: ShortDate)
    ensures r == Today <==> p.parseDate(dateText).Some? && 0 <= now - p.parseDate(dateText).value < Day
    ensures r == Yesterday <==> p.parseDate(dateText).Some? && Day <= now - p.parseDate(dateText).value < 2 * Day
    ensures r.DaysAgo? ==> (p.parseDate(dateText).Some? && (r.days < 0 || 2 <= r.days < 7)
      && r.days * Day <= now - p.parseDate(dateText).value < (r.days + 1) * Day)
    ensures r.WeeksAgo? ==> (p.parseDate(dateText).Some? && 1 <= r.weeks <= 4
      && 7 * r.weeks * Day <= now - p.parseDate(dateText).value < 30 * Day
      && now - p.parseDate(dateText).value < 7 * (r.weeks + 1) * Day)
    ensures r.CalendarDay? ==> (r.date == p.parseDate(dateText)
      && (r.date.None? || now - r.date.value >= 30 * Day))
  {
    match p.parseDate(dateText)
    case None => CalendarDay(None)
    case Some(t) =>
      var days := (now - t) / Day;
      if days == 0 then Today
      else if days == 1 then Yesterday
      else if days < 7 then DaysAgo(days)
      else if days < 30 then WeeksAgo(days / 7)
      else CalendarDay(Some(t))
  }

  // ---------------------------------------------------------------------------
  // Sections

  datatype View = MapMarkers | Sidebar | AdminEventsList | FutureEventsList

  /** `refreshUI`: the map when it is ready, always the sidebar, and the list of the
    * section on screen when that is the admin panel or the upcoming events. */
  function RefreshedViews(section: string, mapReady: bool): (r: seq<View>)
    ensures Sidebar in r
    ensures MapMarkers in r <==> mapReady
    ensures AdminEventsList in r <==> section == "admin"
    ensures FutureEventsList in r <==> section == "future"
  {
    (if mapReady then [MapMarkers] else []) + [Sidebar]
    + (if section == "admin" then [AdminEventsList] else if section == "future" then [FutureEventsList] else [])
  }

  // ---------------------------------------------------------------------------
  // The application object

  class App {
    var events: seq<Event>
    var currentSection: string
    var isInitialized: bool
    const storage: Storage
    /** `window.sheetsDB`, which may be absent. */
    const sheets: GoogleSheetsDB?

    constructor (storage: Storage, sheets: GoogleSheetsDB?)
      ensures events == [] && currentSection == "map" && !isInitialized
      ensures this.storage == storage && this.sheets == sheets
    {
      events := [];
      currentSection := "map";
      isInitialized := false;
      this.storage := storage;
      this.sheets := sheets;
    }

    /** Whether `loadEvents` takes the stored list (a non-empty `taizeEvents`). */
    predicate HasStoredEvents()
      reads this, storage
    {
      EventsKey in storage.items && storage.items[EventsKey] != ""
    }

    /** What `loadFromSheetsFirst` gets: the importer's result, or nothing without one. */
    function SheetsResult(p: Platform, now: int, clock: int, response: Option<string>): seq<Event>
      reads this, sheets
    {
      if sheets == null then [] else sheets.LoadResult(p, now, clock, response)
    }

    /** `saveEvents`. */
    method SaveEvents(p: Platform, clock: int)
      modifies storage
      ensures storage.items == SavedItems(p, old(storage.items), events, clock)
    {
      storage.SetItem(EventsKey, p.encodeEvents(events));
      storage.SetItem(MetadataKey, p.encodeMetadata(events, Version, p.isoString(clock)));
    }

    /** `validateEvents`: keeps the complete events; the list is reassigned only when
      * something was dropped, which leaves the same value either way. */
    method ValidateEvents()
      modifies this`events
      ensures events == ValidEvents(old(events))
    {
      var validEvents := ValidEvents(events);
      if |validEvents| != |events| {
        events := validEvents;
      } else {
        FilterSameLength(IsComplete, events);
      }
    }

    /** `loadEvents`. `now` and `clock` are the clock before and after the spreadsheet
      * request, `response` its text. On a first visit the list is saved before it is
      * validated, so incomplete imported rows stay in storage. */
    method LoadEvents(p: Platform, now: int, clock: int, response: Option<string>)
      modifies this`events, storage, sheets
      ensures old(HasStoredEvents()) ==>
        && events == StoredLoad(p, old(storage.items[EventsKey]), clock)
        && storage.items == old(storage.items)
        && (sheets != null ==> sheets.cache == old(sheets.cache) && sheets.lastSync == old(sheets.lastSync))
      ensures !old(HasStoredEvents()) ==>
        var loaded := ColdStartEvents(old(events), old(SheetsResult(p, now, clock, response)), clock);
        && events == ValidEvents(loaded)
        && storage.items == SavedItems(p, old(storage.items), loaded, clock)
        && (sheets != null ==>
              var fetched := old(sheets.isEnabled) && !IsFresh(old(sheets.cache), now);
              && sheets.cache == (if fetched then CacheAfterFetch(old(sheets.cache), old(SheetsResult(p, now, clock, response)), clock)
                                  else old(sheets.cache))
              && sheets.lastSync == (if fetched && PayloadRows(p, response).Some? then Some(clock) else old(sheets.lastSync)))
      ensures sheets != null ==> sheets.isEnabled == old(sheets.isEnabled)
      ensures clock > 0 ==> forall k :: 0 <= k < |events| ==> IsComplete(events[k])
    {
      if EventsKey in storage.items && storage.items[EventsKey] != "" {
        LoadStoredEvents(p, clock);
      } else {
        LoadOnFirstVisit(p, now, clock, response);
      }
    }

    /** The branch of `loadEvents` that parses `taizeEvents`; a parse failure lands in
      * its `catch`, which installs the sample events without validating them. */
    method LoadStoredEvents(p: Platform, clock: int)
      requires HasStoredEvents()
      modifies this`events
      ensures events == StoredLoad(p, storage.items[EventsKey], clock)
      ensures clock > 0 ==> forall k :: 0 <= k < |events| ==> IsComplete(events[k])
    {
      var decoded := p.decodeEvents(storage.items[EventsKey]);
      match decoded {
        case Some(saved) =>
          events := saved;
          ValidateEvents();
        case None =>
          events := DefaultEvents(clock);
      }
    }

    /** `loadFromSheetsFirst`: the importer's events replace the list when there are any. */
    method LoadFromSheetsFirst(p: Platform, now: int, clock: int, response: Option<string>)
      modifies this`events, sheets
      ensures events == if |old(SheetsResult(p, now, clock, response))| > 0 then old(SheetsResult(p, now, clock, response)) else old(events)
      ensures sheets != null ==>
        var fetched := old(sheets.isEnabled) && !IsFresh(old(sheets.cache), now);
        && sheets.cache == (if fetched then CacheAfterFetch(old(sheets.cache), old(SheetsResult(p, now, clock, response)), clock)
                            else old(sheets.cache))
        && sheets.lastSync == (if fetched && PayloadRows(p, response).Some? then Some(clock) else old(sheets.lastSync))
      ensures sheets != null ==> sheets.isEnabled == old(sheets.isEnabled)
    {
      if sheets != null {
        var sheetsEvents, _ := sheets.LoadEvents(p, now, clock, response);
        if |sheetsEvents| > 0 {
          events := sheetsEvents;
        }
      }
    }

    /** The branch of `loadEvents` for an empty `taizeEvents`: `loadFromSheetsFirst`, the
      * sample events when the list is still empty, `saveEvents`, then `validateEvents`. */
    method LoadOnFirstVisit(p: Platform, now: int, clock: int, response: Option<string>)
      modifies this`events, storage, sheets
      ensures var loaded := ColdStartEvents(old(events), old(SheetsResult(p, now, clock, response)), clock);
        && events == ValidEvents(loaded)
        && storage.items == SavedItems(p, old(storage.items), loaded, clock)
        && (sheets != null ==>
              var fetched := old(sheets.isEnabled) && !IsFresh(old(sheets.cache), now);
              && sheets.cache == (if fetched then CacheAfterFetch(old(sheets.cache), old(SheetsResult(p, now, clock, response)), clock)
                                  else old(sheets.cache))
              && sheets.lastSync == (if fetched && PayloadRows(p, response).Some? then Some(clock) else old(sheets.lastSync)))
      ensures sheets != null ==> sheets.isEnabled == old(sheets.isEnabled)
      ensures forall k :: 0 <= k < |events| ==> IsComplete(events[k])
    {
      ghost var held, fromSheets := events, SheetsResult(p, now, clock, response);
      LoadFromSheetsFirst(p, now, clock, response);
      assert ColdStartEvents(held, fromSheets, clock) == if |events| == 0 then DefaultEvents(clock) else events;
      SaveFirstList(p, clock);
    }

    /** The rest of that branch: the sample events when the list is still empty, then
      * `saveEvents` and `validateEvents`. */
    method SaveFirstList(p: Platform, clock: int)
      modifies this`events, storage
      ensures var loaded := if |old(events)| == 0 then DefaultEvents(clock) else old(events);
        && events == ValidEvents(loaded)
        && storage.items == SavedItems(p, old(storage.items), loaded, clock)
      ensures forall k :: 0 <= k < |events| ==> IsComplete(events[k])
    {
      if |events| == 0 {
        events := DefaultEvents(clock);
      }
      SaveEvents(p, clock);
      ValidateEvents();
      ValidEventsSpec(events);
    }

    /** `handleEventSubmit`, given what `getFormData` read (see ReadForm): a form that
      * passes validation is appended and saved. */
    method HandleEventSubmit(p: Platform, formData: FormData, clock: int) returns (added: bool)
      modifies this`events, storage
      ensures added <==> FormAcceptable(p, formData)
      ensures added ==> (events == old(events) + [CreateEventFromForm(p, formData, clock)]
        && storage.items == SavedItems(p, old(storage.items), events, clock))
      ensures !added ==> events == old(events) && storage.items == old(storage.items)
    {
      if !ValidateFormData(p, formData) {
        return false;
      }
      var newEvent := CreateEventFromForm(p, formData, clock);
      events := events + [newEvent];
      SaveEvents(p, clock);
      added := true;
    }

    /** `deleteEvent`: after confirmation, removes the events with that id and saves. */
    method DeleteEvent(p: Platform, id: Val, confirmed: bool, clock: int)
      modifies this`events, storage
      ensures !confirmed ==> events == old(events) && storage.items == old(storage.items)
      ensures confirmed ==> (events == RemoveId(old(events), id)
        && storage.items == SavedItems(p, old(storage.items), events, clock))
    {
      if !confirmed {
        return;
      }
      events := RemoveId(events, id);
      SaveEvents(p, clock);
    }

    /** `showSection`: the name is kept even when it is not one of the four sections. */
    method ShowSection(section: string)
      modifies this`currentSection
      ensures currentSection == section
    {
      currentSection := section;
    }

    /** `init`: two loads in a row, then the map section. After the first load the
      * list is in storage, so the second one reads it back. */
    method Init(p: Platform, now1: int, clock1: int, now2: int, clock2: int, response1: Option<string>, response2: Option<string>)
      modifies this, storage, sheets
      ensures isInitialized && currentSection == "map"
      ensures EventsKey in storage.items
      ensures old(HasStoredEvents()) ==>
        && events == StoredLoad(p, old(storage.items[EventsKey]), clock2)
        && storage.items == old(storage.items)
        && (sheets != null ==> sheets.cache == old(sheets.cache) && sheets.lastSync == old(sheets.lastSync))
      ensures !old(HasStoredEvents()) ==>
        var loaded := ColdStartEvents(old(events), old(SheetsResult(p, now1, clock1, response1)), clock1);
        p.encodeEvents(loaded) != "" ==>
          && events == StoredLoad(p, p.encodeEvents(loaded), clock2)
          && storage.items == SavedItems(p, old(storage.items), loaded, clock1)
          && (sheets != null ==>
                var fetched := old(sheets.isEnabled) && !IsFresh(old(sheets.cache), now1);
                && sheets.cache == (if fetched then CacheAfterFetch(old(sheets.cache), old(SheetsResult(p, now1, clock1, response1)), clock1)
                                    else old(sheets.cache))
                && sheets.lastSync == (if fetched && PayloadRows(p, response1).Some? then Some(clock1) else old(sheets.lastSync)))
      ensures sheets != null ==> sheets.isEnabled == old(sheets.isEnabled)
      ensures clock2 > 0 ==> forall k :: 0 <= k < |events| ==> IsComplete(events[k])
    {
      LoadEvents(p, now1, clock1, response1);
      LoadEvents(p, now2, clock2, response2);
      ShowSection("map");
      isInitialized := true;
    }
  }
}
