/**
 * The spreadsheet importer (js/sheets.js): the endpoint payload is unwrapped by
 * fixed offsets, each row's fixed columns become an event, and the result is
 * kept in a single-entry cache for five minutes.
 */
module Sheets {
  import opened JsValues
  import opened Text
  import opened EventModel
  import opened BrowserStorage

  /** The endpoint wraps its JSON in a fixed 47-character prefix and a 2-character suffix. */
  const PayloadPrefixLength := 47
  const PayloadSuffixLength := 2

  /** Five minutes, in milliseconds. */
  const CacheDuration := 5 * 60 * 1000
  const CacheKey := "events"

  const SheetsSource := "sheets"
  const FinishedStatus := "Завершено"
  const PlannedStatus := "Заплановано"

  datatype CacheEntry = CacheEntry(data: seq<Event>, timestamp: int)

  /** `text.substring(47).slice(0, -2)`: both calls clamp, so short texts give "". */
  function StripPayload(text: string): (r: string)
    ensures |r| == if |text| < PayloadPrefixLength + PayloadSuffixLength then 0
                   else |text| - PayloadPrefixLength - PayloadSuffixLength
  {
    var afterPrefix := if |text| <= PayloadPrefixLength then "" else text[PayloadPrefixLength..];
    if |afterPrefix| <= PayloadSuffixLength then "" else afterPrefix[..|afterPrefix| - PayloadSuffixLength]
  }

  /** Whatever 47-character prefix and 2-character suffix wrap the JSON text, unwrapping returns it exactly. */
  lemma StripPayloadUnwraps(prefix: string, json: string, suffix: string)
    requires |prefix| == PayloadPrefixLength && |suffix| == PayloadSuffixLength
    ensures StripPayload(prefix + json + suffix) == json
  {
    var text := prefix + json + suffix;
    assert text[PayloadPrefixLength..] == json + suffix;
    assert (json + suffix)[..|json|] == json;
  }

  // ---------------------------------------------------------------------------
  // parseRowToEvent

  /** `getValue(index, default)`: the cell's value unless the cell or its value is null. */
  function CellValue(cells: seq<Option<Val>>, index: nat, default: Val): (r: Val)
    ensures r == default || (index < |cells| && cells[index] == Some(r) && r != Null)
    ensures index < |cells| && cells[index].Some? && cells[index].value != Null ==> r == cells[index].value
  {
    if index < |cells| && cells[index].Some? && cells[index].value != Null then cells[index].value else default
  }

  function Cell(cells: seq<Option<Val>>, index: nat): Val
  {
    CellValue(cells, index, Str(""))
  }

  /** The `date` field: a parsable string becomes its minute-precision ISO form, an
    * unparsable one is kept, and a truthy non-string value (a number) gives "". */
  function ImportedDate(p: Platform, v: Val): Val
  {
    if !Truthy(v) || !v.Str? then Str("")
    else match p.parseDate(v)
      case Some(t) => Str(IsoMinutes(p, t))
      case None => v
  }

  /** `parseFloat(v) || 0`. */
  function CoordinateOrZero(p: Platform, v: Val): (r: Val)
    ensures r.Num?
    ensures r == Num(0.0) <==> p.parseFloat(v).None? || p.parseFloat(v) == Some(0.0)
    ensures r != Num(0.0) ==> p.parseFloat(v) == Some(r.x)
  {
    match p.parseFloat(v)
    case Some(x) => if x != 0.0 then Num(x) else Num(0.0)
    case None => Num(0.0)
  }

  /** `getValue(0) ? parseInt(getValue(0)) : Date.now() + rowNumber`. */
  function ImportedId(p: Platform, idCell: Val, rowNumber: int, clock: int): (r: Val)
    ensures !Truthy(idCell) ==> r == Num((clock + rowNumber) as real)
    ensures Truthy(idCell) && p.parseInt(idCell).None? ==> r == NaN
    ensures Truthy(idCell) && p.parseInt(idCell).Some? ==> r == Num(p.parseInt(idCell).value as real)
  {
    if Truthy(idCell) then (match p.parseInt(idCell) case Some(n) => Num(n as real) case None => NaN)
    else Num((clock + rowNumber) as real)
  }

  /** An id cell that `parseInt` rejects gives the id `NaN`, which is falsy, so the
    * app's validation later drops that event. */
  lemma UnparsableIdIsDroppedLater(p: Platform, cells: seq<Option<Val>>, rowNumber: int, clock: int)
    requires ParseRow(p, cells, rowNumber, clock).Some?
    requires Truthy(Cell(cells, 0)) && p.parseInt(Cell(cells, 0)).None?
    ensures ParseRow(p, cells, rowNumber, clock).value.id == NaN
    ensures ValidEvents([ParseRow(p, cells, rowNumber, clock).value]) == []
  {
  }

  /** A row is parsed unless it has no title, or its photo cell holds a truthy
    * non-string (on which `split` throws). */
  predicate RowParses(cells: seq<Option<Val>>)
  {
    Truthy(Cell(cells, 1)) && (!Truthy(Cell(cells, 9)) || Cell(cells, 9).Str?)
  }

  /** The event a titled row describes, column by column. */
  function RowEvent(p: Platform, cells: seq<Option<Val>>, rowNumber: int, clock: int): Event
  {
    var photoCell := Cell(cells, 9);
    Event(
      id := ImportedId(p, Cell(cells, 0), rowNumber, clock),
      title := Cell(cells, 1),
      date := ImportedDate(p, Cell(cells, 2)),
      location := Cell(cells, 3),
      lat := CoordinateOrZero(p, Cell(cells, 4)),
      lng := CoordinateOrZero(p, Cell(cells, 5)),
      description := Cell(cells, 6),
      fullDescription := Or(Cell(cells, 7), Cell(cells, 6)),
      programLink := Cell(cells, 8),
      photos := if Truthy(photoCell) && photoCell.Str? then PhotoList(photoCell.s) else [],
      createdAt := Or(Cell(cells, 10), Str(p.isoString(clock))),
      status := Or(Cell(cells, 11), Str(FinishedStatus)),
      source := Str(SheetsSource))
  }

  /** `parseRowToEvent(row, rowNumber)`; None is its `null`, including the TypeError
    * that `split` throws when the photo cell holds a number. */
  function ParseRow(p: Platform, cells: seq<Option<Val>>, rowNumber: int, clock: int): (r: Option<Event>)
    ensures r.Some? <==> RowParses(cells)
    ensures r.Some? ==> r.value == RowEvent(p, cells, rowNumber, clock) && Truthy(r.value.title)
  {
    var title := Cell(cells, 1);
    var photoCell := Cell(cells, 9);
    if !Truthy(title) then None
    else if Truthy(photoCell) && !photoCell.Str? then None
    else Some(RowEvent(p, cells, rowNumber, clock))
  }

  /** The column rules of the importer: fallbacks for the description, status and
    * creation time, coordinates that are 0 when they do not parse, and the source tag. */
  lemma RowEventFieldRules(p: Platform, cells: seq<Option<Val>>, rowNumber: int, clock: int)
    ensures var e := RowEvent(p, cells, rowNumber, clock);
      && e.title == Cell(cells, 1)
      && (e.lat == Num(0.0) <==> p.parseFloat(Cell(cells, 4)).None? || p.parseFloat(Cell(cells, 4)) == Some(0.0))
      && (e.lng == Num(0.0) <==> p.parseFloat(Cell(cells, 5)).None? || p.parseFloat(Cell(cells, 5)) == Some(0.0))
      && (Truthy(Cell(cells, 7)) ==> e.fullDescription == Cell(cells, 7))
      && (!Truthy(Cell(cells, 7)) ==> e.fullDescription == Cell(cells, 6))
      && (Truthy(Cell(cells, 11)) ==> e.status == Cell(cells, 11))
      && (!Truthy(Cell(cells, 11)) ==> e.status == Str(FinishedStatus))
      && (!Truthy(Cell(cells, 10)) ==> e.createdAt == Str(p.isoString(clock)))
      && e.source == Str(SheetsSource)
  {
  }

  /** The photo column: empty when blank, otherwise non-empty, trimmed, comma-free pieces. */
  lemma RowEventPhotos(p: Platform, cells: seq<Option<Val>>, rowNumber: int, clock: int)
    ensures !Truthy(Cell(cells, 9)) ==> RowEvent(p, cells, rowNumber, clock).photos == []
    ensures forall k :: 0 <= k < |RowEvent(p, cells, rowNumber, clock).photos| ==>
      var url := RowEvent(p, cells, rowNumber, clock).photos[k];
      url != "" && Trim(url) == url && ',' !in url
  {
    var photoCell := Cell(cells, 9);
    if Truthy(photoCell) && photoCell.Str? {
      PhotoListSpec(photoCell.s);
    }
  }

  /** A row whose latitude cell does not parse is imported with latitude 0, which the
    * application's validation then treats as missing. */
  lemma UnparsableLatitudeIsDroppedLater(p: Platform, cells: seq<Option<Val>>, rowNumber: int, clock: int)
    requires ParseRow(p, cells, rowNumber, clock).Some?
    requires p.parseFloat(Cell(cells, 4)).None?
    ensures ParseRow(p, cells, rowNumber, clock).value.lat == Num(0.0)
    ensures ValidEvents([ParseRow(p, cells, rowNumber, clock).value]) == []
  {
  }

  // ---------------------------------------------------------------------------
  // fetchEventsFromSheets

  /** What row `i` (0-based) contributes: nothing for a row without cells or without a title. */
  function RowEventAt(p: Platform, row: Row, i: nat, clock: int): (r: seq<Event>)
    ensures |r| <= 1
  {
    if row.c.None? then []
    else match ParseRow(p, row.c.value, i + 2, clock)
      case Some(e) => if Truthy(e.title) then [e] else []
      case None => []
  }

  predicate Kept(row: Row)
  {
    row.c.Some? && RowParses(row.c.value)
  }

  lemma RowEventAtKept(p: Platform, row: Row, i: nat, clock: int)
    ensures RowEventAt(p, row, i, clock) != [] <==> Kept(row)
    ensures Kept(row) ==> RowEventAt(p, row, i, clock) == [RowEvent(p, row.c.value, i + 2, clock)]
  {
  }

  /** The events of the first `n` rows, in row order. */
  function RowEvents(p: Platform, rows: seq<Row>, clock: int, n: nat): (r: seq<Event>)
    requires n <= |rows|
    ensures |r| <= n
  {
    if n == 0 then [] else RowEvents(p, rows, clock, n - 1) + RowEventAt(p, rows[n - 1], n - 1, clock)
  }

  /** The rows of the parsed payload, when the payload got that far. */
  function PayloadRows(p: Platform, response: Option<string>): Option<seq<Row>>
  {
    if response.None? then None
    else match p.decodePayload(StripPayload(response.value))
      case None => None
      case Some(data) =>
        if data.table.None? || data.table.value.rows.None? then None else data.table.value.rows
  }

  /** The result of `fetchEventsFromSheets`: a failed request (None), an unparsable
    * payload, or a payload without `table.rows` all give the empty list. */
  function ImportedEvents(p: Platform, response: Option<string>, clock: int): seq<Event>
  {
    match PayloadRows(p, response)
    case None => []
    case Some(rows) => RowEvents(p, rows, clock, |rows|)
  }

  /** The indices of the kept rows among the first `n`. */
  function RowOrigins(rows: seq<Row>, n: nat): (r: seq<nat>)
    requires n <= |rows|
  {
    if n == 0 then [] else RowOrigins(rows, n - 1) + (if Kept(rows[n - 1]) then [n - 1] else [])
  }

  /** The origins are increasing indices below `n`, and an index is among them exactly
    * when its row is kept. */
  lemma {:induction false} RowOriginsAreKeptRows(rows: seq<Row>, n: nat)
    requires n <= |rows|
    ensures forall k :: 0 <= k < |RowOrigins(rows, n)| ==> RowOrigins(rows, n)[k] < n
    ensures forall k, m :: 0 <= k < m < |RowOrigins(rows, n)| ==> RowOrigins(rows, n)[k] < RowOrigins(rows, n)[m]
    ensures forall i :: 0 <= i < n ==> (i in RowOrigins(rows, n) <==> Kept(rows[i]))
  {
    if n > 0 {
      RowOriginsAreKeptRows(rows, n - 1);
    }
  }

  /** `e` is the event of row `i`, numbered by its index + 2. */
  predicate FromRow(p: Platform, rows: seq<Row>, clock: int, i: nat, e: Event)
  {
    i < |rows| && rows[i].c.Some? && e == RowEvent(p, rows[i].c.value, i + 2, clock)
  }

  /** Event `k` is the event of the `k`-th kept row. */
  lemma {:induction false} RowEventsFromOrigins(p: Platform, rows: seq<Row>, clock: int, n: nat)
    requires n <= |rows|
    ensures |RowOrigins(rows, n)| == |RowEvents(p, rows, clock, n)|
    ensures forall k :: 0 <= k < |RowOrigins(rows, n)| ==>
      FromRow(p, rows, clock, RowOrigins(rows, n)[k], RowEvents(p, rows, clock, n)[k])
  {
    if n > 0 {
      RowEventsFromOrigins(p, rows, clock, n - 1);
      RowEventAtKept(p, rows[n - 1], n - 1, clock);
      var prevEvents := RowEvents(p, rows, clock, n - 1);
      var prevOrigins := RowOrigins(rows, n - 1);
      if Kept(rows[n - 1]) {
        var e := RowEvent(p, rows[n - 1].c.value, n + 1, clock);
        assert RowEvents(p, rows, clock, n) == prevEvents + [e];
        assert RowOrigins(rows, n) == prevOrigins + [n - 1];
        AppendFromRow(p, rows, clock, prevOrigins, prevEvents, n - 1, e);
      } else {
        assert RowEvents(p, rows, clock, n) == prevEvents;
        assert RowOrigins(rows, n) == prevOrigins;
      }
    }
  }

  lemma AppendFromRow(p: Platform, rows: seq<Row>, clock: int, origins: seq<nat>, events: seq<Event>, i: nat, e: Event)
    requires |origins| == |events|
    requires forall k :: 0 <= k < |origins| ==> FromRow(p, rows, clock, origins[k], events[k])
    requires FromRow(p, rows, clock, i, e)
    ensures forall k :: 0 <= k < |origins| + 1 ==> FromRow(p, rows, clock, (origins + [i])[k], (events + [e])[k])
  {
    forall k | 0 <= k < |origins| + 1 ensures FromRow(p, rows, clock, (origins + [i])[k], (events + [e])[k]) {
      if k < |origins| {
        assert (origins + [i])[k] == origins[k] && (events + [e])[k] == events[k];
      }
    }
  }

  /** Every imported event has a title and is tagged as coming from the spreadsheet. */
  lemma ImportedEventsHaveTitles(p: Platform, response: Option<string>, clock: int)
    ensures forall k :: 0 <= k < |ImportedEvents(p, response, clock)| ==>
      Truthy(ImportedEvents(p, response, clock)[k].title)
      && ImportedEvents(p, response, clock)[k].source == Str(SheetsSource)
    ensures PayloadRows(p, response).None? ==> ImportedEvents(p, response, clock) == []
  {
    match PayloadRows(p, response)
    case None =>
    case Some(rows) =>
      RowEventsFromOrigins(p, rows, clock, |rows|);
      RowOriginsAreKeptRows(rows, |rows|);
      var ev := RowEvents(p, rows, clock, |rows|);
      var origin := RowOrigins(rows, |rows|);
      forall k | 0 <= k < |ev| ensures Truthy(ev[k].title) && ev[k].source == Str(SheetsSource) {
        assert origin[k] in origin;
      }
  }

  /** The photos column written by `formatEventForSheet` (`photos.join(', ')`) reads back
    * as the same list, provided each URL is non-empty, trimmed and free of commas. */
  lemma {:induction false} PhotoListReadsJoinedPhotos(photos: seq<string>)
    requires forall k :: 0 <= k < |photos| ==> photos[k] != "" && Trim(photos[k]) == photos[k] && ',' !in photos[k]
    ensures PhotoList(Join(photos, ", ")) == photos
  {
    if photos != [] {
      SplitJoinedPhotos(photos);
      TrimSpacedPieces(photos);
      JoinStartsWithFirst(photos, ", ");
      FilterAllPass(NonEmpty, photos);
    }
  }

  lemma SplitJoinedPhotos(photos: seq<string>)
    requires photos != []
    requires forall k :: 0 <= k < |photos| ==> ',' !in photos[k]
    ensures Split(Join(photos, ", "), ',') == Spaced(photos)
  {
    var spaced := Spaced(photos);
    JoinSpaced(photos);
    forall k | 0 <= k < |spaced| ensures ',' !in spaced[k] {
      if k > 0 { assert spaced[k] == " " + photos[k]; }
    }
    SplitJoin(spaced, ',');
  }

  lemma TrimSpacedPieces(photos: seq<string>)
    requires photos != []
    requires forall k :: 0 <= k < |photos| ==> photos[k] != "" && Trim(photos[k]) == photos[k]
    ensures MapTrim(Spaced(photos)) == photos
  {
    var spaced := Spaced(photos);
    forall k | 0 <= k < |spaced| ensures Trim(spaced[k]) == photos[k] {
      if k > 0 { TrimSpaced(photos[k]); }
    }
  }

  function Spaced(xs: seq<string>): (r: seq<string>)
    requires xs != []
    ensures |r| == |xs| && r[0] == xs[0] && forall k :: 1 <= k < |xs| ==> r[k] == " " + xs[k]
  {
    [xs[0]] + SpacedTail(xs[1..])
  }

  function SpacedTail(xs: seq<string>): (r: seq<string>)
    ensures |r| == |xs| && forall k :: 0 <= k < |xs| ==> r[k] == " " + xs[k]
  {
    if xs == [] then [] else [" " + xs[0]] + SpacedTail(xs[1..])
  }

  lemma {:induction false} JoinSpaced(xs: seq<string>)
    requires xs != []
    ensures Join(xs, ", ") == Join(Spaced(xs), ",")
    decreases |xs|
  {
    if |xs| > 1 {
      JoinSpaced(xs[1..]);
      var s := Spaced(xs);
      var t := Spaced(xs[1..]);
      assert s[1..] == [" " + t[0]] + t[1..];
      assert Join(s, ",") == xs[0] + "," + Join(s[1..], ",");
      JoinPrependSpace(t);
    }
  }

  lemma {:induction false} JoinPrependSpace(t: seq<string>)
    requires t != []
    ensures Join([" " + t[0]] + t[1..], ",") == " " + Join(t, ",")
  {
    var u := [" " + t[0]] + t[1..];
    assert u[1..] == t[1..];
  }

  lemma {:induction false} JoinStartsWithFirst(xs: seq<string>, sep: string)
    requires xs != []
    ensures xs[0] <= Join(xs, sep)
  {
  }

  lemma TrimSpaced(x: string)
    requires x != "" && Trim(x) == x
    ensures Trim(" " + x) == x
  {
    var s := " " + x;
    assert s[1..] == x;
    assert TrimStart(s) == TrimStart(x);
    assert TrimStart(x) == x;
    assert TrimEnd(x) == x;
  }

  // ---------------------------------------------------------------------------
  // formatEventForSheet

  /** An array element's text in `join`: null and undefined become "". */
  function JoinText(p: Platform, v: Val): string
  {
    match v
    case Undefined => ""
    case Null => ""
    case NaN => "NaN"
    case Str(s) => s
    case Num(x) => p.numberText(x)
  }

  /** The twelve columns of a spreadsheet row for an event, in the importer's column order. */
  function SheetColumns(p: Platform, e: Event, clock: int): (r: seq<string>)
    ensures |r| == 12
  {
    [JoinText(p, e.id), JoinText(p, e.title), JoinText(p, e.date), JoinText(p, e.location),
     JoinText(p, e.lat), JoinText(p, e.lng), JoinText(p, e.description), JoinText(p, e.fullDescription),
     JoinText(p, e.programLink), Join(e.photos, ", "), IsoMinutes(p, clock), PlannedStatus]
  }

  /** `formatEventForSheet(event)`: the columns joined by tabs. */
  function FormatEventForSheet(p: Platform, e: Event, clock: int): string
  {
    Join(SheetColumns(p, e, clock), "\t")
  }

  /** Splitting the line on tabs recovers every column when no field contains a tab. */
  lemma FormatEventForSheetColumns(p: Platform, e: Event, clock: int)
    requires forall k :: 0 <= k < 12 ==> '\t' !in SheetColumns(p, e, clock)[k]
    ensures Split(FormatEventForSheet(p, e, clock), '\t') == SheetColumns(p, e, clock)
    ensures |Split(FormatEventForSheet(p, e, clock), '\t')| == 12
    ensures Split(FormatEventForSheet(p, e, clock), '\t')[11] == PlannedStatus
  {
    SplitJoin(SheetColumns(p, e, clock), '\t');
  }

  // ---------------------------------------------------------------------------
  // Cache

  /** A cache entry younger than the duration is served. */
  predicate IsFresh(cache: map<string, CacheEntry>, now: int)
  {
    CacheKey in cache && now - cache[CacheKey].timestamp < CacheDuration
  }

  /** The cache after a fetch: written only when the fetch returned something. */
  function CacheAfterFetch(cache: map<string, CacheEntry>, events: seq<Event>, clock: int): (r: map<string, CacheEntry>)
    ensures |events| == 0 ==> r == cache
    ensures |events| > 0 ==> r.Keys == cache.Keys + {CacheKey} && r[CacheKey] == CacheEntry(events, clock)
  {
    if |events| > 0 then cache[CacheKey := CacheEntry(events, clock)] else cache
  }

  /** A non-empty result fetched at `clock` is served unchanged by every load before
    * `clock + CacheDuration`, and by none from then on. */
  lemma CacheServesUntilExpiry(cache: map<string, CacheEntry>, events: seq<Event>, clock: int, later: int)
    requires |events| > 0
    ensures IsFresh(CacheAfterFetch(cache, events, clock), later) <==> later < clock + CacheDuration
    ensures CacheAfterFetch(cache, events, clock)[CacheKey].data == events
  {
  }

  datatype SyncStatus = NeverSynced | JustNow | MinutesAgo(minutes: int) | HoursAgo(hours: int)
  datatype CacheState = CacheEmpty | ValidFor(minutes: int) | CacheExpired

  class GoogleSheetsDB {
    var isEnabled: bool
    var lastSync: Option<int>
    var cache: map<string, CacheEntry>
    const storage: Storage

    constructor (storage: Storage)
      ensures isEnabled && lastSync == None && cache == map[] && this.storage == storage
    {
      isEnabled := true;
      lastSync := None;
      cache := map[];
      this.storage := storage;
    }

    /** What `loadEvents` returns in the current state. */
    function LoadResult(p: Platform, now: int, clock: int, response: Option<string>): seq<Event>
      reads this
    {
      if !isEnabled then []
      else if IsFresh(cache, now) then cache[CacheKey].data
      else ImportedEvents(p, response, clock)
    }

    /** `fetchEventsFromSheets`: the response text is the fetch's result (None when the
      * request failed); `lastSync` is set once the payload has its rows. */
    method FetchEventsFromSheets(p: Platform, response: Option<string>, clock: int) returns (events: seq<Event>)
      modifies this`lastSync
      ensures events == ImportedEvents(p, response, clock)
      ensures lastSync == if PayloadRows(p, response).Some? then Some(clock) else old(lastSync)
    {
      events := [];
      if response.None? {
        return;
      }
      var data := p.decodePayload(StripPayload(response.value));
      if data.None? || data.value.table.None? || data.value.table.value.rows.None? {
        return;
      }
      var rows := data.value.table.value.rows.value;
      var i := 0;
      while i < |rows|
        invariant 0 <= i <= |rows|
        invariant events == RowEvents(p, rows, clock, i)
      {
        var row := rows[i];
        assert RowEvents(p, rows, clock, i + 1) == events + RowEventAt(p, row, i, clock);
        if row.c.Some? {
          var event := ParseRow(p, row.c.value, i + 2, clock);
          if event.Some? && Truthy(event.value.title) {
            events := events + [event.value];
          }
        }
        i := i + 1;
      }
      assert PayloadRows(p, response) == Some(rows);
      lastSync := Some(clock);
    }

    /** `loadEvents`: `now` is the clock before the request, `clock` the clock after it.
      * `fetched` tells whether a request was made. */
    method LoadEvents(p: Platform, now: int, clock: int, response: Option<string>) returns (events: seq<Event>, fetched: bool)
      modifies this`cache, this`lastSync
      ensures events == old(LoadResult(p, now, clock, response))
      ensures fetched <==> isEnabled && !IsFresh(old(cache), now)
      ensures !fetched ==> cache == old(cache) && lastSync == old(lastSync)
      ensures fetched ==> cache == CacheAfterFetch(old(cache), events, clock)
      ensures fetched ==> lastSync == if PayloadRows(p, response).Some? then Some(clock) else old(lastSync)
    {
      if !isEnabled {
        return [], false;
      }
      if CacheKey in cache && now - cache[CacheKey].timestamp < CacheDuration {
        return cache[CacheKey].data, false;
      }
      events := FetchEventsFromSheets(p, response, clock);
      fetched := true;
      if |events| > 0 {
        cache := cache[CacheKey := CacheEntry(events, clock)];
      }
    }

    method ClearCache()
      modifies this`cache
      ensures cache == map[]
    {
      cache := map[];
    }

    /** `forceLoadEvents`: a load that cannot be served from the cache. */
    method ForceLoadEvents(p: Platform, now: int, clock: int, response: Option<string>) returns (events: seq<Event>, fetched: bool)
      modifies this`cache, this`lastSync
      ensures fetched == isEnabled
      ensures events == if isEnabled then ImportedEvents(p, response, clock) else []
      ensures cache == if isEnabled then CacheAfterFetch(map[], events, clock) else map[]
      ensures lastSync == if isEnabled && PayloadRows(p, response).Some? then Some(clock) else old(lastSync)
    {
      ClearCache();
      events, fetched := LoadEvents(p, now, clock, response);
    }

    /** `toggleEnabled`: flips the switch and stores it as the text "true" or "false". */
    method ToggleEnabled()
      modifies this`isEnabled, storage
      ensures isEnabled == !old(isEnabled)
      ensures storage.items == old(storage.items)[SheetsEnabledKey := if isEnabled then "true" else "false"]
    {
      isEnabled := !isEnabled;
      storage.SetItem(SheetsEnabledKey, if isEnabled then "true" else "false");
    }

    /** `getLastSyncStatus`: never, under a minute, whole minutes under an hour, or whole hours. */
    function LastSyncStatus(now: int): (r: SyncStatus)
      reads this
      ensures r == NeverSynced <==> lastSync.None?
      ensures r == JustNow <==> lastSync.Some? && now - lastSync.value < 60000
      ensures r.MinutesAgo? ==> (lastSync.Some? && 1 <= r.minutes < 60
        && r.minutes * 60000 <= now - lastSync.value < (r.minutes + 1) * 60000)
      ensures r.HoursAgo? ==> (lastSync.Some? && 1 <= r.hours
        && r.hours * 3600000 <= now - lastSync.value < (r.hours + 1) * 3600000)
    {
      match lastSync
      case None => NeverSynced
      case Some(t) =>
        var diffMinutes := (now - t) / 60000;
        if diffMinutes < 1 then JustNow
        else if diffMinutes < 60 then MinutesAgo(diffMinutes)
        else HoursAgo(diffMinutes / 60)
    }

    /** `getCacheStatus`: valid exactly when `loadEvents` would serve the cache, with the
      * whole minutes left; otherwise empty or expired. */
    function CacheStatus(now: int): (r: CacheState)
      reads this
      ensures r == CacheEmpty <==> CacheKey !in cache
      ensures r.ValidFor? <==> IsFresh(cache, now)
      ensures r.ValidFor? ==> (0 <= r.minutes
        && r.minutes * 60000 <= CacheDuration - (now - cache[CacheKey].timestamp)
        && CacheDuration - (now - cache[CacheKey].timestamp) < (r.minutes + 1) * 60000)
    {
      if CacheKey !in cache then CacheEmpty
      else
        var remaining := CacheDuration - (now - cache[CacheKey].timestamp);
        if remaining > 0 then ValidFor(remaining / 60000) else CacheExpired
    }
  }
}
