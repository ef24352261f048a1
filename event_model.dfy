/**
 * The event record shared by the application store, the spreadsheet importer
 * and the admin panel, the host services they call (number and date parsing,
 * JSON text, URL checking), and the list operations they are built from.
 */
module EventModel {
  import opened JsValues
  import opened Text

  /** One community event. Fields hold JavaScript values because stored and imported
    * records are not type-checked: a spreadsheet cell may put a number in `title`.
    * A missing `photos` array behaves as the empty one everywhere it is read. */
  datatype Event = Event(
    id: Val,
    title: Val,
    date: Val,
    location: Val,
    lat: Val,
    lng: Val,
    description: Val,
    fullDescription: Val,
    programLink: Val,
    photos: seq<string>,
    createdAt: Val,
    status: Val,
    source: Val)

  /** A spreadsheet row as the visualisation endpoint returns it: `c` is its array of
    * cells, absent for an empty row; a cell is None when it is null or its value is null. */
  datatype Row = Row(c: Option<seq<Option<Val>>>)

  /** The parsed endpoint payload: `table` and `table.rows` may be missing. */
  datatype Table = Table(rows: Option<seq<Row>>)
  datatype Payload = Payload(table: Option<Table>)

  /** A parsed import file; `events` is None when the key is missing, falsy or not an array. */
  datatype ImportDoc = ImportDoc(events: Option<seq<Event>>)

  /** Host services the code calls but that are not modelled here. Each is a total
    * function; None stands for NaN, an Invalid Date or a thrown parse error. */
  datatype Platform = Platform(
    parseInt: Val -> Option<int>,                  // parseInt(v)
    parseFloat: Val -> Option<real>,               // parseFloat(v)
    parseDate: Val -> Option<int>,                 // new Date(v).getTime(), in milliseconds
    isoString: int -> string,                      // new Date(t).toISOString()
    numberText: real -> string,                    // String(x)
    isValidUrl: string -> bool,                    // new URL(s) does not throw
    titlePattern: string -> bool,                  // the title regular expression of the editor
    encodeEvents: seq<Event> -> string,            // JSON.stringify(events)
    decodeEvents: string -> Option<seq<Event>>,    // JSON.parse, an array of events or None
    encodeMetadata: (seq<Event>, string, string) -> string,  // JSON.stringify({events, version, lastUpdated})
    decodePayload: string -> Option<Payload>,      // JSON.parse of the endpoint text
    decodeImport: string -> Option<ImportDoc>,     // JSON.parse of an import file
    encodeDraft: map<string, string> -> string,    // JSON.stringify(draft)
    decodeDraft: string -> Option<map<string, string>>,
    yearOf: int -> int,                            // getFullYear() in local time
    monthKey: Option<int> -> string,               // toLocaleDateString month-and-year key
    localDayYearsAway: (int, int) -> int,          // new Date(year + k, month, day) for the day of t
    toFixed6: real -> string,                      // x.toFixed(6)
    averageText: (nat, nat) -> string)             // (total / n).toFixed(1)

  /** `toISOString().slice(0, 16)`: date and time to the minute. */
  function IsoMinutes(p: Platform, t: int): (r: string)
    ensures |r| <= 16 && r <= p.isoString(t)
  {
    Prefix(p.isoString(t), 16)
  }

  /** The record has every field the map and the lists need (main.js validateEvents). */
  predicate IsComplete(e: Event)
  {
    Truthy(e.id) && Truthy(e.title) && Truthy(e.date) && Truthy(e.location)
    && Truthy(e.lat) && Truthy(e.lng)
  }

  // ---------------------------------------------------------------------------
  // Order-preserving filtering, used for validation, deletion and date selection.

  function Filter<T>(f: T -> bool, s: seq<T>): (r: seq<T>)
    ensures |r| <= |s|
    ensures forall k :: 0 <= k < |r| ==> f(r[k])
  {
    if s == [] then []
    else if f(s[0]) then [s[0]] + Filter(f, s[1..])
    else Filter(f, s[1..])
  }

  /** `sub` is `s` with some elements removed, the rest kept in order. */
  predicate IsSubsequence<T(==)>(sub: seq<T>, s: seq<T>)
    decreases |s|
  {
    if s == [] then sub == []
    else IsSubsequence(sub, s[1..]) || (sub != [] && sub[0] == s[0] && IsSubsequence(sub[1..], s[1..]))
  }

  /** Filtering keeps order and exactly the occurrences that satisfy `f`. */
  lemma {:induction false} FilterKeepsExactly<T>(f: T -> bool, s: seq<T>)
    ensures IsSubsequence(Filter(f, s), s)
    ensures forall x :: multiset(Filter(f, s))[x] == if f(x) then multiset(s)[x] else 0
  {
    if s != [] {
      FilterKeepsExactly(f, s[1..]);
      assert s == [s[0]] + s[1..];
      if f(s[0]) {
        assert Filter(f, s)[1..] == Filter(f, s[1..]);
      }
    }
  }

  /** A filter that removed nothing returned its input unchanged. */
  lemma {:induction false} FilterSameLength<T>(f: T -> bool, s: seq<T>)
    requires |Filter(f, s)| == |s|
    ensures Filter(f, s) == s
    ensures forall k :: 0 <= k < |s| ==> f(s[k])
  {
    if s != [] && f(s[0]) {
      FilterSameLength(f, s[1..]);
      assert s == [s[0]] + s[1..];
    }
  }

  lemma {:induction false} FilterAppend<T>(f: T -> bool, s: seq<T>, x: T)
    ensures Filter(f, s + [x]) == Filter(f, s) + (if f(x) then [x] else [])
  {
    if s != [] {
      assert (s + [x])[1..] == s[1..] + [x];
      FilterAppend(f, s[1..], x);
    } else {
      assert Filter(f, [x][1..]) == [];
    }
  }

  function Count<T>(f: T -> bool, s: seq<T>): (n: nat)
    ensures n <= |s|
  {
    |Filter(f, s)|
  }

  /** Counts of two predicates that never hold together, and together cover
    * every element, add up to the length. */
  lemma {:induction false} CountPartition<T>(f: T -> bool, g: T -> bool, s: seq<T>)
    requires forall x :: !(f(x) && g(x))
    ensures Count(f, s) + Count(g, s) <= |s|
    ensures (forall k :: 0 <= k < |s| ==> f(s[k]) || g(s[k])) ==> Count(f, s) + Count(g, s) == |s|
  {
    if s != [] {
      CountPartition(f, g, s[1..]);
      assert forall k :: 1 <= k < |s| ==> s[1..][k - 1] == s[k];
    }
  }

  lemma CountAppend<T>(f: T -> bool, s: seq<T>, x: T)
    ensures Count(f, s + [x]) == Count(f, s) + (if f(x) then 1 else 0)
  {
    FilterAppend(f, s, x);
  }

  /** Counting the union of two disjoint predicates adds their counts. */
  lemma {:induction false} CountUnion<T>(f: T -> bool, g: T -> bool, h: T -> bool, s: seq<T>)
    requires forall x :: !(f(x) && g(x))
    requires forall x :: h(x) == (f(x) || g(x))
    ensures Count(h, s) == Count(f, s) + Count(g, s)
    decreases |s|
  {
    if s != [] {
      var init, last := s[..|s| - 1], s[|s| - 1];
      assert s == init + [last];
      CountUnion(f, g, h, init);
      CountAppend(f, init, last);
      CountAppend(g, init, last);
      CountAppend(h, init, last);
    }
  }

  /** `new Date(event.date) < now`, the test both statistics use; an Invalid Date is
    * never earlier. */
  function PastAt(p: Platform, now: int): Event -> bool
  {
    (e: Event) => p.parseDate(e.date).Some? && p.parseDate(e.date).value < now
  }

  /** `event.photos && event.photos.length > 0`. */
  function HasPhotoList(): Event -> bool
  {
    (e: Event) => |e.photos| > 0
  }

  // ---------------------------------------------------------------------------
  // main.js validateEvents

  /** The records that survive validation, in their original order. */
  function ValidEvents(events: seq<Event>): (r: seq<Event>)
  {
    Filter(IsComplete, events)
  }

  lemma ValidEventsSpec(events: seq<Event>)
    ensures forall k :: 0 <= k < |ValidEvents(events)| ==> IsComplete(ValidEvents(events)[k])
    ensures IsSubsequence(ValidEvents(events), events)
    ensures forall e :: multiset(ValidEvents(events))[e] == if IsComplete(e) then multiset(events)[e] else 0
  {
    FilterKeepsExactly(IsComplete, events);
  }

  lemma {:induction false} ValidEventsIdempotent(events: seq<Event>)
    ensures ValidEvents(ValidEvents(events)) == ValidEvents(events)
  {
    var once := ValidEvents(events);
    FilterAllPass(IsComplete, once);
  }

  lemma {:induction false} FilterAllPass<T>(f: T -> bool, s: seq<T>)
    requires forall k :: 0 <= k < |s| ==> f(s[k])
    ensures Filter(f, s) == s
  {
    if s != [] {
      FilterAllPass(f, s[1..]);
      assert s == [s[0]] + s[1..];
    }
  }

  // ---------------------------------------------------------------------------
  // main.js getDefaultEvents

  /** The three sample events used when there is nothing stored and nothing imported;
    * their ids are the clock reading and the next two milliseconds. */
  function DefaultEvents(now: int): (r: seq<Event>)
    ensures |r| == 3
    ensures r[0].id == Num(now as real) && r[1].id == Num((now + 1) as real) && r[2].id == Num((now + 2) as real)
    ensures now > 0 ==> forall k :: 0 <= k < |r| ==> IsComplete(r[k])
  {
    var first := PrayerInIvanoFrankivsk(now);
    var second := MeetingInLviv(now + 1);
    var third := YouthMeetingInTernopil(now + 2);
    [first, second, third]
  }

  const IvanoFrankivskPhoto1: string := "https://images.unsplash.com/photo-1507003211169-0a1dd7228f2d?w=400&h=300&fit=crop"
  const IvanoFrankivskPhoto2: string := "https://images.unsplash.com/photo-1516450360452-9312f5e86fc7?w=400&h=300&fit=crop"
  const LvivPhoto: string := "https://images.unsplash.com/photo-1519491050282-cf00c82424b4?w=400&h=300&fit=crop"
  const TernopilPhoto: string := "https://images.unsplash.com/photo-1511632765486-a01980e01a18?w=400&h=300&fit=crop"
  const IvanoFrankivskFullText: string :=
    "Запрошуємо всіх бажаючих на молитовну зустріч у дусі спільноти Тезе. Вечір почнеться о 19:00 спільними піснями, після чого буде час тихої медитації та читання Священного Писання. Завершимо зустріч спільною молитвою. Принесіть із собою відкрите серце та готовність до зустрічі з Богом у тиші та спільноті."
  const LvivFullText: string :=
    "Вечірня молитва у Львові проходитиме у костелі Святого Антонія. Програма включає спільні пісні в дусі Тезе, читання уривків з Євангелія та час для особистої молитви в тиші. Після молитви буде можливість поспілкуватися з іншими учасниками за чашкою чаю."
  const TernopilFullText: string :=
    "Молодіжна зустріч спільноти Тезе в Тернополі. Разом ми будемо співати пісні, ділитися думками про віру та сучасне життя, а також проводити час у молитві. Зустріч орієнтована на молодь віком від 16 до 35 років, але всі бажаючі запрошуються."

  function PrayerInIvanoFrankivsk(id: int): (e: Event)
    ensures e.id == Num(id as real) && (id != 0 ==> IsComplete(e))
  {
    Event(Num(id as real), Str("Молитовна зустріч у Івано-Франківську"), Str("2025-01-15T19:00"),
      Str("Церква Святого Миколая"), Num(48.9226), Num(24.7111),
      Str("Спільна молитва в дусі Тезе з піснями та медитацією"),
      Str(IvanoFrankivskFullText),
      Str("https://taize.fr/uk"),
      [IvanoFrankivskPhoto1,
       IvanoFrankivskPhoto2],
      Undefined, Undefined, Undefined)
  }

  function MeetingInLviv(id: int): (e: Event)
    ensures e.id == Num(id as real) && (id != 0 ==> IsComplete(e))
  {
    Event(Num(id as real), Str("Зустріч у Львові"), Str("2025-01-22T18:30"),
      Str("Костел Святого Антонія"), Num(49.8397), Num(24.0297),
      Str("Вечірня молитва з читанням та піснями"),
      Str(LvivFullText),
      Str(""),
      [LvivPhoto],
      Undefined, Undefined, Undefined)
  }

  function YouthMeetingInTernopil(id: int): (e: Event)
    ensures e.id == Num(id as real) && (id != 0 ==> IsComplete(e))
  {
    Event(Num(id as real), Str("Молодіжна зустріч у Тернополі"), Str("2025-02-05T17:00"),
      Str("Парафіяльний дім"), Num(49.5535), Num(25.5948),
      Str("Спеціальна зустріч для молоді з піснями та обговоренням"),
      Str(TernopilFullText),
      Str(""),
      [TernopilPhoto],
      Undefined, Undefined, Undefined)
  }

  // ---------------------------------------------------------------------------
  // Photo lists: sheets.js:140, main.js parsePhotos and its copy in admin.js

  function MapTrim(xs: seq<string>): (r: seq<string>)
    ensures |r| == |xs| && forall k :: 0 <= k < |xs| ==> r[k] == Trim(xs[k])
  {
    if xs == [] then [] else [Trim(xs[0])] + MapTrim(xs[1..])
  }

  predicate NonEmpty(s: string) { s != "" }

  /** `text.split(',').map(url => url.trim()).filter(url => url)`, and [] for an empty text. */
  function PhotoList(text: string): (r: seq<string>)
  {
    if text == "" then [] else Filter(NonEmpty, MapTrim(Split(text, ',')))
  }

  /** The form's photo field: the same pieces, keeping only valid URLs. */
  function ParsePhotos(p: Platform, text: string): (r: seq<string>)
  {
    if text == "" then [] else Filter((url: string) => url != "" && p.isValidUrl(url), MapTrim(Split(text, ',')))
  }

  /** Every photo is a non-empty, trimmed, comma-free piece of the text. */
  lemma PhotoListSpec(text: string)
    ensures forall k :: 0 <= k < |PhotoList(text)| ==>
      PhotoList(text)[k] != "" && Trim(PhotoList(text)[k]) == PhotoList(text)[k] && ',' !in PhotoList(text)[k]
  {
    if text != "" {
      TrimmedPiecesSpec(text);
      TrimmedPiecesSurviveFilter(MapTrim(Split(text, ',')));
    }
  }

  lemma TrimmedPiecesSurviveFilter(pieces: seq<string>)
    requires forall k :: 0 <= k < |pieces| ==> Trim(pieces[k]) == pieces[k] && ',' !in pieces[k]
    ensures forall k :: 0 <= k < |Filter(NonEmpty, pieces)| ==>
      Filter(NonEmpty, pieces)[k] != "" && Trim(Filter(NonEmpty, pieces)[k]) == Filter(NonEmpty, pieces)[k]
      && ',' !in Filter(NonEmpty, pieces)[k]
  {
    assert forall k :: 0 <= k < |pieces| ==> IsTrimmedPiece(pieces[k]);
    FilterKeeps(NonEmpty, IsTrimmedPiece, pieces);
    var photos := Filter(NonEmpty, pieces);
    forall k | 0 <= k < |photos|
      ensures photos[k] != "" && Trim(photos[k]) == photos[k] && ',' !in photos[k]
    {
      assert IsTrimmedPiece(photos[k]);
    }
  }

  predicate IsTrimmedPiece(x: string)
  {
    Trim(x) == x && ',' !in x
  }

  /** The photos are the non-empty trimmed pieces, every one of them (as often as it
    * occurs), in the order of the text. */
  lemma PhotoListInOrder(text: string)
    ensures IsSubsequence(PhotoList(text), MapTrim(Split(text, ',')))
    ensures forall x :: multiset(PhotoList(text))[x] == if x != "" then multiset(MapTrim(Split(text, ',')))[x] else 0
  {
    if text != "" {
      FilterKeepsExactly(NonEmpty, MapTrim(Split(text, ',')));
    } else {
      EmptyIsSubsequence(MapTrim(Split(text, ',')));
      SplitOfSeparatorFree(text, ',');
      assert MapTrim(Split(text, ',')) == [""];
    }
  }

  lemma {:induction false} EmptyIsSubsequence<T>(s: seq<T>)
    ensures IsSubsequence([], s)
    decreases |s|
  {
    if s != [] {
      EmptyIsSubsequence(s[1..]);
    }
  }

  /** A property of every element survives filtering. */
  lemma {:induction false} FilterKeeps<T>(f: T -> bool, q: T -> bool, s: seq<T>)
    requires forall k :: 0 <= k < |s| ==> q(s[k])
    ensures forall k :: 0 <= k < |Filter(f, s)| ==> q(Filter(f, s)[k])
  {
    if s != [] {
      assert forall k :: 0 <= k < |s[1..]| ==> q(s[1..][k]) by {
        forall k | 0 <= k < |s[1..]| ensures q(s[1..][k]) {
          assert s[1..][k] == s[k + 1];
        }
      }
      FilterKeeps(f, q, s[1..]);
    }
  }

  lemma TrimmedPiecesSpec(text: string)
    ensures forall k :: 0 <= k < |MapTrim(Split(text, ','))| ==>
      Trim(MapTrim(Split(text, ','))[k]) == MapTrim(Split(text, ','))[k] && ',' !in MapTrim(Split(text, ','))[k]
  {
    var raw := Split(text, ',');
    var pieces := MapTrim(raw);
    SplitPiecesHaveNoSeparator(text, ',');
    forall k | 0 <= k < |pieces|
      ensures Trim(pieces[k]) == pieces[k] && ',' !in pieces[k]
    {
      assert pieces[k] == Trim(raw[k]);
      assert ',' !in raw[k];
      TrimIdempotent(raw[k]);
      TrimKeepsOut(raw[k], ',');
    }
  }

  lemma TrimKeepsOut(s: string, c: char)
    requires c !in s
    ensures c !in Trim(s)
  {
    var t := TrimStart(s);
    assert forall x :: x in t ==> x in s;
    assert forall x :: x in TrimEnd(t) ==> x in t;
  }

  lemma {:induction false} FilterElementsFrom<T>(f: T -> bool, s: seq<T>)
    ensures forall k :: 0 <= k < |Filter(f, s)| ==> Filter(f, s)[k] in s
  {
    if s != [] {
      FilterElementsFrom(f, s[1..]);
      assert forall x :: x in s[1..] ==> x in s;
    }
  }

  /** The form keeps exactly the spreadsheet's photo pieces that are valid URLs. */
  lemma {:induction false} ParsePhotosIsValidPhotoList(p: Platform, text: string)
    ensures ParsePhotos(p, text) == Filter(p.isValidUrl, PhotoList(text))
  {
    if text != "" {
      FilterTwice(NonEmpty, p.isValidUrl, (url: string) => url != "" && p.isValidUrl(url), MapTrim(Split(text, ',')));
    }
  }

  lemma {:induction false} FilterTwice<T>(f: T -> bool, g: T -> bool, both: T -> bool, s: seq<T>)
    requires forall x :: both(x) == (f(x) && g(x))
    ensures Filter(both, s) == Filter(g, Filter(f, s))
  {
    if s != [] {
      FilterTwice(f, g, both, s[1..]);
    }
  }
}
