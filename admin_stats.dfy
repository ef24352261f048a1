/**
 * The admin panel's statistics (js/admin.js): the counters and per-key tallies of
 * `generateStatistics`, and the CSV text `convertStatisticsToCSV` renders from them.
 */
module AdminStats {
  import opened JsValues
  import opened Text
  import opened EventModel
  import CommunityApp

  // ---------------------------------------------------------------------------
  // Insertion-ordered tallies: a JavaScript object used as a counter dictionary.

  /** Keys in the order they were first counted, each with its count. */
  type Tally = seq<(string, nat)>

  function Keys(d: Tally): (r: seq<string>)
    ensures |r| == |d|
    ensures forall i :: 0 <= i < |d| ==> r[i] == d[i].0
  {
    seq(|d|, i requires 0 <= i < |d| => d[i].0)
  }

  /** Position of the first occurrence of `k`, or `|keys|` when absent. */
  function IndexOf(keys: seq<string>, k: string): (i: nat)
    ensures i <= |keys|
    ensures i < |keys| ==> keys[i] == k
    ensures forall j :: 0 <= j < i ==> keys[j] != k
  {
    if keys == [] then 0
    else if keys[0] == k then 0
    else 1 + IndexOf(keys[1..], k)
  }

  /** The ensures of `IndexOf` determine it. */
  lemma IndexOfUnique(keys: seq<string>, k: string, i: nat)
    requires i <= |keys|
    requires i < |keys| ==> keys[i] == k
    requires forall j :: 0 <= j < i ==> keys[j] != k
    ensures IndexOf(keys, k) == i
  {
  }

  /** `d[k] || 0`. */
  function Lookup(d: Tally, k: string): nat
  {
    var i := IndexOf(Keys(d), k);
    if i < |d| then d[i].1 else 0
  }

  predicate DistinctKeys(d: Tally)
  {
    forall i, j :: 0 <= i < j < |d| ==> d[i].0 != d[j].0
  }

  /** Every listed key was counted at least once. */
  predicate Positive(d: Tally)
  {
    forall i :: 0 <= i < |d| ==> d[i].1 >= 1
  }

  /** The sum of the counts. */
  function Total(d: Tally): nat
  {
    if d == [] then 0 else Total(d[..|d| - 1]) + d[|d| - 1].1
  }

  lemma {:induction false} TotalUpdate(d: Tally, i: nat, e: (string, nat))
    requires i < |d|
    ensures Total(d[i := e]) == Total(d) - d[i].1 + e.1
    decreases |d|
  {
    var last := |d| - 1;
    if i < last {
      assert d[i := e][..last] == d[..last][i := e];
      TotalUpdate(d[..last], i, e);
    } else {
      assert d[i := e][..last] == d[..last];
    }
  }

  /** `d[k] = (d[k] || 0) + 1`: an existing key keeps its place, a new one goes last. */
  function Bump(d: Tally, k: string): Tally
  {
    var i := IndexOf(Keys(d), k);
    if i < |d| then d[i := (k, d[i].1 + 1)] else d + [(k, 1)]
  }

  /** Counting a key adds one to that key, leaves every other key alone and adds
    * one to the total; distinct keys and positive counts are kept. */
  lemma BumpSpec(d: Tally, k: string)
    ensures Total(Bump(d, k)) == Total(d) + 1
    ensures forall x :: Lookup(Bump(d, k), x) == Lookup(d, x) + (if x == k then 1 else 0)
    ensures DistinctKeys(d) ==> DistinctKeys(Bump(d, k))
    ensures Positive(d) ==> Positive(Bump(d, k))
  {
    var keys := Keys(d);
    var i := IndexOf(keys, k);
    var r := Bump(d, k);
    if i < |d| {
      TotalUpdate(d, i, (k, d[i].1 + 1));
      assert Keys(r) == keys;
    } else {
      assert r[..|r| - 1] == d;
      assert Keys(r) == keys + [k];
      forall x
        ensures Lookup(r, x) == Lookup(d, x) + (if x == k then 1 else 0)
      {
        var j := IndexOf(keys, x);
        if j < |d| {
          IndexOfUnique(Keys(r), x, j);
        } else if x == k {
          IndexOfUnique(Keys(r), x, |d|);
        } else {
          IndexOfUnique(Keys(r), x, |r|);
        }
      }
    }
  }

  /** The tally of `key(x)` over `s`, counted from the first element to the last. */
  function TallyBy<T>(key: T -> string, s: seq<T>): Tally
  {
    if s == [] then [] else Bump(TallyBy(key, s[..|s| - 1]), key(s[|s| - 1]))
  }

  /** The elements whose key is `x`. */
  function KeyIs<T>(key: T -> string, x: string): T -> bool
  {
    (e: T) => key(e) == x
  }

  /** A tally counts every element once, under its own key and under no other. */
  lemma {:induction false} TallyBySpec<T>(key: T -> string, s: seq<T>)
    ensures Total(TallyBy(key, s)) == |s|
    ensures DistinctKeys(TallyBy(key, s)) && Positive(TallyBy(key, s))
    ensures forall x :: Lookup(TallyBy(key, s), x) == Count(KeyIs(key, x), s)
    decreases |s|
  {
    if s != [] {
      var init := s[..|s| - 1];
      var last := s[|s| - 1];
      assert s == init + [last];
      TallyBySpec(key, init);
      BumpSpec(TallyBy(key, init), key(last));
      forall x
        ensures Lookup(TallyBy(key, s), x) == Count(KeyIs(key, x), s)
      {
        CountAppend(KeyIs(key, x), init, last);
      }
    }
  }

  // ---------------------------------------------------------------------------
  // generateStatistics

  const Unspecified := "Не вказано"

  /** The object key of `event.location || 'Не вказано'`. */
  function LocationKey(p: Platform, e: Event): (k: string)
    ensures !Truthy(e.location) ==> k == Unspecified
    ensures Truthy(e.location) && e.location.Str? ==> k == e.location.s
    ensures Truthy(e.location) && e.location.Num? ==> k == p.numberText(e.location.x)
  {
    if !Truthy(e.location) then Unspecified
    else match e.location
      case Str(s) => s
      case Num(x) => p.numberText(x)
      case _ => Unspecified
  }

  function LocationKeyOf(p: Platform): Event -> string
  {
    (e: Event) => LocationKey(p, e)
  }

  /** The month-and-year key of the event's date (an Invalid Date gets its own key). */
  function MonthKeyOf(p: Platform): Event -> string
  {
    (e: Event) => p.monthKey(p.parseDate(e.date))
  }

  function NotPastAt(p: Platform, now: int): Event -> bool
  {
    (e: Event) => !PastAt(p, now)(e)
  }

  /** `eventYear === currentYear`; the year of an Invalid Date is NaN and never equal. */
  function InYearOf(p: Platform, now: int): Event -> bool
  {
    (e: Event) => p.parseDate(e.date).Some? && p.yearOf(p.parseDate(e.date).value) == p.yearOf(now)
  }

  function HasProgram(): Event -> bool
  {
    (e: Event) => Truthy(e.programLink)
  }

  /** The number of photos over all events. */
  function PhotoTotal(events: seq<Event>): nat
  {
    if events == [] then 0 else PhotoTotal(events[..|events| - 1]) + |events[|events| - 1].photos|
  }

  /** The statistics record; `averagePhotos` holds the rendered text (`0` when no
    * event has photos). */
  datatype Statistics = Statistics(
    total: nat,
    past: nat,
    future: nat,
    currentYear: nat,
    withPhotos: nat,
    withPrograms: nat,
    locations: Tally,
    monthlyDistribution: Tally,
    averagePhotos: string)

  /** The statistics of a list of events, each counter defined on its own. */
  function StatisticsOf(p: Platform, now: int, events: seq<Event>): Statistics
  {
    var withPhotos := Count(HasPhotoList(), events);
    Statistics(
      |events|,
      Count(PastAt(p, now), events),
      Count(NotPastAt(p, now), events),
      Count(InYearOf(p, now), events),
      withPhotos,
      Count(HasProgram(), events),
      TallyBy(LocationKeyOf(p), events),
      TallyBy(MonthKeyOf(p), events),
      if withPhotos > 0 then p.averageText(PhotoTotal(events), withPhotos) else "0")
  }

  /** Events with photos hold at least one photo each. */
  lemma {:induction false} PhotosCoverEventsWithPhotos(events: seq<Event>)
    ensures Count(HasPhotoList(), events) <= PhotoTotal(events)
    ensures PhotoTotal(events) == 0 <==> Count(HasPhotoList(), events) == 0
    decreases |events|
  {
    if events != [] {
      var init := events[..|events| - 1];
      assert events == init + [events[|events| - 1]];
      PhotosCoverEventsWithPhotos(init);
      CountAppend(HasPhotoList(), init, events[|events| - 1]);
    }
  }

  /** Every event is either past or upcoming, the tallies count every event exactly
    * once under its key, and the average is reported only when there are photos. */
  lemma StatisticsAreConsistent(p: Platform, now: int, events: seq<Event>)
    ensures var s := StatisticsOf(p, now, events);
      && s.past + s.future == s.total
      && s.currentYear <= s.total && s.withPrograms <= s.total
      && s.withPhotos <= s.total
      && Total(s.locations) == s.total && Total(s.monthlyDistribution) == s.total
      && DistinctKeys(s.locations) && DistinctKeys(s.monthlyDistribution)
      && Positive(s.locations) && Positive(s.monthlyDistribution)
      && (forall x :: Lookup(s.locations, x) == Count(KeyIs(LocationKeyOf(p), x), events))
      && (forall x :: Lookup(s.monthlyDistribution, x) == Count(KeyIs(MonthKeyOf(p), x), events))
      && (s.withPhotos == 0 <==> PhotoTotal(events) == 0)
      && (s.withPhotos == 0 ==> s.averagePhotos == "0")
  {
    CountPartition(PastAt(p, now), NotPastAt(p, now), events);
    TallyBySpec(LocationKeyOf(p), events);
    TallyBySpec(MonthKeyOf(p), events);
    PhotosCoverEventsWithPhotos(events);
  }

  /** The admin report and the sidebar (`getStatistics` in js/main.js) agree on the
    * total, the past events and the events with photos. The report counts every event
    * that is not past as upcoming, so its upcoming count exceeds the sidebar's by the
    * events whose date does not parse. */
  lemma SidebarAgreesWithReport(p: Platform, now: int, events: seq<Event>)
    ensures var report, sidebar := StatisticsOf(p, now, events), CommunityApp.GetStatistics(p, events, now);
      && report.total == sidebar.total
      && report.past == sidebar.past
      && report.withPhotos == sidebar.withPhotos
      && report.future == sidebar.future + Count(Undated(p), events)
  {
    forall e: Event
      ensures NotPastAt(p, now)(e) == (CommunityApp.UpcomingAt(p, now)(e) || Undated(p)(e))
    {
      assert NotPastAt(p, now)(e) == !PastAt(p, now)(e);
      assert CommunityApp.UpcomingAt(p, now)(e) == CommunityApp.IsUpcoming(p, now, e);
    }
    CountUnion(CommunityApp.UpcomingAt(p, now), Undated(p), NotPastAt(p, now), events);
  }

  /** An event whose date `new Date` cannot read. */
  function Undated(p: Platform): Event -> bool
  {
    (e: Event) => p.parseDate(e.date).None?
  }

  /** `generateStatistics(events)`, one pass over the list. */
  method GenerateStatistics(p: Platform, now: int, events: seq<Event>) returns (stats: Statistics)
    ensures stats == StatisticsOf(p, now, events)
  {
    var past, future, currentYear, withPhotos, withPrograms := 0, 0, 0, 0, 0;
    var locations: Tally := [];
    var monthly: Tally := [];
    var totalPhotos := 0;
    for i := 0 to |events|
      invariant past == Count(PastAt(p, now), events[..i])
      invariant future == Count(NotPastAt(p, now), events[..i])
      invariant currentYear == Count(InYearOf(p, now), events[..i])
      invariant withPhotos == Count(HasPhotoList(), events[..i])
      invariant withPrograms == Count(HasProgram(), events[..i])
      invariant totalPhotos == PhotoTotal(events[..i])
      invariant locations == TallyBy(LocationKeyOf(p), events[..i])
      invariant monthly == TallyBy(MonthKeyOf(p), events[..i])
    {
      var event := events[i];
      assert events[..i + 1] == events[..i] + [event];
      assert events[..i + 1][..i] == events[..i];
      CountAppend(PastAt(p, now), events[..i], event);
      CountAppend(NotPastAt(p, now), events[..i], event);
      CountAppend(InYearOf(p, now), events[..i], event);
      CountAppend(HasPhotoList(), events[..i], event);
      CountAppend(HasProgram(), events[..i], event);
      var eventDate := p.parseDate(event.date);
      if eventDate.Some? && eventDate.value < now {
        past := past + 1;
      } else {
        future := future + 1;
      }
      if eventDate.Some? && p.yearOf(eventDate.value) == p.yearOf(now) {
        currentYear := currentYear + 1;
      }
      if |event.photos| > 0 {
        withPhotos := withPhotos + 1;
        totalPhotos := totalPhotos + |event.photos|;
      }
      if Truthy(event.programLink) {
        withPrograms := withPrograms + 1;
      }
      locations := Bump(locations, LocationKey(p, event));
      monthly := Bump(monthly, p.monthKey(eventDate));
    }
    assert events[..|events|] == events;
    var averagePhotos := if withPhotos > 0 then p.averageText(totalPhotos, withPhotos) else "0";
    stats := Statistics(|events|, past, future, currentYear, withPhotos, withPrograms, locations, monthly, averagePhotos);
  }

  // ---------------------------------------------------------------------------
  // convertStatisticsToCSV

  /** The summary block that opens the export. */
  function SummaryText(stats: Statistics): string
  {
    "Статистика подій спільноти Тезе\n\n"
    + "Загальна статистика\n"
    + "Показник,Значення\n"
    + "Всього подій," + NatToString(stats.total) + "\n"
    + "Минулі події," + NatToString(stats.past) + "\n"
    + "Майбутні події," + NatToString(stats.future) + "\n"
    + "Події поточного року," + NatToString(stats.currentYear) + "\n"
    + "Події з фотографіями," + NatToString(stats.withPhotos) + "\n"
    + "Події з програмами," + NatToString(stats.withPrograms) + "\n"
    + "Середня кількість фото," + stats.averagePhotos + "\n\n"
  }

  /** One tally row as written: the key between quotes, embedded quotes left as they are. */
  function EntryLine(entry: (string, nat)): string
  {
    "\"" + entry.0 + "\"," + NatToString(entry.1) + "\n"
  }

  function EntryLines(d: Tally): string
  {
    if d == [] then "" else EntryLines(d[..|d| - 1]) + EntryLine(d[|d| - 1])
  }

  const LocationsHeading := "Розподіл по локаціях\nЛокація,Кількість подій\n"
  const MonthsHeading := "\nМісячний розподіл\nМісяць,Кількість подій\n"

  /** The text of the export. */
  function CsvText(stats: Statistics): string
  {
    SummaryText(stats) + LocationsHeading + EntryLines(stats.locations)
    + MonthsHeading + EntryLines(stats.monthlyDistribution)
  }

  /** Appends the rows of one tally section, as the `forEach` over `Object.entries` does. */
  method AppendEntries(text: string, d: Tally) returns (csv: string)
    ensures csv == text + EntryLines(d)
  {
    csv := text;
    for i := 0 to |d|
      invariant csv == text + EntryLines(d[..i])
    {
      assert d[..i + 1][..i] == d[..i];
      assert EntryLines(d[..i + 1]) == EntryLines(d[..i]) + EntryLine(d[i]);
      csv := csv + EntryLine(d[i]);
    }
    assert d[..|d|] == d;
  }

  /** `convertStatisticsToCSV(stats)`, appending section by section. */
  method ConvertStatisticsToCsv(stats: Statistics) returns (csv: string)
    ensures csv == CsvText(stats)
  {
    csv := SummaryText(stats);
    csv := csv + LocationsHeading;
    csv := AppendEntries(csv, stats.locations);
    csv := csv + MonthsHeading;
    csv := AppendEntries(csv, stats.monthlyDistribution);
  }

  /** A location containing a quote, a comma and a line break renders exactly as two
    * separate locations would: the rows of the export cannot be read back. */
  lemma QuoteInLocationForgesRows()
    ensures EntryLines([("a\",1\n\"b", 2)]) == EntryLines([("a", 1), ("b", 2)])
    ensures [("a\",1\n\"b", 2)] != [("a", 1), ("b", 2)]
  {
    var one: Tally := [("a\",1\n\"b", 2)];
    var two: Tally := [("a", 1), ("b", 2)];
    assert two[..1] == [("a", 1)];
    assert [("a", 1)][..0] == [];
    assert one[..0] == [];
    assert NatToString(1) == "1" && NatToString(2) == "2";
    assert EntryLines(one) == "\"a\",1\n\"b\",2\n";
    assert EntryLines(two) == "\"a\",1\n" + "\"b\",2\n";
  }

  // ---------------------------------------------------------------------------
  // The quoting the export evidently intends: a quoted field doubles its quotes
  // (section 2 of RFC 4180).

  function Escape(k: string): (r: string)
    ensures |r| >= |k|
  {
    if k == [] then [] else (if k[0] == '"' then "\"\"" else [k[0]]) + Escape(k[1..])
  }

  function QuotedEntryLine(entry: (string, nat)): string
  {
    "\"" + Escape(entry.0) + "\"," + NatToString(entry.1) + "\n"
  }

  function QuotedEntryLines(d: Tally): string
  {
    if d == [] then "" else QuotedEntryLine(d[0]) + QuotedEntryLines(d[1..])
  }

  /** Reads a quoted field after its opening quote: a doubled quote stands for one
    * quote, a single quote closes the field. Answers the field and the text after it. */
  function ReadQuoted(s: string): (r: Option<(string, string)>)
    ensures r.Some? ==> |r.value.1| < |s|
    decreases |s|
  {
    if s == [] then None
    else if s[0] == '"' then
      if |s| >= 2 && s[1] == '"' then
        match ReadQuoted(s[2..])
        case None => None
        case Some(fr) => Some(("\"" + fr.0, fr.1))
      else Some(("", s[1..]))
    else
      match ReadQuoted(s[1..])
      case None => None
      case Some(fr) => Some(([s[0]] + fr.0, fr.1))
  }

  lemma {:induction false} ReadEscaped(k: string, rest: string)
    requires rest == [] || rest[0] != '"'
    ensures ReadQuoted(Escape(k) + "\"" + rest) == Some((k, rest))
    decreases |k|
  {
    if k == [] {
      assert Escape(k) + "\"" + rest == ['"'] + rest;
    } else {
      ReadEscaped(k[1..], rest);
      var tail := Escape(k[1..]) + "\"" + rest;
      if k[0] == '"' {
        assert Escape(k) + "\"" + rest == "\"\"" + tail;
        assert ("\"\"" + tail)[2..] == tail;
        assert "\"" + k[1..] == k;
      } else {
        assert Escape(k) + "\"" + rest == [k[0]] + tail;
        assert ([k[0]] + tail)[1..] == tail;
        assert [k[0]] + k[1..] == k;
      }
    }
  }

  /** The number of digits at the start of `s`. */
  function LeadingDigits(s: string): (n: nat)
    ensures n <= |s|
    ensures forall i :: 0 <= i < n ==> IsDigit(s[i])
    ensures n < |s| ==> !IsDigit(s[n])
  {
    if s != [] && IsDigit(s[0]) then 1 + LeadingDigits(s[1..]) else 0
  }

  lemma {:induction false} LeadingDigitsOf(ds: string, rest: string)
    requires forall i :: 0 <= i < |ds| ==> IsDigit(ds[i])
    requires rest == [] || !IsDigit(rest[0])
    ensures LeadingDigits(ds + rest) == |ds|
    decreases |ds|
  {
    if ds != [] {
      assert (ds + rest)[1..] == ds[1..] + rest;
      LeadingDigitsOf(ds[1..], rest);
    } else {
      assert ds + rest == rest;
    }
  }

  /** Reads one row `"key",count` and its line break. */
  function ReadEntry(s: string): (r: Option<((string, nat), string)>)
    ensures r.Some? ==> |r.value.1| < |s|
  {
    if s == [] || s[0] != '"' then None
    else match ReadQuoted(s[1..])
      case None => None
      case Some(fr) =>
        var rest := fr.1;
        if rest == [] || rest[0] != ',' then None
        else
          var digits := rest[1..];
          var n := LeadingDigits(digits);
          if n == 0 || n >= |digits| || digits[n] != '\n' then None
          else Some(((fr.0, DigitsValue(digits[..n])), digits[n + 1..]))
  }

  function ReadEntries(s: string): Option<Tally>
    decreases |s|
  {
    if s == [] then Some([])
    else match ReadEntry(s)
      case None => None
      case Some(er) =>
        match ReadEntries(er.1)
        case None => None
        case Some(es) => Some([er.0] + es)
  }

  /** The count after the comma reads back, up to its line break. */
  lemma ReadCount(n: nat, rest: string)
    ensures var tail := NatToString(n) + "\n" + rest;
      && LeadingDigits(tail) == |NatToString(n)| < |tail|
      && tail[|NatToString(n)|] == '\n'
      && DigitsValue(tail[..|NatToString(n)|]) == n
      && tail[|NatToString(n)| + 1..] == rest
  {
    var digits := NatToString(n);
    var tail := digits + "\n" + rest;
    LeadingDigitsOf(digits, "\n" + rest);
    assert tail == digits + ("\n" + rest);
    assert tail[..|digits|] == digits;
    assert tail[|digits| + 1..] == rest;
    NatToStringRoundTrip(n);
  }

  lemma QuotedEntryLineShape(entry: (string, nat), rest: string)
    ensures QuotedEntryLine(entry) + rest
      == "\"" + (Escape(entry.0) + "\"" + ("," + (NatToString(entry.1) + "\n" + rest)))
  {
  }

  lemma ReadQuotedEntry(entry: (string, nat), rest: string)
    ensures ReadEntry(QuotedEntryLine(entry) + rest) == Some((entry, rest))
  {
    var tail := NatToString(entry.1) + "\n" + rest;
    var afterField := "," + tail;
    ReadEscaped(entry.0, afterField);
    QuotedEntryLineShape(entry, rest);
    var s := QuotedEntryLine(entry) + rest;
    assert s[1..] == Escape(entry.0) + "\"" + afterField;
    assert afterField[1..] == tail;
    ReadCount(entry.1, rest);
  }

  /** Rows written with doubled quotes read back as the tally they came from, whatever
    * the keys contain. */
  lemma {:induction false} QuotedEntriesRoundTrip(d: Tally)
    ensures ReadEntries(QuotedEntryLines(d)) == Some(d)
    decreases |d|
  {
    if d != [] {
      ReadQuotedEntry(d[0], QuotedEntryLines(d[1..]));
      QuotedEntriesRoundTrip(d[1..]);
      assert [d[0]] + d[1..] == d;
    }
  }

  /** With doubled quotes, the two tallies that rendered alike render differently. */
  lemma QuotedRowsKeepLocationsApart()
    ensures QuotedEntryLines([("a\",1\n\"b", 2)]) != QuotedEntryLines([("a", 1), ("b", 2)])
  {
    QuotedEntriesRoundTrip([("a\",1\n\"b", 2)]);
    QuotedEntriesRoundTrip([("a", 1), ("b", 2)]);
  }
}
