/**
 * The admin panel's data operations (js/admin.js): importing an events file,
 * the form draft kept in storage for a day, and clearing all data.
 */
module AdminData {
  import opened JsValues
  import opened Text
  import opened EventModel
  import opened BrowserStorage
  import opened CommunityApp

  // ---------------------------------------------------------------------------
  // handleImportFile

  datatype ImportOutcome =
    | NotJson                       // JSON.parse threw (or gave null)
    | WrongFormat                   // `events` is missing, falsy or not an array
    | Declined(count: nat)          // the replacement was not confirmed
    | Imported(events: seq<Event>)  // the list was replaced

  /** What an import file leads to. An empty array is accepted: `[]` is truthy. */
  function ImportOutcomeOf(p: Platform, text: string, confirmed: bool): (r: ImportOutcome)
    ensures r == NotJson <==> p.decodeImport(text).None?
    ensures r == WrongFormat <==> p.decodeImport(text).Some? && p.decodeImport(text).value.events.None?
    ensures r.Imported? <==> confirmed && p.decodeImport(text).Some? && p.decodeImport(text).value.events.Some?
    ensures r.Imported? ==> r.events == p.decodeImport(text).value.events.value
    ensures r.Declined? ==> (!confirmed && p.decodeImport(text).Some? && p.decodeImport(text).value.events.Some?
      && r.count == |p.decodeImport(text).value.events.value|)
  {
    match p.decodeImport(text)
    case None => NotJson
    case Some(doc) =>
      match doc.events
      case None => WrongFormat
      case Some(events) => if confirmed then Imported(events) else Declined(|events|)
  }

  /** An import stores the file's list as it is; loading the page again keeps only its
    * complete events. */
  lemma ImportedEventsAreValidatedOnReload(p: Platform, items: map<string, string>, events: seq<Event>, clock: int)
    requires p.encodeEvents(events) != ""
    requires p.decodeEvents(p.encodeEvents(events)) == Some(events)
    ensures StoredLoad(p, SavedItems(p, items, events, clock)[EventsKey], clock) == ValidEvents(events)
    ensures |StoredLoad(p, SavedItems(p, items, events, clock)[EventsKey], clock)| <= |events|
    ensures (exists k :: 0 <= k < |events| && !IsComplete(events[k]))
      ==> |StoredLoad(p, SavedItems(p, items, events, clock)[EventsKey], clock)| < |events|
  {
    SavedEventsLoadBack(p, items, events, clock);
    if |ValidEvents(events)| == |events| {
      ValidEventsSpec(events);
      FilterSameLength(IsComplete, events);
    }
  }

  // ---------------------------------------------------------------------------
  // The form draft (saveFormData, loadFormData, clearFormData)

  const TimestampKey := "timestamp"
  const DraftLifetime := 24 * 60 * 60 * 1000

  /** The form's controls as `saveFormData` reads them: each id with its value trimmed. */
  function TrimmedInputs(inputs: seq<(string, string)>): (r: seq<(string, string)>)
    ensures |r| == |inputs|
    ensures forall k :: 0 <= k < |inputs| ==> r[k] == (inputs[k].0, Trim(inputs[k].1))
  {
    seq(|inputs|, k requires 0 <= k < |inputs| => (inputs[k].0, Trim(inputs[k].1)))
  }

  /** A control `saveFormData` keeps: it has an id and a non-blank value. */
  predicate Keeps(entry: (string, string))
  {
    entry.0 != "" && entry.1 != ""
  }

  /** The kept entries as a dictionary; a later entry with the same id wins. */
  function KeptFields(entries: seq<(string, string)>): (r: map<string, string>)
  {
    if entries == [] then map[]
    else
      var init := KeptFields(entries[..|entries| - 1]);
      var entry := entries[|entries| - 1];
      if Keeps(entry) then init[entry.0 := entry.1] else init
  }

  /** The fields of the draft: the controls with an id and a non-blank value, trimmed. */
  function DraftFields(inputs: seq<(string, string)>): map<string, string>
  {
    KeptFields(TrimmedInputs(inputs))
  }

  /** Entry `i` is the last kept entry with id `k`. */
  predicate LastKept(entries: seq<(string, string)>, k: string, i: int)
  {
    0 <= i < |entries| && entries[i].0 == k && Keeps(entries[i])
    && forall j :: i < j < |entries| ==> !(entries[j].0 == k && Keeps(entries[j]))
  }

  lemma LastKeptExtends(entries: seq<(string, string)>, k: string, i: int)
    requires entries != []
    requires LastKept(entries[..|entries| - 1], k, i)
    requires !(entries[|entries| - 1].0 == k && Keeps(entries[|entries| - 1]))
    ensures LastKept(entries, k, i)
  {
    var init := entries[..|entries| - 1];
    forall j | i < j < |entries| ensures !(entries[j].0 == k && Keeps(entries[j])) {
      if j < |init| {
        assert entries[j] == init[j];
      }
    }
  }

  /** Every kept entry leaves a field with its id. */
  lemma {:induction false} KeptEntriesAreSaved(entries: seq<(string, string)>)
    ensures forall i :: 0 <= i < |entries| && Keeps(entries[i]) ==> entries[i].0 in KeptFields(entries)
    decreases |entries|
  {
    if entries != [] {
      var init := entries[..|entries| - 1];
      KeptEntriesAreSaved(init);
      forall i | 0 <= i < |init| && Keeps(entries[i])
        ensures entries[i].0 in KeptFields(entries)
      {
        assert init[i] == entries[i];
      }
    }
  }

  /** Every field comes from a kept entry with its id. */
  lemma {:induction false} SavedFieldsComeFromEntries(entries: seq<(string, string)>)
    ensures forall k :: k in KeptFields(entries) ==>
      exists i :: 0 <= i < |entries| && entries[i].0 == k && Keeps(entries[i])
    decreases |entries|
  {
    if entries != [] {
      var init := entries[..|entries| - 1];
      var n := |entries| - 1;
      SavedFieldsComeFromEntries(init);
      forall k | k in KeptFields(entries)
        ensures exists i :: 0 <= i < |entries| && entries[i].0 == k && Keeps(entries[i])
      {
        if !(entries[n].0 == k && Keeps(entries[n])) {
          assert k in KeptFields(init);
          var i :| 0 <= i < |init| && init[i].0 == k && Keeps(init[i]);
          assert entries[i] == init[i];
        }
      }
    }
  }

  /** A field is kept exactly when some entry with its id is kept. */
  lemma KeptFieldKeys(entries: seq<(string, string)>)
    ensures forall k :: k in KeptFields(entries) <==>
      exists i :: 0 <= i < |entries| && entries[i].0 == k && Keeps(entries[i])
  {
    KeptEntriesAreSaved(entries);
    SavedFieldsComeFromEntries(entries);
  }

  /** A kept field holds the value of the last kept entry with its id. */
  lemma {:induction false} KeptFieldValues(entries: seq<(string, string)>)
    ensures forall k :: k in KeptFields(entries) ==>
      exists i :: LastKept(entries, k, i) && KeptFields(entries)[k] == entries[i].1
    decreases |entries|
  {
    if entries != [] {
      var init := entries[..|entries| - 1];
      var n := |entries| - 1;
      KeptFieldValues(init);
      forall k | k in KeptFields(entries)
        ensures exists i :: LastKept(entries, k, i) && KeptFields(entries)[k] == entries[i].1
      {
        if entries[n].0 == k && Keeps(entries[n]) {
          assert LastKept(entries, k, n);
        } else {
          assert k in KeptFields(init) && KeptFields(entries)[k] == KeptFields(init)[k];
          var i :| LastKept(init, k, i) && KeptFields(init)[k] == init[i].1;
          assert entries[i] == init[i];
          LastKeptExtends(entries, k, i);
        }
      }
    }
  }

  /** No saved field is empty. */
  lemma {:induction false} KeptValuesNonEmpty(entries: seq<(string, string)>)
    ensures forall k :: k in KeptFields(entries) ==> KeptFields(entries)[k] != ""
    decreases |entries|
  {
    if entries != [] {
      KeptValuesNonEmpty(entries[..|entries| - 1]);
    }
  }

  /** The draft object written: the kept fields with the save time stamped over any
    * input whose id is `timestamp`. */
  function Draft(p: Platform, inputs: seq<(string, string)>, clock: int): (r: map<string, string>)
    ensures r.Keys == DraftFields(inputs).Keys + {TimestampKey}
    ensures r[TimestampKey] == p.isoString(clock)
    ensures forall k :: k in r && k != TimestampKey ==> r[k] == DraftFields(inputs)[k]
  {
    DraftFields(inputs)[TimestampKey := p.isoString(clock)]
  }

  /** Whether a draft is more than a day old. A missing or empty stamp, or one that
    * does not parse (NaN hours), never expires. */
  predicate DraftExpired(p: Platform, now: int, draft: map<string, string>)
  {
    TimestampKey in draft && draft[TimestampKey] != ""
    && p.parseDate(Str(draft[TimestampKey])).Some?
    && now - p.parseDate(Str(draft[TimestampKey])).value > DraftLifetime
  }

  /** The values written back into the form: every saved field but the stamp that has
    * an element on the page and a non-empty value. */
  function RestoredFields(draft: map<string, string>, formIds: set<string>): (r: map<string, string>)
    ensures TimestampKey !in r
    ensures forall k :: k in r <==> k in draft && k != TimestampKey && k in formIds && draft[k] != ""
    ensures forall k :: k in r ==> r[k] == draft[k]
  {
    map k | k in draft && k != TimestampKey && k in formIds && draft[k] != "" :: draft[k]
  }

  datatype DraftOutcome =
    | NoDraft                               // nothing saved: the form is left alone
    | Discarded                             // unreadable or expired: the draft is removed
    | Restored(fields: map<string, string>) // these form fields are filled in

  /** What `loadFormData` does with the saved draft text. */
  function DraftLoad(p: Platform, now: int, saved: Option<string>, formIds: set<string>): (r: DraftOutcome)
    ensures r == NoDraft <==> saved.None? || saved == Some("")
    ensures r == Discarded <==> (saved.Some? && saved.value != ""
      && (p.decodeDraft(saved.value).None? || DraftExpired(p, now, p.decodeDraft(saved.value).value)))
    ensures r.Restored? <==> (saved.Some? && saved.value != "" && p.decodeDraft(saved.value).Some?
      && !DraftExpired(p, now, p.decodeDraft(saved.value).value))
    ensures r.Restored? ==> r.fields == RestoredFields(p.decodeDraft(saved.value).value, formIds)
  {
    if saved.None? || saved.value == "" then NoDraft
    else match p.decodeDraft(saved.value)
      case None => Discarded
      case Some(draft) =>
        if DraftExpired(p, now, draft) then Discarded else Restored(RestoredFields(draft, formIds))
  }

  /** A draft read back within a day of saving restores every saved field that is on
    * the page, with its saved value, and nothing else. */
  lemma DraftRestoresWithinADay(p: Platform, inputs: seq<(string, string)>, clock: int, now: int, formIds: set<string>)
    requires p.encodeDraft(Draft(p, inputs, clock)) != ""
    requires p.decodeDraft(p.encodeDraft(Draft(p, inputs, clock))) == Some(Draft(p, inputs, clock))
    requires p.parseDate(Str(p.isoString(clock))) == Some(clock)
    requires now - clock <= DraftLifetime
    ensures var r := DraftLoad(p, now, Some(p.encodeDraft(Draft(p, inputs, clock))), formIds);
      && r.Restored?
      && (forall k :: k in r.fields <==> k in DraftFields(inputs) && k != TimestampKey && k in formIds)
      && (forall k :: k in r.fields ==> r.fields[k] == DraftFields(inputs)[k])
  {
    var draft := Draft(p, inputs, clock);
    assert !DraftExpired(p, now, draft);
    assert DraftLoad(p, now, Some(p.encodeDraft(draft)), formIds) == Restored(RestoredFields(draft, formIds));
    RestoredDraftFields(p, inputs, clock, formIds);
  }

  lemma RestoredDraftFields(p: Platform, inputs: seq<(string, string)>, clock: int, formIds: set<string>)
    ensures var fields := RestoredFields(Draft(p, inputs, clock), formIds);
      && (forall k :: k in fields <==> k in DraftFields(inputs) && k != TimestampKey && k in formIds)
      && (forall k :: k in fields ==> fields[k] == DraftFields(inputs)[k])
  {
    KeptValuesNonEmpty(TrimmedInputs(inputs));
  }

  /** A draft read back more than a day after saving is discarded. */
  lemma DraftExpiresAfterADay(p: Platform, inputs: seq<(string, string)>, clock: int, now: int, formIds: set<string>)
    requires p.encodeDraft(Draft(p, inputs, clock)) != ""
    requires p.decodeDraft(p.encodeDraft(Draft(p, inputs, clock))) == Some(Draft(p, inputs, clock))
    requires p.isoString(clock) != ""
    requires p.parseDate(Str(p.isoString(clock))) == Some(clock)
    requires now - clock > DraftLifetime
    ensures DraftLoad(p, now, Some(p.encodeDraft(Draft(p, inputs, clock))), formIds) == Discarded
  {
  }

  // ---------------------------------------------------------------------------
  // clearAllData

  const ConfirmWord := "ВИДАЛИТИ"

  /** The keys `clearAllData` removes; the backup and the importer's switch stay. */
  const ClearedKeys: set<string> := {EventsKey, MetadataKey, DraftKey}

  // ---------------------------------------------------------------------------

  /** The admin panel, holding the storage it shares with the application
    * (`window.app`, which may be absent). */
  class AdminManager {
    const storage: Storage
    const app: App?

    constructor (storage: Storage, app: App?)
      ensures this.storage == storage && this.app == app
    {
      this.storage := storage;
      this.app := app;
    }

    /** `handleImportFile` once the file was read: `confirmed` is the answer to the
      * replacement prompt. The imported list replaces the application's and is saved
      * without validation. */
    method HandleImportFile(p: Platform, text: string, confirmed: bool, clock: int) returns (outcome: ImportOutcome)
      requires app != null ==> app.storage == storage
      modifies storage, app
      ensures outcome == ImportOutcomeOf(p, text, confirmed)
      ensures outcome.Imported? && app != null ==>
        app.events == outcome.events && storage.items == SavedItems(p, old(storage.items), outcome.events, clock)
      ensures !outcome.Imported? || app == null ==> storage.items == old(storage.items)
      ensures app != null && !outcome.Imported? ==> app.events == old(app.events)
      ensures app != null ==> app.currentSection == old(app.currentSection) && app.isInitialized == old(app.isInitialized)
    {
      var data := p.decodeImport(text);
      if data.None? {
        return NotJson;
      }
      if data.value.events.None? {
        return WrongFormat;
      }
      var events := data.value.events.value;
      if !confirmed {
        return Declined(|events|);
      }
      if app != null {
        app.events := events;
        app.SaveEvents(p, clock);
      }
      return Imported(events);
    }

    /** `saveFormData`: `inputs` are the form's controls in document order, each with
      * its id and raw value. */
    method SaveFormData(p: Platform, inputs: seq<(string, string)>, clock: int)
      modifies storage
      ensures storage.items == old(storage.items)[DraftKey := p.encodeDraft(Draft(p, inputs, clock))]
    {
      var data: map<string, string> := map[];
      ghost var entries := TrimmedInputs(inputs);
      for i := 0 to |inputs|
        invariant data == KeptFields(entries[..i])
      {
        assert entries[..i + 1][..i] == entries[..i];
        var input := inputs[i];
        assert entries[i] == (input.0, Trim(input.1));
        if input.0 != "" && Trim(input.1) != "" {
          data := data[input.0 := Trim(input.1)];
        }
      }
      assert entries[..|inputs|] == entries;
      data := data[TimestampKey := p.isoString(clock)];
      storage.SetItem(DraftKey, p.encodeDraft(data));
    }

    /** `loadFormData`: `formIds` are the ids of the elements on the page; the answer
      * says which of them are filled in. */
    method LoadFormData(p: Platform, now: int, formIds: set<string>) returns (outcome: DraftOutcome)
      modifies storage
      ensures outcome == DraftLoad(p, now, old(storage.GetItem(DraftKey)), formIds)
      ensures outcome == Discarded ==> storage.items == old(storage.items) - {DraftKey}
      ensures outcome != Discarded ==> storage.items == old(storage.items)
    {
      var savedData := storage.GetItem(DraftKey);
      if savedData.None? || savedData.value == "" {
        return NoDraft;
      }
      var data := p.decodeDraft(savedData.value);
      if data.None? {
        ClearFormData();
        return Discarded;
      }
      var draft := data.value;
      if TimestampKey in draft && draft[TimestampKey] != "" {
        var saveTime := p.parseDate(Str(draft[TimestampKey]));
        if saveTime.Some? && now - saveTime.value > DraftLifetime {
          ClearFormData();
          return Discarded;
        }
      }
      return Restored(RestoredFields(draft, formIds));
    }

    /** `clearFormData`. */
    method ClearFormData()
      modifies storage
      ensures storage.items == old(storage.items) - {DraftKey}
    {
      storage.RemoveItem(DraftKey);
    }

    /** `clearAllData`: `confirmed` answers the warning and `typed` the prompt for the
      * confirmation word (None when cancelled). */
    method ClearAllData(confirmed: bool, typed: Option<string>) returns (cleared: bool)
      requires app != null ==> app.storage == storage
      modifies storage, app
      ensures cleared <==> confirmed && typed == Some(ConfirmWord)
      ensures cleared ==> storage.items == old(storage.items) - ClearedKeys
      ensures cleared && app != null ==> app.events == []
      ensures !cleared ==> storage.items == old(storage.items)
      ensures !cleared && app != null ==> app.events == old(app.events)
      ensures app != null ==> app.currentSection == old(app.currentSection) && app.isInitialized == old(app.isInitialized)
    {
      if !confirmed || typed != Some(ConfirmWord) {
        return false;
      }
      storage.RemoveItem(EventsKey);
      storage.RemoveItem(MetadataKey);
      storage.RemoveItem(DraftKey);
      if app != null {
        app.events := [];
      }
      return true;
    }
  }

  /** Clearing keeps the backup of the last spreadsheet sync and the importer's switch. */
  lemma ClearingKeepsBackupAndSwitch(items: map<string, string>)
    ensures BackupKey in items ==> BackupKey in items - ClearedKeys && (items - ClearedKeys)[BackupKey] == items[BackupKey]
    ensures SheetsEnabledKey in items ==> SheetsEnabledKey in items - ClearedKeys
    ensures EventsKey !in items - ClearedKeys && DraftKey !in items - ClearedKeys
  {
  }
}
