/**
 * The browser's `localStorage`: one string-to-string dictionary shared by the
 * application, the spreadsheet importer and the admin panel.
 */
module BrowserStorage {
  import opened JsValues

  const EventsKey := "taizeEvents"
  const MetadataKey := "taizeMetadata"
  const BackupKey := "taizeEventsBackup"
  const DraftKey := "taizeFormDraft"
  const SheetsEnabledKey := "sheetsEnabled"

  class Storage {
    var items: map<string, string>

    constructor (initial: map<string, string>)
      ensures items == initial
    {
      items := initial;
    }

    /** `getItem(key)`: null (None) when the key is absent. */
    function GetItem(key: string): (r: Option<string>)
      reads this
      ensures r.Some? <==> key in items
      ensures r.Some? ==> r.value == items[key]
    {
      if key in items then Some(items[key]) else None
    }

    method SetItem(key: string, value: string)
      modifies this
      ensures items == old(items)[key := value]
    {
      items := items[key := value];
    }

    method RemoveItem(key: string)
      modifies this
      ensures items == old(items) - {key}
    {
      items := items - {key};
    }
  }
}
