/**
 * `syncWithSheets` (js/sheets.js): replace the application's list with the
 * spreadsheet's, keeping the old list as a backup. It reaches into the
 * application object (`window.app`), so it lives beside both modules.
 */
module SheetsSync {
  import opened JsValues
  import opened EventModel
  import opened BrowserStorage
  import opened Sheets
  import opened CommunityApp

  /** The value `syncWithSheets` resolves to, as written. With the application present
    * the call to `window.app.forceRefreshUI()` throws (the application object has no
    * such method), and the `catch` answers false after the list was already replaced. */
  function SyncReport(appPresent: bool, fetched: seq<Event>): (synced: bool)
    ensures synced ==> |fetched| > 0
    ensures synced <==> |fetched| > 0 && !appPresent
  {
    if |fetched| == 0 then false
    else if appPresent then false
    else true
  }

  /** The value the code evidently means to report: whether the list was replaced. */
  function IntendedSyncReport(fetched: seq<Event>): (synced: bool)
    ensures synced <==> |fetched| > 0
  {
    |fetched| > 0
  }

  /** A sync that imports events into a running application reports failure. */
  lemma SuccessfulSyncReportsFailure(clock: int)
    requires clock > 0
    ensures |DefaultEvents(clock)| > 0
    ensures !SyncReport(true, DefaultEvents(clock))
    ensures IntendedSyncReport(DefaultEvents(clock))
  {
  }

  /** With the application present the sync never reports success, and the report as
    * written differs from the intended one exactly when a running application received
    * a non-empty list. */
  lemma SyncReportsDiffer(appPresent: bool, fetched: seq<Event>)
    ensures !SyncReport(true, fetched)
    ensures !appPresent ==> SyncReport(appPresent, fetched) == IntendedSyncReport(fetched)
    ensures SyncReport(appPresent, fetched) != IntendedSyncReport(fetched) <==> appPresent && |fetched| > 0
  {
  }

  /** The backup written before the replacement: the application's list, or [] without one. */
  function BackupItems(p: Platform, items: map<string, string>, appEvents: Option<seq<Event>>): (r: map<string, string>)
    ensures r.Keys == items.Keys + {BackupKey}
    ensures r[BackupKey] == p.encodeEvents(if appEvents.Some? then appEvents.value else [])
    ensures forall k :: k in items && k != BackupKey ==> r[k] == items[k]
  {
    items[BackupKey := p.encodeEvents(if appEvents.Some? then appEvents.value else [])]
  }

  /** `syncWithSheets` as written. `app` is `window.app`, which shares the importer's
    * storage. Nothing changes when the load returns nothing. */
  method SyncWithSheets(db: GoogleSheetsDB, app: App?, p: Platform, now: int, clock: int, response: Option<string>)
    returns (synced: bool)
    requires app != null ==> app.storage == db.storage
    modifies db`cache, db`lastSync, db.storage, app
    ensures var fetched := old(db.LoadResult(p, now, clock, response));
      && synced == SyncReport(app != null, fetched)
      && (|fetched| == 0 ==> db.storage.items == old(db.storage.items))
      && (|fetched| > 0 && app == null ==> db.storage.items == BackupItems(p, old(db.storage.items), None))
      && (|fetched| > 0 && app != null ==>
            app.events == fetched
            && db.storage.items == SavedItems(p, BackupItems(p, old(db.storage.items), Some(old(app.events))), fetched, clock))
      && (app != null && |fetched| == 0 ==> app.events == old(app.events))
      && (app != null ==> app.currentSection == old(app.currentSection) && app.isInitialized == old(app.isInitialized))
    ensures db.cache == (if db.isEnabled && !IsFresh(old(db.cache), now)
                         then CacheAfterFetch(old(db.cache), old(db.LoadResult(p, now, clock, response)), clock)
                         else old(db.cache))
    ensures db.lastSync == (if db.isEnabled && !IsFresh(old(db.cache), now) && PayloadRows(p, response).Some?
                            then Some(clock)
                            else old(db.lastSync))
  {
    var sheetsEvents, _ := db.LoadEvents(p, now, clock, response);
    if |sheetsEvents| > 0 {
      var localEvents := if app != null then app.events else [];
      db.storage.SetItem(BackupKey, p.encodeEvents(localEvents));
      if app != null {
        app.events := sheetsEvents;
        app.SaveEvents(p, clock);
        // window.app.forceRefreshUI() throws here; the catch block answers false.
        return false;
      }
      return true;
    }
    return false;
  }

  /** The same step with the refresh the code evidently intends (`refreshUI`, which
    * redraws without failing): it reports true exactly when the list was replaced. */
  method SyncWithSheetsIntended(db: GoogleSheetsDB, app: App?, p: Platform, now: int, clock: int, response: Option<string>)
    returns (synced: bool)
    requires app != null ==> app.storage == db.storage
    modifies db`cache, db`lastSync, db.storage, app
    ensures var fetched := old(db.LoadResult(p, now, clock, response));
      && synced == IntendedSyncReport(fetched)
      && (|fetched| == 0 ==> db.storage.items == old(db.storage.items))
      && (|fetched| > 0 && app == null ==> db.storage.items == BackupItems(p, old(db.storage.items), None))
      && (|fetched| > 0 && app != null ==>
            app.events == fetched
            && db.storage.items == SavedItems(p, BackupItems(p, old(db.storage.items), Some(old(app.events))), fetched, clock))
      && (app != null && |fetched| == 0 ==> app.events == old(app.events))
      && (app != null ==> app.currentSection == old(app.currentSection) && app.isInitialized == old(app.isInitialized))
    ensures db.cache == (if db.isEnabled && !IsFresh(old(db.cache), now)
                         then CacheAfterFetch(old(db.cache), old(db.LoadResult(p, now, clock, response)), clock)
                         else old(db.cache))
    ensures db.lastSync == (if db.isEnabled && !IsFresh(old(db.cache), now) && PayloadRows(p, response).Some?
                            then Some(clock)
                            else old(db.lastSync))
  {
    var sheetsEvents, _ := db.LoadEvents(p, now, clock, response);
    if |sheetsEvents| > 0 {
      var localEvents := if app != null then app.events else [];
      db.storage.SetItem(BackupKey, p.encodeEvents(localEvents));
      if app != null {
        app.events := sheetsEvents;
        app.SaveEvents(p, clock);
      }
      return true;
    }
    return false;
  }
}
