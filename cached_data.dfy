/**
 * The dashboard's cache policy (frontend/src/hooks/useCachedData.ts): the
 * `loadData` step that serves the `localStorage` entry while it is less than
 * an hour old and otherwise asks the server and overwrites the entry.
 *
 * The clock and the HTTP call are inputs: `now` is `Date.now()` when the entry
 * is checked, `storeTime` is `Date.now()` when the fresh entry is written, and
 * `response` is what `axios.get('/api/dashboard')` would give if called.
 */
module CachedData {
  import opened Types

  /** `CACHE_EXPIRATION`: one hour, in milliseconds. */
  const CacheExpiration: int := 60 * 60 * 1000

  /** Prefix of the message shown when loading fails. */
  const ErrorPrefix: string := "Error loading data: "

  /** The `localStorage` entry under the key "dashboardData": absent, a stored
      `{timestamp, data}`, or non-empty text that `JSON.parse` rejects (with its
      message). An empty stored string is falsy and is never parsed, so it is `Empty`. */
  datatype Slot = Empty | Stored(timestamp: int, data: DashboardData) | Unreadable(parseError: string)

  /** The outcome of the dashboard request: the payload, or a failure message. */
  datatype Response = Received(data: DashboardData) | RequestFailed(message: string)

  /** The hook's `data`, `isLoading` and `error`, with the storage slot. */
  datatype View = View(data: Option<DashboardData>, isLoading: bool, error: Option<string>, slot: Slot)

  /** The view after `loadData`, and whether it called the server. */
  datatype Load = Load(view: View, fetched: bool)

  /** A stored entry younger than the expiration window (strictly). */
  predicate IsFresh(slot: Slot, now: int)
  {
    slot.Stored? && now - slot.timestamp < CacheExpiration
  }

  /**
   * `loadData` on values. It calls the server exactly when there is no entry or
   * the entry has expired; it always ends with `isLoading` false; the storage
   * entry changes only by a successful request, which writes the payload
   * stamped with `storeTime`; any failure leaves `data` as it was and sets
   * `error`.
   */
  function Loaded(v: View, now: int, storeTime: int, response: Response): (r: Load)
    ensures !r.view.isLoading
    ensures r.fetched <==> v.slot.Empty? || (v.slot.Stored? && now - v.slot.timestamp >= CacheExpiration)
    ensures r.view.slot != v.slot ==> r.fetched && response.Received? && r.view.slot == Stored(storeTime, response.data)
    ensures r.view.error == None <==> IsFresh(v.slot, now) || (r.fetched && response.Received?)
    ensures r.view.data != v.data ==> r.view.data.Some? && r.view.error == None
    ensures IsFresh(v.slot, now) ==> r.view.data == Some(v.slot.data) && r.view.slot == v.slot
    ensures r.fetched && response.Received? ==>
              r.view == View(Some(response.data), false, None, Stored(storeTime, response.data))
  {
    if v.slot.Unreadable? then
      Load(v.(isLoading := false, error := Some(ErrorPrefix + v.slot.parseError)), false)
    else if IsFresh(v.slot, now) then
      Load(v.(data := Some(v.slot.data), isLoading := false, error := None), false)
    else
      match response
      case RequestFailed(message) => Load(v.(isLoading := false, error := Some(ErrorPrefix + message)), true)
      case Received(payload) =>
        Load(View(Some(payload), false, None, Stored(storeTime, payload)), true)
  }

  /** A fresh entry is served as is and the server is not called. */
  lemma FreshEntryServed(v: View, now: int, storeTime: int, response: Response)
    requires IsFresh(v.slot, now)
    ensures Loaded(v, now, storeTime, response) == Load(View(Some(v.slot.data), false, None, v.slot), false)
  {
  }

  /**
   * An entry written at `t` is served without a request at any `t2` with
   * `t2 - t` below the window, and is fetched again once the window has
   * passed (an age of exactly the window already counts as expired).
   */
  lemma CacheFreshness(v: View, t: int, t2: int, storeTime: int, response: Response)
    requires v.slot.Stored? && v.slot.timestamp == t
    ensures !Loaded(v, t2, storeTime, response).fetched <==> t2 - t < CacheExpiration
    ensures Loaded(v, t + 3600000, storeTime, response).fetched
  {
  }

  /** After a successful request, a load within the hour returns the same
      payload without calling the server again, whatever it would answer. */
  lemma RefreshThenHit(v: View, now: int, storeTime: int, response: Response, later: int, laterStore: int, laterResponse: Response)
    requires !IsFresh(v.slot, now) && !v.slot.Unreadable? && response.Received?
    requires later - storeTime < CacheExpiration
    ensures var first := Loaded(v, now, storeTime, response);
            var second := Loaded(first.view, later, laterStore, laterResponse);
            first.fetched && !second.fetched && second.view == first.view
  {
  }

  /** Without a fresh entry, a failed request leaves the storage entry and the
      data alone and sets the error. */
  lemma FailedFetchKeepsSlot(v: View, now: int, storeTime: int, message: string)
    requires !IsFresh(v.slot, now)
    ensures var r := Loaded(v, now, storeTime, RequestFailed(message));
            r.view.slot == v.slot && r.view.data == v.data && r.view.error.Some?
  {
  }

  /** The state of one `useCachedData` hook together with the browser storage it reads. */
  class DashboardLoader {
    var data: Option<DashboardData>
    var isLoading: bool
    var error: Option<string>
    var slot: Slot

    function CurrentView(): View
      reads this
    {
      View(data, isLoading, error, slot)
    }

    /** The hook's initial state: no data, loading, no error; storage as found. */
    constructor (stored: Slot)
      ensures CurrentView() == View(None, true, None, stored)
    {
      data := None;
      isLoading := true;
      error := None;
      slot := stored;
    }

    /** `loadData`: clear the error, serve a fresh entry or fetch and store. */
    method LoadData(now: int, storeTime: int, response: Response) returns (fetched: bool)
      modifies this
      ensures Load(CurrentView(), fetched) == Loaded(old(CurrentView()), now, storeTime, response)
    {
      isLoading := true;
      error := None;
      fetched := false;
      match slot {
        case Unreadable(message) =>
          error := Some(ErrorPrefix + message);
          isLoading := false;
          return;
        case Stored(timestamp, cached) =>
          if now - timestamp < CacheExpiration {
            data := Some(cached);
            isLoading := false;
            return;
          }
        case Empty =>
      }
      fetched := true;
      match response {
        case RequestFailed(message) =>
          error := Some(ErrorPrefix + message);
        case Received(payload) =>
          slot := Stored(storeTime, payload);
          data := Some(payload);
      }
      isLoading := false;
    }
  }
}
