# Billing dashboard: reconciliation, cache policy and client search

A Dafny model of the three pieces of logic in a small billing dashboard that
pulls companies and their equipment from an upstream inventory API.

- **Sync** (`sync.dfy`, from `backend/src/index.ts`). `syncDataFromServiceNav`
  is modelled as the class `Store`. The class holds the Client table (id to name)
  and the Equipment table (id to row) as map fields. Its method
  `SyncFromServiceNav` runs the same nested loops as the source. For each company
  it upserts the client, fetches the company's equipment and upserts each record.
  The upstream calls are inputs: the outcome of `fetchCompanies`, and a function
  from company id to the outcome of `fetchClientEquipment`. The method is proved
  equal to the value-level specification `Synced`. `Synced` is the list of
  upserts the loop performs (`Plan`), applied in order (`Apply`). The billable
  rule `IsBillable` is one pure function, used by both upsert branches. The query
  behind `GET /api/clients/:id/equipment` is `EquipmentOf`.
- **Cache policy** (`cached_data.dfy`, from
  `frontend/src/hooks/useCachedData.ts`). `loadData` is the method
  `DashboardLoader.LoadData`. It works over the hook's `data`/`isLoading`/`error`
  state and the single storage entry under the key `dashboardData`. It is proved
  equal to the pure function `Loaded`. The clock readings and the server's answer
  are parameters.
- **Client search** (`client_list.dfy`, from `frontend/src/pages/index.tsx`).
  `FilterClients` is the case-insensitive substring filter of `ClientList`.
  `BillablePercentCell` is the guard that shows "0%" when a client has no
  equipment.
- `text.dfy` holds ASCII lower/upper casing and the substring test.
  `types.dfy` holds the shapes from `frontend/src/types/index.ts`.

The cache window is the fixed constant 60·60·1000 ms
(`useCachedData.ts:6`). The `cacheExpiration` value edited on the settings page
(`frontend/src/pages/settings.tsx:6,34`) is never read by `useCachedData`, so it
has no effect on the window.

## Model

| member | source | states |
|---|---|---|
| Text.Lower | backend/src/index.ts:30 | `toLowerCase` keeps the length and lower-cases each character independently |
| Text.LowerMatchesIgnoringCase | backend/src/index.ts:30 | comparing a lower-cased string with an all-lower-case name is the same as comparing the two up to case, in both directions |
| Text.ContainsIffOccurs | frontend/src/pages/index.tsx:33 | `includes` holds exactly when the needle occurs at some offset of the haystack |
| Text.Contains | frontend/src/pages/index.tsx:33 | `includes` always finds the empty string, and never finds a needle longer than the haystack |
| Text.LowerOfUpper | frontend/src/pages/index.tsx:33 | lower-casing an upper-cased string gives the same result as lower-casing the original |
| Sync.IsBillable | backend/src/index.ts:30 | the billable rule: the lower-cased category is one of "serveur", "serveur linux", "serveur windows" (its meaning is stated by the next rows) |
| Sync.IsBillableIgnoresCase | backend/src/index.ts:30 | a category is billable iff it equals "serveur", "serveur linux" or "serveur windows" up to case |
| Sync.UpperCaseServerIsBillable | backend/src/index.ts:30 | "SERVEUR" is billable |
| Sync.MixedCaseLinuxServerIsBillable | backend/src/index.ts:30 | "Serveur Linux" is billable |
| Sync.RouterIsNotBillable | backend/src/index.ts:30 | "Routeur" is not billable |
| Sync.ClientUpserted | backend/src/index.ts:17-21 | after the client upsert, the company id maps to the company name; every other client is unchanged and the equipment table is untouched |
| Sync.EquipmentUpserted | backend/src/index.ts:25-39 | after the equipment upsert, the row has the record's host name and category, and its flag is the billable rule; an existing row keeps its client, a new row gets the current company's id; every other row is unchanged |
| Sync.Plan | backend/src/index.ts:16-40 | the run completes iff every company's equipment fetch succeeds, and its first write is the first company's client upsert (the full order is stated by `Sync.PlanListsEvery`) |
| Sync.EquipmentUpserts | backend/src/index.ts:24-25 | one equipment upsert per fetched record, in the listed order, each owned by the company's id |
| Sync.Synced | backend/src/index.ts:13-42 | a sync succeeds iff the company fetch and every equipment fetch succeed; a failed company fetch changes nothing |
| Sync.ApplyClosedForm | backend/src/index.ts:16-40 | any run of upserts leaves the clients overwritten by the last name written per id; each written equipment row has the last fields written, and its client is the old one if the row existed, else the first writer's |
| Sync.SyncIdempotent | backend/src/index.ts:13-42 | running the sync twice on the same upstream data gives the same store and outcome as running it once |
| Sync.SyncNeverDeletes | backend/src/index.ts:16-40 | a sync removes no client and no equipment row, and no existing equipment row changes client |
| Sync.EquipmentUpsertsKeepForeignKeys | backend/src/index.ts:24-40 | a company's equipment upserts, done after its client exists, keep every equipment row pointing at an existing client |
| Sync.SyncKeepsForeignKeys | backend/src/index.ts:16-40 | if every equipment row points at an existing client before a sync, the same holds after it, whether the sync succeeds or fails |
| Sync.EquipmentUpsertsKeepClients | backend/src/index.ts:24-40 | a company's equipment upserts leave the Client table unchanged |
| Sync.PlanLeavesOtherClients | backend/src/index.ts:16-21 | a client id that no company carries keeps its presence and its name through the loop |
| Sync.PlanStoresLastNames | backend/src/index.ts:16-21 | after a complete loop, each company id holds the name of the last company listed with that id |
| Sync.SyncUpsertsEveryCompany | backend/src/index.ts:16-21 | a sync that succeeds leaves a client row for every company it was given, holding the name of the last company listed with that id, so a renamed company keeps its id and gets the new name |
| Sync.ApplyStoresEveryWrite | backend/src/index.ts:25-39 | every equipment upsert in a run of writes leaves a row under its record's id |
| Sync.ApplyStoresLastWrite | backend/src/index.ts:27-31 | the last upsert of an id fixes that row's name, category and billable flag |
| Sync.ApplyOwnsNewRowByFirstWrite | backend/src/index.ts:32-37 | a row the store did not have gets as client the owner named by the first upsert of its id, which creates it |
| Sync.PlanListsEvery | backend/src/index.ts:16-40 | a complete run upserts every company's client and, right after it, each fetched record of that company in the listed order, owned by the company's id |
| Sync.PlanWritesOnlyListed | backend/src/index.ts:16-40 | every write of the run is a listed company, or a record fetched for a listed company and owned by that company's id |
| Sync.PlanStoresRecord | backend/src/index.ts:23-39 | after a complete run, the store holds a row for each fetched record of each company |
| Sync.SyncStoresEveryRecord | backend/src/index.ts:13-42 | a sync that succeeds stores a row under the id of every record fetched for every company |
| Sync.SyncStoresLastListing | backend/src/index.ts:16-40 | after a sync, the last record the loop visits for an id fixes the stored name, category and flag, and a row new to the store belongs to the company whose listing visited its id first; this holds for the writes made before a failed fetch too |
| Sync.ApplyKeepsFlags | backend/src/index.ts:25-39 | any run of upserts keeps every stored row's flag equal to the billable rule applied to its category |
| Sync.SyncKeepsBillableFlags | backend/src/index.ts:13-42 | if every stored flag follows the billable rule before a sync, it does after it, whether the sync succeeds or fails |
| Sync.EquipmentOf | backend/src/index.ts:63-68 | the per-client query returns exactly the stored rows whose client id is the requested one, unchanged |
| Sync.UnknownClientHasNoEquipment | backend/src/index.ts:63-68 | with foreign keys intact, an id with no client row gets an empty result, not an error |
| Sync.EquipmentOfCoversStore | backend/src/index.ts:63-68 | with foreign keys intact, every stored row appears in the list of some existing client |
| Sync.Store.UpsertClient | backend/src/index.ts:17-21 | the client upsert on the tables is `ClientUpserted`, and it returns the company's id |
| Sync.Store.UpsertEquipment | backend/src/index.ts:25-39 | the equipment upsert on the tables is `EquipmentUpserted` |
| Sync.Store.SyncFromServiceNav | backend/src/index.ts:13-42 | the nested loops leave the tables as `Synced` describes and report success exactly when every fetch succeeded (the contract of `Synced`) |
| ClientList.FilterClients | frontend/src/pages/index.tsx:31-35 | the filtered list is no longer than the input, and each client in it is from the input and matches the term |
| ClientList.FilterKeepsExactlyMatches | frontend/src/pages/index.tsx:31-35 | each matching client is kept as many times as it occurs, and each non-matching client is dropped |
| ClientList.FilterMembership | frontend/src/pages/index.tsx:32-33 | a client is in the filtered list iff it is in the input and its lower-cased name contains the lower-cased term |
| ClientList.FilterDistributes | frontend/src/pages/index.tsx:32 | filtering a concatenation is the concatenation of the filtered parts, so the original order is kept |
| ClientList.FilterIsSubsequence | frontend/src/pages/index.tsx:32 | the filtered list is a subsequence of the input |
| ClientList.EmptyTermKeepsAll | frontend/src/pages/index.tsx:33 | an empty search term returns the whole list |
| ClientList.FilterIgnoresTermCase | frontend/src/pages/index.tsx:33 | a term and its upper-cased form give the same list |
| ClientList.FilterIdempotent | frontend/src/pages/index.tsx:31-35 | filtering an already filtered list with the same term changes nothing |
| ClientList.BillablePercentCell | frontend/src/pages/index.tsx:66-68 | the cell is "0%" exactly when the equipment count is not positive; otherwise it is the ratio billable/total with a positive divisor |
| CachedData.IsFresh | frontend/src/hooks/useCachedData.ts:20-22 | an entry is fresh when it exists and its age is strictly below the window |
| CachedData.Loaded | frontend/src/hooks/useCachedData.ts:14-43 | `loadData` calls the server exactly when there is no entry or the entry is at least the window old; it always ends not loading; a fresh entry's data is served and the entry kept; a successful request sets the data to the payload, clears the error and stores the payload stamped with the store time; the entry changes in no other case; the error is clear exactly when cached data was served or the request succeeded; data changes only to a value, with no error |
| CachedData.FreshEntryServed | frontend/src/hooks/useCachedData.ts:19-26 | a fresh entry's data is served, the error is clear, the entry is unchanged and no request is made |
| CachedData.CacheFreshness | frontend/src/hooks/useCachedData.ts:20-29 | an entry stamped t is served without a request at t2 iff t2 - t < 3600000; an age of exactly 3600000 refetches |
| CachedData.RefreshThenHit | frontend/src/hooks/useCachedData.ts:19-37 | after a successful request, a load within the window returns the same view without a request, whatever the server would answer |
| CachedData.FailedFetchKeepsSlot | frontend/src/hooks/useCachedData.ts:29-42 | without a fresh entry, a failed request leaves the entry and the data alone and sets the error |
| CachedData.DashboardLoader.constructor | frontend/src/hooks/useCachedData.ts:9-11 | the hook starts with no data, loading, and no error |
| CachedData.DashboardLoader.LoadData | frontend/src/hooks/useCachedData.ts:14-43 | the stepwise `loadData` leaves the state and the storage entry as `Loaded` describes, and reports whether it fetched |

## Left out

- HTTP routing, CORS, JSON bodies and `app.listen` (`backend/src/index.ts:1-10,44-52,80-83`) are not modelled. A failed sync is reported by the `succeeded` result; the 500 response itself is not modelled.
- The ORM is not modelled. Each upsert is an atomic map update, and a failing database write is not modelled. Only a failing upstream fetch aborts the sync here.
- `fetchCompanies` and `fetchClientEquipment` are network calls. Their results are inputs. Equipment records keep only `id`, `Host Name` and `Category Name`, the fields the sync reads.
- Two overlapping sync requests, and their interleaving, are not modelled.
- `GET /api/clients` (`backend/src/index.ts:55-60`) is not modelled. It only returns the tables as they are.
- Invoice creation (`backend/src/index.ts:72-78`) is not modelled. It is one insert plus date parsing by the runtime library.
- Sync.EquipmentOf: returns the rows keyed by equipment id. The order in which the database returns them is not modelled.
- ClientList.FilterIgnoresTermCase: holds only for the ASCII casing of the model. In JavaScript `"ß".toUpperCase()` is `"SS"`, so the source keeps a client named "Straße" for the term "ß" but drops it for the term's upper-cased form "SS".
- Text.LowerOfUpper: holds only for ASCII letters, for the same reason (`"ß"` upper-cases to `"SS"`, which lower-cases to `"ss"`). Text.Upper maps ASCII letters only.
- Text.Lower: covers ASCII letters only. JavaScript's Unicode case mapping (which can change a string's length) is not modelled.
- `JSON.parse`/`JSON.stringify` and `localStorage` are not modelled. The storage entry is a value: absent, a stored timestamp with data, or non-empty text that `JSON.parse` rejects. An empty stored string is falsy, so the source never parses it and fetches; the model treats it as absent. A stored timestamp that is not a number is not modelled. A `localStorage.setItem` that throws (for example, storage full) is not modelled.
- `Date.now()` becomes two parameters: the reading when the entry is checked and the reading when the new entry is written.
- React state and effect scheduling are not modelled. Each state setter is a field assignment, and `loadData` runs once per call to `LoadData`.
- The `toFixed(1)` floating-point formatting of the percentage is not modelled. Only the zero guard and the ratio it divides are.
- The dashboard and settings endpoints are not modelled. Neither appears in `backend/src/index.ts`, so no derived totals or price settings are modelled.
- The client detail page is not modelled. Its display-time billable check (`frontend/src/pages/clients/[id].tsx:7,29,81-86`) repeats the rule of `backend/src/index.ts:30` word for word, so `Sync.IsBillable` describes it too. Its revenue figure, billable count times 9 (line 87), is not modelled.
- The billing chart, the settings page, the navigation bar and the proxy configuration are not modelled. They are rendering or configuration with no logic to state.
