/**
 * The backend's reconciliation of the upstream inventory into the Client and
 * Equipment tables (backend/src/index.ts): the billable rule, the two upserts,
 * the sync loop over companies and their equipment, and the per-client
 * equipment query.
 *
 * The tables are maps keyed by external id. The upstream API calls are inputs:
 * the outcome of `fetchCompanies` and, per company id, the outcome of
 * `fetchClientEquipment`.
 */
module Sync {
  import opened Text

  /** A company as the upstream API lists it. */
  datatype Company = Company(id: string, name: string)

  /** An upstream equipment record, reduced to the fields the sync reads
      (`id`, `Host Name`, `Category Name`). */
  datatype SourceEquipment = SourceEquipment(id: string, hostName: string, categoryName: string)

  /** The outcome of one upstream call: its result, or a thrown error. */
  datatype Fetch<T> = Fetched(value: T) | FetchFailed

  /** A stored Equipment row; its id is the key it is stored under. */
  datatype EquipmentRow = EquipmentRow(name: string, category: string, isBillable: bool, clientId: string)

  /** The Client table (id to name) and the Equipment table (id to row). */
  datatype Db = Db(clients: map<string, string>, equipment: map<string, EquipmentRow>)

  /** The lower-case category names that are billed. */
  const BillableCategories: set<string> := {"serveur", "serveur linux", "serveur windows"}

  /** The billable rule: the lower-cased category name is one of the billed ones. */
  function IsBillable(category: string): bool
  {
    Lower(category) in BillableCategories
  }

  /** The billable rule read as "equal, up to case, to one of the billed names". */
  lemma IsBillableIgnoresCase(category: string)
    ensures IsBillable(category) <==>
              EqualIgnoringCase(category, "serveur")
              || EqualIgnoringCase(category, "serveur linux")
              || EqualIgnoringCase(category, "serveur windows")
  {
    assert IsLowerCase("serveur");
    assert IsLowerCase("serveur linux");
    assert IsLowerCase("serveur windows");
    LowerMatchesIgnoringCase(category, "serveur");
    LowerMatchesIgnoringCase(category, "serveur linux");
    LowerMatchesIgnoringCase(category, "serveur windows");
  }

  /** An upper-case server category is billed. */
  lemma UpperCaseServerIsBillable()
    ensures IsBillable("SERVEUR")
  {
    assert EqualIgnoringCase("SERVEUR", "serveur");
    IsBillableIgnoresCase("SERVEUR");
  }

  /** A mixed-case Linux server category is billed. */
  lemma MixedCaseLinuxServerIsBillable()
    ensures IsBillable("Serveur Linux")
  {
    assert EqualIgnoringCase("Serveur Linux", "serveur linux");
    IsBillableIgnoresCase("Serveur Linux");
  }

  /** A router is not billed. */
  lemma RouterIsNotBillable()
    ensures !IsBillable("Routeur")
  {
  }

  /** `prisma.client.upsert`: the company's id now maps to its name; nothing
      else changes. */
  function ClientUpserted(db: Db, company: Company): (r: Db)
    ensures r.clients.Keys == db.clients.Keys + {company.id}
    ensures r.clients[company.id] == company.name
    ensures forall k :: k in db.clients && k != company.id ==> r.clients[k] == db.clients[k]
    ensures r.equipment == db.equipment
  {
    Db(db.clients[company.id := company.name], db.equipment)
  }

  /**
   * `prisma.equipment.upsert`: an existing row gets the record's name, category
   * and billable flag and keeps its client; a new row also gets `owner` as its
   * client. Either way the flag is the billable rule applied to the category.
   */
  function EquipmentUpserted(db: Db, record: SourceEquipment, owner: string): (r: Db)
    ensures r.clients == db.clients
    ensures r.equipment.Keys == db.equipment.Keys + {record.id}
    ensures r.equipment[record.id].name == record.hostName
    ensures r.equipment[record.id].category == record.categoryName
    ensures r.equipment[record.id].isBillable == IsBillable(record.categoryName)
    ensures record.id in db.equipment ==> r.equipment[record.id].clientId == db.equipment[record.id].clientId
    ensures record.id !in db.equipment ==> r.equipment[record.id].clientId == owner
    ensures forall k :: k in db.equipment && k != record.id ==> r.equipment[k] == db.equipment[k]
  {
    var row :=
      if record.id in db.equipment then
        db.equipment[record.id].(name := record.hostName,
                                 category := record.categoryName,
                                 isBillable := IsBillable(record.categoryName))
      else
        EquipmentRow(record.hostName, record.categoryName, IsBillable(record.categoryName), owner);
    Db(db.clients, db.equipment[record.id := row])
  }

  /** One store write performed by the sync. */
  datatype Upsert = ClientUpsert(company: Company) | EquipmentUpsert(record: SourceEquipment, owner: string)

  function Step(db: Db, op: Upsert): Db
  {
    match op
    case ClientUpsert(c) => ClientUpserted(db, c)
    case EquipmentUpsert(e, owner) => EquipmentUpserted(db, e, owner)
  }

  /** Performs the writes in order. */
  function Apply(db: Db, ops: seq<Upsert>): Db
    decreases |ops|
  {
    if ops == [] then db else Apply(Step(db, ops[0]), ops[1..])
  }

  /** The equipment writes for one company's records, all owned by `owner`. */
  function EquipmentUpserts(records: seq<SourceEquipment>, owner: string): (r: seq<Upsert>)
    ensures |r| == |records|
    ensures forall n :: 0 <= n < |records| ==> r[n] == EquipmentUpsert(records[n], owner)
  {
    if records == [] then [] else [EquipmentUpsert(records[0], owner)] + EquipmentUpserts(records[1..], owner)
  }

  /** The writes a sync performs, and whether it got through every company. */
  datatype Run = Run(ops: seq<Upsert>, completed: bool)

  /**
   * The writes of the sync loop over `companies`: per company, the client
   * upsert, then (if its equipment could be fetched) one upsert per record.
   * A failed equipment fetch ends the run; what was written stays written.
   */
  function Plan(companies: seq<Company>, equipmentOf: string -> Fetch<seq<SourceEquipment>>): (r: Run)
    ensures r.completed <==> forall c :: c in companies ==> equipmentOf(c.id).Fetched?
    ensures companies != [] ==> |r.ops| > 0 && r.ops[0] == ClientUpsert(companies[0])
  {
    if companies == [] then Run([], true)
    else
      var c := companies[0];
      match equipmentOf(c.id)
      case FetchFailed => Run([ClientUpsert(c)], false)
      case Fetched(records) =>
        var rest := Plan(companies[1..], equipmentOf);
        Run([ClientUpsert(c)] + EquipmentUpserts(records, c.id) + rest.ops, rest.completed)
  }

  /** `Plan` unfolded at the `i`-th company. */
  lemma PlanAt(companies: seq<Company>, i: nat, equipmentOf: string -> Fetch<seq<SourceEquipment>>)
    requires i < |companies|
    ensures var c := companies[i];
      Plan(companies[i..], equipmentOf) ==
        match equipmentOf(c.id)
        case FetchFailed => Run([ClientUpsert(c)], false)
        case Fetched(records) =>
          Run([ClientUpsert(c)] + EquipmentUpserts(records, c.id) + Plan(companies[i + 1..], equipmentOf).ops,
              Plan(companies[i + 1..], equipmentOf).completed)
  {
  }

  lemma EquipmentUpsertsAt(records: seq<SourceEquipment>, j: nat, owner: string)
    requires j < |records|
    ensures EquipmentUpserts(records[j..], owner) == [EquipmentUpsert(records[j], owner)] + EquipmentUpserts(records[j + 1..], owner)
  {
  }

  /** The store after a sync and whether the sync succeeded (the HTTP 500 otherwise). */
  datatype SyncOutcome = SyncOutcome(db: Db, succeeded: bool)

  /** `syncDataFromServiceNav` on values. */
  function Synced(db: Db, companies: Fetch<seq<Company>>, equipmentOf: string -> Fetch<seq<SourceEquipment>>): (r: SyncOutcome)
    ensures r.succeeded <==> companies.Fetched? && forall c :: c in companies.value ==> equipmentOf(c.id).Fetched?
    ensures companies.FetchFailed? ==> r.db == db
  {
    match companies
    case FetchFailed => SyncOutcome(db, false)
    case Fetched(cs) =>
      var run := Plan(cs, equipmentOf);
      SyncOutcome(Apply(db, run.ops), run.completed)
  }

  lemma {:induction false} ApplyAppend(db: Db, a: seq<Upsert>, b: seq<Upsert>)
    ensures Apply(db, a + b) == Apply(Apply(db, a), b)
    decreases |a|
  {
    if a == [] {
      assert a + b == b;
    } else {
      assert (a + b)[0] == a[0];
      assert (a + b)[1..] == a[1..] + b;
      ApplyAppend(Step(db, a[0]), a[1..], b);
    }
  }

  // ---------------------------------------------------------------------------
  // Closed form of a sequence of writes
  // ---------------------------------------------------------------------------

  /** Client names written by `ops`, the last write for each id winning. */
  function ClientWrites(ops: seq<Upsert>): map<string, string>
    decreases |ops|
  {
    if ops == [] then map[]
    else match ops[0]
      case ClientUpsert(c) => map[c.id := c.name] + ClientWrites(ops[1..])
      case EquipmentUpsert(_, _) => ClientWrites(ops[1..])
  }

  /**
   * Equipment written by `ops`: for each id, the fields of the last write and,
   * as `clientId`, the owner named by the first write (the one that would
   * create the row).
   */
  function EquipmentWrites(ops: seq<Upsert>): map<string, EquipmentRow>
    decreases |ops|
  {
    if ops == [] then map[]
    else
      var w := EquipmentWrites(ops[1..]);
      match ops[0]
      case ClientUpsert(_) => w
      case EquipmentUpsert(e, owner) => WriteEquipment(w, e, owner)
  }

  /** Rows of `w` laid over `m`, where a row already in `m` keeps its client. */
  function Merge(m: map<string, EquipmentRow>, w: map<string, EquipmentRow>): map<string, EquipmentRow>
  {
    map k | k in m.Keys + w.Keys ::
      if k in w then w[k].(clientId := if k in m then m[k].clientId else w[k].clientId) else m[k]
  }

  /** Any sequence of writes leaves the tables in the closed form above. */
  lemma ApplyClosedForm(db: Db, ops: seq<Upsert>)
    ensures Apply(db, ops) == Db(db.clients + ClientWrites(ops), Merge(db.equipment, EquipmentWrites(ops)))
  {
    ApplyClients(db, ops);
    ApplyEquipment(db, ops);
  }

  lemma {:induction false} ApplyClients(db: Db, ops: seq<Upsert>)
    ensures Apply(db, ops).clients == db.clients + ClientWrites(ops)
    decreases |ops|
  {
    if ops == [] {
      assert db.clients + map[] == db.clients;
    } else {
      var s := Step(db, ops[0]);
      var rest := ops[1..];
      assert Apply(db, ops) == Apply(s, rest);
      ApplyClients(s, rest);
      if ops[0].ClientUpsert? {
        var c := ops[0].company;
        assert ClientWrites(ops) == map[c.id := c.name] + ClientWrites(rest);
        UpdateThenUnion(db.clients, c.id, c.name, ClientWrites(rest));
      } else {
        assert ClientWrites(ops) == ClientWrites(rest);
      }
    }
  }

  lemma UpdateThenUnion(m: map<string, string>, k: string, v: string, w: map<string, string>)
    ensures m[k := v] + w == m + (map[k := v] + w)
  {
  }

  lemma {:induction false} ApplyEquipment(db: Db, ops: seq<Upsert>)
    ensures Apply(db, ops).equipment == Merge(db.equipment, EquipmentWrites(ops))
    decreases |ops|
  {
    if ops == [] {
      MergeNothing(db.equipment);
    } else {
      var s := Step(db, ops[0]);
      var rest := ops[1..];
      assert Apply(db, ops) == Apply(s, rest);
      ApplyEquipment(s, rest);
      if ops[0].EquipmentUpsert? {
        var e, owner := ops[0].record, ops[0].owner;
        assert EquipmentWrites(ops) == WriteEquipment(EquipmentWrites(rest), e, owner);
        MergeAfterUpsert(db, e, owner, EquipmentWrites(rest));
      } else {
        assert EquipmentWrites(ops) == EquipmentWrites(rest);
      }
    }
  }

  lemma MergeNothing(m: map<string, EquipmentRow>)
    ensures Merge(m, map[]) == m
  {
  }

  /** One equipment write placed in front of the writes `w`. */
  function WriteEquipment(w: map<string, EquipmentRow>, e: SourceEquipment, owner: string): map<string, EquipmentRow>
  {
    if e.id in w then w[e.id := w[e.id].(clientId := owner)]
    else w[e.id := EquipmentRow(e.hostName, e.categoryName, IsBillable(e.categoryName), owner)]
  }

  lemma MergeAfterUpsert(db: Db, e: SourceEquipment, owner: string, w: map<string, EquipmentRow>)
    ensures Merge(EquipmentUpserted(db, e, owner).equipment, w) == Merge(db.equipment, WriteEquipment(w, e, owner))
  {
  }

  /** Laying the same writes over a merged table a second time changes nothing. */
  lemma MergeIdempotent(m: map<string, EquipmentRow>, w: map<string, EquipmentRow>)
    ensures Merge(Merge(m, w), w) == Merge(m, w)
  {
  }

  // ---------------------------------------------------------------------------
  // Properties of a whole sync
  // ---------------------------------------------------------------------------

  /** Running the sync twice on the same upstream data gives the same store
      (and the same outcome) as running it once. */
  lemma SyncIdempotent(db: Db, companies: Fetch<seq<Company>>, equipmentOf: string -> Fetch<seq<SourceEquipment>>)
    ensures Synced(Synced(db, companies, equipmentOf).db, companies, equipmentOf) == Synced(db, companies, equipmentOf)
  {
    if companies.Fetched? {
      var ops := Plan(companies.value, equipmentOf).ops;
      var once := Apply(db, ops);
      ApplyClosedForm(db, ops);
      ApplyClosedForm(once, ops);
      MergeIdempotent(db.equipment, EquipmentWrites(ops));
      assert once.clients + ClientWrites(ops) == once.clients;
    }
  }

  /** A sync deletes no client and no equipment, and no equipment row that
      existed before changes client. */
  lemma SyncNeverDeletes(db: Db, companies: Fetch<seq<Company>>, equipmentOf: string -> Fetch<seq<SourceEquipment>>)
    ensures db.clients.Keys <= Synced(db, companies, equipmentOf).db.clients.Keys
    ensures db.equipment.Keys <= Synced(db, companies, equipmentOf).db.equipment.Keys
    ensures forall k :: k in db.equipment ==>
              Synced(db, companies, equipmentOf).db.equipment[k].clientId == db.equipment[k].clientId
  {
    if companies.Fetched? {
      ApplyClosedForm(db, Plan(companies.value, equipmentOf).ops);
    }
  }

  /** Every stored equipment row refers to a stored client. */
  predicate ForeignKeysHold(db: Db)
  {
    forall k :: k in db.equipment ==> db.equipment[k].clientId in db.clients
  }

  lemma {:induction false} EquipmentUpsertsKeepForeignKeys(db: Db, records: seq<SourceEquipment>, owner: string)
    requires ForeignKeysHold(db) && owner in db.clients
    ensures Apply(db, EquipmentUpserts(records, owner)).clients == db.clients
    ensures ForeignKeysHold(Apply(db, EquipmentUpserts(records, owner)))
    decreases |records|
  {
    if records != [] {
      var ops := EquipmentUpserts(records, owner);
      assert ops[0] == EquipmentUpsert(records[0], owner);
      assert ops[1..] == EquipmentUpserts(records[1..], owner);
      EquipmentUpsertsKeepForeignKeys(EquipmentUpserted(db, records[0], owner), records[1..], owner);
    }
  }

  lemma {:induction false} PlanKeepsForeignKeys(db: Db, companies: seq<Company>, equipmentOf: string -> Fetch<seq<SourceEquipment>>)
    requires ForeignKeysHold(db)
    ensures ForeignKeysHold(Apply(db, Plan(companies, equipmentOf).ops))
    decreases |companies|
  {
    if companies != [] {
      var c := companies[0];
      var db1 := ClientUpserted(db, c);
      assert Apply(db, [ClientUpsert(c)]) == db1;
      match equipmentOf(c.id)
      case FetchFailed =>
      case Fetched(records) => {
        var eqOps := EquipmentUpserts(records, c.id);
        var rest := Plan(companies[1..], equipmentOf).ops;
        EquipmentUpsertsKeepForeignKeys(db1, records, c.id);
        var db2 := Apply(db1, eqOps);
        PlanKeepsForeignKeys(db2, companies[1..], equipmentOf);
        ApplyAppend(db, [ClientUpsert(c)], eqOps);
        ApplyAppend(db, [ClientUpsert(c)] + eqOps, rest);
      }
    }
  }

  /** If every equipment row refers to an existing client before a sync, that
      still holds after it, whether or not the sync succeeded. */
  lemma SyncKeepsForeignKeys(db: Db, companies: Fetch<seq<Company>>, equipmentOf: string -> Fetch<seq<SourceEquipment>>)
    requires ForeignKeysHold(db)
    ensures ForeignKeysHold(Synced(db, companies, equipmentOf).db)
  {
    if companies.Fetched? {
      PlanKeepsForeignKeys(db, companies.value, equipmentOf);
    }
  }

  lemma {:induction false} PlanUpsertsEveryCompany(db: Db, companies: seq<Company>, equipmentOf: string -> Fetch<seq<SourceEquipment>>)
    requires Plan(companies, equipmentOf).completed
    ensures forall c :: c in companies ==> c.id in Apply(db, Plan(companies, equipmentOf).ops).clients
    decreases |companies|
  {
    if companies != [] {
      var c := companies[0];
      var records := equipmentOf(c.id).value;
      var eqOps := EquipmentUpserts(records, c.id);
      var rest := Plan(companies[1..], equipmentOf).ops;
      ApplyAppend(db, [ClientUpsert(c)], eqOps);
      ApplyAppend(db, [ClientUpsert(c)] + eqOps, rest);
      var db2 := Apply(db, [ClientUpsert(c)] + eqOps);
      ApplyClosedForm(ClientUpserted(db, c), eqOps);
      ApplyClosedForm(db2, rest);
      PlanUpsertsEveryCompany(db2, companies[1..], equipmentOf);
    }
  }

  /** Equipment upserts leave the Client table alone. */
  lemma {:induction false} EquipmentUpsertsKeepClients(db: Db, records: seq<SourceEquipment>, owner: string)
    ensures Apply(db, EquipmentUpserts(records, owner)).clients == db.clients
    decreases |records|
  {
    if records != [] {
      var ops := EquipmentUpserts(records, owner);
      assert ops[0] == EquipmentUpsert(records[0], owner);
      assert ops[1..] == EquipmentUpserts(records[1..], owner);
      EquipmentUpsertsKeepClients(EquipmentUpserted(db, records[0], owner), records[1..], owner);
    }
  }

  /** A client id that no company carries is left as it was by the sync loop. */
  lemma {:induction false} PlanLeavesOtherClients(db: Db, companies: seq<Company>, equipmentOf: string -> Fetch<seq<SourceEquipment>>, k: string)
    requires forall c :: c in companies ==> c.id != k
    ensures k in Apply(db, Plan(companies, equipmentOf).ops).clients <==> k in db.clients
    ensures k in db.clients ==> Apply(db, Plan(companies, equipmentOf).ops).clients[k] == db.clients[k]
    decreases |companies|
  {
    if companies != [] {
      var c := companies[0];
      var db1 := ClientUpserted(db, c);
      assert Apply(db, [ClientUpsert(c)]) == db1;
      match equipmentOf(c.id)
      case FetchFailed =>
      case Fetched(records) => {
        var eqOps := EquipmentUpserts(records, c.id);
        var rest := Plan(companies[1..], equipmentOf).ops;
        EquipmentUpsertsKeepClients(db1, records, c.id);
        var db2 := Apply(db1, eqOps);
        PlanLeavesOtherClients(db2, companies[1..], equipmentOf, k);
        ApplyAppend(db, [ClientUpsert(c)], eqOps);
        ApplyAppend(db, [ClientUpsert(c)] + eqOps, rest);
      }
    }
  }

  /** No company after position `i` carries the id of `companies[i]`. */
  predicate LastWithId(companies: seq<Company>, i: int)
    requires 0 <= i < |companies|
  {
    forall j :: i < j < |companies| ==> companies[j].id != companies[i].id
  }

  /** After a complete run, each company id is stored with the name of the last
      company that carries it. */
  lemma {:induction false} PlanStoresLastNames(db: Db, companies: seq<Company>, equipmentOf: string -> Fetch<seq<SourceEquipment>>)
    requires Plan(companies, equipmentOf).completed
    ensures forall i :: 0 <= i < |companies| && LastWithId(companies, i) ==>
              companies[i].id in Apply(db, Plan(companies, equipmentOf).ops).clients
              && Apply(db, Plan(companies, equipmentOf).ops).clients[companies[i].id] == companies[i].name
    decreases |companies|
  {
    if companies != [] {
      var c := companies[0];
      var records := equipmentOf(c.id).value;
      var eqOps := EquipmentUpserts(records, c.id);
      var tail := companies[1..];
      var rest := Plan(tail, equipmentOf).ops;
      ApplyAppend(db, [ClientUpsert(c)], eqOps);
      ApplyAppend(db, [ClientUpsert(c)] + eqOps, rest);
      var db1 := ClientUpserted(db, c);
      assert Apply(db, [ClientUpsert(c)]) == db1;
      EquipmentUpsertsKeepClients(db1, records, c.id);
      var db2 := Apply(db1, eqOps);
      var after := Apply(db, Plan(companies, equipmentOf).ops);
      assert after == Apply(db2, rest);
      PlanStoresLastNames(db2, tail, equipmentOf);
      forall i | 0 <= i < |companies| && LastWithId(companies, i)
        ensures companies[i].id in after.clients && after.clients[companies[i].id] == companies[i].name
      {
        if i == 0 {
          forall d | d in tail
            ensures d.id != c.id
          {
            var j :| 0 <= j < |tail| && tail[j] == d;
            assert companies[j + 1] == d;
          }
          PlanLeavesOtherClients(db2, tail, equipmentOf, c.id);
        } else {
          assert tail[i - 1] == companies[i];
          assert LastWithId(tail, i - 1) by {
            forall j | i - 1 < j < |tail|
              ensures tail[j].id != tail[i - 1].id
            {
              assert tail[j] == companies[j + 1];
            }
          }
        }
      }
    }
  }

  /**
   * A sync that succeeds leaves a client row for every company it was given,
   * holding the name of the last company listed with that id (so a renamed
   * company is renamed in place, under the same id).
   */
  lemma SyncUpsertsEveryCompany(db: Db, companies: Fetch<seq<Company>>, equipmentOf: string -> Fetch<seq<SourceEquipment>>)
    requires Synced(db, companies, equipmentOf).succeeded
    ensures forall c :: c in companies.value ==> c.id in Synced(db, companies, equipmentOf).db.clients
    ensures forall i :: 0 <= i < |companies.value| && LastWithId(companies.value, i) ==>
              Synced(db, companies, equipmentOf).db.clients[companies.value[i].id] == companies.value[i].name
  {
    PlanUpsertsEveryCompany(db, companies.value, equipmentOf);
    PlanStoresLastNames(db, companies.value, equipmentOf);
  }

  // ---------------------------------------------------------------------------
  // The equipment a sync writes
  // ---------------------------------------------------------------------------

  /** `ops[i]` is an equipment write and no later write has the same id. */
  predicate LastEquipmentWrite(ops: seq<Upsert>, i: int)
    requires 0 <= i < |ops|
  {
    ops[i].EquipmentUpsert?
    && forall j :: i < j < |ops| && ops[j].EquipmentUpsert? ==> ops[j].record.id != ops[i].record.id
  }

  /** `ops[i]` is an equipment write and no earlier write has the same id. */
  predicate FirstEquipmentWrite(ops: seq<Upsert>, i: int)
    requires 0 <= i < |ops|
  {
    ops[i].EquipmentUpsert?
    && forall j :: 0 <= j < i && ops[j].EquipmentUpsert? ==> ops[j].record.id != ops[i].record.id
  }

  lemma {:induction false} EquipmentWritesOnlyWritten(ops: seq<Upsert>, k: string)
    requires forall j :: 0 <= j < |ops| && ops[j].EquipmentUpsert? ==> ops[j].record.id != k
    ensures k !in EquipmentWrites(ops)
    decreases |ops|
  {
    if ops != [] {
      EquipmentWritesOnlyWritten(ops[1..], k);
    }
  }

  lemma {:induction false} EquipmentWritesCover(ops: seq<Upsert>, i: int)
    requires 0 <= i < |ops| && ops[i].EquipmentUpsert?
    ensures ops[i].record.id in EquipmentWrites(ops)
    decreases |ops|
  {
    if i > 0 {
      EquipmentWritesCover(ops[1..], i - 1);
    }
  }

  lemma {:induction false} EquipmentWritesLast(ops: seq<Upsert>, i: int)
    requires 0 <= i < |ops| && LastEquipmentWrite(ops, i)
    ensures var e := ops[i].record;
      e.id in EquipmentWrites(ops)
      && EquipmentWrites(ops)[e.id].name == e.hostName
      && EquipmentWrites(ops)[e.id].category == e.categoryName
      && EquipmentWrites(ops)[e.id].isBillable == IsBillable(e.categoryName)
    decreases |ops|
  {
    if i == 0 {
      EquipmentWritesOnlyWritten(ops[1..], ops[0].record.id);
    } else {
      assert LastEquipmentWrite(ops[1..], i - 1);
      EquipmentWritesLast(ops[1..], i - 1);
    }
  }

  lemma {:induction false} EquipmentWritesFirst(ops: seq<Upsert>, i: int)
    requires 0 <= i < |ops| && FirstEquipmentWrite(ops, i)
    ensures ops[i].record.id in EquipmentWrites(ops)
    ensures EquipmentWrites(ops)[ops[i].record.id].clientId == ops[i].owner
    decreases |ops|
  {
    EquipmentWritesCover(ops, i);
    if i > 0 {
      assert FirstEquipmentWrite(ops[1..], i - 1);
      EquipmentWritesFirst(ops[1..], i - 1);
    }
  }

  /** Every equipment write leaves a row under its id. */
  lemma ApplyStoresEveryWrite(db: Db, ops: seq<Upsert>, i: int)
    requires 0 <= i < |ops| && ops[i].EquipmentUpsert?
    ensures ops[i].record.id in Apply(db, ops).equipment
  {
    ApplyClosedForm(db, ops);
    EquipmentWritesCover(ops, i);
  }

  /** The last write of an id fixes the row's name, category and billable flag. */
  lemma ApplyStoresLastWrite(db: Db, ops: seq<Upsert>, i: int)
    requires 0 <= i < |ops| && LastEquipmentWrite(ops, i)
    ensures var e := ops[i].record;
      var rows := Apply(db, ops).equipment;
      e.id in rows
      && rows[e.id].name == e.hostName
      && rows[e.id].category == e.categoryName
      && rows[e.id].isBillable == IsBillable(e.categoryName)
  {
    ApplyClosedForm(db, ops);
    EquipmentWritesLast(ops, i);
  }

  /** A row the store did not have belongs to the owner named by the first write of its id. */
  lemma ApplyOwnsNewRowByFirstWrite(db: Db, ops: seq<Upsert>, i: int)
    requires 0 <= i < |ops| && FirstEquipmentWrite(ops, i)
    ensures ops[i].record.id in Apply(db, ops).equipment
    ensures ops[i].record.id !in db.equipment ==>
              Apply(db, ops).equipment[ops[i].record.id].clientId == ops[i].owner
  {
    ApplyClosedForm(db, ops);
    EquipmentWritesFirst(ops, i);
  }

  /**
   * From position `i`, `ops` holds the client upsert of `c` immediately
   * followed by one equipment upsert per record, in the order listed, each
   * owned by `c`'s id.
   */
  predicate ListsCompanyAt(ops: seq<Upsert>, c: Company, records: seq<SourceEquipment>, i: int)
  {
    0 <= i && i + |records| < |ops| && ops[i] == ClientUpsert(c)
    && forall n :: 0 <= n < |records| ==> ops[i + 1 + n] == EquipmentUpsert(records[n], c.id)
  }

  predicate ListsCompany(ops: seq<Upsert>, c: Company, records: seq<SourceEquipment>)
  {
    exists i | 0 <= i < |ops| :: ListsCompanyAt(ops, c, records, i)
  }

  lemma ListsCompanyHead(c: Company, records: seq<SourceEquipment>, rest: seq<Upsert>)
    ensures ListsCompanyAt([ClientUpsert(c)] + EquipmentUpserts(records, c.id) + rest, c, records, 0)
  {
    var ops := [ClientUpsert(c)] + EquipmentUpserts(records, c.id) + rest;
    forall n | 0 <= n < |records|
      ensures ops[0 + 1 + n] == EquipmentUpsert(records[n], c.id)
    {
      assert ops[1 + n] == EquipmentUpserts(records, c.id)[n];
    }
  }

  lemma ListsCompanyShift(pre: seq<Upsert>, ops: seq<Upsert>, c: Company, records: seq<SourceEquipment>, i: int)
    requires ListsCompanyAt(ops, c, records, i)
    ensures ListsCompanyAt(pre + ops, c, records, |pre| + i)
  {
    forall n | 0 <= n < |records|
      ensures (pre + ops)[|pre| + i + 1 + n] == EquipmentUpsert(records[n], c.id)
    {
      assert (pre + ops)[|pre| + i + 1 + n] == ops[i + 1 + n];
    }
  }

  /** A complete run upserts every company and, right after it, each of its records. */
  lemma {:induction false} PlanListsEvery(companies: seq<Company>, equipmentOf: string -> Fetch<seq<SourceEquipment>>)
    requires Plan(companies, equipmentOf).completed
    ensures forall c :: c in companies ==> ListsCompany(Plan(companies, equipmentOf).ops, c, equipmentOf(c.id).value)
    decreases |companies|
  {
    if companies != [] {
      var c0 := companies[0];
      var records := equipmentOf(c0.id).value;
      var pre := [ClientUpsert(c0)] + EquipmentUpserts(records, c0.id);
      var tail := companies[1..];
      var rest := Plan(tail, equipmentOf).ops;
      var ops := Plan(companies, equipmentOf).ops;
      assert ops == pre + rest;
      PlanListsEvery(tail, equipmentOf);
      forall c | c in companies
        ensures ListsCompany(ops, c, equipmentOf(c.id).value)
      {
        if c == c0 {
          ListsCompanyHead(c0, records, rest);
        } else {
          assert c in tail by {
            assert companies == [c0] + tail;
          }
          var recs := equipmentOf(c.id).value;
          var i :| ListsCompanyAt(rest, c, recs, i);
          ListsCompanyShift(pre, rest, c, recs, i);
        }
      }
    }
  }

  /** Where a write of the run comes from: a listed company, or a record fetched
      for a listed company and owned by it. */
  predicate Listed(op: Upsert, companies: seq<Company>, equipmentOf: string -> Fetch<seq<SourceEquipment>>)
  {
    match op
    case ClientUpsert(c) => c in companies
    case EquipmentUpsert(e, owner) =>
      exists c :: c in companies && c.id == owner && equipmentOf(owner).Fetched? && e in equipmentOf(owner).value
  }

  /** The run writes nothing but the listed companies and their fetched records. */
  lemma {:induction false} PlanWritesOnlyListed(companies: seq<Company>, equipmentOf: string -> Fetch<seq<SourceEquipment>>)
    ensures forall i :: 0 <= i < |Plan(companies, equipmentOf).ops| ==>
              Listed(Plan(companies, equipmentOf).ops[i], companies, equipmentOf)
    decreases |companies|
  {
    if companies != [] {
      var c0 := companies[0];
      var tail := companies[1..];
      var ops := Plan(companies, equipmentOf).ops;
      match equipmentOf(c0.id)
      case FetchFailed =>
      case Fetched(records) => {
        var eqOps := EquipmentUpserts(records, c0.id);
        var rest := Plan(tail, equipmentOf).ops;
        assert ops == [ClientUpsert(c0)] + eqOps + rest;
        PlanWritesOnlyListed(tail, equipmentOf);
        forall i | 0 <= i < |ops|
          ensures Listed(ops[i], companies, equipmentOf)
        {
          if i == 0 {
          } else if i <= |eqOps| {
            assert ops[i] == EquipmentUpsert(records[i - 1], c0.id);
            assert records[i - 1] in records;
          } else {
            var op := rest[i - 1 - |eqOps|];
            assert ops[i] == op;
            assert Listed(op, tail, equipmentOf);
            match op
            case ClientUpsert(c) =>
              assert c in companies;
            case EquipmentUpsert(e, owner) =>
              var c :| c in tail && c.id == owner && equipmentOf(owner).Fetched? && e in equipmentOf(owner).value;
              assert c in companies;
          }
        }
      }
    }
  }

  lemma PlanStoresRecord(db: Db, companies: seq<Company>, equipmentOf: string -> Fetch<seq<SourceEquipment>>, c: Company, n: int)
    requires Plan(companies, equipmentOf).completed
    requires c in companies && 0 <= n < |equipmentOf(c.id).value|
    ensures equipmentOf(c.id).value[n].id in Apply(db, Plan(companies, equipmentOf).ops).equipment
  {
    var ops := Plan(companies, equipmentOf).ops;
    var recs := equipmentOf(c.id).value;
    PlanListsEvery(companies, equipmentOf);
    assert ListsCompany(ops, c, recs);
    var i :| 0 <= i < |ops| && ListsCompanyAt(ops, c, recs, i);
    assert ops[i + 1 + n] == EquipmentUpsert(recs[n], c.id);
    ApplyStoresEveryWrite(db, ops, i + 1 + n);
  }

  /** A sync that succeeds stores a row for every record fetched for every company. */
  lemma SyncStoresEveryRecord(db: Db, companies: Fetch<seq<Company>>, equipmentOf: string -> Fetch<seq<SourceEquipment>>)
    requires Synced(db, companies, equipmentOf).succeeded
    ensures forall c, e :: c in companies.value && e in equipmentOf(c.id).value ==>
              e.id in Synced(db, companies, equipmentOf).db.equipment
  {
    var ops := Plan(companies.value, equipmentOf).ops;
    assert Synced(db, companies, equipmentOf).db == Apply(db, ops);
    forall c, e | c in companies.value && e in equipmentOf(c.id).value
      ensures e.id in Apply(db, ops).equipment
    {
      var n :| 0 <= n < |equipmentOf(c.id).value| && equipmentOf(c.id).value[n] == e;
      PlanStoresRecord(db, companies.value, equipmentOf, c, n);
    }
  }

  /**
   * Per equipment id, the last record the sync loop visits fixes the stored
   * name, category and flag; a row the store did not have before belongs to
   * the company whose listing visited its id first. This holds for the writes
   * made before a failed fetch as well.
   */
  lemma SyncStoresLastListing(db: Db, companies: Fetch<seq<Company>>, equipmentOf: string -> Fetch<seq<SourceEquipment>>)
    ensures companies.Fetched? ==>
      var ops := Plan(companies.value, equipmentOf).ops;
      var rows := Synced(db, companies, equipmentOf).db.equipment;
      (forall i :: 0 <= i < |ops| && LastEquipmentWrite(ops, i) ==>
         ops[i].record.id in rows
         && rows[ops[i].record.id].name == ops[i].record.hostName
         && rows[ops[i].record.id].category == ops[i].record.categoryName
         && rows[ops[i].record.id].isBillable == IsBillable(ops[i].record.categoryName))
      && (forall i :: 0 <= i < |ops| && FirstEquipmentWrite(ops, i) && ops[i].record.id !in db.equipment ==>
            ops[i].record.id in rows && rows[ops[i].record.id].clientId == ops[i].owner)
  {
    if companies.Fetched? {
      var ops := Plan(companies.value, equipmentOf).ops;
      forall i | 0 <= i < |ops| && LastEquipmentWrite(ops, i)
        ensures ops[i].record.id in Apply(db, ops).equipment
          && Apply(db, ops).equipment[ops[i].record.id].name == ops[i].record.hostName
          && Apply(db, ops).equipment[ops[i].record.id].category == ops[i].record.categoryName
          && Apply(db, ops).equipment[ops[i].record.id].isBillable == IsBillable(ops[i].record.categoryName)
      {
        ApplyStoresLastWrite(db, ops, i);
      }
      forall i | 0 <= i < |ops| && FirstEquipmentWrite(ops, i) && ops[i].record.id !in db.equipment
        ensures ops[i].record.id in Apply(db, ops).equipment
          && Apply(db, ops).equipment[ops[i].record.id].clientId == ops[i].owner
      {
        ApplyOwnsNewRowByFirstWrite(db, ops, i);
      }
    }
  }

  /** Every stored row's flag is the billable rule applied to its category. */
  predicate FlagsFollowRule(db: Db)
  {
    forall k :: k in db.equipment ==> db.equipment[k].isBillable == IsBillable(db.equipment[k].category)
  }

  lemma {:induction false} ApplyKeepsFlags(db: Db, ops: seq<Upsert>)
    requires FlagsFollowRule(db)
    ensures FlagsFollowRule(Apply(db, ops))
    decreases |ops|
  {
    if ops != [] {
      ApplyKeepsFlags(Step(db, ops[0]), ops[1..]);
    }
  }

  /** If every stored flag follows the billable rule before a sync, it does after it. */
  lemma SyncKeepsBillableFlags(db: Db, companies: Fetch<seq<Company>>, equipmentOf: string -> Fetch<seq<SourceEquipment>>)
    requires FlagsFollowRule(db)
    ensures FlagsFollowRule(Synced(db, companies, equipmentOf).db)
  {
    if companies.Fetched? {
      ApplyKeepsFlags(db, Plan(companies.value, equipmentOf).ops);
    }
  }

  // ---------------------------------------------------------------------------
  // GET /api/clients/:id/equipment
  // ---------------------------------------------------------------------------

  /** The equipment listing of one client: every stored row whose client id is
      the requested one, keyed by equipment id. */
  function EquipmentOf(db: Db, clientId: string): (r: map<string, EquipmentRow>)
    ensures forall k :: k in r <==> k in db.equipment && db.equipment[k].clientId == clientId
    ensures forall k :: k in r ==> r[k] == db.equipment[k]
  {
    map k | k in db.equipment && db.equipment[k].clientId == clientId :: db.equipment[k]
  }

  /** An id with no client row gets an empty list, not an error. */
  lemma UnknownClientHasNoEquipment(db: Db, clientId: string)
    requires ForeignKeysHold(db)
    requires clientId !in db.clients
    ensures EquipmentOf(db, clientId) == map[]
  {
  }

  /** With foreign keys in place, the per-client lists together cover every row. */
  lemma EquipmentOfCoversStore(db: Db, k: string)
    requires ForeignKeysHold(db)
    requires k in db.equipment
    ensures exists id :: id in db.clients && k in EquipmentOf(db, id)
  {
  }

  // ---------------------------------------------------------------------------
  // The store and the sync loop
  // ---------------------------------------------------------------------------

  /** The two tables of the database, updated in place by the sync. */
  class Store {
    var clients: map<string, string>
    var equipment: map<string, EquipmentRow>

    function State(): Db
      reads this
    {
      Db(clients, equipment)
    }

    constructor ()
      ensures State() == Db(map[], map[])
    {
      clients := map[];
      equipment := map[];
    }

    /** Upserts the company's client row and returns the row's id. */
    method UpsertClient(company: Company) returns (id: string)
      modifies this
      ensures State() == ClientUpserted(old(State()), company)
      ensures id == company.id
    {
      clients := clients[company.id := company.name];
      id := company.id;
    }

    method UpsertEquipment(record: SourceEquipment, owner: string)
      modifies this
      ensures State() == EquipmentUpserted(old(State()), record, owner)
    {
      var billable := IsBillable(record.categoryName);
      if record.id in equipment {
        var row := equipment[record.id];
        equipment := equipment[record.id := row.(name := record.hostName, category := record.categoryName, isBillable := billable)];
      } else {
        equipment := equipment[record.id := EquipmentRow(record.hostName, record.categoryName, billable, owner)];
      }
    }

    /** `syncDataFromServiceNav`: for each company, upsert its client, fetch its
        equipment and upsert each record; a failed fetch stops the sync. */
    method SyncFromServiceNav(companies: Fetch<seq<Company>>, equipmentOf: string -> Fetch<seq<SourceEquipment>>)
      returns (succeeded: bool)
      modifies this
      ensures SyncOutcome(State(), succeeded) == Synced(old(State()), companies, equipmentOf)
    {
      if companies.FetchFailed? {
        return false;
      }
      var cs := companies.value;
      var i := 0;
      while i < |cs|
        invariant 0 <= i <= |cs|
        invariant Apply(State(), Plan(cs[i..], equipmentOf).ops) == Apply(old(State()), Plan(cs, equipmentOf).ops)
        invariant Plan(cs[i..], equipmentOf).completed == Plan(cs, equipmentOf).completed
      {
        ghost var before := State();
        var clientId := UpsertClient(cs[i]);
        var fetched := equipmentOf(cs[i].id);
        PlanAt(cs, i, equipmentOf);
        if fetched.FetchFailed? {
          assert Apply(before, [ClientUpsert(cs[i])]) == State();
          return false;
        }
        var records := fetched.value;
        ghost var afterClient := State();
        var j := 0;
        while j < |records|
          invariant 0 <= j <= |records|
          invariant Apply(State(), EquipmentUpserts(records[j..], clientId)) == Apply(afterClient, EquipmentUpserts(records, clientId))
        {
          EquipmentUpsertsAt(records, j, clientId);
          UpsertEquipment(records[j], clientId);
          j := j + 1;
        }
        assert records[j..] == [];
        ghost var eqOps := EquipmentUpserts(records, clientId);
        assert State() == Apply(afterClient, eqOps);
        assert afterClient == Apply(before, [ClientUpsert(cs[i])]);
        ApplyAppend(before, [ClientUpsert(cs[i])], eqOps);
        ApplyAppend(before, [ClientUpsert(cs[i])] + eqOps, Plan(cs[i + 1..], equipmentOf).ops);
        i := i + 1;
      }
      assert cs[i..] == [];
      succeeded := true;
    }
  }
}
