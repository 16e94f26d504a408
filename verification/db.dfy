/**
 * The local record store: an IndexedDB database named `ConstructionCalcDB`
 * at schema version 1 with two object stores. `purchases` is keyed by the
 * record's `id` and written by `put` (insert or overwrite); `calculations`
 * has an auto-increment key, is written by `add` (insert only) and has the
 * secondary indexes `type` and `timestamp`.
 *
 * The global `db` handle is the `connected` flag of the class: every store
 * operation issued before `initDB` has set it rejects without writing.
 */
module Db {
  import opened JsValues
  import opened ResultRows
  import opened Sequences

  const DbName: string := "ConstructionCalcDB"
  const DbVersion: nat := 1

  /**
   * The largest key a key generator hands out: when its current number
   * exceeds 2^53, generating a key fails and `add` rejects with a
   * ConstraintError (W3C Indexed Database API 2.0, section 2.11).
   */
  const MaxGeneratedKey: nat := 0x20_0000_0000_0000

  datatype IndexSpec = IndexSpec(name: string, keyPath: string, unique: bool)

  datatype StoreSpec = StoreSpec(keyPath: string, autoIncrement: bool, indexes: seq<IndexSpec>)

  const PurchasesSpec: StoreSpec := StoreSpec("id", false, [])

  const CalculationsSpec: StoreSpec :=
    StoreSpec("id", true, [IndexSpec("type", "type", false), IndexSpec("timestamp", "timestamp", false)])

  /** A purchase record, keyed by its product identifier `id`. */
  datatype Purchase = Purchase(id: string, token: string, timestamp: int, status: string)

  /** A calculation log record (`type` is a keyword in Dafny, hence `kind`). */
  datatype Calculation = Calculation(kind: string, timestamp: int, inputs: map<string, Value>, results: seq<Row>)

  /** A stored calculation together with the key the store generated for it. */
  datatype Entry = Entry(key: nat, record: Calculation)

  /**
   * Why a request rejects. `NotInitialized` is the TypeError raised by
   * `db.transaction` while `db` is still undefined; `NotFoundError` is a
   * transaction on a store the schema lacks.
   */
  datatype DbError = OpenFailed | VersionError | NotInitialized | NotFoundError | ConstraintError

  /**
   * The schema after the `onupgradeneeded` handler: each of the two stores
   * is created only if absent, and stores that already exist are untouched.
   */
  function Upgraded(schema: map<string, StoreSpec>): (r: map<string, StoreSpec>)
    ensures r.Keys == schema.Keys + {"purchases", "calculations"}
    ensures forall name | name in schema :: r[name] == schema[name]
    ensures "purchases" !in schema ==> r["purchases"] == PurchasesSpec
    ensures "calculations" !in schema ==> r["calculations"] == CalculationsSpec
  {
    var withPurchases := if "purchases" in schema then schema else schema["purchases" := PurchasesSpec];
    if "calculations" in withPurchases then withPurchases else withPurchases["calculations" := CalculationsSpec]
  }

  /** Running the upgrade on a database that already has both stores changes nothing. */
  lemma UpgradeKeepsCompleteSchema(schema: map<string, StoreSpec>)
    requires "purchases" in schema && "calculations" in schema
    ensures Upgraded(schema) == schema
  {
  }

  /** On an empty database the upgrade creates exactly the two stores. */
  lemma UpgradeOfEmptySchema()
    ensures Upgraded(map[]) == map["purchases" := PurchasesSpec, "calculations" := CalculationsSpec]
  {
  }

  /** Running the upgrade twice is the same as running it once. */
  lemma UpgradeIdempotent(schema: map<string, StoreSpec>)
    ensures Upgraded(Upgraded(schema)) == Upgraded(schema)
  {
  }

  /** Keys strictly increase along the sequence (the order `getAll` returns). */
  ghost predicate Ascending(entries: seq<Entry>) {
    forall i, j | 0 <= i < j < |entries| :: entries[i].key < entries[j].key
  }

  /** The predicate the `type` index selects on. */
  function HasKind(kind: string): Entry -> bool {
    (e: Entry) => e.record.kind == kind
  }

  /** What `index('type').getAll(kind)` yields: the entries of that type, in key order. */
  function OfKind(entries: seq<Entry>, kind: string): (r: seq<Entry>)
    ensures forall e :: e in r <==> e in entries && e.record.kind == kind
  {
    forall e ensures e in Filter(entries, HasKind(kind)) <==> e in entries && e.record.kind == kind {
      FilterMembership(entries, HasKind(kind), e);
    }
    Filter(entries, HasKind(kind))
  }

  /** Selecting by type keeps the key order. */
  lemma {:induction false} OfKindAscending(entries: seq<Entry>, kind: string)
    requires Ascending(entries)
    ensures Ascending(OfKind(entries, kind))
    decreases |entries|
  {
    if entries != [] {
      var init := entries[..|entries| - 1];
      var last := entries[|entries| - 1];
      assert Ascending(init);
      OfKindAscending(init, kind);
      assert OfKind(entries, kind) == OfKind(init, kind) + (if last.record.kind == kind then [last] else []);
      forall e | e in OfKind(init, kind) ensures e.key < last.key {
        var i :| 0 <= i < |init| && init[i] == e;
      }
    }
  }

  class Database {
    /** The schema version stored on disk (0 for a database that does not exist yet). */
    var version: nat
    var schema: map<string, StoreSpec>
    var purchases: map<string, Purchase>
    /** The `calculations` store in key order. */
    var calculations: seq<Entry>
    /** The current number of the `calculations` store's key generator. */
    var currentNumber: nat
    /** Whether the global `db` handle has been set. */
    var connected: bool

    /** Whether an `add` into `calculations` would succeed now. */
    predicate CanAdd()
      reads this
    {
      connected && "calculations" in schema && currentNumber <= MaxGeneratedKey
    }

    ghost predicate Valid()
      reads this
    {
      && ("purchases" !in schema ==> purchases == map[])
      && ("calculations" !in schema ==> calculations == [] && currentNumber == 1)
      && (forall id | id in purchases :: purchases[id].id == id)
      && currentNumber >= 1
      && Ascending(calculations)
      && (forall i | 0 <= i < |calculations| :: 1 <= calculations[i].key < currentNumber)
    }

    /** A browser profile in which the database has never been opened. */
    constructor ()
      ensures Valid()
      ensures version == 0 && schema == map[] && !connected
      ensures purchases == map[] && calculations == [] && currentNumber == 1
    {
      version := 0;
      schema := map[];
      purchases := map[];
      calculations := [];
      currentNumber := 1;
      connected := false;
    }

    /** The `onupgradeneeded` handler: set `db`, then create each missing store. */
    method Upgrade()
      requires Valid()
      modifies this
      ensures Valid() && connected
      ensures schema == Upgraded(old(schema))
      ensures version == old(version) && purchases == old(purchases)
      ensures calculations == old(calculations) && currentNumber == old(currentNumber)
    {
      connected := true;
      if "purchases" !in schema {
        schema := schema["purchases" := PurchasesSpec];
      }
      if "calculations" !in schema {
        schema := schema["calculations" := CalculationsSpec];
      }
    }

    /**
     * `initDB()`: open the database at version 1. A stored version above 1
     * rejects with a VersionError, one below 1 runs the upgrade handler
     * first; `opens` is false when the engine refuses the open request.
     */
    method InitDB(opens: bool) returns (r: Result<(), DbError>)
      requires Valid()
      modifies this
      ensures Valid()
      ensures r.Ok? <==> opens && old(version) <= DbVersion
      ensures r.Ok? ==> connected && version == DbVersion
      ensures r.Ok? ==> schema == if old(version) < DbVersion then Upgraded(old(schema)) else old(schema)
      ensures r.Err? ==> version == old(version) && schema == old(schema) && connected == old(connected)
      ensures purchases == old(purchases) && calculations == old(calculations) && currentNumber == old(currentNumber)
    {
      if !opens {
        return Err(OpenFailed);
      }
      if version > DbVersion {
        return Err(VersionError);
      }
      if version < DbVersion {
        version := DbVersion;
        Upgrade();
      }
      connected := true;
      r := Ok(());
    }

    /** `savePurchase(p)`: `put` into `purchases`, resolving with the key. */
    method SavePurchase(p: Purchase) returns (r: Result<string, DbError>)
      requires Valid()
      modifies this
      ensures Valid()
      ensures r.Ok? <==> connected && "purchases" in schema
      ensures r.Ok? ==> r.value == p.id && purchases == old(purchases)[p.id := p]
      ensures r.Err? ==> purchases == old(purchases)
      ensures !connected ==> r == Err(NotInitialized)
      ensures schema == old(schema) && version == old(version) && connected == old(connected)
      ensures calculations == old(calculations) && currentNumber == old(currentNumber)
    {
      if !connected {
        return Err(NotInitialized);
      }
      if "purchases" !in schema {
        return Err(NotFoundError);
      }
      purchases := purchases[p.id := p];
      r := Ok(p.id);
    }

    /** `getPurchase(id)`: resolves with the record, or with no record when the id is absent. */
    method GetPurchase(id: string) returns (r: Result<Option<Purchase>, DbError>)
      requires Valid()
      ensures r.Ok? <==> connected && "purchases" in schema
      ensures r.Ok? && r.value.Some? ==> id in purchases && r.value.value == purchases[id] && r.value.value.id == id
      ensures r.Ok? && r.value.None? ==> id !in purchases
    {
      if !connected {
        return Err(NotInitialized);
      }
      if "purchases" !in schema {
        return Err(NotFoundError);
      }
      r := Ok(if id in purchases then Some(purchases[id]) else None);
    }

    /**
     * `saveCalculation(c)`: `add` into `calculations`, resolving with the
     * generated key, which exceeds every key generated before it.
     */
    method SaveCalculation(c: Calculation) returns (r: Result<nat, DbError>)
      requires Valid()
      modifies this
      ensures Valid()
      ensures r.Ok? <==> old(CanAdd())
      ensures r.Ok? ==> calculations == old(calculations) + [Entry(r.value, c)]
      ensures r.Ok? ==> forall i | 0 <= i < |old(calculations)| :: old(calculations)[i].key < r.value
      ensures r.Ok? ==> r.value == old(currentNumber) && currentNumber == r.value + 1
      ensures r.Err? ==> calculations == old(calculations) && currentNumber == old(currentNumber)
      ensures !connected ==> r == Err(NotInitialized)
      ensures schema == old(schema) && version == old(version) && connected == old(connected)
      ensures purchases == old(purchases)
    {
      if !connected {
        return Err(NotInitialized);
      }
      if "calculations" !in schema {
        return Err(NotFoundError);
      }
      if currentNumber > MaxGeneratedKey {
        return Err(ConstraintError);
      }
      var key := currentNumber;
      currentNumber := currentNumber + 1;
      calculations := calculations + [Entry(key, c)];
      r := Ok(key);
    }

    /**
     * `getCalculations(type)`: with a truthy type, the calculations of that
     * type via the `type` index; otherwise (`null` or `''`) all of them;
     * both in key order.
     */
    method GetCalculations(kind: Option<string>) returns (r: Result<seq<Entry>, DbError>)
      requires Valid()
      ensures r.Ok? <==> connected && "calculations" in schema
      ensures r.Ok? ==> Ascending(r.value)
      ensures r.Ok? && kind.Some? && kind.value != "" ==>
                forall e :: e in r.value <==> e in calculations && e.record.kind == kind.value
      ensures r.Ok? && (kind.None? || kind.value == "") ==> r.value == calculations
    {
      if !connected {
        return Err(NotInitialized);
      }
      if "calculations" !in schema {
        return Err(NotFoundError);
      }
      if kind.Some? && kind.value != "" {
        OfKindAscending(calculations, kind.value);
        r := Ok(OfKind(calculations, kind.value));
      } else {
        r := Ok(calculations);
      }
    }
  }

  /** Saving a purchase twice under one id leaves one record: the second. */
  lemma PutTwiceKeepsOne(purchases: map<string, Purchase>, p: Purchase, q: Purchase)
    requires p.id == q.id
    ensures purchases[p.id := p][q.id := q] == purchases[q.id := q]
    ensures |purchases[p.id := p][q.id := q].Keys| <= |purchases.Keys| + 1
  {
    assert purchases[q.id := q].Keys == purchases.Keys + {q.id};
  }
}
