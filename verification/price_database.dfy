/**
 * The built-in table of Zambian material prices by city, and the city
 * selector that copies a city's prices into the calculator price fields,
 * records them with `saveMaterialPrice` and remembers the chosen city.
 */
module PriceDatabase {
  import opened JsValues
  import Storage

  /** A city's prices in ZMW: per bag of cement, per m³ of sand and aggregate, per brick, per m³ of mortar. */
  datatype CityPrices = CityPrices(cement: real, sand: real, aggregate: real, brick: real, mortar: real)

  /** `ZAMBIAN_PRICES`. */
  const ZambianPrices: map<string, CityPrices> := map[
    "Lusaka" := CityPrices(120.0, 350.0, 400.0, 1.5, 800.0),
    "Kitwe" := CityPrices(125.0, 320.0, 380.0, 1.4, 750.0),
    "Ndola" := CityPrices(122.0, 330.0, 390.0, 1.45, 760.0),
    "Kabwe" := CityPrices(118.0, 340.0, 395.0, 1.5, 780.0),
    "Livingstone" := CityPrices(130.0, 370.0, 420.0, 1.6, 820.0),
    "Solwezi" := CityPrices(135.0, 360.0, 410.0, 1.55, 800.0),
    "Chipata" := CityPrices(128.0, 340.0, 400.0, 1.5, 790.0),
    "Chingola" := CityPrices(124.0, 325.0, 385.0, 1.45, 755.0),
    "Mufulira" := CityPrices(123.0, 328.0, 388.0, 1.43, 758.0),
    "Kasama" := CityPrices(132.0, 355.0, 405.0, 1.52, 795.0)
  ]

  /** The keys of `ZAMBIAN_PRICES` in insertion order, as `Object.keys` lists them. */
  const CityOrder: seq<string> :=
    ["Lusaka", "Kitwe", "Ndola", "Kabwe", "Livingstone", "Solwezi", "Chipata", "Chingola", "Mufulira", "Kasama"]

  predicate PositivePrices(p: CityPrices) {
    p.cement > 0.0 && p.sand > 0.0 && p.aggregate > 0.0 && p.brick > 0.0 && p.mortar > 0.0
  }

  /** Every price in the table is positive. */
  lemma AllPricesPositive()
    ensures forall city | city in ZambianPrices :: PositivePrices(ZambianPrices[city])
  {
  }

  /** `CityOrder` lists exactly the table's cities, each once. */
  lemma CityOrderIsKeys()
    ensures |CityOrder| == 10
    ensures forall city :: city in CityOrder <==> city in ZambianPrices
    ensures forall i, j | 0 <= i < j < |CityOrder| :: CityOrder[i] != CityOrder[j]
  {
  }

  /** `getCityPrices(city)`: the table entry, or `null` for a city not in the table. */
  function GetCityPrices(city: string): (r: Option<CityPrices>)
    ensures r.Some? <==> city in ZambianPrices
    ensures r.Some? ==> r.value == ZambianPrices[city]
  {
    if city in ZambianPrices then Some(ZambianPrices[city]) else None
  }

  // ------------------------------------------------------ string order

  /**
   * The order `Array.prototype.sort` uses by default: lexicographic on
   * characters, a proper prefix coming first.
   */
  predicate StrLt(a: string, b: string) {
    if a == [] then b != []
    else if b == [] then false
    else a[0] < b[0] || (a[0] == b[0] && StrLt(a[1..], b[1..]))
  }

  predicate StrLe(a: string, b: string) {
    a == b || StrLt(a, b)
  }

  lemma {:induction false} StrLtIrreflexive(a: string)
    ensures !StrLt(a, a)
  {
    if a != [] {
      StrLtIrreflexive(a[1..]);
    }
  }

  lemma {:induction false} StrLtTotal(a: string, b: string)
    ensures a == b || StrLt(a, b) || StrLt(b, a)
  {
    if a != [] && b != [] && a[0] == b[0] {
      StrLtTotal(a[1..], b[1..]);
      if a[1..] == b[1..] {
        assert a == [a[0]] + a[1..] && b == [b[0]] + b[1..];
      }
    }
  }

  lemma {:induction false} StrLtTransitive(a: string, b: string, c: string)
    requires StrLt(a, b) && StrLt(b, c)
    ensures StrLt(a, c)
  {
    if a != [] && a[0] == b[0] && b[0] == c[0] {
      StrLtTransitive(a[1..], b[1..], c[1..]);
    }
  }

  lemma StrLeTransitive(a: string, b: string, c: string)
    requires StrLe(a, b) && StrLe(b, c)
    ensures StrLe(a, c)
  {
    if a != b && b != c {
      StrLtTransitive(a, b, c);
    }
  }

  // ---------------------------------------------------------- sorting

  ghost predicate Sorted(s: seq<string>) {
    forall i, j | 0 <= i < j < |s| :: StrLe(s[i], s[j])
  }

  /** Places `x` before the first element it does not come after. */
  function Insert(x: string, s: seq<string>): seq<string> {
    if s == [] then [x]
    else if StrLe(x, s[0]) then [x] + s
    else [s[0]] + Insert(x, s[1..])
  }

  /** Insertion sort, the reference definition of the default `sort()`. */
  function SortStrings(s: seq<string>): seq<string> {
    if s == [] then [] else Insert(s[0], SortStrings(s[1..]))
  }

  lemma {:induction false} InsertElements(x: string, s: seq<string>)
    ensures multiset(Insert(x, s)) == multiset(s) + multiset{x}
  {
    if s != [] && !StrLe(x, s[0]) {
      InsertElements(x, s[1..]);
      assert s == [s[0]] + s[1..];
    }
  }

  lemma {:induction false} InsertSorted(x: string, s: seq<string>)
    requires Sorted(s)
    ensures Sorted(Insert(x, s))
  {
    if s == [] {
    } else if StrLe(x, s[0]) {
      var r := [x] + s;
      forall i, j | 0 <= i < j < |r| ensures StrLe(r[i], r[j]) {
        if i == 0 {
          StrLeTransitive(x, s[0], s[j - 1]);
        }
      }
    } else {
      StrLtTotal(x, s[0]);
      var t := s[1..];
      InsertSorted(x, t);
      InsertElements(x, t);
      var r := [s[0]] + Insert(x, t);
      forall i, j | 0 <= i < j < |r| ensures StrLe(r[i], r[j]) {
        if i == 0 {
          var y := r[j];
          assert y in multiset(Insert(x, t));
          if y != x {
            assert y in multiset(t);
            var k :| 0 <= k < |t| && t[k] == y;
            assert s[k + 1] == y;
          }
        }
      }
    }
  }

  lemma {:induction false} SortStringsCorrect(s: seq<string>)
    ensures multiset(SortStrings(s)) == multiset(s)
    ensures Sorted(SortStrings(s))
  {
    if s != [] {
      SortStringsCorrect(s[1..]);
      InsertElements(s[0], SortStrings(s[1..]));
      InsertSorted(s[0], SortStrings(s[1..]));
      assert s == [s[0]] + s[1..];
    }
  }

  /** Sorting a sequence without repeats keeps its elements and orders them strictly. */
  lemma SortDistinct(s: seq<string>)
    requires forall i, j | 0 <= i < j < |s| :: s[i] != s[j]
    ensures |SortStrings(s)| == |s|
    ensures forall x :: x in SortStrings(s) <==> x in s
    ensures forall i, j | 0 <= i < j < |SortStrings(s)| :: StrLt(SortStrings(s)[i], SortStrings(s)[j])
  {
    var r := SortStrings(s);
    SortStringsCorrect(s);
    assert |r| == |multiset(r)| == |multiset(s)| == |s|;
    assert forall x :: x in r <==> x in multiset(s);
    DistinctAfterSort(s, r);
  }

  /**
   * `getAvailableCities()`: the table's cities in ascending order, each
   * exactly once.
   */
  function GetAvailableCities(): (r: seq<string>)
    ensures |r| == 10
    ensures forall city :: city in r <==> city in ZambianPrices
    ensures forall i, j | 0 <= i < j < |r| :: StrLt(r[i], r[j])
  {
    CityOrderIsKeys();
    SortDistinct(CityOrder);
    SortStrings(CityOrder)
  }

  /** A permutation of a sequence without repeats has no repeats. */
  lemma DistinctAfterSort(s: seq<string>, r: seq<string>)
    requires multiset(r) == multiset(s)
    requires forall i, j | 0 <= i < j < |s| :: s[i] != s[j]
    ensures forall i, j | 0 <= i < j < |r| :: r[i] != r[j]
  {
    forall i, j | 0 <= i < j < |r| ensures r[i] != r[j] {
      CountAtMostOne(s, r[i]);
      RepeatCounted(r, i, j);
    }
  }

  lemma RepeatCounted(r: seq<string>, i: nat, j: nat)
    requires i < j < |r|
    ensures r[i] == r[j] ==> multiset(r)[r[i]] >= 2
  {
    assert r == r[..i] + [r[i]] + r[i + 1..j] + [r[j]] + r[j + 1..];
  }

  lemma {:induction false} CountAtMostOne(s: seq<string>, x: string)
    requires forall i, j | 0 <= i < j < |s| :: s[i] != s[j]
    ensures multiset(s)[x] <= 1
  {
    if s != [] {
      CountAtMostOne(s[1..], x);
      assert s == [s[0]] + s[1..];
      if s[0] == x {
        forall k | 0 <= k < |s| - 1 ensures s[1..][k] != x {
          assert s[1..][k] == s[k + 1];
        }
      }
    }
  }

  // -------------------------------------------------- applying prices

  /** The calculator price fields, by element id; a missing id is a field the page lacks. */
  class PriceFields {
    var fields: map<string, Value>

    constructor (fields: map<string, Value>)
      ensures this.fields == fields
    {
      this.fields := fields;
    }

    /** `if (input) input.value = price`: only an existing field is written. */
    method SetIfPresent(id: string, price: real)
      modifies this
      ensures fields == Written(old(fields), id, price)
    {
      if id in fields {
        fields := fields[id := Num(price)];
      }
    }
  }

  /** One `saveMaterialPrice(material, price, unit)` call. */
  datatype PriceRecord = PriceRecord(material: string, price: real, unit: string)

  /** The calls made to `saveMaterialPrice`, which is not part of this model, in order. */
  class PriceLog {
    var saved: seq<PriceRecord>

    constructor ()
      ensures saved == []
    {
      saved := [];
    }

    method SaveMaterialPrice(material: string, price: real, unit: string)
      modifies this
      ensures saved == old(saved) + [PriceRecord(material, price, unit)]
    {
      saved := saved + [PriceRecord(material, price, unit)];
    }
  }

  /** The five records saved for a city, in the order the prices are saved. */
  function CityRecords(p: CityPrices): seq<PriceRecord> {
    [PriceRecord("cement", p.cement, "ZMW"), PriceRecord("sand", p.sand, "ZMW"),
     PriceRecord("aggregate", p.aggregate, "ZMW"), PriceRecord("brick", p.brick, "ZMW"),
     PriceRecord("mortar", p.mortar, "ZMW")]
  }

  /**
   * The records saved for a city: cement, sand, aggregate, brick and mortar,
   * in that order, each with its price from the table entry and in ZMW.
   */
  lemma CityRecordsShape(p: CityPrices)
    ensures |CityRecords(p)| == 5
    ensures forall k | 0 <= k < 5 :: CityRecords(p)[k].unit == "ZMW"
    ensures forall k | 0 <= k < 5 :: CityRecords(p)[k].material == MaterialOrder[k]
    ensures PositivePrices(p) ==> forall k | 0 <= k < 5 :: CityRecords(p)[k].price > 0.0
  {
  }

  const MaterialOrder: seq<string> := ["cement", "sand", "aggregate", "brick", "mortar"]

  /** The fields after writing `price` into field `id`, if the page has one. */
  function Written(fields: map<string, Value>, id: string, price: real): (r: map<string, Value>)
    ensures r.Keys == fields.Keys
    ensures id in fields ==> r[id] == Num(price)
    ensures forall other | other in fields && other != id :: r[other] == fields[other]
  {
    if id in fields then fields[id := Num(price)] else fields
  }

  /** The price fields after a city's prices are copied into those that exist. */
  function Filled(fields: map<string, Value>, p: CityPrices): map<string, Value> {
    var f1 := Written(fields, "cement-price", p.cement);
    var f2 := Written(f1, "sand-price", p.sand);
    var f3 := Written(f2, "aggregate-price", p.aggregate);
    var f4 := Written(f3, "brick-price", p.brick);
    Written(f4, "mortar-price", p.mortar)
  }

  /**
   * Filling writes each price field the page has, keeps every other field,
   * and adds none.
   */
  lemma FilledFields(fields: map<string, Value>, p: CityPrices)
    ensures Filled(fields, p).Keys == fields.Keys
    ensures "cement-price" in fields ==> Filled(fields, p)["cement-price"] == Num(p.cement)
    ensures "sand-price" in fields ==> Filled(fields, p)["sand-price"] == Num(p.sand)
    ensures "aggregate-price" in fields ==> Filled(fields, p)["aggregate-price"] == Num(p.aggregate)
    ensures "brick-price" in fields ==> Filled(fields, p)["brick-price"] == Num(p.brick)
    ensures "mortar-price" in fields ==> Filled(fields, p)["mortar-price"] == Num(p.mortar)
    ensures forall id | id in fields && id !in PriceIds :: Filled(fields, p)[id] == fields[id]
  {
  }

  const PriceIds: set<string> := {"cement-price", "sand-price", "aggregate-price", "brick-price", "mortar-price"}

  /**
   * `applyPricesFromCity(city)`: for a city not in the table, returns false
   * and writes nothing; otherwise fills the price fields that exist and
   * saves the city's five prices, then returns true.
   */
  method ApplyPricesFromCity(city: string, form: PriceFields, log: PriceLog) returns (applied: bool)
    modifies form, log
    ensures applied <==> GetCityPrices(city).Some?
    ensures !applied ==> form.fields == old(form.fields) && log.saved == old(log.saved)
    ensures applied ==> form.fields == Filled(old(form.fields), GetCityPrices(city).value)
    ensures applied ==> log.saved == old(log.saved) + CityRecords(GetCityPrices(city).value)
  {
    var prices := GetCityPrices(city);
    if prices.None? {
      return false;
    }
    var p := prices.value;
    form.SetIfPresent("cement-price", p.cement);
    form.SetIfPresent("sand-price", p.sand);
    form.SetIfPresent("aggregate-price", p.aggregate);
    form.SetIfPresent("brick-price", p.brick);
    form.SetIfPresent("mortar-price", p.mortar);
    log.SaveMaterialPrice("cement", p.cement, "ZMW");
    log.SaveMaterialPrice("sand", p.sand, "ZMW");
    log.SaveMaterialPrice("aggregate", p.aggregate, "ZMW");
    log.SaveMaterialPrice("brick", p.brick, "ZMW");
    log.SaveMaterialPrice("mortar", p.mortar, "ZMW");
    assert log.saved == old(log.saved) + CityRecords(p);
    return true;
  }

  /** The `localStorage` key of the chosen city. */
  const SelectedCityKey: string := "selectedCity"

  /** `loadSavedCity()`: the stored city, or `''` when none is stored. */
  method LoadSavedCity(storage: Storage.LocalStorage) returns (city: string)
    ensures SelectedCityKey in storage.items ==> city == storage.items[SelectedCityKey]
    ensures SelectedCityKey !in storage.items ==> city == ""
  {
    var stored := storage.GetItem(SelectedCityKey);
    city := if stored.Some? && stored.value != "" then stored.value else "";
  }

  /**
   * `selectCity(city)`: fills the form with the city's prices and stores
   * the city as the preference only when they were applied.
   */
  method SelectCity(city: string, form: PriceFields, log: PriceLog, storage: Storage.LocalStorage)
    requires storage != form as object && storage != log as object
    modifies form, log, storage
    ensures city in ZambianPrices ==> storage.items == old(storage.items)[SelectedCityKey := city]
    ensures city !in ZambianPrices ==> storage.items == old(storage.items)
    ensures city in ZambianPrices ==> form.fields == Filled(old(form.fields), ZambianPrices[city])
    ensures city in ZambianPrices ==> log.saved == old(log.saved) + CityRecords(ZambianPrices[city])
    ensures city !in ZambianPrices ==> log.saved == old(log.saved) && form.fields == old(form.fields)
  {
    var applied := ApplyPricesFromCity(city, form, log);
    if applied {
      storage.SetItem(SelectedCityKey, city);
    }
  }

  /**
   * `initializeCitySelector()`: with a non-empty saved city, fills the
   * form with its prices; with none, changes nothing. The storage is only
   * read.
   */
  method InitializeCitySelector(form: PriceFields, log: PriceLog, storage: Storage.LocalStorage)
    modifies form, log
    ensures var saved := if SelectedCityKey in storage.items then storage.items[SelectedCityKey] else "";
      && (saved == "" ==> form.fields == old(form.fields) && log.saved == old(log.saved))
      && (saved in ZambianPrices ==> form.fields == Filled(old(form.fields), ZambianPrices[saved]))
      && (saved in ZambianPrices ==> log.saved == old(log.saved) + CityRecords(ZambianPrices[saved]))
      && (saved !in ZambianPrices ==> log.saved == old(log.saved) && form.fields == old(form.fields))
  {
    var saved := LoadSavedCity(storage);
    if saved != "" {
      var _ := ApplyPricesFromCity(saved, form, log);
    }
  }
}
