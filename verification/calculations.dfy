/**
 * The four construction calculators and the shopping-list builder, with
 * the form reads replaced by parameters. Quantities are exact reals;
 * `Math.ceil` is `Ceil`. A successful calculation stores its result rows
 * in a `window` global (cement and brick only, see `LastResults`) and
 * appends a record to the `calculations` store.
 */
module Calculations {
  import opened JsValues
  import opened JsStrings
  import opened Sequences
  import opened ResultRows
  import Db

  /** Why a calculator shows an error instead of results. */
  datatype CalcError =
    | FillInAllFields   // 'Please fill in all fields'
    | NonFiniteResult   // a division by zero that JavaScript would turn into Infinity or NaN

  // ---------------------------------------------------------------- cement

  /** Dry volume is the wet volume plus 54% for voids and wastage. */
  const DryVolumeFactor: real := 1.54
  /** Volume of one 50 kg bag of cement, in cubic metres. */
  const BagVolume: real := 0.035

  /** The three parts of a mix ratio `"a:b:c"`, as numbers. */
  datatype MixParts = MixParts(cement: real, sand: real, aggregate: real)

  /**
   * A mix the dry volume can be split by: no part is negative and the
   * parts add up to more than zero.
   */
  type Mix = m: MixParts | m.cement >= 0.0 && m.sand >= 0.0 && m.aggregate >= 0.0
                           && m.cement + m.sand + m.aggregate > 0.0
    witness MixParts(1.0, 2.0, 4.0)

  /**
   * `ratio.split(':').map(Number)` destructured into the cement, sand and
   * aggregate parts; pieces after the third are ignored. A missing piece
   * is `undefined` and a piece that is not a number is NaN; either one, or
   * parts adding up to zero, makes every volume NaN, and such a ratio has
   * no mix.
   */
  function MixOf(ratio: string): (r: Option<Mix>)
    ensures |Split(ratio, ':')| < 3 ==> r.None?
    ensures var p := Split(ratio, ':');
      |p| >= 3 ==> (r.Some? <==> && NumberOf(p[0]).Num? && NumberOf(p[1]).Num? && NumberOf(p[2]).Num?
                                 && NumberOf(p[0]).n + NumberOf(p[1]).n + NumberOf(p[2]).n > 0.0)
    ensures var p := Split(ratio, ':');
      r.Some? ==> |p| >= 3 && r.value == MixParts(NumberOf(p[0]).n, NumberOf(p[1]).n, NumberOf(p[2]).n)
  {
    var pieces := Split(ratio, ':');
    if |pieces| < 3 then None
    else
      var c, s, a := NumberOf(pieces[0]), NumberOf(pieces[1]), NumberOf(pieces[2]);
      if c.Num? && s.Num? && a.Num? && c.n + s.n + a.n > 0.0 then Some(MixParts(c.n, s.n, a.n))
      else None
  }

  /**
   * A ratio of three whole numbers, not all zero, separated by colons is
   * read as those three numbers.
   */
  lemma MixOfNumerals(c: string, s: string, a: string)
    requires AllDigits(c) && AllDigits(s) && AllDigits(a)
    requires DigitsValue(c) + DigitsValue(s) + DigitsValue(a) > 0
    ensures MixOf(c + ":" + s + ":" + a)
            == Some(MixParts(DigitsValue(c) as real, DigitsValue(s) as real, DigitsValue(a) as real))
  {
    var ratio := c + ":" + s + ":" + a;
    ColonFree(c);
    ColonFree(s);
    ColonFree(a);
    SplitThree(c, s, a, ':');
    NumberOfDigits(c);
    NumberOfDigits(s);
    NumberOfDigits(a);
    assert Split(ratio, ':') == [c, s, a];
  }

  lemma ColonFree(ds: string)
    requires AllDigits(ds)
    ensures ':' !in ds
  {
    forall k | 0 <= k < |ds| ensures ds[k] != ':' {
      assert IsDigit(ds[k]);
    }
  }

  /** The ratio a loaded project falls back to, `"1:2:4"`, is one part cement, two sand, four aggregate. */
  lemma DefaultMix()
    ensures MixOf("1:2:4") == Some(MixParts(1.0, 2.0, 4.0))
  {
    MixOfNumerals("1", "2", "4");
    assert "1" + ":" + "2" + ":" + "4" == "1:2:4";
  }

  datatype CementInput = CementInput(
    length: Number, width: Number, thicknessMm: Number, ratio: string,
    cementPrice: Number, sandPrice: Number, aggregatePrice: Number)

  datatype CementQuantities = CementQuantities(
    wetVolume: real, dryVolume: real,
    cementVolume: real, sandVolume: real, aggregateVolume: real,
    cementBags: int)

  /**
   * The quantities `calculateCement()` derives from the slab and the mix:
   * the dry volume is 1.54 times the slab volume, and `cementBags` is the
   * least number of 0.035 m³ bags that hold the cement part.
   */
  function CementQuantitiesOf(length: real, width: real, thicknessMm: real, mix: Mix): (r: CementQuantities)
    ensures r.wetVolume == length * width * (thicknessMm / 1000.0)
    ensures r.dryVolume == DryVolumeFactor * (length * width * thicknessMm / 1000.0)
    ensures r.cementVolume == r.dryVolume * mix.cement / (mix.cement + mix.sand + mix.aggregate)
    ensures r.sandVolume == r.dryVolume * mix.sand / (mix.cement + mix.sand + mix.aggregate)
    ensures r.aggregateVolume == r.dryVolume * mix.aggregate / (mix.cement + mix.sand + mix.aggregate)
    ensures r.cementBags as real * BagVolume >= r.cementVolume
    ensures (r.cementBags - 1) as real * BagVolume < r.cementVolume
  {
    var wet := length * width * (thicknessMm / 1000.0);
    var dry := wet * DryVolumeFactor;
    var total := mix.cement + mix.sand + mix.aggregate;
    var cv := (dry * mix.cement) / total;
    CeilDivCovers(cv, BagVolume);
    CementQuantities(wet, dry, cv, (dry * mix.sand) / total, (dry * mix.aggregate) / total,
                     Ceil(cv / BagVolume))
  }

  /**
   * The dry volume is split in the proportions of the mix, the three parts
   * adding up to it.
   */
  lemma CementMixSplit(length: real, width: real, thicknessMm: real, mix: Mix)
    ensures var q := CementQuantitiesOf(length, width, thicknessMm, mix);
      && q.cementVolume + q.sandVolume + q.aggregateVolume == q.dryVolume
      && q.cementVolume * mix.sand == q.sandVolume * mix.cement
      && q.sandVolume * mix.aggregate == q.aggregateVolume * mix.sand
      && q.cementVolume * mix.aggregate == q.aggregateVolume * mix.cement
  {
    var q := CementQuantitiesOf(length, width, thicknessMm, mix);
    var total := mix.cement + mix.sand + mix.aggregate;
    var share := q.dryVolume / total;
    assert q.cementVolume == share * mix.cement;
    assert q.sandVolume == share * mix.sand;
    assert q.aggregateVolume == share * mix.aggregate;
    assert share * total == q.dryVolume;
  }

  /**
   * `price * quantity` with the price read as `parseFloat(x) || 0`: a
   * missing, blank or zero price costs nothing.
   */
  function Cost(price: Number, quantity: real): (r: real)
    ensures price.NaN? ==> r == 0.0
    ensures price.Num? ==> r == price.n * quantity
  {
    OrZero(price) * quantity
  }

  /** A cost entry is listed only when its amount is positive. */
  function CostEntry(key: string, amount: real): (r: seq<Row>)
    ensures Lookup(r, key) == if amount > 0.0 then Some(Amount(amount, Currency)) else None
    ensures forall k | k != key :: Lookup(r, k) == None
  {
    if amount > 0.0 then [Row(key, Amount(amount, Currency))] else []
  }

  /**
   * The cost block appended to a result when the total is positive: the
   * separator, the positive per-material costs, then the total.
   */
  function CostBlock(entries: seq<Row>, total: real): seq<Row> {
    if total > 0.0 then [Row(CostsSeparator, Blank)] + entries + [Row(TotalCost, Amount(total, Currency))] else []
  }

  /** With a positive total, the entries lie between the separator and the total. */
  lemma CostBlockEntries(base: seq<Row>, entries: seq<Row>, total: real)
    ensures var r := base + CostBlock(entries, total);
      total > 0.0 ==> |r| == |base| + |entries| + 2 && r[|base| + 1..|r| - 1] == entries
  {
    if total > 0.0 {
      var r := base + CostBlock(entries, total);
      var front := base + [Row(CostsSeparator, Blank)];
      var back := entries + [Row(TotalCost, Amount(total, Currency))];
      assert r == front + back;
      assert r[|front|..] == back;
      assert back[..|entries|] == entries;
      assert r[|front|..|r| - 1] == r[|front|..][..|entries|];
    }
  }

  /**
   * Reading a result with a cost block: a key of the fixed part is not
   * affected, a cost key is present only when the total is positive, and
   * the total is present exactly when it is positive.
   */
  lemma {:induction false} CostBlockLookup(base: seq<Row>, entries: seq<Row>, total: real, key: string)
    requires Lookup(entries, TotalCost).None?
    ensures Lookup(base, key).Some? ==> Lookup(base + CostBlock(entries, total), key) == Lookup(base, key)
    ensures Lookup(base, key).None? && key != CostsSeparator && key != TotalCost ==>
              Lookup(base + CostBlock(entries, total), key) == if total > 0.0 then Lookup(entries, key) else None
    ensures Lookup(base, TotalCost).None? ==>
              Lookup(base + CostBlock(entries, total), TotalCost)
              == if total > 0.0 then Some(Amount(total, Currency)) else None
  {
    var block := CostBlock(entries, total);
    LookupAppend(base, block, key);
    LookupAppend(base, block, TotalCost);
    if total > 0.0 {
      var sep := [Row(CostsSeparator, Blank)];
      var tot := [Row(TotalCost, Amount(total, Currency))];
      assert block == (sep + entries) + tot;
      LookupAppend(sep + entries, tot, key);
      LookupAppend(sep, entries, key);
      LookupAppend(sep + entries, tot, TotalCost);
      LookupAppend(sep, entries, TotalCost);
    } else {
      assert block == [];
    }
  }

  /**
   * A cost block keeps the keys distinct when the fixed part and the
   * entries do and neither uses the separator or the total's key.
   */
  lemma CostBlockDistinct(rows: seq<Row>, base: seq<Row>, entries: seq<Row>, total: real)
    requires rows == base + CostBlock(entries, total)
    requires DistinctLabels(base) && DistinctLabels(entries)
    requires forall i, j | 0 <= i < |base| && 0 <= j < |entries| :: base[i].key != entries[j].key
    requires forall i | 0 <= i < |base| :: base[i].key != CostsSeparator && base[i].key != TotalCost
    requires forall j | 0 <= j < |entries| :: entries[j].key != CostsSeparator && entries[j].key != TotalCost
    ensures DistinctLabels(rows)
  {
    if total > 0.0 {
      var sep := [Row(CostsSeparator, Blank)];
      var tot := [Row(TotalCost, Amount(total, Currency))];
      assert CostsSeparator[0] != TotalCost[0];
      DistinctConcat(sep, entries);
      DistinctConcat(sep + entries, tot);
      assert CostBlock(entries, total) == sep + entries + tot;
      DistinctConcat(base, sep + entries + tot);
    }
  }

  lemma CostKeysApart(entries: seq<Row>, keys: set<string>)
    requires forall j | 0 <= j < |entries| :: entries[j].key in keys
    requires CostsSeparator !in keys && TotalCost !in keys
    ensures forall j | 0 <= j < |entries| :: entries[j].key != CostsSeparator && entries[j].key != TotalCost
  {
  }

  /** The fixed part of a cement result, in display order. */
  function CementBase(q: CementQuantities): seq<Row> {
    [Row("Volume", Amount(q.wetVolume, "m³")),
     Row("Cement Bags", Amount(q.cementBags as real, "bags (50kg)")),
     Row("Sand", Amount(q.sandVolume, "m³")),
     Row("Aggregate", Amount(q.aggregateVolume, "m³"))]
  }

  /** The cement result rows: the fixed part, then the cost block. */
  function CementRows(q: CementQuantities, cementCost: real, sandCost: real, aggregateCost: real): (r: seq<Row>)
    ensures |r| >= 4 && r[..4] == CementBase(q)
    ensures cementCost + sandCost + aggregateCost <= 0.0 ==> r == CementBase(q)
    ensures cementCost + sandCost + aggregateCost > 0.0 ==>
              && |r| >= 6 && r[4] == Row(CostsSeparator, Blank)
              && r[|r| - 1] == Row(TotalCost, Amount(cementCost + sandCost + aggregateCost, Currency))
    ensures cementCost + sandCost + aggregateCost > 0.0 ==>
              r[5..|r| - 1] == CementCostEntries(cementCost, sandCost, aggregateCost)
  {
    var base := CementBase(q);
    var entries := CementCostEntries(cementCost, sandCost, aggregateCost);
    var total := cementCost + sandCost + aggregateCost;
    var r := base + CostBlock(entries, total);
    assert r[..4] == base;
    CostBlockEntries(base, entries, total);
    r
  }

  /** A cement result never shows a key twice, as a JavaScript object cannot. */
  lemma CementRowsDistinct(q: CementQuantities, cementCost: real, sandCost: real, aggregateCost: real)
    ensures DistinctLabels(CementRows(q, cementCost, sandCost, aggregateCost))
  {
    var entries := CementCostEntries(cementCost, sandCost, aggregateCost);
    CementCostLabels(cementCost, sandCost, aggregateCost);
    CementBaseLabels(q);
    CementLabelsApart(q, entries);
    CostKeysApart(entries, {"Cement Cost", "Sand Cost", "Aggregate Cost"});
    var total := cementCost + sandCost + aggregateCost;
    assert CementRows(q, cementCost, sandCost, aggregateCost) == CementBase(q) + CostBlock(entries, total);
    CostBlockDistinct(CementRows(q, cementCost, sandCost, aggregateCost), CementBase(q), entries, total);
  }

  /** The cement cost keys are distinct and each is one of the three cost keys. */
  lemma CementCostLabels(cementCost: real, sandCost: real, aggregateCost: real)
    ensures var r := CementCostEntries(cementCost, sandCost, aggregateCost);
      && (forall j | 0 <= j < |r| :: r[j].key in {"Cement Cost", "Sand Cost", "Aggregate Cost"})
      && DistinctLabels(r)
  {
    CementCostEntriesKeys(cementCost, sandCost, aggregateCost);
  }

  /** The fixed keys of a cement result are distinct and differ from the separator and the total. */
  lemma CementBaseLabels(q: CementQuantities)
    ensures DistinctLabels(CementBase(q))
    ensures forall i | 0 <= i < |CementBase(q)| :: CementBase(q)[i].key != CostsSeparator && CementBase(q)[i].key != TotalCost
  {
  }

  /** No cost key of a cement result is one of its fixed keys. */
  lemma CementLabelsApart(q: CementQuantities, entries: seq<Row>)
    requires forall j | 0 <= j < |entries| :: entries[j].key in {"Cement Cost", "Sand Cost", "Aggregate Cost"}
    ensures forall i, j | 0 <= i < |CementBase(q)| && 0 <= j < |entries| :: CementBase(q)[i].key != entries[j].key
  {
    assert "Cement Bags"[7] != "Cement Cost"[7];
    assert "Aggregate"[0] != "Sand Cost"[0];
  }

  /** The keys a cement result always shows, with what they hold; no cost key is among them. */
  lemma CementBaseLookup(q: CementQuantities)
    ensures Lookup(CementBase(q), "Volume") == Some(Amount(q.wetVolume, "m³"))
    ensures Lookup(CementBase(q), "Cement Bags") == Some(Amount(q.cementBags as real, "bags (50kg)"))
    ensures Lookup(CementBase(q), "Sand") == Some(Amount(q.sandVolume, "m³"))
    ensures Lookup(CementBase(q), "Aggregate") == Some(Amount(q.aggregateVolume, "m³"))
    ensures Lookup(CementBase(q), "Cement Cost").None? && Lookup(CementBase(q), "Sand Cost").None?
    ensures Lookup(CementBase(q), "Aggregate Cost").None? && Lookup(CementBase(q), TotalCost).None?
  {
    var b := CementBase(q);
    LookupFirst(b, 0);
    LookupFirst(b, 1);
    LookupFirst(b, 2);
    LookupFirst(b, 3);
    LookupMeaning(b, "Cement Cost");
    LookupMeaning(b, "Sand Cost");
    LookupMeaning(b, "Aggregate Cost");
    LookupMeaning(b, TotalCost);
  }

  /** The positive per-material cement costs, in display order. */
  function CementCostEntries(cementCost: real, sandCost: real, aggregateCost: real): (r: seq<Row>)
    ensures Lookup(r, TotalCost).None?
    ensures Lookup(r, "Cement Cost") == if cementCost > 0.0 then Some(Amount(cementCost, Currency)) else None
    ensures Lookup(r, "Sand Cost") == if sandCost > 0.0 then Some(Amount(sandCost, Currency)) else None
    ensures Lookup(r, "Aggregate Cost") == if aggregateCost > 0.0 then Some(Amount(aggregateCost, Currency)) else None
  {
    var e1 := CostEntry("Cement Cost", cementCost);
    var e2 := CostEntry("Sand Cost", sandCost);
    var e3 := CostEntry("Aggregate Cost", aggregateCost);
    LookupAppend(e1, e2, TotalCost);
    LookupAppend(e1 + e2, e3, TotalCost);
    LookupAppend(e1, e2, "Cement Cost");
    LookupAppend(e1 + e2, e3, "Cement Cost");
    LookupAppend(e1, e2, "Sand Cost");
    LookupAppend(e1 + e2, e3, "Sand Cost");
    LookupAppend(e1, e2, "Aggregate Cost");
    LookupAppend(e1 + e2, e3, "Aggregate Cost");
    e1 + e2 + e3
  }

  /**
   * The cost entries of a cement result are exactly the positive costs, in
   * the order Cement, Sand, Aggregate, each key once.
   */
  lemma CementCostEntriesKeys(cementCost: real, sandCost: real, aggregateCost: real)
    ensures var r := CementCostEntries(cementCost, sandCost, aggregateCost);
      && Keys(r) == (if cementCost > 0.0 then ["Cement Cost"] else []) + (if sandCost > 0.0 then ["Sand Cost"] else [])
                    + (if aggregateCost > 0.0 then ["Aggregate Cost"] else [])
      && (forall j | 0 <= j < |r| :: r[j].key in {"Cement Cost", "Sand Cost", "Aggregate Cost"})
      && DistinctLabels(r)
  {
    var e1 := CostEntry("Cement Cost", cementCost);
    var e2 := CostEntry("Sand Cost", sandCost);
    var e3 := CostEntry("Aggregate Cost", aggregateCost);
    assert CementCostEntries(cementCost, sandCost, aggregateCost) == e1 + e2 + e3;
    KeysAppend(e1, e2);
    KeysAppend(e1 + e2, e3);
    assert "Cement Cost"[0] != "Sand Cost"[0] && "Sand Cost"[0] != "Aggregate Cost"[0];
    assert "Aggregate Cost"[0] != "Cement Cost"[0];
    DistinctConcat(e1, e2);
    DistinctConcat(e1 + e2, e3);
  }

  /** The four quantities are shown whatever the prices. */
  lemma CementRowsQuantities(q: CementQuantities, cementCost: real, sandCost: real, aggregateCost: real)
    ensures var r := CementRows(q, cementCost, sandCost, aggregateCost);
      && Lookup(r, "Volume") == Some(Amount(q.wetVolume, "m³"))
      && Lookup(r, "Cement Bags") == Some(Amount(q.cementBags as real, "bags (50kg)"))
      && Lookup(r, "Sand") == Some(Amount(q.sandVolume, "m³"))
      && Lookup(r, "Aggregate") == Some(Amount(q.aggregateVolume, "m³"))
  {
    var entries := CementCostEntries(cementCost, sandCost, aggregateCost);
    var total := cementCost + sandCost + aggregateCost;
    assert CementRows(q, cementCost, sandCost, aggregateCost) == CementBase(q) + CostBlock(entries, total);
    CementBaseLookup(q);
    CostBlockLookup(CementBase(q), entries, total, "Volume");
    CostBlockLookup(CementBase(q), entries, total, "Cement Bags");
    CostBlockLookup(CementBase(q), entries, total, "Sand");
    CostBlockLookup(CementBase(q), entries, total, "Aggregate");
  }

  /** A cement result shows a total exactly when the total cost is positive. */
  lemma CementRowsTotal(q: CementQuantities, cementCost: real, sandCost: real, aggregateCost: real)
    ensures var total := cementCost + sandCost + aggregateCost;
            Lookup(CementRows(q, cementCost, sandCost, aggregateCost), TotalCost)
            == if total > 0.0 then Some(Amount(total, Currency)) else None
  {
    var entries := CementCostEntries(cementCost, sandCost, aggregateCost);
    var total := cementCost + sandCost + aggregateCost;
    assert CementRows(q, cementCost, sandCost, aggregateCost) == CementBase(q) + CostBlock(entries, total);
    CementBaseLookup(q);
    CostBlockLookup(CementBase(q), entries, total, TotalCost);
  }

  /** Each cement cost is shown only when both it and the total are positive. */
  lemma CementRowsCosts(q: CementQuantities, cementCost: real, sandCost: real, aggregateCost: real)
    ensures var r := CementRows(q, cementCost, sandCost, aggregateCost);
            var total := cementCost + sandCost + aggregateCost;
      && Lookup(r, "Cement Cost") == (if total > 0.0 && cementCost > 0.0 then Some(Amount(cementCost, Currency)) else None)
      && Lookup(r, "Sand Cost") == (if total > 0.0 && sandCost > 0.0 then Some(Amount(sandCost, Currency)) else None)
      && Lookup(r, "Aggregate Cost") == (if total > 0.0 && aggregateCost > 0.0 then Some(Amount(aggregateCost, Currency)) else None)
  {
    var entries := CementCostEntries(cementCost, sandCost, aggregateCost);
    var total := cementCost + sandCost + aggregateCost;
    assert CementRows(q, cementCost, sandCost, aggregateCost) == CementBase(q) + CostBlock(entries, total);
    CementBaseLookup(q);
    CostBlockLookup(CementBase(q), entries, total, "Cement Cost");
    CostBlockLookup(CementBase(q), entries, total, "Sand Cost");
    CostBlockLookup(CementBase(q), entries, total, "Aggregate Cost");
  }

  /**
   * `calculateCement()`: a missing, zero or non-numeric length, width or
   * thickness is an error; so is a ratio with no mix (the app would show
   * NaN). Otherwise the rows for the computed quantities and the costs at
   * the entered prices (a blank price counts as 0).
   */
  function CementResult(input: CementInput): (r: Result<seq<Row>, CalcError>)
    ensures r.Err? <==> !Truthy(input.length) || !Truthy(input.width) || !Truthy(input.thicknessMm)
                        || MixOf(input.ratio).None?
    ensures r.Err? ==> (r.error == FillInAllFields
                        <==> !Truthy(input.length) || !Truthy(input.width) || !Truthy(input.thicknessMm))
  {
    if !Truthy(input.length) || !Truthy(input.width) || !Truthy(input.thicknessMm) then Err(FillInAllFields)
    else match MixOf(input.ratio)
      case None => Err(NonFiniteResult)
      case Some(mix) =>
        var q := CementQuantitiesOf(input.length.n, input.width.n, input.thicknessMm.n, mix);
        Ok(CementRows(q, Cost(input.cementPrice, q.cementBags as real),
                      Cost(input.sandPrice, q.sandVolume),
                      Cost(input.aggregatePrice, q.aggregateVolume)))
  }

  /** The quantities of a cement input whose calculation succeeds. */
  function CementQuantitiesFor(input: CementInput): CementQuantities
    requires CementResult(input).Ok?
  {
    CementQuantitiesOf(input.length.n, input.width.n, input.thicknessMm.n, MixOf(input.ratio).value)
  }

  /** The rows of a successful cement calculation. */
  lemma CementResultRows(input: CementInput)
    requires CementResult(input).Ok?
    ensures var q := CementQuantitiesFor(input);
      CementResult(input).value
      == CementRows(q, Cost(input.cementPrice, q.cementBags as real), Cost(input.sandPrice, q.sandVolume),
                    Cost(input.aggregatePrice, q.aggregateVolume))
  {
  }

  /**
   * A cement result shows the slab volume, the bag count and the sand and
   * aggregate volumes computed for the ratio's mix, and shows a total
   * exactly when the priced materials cost something.
   */
  lemma CementResultMeaning(input: CementInput)
    requires CementResult(input).Ok?
    ensures var q := CementQuantitiesFor(input);
            var rows := CementResult(input).value;
            var total := Cost(input.cementPrice, q.cementBags as real) + Cost(input.sandPrice, q.sandVolume)
                         + Cost(input.aggregatePrice, q.aggregateVolume);
      && Lookup(rows, "Volume") == Some(Amount(q.wetVolume, "m³"))
      && Lookup(rows, "Cement Bags") == Some(Amount(q.cementBags as real, "bags (50kg)"))
      && Lookup(rows, "Sand") == Some(Amount(q.sandVolume, "m³"))
      && Lookup(rows, "Aggregate") == Some(Amount(q.aggregateVolume, "m³"))
      && (HasValue(rows, TotalCost) <==> total > 0.0)
  {
    var q := CementQuantitiesFor(input);
    var cc, sc, ac := Cost(input.cementPrice, q.cementBags as real), Cost(input.sandPrice, q.sandVolume),
                      Cost(input.aggregatePrice, q.aggregateVolume);
    var rows := CementResult(input).value;
    CementResultRows(input);
    CementRowsQuantities(q, cc, sc, ac);
    CementRowsTotal(q, cc, sc, ac);
    assert Lookup(rows, TotalCost) == Lookup(CementRows(q, cc, sc, ac), TotalCost);
  }

  // ----------------------------------------------------------------- brick

  /** Standard Zambian brick: 230 mm by 76 mm face, single-brick wall 110 mm thick. */
  const BrickLength: real := 0.230
  const BrickHeight: real := 0.076
  const WallThickness: real := 0.110
  /** Five per cent extra for breakage and cutting. */
  const Wastage: real := 1.05

  datatype BrickInput = BrickInput(
    length: Number, height: Number, mortarMm: Number,
    brickPrice: Number, mortarPrice: Number)

  datatype BrickQuantities = BrickQuantities(
    wallArea: real, areaPerBrick: real, bricksNeeded: int, bricksWithWastage: int, mortarVolume: real)

  /** The face area one brick covers together with its mortar joint. */
  function AreaPerBrick(mortarMm: real): real {
    (BrickLength + mortarMm / 1000.0) * (BrickHeight + mortarMm / 1000.0)
  }

  /**
   * The quantities `calculateBrick()` derives from the wall and the joint
   * thickness; the count with wastage is the least integer at least 5%
   * above the bricks needed.
   */
  function BrickQuantitiesOf(length: real, height: real, mortarMm: real): (r: BrickQuantities)
    requires AreaPerBrick(mortarMm) != 0.0
    ensures r.wallArea == length * height && r.areaPerBrick == AreaPerBrick(mortarMm)
    ensures r.bricksNeeded == Ceil(length * height / AreaPerBrick(mortarMm))
    ensures r.mortarVolume == length * height * WallThickness - r.bricksNeeded as real * (BrickLength * WallThickness * BrickHeight)
    ensures r.bricksWithWastage as real >= r.bricksNeeded as real * Wastage
    ensures (r.bricksWithWastage - 1) as real < r.bricksNeeded as real * Wastage
  {
    var area := length * height;
    var needed := Ceil(area / AreaPerBrick(mortarMm));
    BrickQuantities(area, AreaPerBrick(mortarMm), needed, Ceil(needed as real * Wastage),
                    length * height * WallThickness - needed as real * (BrickLength * WallThickness * BrickHeight))
  }

  /**
   * The bricks needed are the least number whose faces, joints included,
   * cover the wall; the count with wastage is the least integer at least
   * 5% above it, so never below it.
   */
  lemma BrickCover(length: real, height: real, mortarMm: real)
    requires AreaPerBrick(mortarMm) > 0.0
    ensures var q := BrickQuantitiesOf(length, height, mortarMm);
      && q.bricksNeeded as real * q.areaPerBrick >= length * height
      && (q.bricksNeeded - 1) as real * q.areaPerBrick < length * height
      && q.bricksWithWastage as real >= q.bricksNeeded as real * Wastage
      && (q.bricksWithWastage - 1) as real < q.bricksNeeded as real * Wastage
      && (q.bricksNeeded >= 0 ==> q.bricksWithWastage >= q.bricksNeeded)
  {
    CeilDivCovers(length * height, AreaPerBrick(mortarMm));
  }

  /**
   * On a positive wall and joint at least one brick is needed, and the
   * count shown (with wastage) is at least the need and covers the wall.
   */
  lemma BrickCountsOnPositiveInput(length: real, height: real, mortarMm: real)
    requires length > 0.0 && height > 0.0 && mortarMm > 0.0
    ensures AreaPerBrick(mortarMm) > 0.0
    ensures BrickQuantitiesOf(length, height, mortarMm).bricksNeeded >= 1
    ensures BrickQuantitiesOf(length, height, mortarMm).bricksWithWastage
            >= BrickQuantitiesOf(length, height, mortarMm).bricksNeeded
    ensures BrickQuantitiesOf(length, height, mortarMm).bricksWithWastage as real * AreaPerBrick(mortarMm)
            >= length * height
  {
    PerBrickPositive(mortarMm);
    var q := BrickQuantitiesOf(length, height, mortarMm);
    CeilDivAbove(length * height, AreaPerBrick(mortarMm));
    CountCovers(q.bricksNeeded, q.bricksWithWastage, AreaPerBrick(mortarMm), length * height);
  }

  lemma PerBrickPositive(mortarMm: real)
    requires mortarMm > 0.0
    ensures AreaPerBrick(mortarMm) > 0.0
  {
    var m := mortarMm / 1000.0;
    assert BrickLength + m > 0.0 && BrickHeight + m > 0.0;
  }

  /** A count whose bricks cover a positive area is at least one, and so is any larger count. */
  lemma CountCovers(needed: int, shown: int, perBrick: real, area: real)
    requires perBrick > 0.0 && area > 0.0
    requires needed as real * perBrick >= area
    requires shown as real >= needed as real * Wastage
    ensures needed >= 1 && shown >= needed && shown as real * perBrick >= area
  {
    if needed < 1 {
      ScaleLe(needed as real, 0.0, perBrick);
    }
    assert shown >= needed;
    ScaleLe(needed as real, shown as real, perBrick);
  }

  /** The fixed part of a brick result, in display order. */
  function BrickBase(q: BrickQuantities): seq<Row> {
    [Row("Wall Area", Amount(q.wallArea, "m²")),
     Row("Bricks Needed", Amount(q.bricksWithWastage as real, "pieces")),
     Row("Mortar Volume", Amount(q.mortarVolume, "m³"))]
  }

  /** The positive per-material brick costs, in display order. */
  function BrickCostEntries(brickCost: real, mortarCost: real): (r: seq<Row>)
    ensures Lookup(r, TotalCost).None?
    ensures Lookup(r, "Bricks Cost") == if brickCost > 0.0 then Some(Amount(brickCost, Currency)) else None
    ensures Lookup(r, "Mortar Cost") == if mortarCost > 0.0 then Some(Amount(mortarCost, Currency)) else None
  {
    var e1 := CostEntry("Bricks Cost", brickCost);
    var e2 := CostEntry("Mortar Cost", mortarCost);
    LookupAppend(e1, e2, TotalCost);
    LookupAppend(e1, e2, "Bricks Cost");
    LookupAppend(e1, e2, "Mortar Cost");
    e1 + e2
  }

  /**
   * The cost entries of a brick result are exactly the positive costs, in
   * the order Bricks, Mortar, each key once.
   */
  lemma BrickCostEntriesKeys(brickCost: real, mortarCost: real)
    ensures var r := BrickCostEntries(brickCost, mortarCost);
      && Keys(r) == (if brickCost > 0.0 then ["Bricks Cost"] else []) + (if mortarCost > 0.0 then ["Mortar Cost"] else [])
      && (forall j | 0 <= j < |r| :: r[j].key in {"Bricks Cost", "Mortar Cost"})
      && DistinctLabels(r)
  {
    var e1 := CostEntry("Bricks Cost", brickCost);
    var e2 := CostEntry("Mortar Cost", mortarCost);
    assert BrickCostEntries(brickCost, mortarCost) == e1 + e2;
    KeysAppend(e1, e2);
    assert "Bricks Cost"[0] != "Mortar Cost"[0];
    DistinctConcat(e1, e2);
  }

  /** The brick result rows: the fixed part, then the cost block. */
  function BrickRows(q: BrickQuantities, brickCost: real, mortarCost: real): (r: seq<Row>)
    ensures |r| >= 3 && r[..3] == BrickBase(q)
    ensures brickCost + mortarCost <= 0.0 ==> r == BrickBase(q)
    ensures brickCost + mortarCost > 0.0 ==>
              && |r| >= 5 && r[3] == Row(CostsSeparator, Blank)
              && r[|r| - 1] == Row(TotalCost, Amount(brickCost + mortarCost, Currency))
    ensures brickCost + mortarCost > 0.0 ==> r[4..|r| - 1] == BrickCostEntries(brickCost, mortarCost)
  {
    var base := BrickBase(q);
    var entries := BrickCostEntries(brickCost, mortarCost);
    var total := brickCost + mortarCost;
    var r := base + CostBlock(entries, total);
    assert r[..3] == base;
    CostBlockEntries(base, entries, total);
    r
  }

  /** A brick result never shows a key twice. */
  lemma BrickRowsDistinct(q: BrickQuantities, brickCost: real, mortarCost: real)
    ensures DistinctLabels(BrickRows(q, brickCost, mortarCost))
  {
    var entries := BrickCostEntries(brickCost, mortarCost);
    BrickCostEntriesKeys(brickCost, mortarCost);
    BrickBaseLabels(q);
    BrickLabelsApart(q, entries);
    CostKeysApart(entries, {"Bricks Cost", "Mortar Cost"});
    var total := brickCost + mortarCost;
    assert BrickRows(q, brickCost, mortarCost) == BrickBase(q) + CostBlock(entries, total);
    CostBlockDistinct(BrickRows(q, brickCost, mortarCost), BrickBase(q), entries, total);
  }

  /** The fixed keys of a brick result are distinct and differ from the separator and the total. */
  lemma BrickBaseLabels(q: BrickQuantities)
    ensures DistinctLabels(BrickBase(q))
    ensures forall i | 0 <= i < |BrickBase(q)| :: BrickBase(q)[i].key != CostsSeparator && BrickBase(q)[i].key != TotalCost
  {
    assert "Bricks Needed"[0] != "Mortar Volume"[0];
    assert "Bricks Needed"[0] != CostsSeparator[0] && "Mortar Volume"[0] != CostsSeparator[0];
  }

  /** No cost key of a brick result is one of its fixed keys. */
  lemma BrickLabelsApart(q: BrickQuantities, entries: seq<Row>)
    requires forall j | 0 <= j < |entries| :: entries[j].key in {"Bricks Cost", "Mortar Cost"}
    ensures forall i, j | 0 <= i < |BrickBase(q)| && 0 <= j < |entries| :: BrickBase(q)[i].key != entries[j].key
  {
  }

  /** The keys a brick result always shows, with what they hold; no cost key is among them. */
  lemma BrickBaseLookup(q: BrickQuantities)
    ensures Lookup(BrickBase(q), "Wall Area") == Some(Amount(q.wallArea, "m²"))
    ensures Lookup(BrickBase(q), "Bricks Needed") == Some(Amount(q.bricksWithWastage as real, "pieces"))
    ensures Lookup(BrickBase(q), "Mortar Volume") == Some(Amount(q.mortarVolume, "m³"))
    ensures Lookup(BrickBase(q), "Bricks Cost").None? && Lookup(BrickBase(q), "Mortar Cost").None?
    ensures Lookup(BrickBase(q), TotalCost).None?
  {
    var b := BrickBase(q);
    LookupFirst(b, 0);
    LookupFirst(b, 1);
    assert b[1].key[0] != b[2].key[0];
    LookupFirst(b, 2);
    LookupMeaning(b, "Bricks Cost");
    LookupMeaning(b, "Mortar Cost");
    LookupMeaning(b, TotalCost);
  }

  /** The three quantities are shown whatever the prices. */
  lemma BrickRowsQuantities(q: BrickQuantities, brickCost: real, mortarCost: real)
    ensures var r := BrickRows(q, brickCost, mortarCost);
      && Lookup(r, "Wall Area") == Some(Amount(q.wallArea, "m²"))
      && Lookup(r, "Bricks Needed") == Some(Amount(q.bricksWithWastage as real, "pieces"))
      && Lookup(r, "Mortar Volume") == Some(Amount(q.mortarVolume, "m³"))
  {
    var entries := BrickCostEntries(brickCost, mortarCost);
    assert BrickRows(q, brickCost, mortarCost) == BrickBase(q) + CostBlock(entries, brickCost + mortarCost);
    BrickBaseLookup(q);
    CostBlockLookup(BrickBase(q), entries, brickCost + mortarCost, "Wall Area");
    CostBlockLookup(BrickBase(q), entries, brickCost + mortarCost, "Bricks Needed");
    CostBlockLookup(BrickBase(q), entries, brickCost + mortarCost, "Mortar Volume");
  }

  /** A brick result shows a total exactly when the total cost is positive. */
  lemma BrickRowsTotal(q: BrickQuantities, brickCost: real, mortarCost: real)
    ensures Lookup(BrickRows(q, brickCost, mortarCost), TotalCost)
            == if brickCost + mortarCost > 0.0 then Some(Amount(brickCost + mortarCost, Currency)) else None
  {
    var entries := BrickCostEntries(brickCost, mortarCost);
    assert BrickRows(q, brickCost, mortarCost) == BrickBase(q) + CostBlock(entries, brickCost + mortarCost);
    BrickBaseLookup(q);
    CostBlockLookup(BrickBase(q), entries, brickCost + mortarCost, TotalCost);
  }

  /** Each brick cost is shown only when both it and the total are positive. */
  lemma BrickRowsCosts(q: BrickQuantities, brickCost: real, mortarCost: real)
    ensures var r := BrickRows(q, brickCost, mortarCost);
            var total := brickCost + mortarCost;
      && Lookup(r, "Bricks Cost") == (if total > 0.0 && brickCost > 0.0 then Some(Amount(brickCost, Currency)) else None)
      && Lookup(r, "Mortar Cost") == (if total > 0.0 && mortarCost > 0.0 then Some(Amount(mortarCost, Currency)) else None)
  {
    var entries := BrickCostEntries(brickCost, mortarCost);
    assert BrickRows(q, brickCost, mortarCost) == BrickBase(q) + CostBlock(entries, brickCost + mortarCost);
    BrickBaseLookup(q);
    CostBlockLookup(BrickBase(q), entries, brickCost + mortarCost, "Bricks Cost");
    CostBlockLookup(BrickBase(q), entries, brickCost + mortarCost, "Mortar Cost");
  }

  /**
   * `calculateBrick()`: a missing, zero or non-numeric length, height or
   * mortar thickness is an error; a mortar thickness for which a brick
   * with its joint covers no area (-230 mm or -76 mm) divides by zero.
   */
  function BrickResult(input: BrickInput): (r: Result<seq<Row>, CalcError>)
    ensures r.Err? && r.error == FillInAllFields <==>
              !Truthy(input.length) || !Truthy(input.height) || !Truthy(input.mortarMm)
    ensures r.Err? && r.error == NonFiniteResult <==>
              Truthy(input.length) && Truthy(input.height) && Truthy(input.mortarMm)
              && AreaPerBrick(input.mortarMm.n) == 0.0
  {
    if !Truthy(input.length) || !Truthy(input.height) || !Truthy(input.mortarMm) then Err(FillInAllFields)
    else if AreaPerBrick(input.mortarMm.n) == 0.0 then Err(NonFiniteResult)
    else
      var q := BrickQuantitiesOf(input.length.n, input.height.n, input.mortarMm.n);
      Ok(BrickRows(q, Cost(input.brickPrice, q.bricksWithWastage as real),
                   Cost(input.mortarPrice, q.mortarVolume)))
  }

  /** The rows of a successful brick calculation. */
  lemma BrickResultRows(input: BrickInput)
    requires BrickResult(input).Ok?
    ensures var q := BrickQuantitiesOf(input.length.n, input.height.n, input.mortarMm.n);
      BrickResult(input).value
      == BrickRows(q, Cost(input.brickPrice, q.bricksWithWastage as real), Cost(input.mortarPrice, q.mortarVolume))
  {
  }

  /**
   * A brick result shows the wall area, the count with wastage and the
   * mortar volume, and shows a total exactly when the priced materials
   * cost something.
   */
  lemma BrickResultMeaning(input: BrickInput)
    requires BrickResult(input).Ok?
    ensures var q := BrickQuantitiesOf(input.length.n, input.height.n, input.mortarMm.n);
            var rows := BrickResult(input).value;
            var total := Cost(input.brickPrice, q.bricksWithWastage as real) + Cost(input.mortarPrice, q.mortarVolume);
      && Lookup(rows, "Wall Area") == Some(Amount(q.wallArea, "m²"))
      && Lookup(rows, "Bricks Needed") == Some(Amount(q.bricksWithWastage as real, "pieces"))
      && Lookup(rows, "Mortar Volume") == Some(Amount(q.mortarVolume, "m³"))
      && (HasValue(rows, TotalCost) <==> total > 0.0)
  {
    var q := BrickQuantitiesOf(input.length.n, input.height.n, input.mortarMm.n);
    var bc, mc := Cost(input.brickPrice, q.bricksWithWastage as real), Cost(input.mortarPrice, q.mortarVolume);
    var rows := BrickResult(input).value;
    BrickResultRows(input);
    BrickRowsQuantities(q, bc, mc);
    BrickRowsTotal(q, bc, mc);
    assert Lookup(rows, TotalCost) == Lookup(BrickRows(q, bc, mc), TotalCost);
  }

  // ------------------------------------------------------- area and volume

  /** `Math.PI`, written with the digits JavaScript prints for it. */
  const MathPI: real := 3.141592653589793

  /**
   * `calculateArea()`'s shape dispatch: the length is always required, the
   * width for a rectangle or triangle only; a circle uses the length as its
   * radius; any other shape yields area 0 without error.
   */
  function AreaOf(shape: string, length: Number, width: Number): (r: Result<real, CalcError>)
    ensures r.Err? <==> !Truthy(length) || ((shape == "rectangle" || shape == "triangle") && !Truthy(width))
    ensures r.Err? ==> r.error == FillInAllFields
    ensures r.Ok? && shape == "rectangle" ==> r.value == length.n * width.n
    ensures r.Ok? && shape == "triangle" ==> 2.0 * r.value == length.n * width.n
    ensures r.Ok? && shape == "circle" ==> r.value == MathPI * length.n * length.n
    ensures r.Ok? && shape !in {"rectangle", "triangle", "circle"} ==> r.value == 0.0
  {
    if !Truthy(length) then Err(FillInAllFields)
    else if shape == "rectangle" then (if !Truthy(width) then Err(FillInAllFields) else Ok(length.n * width.n))
    else if shape == "triangle" then (if !Truthy(width) then Err(FillInAllFields) else Ok((length.n * width.n) / 2.0))
    else if shape == "circle" then Ok(MathPI * length.n * length.n)
    else Ok(0.0)
  }

  /** The area rows: the area in square metres, then the same area in hectares. */
  function AreaRows(area: real): (r: seq<Row>)
    ensures |r| == 2 && r[0] == Row("Area", Amount(area, "m²"))
    ensures r[1].key == "Area in Hectares" && r[1].cell.Amount? && r[1].cell.x * 10000.0 == area
  {
    [Row("Area", Amount(area, "m²")), Row("Area in Hectares", Amount(area / 10000.0, "ha"))]
  }

  /**
   * `calculateVolume()`'s shape dispatch: each known shape checks only the
   * dimensions it uses (a cylinder takes the length as its radius); any
   * other shape checks nothing and yields volume 0.
   */
  function VolumeOf(shape: string, length: Number, width: Number, height: Number): (r: Result<real, CalcError>)
    ensures r.Err? <==>
              || (shape == "cube" && !Truthy(length))
              || (shape == "cuboid" && (!Truthy(length) || !Truthy(width) || !Truthy(height)))
              || (shape == "cylinder" && (!Truthy(length) || !Truthy(height)))
    ensures r.Err? ==> r.error == FillInAllFields
    ensures r.Ok? && shape == "cube" ==> r.value == length.n * length.n * length.n
    ensures r.Ok? && shape == "cuboid" ==> r.value == length.n * width.n * height.n
    ensures r.Ok? && shape == "cylinder" ==> r.value == MathPI * length.n * length.n * height.n
    ensures r.Ok? && shape !in {"cube", "cuboid", "cylinder"} ==> r.value == 0.0
  {
    if shape == "cube" then
      (if !Truthy(length) then Err(FillInAllFields) else Ok(length.n * length.n * length.n))
    else if shape == "cuboid" then
      (if !Truthy(length) || !Truthy(width) || !Truthy(height) then Err(FillInAllFields)
       else Ok(length.n * width.n * height.n))
    else if shape == "cylinder" then
      (if !Truthy(length) || !Truthy(height) then Err(FillInAllFields)
       else Ok(MathPI * length.n * length.n * height.n))
    else Ok(0.0)
  }

  /** The volume rows: the volume in cubic metres, then the same volume in litres. */
  function VolumeRows(volume: real): (r: seq<Row>)
    ensures |r| == 2 && r[0] == Row("Volume", Amount(volume, "m³"))
    ensures r[1].key == "Volume in Litres" && r[1].cell.Amount? && r[1].cell.x == 1000.0 * volume
  {
    [Row("Volume", Amount(volume, "m³")), Row("Volume in Litres", Amount(volume * 1000.0, "L"))]
  }

  // ------------------------------------------------- globals and recording

  /**
   * The `window` globals the shopping list reads: `lastCementResults`,
   * `lastBrickResults`, `lastAreaResults` and `lastVolumeResults`.
   */
  class LastResults {
    var cement: Option<seq<Row>>
    var brick: Option<seq<Row>>
    var area: Option<seq<Row>>
    var volume: Option<seq<Row>>

    constructor ()
      ensures cement.None? && brick.None? && area.None? && volume.None?
    {
      cement, brick, area, volume := None, None, None, None;
    }

    /** `window.lastXResults || {}` for the calculator type `kind`; `{}` for any other type. */
    function ResultsFor(kind: string): (r: seq<Row>)
      reads this
      ensures kind !in {"cement", "brick", "area", "volume"} ==> r == []
      ensures kind == "cement" ==> r == if cement.Some? then cement.value else []
      ensures kind == "brick" ==> r == if brick.Some? then brick.value else []
      ensures kind == "area" ==> r == if area.Some? then area.value else []
      ensures kind == "volume" ==> r == if volume.Some? then volume.value else []
    {
      var stored := if kind == "cement" then cement
                    else if kind == "brick" then brick
                    else if kind == "area" then area
                    else if kind == "volume" then volume
                    else None;
      if stored.Some? then stored.value else []
    }
  }

  /**
   * `saveCalculation(record)` with its promise ignored: the record is
   * appended under a fresh key when the store accepts it, and nothing
   * changes otherwise.
   */
  method LogCalculation(db: Db.Database, rec: Db.Calculation)
    requires db.Valid()
    modifies db
    ensures db.Valid()
    ensures db.calculations == if old(db.CanAdd()) then old(db.calculations) + [Db.Entry(old(db.currentNumber), rec)]
                               else old(db.calculations)
    ensures db.purchases == old(db.purchases) && db.schema == old(db.schema)
    ensures db.connected == old(db.connected) && db.version == old(db.version)
    ensures db.currentNumber == if old(db.CanAdd()) then old(db.currentNumber) + 1 else old(db.currentNumber)
  {
    var _ := db.SaveCalculation(rec);
  }

  function CementRecord(input: CementInput, now: int, rows: seq<Row>): Db.Calculation {
    Db.Calculation("cement", now,
      map["length" := input.length, "width" := input.width, "thickness" := input.thicknessMm,
          "ratio" := Str(input.ratio)],
      rows)
  }

  function BrickRecord(input: BrickInput, now: int, rows: seq<Row>): Db.Calculation {
    Db.Calculation("brick", now,
      map["length" := input.length, "height" := input.height, "mortarThickness" := input.mortarMm],
      rows)
  }

  function AreaRecord(shape: string, length: Number, width: Number, now: int, rows: seq<Row>): Db.Calculation {
    Db.Calculation("area", now, map["shape" := Str(shape), "length" := length, "width" := width], rows)
  }

  function VolumeRecord(shape: string, length: Number, width: Number, height: Number, now: int, rows: seq<Row>): Db.Calculation {
    Db.Calculation("volume", now,
      map["shape" := Str(shape), "length" := length, "width" := width, "height" := height], rows)
  }

  /**
   * `calculateCement()`: on an error nothing is stored or recorded;
   * otherwise the rows become `lastCementResults` and a `cement` record is
   * logged. `now` is the `Date.now()` reading.
   */
  method CalculateCement(input: CementInput, now: int, last: LastResults, db: Db.Database)
    returns (shown: Result<seq<Row>, CalcError>)
    requires db.Valid()
    modifies last`cement, db
    ensures db.Valid()
    ensures db.currentNumber == if shown.Ok? && old(db.CanAdd()) then old(db.currentNumber) + 1 else old(db.currentNumber)
    ensures db.purchases == old(db.purchases) && db.schema == old(db.schema)
    ensures db.connected == old(db.connected) && db.version == old(db.version)
    ensures shown == CementResult(input)
    ensures shown.Err? ==> last.cement == old(last.cement) && db.calculations == old(db.calculations)
    ensures shown.Ok? ==> last.cement == Some(shown.value)
    ensures shown.Ok? ==>
              db.calculations == if old(db.CanAdd())
                                 then old(db.calculations) + [Db.Entry(old(db.currentNumber), CementRecord(input, now, shown.value))]
                                 else old(db.calculations)
  {
    shown := CementResult(input);
    if shown.Ok? {
      last.cement := Some(shown.value);
      LogCalculation(db, CementRecord(input, now, shown.value));
    }
  }

  /** `calculateBrick()`: as for cement, with `lastBrickResults` and a `brick` record. */
  method CalculateBrick(input: BrickInput, now: int, last: LastResults, db: Db.Database)
    returns (shown: Result<seq<Row>, CalcError>)
    requires db.Valid()
    modifies last`brick, db
    ensures db.Valid()
    ensures db.currentNumber == if shown.Ok? && old(db.CanAdd()) then old(db.currentNumber) + 1 else old(db.currentNumber)
    ensures db.purchases == old(db.purchases) && db.schema == old(db.schema)
    ensures db.connected == old(db.connected) && db.version == old(db.version)
    ensures shown == BrickResult(input)
    ensures shown.Err? ==> last.brick == old(last.brick) && db.calculations == old(db.calculations)
    ensures shown.Ok? ==> last.brick == Some(shown.value)
    ensures shown.Ok? ==>
              db.calculations == if old(db.CanAdd())
                                 then old(db.calculations) + [Db.Entry(old(db.currentNumber), BrickRecord(input, now, shown.value))]
                                 else old(db.calculations)
  {
    shown := BrickResult(input);
    if shown.Ok? {
      last.brick := Some(shown.value);
      LogCalculation(db, BrickRecord(input, now, shown.value));
    }
  }

  /**
   * `calculateArea()` as written: shows and logs the rows but never sets
   * `lastAreaResults`, so the shopping list cannot see them.
   */
  method CalculateAreaAsWritten(shape: string, length: Number, width: Number, now: int, last: LastResults, db: Db.Database)
    returns (shown: Result<seq<Row>, CalcError>)
    requires db.Valid()
    modifies db
    ensures db.Valid()
    ensures db.currentNumber == if shown.Ok? && old(db.CanAdd()) then old(db.currentNumber) + 1 else old(db.currentNumber)
    ensures db.purchases == old(db.purchases) && db.schema == old(db.schema)
    ensures db.connected == old(db.connected) && db.version == old(db.version)
    ensures shown.Err? <==> AreaOf(shape, length, width).Err?
    ensures shown.Ok? ==> shown.value == AreaRows(AreaOf(shape, length, width).value)
    ensures shown.Err? ==> db.calculations == old(db.calculations)
    ensures shown.Ok? ==>
              db.calculations == if old(db.CanAdd())
                                 then old(db.calculations) + [Db.Entry(old(db.currentNumber), AreaRecord(shape, length, width, now, shown.value))]
                                 else old(db.calculations)
  {
    var area := AreaOf(shape, length, width);
    if area.Err? {
      return Err(area.error);
    }
    shown := Ok(AreaRows(area.value));
    LogCalculation(db, AreaRecord(shape, length, width, now, shown.value));
  }

  /** `calculateArea()` with the evidently intended `window.lastAreaResults = result`. */
  method CalculateArea(shape: string, length: Number, width: Number, now: int, last: LastResults, db: Db.Database)
    returns (shown: Result<seq<Row>, CalcError>)
    requires db.Valid()
    modifies last`area, db
    ensures db.Valid()
    ensures db.currentNumber == if shown.Ok? && old(db.CanAdd()) then old(db.currentNumber) + 1 else old(db.currentNumber)
    ensures db.purchases == old(db.purchases) && db.schema == old(db.schema)
    ensures db.connected == old(db.connected) && db.version == old(db.version)
    ensures shown.Err? <==> AreaOf(shape, length, width).Err?
    ensures shown.Ok? ==> shown.value == AreaRows(AreaOf(shape, length, width).value)
    ensures shown.Err? ==> last.area == old(last.area) && db.calculations == old(db.calculations)
    ensures shown.Ok? ==> last.area == Some(shown.value) && |last.ResultsFor("area")| == 2
    ensures shown.Ok? ==>
              db.calculations == if old(db.CanAdd())
                                 then old(db.calculations) + [Db.Entry(old(db.currentNumber), AreaRecord(shape, length, width, now, shown.value))]
                                 else old(db.calculations)
  {
    var area := AreaOf(shape, length, width);
    if area.Err? {
      return Err(area.error);
    }
    shown := Ok(AreaRows(area.value));
    last.area := Some(shown.value);
    LogCalculation(db, AreaRecord(shape, length, width, now, shown.value));
  }

  /**
   * `calculateVolume()` as written: shows and logs the rows but never sets
   * `lastVolumeResults`.
   */
  method CalculateVolumeAsWritten(shape: string, length: Number, width: Number, height: Number, now: int,
                                  last: LastResults, db: Db.Database)
    returns (shown: Result<seq<Row>, CalcError>)
    requires db.Valid()
    modifies db
    ensures db.Valid()
    ensures db.currentNumber == if shown.Ok? && old(db.CanAdd()) then old(db.currentNumber) + 1 else old(db.currentNumber)
    ensures db.purchases == old(db.purchases) && db.schema == old(db.schema)
    ensures db.connected == old(db.connected) && db.version == old(db.version)
    ensures shown.Err? <==> VolumeOf(shape, length, width, height).Err?
    ensures shown.Ok? ==> shown.value == VolumeRows(VolumeOf(shape, length, width, height).value)
    ensures shown.Err? ==> db.calculations == old(db.calculations)
    ensures shown.Ok? ==>
              db.calculations == if old(db.CanAdd())
                                 then old(db.calculations) + [Db.Entry(old(db.currentNumber), VolumeRecord(shape, length, width, height, now, shown.value))]
                                 else old(db.calculations)
  {
    var volume := VolumeOf(shape, length, width, height);
    if volume.Err? {
      return Err(volume.error);
    }
    shown := Ok(VolumeRows(volume.value));
    LogCalculation(db, VolumeRecord(shape, length, width, height, now, shown.value));
  }

  /** `calculateVolume()` with the evidently intended `window.lastVolumeResults = result`. */
  method CalculateVolume(shape: string, length: Number, width: Number, height: Number, now: int,
                         last: LastResults, db: Db.Database)
    returns (shown: Result<seq<Row>, CalcError>)
    requires db.Valid()
    modifies last`volume, db
    ensures db.Valid()
    ensures db.currentNumber == if shown.Ok? && old(db.CanAdd()) then old(db.currentNumber) + 1 else old(db.currentNumber)
    ensures db.purchases == old(db.purchases) && db.schema == old(db.schema)
    ensures db.connected == old(db.connected) && db.version == old(db.version)
    ensures shown.Err? <==> VolumeOf(shape, length, width, height).Err?
    ensures shown.Ok? ==> shown.value == VolumeRows(VolumeOf(shape, length, width, height).value)
    ensures shown.Err? ==> last.volume == old(last.volume) && db.calculations == old(db.calculations)
    ensures shown.Ok? ==> last.volume == Some(shown.value) && |last.ResultsFor("volume")| == 2
    ensures shown.Ok? ==>
              db.calculations == if old(db.CanAdd())
                                 then old(db.calculations) + [Db.Entry(old(db.currentNumber), VolumeRecord(shape, length, width, height, now, shown.value))]
                                 else old(db.calculations)
  {
    var volume := VolumeOf(shape, length, width, height);
    if volume.Err? {
      return Err(volume.error);
    }
    shown := Ok(VolumeRows(volume.value));
    last.volume := Some(shown.value);
    LogCalculation(db, VolumeRecord(shape, length, width, height, now, shown.value));
  }

  // --------------------------------------------------------- shopping list

  /** A shopping list: its project title, the materials section and the optional budget section. */
  datatype ShoppingList = ShoppingList(project: string, materials: seq<Row>, budget: Option<seq<Row>>)

  /** Rows listed under MATERIALS NEEDED: the key contains neither `COST` nor `---` (case-sensitive). */
  predicate IsMaterialRow(r: Row) {
    !Includes(r.key, "COST") && !Includes(r.key, "---")
  }

  /** Rows listed under BUDGET: the key contains `Cost` or is exactly `TOTAL COST`. */
  predicate IsBudgetRow(r: Row) {
    Includes(r.key, "Cost") || r.key == TotalCost
  }

  /** `toUpperCase` on one character, for the ASCII letters the calculator types use. */
  function UpperAscii(c: char): (r: char)
    ensures 'a' <= c <= 'z' ==> 'A' <= r <= 'Z'
    ensures 'a' <= c <= 'z' ==> r as int == c as int - 32
    ensures !('a' <= c <= 'z') ==> r == c
  {
    if 'a' <= c <= 'z' then (c as int - 32) as char else c
  }

  /**
   * The project title: the project-name field when it exists and is
   * non-empty, otherwise the capitalised type followed by ` Project`.
   */
  function ProjectTitle(kind: string, nameField: Option<string>): (r: string)
    ensures nameField.Some? && nameField.value != "" ==> r == nameField.value
    ensures (nameField.None? || nameField.value == "") && kind != "" ==>
              r == [UpperAscii(kind[0])] + kind[1..] + " Project"
  {
    if nameField.Some? && nameField.value != "" then nameField.value
    else if kind == "" then " Project"
    else [UpperAscii(kind[0])] + kind[1..] + " Project"
  }

  /** The rows of `rows` that pass `keep`, in order, as the `forEach` loops accumulate them. */
  method Select(rows: seq<Row>, keep: Row -> bool) returns (selected: seq<Row>)
    ensures selected == Filter(rows, keep)
  {
    selected := [];
    var i := 0;
    while i < |rows|
      invariant 0 <= i <= |rows|
      invariant selected == Filter(rows[..i], keep)
    {
      FilterSnoc(rows[..i], rows[i], keep);
      assert rows[..i + 1] == rows[..i] + [rows[i]];
      if keep(rows[i]) {
        selected := selected + [rows[i]];
      }
      i := i + 1;
    }
    assert rows[..|rows|] == rows;
  }

  /**
   * `generateShoppingList(type + '-result')`: no list when the stored
   * results for the type are empty; otherwise the materials section lists
   * the material rows in result order, and a budget section listing the
   * budget rows is present exactly when `TOTAL COST` has a value.
   */
  method GenerateShoppingList(kind: string, nameField: Option<string>, last: LastResults)
    returns (list: Option<ShoppingList>)
    ensures list.None? <==> last.ResultsFor(kind) == []
    ensures list.Some? ==> list.value.project == ProjectTitle(kind, nameField)
    ensures list.Some? ==> forall r :: r in list.value.materials <==> r in last.ResultsFor(kind) && IsMaterialRow(r)
    ensures list.Some? ==> list.value.materials == Filter(last.ResultsFor(kind), IsMaterialRow)
    ensures list.Some? ==> (list.value.budget.Some? <==> HasValue(last.ResultsFor(kind), TotalCost))
    ensures list.Some? && list.value.budget.Some? ==>
              list.value.budget.value == Filter(last.ResultsFor(kind), IsBudgetRow)
  {
    var rows := last.ResultsFor(kind);
    if rows == [] {
      return None;
    }
    var materials := Select(rows, IsMaterialRow);
    forall r ensures r in materials <==> r in rows && IsMaterialRow(r) {
      FilterMembership(rows, IsMaterialRow, r);
    }
    var budget: Option<seq<Row>> := None;
    if HasValue(rows, TotalCost) {
      var costs := Select(rows, IsBudgetRow);
      budget := Some(costs);
    }
    list := Some(ShoppingList(ProjectTitle(kind, nameField), materials, budget));
  }

  // ------------------------------------------------------- the finding

  /**
   * As written, a successful area calculation followed by a request for its
   * shopping list yields no list.
   */
  method AreaShoppingListAsWritten() returns (shown: Result<seq<Row>, CalcError>, list: Option<ShoppingList>)
    ensures shown == Ok(AreaRows(6.0))
    ensures list.None?
  {
    var last := new LastResults();
    var db := new Db.Database();
    shown := CalculateAreaAsWritten("rectangle", Num(2.0), Num(3.0), 0, last, db);
    list := GenerateShoppingList("area", None, last);
  }

  /** With the result stored, the same steps yield a list of the area rows. */
  method AreaShoppingListCorrected() returns (shown: Result<seq<Row>, CalcError>, list: Option<ShoppingList>)
    ensures shown == Ok(AreaRows(6.0))
    ensures list.Some?
  {
    var last := new LastResults();
    var db := new Db.Database();
    shown := CalculateArea("rectangle", Num(2.0), Num(3.0), 0, last, db);
    list := GenerateShoppingList("area", None, last);
  }

  /** As written, a successful volume calculation yields no shopping list. */
  method VolumeShoppingListAsWritten() returns (shown: Result<seq<Row>, CalcError>, list: Option<ShoppingList>)
    ensures shown == Ok(VolumeRows(8.0))
    ensures list.None?
  {
    var last := new LastResults();
    var db := new Db.Database();
    shown := CalculateVolumeAsWritten("cube", Num(2.0), NaN, NaN, 0, last, db);
    list := GenerateShoppingList("volume", None, last);
  }

  /** With the result stored, the same steps yield a list of the volume rows. */
  method VolumeShoppingListCorrected() returns (shown: Result<seq<Row>, CalcError>, list: Option<ShoppingList>)
    ensures shown == Ok(VolumeRows(8.0))
    ensures list.Some?
  {
    var last := new LastResults();
    var db := new Db.Database();
    shown := CalculateVolume("cube", Num(2.0), NaN, NaN, 0, last, db);
    list := GenerateShoppingList("volume", None, last);
  }
}
