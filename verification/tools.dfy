/**
 * The Tools tab: the unit converter, the labour-cost calculator and the
 * two quick-calculation helpers for walls and concrete.
 */
module Tools {
  import opened JsValues

  // -------------------------------------------------------- unit converter

  /** One entry of the conversion table: the factor and the two field labels. */
  datatype Conversion = Conversion(toBase: real, fromLabel: string, toLabel: string)

  /** `CONVERSIONS`: the four conversion types the converter offers. */
  const Conversions: map<string, Conversion> := map[
    "cement" := Conversion(0.05, "Cement Bags (50kg)", "Tonnes"),
    "volume" := Conversion(1000.0, "Cubic Meters (m³)", "Litres (L)"),
    "area" := Conversion(0.0001, "Square Meters (m²)", "Hectares (ha)"),
    "length" := Conversion(3.28084, "Meters (m)", "Feet (ft)")
  ]

  /** Every conversion factor in the table is positive. */
  lemma ConversionFactorsPositive()
    ensures Conversions.Keys == {"cement", "volume", "area", "length"}
    ensures forall kind | kind in Conversions :: Conversions[kind].toBase > 0.0
  {
  }

  /**
   * `parseFloat` of a field's text. A field holds `Num(n)` when its text
   * reads as the number `n`, and any other text otherwise.
   */
  function ParseFloat(field: Value): (r: Number)
    ensures field.Num? ==> r == field
    ensures !field.Num? ==> r == NaN
  {
    if field.Num? then field else NaN
  }

  /**
   * What `convertUnit()` leaves in the output field: cleared when the input
   * is missing, zero or negative; untouched for an unknown type; otherwise
   * the input times the type's factor, from which the input is recovered
   * by dividing by that factor.
   */
  function ConvertedOutput(kind: string, from: Value, to: Value): (r: Value)
    ensures var x := ParseFloat(from);
      && (!Truthy(x) || x.n < 0.0 ==> r == Str(""))
      && (Truthy(x) && x.n >= 0.0 && kind !in Conversions ==> r == to)
      && (Truthy(x) && x.n >= 0.0 && kind in Conversions ==> r.Num? && r.n > 0.0 && r.n / Conversions[kind].toBase == x.n)
  {
    var x := ParseFloat(from);
    if !Truthy(x) || x.n < 0.0 then Str("")
    else if kind !in Conversions then to
    else
      ConversionFactorsPositive();
      Num(Scale(x.n, Conversions[kind].toBase))
  }

  /** `fromValue * conversion.toBase`, proved to divide back. */
  function Scale(x: real, factor: real): (r: real)
    requires x > 0.0 && factor > 0.0
    ensures r > 0.0 && r / factor == x
  {
    x * factor
  }

  /** The converter's form fields. */
  class Converter {
    var kind: string
    var from: Value
    var to: Value
    var fromLabel: string
    var toLabel: string

    constructor (kind: string, from: Value, to: Value, fromLabel: string, toLabel: string)
      ensures this.kind == kind && this.from == from && this.to == to
      ensures this.fromLabel == fromLabel && this.toLabel == toLabel
    {
      this.kind, this.from, this.to := kind, from, to;
      this.fromLabel, this.toLabel := fromLabel, toLabel;
    }

    /**
     * `updateConverterLabels()`: for a known type, show its labels and
     * clear both fields; for an unknown type, change nothing.
     */
    method UpdateLabels()
      modifies this
      ensures kind == old(kind)
      ensures kind in Conversions ==>
                && fromLabel == Conversions[kind].fromLabel && toLabel == Conversions[kind].toLabel
                && from == Str("") && to == Str("")
      ensures kind !in Conversions ==>
                from == old(from) && to == old(to) && fromLabel == old(fromLabel) && toLabel == old(toLabel)
    {
      if kind in Conversions {
        var c := Conversions[kind];
        fromLabel, toLabel := c.fromLabel, c.toLabel;
        from, to := Str(""), Str("");
      }
    }

    /** `convertUnit()`: only the output field changes, as `ConvertedOutput` says. */
    method Convert()
      modifies `to
      ensures to == ConvertedOutput(kind, from, old(to))
    {
      var x := ParseFloat(from);
      if !Truthy(x) || x.n < 0.0 {
        to := Str("");
        return;
      }
      if kind !in Conversions {
        return;
      }
      ConversionFactorsPositive();
      to := Num(Scale(x.n, Conversions[kind].toBase));
    }
  }

  /** Right after the labels are updated for a known type, converting clears the output. */
  method LabelsThenConvert(c: Converter)
    requires c.kind in Conversions
    modifies c
    ensures c.to == Str("")
  {
    c.UpdateLabels();
    c.Convert();
  }

  // ------------------------------------------------------- labour costs

  /** The labour figures `calculateLabor()` shows. */
  datatype LaborCosts = LaborCosts(
    workers: int, dailyRate: real, days: int,
    dailyCost: real, weeklyDays: int, weeklyCost: real, totalCost: real)

  /** Why the labour calculator shows 'Please fill in all fields with valid values'. */
  datatype LaborError = InvalidLaborInput

  /** The JavaScript product `a * b`, kept as one term. */
  function Times(a: real, b: real): real {
    a * b
  }

  /**
   * `calculateLabor()`: accepts exactly a whole number of at least one
   * worker, a positive daily rate and at least one whole day (`parseInt`
   * and `parseFloat` results); a missing, zero or negative rate is refused.
   */
  function LaborResult(workers: Integer, dailyRate: Number, days: Integer): (r: Result<LaborCosts, LaborError>)
    ensures r.Ok? <==> workers.Num? && workers.n >= 1.0 && dailyRate.Num? && dailyRate.n > 0.0
                       && days.Num? && days.n >= 1.0
    ensures r.Ok? ==> r.value.workers as real == workers.n && r.value.days as real == days.n
                      && r.value.dailyRate == dailyRate.n
  {
    if !Truthy(workers) || !Truthy(dailyRate) || !Truthy(days)
       || workers.n < 1.0 || dailyRate.n < 0.0 || days.n < 1.0
    then Err(InvalidLaborInput)
    else
      var w := workers.n.Floor;
      var d := days.n.Floor;
      var daily := Times(w as real, dailyRate.n);
      var weeklyDays := Min(d, 7);
      Ok(LaborCosts(w, dailyRate.n, d, daily, weeklyDays, Times(daily, weeklyDays as real), Times(daily, d as real)))
  }

  /**
   * On accepted input the daily cost is workers × rate, the weekly cost is
   * the daily cost over `min(days, 7)` days and the total is workers × rate
   * × days; so the weekly cost never exceeds the total, and equals it for
   * a job of a week or less.
   */
  lemma LaborTotals(workers: Integer, dailyRate: Number, days: Integer)
    requires LaborResult(workers, dailyRate, days).Ok?
    ensures var c := LaborResult(workers, dailyRate, days).value;
      && c.dailyCost == workers.n * dailyRate.n
      && c.weeklyCost == workers.n * dailyRate.n * c.weeklyDays as real
      && c.totalCost == workers.n * dailyRate.n * days.n
      && c.weeklyDays == (if c.days <= 7 then c.days else 7)
      && 0.0 < c.weeklyCost <= c.totalCost
      && (c.days <= 7 ==> c.weeklyCost == c.totalCost)
  {
    var c := LaborResult(workers, dailyRate, days).value;
    assert c.dailyCost == workers.n * dailyRate.n;
    assert c.dailyCost > 0.0 by {
      ScaleLt(0.0, workers.n, dailyRate.n);
    }
    ScaleLe(c.weeklyDays as real, c.days as real, c.dailyCost);
    ScaleLt(0.0, c.weeklyDays as real, c.dailyCost);
  }

  // --------------------------------------------------- quick calculations

  /** A wall type: its thickness in metres and the bricks per square metre. */
  datatype WallType = WallType(thickness: real, bricksPerM2: int)

  const WallTypes: map<string, WallType> := map[
    "single" := WallType(0.11, 55),
    "cavity" := WallType(0.23, 110),
    "double" := WallType(0.23, 110)
  ]

  datatype WallMaterials = WallMaterials(area: real, bricks: int, thickness: real)

  /**
   * `calculateWallMaterials(length, height, wallType)`: `null` for any type
   * but single, cavity and double; otherwise the area, the least whole
   * number of bricks covering it at the type's density with 5% wastage,
   * and the type's thickness.
   */
  function WallMaterialsFor(length: real, height: real, wallType: string): (r: Option<WallMaterials>)
    ensures r.None? <==> wallType !in {"single", "cavity", "double"}
    ensures r.Some? ==>
              var wall := WallTypes[wallType];
              var needed := length * height * wall.bricksPerM2 as real * 1.05;
              && r.value.area == length * height && r.value.thickness == wall.thickness
              && r.value.bricks as real >= needed && (r.value.bricks - 1) as real < needed
  {
    if wallType !in WallTypes then None
    else
      var wall := WallTypes[wallType];
      Some(WallMaterials(length * height, WallBricks(length * height, wall.bricksPerM2), wall.thickness))
  }

  /** `Math.ceil(area * bricksPerM2 * 1.05)`: the bricks for an area with 5% wastage. */
  function WallBricks(area: real, bricksPerM2: int): (r: int)
    ensures r as real >= area * bricksPerM2 as real * 1.05
    ensures (r - 1) as real < area * bricksPerM2 as real * 1.05
  {
    Ceil(area * bricksPerM2 as real * 1.05)
  }

  /** A cavity or double wall needs at least as many bricks as a single wall of the same size. */
  lemma ThickerWallsNeedMoreBricks(length: real, height: real, wallType: string)
    requires length >= 0.0 && height >= 0.0
    requires wallType in {"cavity", "double"}
    ensures WallMaterialsFor(length, height, wallType).value.bricks
            >= WallMaterialsFor(length, height, "single").value.bricks
  {
    assert length * height >= 0.0 by {
      if length > 0.0 { ScaleLe(0.0, height, length); }
    }
    DenserWallNeedsMore(length * height, 55, WallTypes[wallType].bricksPerM2);
  }

  /** At a higher brick density the same area needs at least as many bricks. */
  lemma DenserWallNeedsMore(area: real, lower: int, higher: int)
    requires area >= 0.0 && lower <= higher
    ensures WallBricks(area, lower) <= WallBricks(area, higher)
  {
    if area > 0.0 {
      ScaleLe(lower as real, higher as real, area);
    }
    assert area * lower as real <= area * higher as real;
    ScaleLe(area * lower as real, area * higher as real, 1.05);
    CeilMonotone(area * lower as real * 1.05, area * higher as real * 1.05);
  }

  /** The dimensions a concrete element may carry; unused ones are ignored. */
  datatype Dimensions = Dimensions(length: real, width: real, thickness: real, depth: real, height: real)

  /**
   * `calculateConcreteVolume(shape, dimensions)`: a slab is length × width
   * × thickness, a footing length × width × depth, a column width × depth
   * × height, and any other shape 0.
   */
  function ConcreteVolume(shape: string, d: Dimensions): (r: real)
    ensures shape == "slab" ==> r == d.length * d.width * d.thickness
    ensures shape == "footing" ==> r == d.length * d.width * d.depth
    ensures shape == "column" ==> r == d.width * d.depth * d.height
    ensures shape !in {"slab", "footing", "column"} ==> r == 0.0
  {
    match shape
    case "slab" => d.length * d.width * d.thickness
    case "footing" => d.length * d.width * d.depth
    case "column" => d.width * d.depth * d.height
    case _ => 0.0
  }

  /** Non-negative dimensions give a non-negative volume for every shape. */
  lemma ConcreteVolumeNonNegative(shape: string, d: Dimensions)
    requires d.length >= 0.0 && d.width >= 0.0 && d.thickness >= 0.0 && d.depth >= 0.0 && d.height >= 0.0
    ensures ConcreteVolume(shape, d) >= 0.0
  {
    NonNegativeProduct(d.length, d.width, d.thickness);
    NonNegativeProduct(d.length, d.width, d.depth);
    NonNegativeProduct(d.width, d.depth, d.height);
  }

  lemma NonNegativeProduct(a: real, b: real, c: real)
    requires a >= 0.0 && b >= 0.0 && c >= 0.0
    ensures a * b * c >= 0.0
  {
    assert a * b >= 0.0;
  }
}
