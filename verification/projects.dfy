/**
 * The current-project slot: a single `currentProject` value mirrored to
 * `localStorage` under `'currentProject'`, the project-name check used
 * before anything is saved, and the two pure mappings from a saved project
 * to the calculator form (`loadProject`) and to its list card
 * (`createProjectCard`).
 */
module Projects {
  import opened JsValues
  import opened JsStrings
  import opened ResultRows
  import opened ProjectJson
  import Storage
  import Calculations

  /** The `localStorage` key that mirrors `currentProject`. */
  const CurrentProjectKey: string := "currentProject"

  /**
   * `JSON.parse` of the stored text as far as the slot is concerned: the
   * text `null` gives `null`, the text of a project gives that project, and
   * any other text is a parse failure.
   */
  function ParseStored(text: string): (r: Option<Option<CurrentProject>>)
    ensures text == "null" ==> r == Some(None)
  {
    if text == "null" then Some(None)
    else
      match Parse(text)
      case Some(p) => Some(Some(p))
      case None => None
  }

  /** What the slot writes for a project is read back as that project. */
  lemma StoredRoundTrip(p: CurrentProject)
    ensures ParseStored(Stringify(p)) == Some(Some(p))
  {
    ParseStringify(p);
    assert Stringify(p)[0] == '{';
  }

  /**
   * The name check of `createNewProject` and `saveCalculationToProject`:
   * the trimmed field, or nothing when the field is blank.
   */
  function ProjectName(field: string): (r: Option<string>)
    ensures r.None? <==> AllWhiteSpace(field)
    ensures r.Some? ==> r.value == Trim(field) && r.value != []
    ensures r.Some? ==> !IsWhiteSpace(r.value[0]) && !IsWhiteSpace(r.value[|r.value| - 1])
  {
    TrimEmptyIff(field);
    TrimEnds(field);
    var name := Trim(field);
    if name == "" then None else Some(name)
  }

  /** The module variable `currentProject` (`None` is `null`). */
  class ProjectSlot {
    var current: Option<CurrentProject>

    constructor ()
      ensures current == None
    {
      current := None;
    }
  }

  /** The text `loadCurrentProject` parses: the stored text when it is a non-empty string. */
  function StoredText(items: map<string, string>): Option<string> {
    if CurrentProjectKey in items && items[CurrentProjectKey] != "" then Some(items[CurrentProjectKey]) else None
  }

  /**
   * `loadCurrentProject()`: takes the parsed stored value when something is
   * stored and it parses; leaves the slot as it was otherwise.
   */
  method LoadCurrentProject(slot: ProjectSlot, storage: Storage.LocalStorage)
    modifies slot
    ensures var text := StoredText(storage.items);
      if text.Some? && ParseStored(text.value).Some? then slot.current == ParseStored(text.value).value
      else slot.current == old(slot.current)
  {
    var saved := storage.GetItem(CurrentProjectKey);
    if saved.Some? && saved.value != "" {
      var parsed := ParseStored(saved.value);
      if parsed.Some? {
        slot.current := parsed.value;
      }
    }
  }

  /**
   * `saveCurrentProject()`: writes the serialised project under the key,
   * or removes the key when there is no current project.
   */
  method SaveCurrentProject(slot: ProjectSlot, storage: Storage.LocalStorage)
    modifies storage
    ensures slot.current.Some? ==> storage.items == old(storage.items)[CurrentProjectKey := Stringify(slot.current.value)]
    ensures slot.current.None? ==> storage.items == old(storage.items) - {CurrentProjectKey}
  {
    if slot.current.Some? {
      storage.SetItem(CurrentProjectKey, Stringify(slot.current.value));
    } else {
      storage.RemoveItem(CurrentProjectKey);
    }
  }

  /** Saving and then loading leaves the slot holding the same project. */
  method SaveThenLoad(slot: ProjectSlot, storage: Storage.LocalStorage)
    modifies slot, storage
    ensures slot.current == old(slot.current)
    ensures CurrentProjectKey in storage.items <==> slot.current.Some?
  {
    SaveCurrentProject(slot, storage);
    if slot.current.Some? {
      StoredRoundTrip(slot.current.value);
    }
    LoadCurrentProject(slot, storage);
  }

  /** `clearCurrentProject()`: the slot is emptied and the key removed. */
  method ClearCurrentProject(slot: ProjectSlot, storage: Storage.LocalStorage)
    modifies slot, storage
    ensures slot.current == None
    ensures storage.items == old(storage.items) - {CurrentProjectKey}
    ensures CurrentProjectKey !in storage.items
  {
    slot.current := None;
    SaveCurrentProject(slot, storage);
  }

  /**
   * `createNewProject()` with the two form fields and the two `Date.now()`
   * readings as parameters: a blank name changes nothing; otherwise the
   * slot holds the trimmed name and description, the first reading as
   * `timestamp` and the second as `lastModified`, and is saved.
   */
  method CreateNewProject(slot: ProjectSlot, storage: Storage.LocalStorage, nameField: string,
                          descriptionField: string, createdAt: nat, modifiedAt: nat) returns (created: bool)
    modifies slot, storage
    ensures created <==> !AllWhiteSpace(nameField)
    ensures !created ==> slot.current == old(slot.current) && storage.items == old(storage.items)
    ensures created ==> slot.current == Some(CurrentProject(Trim(nameField), Trim(descriptionField), createdAt, modifiedAt))
    ensures created ==> storage.items == old(storage.items)[CurrentProjectKey := Stringify(slot.current.value)]
  {
    var name := ProjectName(nameField);
    created := name.Some?;
    if created {
      StartProject(slot, storage, CurrentProject(name.value, Trim(descriptionField), createdAt, modifiedAt));
    }
  }

  /** Makes `project` the current project and saves it. */
  method StartProject(slot: ProjectSlot, storage: Storage.LocalStorage, project: CurrentProject)
    modifies slot, storage
    ensures slot.current == Some(project)
    ensures storage.items == old(storage.items)[CurrentProjectKey := Stringify(project)]
  {
    slot.current := Some(project);
    SaveCurrentProject(slot, storage);
  }

  // ------------------------------------------------- saving calculations

  /** The object `saveCalculationToProject` hands to `saveProject`. */
  datatype ProjectData = ProjectData(name: string, kind: string, timestamp: nat, lastModified: nat,
                                     inputs: map<string, Value>, results: seq<Row>)

  /** The records handed to `saveProject`, which is not part of this model, in order. */
  class ProjectStore {
    var saved: seq<ProjectData>

    constructor ()
      ensures saved == []
    {
      saved := [];
    }

    method SaveProject(record: ProjectData)
      modifies this
      ensures saved == old(saved) + [record]
    {
      saved := saved + [record];
    }
  }

  /**
   * `saveCalculationToProject(type, inputs, results)`: with a blank name
   * field nothing is saved; otherwise one record carrying the trimmed name,
   * the type, the two `Date.now()` readings as `timestamp` and
   * `lastModified`, the inputs and the results.
   */
  method SaveCalculationToProject(kind: string, nameField: string, inputs: map<string, Value>,
                                  results: seq<Row>, createdAt: nat, modifiedAt: nat, store: ProjectStore)
    returns (saved: bool)
    modifies store
    ensures saved <==> !AllWhiteSpace(nameField)
    ensures !saved ==> store.saved == old(store.saved)
    ensures saved ==> store.saved == old(store.saved)
                                     + [ProjectData(Trim(nameField), kind, createdAt, modifiedAt, inputs, results)]
  {
    var name := ProjectName(nameField);
    if name.None? {
      return false;
    }
    store.SaveProject(ProjectData(name.value, kind, createdAt, modifiedAt, inputs, results));
    return true;
  }

  // ------------------------------------------------------ loadProject

  /** One form field `loadProject` fills: `field.value = inputs[inputKey] || fallback`. */
  datatype FieldFill = FieldFill(id: string, inputKey: string, fallback: string)

  /** The fields `loadProject` fills for each calculator type, in order; none for another type. */
  function FieldsFor(kind: string): seq<FieldFill> {
    if kind == "cement" then
      [FieldFill("cement-length", "length", ""), FieldFill("cement-width", "width", ""),
       FieldFill("cement-thickness", "thickness", ""), FieldFill("cement-ratio", "ratio", "1:2:4")]
    else if kind == "brick" then
      [FieldFill("brick-length", "length", ""), FieldFill("brick-height", "height", ""),
       FieldFill("brick-mortar", "mortarThickness", "")]
    else if kind == "area" then
      [FieldFill("area-shape", "shape", "rectangle"), FieldFill("area-length", "length", ""),
       FieldFill("area-width", "width", "")]
    else if kind == "volume" then
      [FieldFill("volume-shape", "shape", "cuboid"), FieldFill("vol-length", "length", ""),
       FieldFill("vol-width", "width", ""), FieldFill("vol-height", "height", "")]
    else []
  }

  /** The element id of a calculator's project-name field. */
  function NameFieldId(kind: string): string {
    kind + "-project-name"
  }

  function Fill(form: map<string, Value>, fields: seq<FieldFill>, inputs: map<string, Value>): (r: map<string, Value>)
    ensures forall id | id in form :: id in r
    ensures forall f | f in fields :: f.id in r
    decreases |fields|
  {
    if fields == [] then form
    else Fill(form[fields[0].id := Or(Get(inputs, fields[0].inputKey), Str(fields[0].fallback))], fields[1..], inputs)
  }

  /**
   * `loadProject(project)`: the values written into the form, by element
   * id; the name field is written only when the page has one.
   */
  function LoadProject(kind: string, name: string, inputs: map<string, Value>, hasNameField: bool): (r: map<string, Value>)
    ensures forall f | f in FieldsFor(kind) :: f.id in r
    ensures hasNameField ==> NameFieldId(kind) in r
  {
    Fill(if hasNameField then map[NameFieldId(kind) := Str(name)] else map[], FieldsFor(kind), inputs)
  }

  ghost predicate DistinctIds(fields: seq<FieldFill>) {
    forall i, j | 0 <= i < j < |fields| :: fields[i].id != fields[j].id
  }

  /** Filling sets each listed field from its input or fallback and keeps the fields not listed. */
  lemma {:induction false} FillSets(form: map<string, Value>, fields: seq<FieldFill>, inputs: map<string, Value>)
    requires DistinctIds(fields)
    decreases |fields|
    ensures forall f | f in fields :: Fill(form, fields, inputs)[f.id] == Or(Get(inputs, f.inputKey), Str(f.fallback))
    ensures forall id | id in form && (forall f | f in fields :: f.id != id) :: Fill(form, fields, inputs)[id] == form[id]
  {
    if fields != [] {
      var f0 := fields[0];
      var form' := form[f0.id := Or(Get(inputs, f0.inputKey), Str(f0.fallback))];
      FillSets(form', fields[1..], inputs);
      assert fields == [f0] + fields[1..];
      forall f | f in fields[1..] ensures f.id != f0.id {
        var k :| 0 <= k < |fields[1..]| && fields[1..][k] == f;
        assert fields[k + 1] == f;
      }
    }
  }

  /** Filling adds exactly the listed fields. */
  lemma {:induction false} FillKeys(form: map<string, Value>, fields: seq<FieldFill>, inputs: map<string, Value>)
    decreases |fields|
    ensures Fill(form, fields, inputs).Keys == form.Keys + set f | f in fields :: f.id
  {
    if fields != [] {
      var f0 := fields[0];
      FillKeys(form[f0.id := Or(Get(inputs, f0.inputKey), Str(f0.fallback))], fields[1..], inputs);
      assert fields == [f0] + fields[1..];
    }
  }

  /**
   * After `loadProject` every field of the project's calculator holds the
   * saved input when that is truthy and its fallback otherwise, and the
   * name field holds the name when the page has one.
   */
  lemma LoadProjectFills(kind: string, name: string, inputs: map<string, Value>, hasNameField: bool)
    ensures forall f | f in FieldsFor(kind) ::
      LoadProject(kind, name, inputs, hasNameField)[f.id]
      == if Truthy(Get(inputs, f.inputKey)) then inputs[f.inputKey] else Str(f.fallback)
    ensures hasNameField ==> LoadProject(kind, name, inputs, hasNameField)[NameFieldId(kind)] == Str(name)
  {
    var start := if hasNameField then map[NameFieldId(kind) := Str(name)] else map[];
    FieldIdsDistinct(kind);
    FillSets(start, FieldsFor(kind), inputs);
    NameFieldIsSeparate(kind);
  }

  /** `loadProject` writes the calculator's fields, the name field when present, and nothing else. */
  lemma LoadProjectWritesOnly(kind: string, name: string, inputs: map<string, Value>, hasNameField: bool)
    ensures LoadProject(kind, name, inputs, hasNameField).Keys
            == (if hasNameField then {NameFieldId(kind)} else {}) + (set f | f in FieldsFor(kind) :: f.id)
  {
    var start := if hasNameField then map[NameFieldId(kind) := Str(name)] else map[];
    FillKeys(start, FieldsFor(kind), inputs);
  }

  lemma FieldIdsDistinct(kind: string)
    ensures DistinctIds(FieldsFor(kind))
  {
  }

  /** The name field's id is longer than the id of every field of its calculator. */
  lemma NameFieldIsSeparate(kind: string)
    ensures forall f | f in FieldsFor(kind) :: f.id != NameFieldId(kind)
  {
    assert |NameFieldId(kind)| == |kind| + 13;
    assert forall f | f in FieldsFor(kind) :: |f.id| < |kind| + 13;
  }

  /** A project saved without inputs loads with every field at its fallback. */
  lemma LoadProjectDefaults(kind: string, name: string, hasNameField: bool)
    ensures forall f | f in FieldsFor(kind) :: LoadProject(kind, name, map[], hasNameField)[f.id] == Str(f.fallback)
  {
    LoadProjectFills(kind, name, map[], hasNameField);
  }

  // ------------------------------------------------- createProjectCard

  /** What a card shows for one key result: the stored cell, or `'N/A'`. */
  datatype Shown = Present(cell: Cell) | NotAvailable

  /** One labelled key result on a card. */
  datatype Detail = Detail(heading: string, shown: Shown)

  /** `project.results[key] || 'N/A'`: a stored amount is shown, a missing or blank one is not. */
  function ResultOrNA(results: seq<Row>, key: string): (r: Shown)
    ensures r.Present? <==> HasValue(results, key)
    ensures r.Present? ==> Lookup(results, key) == Some(r.cell)
  {
    var cell := Lookup(results, key);
    if cell.Some? && cell.value.Amount? then Present(cell.value) else NotAvailable
  }

  /**
   * The key results a card shows: one or two for each calculator type (the
   * types with a badge), none for another type; a blank result is never
   * shown as a value.
   */
  function CardDetails(kind: string, results: seq<Row>): (r: seq<Detail>)
    ensures r != [] <==> kind in TypeIcons
    ensures |r| <= 2
    ensures forall k | 0 <= k < |r| :: r[k].shown.Present? ==> r[k].shown.cell.Amount?
    ensures kind == "cement" ==>
              r == [Detail("Volume", ResultOrNA(results, "Volume")), Detail("Cement", ResultOrNA(results, "Cement Bags"))]
    ensures kind == "brick" ==>
              r == [Detail("Area", ResultOrNA(results, "Wall Area")), Detail("Bricks", ResultOrNA(results, "Bricks Needed"))]
    ensures kind == "area" ==> r == [Detail("Area", ResultOrNA(results, "Area"))]
    ensures kind == "volume" ==> r == [Detail("Volume", ResultOrNA(results, "Volume"))]
  {
    if kind == "cement" then
      [Detail("Volume", ResultOrNA(results, "Volume")), Detail("Cement", ResultOrNA(results, "Cement Bags"))]
    else if kind == "brick" then
      [Detail("Area", ResultOrNA(results, "Wall Area")), Detail("Bricks", ResultOrNA(results, "Bricks Needed"))]
    else if kind == "area" then
      [Detail("Area", ResultOrNA(results, "Area"))]
    else if kind == "volume" then
      [Detail("Volume", ResultOrNA(results, "Volume"))]
    else []
  }

  /** The badge of each calculator type. */
  const TypeIcons: map<string, string> := map[
    "cement" := "\U{1F4E6} Cement", "brick" := "\U{1F9F1} Brick",
    "area" := "\U{1F4D0} Area", "volume" := "\U{1F4CA} Volume"
  ]

  /** `typeIcon[project.type] || project.type`: the badge, or the raw type when it has none. */
  function TypeLabel(kind: string): (r: string)
    ensures kind in TypeIcons ==> r == TypeIcons[kind]
    ensures kind !in TypeIcons ==> r == kind
  {
    if kind in TypeIcons then TypeIcons[kind] else kind
  }

  /** A project saved with no results (`results` was `{}`) shows `'N/A'` for every key result. */
  lemma EmptyResultsCard(kind: string)
    ensures forall d | d in CardDetails(kind, []) :: d.shown == NotAvailable
  {
  }

  /**
   * The card of a project saved from a successful cement calculation
   * shows its wet volume and its bag count.
   */
  lemma CementCard(input: Calculations.CementInput)
    requires Calculations.CementResult(input).Ok?
    ensures var q := Calculations.CementQuantitiesFor(input);
      CardDetails("cement", Calculations.CementResult(input).value)
      == [Detail("Volume", Present(Amount(q.wetVolume, "m³"))),
          Detail("Cement", Present(Amount(q.cementBags as real, "bags (50kg)")))]
  {
    var rows := Calculations.CementResult(input).value;
    Calculations.CementResultMeaning(input);
    assert rows[..4][0] == rows[0];
  }

  /**
   * The card of a project saved from a successful brick calculation shows
   * its wall area and its brick count.
   */
  lemma BrickCard(input: Calculations.BrickInput)
    requires Calculations.BrickResult(input).Ok?
    ensures var q := Calculations.BrickQuantitiesOf(input.length.n, input.height.n, input.mortarMm.n);
      CardDetails("brick", Calculations.BrickResult(input).value)
      == [Detail("Area", Present(Amount(q.wallArea, "m²"))),
          Detail("Bricks", Present(Amount(q.bricksWithWastage as real, "pieces")))]
  {
    var rows := Calculations.BrickResult(input).value;
    Calculations.BrickResultMeaning(input);
    assert rows[..3][0] == rows[0];
  }

  /** The card of a project saved from an area calculation shows its area in m². */
  lemma AreaCard(area: real)
    ensures CardDetails("area", Calculations.AreaRows(area)) == [Detail("Area", Present(Amount(area, "m²")))]
  {
    LookupFirst(Calculations.AreaRows(area), 0);
  }

  /** The card of a project saved from a volume calculation shows its volume in m³. */
  lemma VolumeCard(volume: real)
    ensures CardDetails("volume", Calculations.VolumeRows(volume)) == [Detail("Volume", Present(Amount(volume, "m³")))]
  {
    LookupFirst(Calculations.VolumeRows(volume), 0);
  }
}
