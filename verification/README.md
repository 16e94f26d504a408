# ConstCalc core in Dafny

ConstCalc (Construction Calculator Pro) is a browser app. It estimates
building materials for Zambian sites and prices them in ZMW. This project
models the parts of it that hold logic rather than page wiring:

- **Local record store** (`js/db.js`): the IndexedDB database
  `ConstructionCalcDB`, version 1. It has a `purchases` store written by
  upsert, and a `calculations` store whose keys come from an
  auto-increment key generator and which has a `type` index. The model is
  the class `Db.Database`.
- **Pro entitlement** (`js/billing.js`): the `BillingManager` state
  machine over `isPro`, `isProcessing`, the Digital Goods service and the
  `'isPro'` entry of `localStorage`. The Google Play payment platform is
  given as abstract outcomes. The model is `Billing.BillingManager`.
- **Calculators** (`js/calculations.js`, `js/tools.js`):
  - the cement, brick, area and volume calculators as exact arithmetic over
    `real`;
  - their ordered result rows, with a cost block that appears only when the
    total is positive;
  - the shopping list built from the stored results;
  - the unit converter, the labour-cost calculator and the wall and
    concrete quick calculations.
- **City price table** (`js/priceDatabase.js`): the ten-city
  `ZAMBIAN_PRICES` table, the sorted city list, and applying a city's
  prices to the calculator fields and to the price log.
- **Current project** (`js/projects.js`):
  - the `currentProject` slot, mirrored to `localStorage['currentProject']`
    through a verified JSON writer and reader for its object;
  - the project-name check;
  - the mapping from a saved project to the calculator form (`loadProject`)
    and to its list card (`createProjectCard`).

Shared modules:

- `JsValues`: optional and failing results, form-field values and
  JavaScript truthiness.
- `JsStrings`: `includes`, `trim`, `split` on one character, and `Number`
  on unsigned decimal text.
- `Sequences`: `filter`.
- `ResultRows`: the ordered label/value result object.
- `Storage`: the `localStorage` class.
- `ProjectJson`: `JSON.stringify` and `JSON.parse` for the project object.

How the model handles JavaScript values:

- A form field is a `Value`: `undefined`, `NaN`, a number or a string.
- `parseFloat` yields a `Number`, which is `NaN` or a finite number.
- `parseInt` yields an `Integer`.
- A field the code reads with `parseFloat` or `parseInt` is given as the
  resulting `Number` or `Integer`; the parsing of its text is not modelled.
- The one text the model does parse is the cement mix ratio: it is split
  on `:` and each piece is read with `Number`.
- Validation such as `if (!x)` and `x || d` is JavaScript truthiness, and
  is written out as such.
- Asynchronous code runs to completion in program order. The one
  interleaving that matters is a second `purchasePro` call arriving while
  the first is suspended. It is modelled by splitting `purchasePro` into
  its synchronous guard (`BeginPurchase`) and the rest (`FinishPurchase`).

Some things an app of this kind might be expected to do are absent from
the code, and the model follows the code:

- the code declares only database version 1 and only the two stores;
- billing persists the entitlement only in `localStorage['isPro']` and
  never writes a purchase record;
- `purchasePro` does not refuse a purchase when pro is already active.

## Model

| member | source | states |
|---|---|---|
| `Db.Upgraded` | js/db.js:16-31 | The upgrade creates `purchases` (key `id`) and `calculations` (auto-increment key, `type` and `timestamp` indexes) only when each is absent. Stores that already exist are kept unchanged. |
| `Db.UpgradeKeepsCompleteSchema` | js/db.js:18-30 | On a database that already has both stores, the upgrade changes nothing. |
| `Db.UpgradeOfEmptySchema` | js/db.js:16-31 | On an empty database the upgrade creates exactly the two stores with their specifications. |
| `Db.UpgradeIdempotent` | js/db.js:16-31 | Running the upgrade twice equals running it once. |
| `Db.Database.constructor` | js/db.js:3 | A fresh profile: no stores, version 0, `db` not set, key generator at 1. |
| `Db.Database.Upgrade` | js/db.js:16-31 | The `onupgradeneeded` handler sets `db` and the schema becomes `Upgraded` of the old schema. Records, version and key generator are unchanged. |
| `Db.Database.InitDB` | js/db.js:5-33 | The open succeeds exactly when the engine opens the database and the stored version is at most 1. The upgrade runs only from a lower version. A failed open changes no schema, version or `db` handle. No records change in either case. |
| `Db.Database.SavePurchase` | js/db.js:35-44 | Succeeds exactly when `db` is set and the store exists. Then it resolves with `p.id`, and `purchases` is the old map with `p` put under its id, so other ids are untouched. Before `initDB` it rejects and writes nothing. |
| `Db.PutTwiceKeepsOne` | js/db.js:39 | Two puts under one id leave one record, the second one, and add at most one key. |
| `Db.Database.GetPurchase` | js/db.js:46-55 | Resolves with the record stored under `id`. For an absent id it resolves with no record rather than rejecting. It rejects only when `db` is unset or the store is missing. |
| `Db.Database.SaveCalculation` | js/db.js:57-66 | Succeeds exactly when `db` is set, the store exists and the key generator has not passed 2^53. Then it appends the record under the generator's current number, which exceeds every earlier key, and advances the generator. Earlier records are unchanged. Otherwise nothing is written. |
| `Db.OfKind` | js/db.js:74-76 | Selection by the `type` index holds exactly the stored entries of that type. |
| `Db.OfKindAscending` | js/db.js:74-76 | Selection by type keeps ascending key order. |
| `Db.Database.GetCalculations` | js/db.js:68-84 | With a truthy type: exactly the calculations of that type. With `null` or `''`: all of them. Both in ascending key order. It rejects when `db` is unset or the store is missing. |
| `Billing.Swallow` | js/billing.js:111-115 | An `AbortError` is swallowed. Any other error is rethrown unchanged. |
| `Billing.PlayOutcome` | js/billing.js:69-116 | Without a service it rejects with the TypeError of the missing service. Otherwise the first step that rejects decides the outcome: the details call, an empty details list ('Product not found'), showing the payment sheet, completing it, then acknowledging it when the service can. Its error is rethrown unless it is an AbortError, which resolves. When every step succeeds it resolves. It never rejects with an AbortError, and never after activating pro. |
| `Billing.BillingManager.constructor` | js/billing.js:4-15 | After construction `isPro` holds exactly when the stored `'isPro'` is `'true'`. `isProcessing` is false and no service has been obtained. |
| `Billing.BillingManager.LoadProStatus` | js/billing.js:11-15 | `isPro` becomes true exactly when `localStorage['isPro']` is the string `'true'`. |
| `Billing.BillingManager.SaveProStatus` | js/billing.js:18-20 | Stores `'true'` or `'false'` under `'isPro'` and changes no other key. |
| `Billing.BillingManager.InitializeBilling` | js/billing.js:28-42 | Reports success exactly when Digital Goods are supported and the service is obtained. Only then is a service recorded. |
| `Billing.BillingManager.ActivatePro` | js/billing.js:143-149 | Sets `isPro` and stores `'true'`. When pro is already active, storage is unchanged, so activating twice gives the same state. |
| `Billing.BillingManager.SimulatePurchase` | js/billing.js:133-140 | Activates pro unconditionally and counts one payment attempt. |
| `Billing.BillingManager.PurchaseViaPlayBilling` | js/billing.js:69-130 | Settles as `PlayOutcome`. Pro is set, and `'true'` stored, exactly when the service is available, the details list is non-empty, and payment, completion and acknowledgement succeed. Otherwise `isPro` and storage are unchanged. |
| `Billing.BillingManager.BeginPurchase` | js/billing.js:45-48 | The re-entrancy guard: proceeds exactly when no purchase is in flight, and leaves the flag raised. |
| `Billing.BillingManager.FinishPurchase` | js/billing.js:51-65 | Takes the Play path when supported and the simulation otherwise. `isProcessing` is false afterwards whatever the outcome. Pro and storage change exactly as the path taken says. |
| `Billing.BillingManager.PurchasePro` | js/billing.js:45-66 | A call while `isProcessing` changes nothing and reaches no payment path. Otherwise the purchase runs, ends with `isProcessing` false, and pro is never lost. |
| `Billing.BillingManager.RestorePurchases` | js/billing.js:239-256 | Pro is activated exactly when a service is available and the listing contains `pro_version`. Without a service, or on a listing error, `isPro` and storage are unchanged. |
| `Billing.DoubleClick` | js/billing.js:45-66 | A second `purchasePro` arriving while the first is suspended is a no-op. At most one payment path is reached, and exactly one in simulation mode. |
| `Billing.ProIsNeverRevoked` | js/billing.js:11-149 | Once pro is active, purchase, restore, initialisation and activation keep it active and leave storage unchanged. |
| `JsStrings.Split` | js/calculations.js:23 | `split(':')` gives at least one piece, and no piece contains the separator. |
| `JsStrings.JoinSplit` | js/calculations.js:23 | Joining the pieces with the separator gives the text back. |
| `JsStrings.SplitJoin` | js/calculations.js:23 | Pieces free of the separator are recovered by splitting their join. |
| `JsStrings.SplitThree` | js/calculations.js:23 | `"x:y:z"` with colon-free parts splits into exactly `x`, `y` and `z`. |
| `JsStrings.NumberOf` | js/calculations.js:23 | `Number` of a piece is a number or `NaN`, and never negative. |
| `JsStrings.NumberOfDecimals` | js/calculations.js:23 | `Number` gives a number exactly for unsigned decimal text: digits with at most one point and, with a point, at least one digit; `''` counts. |
| `JsStrings.NumberOfDigits` | js/calculations.js:23 | A string of digits reads as the whole number it denotes. |
| `JsStrings.NumberOfPoint` | js/calculations.js:23 | Digits around a point read as the whole part plus the fraction. |
| `Calculations.MixOf` | js/calculations.js:23-24 | A ratio with fewer than three colon-separated pieces has no mix. Otherwise there is a mix exactly when `Number` reads each of the first three pieces as a number and they add up to more than zero, and the mix is those three numbers. A mix never has a negative part. |
| `Calculations.MixOfNumerals` | js/calculations.js:23-24 | `"a:b:c"` of whole numbers, not all zero, is the mix of those three numbers. |
| `Calculations.DefaultMix` | js/projects.js:260 | The fallback ratio `1:2:4` is one part cement, two sand and four aggregate. |
| `Calculations.CementQuantitiesOf` | js/calculations.js:13-32 | The wet volume is length × width × thickness/1000, and the dry volume is 1.54 × that slab volume. Cement, sand and aggregate are each the dry volume × their part of the mix / the sum of the parts. `cementBags` is the least integer with `cementBags × 0.035 ≥ cementVolume`. |
| `Calculations.CementMixSplit` | js/calculations.js:24-29 | The dry volume is split in the proportions of the mix: cement : sand, sand : aggregate and cement : aggregate are each the ratio of the mix's parts, so the split holds even with no sand. The three parts sum to the dry volume. |
| `Calculations.Cost` | js/calculations.js:39-47 | A blank or unparsable price (`parseFloat(x) \|\| 0`) costs nothing. A numeric price costs price × quantity. |
| `Calculations.CostEntry` | js/calculations.js:57-62 | A per-material cost row is listed exactly when its amount is positive. |
| `Calculations.CostBlockLookup` | js/calculations.js:57-63 | Appending the cost block leaves the fixed rows readable as before. A cost key is present only when the total is positive. `TOTAL COST` is present exactly when the total is positive. |
| `Calculations.CementRows` | js/calculations.js:49-63 | The first four rows are Volume, Cement Bags, Sand and Aggregate, in that order. With a total cost of zero or less there are no other rows. With a positive total the separator row comes fifth, `TOTAL COST` with the total comes last, and between them lie exactly the cement cost entries. |
| `Calculations.CementRowsDistinct` | js/calculations.js:49-63 | No two cement result rows share a key. |
| `Calculations.CementBaseLookup` | js/calculations.js:49-54 | The fixed cement rows hold the volume, the bag count, the sand volume and the aggregate volume, and no cost key. |
| `Calculations.CementCostEntries` | js/calculations.js:57-62 | Each of Cement Cost, Sand Cost and Aggregate Cost is listed exactly when positive. `TOTAL COST` is not among them. |
| `Calculations.CementCostEntriesKeys` | js/calculations.js:57-62 | The keys of the cement cost entries are exactly the positive ones among Cement Cost, Sand Cost and Aggregate Cost, in that order. No other key appears and none repeats. |
| `Calculations.CementRowsQuantities` | js/calculations.js:49-63 | The four quantities are shown whatever the prices. |
| `Calculations.CementRowsTotal` | js/calculations.js:57-63 | `TOTAL COST` is shown, with the sum, exactly when the total is positive. |
| `Calculations.CementRowsCosts` | js/calculations.js:57-63 | Each material cost is shown exactly when it and the total are both positive. |
| `Calculations.CementResult` | js/calculations.js:2-63 | A missing, zero or non-numeric length, width or thickness is the 'fill in all fields' error. Otherwise a ratio with no mix is the non-finite error. Nothing else is an error. |
| `Calculations.CementResultMeaning` | js/calculations.js:13-63 | A cement result shows the slab volume, the bag count, and the sand and aggregate volumes computed for the ratio's mix. It has a `TOTAL COST` exactly when the priced materials cost something. |
| `Calculations.BrickQuantitiesOf` | js/calculations.js:100-117 | The wall area is length × height. The area per brick is that of a brick with its joint. `bricksNeeded` is the ceiling of wall area over area per brick. The mortar volume is the wall volume (110 mm thick) less the volume of the bricks needed. `bricksWithWastage` is the least integer ≥ 1.05 × `bricksNeeded`. |
| `Calculations.BrickCover` | js/calculations.js:103-111 | `bricksNeeded` is the least count whose faces, joints included, cover the wall. `bricksWithWastage` is the least integer ≥ 1.05 × `bricksNeeded`, hence at least `bricksNeeded`. |
| `Calculations.BrickCountsOnPositiveInput` | js/calculations.js:89-111 | With positive dimensions and joint, at least one brick is needed. The count shown is at least the need and covers the wall. |
| `Calculations.BrickRows` | js/calculations.js:131-143 | The first three rows are Wall Area, Bricks Needed and Mortar Volume. With a total cost of zero or less there are no other rows. With a positive total the separator row comes fourth, `TOTAL COST` with the total comes last, and between them lie exactly the brick cost entries. |
| `Calculations.BrickRowsDistinct` | js/calculations.js:131-143 | No two brick result rows share a key. |
| `Calculations.BrickCostEntries` | js/calculations.js:138-142 | Bricks Cost and Mortar Cost are each listed, with their amount, exactly when positive. `TOTAL COST` is not among them. |
| `Calculations.BrickCostEntriesKeys` | js/calculations.js:138-142 | The keys of the brick cost entries are exactly the positive ones among Bricks Cost and Mortar Cost, in that order. No other key appears and none repeats. |
| `Calculations.BrickBaseLookup` | js/calculations.js:131-135 | The fixed brick rows hold the wall area, the count with wastage and the mortar volume, and no cost key. |
| `Calculations.BrickRowsQuantities` | js/calculations.js:131-143 | The three quantities are shown whatever the prices. |
| `Calculations.BrickRowsTotal` | js/calculations.js:138-143 | `TOTAL COST` is shown exactly when the total is positive. |
| `Calculations.BrickRowsCosts` | js/calculations.js:138-143 | Bricks Cost and Mortar Cost are each shown exactly when they and the total are positive. |
| `Calculations.BrickResult` | js/calculations.js:84-143 | A missing, zero or non-numeric length, height or mortar thickness is the 'fill in all fields' error, and only that is. A joint for which a brick covers no area is the non-finite error. |
| `Calculations.BrickResultMeaning` | js/calculations.js:100-143 | A brick result shows the wall area, the count with wastage and the mortar volume. It has a `TOTAL COST` exactly when the priced materials cost something. |
| `Calculations.AreaOf` | js/calculations.js:163-193 | The length is always required. The width is required for a rectangle and a triangle only. Rectangle is l·w, triangle l·w/2, circle π·l². Any other shape is 0 with no error. |
| `Calculations.AreaRows` | js/calculations.js:195-198 | Area in m², then the same area in hectares (× 10000 gives it back). |
| `Calculations.VolumeOf` | js/calculations.js:211-242 | Each known shape checks exactly the dimensions it uses: cube l³, cuboid l·w·h, cylinder π·l²·h. Any other shape is 0 with no error. |
| `Calculations.VolumeRows` | js/calculations.js:244-247 | Volume in m³, then the same volume in litres (1000 ×). |
| `Calculations.LastResults.ResultsFor` | js/calculations.js:319-328 | Each of the four calculator types reads its own stored results, or `{}` when none are stored. Any other type reads as `{}`. |
| `Calculations.LogCalculation` | js/calculations.js:75-80 | Logging a record appends it under a fresh key, and advances the key generator by one, when the store accepts it. Otherwise it changes nothing. The version, schema and purchases are unchanged. |
| `Calculations.CalculateCement` | js/calculations.js:2-81 | On error nothing is stored or logged. Otherwise the rows become `lastCementResults` and a `cement` record with the four inputs is logged. The key generator advances by one exactly when a record is logged. The database version, schema, connection and purchases are unchanged. |
| `Calculations.CalculateBrick` | js/calculations.js:84-160 | As for cement, with `lastBrickResults` and a `brick` record. The key generator advances by one exactly when a record is logged. The database version, schema, connection and purchases are unchanged. |
| `Calculations.CalculateAreaAsWritten` | js/calculations.js:163-208 | Shows and logs the area rows and leaves `lastAreaResults` untouched. The key generator advances by one exactly when a record is logged. The database version, schema, connection and purchases are unchanged. |
| `Calculations.CalculateArea` | js/calculations.js:163-208 | The corrected calculation: the same rows and record, and the rows are also stored for the shopping list. The key generator advances by one exactly when a record is logged. The database version, schema, connection and purchases are unchanged. |
| `Calculations.CalculateVolumeAsWritten` | js/calculations.js:211-257 | Shows and logs the volume rows and leaves `lastVolumeResults` untouched. The key generator advances by one exactly when a record is logged. The database version, schema, connection and purchases are unchanged. |
| `Calculations.CalculateVolume` | js/calculations.js:211-257 | The corrected calculation: the same rows and record, and the rows are also stored for the shopping list. The key generator advances by one exactly when a record is logged. The database version, schema, connection and purchases are unchanged. |
| `Calculations.UpperAscii` | js/calculations.js:316 | `toUpperCase` on a letter of a type name: a lower-case ASCII letter becomes its capital, 32 code points lower. Any other character is kept. |
| `Calculations.ProjectTitle` | js/calculations.js:315-316 | The project-name field when present and non-empty. Otherwise the capitalised type followed by ` Project`. |
| `Calculations.Select` | js/calculations.js:342-357 | The `forEach` accumulation keeps exactly the rows passing the test, in result order. |
| `Calculations.GenerateShoppingList` | js/calculations.js:307-363 | No list when the stored results are empty. Materials are exactly the rows whose label contains neither `COST` nor `---` (case-sensitive), in order. A budget section is present exactly when `TOTAL COST` has a value, and lists the labels containing `Cost` or equal to `TOTAL COST`. |
| `Calculations.AreaShoppingListAsWritten` | js/calculations.js:163-208 | A 2 × 3 rectangle is calculated, yet no shopping list is produced. |
| `Calculations.AreaShoppingListCorrected` | js/calculations.js:307-333 | The same steps with the result stored produce a list. |
| `Calculations.VolumeShoppingListAsWritten` | js/calculations.js:211-257 | A 2 m cube is calculated, yet no shopping list is produced. |
| `Calculations.VolumeShoppingListCorrected` | js/calculations.js:307-333 | The same steps with the result stored produce a list. |
| `Tools.ConversionFactorsPositive` | js/tools.js:4-29 | The table has exactly cement, volume, area and length, each with a positive factor. |
| `Tools.ConvertedOutput` | js/tools.js:47-62 | The output is cleared for a missing, zero or negative input. It is untouched for an unknown type. Otherwise it is the input times the type's factor, so dividing by the factor gives the input back. |
| `Tools.Scale` | js/tools.js:60 | A positive input times a positive factor is positive and divides back to the input. |
| `Tools.Converter.UpdateLabels` | js/tools.js:32-44 | For a known type, shows its two labels and clears both fields. For an unknown type nothing changes. |
| `Tools.Converter.Convert` | js/tools.js:47-62 | Only the output field changes, as `ConvertedOutput` says. |
| `Tools.LabelsThenConvert` | js/tools.js:32-62 | Right after a type change, converting clears the output, since both fields were cleared. |
| `Tools.LaborResult` | js/tools.js:66-87 | Accepts exactly at least one worker, a positive daily rate and at least one day. Accepted input is carried into the figures unchanged. |
| `Tools.LaborTotals` | js/tools.js:81-87 | Daily cost = workers × rate. Weekly cost = daily cost × `min(days, 7)`. Total = workers × rate × days. The weekly cost is positive, never exceeds the total, and equals it for a job of a week or less. |
| `Tools.WallMaterialsFor` | js/tools.js:105-123 | `null` for any type but single, cavity and double. Otherwise the area, the type's thickness, and the least integer number of bricks ≥ area × density × 1.05. |
| `Tools.WallBricks` | js/tools.js:115-116 | The least integer ≥ area × density × 1.05. |
| `Tools.DenserWallNeedsMore` | js/tools.js:107-116 | At a higher brick density the same non-negative area needs at least as many bricks. |
| `Tools.ThickerWallsNeedMoreBricks` | js/tools.js:106-116 | A cavity or double wall needs at least as many bricks as a single wall of the same size. |
| `Tools.ConcreteVolume` | js/tools.js:126-142 | Slab l·w·t, footing l·w·d, column w·d·h, and 0 for any other shape. |
| `Tools.ConcreteVolumeNonNegative` | js/tools.js:126-142 | Non-negative dimensions give a non-negative volume for every shape. |
| `PriceDatabase.AllPricesPositive` | js/priceDatabase.js:4-75 | Every price in the table is positive. |
| `PriceDatabase.CityOrderIsKeys` | js/priceDatabase.js:4-75 | The table's keys in insertion order: ten distinct names, exactly the table's cities. |
| `PriceDatabase.GetCityPrices` | js/priceDatabase.js:78-80 | The table entry for each listed city, and `null` exactly for any other name. |
| `PriceDatabase.StrLtIrreflexive` | js/priceDatabase.js:84 | The default sort order is irreflexive. |
| `PriceDatabase.StrLtTotal` | js/priceDatabase.js:84 | The default sort order is total. |
| `PriceDatabase.StrLtTransitive` | js/priceDatabase.js:84 | The default sort order is transitive. |
| `PriceDatabase.InsertElements` | js/priceDatabase.js:84 | Inserting adds exactly the one element. |
| `PriceDatabase.InsertSorted` | js/priceDatabase.js:84 | Inserting into a sorted sequence keeps it sorted. |
| `PriceDatabase.SortStringsCorrect` | js/priceDatabase.js:84 | The sort is a permutation of its input, and its output is sorted. |
| `PriceDatabase.SortDistinct` | js/priceDatabase.js:84 | Sorting names without repeats keeps the same names and orders them strictly. |
| `PriceDatabase.GetAvailableCities` | js/priceDatabase.js:83-85 | Each of the ten cities exactly once, in strictly ascending order. |
| `PriceDatabase.PriceFields.SetIfPresent` | js/priceDatabase.js:97-106 | Only an existing field is written. |
| `PriceDatabase.Written` | js/priceDatabase.js:97-106 | Writing a price changes only that field, and only if the page has it. No field is added. |
| `PriceDatabase.FilledFields` | js/priceDatabase.js:91-106 | Each of the five price fields the page has holds the city's price. Every other field is kept, and none is added. |
| `PriceDatabase.CityRecordsShape` | js/priceDatabase.js:109-113 | Exactly five records, in the order cement, sand, aggregate, brick, mortar, all in ZMW. Their prices are positive when the city's prices are. |
| `PriceDatabase.PriceLog.SaveMaterialPrice` | js/priceDatabase.js:109-113 | Each call is appended to the price log. |
| `PriceDatabase.ApplyPricesFromCity` | js/priceDatabase.js:88-116 | For an unknown city, returns false and writes nothing. Otherwise fills the existing price fields, saves exactly the city's five records, and returns true. |
| `PriceDatabase.LoadSavedCity` | js/priceDatabase.js:119-121 | The stored city, or `''` when none is stored. |
| `PriceDatabase.SelectCity` | js/priceDatabase.js:124-183 | For a city in the table, the form's price fields are filled with its prices, its five records are logged, and the city is stored as the preference. An unknown city changes nothing. |
| `PriceDatabase.InitializeCitySelector` | js/priceDatabase.js:200-209 | For a saved city in the table, the form's price fields are filled with its prices and its five records are logged. With no saved city, or one not in the table, nothing changes. Storage is only read. |
| `JsStrings.IncludesIff` | js/calculations.js:343 | `includes` holds exactly when the substring occurs at some position. |
| `JsStrings.TrimEnds` | js/projects.js:69 | The trimmed text is a slice of the input with no white space at either end, and what was cut is white space. |
| `JsStrings.TrimIdempotent` | js/projects.js:69 | Trimming twice equals trimming once. |
| `JsStrings.TrimEmptyIff` | js/projects.js:69-70 | The trimmed name is empty exactly when the field is all white space. |
| `Sequences.FilterMembership` | js/calculations.js:342-357 | An element is kept exactly when it is in the input and passes the test. |
| `ResultRows.LookupMeaning` | js/calculations.js:319-357 | `results[key]` is the cell of the first entry with that key, and is absent exactly when no entry has it. |
| `ResultRows.LookupAppend` | js/calculations.js:57-63 | Looking up in two blocks of rows: the first block wins. |
| `ResultRows.LookupFirst` | js/calculations.js:319-357 | An entry whose key no earlier entry has is what `results[key]` reads. |
| `Storage.LocalStorage.constructor` | js/projects.js:7 | The store starts with the given items. |
| `Storage.LocalStorage.GetItem` | js/projects.js:7 | `getItem` returns the stored text, and `null` exactly when the key is absent. |
| `Storage.LocalStorage.SetItem` | js/projects.js:21 | `setItem` stores the text under the key and changes no other key. |
| `Storage.LocalStorage.RemoveItem` | js/projects.js:24 | `removeItem` removes the key and changes no other key. |
| `ProjectJson.NatDigits` | js/projects.js:78-79 | `String(n)` of a timestamp: non-empty decimal digits with no leading zero. |
| `ProjectJson.DigitsValueOfNatDigits` | js/projects.js:78-79 | The digits written for a timestamp denote that timestamp. |
| `ProjectJson.ParseNatDigits` | js/projects.js:10 | Reading a written timestamp gives it back, with the rest of the text. |
| `ProjectJson.HexValueOfDigit` | js/projects.js:21 | The hex digit written in a `\u` escape reads back as its value. |
| `ProjectJson.EscapeCharParse` | js/projects.js:21 | Every character's escape, as `JSON.stringify` writes it, reads back as that character. |
| `ProjectJson.ParseEscaped` | js/projects.js:10-21 | A quoted, escaped string reads back as the string, followed by the rest of the text. |
| `ProjectJson.Expect` | js/projects.js:10 | A literal is consumed exactly when the text starts with it. |
| `ProjectJson.Stringify` | js/projects.js:21 | The text opens with `{"name":"` and is closed by `}`. |
| `ProjectJson.Parse` | js/projects.js:10 | Accepted text is framed as `Stringify` writes it: it opens with `{"name":"` and is closed by `}`. |
| `ProjectJson.ParseStringify` | js/projects.js:10-21 | `JSON.parse(JSON.stringify(p))` gives back `p` for every project object. |
| `ProjectJson.StringifyInjective` | js/projects.js:21 | Different projects are written as different text. |
| `Projects.ParseStored` | js/projects.js:7-10 | The stored text `null` parses to `null`. |
| `Projects.StoredRoundTrip` | js/projects.js:7-21 | What the slot writes for a project is read back as that project. |
| `Projects.ProjectName` | js/projects.js:69-73 | The name check rejects exactly a field that is all white space. An accepted name is the trimmed field: non-empty, with no white space at either end. |
| `Projects.LoadCurrentProject` | js/projects.js:6-16 | Takes the parsed value when the stored text is non-empty and parses. Otherwise `currentProject` is unchanged. |
| `Projects.SaveCurrentProject` | js/projects.js:19-26 | Writes the serialised project under `'currentProject'` when there is one, and removes the key otherwise. Other keys are untouched. |
| `Projects.SaveThenLoad` | js/projects.js:6-26 | Saving then loading leaves `currentProject` as it was. The key is present exactly when there is a project. |
| `Projects.ClearCurrentProject` | js/projects.js:42-46 | `currentProject` becomes `null` and the key is absent. |
| `Projects.CreateNewProject` | js/projects.js:65-90 | A blank name changes neither `currentProject` nor storage. Otherwise `currentProject` holds the trimmed name and description, the first `Date.now()` reading as `timestamp` and the second as `lastModified`, and is written to storage. |
| `Projects.ProjectStore.SaveProject` | js/projects.js:111 | Each record handed to `saveProject` is appended to the project log. |
| `Projects.SaveCalculationToProject` | js/projects.js:93-119 | A blank name saves nothing. Otherwise exactly one record with the trimmed name, the type, the two `Date.now()` readings as `timestamp` and `lastModified`, the inputs and the results. |
| `Projects.Fill` | js/projects.js:256-274 | Every listed field, and every field already written, is in the form afterwards. |
| `Projects.FillSets` | js/projects.js:256-274 | Each listed field holds its input, or its fallback when the input is falsy. Fields not listed are kept. |
| `Projects.FillKeys` | js/projects.js:256-274 | Filling adds exactly the listed fields. |
| `Projects.LoadProject` | js/projects.js:244-277 | The form holds every field of the project's calculator, and the name field when the page has one. |
| `Projects.LoadProjectFills` | js/projects.js:252-274 | Each field holds the saved input when that is truthy, and its fallback otherwise. The name field holds the name. |
| `Projects.LoadProjectWritesOnly` | js/projects.js:244-277 | `loadProject` writes the calculator's fields, the name field when present, and nothing else. |
| `Projects.NameFieldIsSeparate` | js/projects.js:252-274 | The name field is never one of the calculator's input fields. |
| `Projects.LoadProjectDefaults` | js/projects.js:256-274 | A project without inputs loads with `''` everywhere except ratio `1:2:4`, area shape `rectangle` and volume shape `cuboid`. |
| `Projects.ResultOrNA` | js/projects.js:201-220 | A card shows a stored amount, and `N/A` exactly when the result is missing or blank. |
| `Projects.CardDetails` | js/projects.js:200-220 | A cement card shows Volume and Cement (the `Cement Bags` result). A brick card shows Area (`Wall Area`) and Bricks (`Bricks Needed`). An area card shows Area, and a volume card shows Volume. Each is the stored amount or `N/A`. Any other type shows nothing. A blank result is never shown as a value. |
| `Projects.TypeLabel` | js/projects.js:193-229 | The type's badge, or the raw type when it has no badge. |
| `Projects.EmptyResultsCard` | js/projects.js:201-220 | A project saved with no results shows `N/A` for every key result. |
| `Projects.CementCard` | js/projects.js:201-205 | The card of a cement calculation shows its wet volume and its bag count. |
| `Projects.BrickCard` | js/projects.js:206-210 | The card of a brick calculation shows its wall area and its brick count. |
| `Projects.AreaCard` | js/projects.js:211-214 | The card of an area calculation shows its area in m². |
| `Projects.VolumeCard` | js/projects.js:215-218 | The card of a volume calculation shows its volume in m³. |

## Left out

- Page rendering and dialogs are not modelled: `showResult`, `showError`,
  the share modal, the card markup, `updateUI`, `showLoading`, the city
  display, `alert` and `confirm`. `js/app.js` and `js/prices.js` are not
  part of this model.
- Number formatting (`toFixed`, `toLocaleDateString`) is not modelled.
  Result cells hold exact reals, and quantities are exact reals rather
  than IEEE-754 doubles. Results are therefore exact where the app rounds,
  and an overflow to `Infinity` has no counterpart. `Math.PI` is the
  decimal the engine prints for it.
- The shopping-list and share text (emoji header, date line, bullet
  formatting) is left out. `GenerateShoppingList` returns the title and the
  selected rows instead.
- `Calculations.CementResult` reports a ratio with no mix as an error:
  fewer than three pieces, a piece that is not a number, or parts adding
  up to 0. The app would instead compute `NaN` volumes, show and store
  those rows, and log the record.
- `JsStrings.NumberOf` reads only unsigned decimal text. A sign, an
  exponent, surrounding white space, hexadecimal and `Infinity`, which
  `Number` accepts, read as `NaN`. The ratio options the page offers are
  not part of this model.
- `Calculations.BrickResult` reports a joint of -230 mm or -76 mm, where a
  brick with its joint covers no area, as an error. The app would instead
  divide by zero and show `Infinity` or `NaN`.
- `saveProject`, `saveMaterialPrice`, `getAllProjects` and `deleteProject`
  are defined in none of the modelled files. The first two are logs that always accept.
  `loadProjectsList`, deleting a project and the save-button handlers are
  page wiring and are left out.
- The IndexedDB request and transaction event machinery is left out. So
  are the `timestamp` index's lookups, which nothing calls. Each operation
  completes atomically.
- Promises, `setTimeout` and `await` run to completion in program order.
  Only the double-click interleaving of `purchasePro` is modelled.
- The payment platform (Digital Goods service, `PaymentRequest`) is a set
  of given outcomes. The purchase token and the price sheet are not
  interpreted.
- `Date.now()` and the form fields are parameters. The two `Date.now()`
  readings of `Projects.CreateNewProject` and of
  `Projects.SaveCalculationToProject` are separate parameters, and the
  model does not relate them.
- `localStorage` quota errors are not modelled.
- `ProjectJson.Parse` accepts only the compact text `JSON.stringify`
  writes for the project object. Other text that is valid JSON counts as a
  parse failure, and so does a timestamp of 10^21 or more, which
  `JSON.stringify` writes in exponent form. Such text can only come from
  outside the app. A lone surrogate is refused, and surrogate pairs are
  written as they are.
- `PriceDatabase.GetCityPrices` treats a name inherited from
  `Object.prototype` (such as `toString`) as absent. The app would read the
  inherited member, which is truthy.
- `Tools.WallMaterialsFor` and `Tools.ConvertedOutput` also treat inherited
  `Object.prototype` names as unknown types.
- `Projects.TypeLabel` shows the raw type for a name inherited from
  `Object.prototype` (such as `toString`), as if it had no badge. The app
  would show the inherited member instead, which is truthy. No type the app
  itself saves is such a name.
- `saveCityPreference` (js/priceDatabase.js:124-126) is inlined in
  `PriceDatabase.SelectCity`.
- `PriceDatabase.SelectCity` requires the storage object to be distinct
  from the form and the log, which always holds in the app.
- `Tools.LaborResult` states when input is accepted and what it carries.
  The totals are stated by `Tools.LaborTotals`. The figures' text is not
  modelled.
- `Tools.Converter.Convert` yields the exact product, not its
  four-decimal `toFixed(4)` text.
- The Digital Goods `acknowledge` call is modelled only as its outcome,
  present or absent.
- `createProjectCard`'s date and description lines are display only and
  are not modelled.

## Findings

| source | as written | input that shows it | evidently intended | confidence | as-written member | corrected member |
|---|---|---|---|---|---|---|
| js/calculations.js:163-208 | `calculateArea` never assigns `window.lastAreaResults`, though `generateShoppingList` reads it for the area type (js/calculations.js:324-325). | Area of a 2 × 3 rectangle, then "shopping list" on the area result: the list reports no results. | Store the rows in `window.lastAreaResults`, as the cement and brick calculators do (js/calculations.js:66, 146). | not executed | `Calculations.AreaShoppingListAsWritten` | `Calculations.AreaShoppingListCorrected` |
| js/calculations.js:211-257 | `calculateVolume` never assigns `window.lastVolumeResults`, though `generateShoppingList` reads it for the volume type (js/calculations.js:326-327). | Volume of a 2 m cube, then "shopping list" on the volume result: the list reports no results. | Store the rows in `window.lastVolumeResults`. | not executed | `Calculations.VolumeShoppingListAsWritten` | `Calculations.VolumeShoppingListCorrected` |
