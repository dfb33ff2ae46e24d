# openLCA geographic factor calculator and openEPD export logic, in Dafny

This project models two pieces of the openLCA desktop application.

**The geographic characterization-factor calculator** (`GeoFactorCalculator`,
module `GeoFactorCalculator` in `geo_factor_calculator.dfy`). For one LCIA
category and one setup it:

1. checks its input in a fixed order: setup and category, then the connected
   database, then a non-empty list of flow bindings. A failed check returns
   before anything changes;
2. clears from the category every factor whose flow id is bound in the setup,
   keeping all other factors in their order;
3. binds every geo-parameter to its default value, evaluates each binding's
   formula, records `flow id -> value` and appends one factor per successful
   evaluation. A failed evaluation skips that binding only;
4. when the setup has a non-empty reference feature collection, maps every
   location of the database, in order, to the feature shares its geometry
   intersects. Missing, unreadable or empty geodata, and any exception inside
   `getIntersections`, gives the empty list for that location. The result is not written back to
   the category.

The category is a class whose factor list the methods reassign. The
calculator is a class with `Run`, `ClearFactors` and `CalcDefaultValues`.
Each of these is specified by functions on values (`Kept`, `DefaultEnv`,
`DefaultFactors`, `DefaultMap`, `Recalculated`). The main lemma proves that a
second run leaves the factor list exactly as the first run left it.

**The openEPD export dialog's string and list logic** (module `ExportDialog`
in `export_dialog.dfy`). It covers:

- the id of an EPD that already exists: its URN without the `openEPD:`
  prefix;
- the label of the primary button;
- the EC3 product-class path: `getPath` finds the first `io.cqd.ec3` class,
  and `setPath` replaces all classes with at most that one;
- the mass unit string `kg/<declared unit>`.

`optional.dfy` holds the `Option` type that stands for a nullable Java
reference.

Two consequences of the code's order of operations:

- The feature check (`GeoFactorCalculator.java:59-64`) runs only after
  clearing and the default pass. So with no features, the cleared list plus
  the defaults stay in place (`Run`, outcome `NoFeatures`).
- `run` computes the intersections (`GeoFactorCalculator.java:67-70`) and
  drops them. `Run` returns them in its outcome and never writes them to the
  category.

## Model

| member | source | states |
|---|---|---|
| `GeoFactorCalculator.Calculator.constructor` | olca-app/src/org/openlca/app/editors/lcia/geo/GeoFactorCalculator.java:32-35 | the calculator holds the given setup and category |
| `GeoFactorCalculator.Calculator.Run` | olca-app/src/org/openlca/app/editors/lcia/geo/GeoFactorCalculator.java:37-71 | guard order (setup/category, database, bindings) with the factor list unchanged on each early exit; otherwise the list becomes the cleared list plus the defaults; the feature check comes after that mutation; on success the outcome holds one intersection entry per location and the list is the same as without features |
| `GeoFactorCalculator.Calculator.ClearFactors` | olca-app/src/org/openlca/app/editors/lcia/geo/GeoFactorCalculator.java:77-86 | the factor list becomes the old list without the factors whose flow id is bound |
| `GeoFactorCalculator.CollectSetupFlows` | olca-app/src/org/openlca/app/editors/lcia/geo/GeoFactorCalculator.java:78-83 | an id is collected exactly when some binding with a non-null flow has it; bindings without a flow add nothing |
| `GeoFactorCalculator.ImpactCategory.RemoveIfCleared` | olca-app/src/org/openlca/app/editors/lcia/geo/GeoFactorCalculator.java:84-85 | the loop leaves exactly `Kept` of the old list |
| `GeoFactorCalculator.Kept` | olca-app/src/org/openlca/app/editors/lcia/geo/GeoFactorCalculator.java:84-85 | a factor survives exactly when it was in the list and has no flow or an unbound flow id; never longer than the input |
| `GeoFactorCalculator.BoundFlowIds` | olca-app/src/org/openlca/app/editors/lcia/geo/GeoFactorCalculator.java:78-83 | the id of every binding that has a flow is in the set; no bindings give the empty set |
| `GeoFactorCalculator.IsCleared` | olca-app/src/org/openlca/app/editors/lcia/geo/GeoFactorCalculator.java:85 | the `removeIf` predicate: the factor has a flow and its id is bound |
| `GeoFactorCalculator.KeptConcat` | olca-app/src/org/openlca/app/editors/lcia/geo/GeoFactorCalculator.java:84-85 | clearing a concatenation clears each part, so the kept factors keep their relative order |
| `GeoFactorCalculator.KeptNoneCleared` | olca-app/src/org/openlca/app/editors/lcia/geo/GeoFactorCalculator.java:84-85 | a list with no bound factor is left exactly as it is |
| `GeoFactorCalculator.KeptAllCleared` | olca-app/src/org/openlca/app/editors/lcia/geo/GeoFactorCalculator.java:84-85 | a list whose factors are all bound is emptied |
| `GeoFactorCalculator.KeptIdempotent` | olca-app/src/org/openlca/app/editors/lcia/geo/GeoFactorCalculator.java:84-85 | clearing twice equals clearing once |
| `GeoFactorCalculator.Calculator.CalcDefaultValues` | olca-app/src/org/openlca/app/editors/lcia/geo/GeoFactorCalculator.java:95-121 | the returned map is `DefaultMap` and the factor list is the old list followed by `DefaultFactors`, both evaluated in the default environment built before any formula |
| `GeoFactorCalculator.BindDefaults` | olca-app/src/org/openlca/app/editors/lcia/geo/GeoFactorCalculator.java:98-103 | binds exactly the parameter identifiers; an identifier bound by only one parameter (or by a last one) holds that parameter's default value |
| `GeoFactorCalculator.DefaultEnv` | olca-app/src/org/openlca/app/editors/lcia/geo/GeoFactorCalculator.java:99-103 | the bound names are exactly the parameter identifiers |
| `GeoFactorCalculator.DefaultEnvLastWins` | olca-app/src/org/openlca/app/editors/lcia/geo/GeoFactorCalculator.java:100-103 | a later `bind` of the same identifier overwrites; the last parameter with an identifier decides its value |
| `GeoFactorCalculator.Succeeds` | olca-app/src/org/openlca/app/editors/lcia/geo/GeoFactorCalculator.java:107-110 | a binding yields a default exactly when its flow is non-null and its formula evaluates without an exception |
| `GeoFactorCalculator.DefaultFactors` | olca-app/src/org/openlca/app/editors/lcia/geo/GeoFactorCalculator.java:106-118 | a factor is appended exactly for a binding with a flow whose formula evaluates, carrying that flow and value; at most one per binding |
| `GeoFactorCalculator.DefaultFactorsConcat` | olca-app/src/org/openlca/app/editors/lcia/geo/GeoFactorCalculator.java:106-118 | bindings are handled one after the other: a failing binding adds nothing and the later bindings are still processed |
| `GeoFactorCalculator.DefaultFactorsAreCleared` | olca-app/src/org/openlca/app/editors/lcia/geo/GeoFactorCalculator.java:106-113 | every appended factor has a flow whose id is in the bound set |
| `GeoFactorCalculator.ImpactCategory.AddFactor` | olca-app/src/org/openlca/app/editors/lcia/geo/GeoFactorCalculator.java:112-113 | one factor with the flow and the value is appended; the rest of the list is unchanged |
| `GeoFactorCalculator.DefaultMap` | olca-app/src/org/openlca/app/editors/lcia/geo/GeoFactorCalculator.java:106-111 | the keys are exactly the flow ids of the bindings whose formula evaluates |
| `GeoFactorCalculator.DefaultMapLastWins` | olca-app/src/org/openlca/app/editors/lcia/geo/GeoFactorCalculator.java:110-111 | a flow id maps to the value of its last successful binding (`put` overwrites) |
| `GeoFactorCalculator.Recalculated` | olca-app/src/org/openlca/app/editors/lcia/geo/GeoFactorCalculator.java:55-56 | the list after clearing and the default pass: every unbound old factor is still there, every new factor belongs to a bound flow, and it grows by at most one factor per binding |
| `GeoFactorCalculator.RecalculatedIdempotent` | olca-app/src/org/openlca/app/editors/lcia/geo/GeoFactorCalculator.java:55-56 | a second run removes the factors the first appended and appends the same ones: the factor list is the same after one run or two |
| `GeoFactorCalculator.RecalculatedFactorsOfBoundFlows` | olca-app/src/org/openlca/app/editors/lcia/geo/GeoFactorCalculator.java:55-56 | after a run, an unbound factor is present exactly when it was before, and a bound one exactly when the default pass produced it |
| `GeoFactorCalculator.FirstGeometry` | olca-app/src/org/openlca/app/editors/lcia/geo/GeoFactorCalculator.java:125-144 | null geodata gives no geometry; a geometry found is that of the first feature of a collection that gunzip and unpack both returned |
| `GeoFactorCalculator.GetIntersections` | olca-app/src/org/openlca/app/editors/lcia/geo/GeoFactorCalculator.java:123-154 | null geodata gives the empty list; a non-empty result is what the intersection calculator returned for the first feature's geometry |
| `GeoFactorCalculator.GetIntersectionsFailSoft` | olca-app/src/org/openlca/app/editors/lcia/geo/GeoFactorCalculator.java:129-153 | gunzip throwing or returning null, unpack throwing or returning null, an empty collection, a null first feature or geometry, and `shares` throwing each give the empty list |
| `GeoFactorCalculator.GetIntersectionsOnSuccess` | olca-app/src/org/openlca/app/editors/lcia/geo/GeoFactorCalculator.java:140-148 | when every step succeeds the result is `shares` of the first feature's geometry |
| `GeoFactorCalculator.Intersections` | olca-app/src/org/openlca/app/editors/lcia/geo/GeoFactorCalculator.java:67-70 | one `(location, shares)` entry per location, in the order `getAll()` returned them |
| `ExportDialog.ExistingId` | olca-app/src/org/openlca/app/editors/epds/ExportDialog.java:62-64 | an id exists exactly when the URN is non-null and starts with `openEPD:`, and then the URN is that prefix followed by the id |
| `ExportDialog.ExistingIdRoundTrip` | olca-app/src/org/openlca/app/editors/epds/ExportDialog.java:62-63 | prefixing any id with `openEPD:` gives a URN from which that id is read back |
| `ExportDialog.Dialog.constructor` | olca-app/src/org/openlca/app/editors/epds/ExportDialog.java:59-66 | the dialog's existing id is derived from the model's URN |
| `ExportDialog.PrimaryButtonLabel` | olca-app/src/org/openlca/app/editors/epds/ExportDialog.java:113 | the label is "Upload" or "Update", and "Update" exactly when an existing id is known |
| `ExportDialog.PrimaryButtonLabelOfUrn` | olca-app/src/org/openlca/app/editors/epds/ExportDialog.java:112-114 | the primary button says "Update" exactly for a URN with the openEPD prefix and "Upload" otherwise |
| `ExportDialog.FirstEc3Index` | olca-app/src/org/openlca/app/editors/epds/ExportDialog.java:266-270 | the index found has the EC3 key and no earlier class has it; it is the length when no class has it |
| `ExportDialog.PathOf` | olca-app/src/org/openlca/app/editors/epds/ExportDialog.java:265-272 | no path when no class has the EC3 key; otherwise the path is the second part of the first class that has it |
| `ExportDialog.CategoryLink.GetPath` | olca-app/src/org/openlca/app/editors/epds/ExportDialog.java:265-272 | the loop returns the second part of the first EC3 class, or null when there is none; a returned path belongs to an EC3 class |
| `ExportDialog.PathOfSkipsOtherKeys` | olca-app/src/org/openlca/app/editors/epds/ExportDialog.java:266-270 | classes with other keys in front of the list do not change the path |
| `ExportDialog.IsBlank` | olca-app/src/org/openlca/app/editors/epds/ExportDialog.java:295 | the `trim().isEmpty()` test: a string is blank when every character is at most U+0020 |
| `ExportDialog.NullOrEmpty` | olca-app/src/org/openlca/app/editors/epds/ExportDialog.java:295 | `Strings.nullOrEmpty`: a null path, an empty path and a path of only characters that `trim` removes count as absent; a path starting with a visible character does not |
| `ExportDialog.ClassesFor` | olca-app/src/org/openlca/app/editors/epds/ExportDialog.java:292-298 | the list is empty exactly for a null, empty or blank path; reading the path back gives null for those and the path otherwise |
| `ExportDialog.CategoryLink.SetPath` | olca-app/src/org/openlca/app/editors/epds/ExportDialog.java:292-298 | the product classes become `ClassesFor(path)`, so all earlier pairs are gone; the declared unit is unchanged |
| `ExportDialog.SetThenGetPath` | olca-app/src/org/openlca/app/editors/epds/ExportDialog.java:292-298 | on the objects: after `SetPath(p)` with a `p` that is not blank the list is exactly `[("io.cqd.ec3", p)]` and `GetPath` returns `p` |
| `ExportDialog.MassUnit` | olca-app/src/org/openlca/app/editors/epds/ExportDialog.java:329-334 | the unit starts with `kg/`, followed by `??` without a declared unit and by the declared unit's name otherwise (`null` for a null name) |

## Left out

- Formula parsing and evaluation are a parameter `eval(env, formula)`. It returns `None` where the interpreter throws.
- `Double.toString` of the default values is not modelled: the environment binds the value itself.
- Factor values, default values and shares are `real`. Floating-point rounding is not modelled.
- `BinUtils.gunzip`, `MsgPack.unpack`, `IntersectionCalculator.on(coll).shares(g)`, `LocationDao.getAll` and `Database.get` are parameters: the `GeoLibrary` functions `gunzip`, `unpack` and `shares`, each of which may return or throw inside `getIntersections`, and an optional `Database` holding the location list.
- `IntersectionCalculator.on(coll)` (`GeoFactorCalculator.java:65`) and `LocationDao.getAll()` (`GeoFactorCalculator.java:67`) run outside any `try`, so a throw there escapes `run` after the factor list has been cleared and the defaults appended. The model folds `on` into `shares`, whose `Threw` is caught per location, and its location list cannot fail. Neither exception is captured.
- Geometry is opaque (a list of coordinates). Intersection geometry, area shares and their bounds are not modelled.
- `setup.getFeatures()` is a field of the setup.
- The `parallelStream` over the locations is a sequential map. Its workers share no state and `collect(toList())` keeps the encounter order.
- Logging is left out. `Run` returns which exit it took instead; the Java method returns nothing.
- `ImpactCategory.addFactor` is not part of this model. A factor is reduced to its flow and value, and `AddFactor` writes the value directly. The unit and flow property that openLCA also sets on a new factor are not modelled.
- `FeatureCollection.features` is never null in the model. For a location's unpacked collection (`GeoFactorCalculator.java:136`) a null list would throw inside the `try` and be caught, which also gives the empty list. For the setup's collection (`GeoFactorCalculator.java:60`) the check is outside any `try`: a null list there makes `run` throw after the factor list has already been cleared and the defaults appended. The model does not capture that exception.
- `Strings.nullOrEmpty` is not part of this model. `NullOrEmpty` follows its usual definition: null, or empty after `String.trim`, which removes characters up to U+0020.
- The Java `run` keeps `defaults` and `intersections` as unused locals. The model computes them the same way and does not use them further.
- Export dialog: the shell, buttons, forms and links, `okPressed`, `tryUploadNew`, `tryUpdateExisting`, `buttonPressed`, the category cache and the login panel are left out. They are UI, HTTP (EC3 client), JSON and file I/O.
- `MassField.update` parses a double with `Double.parseDouble`, so it is left out with floating point.
- `EpdConverter.toEpdDoc` is not part of this model. The document is built directly from its product classes and declared unit.
