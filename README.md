# SvgSliceSpike view model, in Dafny

This project models `TestModel`, the view model of the SvgSliceSpike demo. The demo is a
nine-slice SVG scaling page. `TestModel` holds two pieces of mutable state:

- the inset magnitude `AllSidesInset`, which a slider drives;
- the catalog index `SvgResourceIndex`, which a picker drives.

From these it derives two values that the page binds to:

- `SvgInsets`, the stretchable insets;
- `SvgResourcePath`, the embedded resource path.

Each setter compares the new value with the stored one and does nothing when they are equal.
Otherwise it stores the value and raises two property-change notifications: the primary
property first, then the one derived from it.

Files:

- `catalog.dfy` (module `Catalog`): the 18 asset names in declaration order. It models
  `ToDictionary(...).ToList()` as `ToDictionaryList`, which fails (`None`) when a name repeats.
  The list is taken to follow insertion order (see "## Left out").
  It also holds the path lookup and `AvailableResourceNames`.
- `view_model.dfy` (module `ViewModel`): the fields as a value `State`, the two setters as
  functions on it, and `Replay`, the state after any sequence of setter calls. Lemmas state the
  setters' properties. The class `TestModel` keeps the same fields in place. It has a ghost
  notification log and a ghost record of the setter calls made. Its invariant `Valid()` says
  that the fields are what `Replay` gives for those calls. The getters of `AllSidesInset` and
  `SvgResourceIndex` are reads of the fields `allSidesInset` and `svgResourceIndex`.

The constructor runs `AllSidesInset = 0` after the fields take their defaults. That call meets
the default 0 and short-circuits. So construction raises no notification and never assigns the
cached insets field. The model takes `ResizableSvgInsets` to be a reference type, so that field
stays at its default, null, written `None` here (see "## Left out").

Under that reading the cached insets are not a pure function of the magnitude. An object whose
magnitude went to 5 and back to 0 reads `Uniform(0)`. A fresh object reads `None`. One might
expect the derived values to be pure functions of the state; the cached insets are not. The
model follows the code (`SvgSliceSpike/SvgSliceSpike.cs:16`, `22-26`, `71`), and
`SvgInsetsDependOnHistory` exhibits the difference. What does hold is `ReplayConsistent`: the
insets are either unassigned with magnitude 0, or uniform of the current magnitude.

## Model

| member | source | states |
|---|---|---|
| ViewModel.Fresh | SvgSliceSpike/SvgSliceSpike.cs:10-28 | the field defaults (magnitude 0, insets unassigned, index 0, no notification) satisfy the insets invariant and form a well-paired log |
| ViewModel.WithAllSidesInset | SvgSliceSpike/SvgSliceSpike.cs:13-19 | the setter stores the value; the state is unchanged if and only if the value is the current magnitude; the index is never touched; the log only grows, by at most two; the insets invariant is kept |
| ViewModel.WithSvgResourceIndex | SvgSliceSpike/SvgSliceSpike.cs:31-37 | the setter stores the value unchecked; the state is unchanged if and only if the value is the current index; magnitude and insets are never touched; the log only grows, by at most two |
| ViewModel.Replay | SvgSliceSpike/SvgSliceSpike.cs:10-37 | any sequence of setter calls from the defaults raises at most two notifications per call |
| Catalog.ToDictionaryList | SvgSliceSpike/SvgSliceSpike.cs:49-68 | building the name-to-path dictionary succeeds exactly when the names are pairwise distinct; the listed pairs are then the names in order, each with `SvgSliceSpike.Assets.<name>.svg` |
| Catalog.NamesDistinct | SvgSliceSpike/SvgSliceSpike.cs:49-67 | the 18 declared names are pairwise distinct, so the static initialiser does not throw |
| Catalog.AvailableResources | SvgSliceSpike/SvgSliceSpike.cs:49-68 | the catalog has 18 entries; entry i pairs name i with its asset path |
| Catalog.AvailableResourceNames | SvgSliceSpike/SvgSliceSpike.cs:42-45 | the names offered are the 18 declared names in source order, the first `twintechs-logo`, pairwise distinct |
| Catalog.ResourcePath | SvgSliceSpike/SvgSliceSpike.cs:40 | for an index inside the catalog, the path is `SvgSliceSpike.Assets.` + name + `.svg`; outside it there is no path |
| Catalog.AssetPathInjective | SvgSliceSpike/SvgSliceSpike.cs:68 | two names with the same asset path are the same name |
| Catalog.ResourcePathsDistinct | SvgSliceSpike/SvgSliceSpike.cs:49-68 | two catalog indices have the same path if and only if they are equal |
| ViewModel.SetToCurrentIsNoOp | SvgSliceSpike/SvgSliceSpike.cs:14-32 | setting either property to its current value leaves the whole state, log included, unchanged |
| ViewModel.ApplyIdempotent | SvgSliceSpike/SvgSliceSpike.cs:14-32 | setting a value twice in a row gives the state of setting it once; the second call appends no notification |
| ViewModel.SetInsetEffect | SvgSliceSpike/SvgSliceSpike.cs:14-18 | a different magnitude is stored, the insets become uniform of it, `AllSidesInset` then `SvgInsets` is appended, the index is unchanged |
| ViewModel.SetIndexEffect | SvgSliceSpike/SvgSliceSpike.cs:32-35 | a different index is stored, `SvgResourceIndex` then `SvgResourcePath` is appended, magnitude and insets are unchanged |
| ViewModel.InsetsNotifiedIffChanged | SvgSliceSpike/SvgSliceSpike.cs:14-18 | from a consistent state, the `SvgInsets` notification is raised if and only if the insets value changes |
| ViewModel.PathNotifiedIffChanged | SvgSliceSpike/SvgSliceSpike.cs:32-40 | with both indices inside the catalog, the `SvgResourcePath` notification is raised if and only if the path changes |
| ViewModel.ReplayConsistent | SvgSliceSpike/SvgSliceSpike.cs:10-26 | after any sequence of setter calls the insets are unassigned with magnitude 0, or uniform of the current magnitude |
| ViewModel.ReplayLogPaired | SvgSliceSpike/SvgSliceSpike.cs:14-35 | after any sequence of setter calls the log consists of whole pairs, each primary property immediately followed by its dependent |
| ViewModel.ReplayIndexInRange | SvgSliceSpike/SvgSliceSpike.cs:29-40 | when every index passed to the setter lies inside the catalog, the stored index does too, so the path can be read |
| ViewModel.ConstructedState | SvgSliceSpike/SvgSliceSpike.cs:70-72 | after the constructor the magnitude and index are 0, the insets unassigned, no notification raised, and the path is that of `twintechs-logo` |
| ViewModel.SvgInsetsDependOnHistory | SvgSliceSpike/SvgSliceSpike.cs:14-26 | two objects with equal magnitude and index can read different insets: a fresh one reads none, one moved to 5 and back to 0 reads uniform 0 |
| ViewModel.TestModel.constructor | SvgSliceSpike/SvgSliceSpike.cs:70-72 | the object starts with magnitude 0, index 0, insets unassigned and an empty log, having made the one call `AllSidesInset = 0` |
| ViewModel.TestModel.SetAllSidesInset | SvgSliceSpike/SvgSliceSpike.cs:11-21 | an equal value changes nothing; a different one stores it, rebuilds the insets and appends `AllSidesInset`, `SvgInsets`; the index never changes |
| ViewModel.TestModel.SetSvgResourceIndex | SvgSliceSpike/SvgSliceSpike.cs:29-38 | an equal value changes nothing; a different one stores it and appends `SvgResourceIndex`, `SvgResourcePath`; magnitude and insets never change |
| ViewModel.TestModel.SvgInsets | SvgSliceSpike/SvgSliceSpike.cs:22-27 | the insets read are unassigned only while the magnitude is 0, and otherwise uniform of the current magnitude |
| ViewModel.TestModel.SvgResourcePath | SvgSliceSpike/SvgSliceSpike.cs:39-41 | for an index inside the catalog, the path of the selected entry |

## Left out

- The `App` class (`SvgSliceSpike/SvgSliceSpike.cs:78-148`) is left out. It builds Xamarin.Forms controls, bindings, layout, the alert dialog and empty lifecycle hooks, all over a framework that is not part of this model.
- The `PropertyChanged` event and its subscribers are left out. They are replaced by a ghost log of property names. The event starts with an empty delegate, so `?.Invoke` always runs, and every notification is logged.
- `ResizableSvgInsets` and `SvgImage` belong to the external SVG plugin. The insets are modelled only by the uniform magnitude they are built from.
- The slider's 0 to 35 range and the picker's index range are UI-control settings. The model does not enforce them. The picker's range appears only as the precondition of `ReplayIndexInRange`.
- Reflection (`GetTypeInfo().Assembly`) and the label's binding format string are UI plumbing and are left out.
- `ResizableSvgInsets` comes from the external plugin and its declaration is not part of this model. The model takes it to be a reference type, so the field `_SvgInsets` starts as null, written `None`. The unset state in `ViewModel.Fresh`, `ViewModel.ConstructedState`, `ViewModel.TestModel.constructor` and `ViewModel.TestModel.SvgInsets`, and the whole of `ViewModel.SvgInsetsDependOnHistory`, rest on that assumption. If the type were a value type, the field would start as all-zero insets, equal to uniform insets of 0, and the cached insets would always be uniform of the magnitude.
- The order of the catalog list is taken to be insertion order. That is how the .NET `Dictionary` enumerates when nothing is removed, but its documented contract leaves enumeration order unspecified.
- Reading `SvgResourcePath` with an index outside the catalog throws `ArgumentOutOfRangeException` in the source (`SvgSliceSpike/SvgSliceSpike.cs:40`). The model has no exception for it: `Catalog.ResourcePath` and `ViewModel.TestModel.SvgResourcePath` require the index to lie inside the catalog.
- Integers are unbounded. The source's `int` is 32-bit, but the setters only compare and store, so every 32-bit argument behaves the same.
- The whole `PropertyChangedEventArgs` object is not modelled. Only the property name it carries is logged.
