# AR marker display controller

A model of the display logic of a small augmented-reality demo. `ARManager`
holds a table of `ComponentData` records (marker id, title, model asset name,
description). When the tracker reports that an image target has been found,
the manager looks the marker's name up case-insensitively. It then activates
the model already parented under the marker's anchor, or loads the asset and
instantiates it there, and shows the record in the singleton `ComponentInfo`
panel. When the target is lost, the manager deactivates that model and hides
the panel, whatever the lookup found.

Modules, one per concept of the source:

- `Text`: `string.ToLower()` and case-insensitive equality.
- `Components`: `ComponentData`, the default table and `List.Find` over it (`Assets/Scripts/AR/ARManager.cs`).
- `Info`: the `ComponentInfo` behaviour and the static `Instance` slot (`Assets/Scripts/AR/Componentinfo.cs`).
- `Scene`: the children of an anchor as `(name, active, transformReset)` records, and `Transform.Find`.
- `Display`: what one found or lost event does to an anchor's children and the panel, as functions of the prior state, with the controller's properties proved about them.
- `ARManagerModel`: the `ARManager` class and the anchor objects. Its methods change the anchor and the panel in place and are proved to follow `Display`.
- `Scenarios`: whole event sequences on freshly built objects.

The engine is abstracted as follows. The asset store is the set of paths
`Resources.Load` can load (`ARManager.resources`), and the source asks for
`"Prefabs/" + prefab`. `ComponentInfo.Instance` is a field of an `InfoSlot`
object that may hold null. The anchor that fired an event is passed to
`OnTargetFound`/`OnTargetLost` directly.

## Model

| member | source | states |
|---|---|---|
| Text.Lower | Assets/Scripts/AR/ARManager.cs:66 | lower-casing keeps the length and lower-cases each character in place |
| Text.LowerEqualIff | Assets/Scripts/AR/ARManager.cs:118 | comparing lower-cased strings is exactly case-insensitive equality, in both directions |
| Components.Find | Assets/Scripts/AR/ARManager.cs:118 | the result is empty exactly when no record's lower-cased id equals the target, and otherwise it is the first record that matches |
| Components.ResolveIsFirstCaseInsensitiveMatch | Assets/Scripts/AR/ARManager.cs:81 | resolving a marker name finds nothing exactly when no id equals the name up to case, and otherwise finds the first record whose id does |
| Components.ResolveIgnoresCase | Assets/Scripts/AR/ARManager.cs:66 | two marker names equal up to case resolve to the same record |
| Components.FindNeedsLowerTarget | Assets/Scripts/AR/ARManager.cs:118 | an id with an upper-case letter matches no record, since stored ids are lower-cased before comparison |
| Components.DefaultLookups | Assets/Scripts/AR/ARManager.cs:95-113 | with the default table, "CPU", "cpu" and "Cpu" give the CPU record, "RAM" and "ram" the RAM record, and "GPU" nothing |
| Scene.FindChild | Assets/Scripts/AR/ARManager.cs:127 | the result is empty exactly when no child has the name, and otherwise it is the index of the first child that has it |
| Scene.CountZeroIffAbsent | Assets/Scripts/AR/ARManager.cs:127 | no child carries the name exactly when the name lookup finds nothing |
| Info.ShownShowsRecord | Assets/Scripts/AR/Componentinfo.cs:18-23 | after ShowInfo the panel is visible, its title is the record's name and its description the record's description |
| Info.ShownForgetsPrevious | Assets/Scripts/AR/Componentinfo.cs:18-23 | the panel after ShowInfo does not depend on what it showed before |
| Info.ShownIdempotent | Assets/Scripts/AR/Componentinfo.cs:18-23 | ShowInfo twice with the same record gives the panel of one call |
| Info.HiddenKeepsText | Assets/Scripts/AR/Componentinfo.cs:25-28 | after HideInfo the panel is hidden and the title and description are unchanged |
| Info.HiddenIdempotent | Assets/Scripts/AR/Componentinfo.cs:25-28 | HideInfo twice gives the panel of one call |
| Info.InfoSlot.constructor | Assets/Scripts/AR/Componentinfo.cs:6 | the singleton slot starts out null |
| Info.ComponentInfo.constructor | Assets/Scripts/AR/Componentinfo.cs:8-10 | a behaviour starts with the panel state and texts the scene gives it |
| Info.ComponentInfo.Awake | Assets/Scripts/AR/Componentinfo.cs:12-16 | the behaviour becomes the singleton and its panel is hidden, texts kept |
| Info.ComponentInfo.ShowInfo | Assets/Scripts/AR/Componentinfo.cs:18-23 | the panel becomes the shown form of the record |
| Info.ComponentInfo.HideInfo | Assets/Scripts/AR/Componentinfo.cs:25-28 | the panel becomes its hidden form |
| Display.UnknownIdChangesNothing | Assets/Scripts/AR/ARManager.cs:118-124 | a target id no record matches leaves children and panel unchanged, for show and for hide |
| Display.ShowExistingActivates | Assets/Scripts/AR/ARManager.cs:127-134 | when a child named after the model exists, show activates that child only, creates none, and shows the record in the panel |
| Display.ShowCreatesOneInstance | Assets/Scripts/AR/ARManager.cs:136-151 | with no such child and the asset present, exactly one active child named after the model with its transform reset is appended, earlier children kept, and the record is shown |
| Display.ShowMissingAssetAborts | Assets/Scripts/AR/ARManager.cs:138-143 | with no such child and no asset, show changes neither the children nor the panel |
| Display.ShowIdempotent | Assets/Scripts/AR/ARManager.cs:127-157 | a second show of the same target changes nothing, so a repeated Found never adds a child |
| Display.ShowNeverDuplicates | Assets/Scripts/AR/ARManager.cs:127-151 | after show, the number of children named after the model is one if there were none and the asset exists, and otherwise unchanged |
| Display.HideRules | Assets/Scripts/AR/ARManager.cs:159-165 | hide keeps the number and names of children and the panel, deactivates the matching child if there is one, and is a no-op otherwise |
| Display.LostAlwaysHidesPanel | Assets/Scripts/AR/ARManager.cs:83-90 | Lost hides the panel whatever the lookup found, and changes children only as hide does (not at all for an unknown marker) |
| Display.FoundThenLost | Assets/Scripts/AR/ARManager.cs:57-91 | Found then Lost on a known marker whose model could be shown leaves its child present and inactive and the panel, if any, hidden |
| ARManagerModel.ARManager.constructor | Assets/Scripts/AR/ARManager.cs:24 | the component list starts empty |
| ARManagerModel.ARManager.LoadDefaultData | Assets/Scripts/AR/ARManager.cs:95-113 | the table becomes exactly the CPU record then the RAM record |
| ARManagerModel.ARManager.ShowComponentForTarget | Assets/Scripts/AR/ARManager.cs:116-166 | the anchor's children and the singleton panel become what one step of the controller gives from their old values; nothing else is modified |
| ARManagerModel.ARManager.OnTargetFound | Assets/Scripts/AR/ARManager.cs:57-70 | the step for show with the anchor's marker name lower-cased |
| ARManagerModel.ARManager.OnTargetLost | Assets/Scripts/AR/ARManager.cs:73-92 | the step for hide with the lower-cased marker name, then the panel hidden |
| Scenarios.CpuFoundThenLost | Assets/Scripts/AR/ARManager.cs:57-92 | on an empty CPU anchor, Found yields one active CPU_Prefab child and the title "Processor (CPU)"; Lost then leaves that child inactive and the panel hidden |
| Scenarios.CpuFoundTwice | Assets/Scripts/AR/ARManager.cs:127-151 | two Found events leave one CPU_Prefab child, and another anchor that got no event is untouched |
| Scenarios.GpuFound | Assets/Scripts/AR/ARManager.cs:118-124 | a marker without a record creates no child and leaves the panel hidden |
| Scenarios.RamWithoutAsset | Assets/Scripts/AR/ARManager.cs:138-143 | with the RAM asset missing, Found on RAM creates nothing and the panel stays hidden |

## Left out

- `Start` (Assets/Scripts/AR/ARManager.cs:26-54): discovers the image targets in the scene and registers the two callbacks. This is engine object discovery and event wiring.
- The reverse lookup of the handler that fired (ARManager.cs lines 61 and 76): engine reflection over persistent listeners. The anchor is a parameter instead. `.First` throws when nothing matches, so the null checks at lines 63 and 78 can never fail and are not modelled.
- `Resources.Load`, `Instantiate` and `SetActive` internals: engine calls. They become a set of loadable paths and operations on child records. An instantiated model is taken to be active, as a prefab saved active is.
- Child identity: children are values in the anchor's list, not objects. Aliasing of a child from elsewhere is not modelled.
- `Transform.Find` path syntax (names containing `/`): the model's lookup is a first-match search over direct children by exact name.
- The local position, rotation and 0.3 scale of a new instance (floating point): one "transform reset" flag stands for them.
- `Debug.Log`, `LogWarning` and `LogError`: logging only.
- `Text` widgets beyond their string contents, and the panel `GameObject` beyond its active flag.
- Text.Lower: models `ToLower` for the ASCII letters A-Z only, because the culture-dependent Unicode case mapping of .NET is not available.
- `Assets/Scripts/AR/SceneLoader.cs`: an empty-name check followed by a call to the engine's scene loader, with no state of its own.
- Uniqueness of record ids: the source does not enforce it, and the model, like `List.Find`, returns the first match.
