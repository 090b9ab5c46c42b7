# DJ venue world tools, modelled in Dafny

This project models the logic inside the Unity editor tools and the two UdonSharp behaviours
of a VRChat "DJ venue" world:

- the runtime light switch (`LightToggleController`);
- the runtime mirror buttons (`MirrorQualityController`);
- the one-shot merge that runs when the editor loads (`AutoMergeOnLoad`), and the same
  merge run from the menu (`MergeSceneAndSetup`);
- the button wiring tool (`SetupInteractiveButtons`);
- the AudioLink and DMX mode switches (`EnableAudioLink`, `SetupDMXMode`);
- the search for the VRChat client path (`FixVRChatPath`).

The open scene is a sequence of game objects. The model takes that order as the order in
which `FindObjectsOfType` reports them and in which `GameObject.Find` searches; Unity promises
neither order (see "## Left out"). An object is referred to by its index, and a nullable
reference is an `Option<nat>`. Every object has:

- a name;
- an optional parent; in a well-formed scene (`WellFormed`) the parent is an earlier object;
- its MonoBehaviour components (`None` for a missing script);
- an optional renderer with its `enabled` flag;
- the `enabled` flags of its `Light` components;
- its number of box colliders.

The editor tools are methods that change a `Scene` object. The two behaviours are classes
whose methods update their fields and the scene. Each method is proved against a function
that states the resulting scene. The lemmas about those functions state what the tools
promise:

- which objects and components change;
- what the reported counts are;
- which operations are idempotent;
- what two toggles do.

Files:

- `unity.dfy`: the scene, generic search, filter and count helpers, and the additive scene merge.
- `text.dfy`: `string.Contains` and substring occurrence.
- `names.dfy`: the name-substring classifiers.
- `light_toggle.dfy`, `mirror_quality.dfy`: the two runtime behaviours.
- `auto_merge.dfy`: the automatic merge, the light fix and the fixtures the merge creates.
- `merge_setup.dfy`: the merge run from the menu.
- `setup_buttons.dfy`: the button wiring tool.
- `audio_link.dfy`, `dmx_mode.dfy`: the AudioLink and DMX modes.
- `vrchat_path.dfy`: the search for the VRChat client path.

Two consequences of the code are proved outright.

- **The toggle button toggles itself.** The merge names the button "LightToggleButton" and its
  label "LightToggleButton_Label". Both names contain "Light", so the button tool puts the
  button and its label among the lights the button switches, and the first press hides the
  button (`InteractiveButtons.ToggleButtonTargetsItself`, `InteractiveButtons.FirstToggleHidesTheButton`).
- **Two toggles need not restore the lights.** Each toggle sets every targeted renderer and
  light to the new flag. Two toggles therefore leave them all at the flag's final value, not
  at the values they had before (`LightToggle.ToggleTwice`). A light that was off before a pair
  of toggles ends on (`LightToggle.TwoTogglesNeedNotRestore`).

## Model

| member | source | states |
|---|---|---|
| Names.WiredLightsAreDiscoverable | Assets/Editor/SetupInteractiveButtons.cs:122-123 | every object the button tool wires as a light is one the light switch would also discover by itself |
| Text.ContainsIsSubstring | Assets/LightToggleController.cs:20 | `Contains` holds exactly when the token occurs at some position of the name |
| Unity.EnableBehavioursOf | Assets/Editor/SetupDMXMode.cs:34-43 | every non-null component of the object ends enabled and nothing else changes; the count is the number of non-null components |
| Unity.Shift | Assets/Editor/AutoMergeOnLoad.cs:64 | an object of a scene loaded after others keeps its name, renderer, lights, colliders and each component's presence, type and flag; every reference it holds (its parent, a mirror controller's mirror, a light controller's targets) moves by the offset, so it still points at the same objects |
| Unity.Append | Assets/Editor/AutoMergeOnLoad.cs:64 | an additive open keeps the open scene as a prefix, appends each of the second scene's objects with its references shifted and everything else kept, and keeps the hierarchy well formed |
| LightToggle.Lit | Assets/LightToggleController.cs:36-54 | every renderer and light in the subtree of every non-null target shows the flag; only those flags change; objects no target reaches are unchanged |
| LightToggle.ToggleTwice | Assets/LightToggleController.cs:32-57 | two toggles leave the scene as if only the second had run |
| LightToggle.TwoTogglesNeedNotRestore | Assets/LightToggleController.cs:32-57 | a light that was off before a pair of toggles (on to off, off to on) ends on, so two toggles need not restore the scene |
| LightToggle.DiscoveryIsExact | Assets/LightToggleController.cs:18-26 | the discovered list holds exactly the objects whose name contains "VRSL", "Light" or "AudioLink", in scan order, each once |
| LightToggle.LightSubtree | Assets/LightToggleController.cs:41-52 | every renderer and light under one target is set to the flag; every other object is unchanged |
| LightToggle.ListedObjectIsSet | Assets/LightToggleController.cs:36-54 | an object that is itself in the target list ends with its renderer and every light at the flag |
| LightToggle.LightToggleController.constructor | Assets/LightToggleController.cs:7-8 | `lightsOn` starts true; the target list is as serialized |
| LightToggle.LightToggleController.Start | Assets/LightToggleController.cs:10-30 | an empty list is replaced by the discovered list; a non-empty one is kept; `lightsOn` is unchanged |
| LightToggle.LightToggleController.ToggleLights | Assets/LightToggleController.cs:32-57 | `lightsOn` is negated once; the scene becomes the one where every target's subtree shows the new flag; the list is unchanged |
| LightToggle.LightToggleController.Interact | Assets/LightToggleController.cs:60-63 | exactly the effect of `ToggleLights` |
| MirrorQuality.MirrorComponentOf | Assets/MirrorQualityController.cs:13-16 | the cached reference is the mirror's first VRCMirrorReflection, or null when it has none |
| MirrorQuality.SetEnabled | Assets/MirrorQualityController.cs:25 | only the referenced component's `enabled` flag changes, to the given value |
| MirrorQuality.EnabledIdempotent | Assets/MirrorQualityController.cs:19-37 | enabling the mirror twice is enabling it once |
| MirrorQuality.ToggledTwice | Assets/MirrorQualityController.cs:39-46 | two `ToggleMirror` calls restore the scene exactly |
| MirrorQuality.ToggleEnablesOnlyWhenOff | Assets/MirrorQualityController.cs:19-46 | a toggle has the effect of the high/low buttons exactly when the mirror was off |
| MirrorQuality.MirrorQualityController.constructor | Assets/MirrorQualityController.cs:7-9 | `mirror` is as serialized and nothing is cached |
| MirrorQuality.MirrorQualityController.Start | Assets/MirrorQualityController.cs:11-17 | `mirror` is unchanged; the component is looked up only when `mirror` is set, otherwise the cache keeps its value |
| MirrorQuality.MirrorQualityController.SetHighQuality | Assets/MirrorQualityController.cs:19-28 | the cached component ends enabled; a null cache changes nothing |
| MirrorQuality.MirrorQualityController.SetLowQuality | Assets/MirrorQualityController.cs:30-37 | the same effect as `SetHighQuality` |
| MirrorQuality.MirrorQualityController.ToggleMirror | Assets/MirrorQualityController.cs:39-46 | the cached component's flag is negated; a null cache changes nothing |
| AutoMerge.DisableAudioLink | Assets/Editor/AutoMergeOnLoad.cs:114-122 | exactly the non-null components whose type name contains "AudioLink" end disabled; the others are unchanged |
| AutoMerge.DisableAudioLinkIdempotent | Assets/Editor/AutoMergeOnLoad.cs:114-122 | a second pass changes nothing |
| AutoMerge.FixedLights | Assets/Editor/AutoMergeOnLoad.cs:109-134 | matched "VRSL"/"AudioLink" objects lose exactly their AudioLink components and every other object keeps its components; renderers of matched objects and their direct children end enabled and renderer presence is kept; every other object is unchanged |
| AutoMerge.FixedLightsIdempotent | Assets/Editor/AutoMergeOnLoad.cs:104-137 | a second light fix changes nothing |
| AutoMerge.FixStopsAtChildren | Assets/Editor/AutoMergeOnLoad.cs:128-132 | a direct child's renderer is enabled, a grandchild's is not |
| AutoMerge.DisableAudioLinkOf | Assets/Editor/AutoMergeOnLoad.cs:114-122 | one object's AudioLink components are disabled, and the count is how many there were |
| AutoMerge.ShowChildRenderers | Assets/Editor/AutoMergeOnLoad.cs:128-132 | the renderers of the direct children end enabled, nothing else changes |
| AutoMerge.FixVRSLLights | Assets/Editor/AutoMergeOnLoad.cs:104-137 | the scene becomes the fixed scene; `fixedCount` is the number of AudioLink components on matched objects |
| AutoMerge.FixStep | Assets/Editor/AutoMergeOnLoad.cs:109-133 | one turn of the scan: the fix is extended to object i, and the count is its AudioLink components when it matches, 0 otherwise |
| AutoMerge.ButtonObjects | Assets/Editor/AutoMergeOnLoad.cs:170-203 | a button is a cube named as asked, parented only when a parent is given, with a `name + "_Label"` child |
| AutoMerge.MirrorFixtures | Assets/Editor/AutoMergeOnLoad.cs:139-162 | "Mirror", then "MirrorControls" with the two quality buttons under it; the mirror holds a VRCMirrorReflection exactly when the SDK type resolves |
| AutoMerge.ToggleFixtures | Assets/Editor/AutoMergeOnLoad.cs:164-168 | one unparented "LightToggleButton" with its "LightToggleButton_Label" child |
| AutoMerge.CreateButton | Assets/Editor/AutoMergeOnLoad.cs:170-203 | appends the button and its label and returns the button |
| AutoMerge.AddMirrorSystem | Assets/Editor/AutoMergeOnLoad.cs:139-162 | appends the mirror fixtures |
| AutoMerge.AddLightToggle | Assets/Editor/AutoMergeOnLoad.cs:164-168 | appends the toggle button |
| AutoMerge.Opened | Assets/Editor/AutoMergeOnLoad.cs:58-66 | tes1 is the base; DJ_V_S is merged after it only when its file exists, each of its objects shifted past tes1's |
| AutoMerge.MergedWellFormed | Assets/Editor/AutoMergeOnLoad.cs:58-75 | the merged scene's hierarchy is well formed when both scene files are |
| AutoMerge.MergedAddsOneOfEach | Assets/Editor/AutoMergeOnLoad.cs:69-75 | a merge adds exactly one "Mirror", one "MirrorControls" and one "LightToggleButton" |
| AutoMerge.RunSteps | Assets/Editor/AutoMergeOnLoad.cs:55-96 | the steps run in order; a throwing step leaves the scene as that step found it; otherwise the scene is the merged scene |
| AutoMerge.BuildSteps | Assets/Editor/AutoMergeOnLoad.cs:68-75 | the light fix, mirror and toggle steps in order; a throwing step leaves the scene as the earlier steps made it; otherwise the scene is the merged scene |
| AutoMerge.ExecuteMerge | Assets/Editor/AutoMergeOnLoad.cs:24-102 | a missing tes1 aborts first; cancel changes no scene; the flag is set on cancel and on success, never on a missing tes1 or a failure |
| AutoMerge.LoadEditor | Assets/Editor/AutoMergeOnLoad.cs:11-22 | with the flag set nothing runs; otherwise one merge runs and the flag afterwards says whether it was cancelled or completed |
| MergeSetup.MergeAndSetup | Assets/Editor/MergeSceneAndSetup.cs:10-61 | cancel comes first and changes nothing; a missing tes1 changes nothing; otherwise the scene is the merged scene |
| MergeSetup.SecondRunDuplicatesFixtures | Assets/Editor/MergeSceneAndSetup.cs:107-145 | running again on the saved scene adds a second mirror, second controls and second toggle button |
| InteractiveButtons.WithCollider | Assets/Editor/SetupInteractiveButtons.cs:73-77 | the button ends with a box collider; one already present means no change |
| InteractiveButtons.GetOrAdd | Assets/Editor/SetupInteractiveButtons.cs:80-84 | an existing component is reused, otherwise one is appended; the returned slot is the first match afterwards |
| InteractiveButtons.SetUdonText | Assets/Editor/SetupInteractiveButtons.cs:148-155 | the first UdonBehaviour's interact text becomes the given text; without one nothing changes |
| InteractiveButtons.AddMirrorController | Assets/Editor/SetupInteractiveButtons.cs:80-92 | an existing controller is reused in its own slot with its `enabled` flag; otherwise an enabled one is appended, holding the mirror or null; `mirror` is assigned only when the mirror exists; other slots are unchanged |
| InteractiveButtons.AddLightController | Assets/Editor/SetupInteractiveButtons.cs:110-137 | an existing controller is reused in its own slot with its `enabled` flag, otherwise an enabled one is appended; its target list becomes the light list; other slots are unchanged |
| InteractiveButtons.WireMirrorButton | Assets/Editor/SetupInteractiveButtons.cs:70-98 | only the button's colliders and components change |
| InteractiveButtons.WireLightButton | Assets/Editor/SetupInteractiveButtons.cs:100-143 | only the button's colliders and components change |
| InteractiveButtons.MirrorButtonWired | Assets/Editor/SetupInteractiveButtons.cs:70-98 | afterwards the button has a collider and a controller; `mirror` is the found mirror or, when none was found, keeps its value; an UdonBehaviour gets "Click to " + the method name |
| InteractiveButtons.LightButtonWired | Assets/Editor/SetupInteractiveButtons.cs:100-143 | afterwards the button has a collider and a controller targeting exactly the light list; an UdonBehaviour gets "Click to ToggleLights" |
| InteractiveButtons.WireMirrorButtonIdempotent | Assets/Editor/SetupInteractiveButtons.cs:73-92 | re-wiring adds no second collider or controller and changes nothing |
| InteractiveButtons.WireLightButtonIdempotent | Assets/Editor/SetupInteractiveButtons.cs:103-137 | re-wiring adds no second collider or controller and changes nothing |
| InteractiveButtons.SetupAll | Assets/Editor/SetupInteractiveButtons.cs:24-56 | only colliders and components of objects change |
| InteractiveButtons.WireMirrorAt | Assets/Editor/SetupInteractiveButtons.cs:38-49 | only the found mirror button changes; every other object is unchanged |
| InteractiveButtons.WireLightAt | Assets/Editor/SetupInteractiveButtons.cs:52-56 | only the found toggle button changes; every other object is unchanged |
| InteractiveButtons.ButtonsFound | Assets/Editor/SetupInteractiveButtons.cs:24-56 | `setupCount` is at most 3; it is 0 exactly when no button exists and 3 exactly when all three do |
| InteractiveButtons.SetupAllWiresEachButton | Assets/Editor/SetupInteractiveButtons.cs:37-56 | the high, low and toggle buttons are wired with "SetHighQuality", "SetLowQuality" and the light list |
| InteractiveButtons.SetupAllLeavesTheRest | Assets/Editor/SetupInteractiveButtons.cs:24-56 | every object other than the three buttons is unchanged |
| InteractiveButtons.SetupAllIdempotent | Assets/Editor/SetupInteractiveButtons.cs:11-68 | running the tool twice is running it once |
| InteractiveButtons.HighButtonStable | Assets/Editor/SetupInteractiveButtons.cs:38-42 | a second run leaves the high-quality button as the first run wired it |
| InteractiveButtons.LowButtonStable | Assets/Editor/SetupInteractiveButtons.cs:45-49 | a second run leaves the low-quality button as the first run wired it |
| InteractiveButtons.ToggleButtonStable | Assets/Editor/SetupInteractiveButtons.cs:52-56 | a second run leaves the toggle button as the first run wired it, with the same light list |
| InteractiveButtons.OthersStable | Assets/Editor/SetupInteractiveButtons.cs:24-56 | a second run leaves every object other than the three buttons alone |
| InteractiveButtons.ToggleButtonLightList | Assets/Editor/SetupInteractiveButtons.cs:117-137 | the toggle button's controller targets exactly the wired lights of the scene, in scan order |
| InteractiveButtons.LabelNameHasLight | Assets/Editor/AutoMergeOnLoad.cs:190 | the label the merge creates under the toggle button, "LightToggleButton_Label", contains "Light" |
| InteractiveButtons.ToggleButtonTargetsItself | Assets/Editor/SetupInteractiveButtons.cs:120-127 | the toggle button and every object whose name contains "Light" are in the button's own target list |
| InteractiveButtons.FirstToggleHidesTheButton | Assets/Editor/SetupInteractiveButtons.cs:120-140 | the first press switches off the renderer of every "Light" object, and by name of the button itself and of every "LightToggleButton_Label" |
| InteractiveButtons.CollectLights | Assets/Editor/SetupInteractiveButtons.cs:117-127 | the list holds exactly the "VRSL" or "Light" objects and the "AudioLink" objects with a renderer, in scan order |
| InteractiveButtons.AssignLights | Assets/Editor/SetupInteractiveButtons.cs:130-137 | the array has the list's length and element i refers to the list's element i |
| InteractiveButtons.SetupUdonInteract | Assets/Editor/SetupInteractiveButtons.cs:145-158 | only the object's interact text changes, and only when it has an UdonBehaviour |
| InteractiveButtons.SetupMirrorButton | Assets/Editor/SetupInteractiveButtons.cs:70-98 | only the button changes, into the wired mirror button |
| InteractiveButtons.SetupLightToggleButton | Assets/Editor/SetupInteractiveButtons.cs:100-143 | only the button changes, into the wired toggle button; the count is the light list's length |
| InteractiveButtons.SetupMirrorButtonAt | Assets/Editor/SetupInteractiveButtons.cs:38-49 | a found button is wired and counted as 1; a missing one changes nothing and counts 0 |
| InteractiveButtons.SetupMirrorButtons | Assets/Editor/SetupInteractiveButtons.cs:26-49 | both mirror buttons are wired against the found mirror; the count is the number of mirror buttons found |
| InteractiveButtons.SetupToggleButtonAt | Assets/Editor/SetupInteractiveButtons.cs:52-56 | a found toggle button is wired and counted as 1; a missing one changes nothing and counts 0 |
| InteractiveButtons.SetupButtons | Assets/Editor/SetupInteractiveButtons.cs:11-68 | cancel changes nothing; otherwise every found button is wired and `setupCount` is the number found |
| AudioLinkMode.ReachedByIsUnderMatch | Assets/Editor/EnableAudioLink.cs:27-58 | the sweep reaches exactly the objects in the subtree of some "VRSL"/"AudioLink" object |
| AudioLinkMode.MatchedIsReached | Assets/Editor/EnableAudioLink.cs:27-31 | every "VRSL"/"AudioLink" object is itself reached by the sweep |
| AudioLinkMode.Reactivated | Assets/Editor/EnableAudioLink.cs:27-58 | every object in a matched subtree keeps its components with each non-null one enabled, and keeps its renderer, enabled; name, parent, lights and colliders never change; unreached objects are unchanged |
| AudioLinkMode.ReactivatedIdempotent | Assets/Editor/EnableAudioLink.cs:27-58 | a second sweep changes nothing |
| AudioLinkMode.SweepUndoesLightFix | Assets/Editor/EnableAudioLink.cs:32-50 | after the light fix and this sweep, every component of a matched object is enabled, as if the fix had not run |
| AudioLinkMode.Instantiate | Assets/Editor/EnableAudioLink.cs:73-74 | the prefab's objects are appended with their references shifted; the root stays at the scene root and differs only in its name, "AudioLink", so "AudioLink" is then found there; the hierarchy stays well formed |
| AudioLinkMode.WithAudioLink | Assets/Editor/EnableAudioLink.cs:62-86 | an existing "AudioLink" object is never duplicated; otherwise the first search result is instantiated when there is one; "AudioLink" exists afterwards exactly when it did before or a prefab loaded |
| AudioLinkMode.EnableSubtreeBehaviours | Assets/Editor/EnableAudioLink.cs:43-50 | every non-null component in the subtree ends enabled; nothing else changes |
| AudioLinkMode.ShowSubtreeRenderers | Assets/Editor/EnableAudioLink.cs:53-57 | every renderer in the subtree ends enabled; nothing else changes |
| AudioLinkMode.ReactivateObject | Assets/Editor/EnableAudioLink.cs:32-57 | the three passes over one matched object; the count is its own non-null components only |
| AudioLinkMode.SweepStep | Assets/Editor/EnableAudioLink.cs:27-58 | one turn of the scan: the sweep is extended to object i, and the count is its own components when it matches, 0 otherwise |
| AudioLinkMode.EnableAudioLinkMode | Assets/Editor/EnableAudioLink.cs:8-112 | on a well-formed scene: cancel changes nothing; otherwise the swept scene with AudioLink added if absent; `lightsEnabled` counts the matched objects' own components; the report says whether AudioLink is present; the scene stays well formed |
| DmxMode.Configured | Assets/Editor/SetupDMXMode.cs:29-44 | each "VRSL" object's own non-null components end enabled; children and all other objects are unchanged |
| DmxMode.ConfiguredIdempotent | Assets/Editor/SetupDMXMode.cs:29-44 | a second sweep changes nothing |
| DmxMode.SweepUndoesLightFix | Assets/Editor/SetupDMXMode.cs:33-43 | after the light fix and this sweep, every component of a "VRSL" object is enabled |
| DmxMode.AudioLinkObjectsAreNotSwept | Assets/Editor/SetupDMXMode.cs:31 | an "AudioLink" object, which the other sweeps match, keeps a disabled component disabled here |
| DmxMode.VideoPlayerFixtures | Assets/Editor/SetupDMXMode.cs:71-100 | an unparented "DMX_VideoPlayer" and an unparented "DMX_GridDisplay" with a renderer |
| DmxMode.GridNodeFixtures | Assets/Editor/SetupDMXMode.cs:102-121 | an unparented "DMX_Setup_Instructions" and its "InstructionsText" child |
| DmxMode.DmxFixtures | Assets/Editor/SetupDMXMode.cs:71-121 | "DMX_VideoPlayer", "DMX_GridDisplay" with a renderer, "DMX_Setup_Instructions" and its "InstructionsText" child, every parent earlier |
| DmxMode.AddDMXVideoPlayer | Assets/Editor/SetupDMXMode.cs:71-100 | appends the video player and the display quad |
| DmxMode.AddGridNodeSetup | Assets/Editor/SetupDMXMode.cs:102-121 | appends the instruction object and its text child, parented to the instruction object |
| DmxMode.ConfigureStep | Assets/Editor/SetupDMXMode.cs:29-43 | one turn of the scan: a "VRSL" object's components are enabled and counted; any other object is left and counts 0 |
| DmxMode.ConfigureLights | Assets/Editor/SetupDMXMode.cs:29-44 | the scene becomes the swept scene; the count is the non-null components of the "VRSL" objects |
| DmxMode.SetupDMX | Assets/Editor/SetupDMXMode.cs:8-69 | cancel changes nothing; otherwise the swept scene plus exactly the four DMX objects; `lightsConfigured` counts components, not objects; a well-formed hierarchy stays well formed; any scene is accepted |
| VRChatPath.Candidates | Assets/Editor/FixVRChatPath.cs:10-20 | the primary path first, then the three fallbacks in order |
| VRChatPath.ClientPath | Assets/Editor/FixVRChatPath.cs:10-30 | a chosen path exists and is a candidate; nothing is chosen exactly when no candidate exists |
| VRChatPath.ClientPathIsFirstCandidate | Assets/Editor/FixVRChatPath.cs:10-29 | the chosen path is the first existing candidate in order, the primary one winning whenever it exists |
| VRChatPath.SearchPath | Assets/Editor/FixVRChatPath.cs:10-30 | the loop ends on the chosen path, or on the primary path when none exists |
| VRChatPath.FixPath | Assets/Editor/FixVRChatPath.cs:8-60 | the preference is written exactly when a path exists, with that path; the merge flag is untouched |

The helpers `FixVRSLLights`, `AddMirrorSystem`, `AddLightToggle` and `CreateButton` in
Assets/Editor/MergeSceneAndSetup.cs (lines 63-182) behave exactly like those in
Assets/Editor/AutoMergeOnLoad.cs, so the `AutoMerge` members above model both copies.

## Left out

- Dialogs, `Debug.Log` messages and the text they show are left out. A dialog's answer is a `confirmed` parameter.
- Saving is not modelled as a file write. The scene that `SaveOpenScenes` writes appears only in `MergeSetup.SecondRunDuplicatesFixtures`, where tes1 is the only open scene.
- The file system is an input: a map from the scene paths that exist to their objects, and a set of the client paths that exist. It does not change between two checks.
- `FindObjectsOfType`, `GameObject.Find` and `GetComponentsInChildren` skip inactive objects; the model treats every object as active.
- Scan order is assumed, not given: Unity leaves the order of `FindObjectsOfType` unspecified. The model scans objects by index and assumes a parent comes before its children (`WellFormed`). `Unity.IsDescendant` and `AudioLinkMode.ReachedBy` match `GetComponentsInChildren` only on such scenes, so `LightToggle.LightToggleController.ToggleLights` and `AudioLinkMode.EnableAudioLinkMode` require a well-formed scene. A child listed before its parent is not modelled.
- Duplicate names: Unity does not say which object `GameObject.Find` returns when several share a name. The model takes the one with the lowest index (`Unity.Find`).
- An object has at most one renderer. A quad's MeshCollider and the VideoPlayer component are not modelled, because no tool reads them.
- Positions, rotations, scales, colours, materials, shaders, the `TextMesh` settings and the render texture are left out. They are constants with no logic.
- `System.Type.GetType` for the mirror type is the `mirrorTypeFound` input. The AssetDatabase search, GUID lookup and prefab load are the `prefabResults` input: one entry per search result, `None` when that asset does not load.
- `AutoMerge.RunSteps`: an exception is modelled as thrown at the start of a step, before the step changes anything. A step that throws partway through is not modelled.
- `MergeSetup.MergeAndSetup`: the menu command has no handler, so an exception would escape the command. Such exceptions are not modelled.
- A null `lightsToToggle` array is the empty list.
- Udon event dispatch behind `Interact` is a plain method call. The UdonBehaviour that backs a U# behaviour is a component of its own, present only when the scene already has it.
- `InteractiveButtons.AssignLights` states the array after the resize and the loop. Unity's padding of a grown array is not modelled, because the loop overwrites every element.
- Assets/Editor/DJVenueAutoSetup.cs and Assets/Editor/PrepareForUpload.cs are not part of this model. They place imported models at fixed transforms and configure SDK objects that are not visible here.
