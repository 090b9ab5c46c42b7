/**
 * The one-shot editor merge `AutoMergeOnLoad`: on editor load, unless the run-once flag is
 * set, open tes1, merge DJ_V_S into it when present, switch AudioLink off on the lights, add
 * a mirror with two quality buttons and a light toggle button, save, and set the flag.
 *
 * The light fix and the fixture builders are shared with the menu command in `MergeSetup`.
 */
module AutoMerge {
  import opened Unity
  import opened Names
  import opened Text

  const Tes1Path: string := "Assets/tes1.unity"
  const DjvsPath: string := "Assets/DJ_V_S.unity"

  // ---------------------------------------------------------------- the light fix

  /** Every AudioLink-typed component of the list switched off; the others untouched. */
  function DisableAudioLink(bs: seq<Option<Behaviour>>): (r: seq<Option<Behaviour>>)
    ensures |r| == |bs|
    ensures forall k :: 0 <= k < |bs| && IsAudioLinkBehaviour(bs[k]) ==>
      r[k].Some? && !r[k].value.enabled && r[k].value.kind == bs[k].value.kind
    ensures forall k :: 0 <= k < |bs| && !IsAudioLinkBehaviour(bs[k]) ==> r[k] == bs[k]
  {
    seq(|bs|, k requires 0 <= k < |bs| =>
      if IsAudioLinkBehaviour(bs[k]) then Some(bs[k].value.(enabled := false)) else bs[k])
  }

  lemma DisableAudioLinkIdempotent(bs: seq<Option<Behaviour>>)
    ensures DisableAudioLink(DisableAudioLink(bs)) == DisableAudioLink(bs)
  {
    var once := DisableAudioLink(bs);
    forall k | 0 <= k < |bs|
      ensures DisableAudioLink(once)[k] == once[k]
    {
      if IsAudioLinkBehaviour(bs[k]) {
        assert TypeName(once[k].value.kind) == TypeName(bs[k].value.kind);
      }
    }
  }

  /** Object `x` is a direct child of an object the fix matches. */
  predicate ChildOfMatch(objs: seq<GameObject>, x: nat)
    requires x < |objs|
  {
    objs[x].parent.Some? && objs[x].parent.value < |objs| && IsVrslOrAudioLink(objs[objs[x].parent.value])
  }

  /** Object `x` once the fix has visited the first `n` objects of the scan. */
  function FixedUpTo(objs: seq<GameObject>, n: nat, x: nat): GameObject
    requires n <= |objs| && x < |objs|
  {
    var o := objs[x];
    var own := x < n && IsVrslOrAudioLink(o);
    var viaParent := o.parent.Some? && o.parent.value < n && IsVrslOrAudioLink(objs[o.parent.value]);
    o.(behaviours := if own then DisableAudioLink(o.behaviours) else o.behaviours,
       renderer := if (own || viaParent) && o.renderer.Some? then Some(true) else o.renderer)
  }

  /** The scene after the light fix. */
  function FixedLights(objs: seq<GameObject>): (r: seq<GameObject>)
    ensures SameShape(objs, r)
    ensures forall x :: 0 <= x < |objs| ==>
      r[x] == objs[x].(behaviours := r[x].behaviours, renderer := r[x].renderer) &&
      r[x].renderer.Some? == objs[x].renderer.Some?
    ensures forall x :: 0 <= x < |objs| && IsVrslOrAudioLink(objs[x]) ==>
      r[x].behaviours == DisableAudioLink(objs[x].behaviours)
    ensures forall x :: 0 <= x < |objs| && !IsVrslOrAudioLink(objs[x]) ==> r[x].behaviours == objs[x].behaviours
    ensures forall x :: 0 <= x < |objs| && (IsVrslOrAudioLink(objs[x]) || ChildOfMatch(objs, x)) ==>
      r[x].renderer.Some? ==> r[x].renderer.value
    ensures forall x :: 0 <= x < |objs| && !IsVrslOrAudioLink(objs[x]) && !ChildOfMatch(objs, x) ==>
      r[x] == objs[x]
  {
    seq(|objs|, x requires 0 <= x < |objs| => FixedUpTo(objs, |objs|, x))
  }

  /** The number of components the fix reports: the AudioLink-typed ones on matched objects. */
  function FixCountOf(o: GameObject): nat {
    if IsVrslOrAudioLink(o) then Count(o.behaviours, IsAudioLinkBehaviour) else 0
  }

  function FixCount(objs: seq<GameObject>): nat {
    Sum(objs, FixCountOf)
  }

  /** A second fix changes nothing. */
  lemma FixedLightsIdempotent(objs: seq<GameObject>)
    ensures FixedLights(FixedLights(objs)) == FixedLights(objs)
  {
    var once := FixedLights(objs);
    forall x | 0 <= x < |objs|
      ensures FixedLights(once)[x] == once[x]
    {
      assert IsVrslOrAudioLink(once[x]) == IsVrslOrAudioLink(objs[x]);
      assert ChildOfMatch(once, x) == ChildOfMatch(objs, x);
      if IsVrslOrAudioLink(objs[x]) {
        DisableAudioLinkIdempotent(objs[x].behaviours);
      }
    }
  }

  /** The fix reaches a matched object's children but not its grandchildren. */
  lemma FixStopsAtChildren()
    ensures var objs := [GameObject("VRSL_Rig", None, [], Some(false), [], 0),
                         GameObject("Arm", Some(0), [], Some(false), [], 0),
                         GameObject("Cap", Some(1), [], Some(false), [], 0)];
      FixedLights(objs)[1].renderer == Some(true) && FixedLights(objs)[2].renderer == Some(false)
  {
    var objs := [GameObject("VRSL_Rig", None, [], Some(false), [], 0),
                 GameObject("Arm", Some(0), [], Some(false), [], 0),
                 GameObject("Cap", Some(1), [], Some(false), [], 0)];
    assert Contains(objs[0].name, "VRSL") by { assert objs[0].name[..4] == "VRSL"; }
    assert ChildOfMatch(objs, 1);
    ShorterLacks("Arm", "VRSL");
    ShorterLacks("Arm", "AudioLink");
    ShorterLacks("Cap", "VRSL");
    ShorterLacks("Cap", "AudioLink");
  }

  /** Switches every AudioLink-typed component of object `x` off and returns how many. */
  method DisableAudioLinkOf(scene: Scene, x: nat) returns (count: nat)
    requires x < |scene.objects|
    modifies scene
    ensures scene.objects == old(scene.objects)[x := old(scene.objects)[x].(behaviours := DisableAudioLink(old(scene.objects)[x].behaviours))]
    ensures count == Count(old(scene.objects)[x].behaviours, IsAudioLinkBehaviour)
  {
    var bs := scene.objects[x].behaviours;
    var current := bs;
    count := 0;
    for k := 0 to |bs|
      invariant |current| == |bs|
      invariant forall j :: 0 <= j < |bs| ==> current[j] == if j < k then DisableAudioLink(bs)[j] else bs[j]
      invariant count == Count(bs[..k], IsAudioLinkBehaviour)
    {
      assert bs[..k + 1][..k] == bs[..k];
      if IsAudioLinkBehaviour(current[k]) {
        current := current[k := Some(current[k].value.(enabled := false))];
        count := count + 1;
      }
    }
    assert bs[..|bs|] == bs;
    assert current == DisableAudioLink(bs);
    scene.objects := scene.objects[x := scene.objects[x].(behaviours := current)];
  }

  /** `foreach (Transform child in obj.transform)`: shows the renderer of every direct child of `p`. */
  method ShowChildRenderers(scene: Scene, p: nat)
    modifies scene
    ensures |scene.objects| == |old(scene.objects)|
    ensures forall x :: 0 <= x < |scene.objects| ==>
      scene.objects[x] == if old(scene.objects)[x].parent == Some(p) then ShowRenderer(old(scene.objects)[x]) else old(scene.objects)[x]
  {
    var objs := scene.objects;
    for c := 0 to |objs|
      invariant |scene.objects| == |objs|
      invariant forall x :: 0 <= x < |objs| ==>
        scene.objects[x] == if x < c && objs[x].parent == Some(p) then ShowRenderer(objs[x]) else objs[x]
    {
      if objs[c].parent == Some(p) {
        scene.objects := scene.objects[c := ShowRenderer(scene.objects[c])];
      }
    }
  }

  /** One step of the fix: the `i`th object of the scan, when it matches. */
  method FixStep(scene: Scene, objs: seq<GameObject>, i: nat) returns (disabled: nat)
    requires i < |objs| && |scene.objects| == |objs|
    requires forall x :: 0 <= x < |objs| ==> scene.objects[x] == FixedUpTo(objs, i, x)
    modifies scene
    ensures |scene.objects| == |objs|
    ensures forall x :: 0 <= x < |objs| ==> scene.objects[x] == FixedUpTo(objs, i + 1, x)
    ensures disabled == FixCountOf(objs[i])
  {
    disabled := 0;
    if IsVrslOrAudioLink(objs[i]) {
      disabled := DisableAudioLinkOf(scene, i);
      scene.objects := scene.objects[i := ShowRenderer(scene.objects[i])];
      ghost var before := scene.objects;
      ShowChildRenderers(scene, i);
      forall x | 0 <= x < |objs|
        ensures scene.objects[x] == FixedUpTo(objs, i + 1, x)
      {
        assert before[x].parent == objs[x].parent;
      }
    } else {
      forall x | 0 <= x < |objs|
        ensures scene.objects[x] == FixedUpTo(objs, i + 1, x)
      {
      }
    }
  }

  /** Disables AudioLink on every "VRSL"/"AudioLink" object and shows it and its children. */
  method FixVRSLLights(scene: Scene) returns (fixedCount: nat)
    modifies scene
    ensures scene.objects == FixedLights(old(scene.objects))
    ensures fixedCount == FixCount(old(scene.objects))
  {
    var objs := scene.objects;
    fixedCount := 0;
    for i := 0 to |objs|
      invariant |scene.objects| == |objs|
      invariant forall x :: 0 <= x < |objs| ==> scene.objects[x] == FixedUpTo(objs, i, x)
      invariant fixedCount == FixCount(objs[..i])
    {
      assert objs[..i + 1][..i] == objs[..i];
      var disabled := FixStep(scene, objs, i);
      fixedCount := fixedCount + disabled;
    }
    assert objs[..|objs|] == objs;
  }

  // ---------------------------------------------------------------- the fixtures

  /**
   * `CreateButton(name, …, parent, …)` on a scene of `at` objects: a cube named `name`,
   * parented to `parent` when that is not null, and its 3D-text label `name + "_Label"`
   * parented to the cube.
   */
  function ButtonObjects(name: string, parent: Option<nat>, at: nat): (r: seq<GameObject>)
    ensures |r| == 2 && r[0].name == name && r[0].parent == parent
    ensures r[1].name == name + "_Label" && r[1].parent == Some(at)
    ensures r[0].boxColliders == 1 && r[0].renderer == Some(true)
  {
    [Cube(name, parent), Rendered(name + "_Label", Some(at))]
  }

  /** The mirror quad (with a VRCMirrorReflection when the SDK type resolves), its controls and two buttons. */
  function MirrorFixtures(n: nat, mirrorTypeFound: bool): (r: seq<GameObject>)
    ensures |r| == 6
    ensures forall k :: 0 <= k < |r| && r[k].parent.Some? ==> n <= r[k].parent.value < n + k
    ensures r[0].name == "Mirror" && r[1].name == "MirrorControls"
    ensures r[2].name == "HighQualityButton" && r[4].name == "LowQualityButton"
    ensures r[2].parent == Some(n + 1) && r[4].parent == Some(n + 1)
    ensures mirrorTypeFound <==> exists k :: 0 <= k < |r[0].behaviours| && r[0].behaviours[k] == Some(Behaviour(MirrorReflection, true))
  {
    var mirror := GameObject("Mirror", None, if mirrorTypeFound then [Some(Behaviour(MirrorReflection, true))] else [], Some(true), [], 0);
    assert mirrorTypeFound ==> mirror.behaviours[0] == Some(Behaviour(MirrorReflection, true));
    [mirror, Bare("MirrorControls", None),
     Cube("HighQualityButton", Some(n + 1)), Rendered("HighQualityButton" + "_Label", Some(n + 2)),
     Cube("LowQualityButton", Some(n + 1)), Rendered("LowQualityButton" + "_Label", Some(n + 4))]
  }

  /** The free-standing light toggle button and its label. */
  function ToggleFixtures(n: nat): (r: seq<GameObject>)
    ensures |r| == 2 && r[0].name == "LightToggleButton" && r[0].parent.None?
    ensures r[1].name == "LightToggleButton_Label" && r[1].parent == Some(n)
  {
    ButtonObjects("LightToggleButton", None, n)
  }

  /** Appending objects that refer only to earlier ones keeps the hierarchy well formed. */
  lemma {:induction false} AddKeepsWellFormed(objs: seq<GameObject>, added: seq<GameObject>)
    requires WellFormed(objs)
    requires forall k :: 0 <= k < |added| && added[k].parent.Some? ==> added[k].parent.value < |objs| + k
    ensures WellFormed(objs + added)
  {
    forall x | 0 <= x < |objs + added| && (objs + added)[x].parent.Some?
      ensures (objs + added)[x].parent.value < x
    {
      if x >= |objs| {
        assert (objs + added)[x] == added[x - |objs|];
      }
    }
  }

  method CreateButton(scene: Scene, name: string, parent: Option<nat>) returns (button: nat)
    modifies scene
    ensures button == |old(scene.objects)|
    ensures scene.objects == old(scene.objects) + ButtonObjects(name, parent, button)
  {
    button := |scene.objects|;
    scene.objects := scene.objects + [Cube(name, parent)];
    scene.objects := scene.objects + [Rendered(name + "_Label", Some(button))];
  }

  method AddMirrorSystem(scene: Scene, mirrorTypeFound: bool)
    modifies scene
    ensures scene.objects == old(scene.objects) + MirrorFixtures(|old(scene.objects)|, mirrorTypeFound)
  {
    var n := |scene.objects|;
    var mirror := GameObject("Mirror", None, [], Some(true), [], 0);
    if mirrorTypeFound {
      mirror := mirror.(behaviours := mirror.behaviours + [Some(Behaviour(MirrorReflection, true))]);
    }
    assert mirror == MirrorFixtures(n, mirrorTypeFound)[0];
    scene.objects := scene.objects + [mirror];
    scene.objects := scene.objects + [Bare("MirrorControls", None)];
    var high := CreateButton(scene, "HighQualityButton", Some(n + 1));
    var low := CreateButton(scene, "LowQualityButton", Some(n + 1));
    assert MirrorFixtures(n, mirrorTypeFound) ==
      [mirror, Bare("MirrorControls", None)] + ButtonObjects("HighQualityButton", Some(n + 1), n + 2) +
      ButtonObjects("LowQualityButton", Some(n + 1), n + 4);
  }

  method AddLightToggle(scene: Scene)
    modifies scene
    ensures scene.objects == old(scene.objects) + ToggleFixtures(|old(scene.objects)|)
  {
    var button := CreateButton(scene, "LightToggleButton", None);
  }

  // ---------------------------------------------------------------- the merge

  /** tes1 opened alone, then DJ_V_S merged in additively when its file exists. */
  function Opened(files: map<string, seq<GameObject>>): (r: seq<GameObject>)
    requires Tes1Path in files
    ensures |files[Tes1Path]| <= |r| && r[..|files[Tes1Path]|] == files[Tes1Path]
    ensures DjvsPath !in files ==> r == files[Tes1Path]
    ensures DjvsPath in files ==> |r| == |files[Tes1Path]| + |files[DjvsPath]|
    ensures DjvsPath in files ==> forall k :: 0 <= k < |files[DjvsPath]| ==>
      r[|files[Tes1Path]| + k] == Shift(files[DjvsPath][k], |files[Tes1Path]|)
  {
    if DjvsPath in files then Append(files[Tes1Path], files[DjvsPath]) else files[Tes1Path]
  }

  /** The merged scene after the light fix and both sets of fixtures. */
  function Merged(files: map<string, seq<GameObject>>, mirrorTypeFound: bool): seq<GameObject>
    requires Tes1Path in files
  {
    var fixed := FixedLights(Opened(files));
    var withMirror := fixed + MirrorFixtures(|fixed|, mirrorTypeFound);
    withMirror + ToggleFixtures(|withMirror|)
  }

  /** When both scene files are well formed, so is the merged scene. */
  lemma MergedWellFormed(files: map<string, seq<GameObject>>, mirrorTypeFound: bool)
    requires Tes1Path in files && WellFormed(files[Tes1Path])
    requires DjvsPath in files ==> WellFormed(files[DjvsPath])
    ensures WellFormed(Merged(files, mirrorTypeFound))
  {
    var start := Opened(files);
    var fixed := FixedLights(start);
    assert WellFormed(fixed) by {
      forall x | 0 <= x < |fixed| && fixed[x].parent.Some? ensures fixed[x].parent.value < x {
        assert fixed[x].parent == start[x].parent;
      }
    }
    var withMirror := fixed + MirrorFixtures(|fixed|, mirrorTypeFound);
    AddKeepsWellFormed(fixed, MirrorFixtures(|fixed|, mirrorTypeFound));
    AddKeepsWellFormed(withMirror, ToggleFixtures(|withMirror|));
  }

  /** The names the fixtures carry: one mirror, one set of controls, one toggle button. */
  lemma FixtureNames(n: nat, mirrorTypeFound: bool, m: nat)
    ensures var mirror, toggle := MirrorFixtures(n, mirrorTypeFound), ToggleFixtures(m);
      CountNamed(mirror, "Mirror") == 1 && CountNamed(mirror, "MirrorControls") == 1 &&
      CountNamed(mirror, "LightToggleButton") == 0 &&
      CountNamed(toggle, "Mirror") == 0 && CountNamed(toggle, "MirrorControls") == 0 &&
      CountNamed(toggle, "LightToggleButton") == 1
  {
    var mirror, toggle := MirrorFixtures(n, mirrorTypeFound), ToggleFixtures(m);
    forall name | name in {"Mirror", "MirrorControls", "LightToggleButton"}
      ensures CountNamed(mirror, name) == (if name == "Mirror" || name == "MirrorControls" then 1 else 0)
      ensures CountNamed(toggle, name) == (if name == "LightToggleButton" then 1 else 0)
    {
      var named := (o: GameObject) => o.name == name;
      assert mirror == [mirror[0], mirror[1]] + [mirror[2], mirror[3]] + [mirror[4], mirror[5]];
      CountAppend([mirror[0], mirror[1]] + [mirror[2], mirror[3]], [mirror[4], mirror[5]], named);
      CountAppend([mirror[0], mirror[1]], [mirror[2], mirror[3]], named);
      CountPair(mirror[0], mirror[1], named);
      CountPair(mirror[2], mirror[3], named);
      CountPair(mirror[4], mirror[5], named);
      assert toggle == [toggle[0], toggle[1]];
      CountPair(toggle[0], toggle[1], named);
    }
  }

  /** Every merge adds exactly one "Mirror", one "MirrorControls" and one "LightToggleButton". */
  lemma {:induction false} MergedAddsOneOfEach(files: map<string, seq<GameObject>>, mirrorTypeFound: bool)
    requires Tes1Path in files
    ensures forall name | name in {"Mirror", "MirrorControls", "LightToggleButton"} ::
      CountNamed(Merged(files, mirrorTypeFound), name) == CountNamed(Opened(files), name) + 1
  {
    var start := Opened(files);
    var fixed := FixedLights(start);
    var mirror := MirrorFixtures(|fixed|, mirrorTypeFound);
    var toggle := ToggleFixtures(|fixed + mirror|);
    FixtureNames(|fixed|, mirrorTypeFound, |fixed + mirror|);
    forall name | name in {"Mirror", "MirrorControls", "LightToggleButton"}
      ensures CountNamed(Merged(files, mirrorTypeFound), name) == CountNamed(start, name) + 1
    {
      var named := (o: GameObject) => o.name == name;
      CountFrame(fixed, named, start, named);
      CountAppend(fixed, mirror, named);
      CountAppend(fixed + mirror, toggle, named);
    }
  }

  datatype MergeStep = OpenBase | MergeSecond | FixLights | AddMirror | AddToggle | Save

  datatype MergeOutcome = BaseMissing | Cancelled | Failed(step: MergeStep) | Completed

  /** A step that is skipped cannot throw: DJ_V_S is only opened when its file exists. */
  predicate Runs(step: MergeStep, files: map<string, seq<GameObject>>) {
    step != MergeSecond || DjvsPath in files
  }

  /** The open scene when `step` begins, from the scene that was open before the merge. */
  function Before(initial: seq<GameObject>, files: map<string, seq<GameObject>>, mirrorTypeFound: bool,
                  step: MergeStep): seq<GameObject>
    requires Tes1Path in files
  {
    var fixed := FixedLights(Opened(files));
    match step
    case OpenBase => initial
    case MergeSecond => files[Tes1Path]
    case FixLights => Opened(files)
    case AddMirror => fixed
    case AddToggle => fixed + MirrorFixtures(|fixed|, mirrorTypeFound)
    case Save => Merged(files, mirrorTypeFound)
  }

  /**
   * What one merge attempt leaves behind. `fault` names the step whose foreign call throws,
   * if any; the catch block reports it and leaves the scene as that step found it.
   */
  ghost predicate MergeEffect(initial: seq<GameObject>, files: map<string, seq<GameObject>>, confirmed: bool,
                              mirrorTypeFound: bool, fault: Option<MergeStep>, outcome: MergeOutcome,
                              final: seq<GameObject>)
  {
    (outcome == BaseMissing <==> Tes1Path !in files) &&
    (outcome == Cancelled <==> Tes1Path in files && !confirmed) &&
    (outcome.Failed? <==> Tes1Path in files && confirmed && fault.Some? && Runs(fault.value, files)) &&
    (outcome.Failed? ==> fault == Some(outcome.step)) &&
    (outcome == BaseMissing || outcome == Cancelled ==> final == initial) &&
    (outcome.Failed? ==> final == Before(initial, files, mirrorTypeFound, outcome.step)) &&
    (outcome == Completed ==> final == Merged(files, mirrorTypeFound))
  }

  /** Steps 3 to 6, on the opened scenes; returns the step that threw, if any. */
  method BuildSteps(scene: Scene, files: map<string, seq<GameObject>>, mirrorTypeFound: bool,
                    fault: Option<MergeStep>) returns (failedAt: Option<MergeStep>)
    requires Tes1Path in files && scene.objects == Opened(files)
    requires fault.Some? ==> !fault.value.OpenBase? && !fault.value.MergeSecond?
    modifies scene
    ensures failedAt == fault
    ensures failedAt.Some? ==> scene.objects == Before(old(scene.objects), files, mirrorTypeFound, failedAt.value)
    ensures failedAt.None? ==> scene.objects == Merged(files, mirrorTypeFound)
  {
    failedAt := fault;
    if fault.Some? && fault.value.FixLights? {
      return;
    }
    ghost var fixed := FixedLights(Opened(files));
    ghost var withMirror := fixed + MirrorFixtures(|fixed|, mirrorTypeFound);
    var fixedCount := FixVRSLLights(scene);
    assert scene.objects == fixed;
    if fault.Some? && fault.value.AddMirror? {
      return;
    }
    AddMirrorSystem(scene, mirrorTypeFound);
    assert scene.objects == withMirror;
    if fault.Some? && fault.value.AddToggle? {
      return;
    }
    AddLightToggle(scene);
    assert scene.objects == withMirror + ToggleFixtures(|withMirror|);
  }

  /** Steps 1 to 6 inside the `try` block; returns the step that threw, if any. */
  method RunSteps(scene: Scene, files: map<string, seq<GameObject>>, mirrorTypeFound: bool,
                  fault: Option<MergeStep>) returns (failedAt: Option<MergeStep>)
    requires Tes1Path in files
    modifies scene
    ensures failedAt == if fault.Some? && Runs(fault.value, files) then fault else None
    ensures failedAt.Some? ==> scene.objects == Before(old(scene.objects), files, mirrorTypeFound, failedAt.value)
    ensures failedAt.None? ==> scene.objects == Merged(files, mirrorTypeFound)
  {
    if fault == Some(OpenBase) {
      return fault;
    }
    scene.objects := files[Tes1Path];
    if DjvsPath in files {
      if fault == Some(MergeSecond) {
        return fault;
      }
      scene.objects := Append(scene.objects, files[DjvsPath]);
    }
    var rest := if fault == Some(MergeSecond) then None else fault;
    failedAt := BuildSteps(scene, files, mirrorTypeFound, rest);
  }

  /** `ExecuteMerge`: the flag is set on cancel and on success, never on a missing tes1 or a failure. */
  method ExecuteMerge(prefs: EditorPrefs, scene: Scene, files: map<string, seq<GameObject>>, confirmed: bool,
                      mirrorTypeFound: bool, fault: Option<MergeStep>) returns (outcome: MergeOutcome)
    modifies prefs, scene
    ensures MergeEffect(old(scene.objects), files, confirmed, mirrorTypeFound, fault, outcome, scene.objects)
    ensures prefs.autoMergeDone == (old(prefs.autoMergeDone) || outcome == Cancelled || outcome == Completed)
    ensures prefs.installedClientPath == old(prefs.installedClientPath)
  {
    if Tes1Path !in files {
      return BaseMissing;
    }
    if !confirmed {
      prefs.autoMergeDone := true;
      return Cancelled;
    }
    var failedAt := RunSteps(scene, files, mirrorTypeFound, fault);
    if failedAt.Some? {
      return Failed(failedAt.value);
    }
    prefs.autoMergeDone := true;
    outcome := Completed;
  }

  /**
   * The static constructor and its delayed call: the merge runs only while the flag is unset,
   * so once a run completes or is cancelled every later editor load does nothing.
   */
  method LoadEditor(prefs: EditorPrefs, scene: Scene, files: map<string, seq<GameObject>>, confirmed: bool,
                    mirrorTypeFound: bool, fault: Option<MergeStep>) returns (outcome: Option<MergeOutcome>)
    modifies prefs, scene
    ensures old(prefs.autoMergeDone) ==> outcome.None? && scene.objects == old(scene.objects) && prefs.autoMergeDone
    ensures !old(prefs.autoMergeDone) ==>
      outcome.Some? &&
      MergeEffect(old(scene.objects), files, confirmed, mirrorTypeFound, fault, outcome.value, scene.objects) &&
      (prefs.autoMergeDone <==> outcome.value == Cancelled || outcome.value == Completed)
    ensures prefs.installedClientPath == old(prefs.installedClientPath)
  {
    if prefs.autoMergeDone {
      return None;
    }
    var result := ExecuteMerge(prefs, scene, files, confirmed, mirrorTypeFound, fault);
    outcome := Some(result);
  }
}
