/**
 * The menu command `MergeAndSetup`: the same merge as the automatic one, run on demand. It
 * asks before it looks for tes1, has no run-once flag and no error handler.
 */
module MergeSetup {
  import opened Unity
  import opened AutoMerge

  datatype SetupOutcome = SetupCancelled | SetupBaseMissing | SetupDone

  /** `files` maps each existing scene path to the objects stored in it. */
  method MergeAndSetup(scene: Scene, files: map<string, seq<GameObject>>, confirmed: bool, mirrorTypeFound: bool)
    returns (outcome: SetupOutcome)
    modifies scene
    ensures outcome == SetupCancelled <==> !confirmed
    ensures outcome == SetupBaseMissing <==> confirmed && Tes1Path !in files
    ensures outcome != SetupDone ==> scene.objects == old(scene.objects)
    ensures outcome == SetupDone ==> Tes1Path in files && scene.objects == Merged(files, mirrorTypeFound)
  {
    if !confirmed {
      return SetupCancelled;
    }
    if Tes1Path !in files {
      return SetupBaseMissing;
    }
    scene.objects := files[Tes1Path];
    if DjvsPath in files {
      scene.objects := Append(scene.objects, files[DjvsPath]);
    }
    var fixedCount := FixVRSLLights(scene);
    AddMirrorSystem(scene, mirrorTypeFound);
    AddLightToggle(scene);
    outcome := SetupDone;
  }

  /**
   * Nothing stops a second run: when tes1 is the only scene, saving writes the merged scene
   * back to it, and running the command again adds a second mirror, a second set of mirror
   * controls and a second toggle button.
   */
  lemma {:induction false} SecondRunDuplicatesFixtures(files: map<string, seq<GameObject>>, mirrorTypeFound: bool)
    requires Tes1Path in files && DjvsPath !in files
    ensures var saved := map[Tes1Path := Merged(files, mirrorTypeFound)];
      forall name | name in {"Mirror", "MirrorControls", "LightToggleButton"} ::
        CountNamed(Merged(saved, mirrorTypeFound), name) == CountNamed(files[Tes1Path], name) + 2
  {
    var saved := map[Tes1Path := Merged(files, mirrorTypeFound)];
    MergedAddsOneOfEach(files, mirrorTypeFound);
    MergedAddsOneOfEach(saved, mirrorTypeFound);
    assert Opened(saved) == Merged(files, mirrorTypeFound);
    assert Opened(files) == files[Tes1Path];
  }
}
