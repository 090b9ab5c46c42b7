/**
 * The menu command `SetupDMX`: re-enables the components of every "VRSL" object, then adds
 * a video player with a display quad and an instruction sign for the Grid Node workflow.
 */
module DmxMode {
  import opened Unity
  import opened Names
  import opened Text
  import AutoMerge

  /** The scene after the sweep: each "VRSL" object's own components enabled, nothing else touched. */
  function Configured(objs: seq<GameObject>): (r: seq<GameObject>)
    ensures SameShape(objs, r)
    ensures forall x :: 0 <= x < |objs| ==> r[x] == objs[x].(behaviours := r[x].behaviours)
    ensures forall x :: 0 <= x < |objs| && IsVrsl(objs[x]) ==> r[x].behaviours == EnableAll(objs[x].behaviours)
    ensures forall x :: 0 <= x < |objs| && !IsVrsl(objs[x]) ==> r[x] == objs[x]
  {
    seq(|objs|, x requires 0 <= x < |objs| => ConfiguredUpTo(objs, |objs|, x))
  }

  /** Object `x` once the sweep has visited the first `n` objects. */
  function ConfiguredUpTo(objs: seq<GameObject>, n: nat, x: nat): GameObject
    requires n <= |objs| && x < |objs|
  {
    if x < n && IsVrsl(objs[x]) then objs[x].(behaviours := EnableAll(objs[x].behaviours)) else objs[x]
  }

  /** `lightsConfigured` for one object: its present components when it is a "VRSL" object. */
  function ConfiguredCount(o: GameObject): nat {
    if IsVrsl(o) then Count(o.behaviours, Present) else 0
  }

  /** A second sweep changes nothing. */
  lemma ConfiguredIdempotent(objs: seq<GameObject>)
    ensures Configured(Configured(objs)) == Configured(objs)
  {
    var once := Configured(objs);
    forall x | 0 <= x < |objs|
      ensures Configured(once)[x] == once[x]
    {
      EnableAllIdempotent(objs[x].behaviours);
    }
  }

  /**
   * The sweep undoes the light fix on every "VRSL" object: each of its components ends
   * enabled, whatever the fix had switched off.
   */
  lemma SweepUndoesLightFix(objs: seq<GameObject>)
    ensures |Configured(AutoMerge.FixedLights(objs))| == |objs|
    ensures forall x :: 0 <= x < |objs| && IsVrsl(objs[x]) ==>
      Configured(AutoMerge.FixedLights(objs))[x].behaviours == EnableAll(objs[x].behaviours)
  {
    var fixed := AutoMerge.FixedLights(objs);
    forall x | 0 <= x < |objs| && IsVrsl(objs[x])
      ensures Configured(fixed)[x].behaviours == EnableAll(objs[x].behaviours)
    {
      var bs := objs[x].behaviours;
      assert EnableAll(AutoMerge.DisableAudioLink(bs)) == EnableAll(bs);
    }
  }

  /**
   * Unlike the light fix and the AudioLink sweep, this sweep matches "VRSL" only: an
   * "AudioLink" object with a disabled component keeps it disabled.
   */
  lemma AudioLinkObjectsAreNotSwept()
    ensures var objs := [GameObject("AudioLink", None, [Some(Behaviour(Script("AudioLinkTrack"), false))], None, [], 0)];
      IsVrslOrAudioLink(objs[0]) && Configured(objs) == objs
  {
    var objs := [GameObject("AudioLink", None, [Some(Behaviour(Script("AudioLinkTrack"), false))], None, [], 0)];
    LacksFirstChar(objs[0].name, "VRSL");
    assert StartsWith(objs[0].name, "AudioLink");
    assert IsVrslOrAudioLink(objs[0]);
  }

  /** What `AddDMXVideoPlayer` creates: the player and the display quad, both unparented. */
  function VideoPlayerFixtures(): (r: seq<GameObject>)
    ensures |r| == 2 && r[0].parent.None? && r[1].parent.None?
    ensures r[0].name == "DMX_VideoPlayer" && r[1].name == "DMX_GridDisplay" && r[1].renderer == Some(true)
  {
    [Bare("DMX_VideoPlayer", None), Rendered("DMX_GridDisplay", None)]
  }

  /** What `AddGridNodeSetup` creates when the instruction sign becomes object `n`: the sign and its text. */
  function GridNodeFixtures(n: nat): (r: seq<GameObject>)
    ensures |r| == 2 && r[0].parent.None? && r[1].parent == Some(n)
    ensures r[0].name == "DMX_Setup_Instructions" && r[1].name == "InstructionsText"
  {
    [Bare("DMX_Setup_Instructions", None), Rendered("InstructionsText", Some(n))]
  }

  /** `AddDMXVideoPlayer` then `AddGridNodeSetup`, appended after `n` objects. */
  function DmxFixtures(n: nat): (r: seq<GameObject>)
    ensures |r| == 4
    ensures forall k :: 0 <= k < |r| && r[k].parent.Some? ==> n <= r[k].parent.value < n + k
    ensures r[0].name == "DMX_VideoPlayer" && r[1].name == "DMX_GridDisplay"
    ensures r[2].name == "DMX_Setup_Instructions" && r[3].name == "InstructionsText" && r[3].parent == Some(n + 2)
    ensures r[1].renderer == Some(true)
  {
    VideoPlayerFixtures() + GridNodeFixtures(n + 2)
  }

  method AddDMXVideoPlayer(scene: Scene)
    modifies scene
    ensures scene.objects == old(scene.objects) + VideoPlayerFixtures()
  {
    scene.objects := scene.objects + [Bare("DMX_VideoPlayer", None)];
    scene.objects := scene.objects + [Rendered("DMX_GridDisplay", None)];
  }

  method AddGridNodeSetup(scene: Scene)
    modifies scene
    ensures scene.objects == old(scene.objects) + GridNodeFixtures(|old(scene.objects)|)
  {
    var info := |scene.objects|;
    scene.objects := scene.objects + [Bare("DMX_Setup_Instructions", None)];
    scene.objects := scene.objects + [Rendered("InstructionsText", Some(info))];
  }

  /** One turn of the sweep: enables object `i`'s own components when it is a "VRSL" object. */
  method ConfigureStep(scene: Scene, objs: seq<GameObject>, i: nat) returns (own: nat)
    requires i < |objs| && |scene.objects| == |objs|
    requires forall x :: 0 <= x < |objs| ==> scene.objects[x] == ConfiguredUpTo(objs, i, x)
    modifies scene
    ensures |scene.objects| == |objs|
    ensures forall x :: 0 <= x < |objs| ==> scene.objects[x] == ConfiguredUpTo(objs, i + 1, x)
    ensures own == ConfiguredCount(objs[i])
  {
    own := 0;
    if IsVrsl(objs[i]) {
      own := EnableBehavioursOf(scene, i);
    }
  }

  /** The sweep over every object; `count` is the number of components it found on "VRSL" objects. */
  method ConfigureLights(scene: Scene) returns (count: nat)
    modifies scene
    ensures scene.objects == Configured(old(scene.objects))
    ensures count == Sum(old(scene.objects), ConfiguredCount)
  {
    var objs := scene.objects;
    count := 0;
    for i := 0 to |objs|
      invariant |scene.objects| == |objs|
      invariant forall x :: 0 <= x < |objs| ==> scene.objects[x] == ConfiguredUpTo(objs, i, x)
      invariant count == Sum(objs[..i], ConfiguredCount)
    {
      assert objs[..i + 1][..i] == objs[..i];
      var own := ConfigureStep(scene, objs, i);
      count := count + own;
    }
    assert objs[..|objs|] == objs;
  }

  /** The menu command; `confirmed` is the dialog's answer and `None` the cancelled run. */
  method SetupDMX(scene: Scene, confirmed: bool) returns (lightsConfigured: Option<nat>)
    modifies scene
    ensures old(scene.Valid()) ==> scene.Valid()
    ensures !confirmed ==> lightsConfigured.None? && scene.objects == old(scene.objects)
    ensures confirmed ==>
      lightsConfigured == Some(Sum(old(scene.objects), ConfiguredCount)) &&
      scene.objects == Configured(old(scene.objects)) + DmxFixtures(|old(scene.objects)|)
  {
    if !confirmed {
      return None;
    }
    ghost var objs := scene.objects;
    var count := ConfigureLights(scene);
    var n := |scene.objects|;
    AddDMXVideoPlayer(scene);
    AddGridNodeSetup(scene);
    if WellFormed(objs) {
      AutoMerge.AddKeepsWellFormed(Configured(objs), DmxFixtures(n));
    }
    lightsConfigured := Some(count);
  }
}
