/**
 * The menu command `EnableAudioLink`: switches every MonoBehaviour and Renderer under each
 * "VRSL"/"AudioLink" object back on and, when the scene has no object named "AudioLink",
 * instantiates the first AudioLink prefab the asset search finds.
 */
module AudioLinkMode {
  import opened Unity
  import opened Names
  import AutoMerge

  /** A prefab asset: its objects, the root first and unparented, every parent before its children. */
  type Prefab = p: seq<GameObject> | |p| > 0 && p[0].parent.None? && WellFormed(p)
    witness [GameObject("AudioLink", None, [], None, [], 0)]

  /** `x` lies in the subtree of one of the first `n` objects, and that object matches. */
  predicate ReachedBy(objs: seq<GameObject>, n: nat, x: nat)
    requires n <= |objs|
  {
    n > 0 && (ReachedBy(objs, n - 1, x) || (IsVrslOrAudioLink(objs[n - 1]) && IsDescendant(objs, x, n - 1)))
  }

  /** `ReachedBy` is exactly "below some matched object among the first `n`". */
  lemma {:induction false} ReachedByIsUnderMatch(objs: seq<GameObject>, n: nat, x: nat)
    requires n <= |objs|
    ensures ReachedBy(objs, n, x) <==>
      exists m :: 0 <= m < n && IsVrslOrAudioLink(objs[m]) && IsDescendant(objs, x, m)
  {
    if n > 0 {
      ReachedByIsUnderMatch(objs, n - 1, x);
      if IsVrslOrAudioLink(objs[n - 1]) && IsDescendant(objs, x, n - 1) {
        assert 0 <= n - 1 < n;
      }
      if m :| 0 <= m < n && IsVrslOrAudioLink(objs[m]) && IsDescendant(objs, x, m) {
        if m < n - 1 {
          assert ReachedBy(objs, n - 1, x);
        }
      }
    }
  }

  /** Reaching depends only on names and the hierarchy. */
  lemma {:induction false} ReachedByFrame(a: seq<GameObject>, b: seq<GameObject>, n: nat, x: nat)
    requires SameShape(a, b) && n <= |a|
    ensures ReachedBy(a, n, x) == ReachedBy(b, n, x)
  {
    if n > 0 {
      ReachedByFrame(a, b, n - 1, x);
      DescendantFrame(a, b, x, n - 1);
      assert a[n - 1].name == b[n - 1].name;
    }
  }

  /** Every component and the renderer of one object switched on. */
  function Reactivate(o: GameObject): GameObject {
    ShowRenderer(o.(behaviours := EnableAll(o.behaviours)))
  }

  /** The scene after the sweep has visited the first `n` objects. */
  function ReactivatedUpTo(objs: seq<GameObject>, n: nat): (r: seq<GameObject>)
    requires n <= |objs|
    ensures |r| == |objs|
  {
    seq(|objs|, x requires 0 <= x < |objs| => if ReachedBy(objs, n, x) then Reactivate(objs[x]) else objs[x])
  }

  /** The scene after the sweep. */
  function Reactivated(objs: seq<GameObject>): (r: seq<GameObject>)
    ensures SameShape(objs, r)
    ensures forall x :: 0 <= x < |objs| ==> r[x] == objs[x].(behaviours := r[x].behaviours, renderer := r[x].renderer)
    ensures forall x :: 0 <= x < |objs| ==> r[x].renderer.Some? == objs[x].renderer.Some?
    ensures forall x :: 0 <= x < |objs| && ReachedBy(objs, |objs|, x) ==>
      r[x].behaviours == EnableAll(objs[x].behaviours) &&
      (forall k :: 0 <= k < |r[x].behaviours| ==> r[x].behaviours[k].Some? ==> r[x].behaviours[k].value.enabled) &&
      (r[x].renderer.Some? ==> r[x].renderer.value)
    ensures forall x :: 0 <= x < |objs| ==> Count(r[x].behaviours, Present) == Count(objs[x].behaviours, Present)
    ensures forall x :: 0 <= x < |objs| && !ReachedBy(objs, |objs|, x) ==> r[x] == objs[x]
  {
    var r := ReactivatedUpTo(objs, |objs|);
    forall x | 0 <= x < |objs|
      ensures Count(r[x].behaviours, Present) == Count(objs[x].behaviours, Present)
    {
      CountFrame(r[x].behaviours, Present, objs[x].behaviours, Present);
    }
    r
  }

  /** `lightsEnabled`: the present components on the matched objects themselves, not below them. */
  function OwnCount(o: GameObject): nat {
    if IsVrslOrAudioLink(o) then Count(o.behaviours, Present) else 0
  }

  /** A second sweep changes nothing. */
  lemma ReactivatedIdempotent(objs: seq<GameObject>)
    ensures Reactivated(Reactivated(objs)) == Reactivated(objs)
  {
    var once := Reactivated(objs);
    forall x | 0 <= x < |objs|
      ensures Reactivated(once)[x] == once[x]
    {
      ReachedByFrame(objs, once, |objs|, x);
      EnableAllIdempotent(objs[x].behaviours);
    }
  }

  /**
   * The sweep undoes the light fix: after both, every component of a matched object is
   * enabled, exactly as if the fix had never run.
   */
  lemma SweepUndoesLightFix(objs: seq<GameObject>)
    ensures |Reactivated(AutoMerge.FixedLights(objs))| == |objs|
    ensures forall x :: 0 <= x < |objs| && IsVrslOrAudioLink(objs[x]) ==>
      Reactivated(AutoMerge.FixedLights(objs))[x].behaviours == EnableAll(objs[x].behaviours)
  {
    var fixed := AutoMerge.FixedLights(objs);
    forall x | 0 <= x < |objs| && IsVrslOrAudioLink(objs[x])
      ensures Reactivated(fixed)[x].behaviours == EnableAll(objs[x].behaviours)
    {
      assert IsVrslOrAudioLink(fixed[x]);
      MatchedIsReached(fixed, x);
      var bs := objs[x].behaviours;
      assert EnableAll(AutoMerge.DisableAudioLink(bs)) == EnableAll(bs);
    }
  }

  /** A matched object is reached by the sweep: it lies in its own subtree. */
  lemma MatchedIsReached(objs: seq<GameObject>, x: nat)
    requires x < |objs| && IsVrslOrAudioLink(objs[x])
    ensures ReachedBy(objs, |objs|, x)
  {
    assert IsDescendant(objs, x, x);
    assert ReachedBy(objs, x + 1, x);
    ReachedMonotone(objs, x + 1, |objs|, x);
  }

  lemma {:induction false} ReachedMonotone(objs: seq<GameObject>, n: nat, m: nat, x: nat)
    requires n <= m <= |objs| && ReachedBy(objs, n, x)
    ensures ReachedBy(objs, m, x)
    decreases m - n
  {
    if n < m {
      ReachedMonotone(objs, n, m - 1, x);
    }
  }

  /** `PrefabUtility.InstantiatePrefab(prefab)` and the rename of its root to "AudioLink". */
  function Instantiate(objs: seq<GameObject>, prefab: Prefab): (r: seq<GameObject>)
    ensures |r| == |objs| + |prefab| && r[..|objs|] == objs
    ensures r[|objs|] == Shift(prefab[0], |objs|).(name := "AudioLink") && r[|objs|].parent.None?
    ensures forall k :: 0 < k < |prefab| ==> r[|objs| + k] == Shift(prefab[k], |objs|)
    ensures WellFormed(objs) ==> WellFormed(r)
    ensures Find(objs, "AudioLink").None? ==> Find(r, "AudioLink") == Some(|objs|)
  {
    var r := Append(objs, prefab);
    var root := r[|objs|].(name := "AudioLink");
    var result := r[|objs| := root];
    assert forall k :: 0 <= k < |objs| ==> result[k] == objs[k];
    if Find(objs, "AudioLink").None? then
      FirstAt(result, (o: GameObject) => o.name == "AudioLink", Some(|objs|));
      result
    else result
  }

  /**
   * The prefab step: an existing "AudioLink" object is never duplicated; otherwise the first
   * search result is instantiated, when there is one and it loads.
   */
  function WithAudioLink(objs: seq<GameObject>, prefabResults: seq<Option<Prefab>>): (r: seq<GameObject>)
    ensures Find(objs, "AudioLink").Some? ==> r == objs
    ensures Find(objs, "AudioLink").None? && (|prefabResults| == 0 || prefabResults[0].None?) ==> r == objs
    ensures Find(objs, "AudioLink").None? && |prefabResults| > 0 && prefabResults[0].Some? ==>
      r == Instantiate(objs, prefabResults[0].value)
    ensures Find(r, "AudioLink").Some? <==>
      Find(objs, "AudioLink").Some? || (|prefabResults| > 0 && prefabResults[0].Some?)
  {
    if Find(objs, "AudioLink").None? && |prefabResults| > 0 && prefabResults[0].Some? then
      Instantiate(objs, prefabResults[0].value)
    else objs
  }

  /** Enables every present component of every object under `root`, `root` included. */
  method EnableSubtreeBehaviours(scene: Scene, root: nat)
    modifies scene
    ensures SameShape(old(scene.objects), scene.objects)
    ensures forall x :: 0 <= x < |scene.objects| ==>
      scene.objects[x] == if IsDescendant(old(scene.objects), x, root)
                          then old(scene.objects)[x].(behaviours := EnableAll(old(scene.objects)[x].behaviours))
                          else old(scene.objects)[x]
  {
    var objs := scene.objects;
    for j := 0 to |objs|
      invariant |scene.objects| == |objs|
      invariant forall x :: 0 <= x < |objs| ==>
        scene.objects[x] == if x < j && IsDescendant(objs, x, root)
                            then objs[x].(behaviours := EnableAll(objs[x].behaviours)) else objs[x]
    {
      if IsDescendant(objs, j, root) {
        scene.objects := scene.objects[j := scene.objects[j].(behaviours := EnableAll(scene.objects[j].behaviours))];
      }
    }
  }

  /** Shows every renderer under `root`, `root` included. */
  method ShowSubtreeRenderers(scene: Scene, root: nat)
    modifies scene
    ensures SameShape(old(scene.objects), scene.objects)
    ensures forall x :: 0 <= x < |scene.objects| ==>
      scene.objects[x] == if IsDescendant(old(scene.objects), x, root)
                          then ShowRenderer(old(scene.objects)[x]) else old(scene.objects)[x]
  {
    var objs := scene.objects;
    for j := 0 to |objs|
      invariant |scene.objects| == |objs|
      invariant forall x :: 0 <= x < |objs| ==>
        scene.objects[x] == if x < j && IsDescendant(objs, x, root) then ShowRenderer(objs[x]) else objs[x]
    {
      if IsDescendant(objs, j, root) {
        scene.objects := scene.objects[j := ShowRenderer(scene.objects[j])];
      }
    }
  }

  /** The three passes over one matched object: its own components, its subtree's, its subtree's renderers. */
  method ReactivateObject(scene: Scene, i: nat) returns (own: nat)
    requires i < |scene.objects|
    modifies scene
    ensures SameShape(old(scene.objects), scene.objects)
    ensures own == Count(old(scene.objects)[i].behaviours, Present)
    ensures forall x :: 0 <= x < |scene.objects| ==>
      scene.objects[x] == if IsDescendant(old(scene.objects), x, i) then Reactivate(old(scene.objects)[x]) else old(scene.objects)[x]
  {
    ghost var objs := scene.objects;
    own := EnableBehavioursOf(scene, i);
    ghost var s1 := scene.objects;
    EnableSubtreeBehaviours(scene, i);
    ghost var s2 := scene.objects;
    ShowSubtreeRenderers(scene, i);
    forall x | 0 <= x < |objs|
      ensures scene.objects[x] == if IsDescendant(objs, x, i) then Reactivate(objs[x]) else objs[x]
    {
      DescendantFrame(objs, s1, x, i);
      DescendantFrame(objs, s2, x, i);
      EnableAllIdempotent(objs[x].behaviours);
    }
  }

  /** One step of the sweep: the `i`th object, when it matches. */
  method SweepStep(scene: Scene, objs: seq<GameObject>, i: nat) returns (own: nat)
    requires i < |objs| && scene.objects == ReactivatedUpTo(objs, i)
    modifies scene
    ensures SameShape(objs, scene.objects)
    ensures scene.objects == ReactivatedUpTo(objs, i + 1)
    ensures own == OwnCount(objs[i])
  {
    own := 0;
    if IsVrslOrAudioLink(objs[i]) {
      ghost var before := scene.objects;
      own := ReactivateObject(scene, i);
      assert before[i].behaviours == objs[i].behaviours || before[i].behaviours == EnableAll(objs[i].behaviours);
      CountFrame(EnableAll(objs[i].behaviours), Present, objs[i].behaviours, Present);
      forall x | 0 <= x < |objs|
        ensures scene.objects[x] == ReactivatedUpTo(objs, i + 1)[x]
      {
        DescendantFrame(objs, before, x, i);
        EnableAllIdempotent(objs[x].behaviours);
      }
    } else {
      forall x | 0 <= x < |objs|
        ensures scene.objects[x] == ReactivatedUpTo(objs, i + 1)[x]
      {
      }
    }
  }

  datatype Report = Report(lightsEnabled: nat, audioLinkPresent: bool)

  /** The menu command; `confirmed` is the dialog's answer and `None` the cancelled run. */
  method EnableAudioLinkMode(scene: Scene, confirmed: bool, prefabResults: seq<Option<Prefab>>)
    returns (report: Option<Report>)
    requires scene.Valid()
    modifies scene
    ensures scene.Valid()
    ensures !confirmed ==> report.None? && scene.objects == old(scene.objects)
    ensures confirmed ==>
      scene.objects == WithAudioLink(Reactivated(old(scene.objects)), prefabResults) &&
      report == Some(Report(Sum(old(scene.objects), OwnCount), Find(scene.objects, "AudioLink").Some?))
  {
    if !confirmed {
      return None;
    }
    var objs := scene.objects;
    var lightsEnabled := 0;
    for i := 0 to |objs|
      invariant SameShape(objs, scene.objects)
      invariant scene.objects == ReactivatedUpTo(objs, i)
      invariant lightsEnabled == Sum(objs[..i], OwnCount)
    {
      assert objs[..i + 1][..i] == objs[..i];
      var own := SweepStep(scene, objs, i);
      lightsEnabled := lightsEnabled + own;
    }
    assert objs[..|objs|] == objs;
    var swept := scene.objects;
    FindFrame(objs, swept, "AudioLink");
    scene.objects := WithAudioLink(swept, prefabResults);
    report := Some(Report(lightsEnabled, Find(scene.objects, "AudioLink").Some?));
  }
}
