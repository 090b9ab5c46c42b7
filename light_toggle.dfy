/** The runtime light switch: the UdonSharp behaviour `LightToggleController`. */
module LightToggle {
  import opened Unity
  import opened Names

  /** `x` lies in the subtree of some non-null entry of `targets`. */
  predicate Targeted(objs: seq<GameObject>, targets: seq<Option<nat>>, x: nat) {
    exists k :: 0 <= k < |targets| && targets[k].Some? && IsDescendant(objs, x, targets[k].value)
  }

  /** The object's renderer and every one of its lights set to `on`. */
  function SetLit(o: GameObject, on: bool): GameObject {
    o.(renderer := if o.renderer.Some? then Some(on) else None,
       lights := seq(|o.lights|, _ => on))
  }

  /** Every renderer and light of the object shows `on`. */
  predicate AllLit(o: GameObject, on: bool) {
    (o.renderer.Some? ==> o.renderer.value == on) &&
    forall i :: 0 <= i < |o.lights| ==> o.lights[i] == on
  }

  /** `b` is `a` with at most the `enabled` flags of its renderer and lights changed. */
  predicate SameParts(a: GameObject, b: GameObject) {
    b == a.(renderer := b.renderer, lights := b.lights) &&
    a.renderer.Some? == b.renderer.Some? && |a.lights| == |b.lights|
  }

  /** The scene after every renderer and light under every non-null target was set to `on`. */
  function Lit(objs: seq<GameObject>, targets: seq<Option<nat>>, on: bool): (r: seq<GameObject>)
    ensures SameShape(objs, r)
    ensures forall x :: 0 <= x < |objs| ==> SameParts(objs[x], r[x])
    ensures forall k, x ::
      0 <= k < |targets| && targets[k].Some? && 0 <= x < |objs| && IsDescendant(objs, x, targets[k].value)
      ==> AllLit(r[x], on)
    ensures forall x :: 0 <= x < |objs| && !Targeted(objs, targets, x) ==> r[x] == objs[x]
  {
    seq(|objs|, x requires 0 <= x < |objs| =>
      if Targeted(objs, targets, x) then SetLit(objs[x], on) else objs[x])
  }

  /** An object listed itself among the targets ends with its renderer and lights at `on`. */
  lemma ListedObjectIsSet(objs: seq<GameObject>, targets: seq<Option<nat>>, x: nat, on: bool)
    requires x < |objs| && Some(x) in targets
    ensures AllLit(Lit(objs, targets, on)[x], on)
  {
    var k :| 0 <= k < |targets| && targets[k] == Some(x);
    assert IsDescendant(objs, x, targets[k].value);
  }

  lemma SetLitTwice(o: GameObject, first: bool, second: bool)
    ensures SetLit(SetLit(o, first), second) == SetLit(o, second)
  {
    assert SetLit(SetLit(o, first), second).lights == SetLit(o, second).lights;
  }

  /**
   * Two toggles leave every targeted renderer and light at the final value, whatever the
   * first toggle did: the scene is as if only the second toggle had happened.
   */
  lemma {:induction false} ToggleTwice(objs: seq<GameObject>, targets: seq<Option<nat>>, on: bool)
    ensures Lit(Lit(objs, targets, !on), targets, on) == Lit(objs, targets, on)
  {
    var once := Lit(objs, targets, !on);
    forall x | 0 <= x < |objs|
      ensures Lit(once, targets, on)[x] == Lit(objs, targets, on)[x]
    {
      forall k | 0 <= k < |targets| && targets[k].Some? {
        DescendantFrame(objs, once, x, targets[k].value);
      }
      if Targeted(objs, targets, x) {
        SetLitTwice(objs[x], !on, on);
      }
    }
  }

  /**
   * Two toggles need not restore the scene: a light that was off before a first toggle
   * (from on to off) ends on after the second.
   */
  lemma TwoTogglesNeedNotRestore()
    ensures var objs := [GameObject("VRSL_Par", None, [], Some(false), [false], 0)];
      Lit(Lit(objs, [Some(0)], false), [Some(0)], true) != objs
  {
    var objs := [GameObject("VRSL_Par", None, [], Some(false), [false], 0)];
    var targets := [Some(0)];
    assert Targeted(objs, targets, 0) by { assert IsDescendant(objs, 0, targets[0].value); }
    var once := Lit(objs, targets, false);
    assert Targeted(once, targets, 0) by { assert IsDescendant(once, 0, targets[0].value); }
    assert Lit(once, targets, true)[0].renderer == Some(true);
  }

  /** The list `Start` discovers: exactly the matching objects, in scan order, each once. */
  lemma DiscoveryIsExact(objs: seq<GameObject>)
    ensures var found := Refs(Select(objs, IsLightObject));
      (forall x: nat :: Some(x) in found <==> x < |objs| && IsLightObject(objs[x])) &&
      (forall k, l :: 0 <= k < l < |found| ==> found[k].Some? && found[l].Some? && found[k].value < found[l].value)
  {
    var sel := Select(objs, IsLightObject);
    var found := Refs(sel);
    forall x | Some(x) in found
      ensures x < |objs| && IsLightObject(objs[x])
    {
      var k :| 0 <= k < |found| && found[k] == Some(x);
      assert sel[k] == x;
    }
    forall x: nat | x < |objs| && IsLightObject(objs[x])
      ensures Some(x) in found
    {
      var k :| 0 <= k < |sel| && sel[k] == x;
      assert found[k] == Some(x);
    }
  }

  /** Sets the renderer and lights of everything under `root` to `on`. */
  method LightSubtree(scene: Scene, root: nat, on: bool)
    modifies scene
    ensures SameShape(old(scene.objects), scene.objects)
    ensures forall x :: 0 <= x < |scene.objects| ==>
      scene.objects[x] == if IsDescendant(old(scene.objects), x, root)
                          then SetLit(old(scene.objects)[x], on) else old(scene.objects)[x]
  {
    var objs := scene.objects;
    for j := 0 to |objs|
      invariant |scene.objects| == |objs|
      invariant forall x :: 0 <= x < |objs| ==>
        scene.objects[x] == if x < j && IsDescendant(objs, x, root) then SetLit(objs[x], on) else objs[x]
    {
      if IsDescendant(objs, j, root) {
        scene.objects := scene.objects[j := SetLit(scene.objects[j], on)];
      }
    }
  }

  class LightToggleController {
    var lightsToToggle: seq<Option<nat>>
    var lightsOn: bool

    /** A behaviour as the scene serialized it; `lightsOn` starts true. */
    constructor (lightsToToggle: seq<Option<nat>>)
      ensures this.lightsToToggle == lightsToToggle && lightsOn
    {
      this.lightsToToggle := lightsToToggle;
      lightsOn := true;
    }

    /** Fills an empty target list with every object whose name has a light token. */
    method Start(scene: Scene)
      modifies this
      ensures lightsOn == old(lightsOn)
      ensures old(lightsToToggle) != [] ==> lightsToToggle == old(lightsToToggle)
      ensures old(lightsToToggle) == [] ==> lightsToToggle == Refs(Select(scene.objects, IsLightObject))
    {
      if lightsToToggle == [] {
        var objs := scene.objects;
        var lights: seq<nat> := [];
        for i := 0 to |objs|
          invariant lights == Select(objs[..i], IsLightObject)
        {
          assert objs[..i + 1][..i] == objs[..i];
          if IsLightObject(objs[i]) {
            lights := lights + [i];
          }
        }
        assert objs[..|objs|] == objs;
        lightsToToggle := Refs(lights);
      }
    }

    /** Flips `lightsOn` and pushes it into every renderer and light under every target. */
    method ToggleLights(scene: Scene)
      requires scene.Valid()
      modifies this, scene
      ensures scene.Valid()
      ensures lightsOn == !old(lightsOn) && lightsToToggle == old(lightsToToggle)
      ensures scene.objects == Lit(old(scene.objects), lightsToToggle, lightsOn)
    {
      lightsOn := !lightsOn;
      var objs: seq<GameObject>, targets: seq<Option<nat>>, on: bool := scene.objects, lightsToToggle, lightsOn;
      for k := 0 to |targets|
        invariant lightsToToggle == targets && lightsOn == on
        invariant SameShape(objs, scene.objects)
        invariant forall x :: 0 <= x < |objs| ==>
          scene.objects[x] == if Targeted(objs, targets[..k], x) then SetLit(objs[x], on) else objs[x]
      {
        ghost var before := scene.objects;
        var target := targets[k];
        if target.Some? {
          LightSubtree(scene, target.value, on);
        }
        forall x | 0 <= x < |objs|
          ensures scene.objects[x] ==
            if Targeted(objs, targets[..k + 1], x) then SetLit(objs[x], on) else objs[x]
        {
          if target.Some? {
            DescendantFrame(objs, before, x, target.value);
            if Targeted(objs, targets[..k], x) {
              SetLitTwice(objs[x], on, on);
            }
          }
          var was := Targeted(objs, targets[..k], x);
          if was {
            var j: nat :| j < k && targets[..k][j].Some? && IsDescendant(objs, x, targets[..k][j].value);
            assert targets[..k + 1][j] == targets[..k][j];
          }
          if target.Some? && IsDescendant(objs, x, target.value) {
            assert targets[..k + 1][k] == target;
          }
        }
      }
      assert targets[..|targets|] == targets;
      assert scene.Valid() by {
        forall x | 0 <= x < |scene.objects| && scene.objects[x].parent.Some? ensures scene.objects[x].parent.value < x {
          assert scene.objects[x].parent == objs[x].parent;
        }
      }
    }

    /** The player clicked the button. */
    method Interact(scene: Scene)
      requires scene.Valid()
      modifies this, scene
      ensures scene.Valid()
      ensures lightsOn == !old(lightsOn) && lightsToToggle == old(lightsToToggle)
      ensures scene.objects == Lit(old(scene.objects), lightsToToggle, lightsOn)
    {
      ToggleLights(scene);
    }
  }
}
