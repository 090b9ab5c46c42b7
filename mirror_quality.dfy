/** The runtime mirror buttons: the UdonSharp behaviour `MirrorQualityController`. */
module MirrorQuality {
  import opened Unity

  /** A reference to one behaviour: object index and slot in its component list. */
  datatype ComponentRef = ComponentRef(obj: nat, slot: nat)

  /** The reference points at a component that exists. */
  predicate Resolves(objs: seq<GameObject>, c: ComponentRef) {
    c.obj < |objs| && c.slot < |objs[c.obj].behaviours| && objs[c.obj].behaviours[c.slot].Some?
  }

  predicate IsMirrorReflection(b: Option<Behaviour>) {
    b.Some? && b.value.kind.MirrorReflection?
  }

  /** What `mirror.GetComponent<VRCMirrorReflection>()` finds, or null. */
  function MirrorComponentOf(objs: seq<GameObject>, mirror: Option<nat>): (r: Option<ComponentRef>)
    requires mirror.Some? ==> mirror.value < |objs|
    ensures r.Some? ==>
      mirror == Some(r.value.obj) && Resolves(objs, r.value) &&
      IsMirrorReflection(objs[r.value.obj].behaviours[r.value.slot])
    ensures r.Some? ==> forall k :: 0 <= k < r.value.slot ==> !IsMirrorReflection(objs[r.value.obj].behaviours[k])
    ensures r.None? && mirror.Some? ==>
      forall k :: 0 <= k < |objs[mirror.value].behaviours| ==> !IsMirrorReflection(objs[mirror.value].behaviours[k])
  {
    match mirror
    case None => None
    case Some(m) =>
      match First(objs[m].behaviours, IsMirrorReflection)
      case None => None
      case Some(k) => Some(ComponentRef(m, k))
  }

  function EnabledAt(objs: seq<GameObject>, c: ComponentRef): bool
    requires Resolves(objs, c)
  {
    objs[c.obj].behaviours[c.slot].value.enabled
  }

  /** `component.enabled = v`. */
  function SetEnabled(objs: seq<GameObject>, c: ComponentRef, v: bool): (r: seq<GameObject>)
    requires Resolves(objs, c)
    ensures Resolves(r, c) && EnabledAt(r, c) == v
    ensures |r| == |objs| && forall x :: 0 <= x < |objs| && x != c.obj ==> r[x] == objs[x]
    ensures r[c.obj].(behaviours := objs[c.obj].behaviours) == objs[c.obj]
    ensures |r[c.obj].behaviours| == |objs[c.obj].behaviours|
    ensures forall k :: 0 <= k < |objs[c.obj].behaviours| && k != c.slot ==>
      r[c.obj].behaviours[k] == objs[c.obj].behaviours[k]
    ensures r[c.obj].behaviours[c.slot].value.kind == objs[c.obj].behaviours[c.slot].value.kind
  {
    var o := objs[c.obj];
    var b := o.behaviours[c.slot].value;
    objs[c.obj := o.(behaviours := o.behaviours[c.slot := Some(b.(enabled := v))])]
  }

  /** What `SetHighQuality` and `SetLowQuality` both do: enable the cached component, if any. */
  function Enabled(objs: seq<GameObject>, cached: Option<ComponentRef>): seq<GameObject>
    requires cached.Some? ==> Resolves(objs, cached.value)
  {
    match cached
    case None => objs
    case Some(c) => SetEnabled(objs, c, true)
  }

  /** What `ToggleMirror` does: negate the cached component's flag, if any. */
  function Toggled(objs: seq<GameObject>, cached: Option<ComponentRef>): seq<GameObject>
    requires cached.Some? ==> Resolves(objs, cached.value)
  {
    match cached
    case None => objs
    case Some(c) => SetEnabled(objs, c, !EnabledAt(objs, c))
  }

  /** Enabling twice is enabling once. */
  lemma EnabledIdempotent(objs: seq<GameObject>, cached: Option<ComponentRef>)
    requires cached.Some? ==> Resolves(objs, cached.value)
    ensures cached.Some? ==> Resolves(Enabled(objs, cached), cached.value)
    ensures Enabled(Enabled(objs, cached), cached) == Enabled(objs, cached)
  {
    if cached.Some? {
      var c := cached.value;
      var once := Enabled(objs, cached);
      assert once[c.obj].behaviours[c.slot := Some(once[c.obj].behaviours[c.slot].value)] == once[c.obj].behaviours;
      assert once[c.obj := once[c.obj]] == once;
    }
  }

  /** Toggling twice restores the scene exactly. */
  lemma {:induction false} ToggledTwice(objs: seq<GameObject>, cached: Option<ComponentRef>)
    requires cached.Some? ==> Resolves(objs, cached.value)
    ensures cached.Some? ==> Resolves(Toggled(objs, cached), cached.value)
    ensures Toggled(Toggled(objs, cached), cached) == objs
  {
    if cached.Some? {
      var c := cached.value;
      var twice := Toggled(Toggled(objs, cached), cached);
      assert twice[c.obj].behaviours == objs[c.obj].behaviours;
      assert twice[c.obj] == objs[c.obj];
    }
  }

  /** Toggling flips the flag and enabling sets it: they agree exactly when the mirror was off. */
  lemma ToggleEnablesOnlyWhenOff(objs: seq<GameObject>, c: ComponentRef)
    requires Resolves(objs, c)
    ensures (Toggled(objs, Some(c)) == Enabled(objs, Some(c))) <==> !EnabledAt(objs, c)
  {
    if EnabledAt(objs, c) {
      assert EnabledAt(Toggled(objs, Some(c)), c) != EnabledAt(Enabled(objs, Some(c)), c);
    }
  }

  class MirrorQualityController {
    var mirror: Option<nat>
    var mirrorComponent: Option<ComponentRef>

    /** A behaviour as the scene serialized it; nothing is cached before `Start`. */
    constructor (mirror: Option<nat>)
      ensures this.mirror == mirror && mirrorComponent == None
    {
      this.mirror := mirror;
      mirrorComponent := None;
    }

    /** Caches the mirror's VRCMirrorReflection when `mirror` is set. */
    method Start(scene: Scene)
      requires mirror.Some? ==> mirror.value < |scene.objects|
      modifies this
      ensures mirror == old(mirror)
      ensures old(mirror).None? ==> mirrorComponent == old(mirrorComponent)
      ensures old(mirror).Some? ==> mirrorComponent == MirrorComponentOf(scene.objects, mirror)
    {
      if mirror.Some? {
        var m := mirror.value;
        var slot := First(scene.objects[m].behaviours, IsMirrorReflection);
        mirrorComponent := if slot.Some? then Some(ComponentRef(m, slot.value)) else None;
      }
    }

    method SetHighQuality(scene: Scene)
      requires mirrorComponent.Some? ==> Resolves(scene.objects, mirrorComponent.value)
      modifies scene
      ensures scene.objects == Enabled(old(scene.objects), mirrorComponent)
    {
      if mirrorComponent.Some? {
        scene.objects := SetEnabled(scene.objects, mirrorComponent.value, true);
      }
    }

    method SetLowQuality(scene: Scene)
      requires mirrorComponent.Some? ==> Resolves(scene.objects, mirrorComponent.value)
      modifies scene
      ensures scene.objects == Enabled(old(scene.objects), mirrorComponent)
    {
      if mirrorComponent.Some? {
        scene.objects := SetEnabled(scene.objects, mirrorComponent.value, true);
      }
    }

    method ToggleMirror(scene: Scene)
      requires mirrorComponent.Some? ==> Resolves(scene.objects, mirrorComponent.value)
      modifies scene
      ensures scene.objects == Toggled(old(scene.objects), mirrorComponent)
    {
      if mirrorComponent.Some? {
        var c := mirrorComponent.value;
        scene.objects := SetEnabled(scene.objects, c, !EnabledAt(scene.objects, c));
      }
    }
  }
}
