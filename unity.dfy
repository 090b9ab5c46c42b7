/**
 * The part of Unity's scene model that the editor tools and the two behaviours touch.
 *
 * A scene is a flat sequence of game objects; the index order stands for the order in which
 * `FindObjectsOfType<GameObject>()` reports them and `GameObject.Find` searches them, an order
 * Unity itself leaves unspecified. An object reference is an index into that sequence and a
 * null reference is `None`. The transform hierarchy is kept as parent pointers; in a
 * well-formed scene (`WellFormed`) a parent precedes its children.
 */
module Unity {

  datatype Option<+T> = None | Some(value: T)

  /** What a MonoBehaviour is, as far as the tools look at it. */
  datatype Kind =
    | Script(typeName: string)                            // any other MonoBehaviour, by its type's short name
    | MirrorReflection                                    // VRC.SDK3.Components.VRCMirrorReflection
    | MirrorController(mirror: Option<nat>)               // MirrorQualityController and its serialized `mirror`
    | LightController(lightsToToggle: seq<Option<nat>>)   // LightToggleController and its serialized `lightsToToggle`
    | Udon(interactText: string)                          // VRC.Udon.UdonBehaviour and its `interactText`

  /** `GetType().Name` of a behaviour of this kind. */
  function TypeName(k: Kind): string {
    match k
    case Script(name) => name
    case MirrorReflection => "VRCMirrorReflection"
    case MirrorController(_) => "MirrorQualityController"
    case LightController(_) => "LightToggleController"
    case Udon(_) => "UdonBehaviour"
  }

  datatype Behaviour = Behaviour(kind: Kind, enabled: bool)

  datatype GameObject = GameObject(
    name: string,
    parent: Option<nat>,
    behaviours: seq<Option<Behaviour>>,  // GetComponents<MonoBehaviour>(); None is a missing script
    renderer: Option<bool>,              // the `enabled` flag of the object's Renderer, if it has one
    lights: seq<bool>,                   // the `enabled` flag of each Light on the object
    boxColliders: nat)                   // how many BoxCollider components the object carries

  /** `new GameObject(name)`: a bare transform. */
  function Bare(name: string, parent: Option<nat>): GameObject {
    GameObject(name, parent, [], None, [], 0)
  }

  /** `GameObject.CreatePrimitive(PrimitiveType.Cube)`: a MeshRenderer and a BoxCollider. */
  function Cube(name: string, parent: Option<nat>): GameObject {
    GameObject(name, parent, [], Some(true), [], 1)
  }

  /**
   * An object whose only modelled part is an enabled MeshRenderer: a Quad primitive (its
   * MeshCollider is not modelled) or a 3D text label (a TextMesh brings its MeshRenderer).
   */
  function Rendered(name: string, parent: Option<nat>): GameObject {
    GameObject(name, parent, [], Some(true), [], 0)
  }

  predicate WellFormed(objs: seq<GameObject>) {
    forall x :: 0 <= x < |objs| && objs[x].parent.Some? ==> objs[x].parent.value < x
  }

  /**
   * `x` is `root` or lies below it: what `root.GetComponentsInChildren<T>()` reaches.
   * The guard `p < x` always holds in a well-formed scene; it makes the recursion total.
   */
  predicate IsDescendant(objs: seq<GameObject>, x: nat, root: nat)
    decreases x
  {
    x == root ||
    (x < |objs| && objs[x].parent.Some? && objs[x].parent.value < x &&
     IsDescendant(objs, objs[x].parent.value, root))
  }

  /** Two scenes with the same objects, names and hierarchy. */
  predicate SameShape(a: seq<GameObject>, b: seq<GameObject>) {
    |a| == |b| && forall x :: 0 <= x < |a| ==> a[x].name == b[x].name && a[x].parent == b[x].parent
  }

  /** The hierarchy is all `IsDescendant` looks at. */
  lemma {:induction false} DescendantFrame(a: seq<GameObject>, b: seq<GameObject>, x: nat, root: nat)
    requires SameShape(a, b)
    ensures IsDescendant(a, x, root) == IsDescendant(b, x, root)
    decreases x
  {
    if x != root && x < |a| && a[x].parent.Some? && a[x].parent.value < x {
      DescendantFrame(a, b, a[x].parent.value, root);
    }
  }

  /** The index of the first element satisfying `p`: `GameObject.Find` and `GetComponent<T>`. */
  function First<T>(s: seq<T>, p: T -> bool): (r: Option<nat>)
    ensures r.Some? ==> r.value < |s| && p(s[r.value]) && forall k :: 0 <= k < r.value ==> !p(s[k])
    ensures r.None? ==> forall k :: 0 <= k < |s| ==> !p(s[k])
  {
    if s == [] then None
    else if p(s[0]) then Some(0)
    else match First(s[1..], p)
      case None => None
      case Some(i) => Some(i + 1)
  }

  /** Any index that is the first where `p` holds is what `First` returns. */
  lemma FirstAt<T>(s: seq<T>, p: T -> bool, r: Option<nat>)
    requires r.Some? ==> r.value < |s| && p(s[r.value]) && forall k :: 0 <= k < r.value ==> !p(s[k])
    requires r.None? ==> forall k :: 0 <= k < |s| ==> !p(s[k])
    ensures First(s, p) == r
  {
  }

  /** `GameObject.Find(name)`: the first object with exactly that name, or null. */
  function Find(objs: seq<GameObject>, name: string): Option<nat> {
    First(objs, (o: GameObject) => o.name == name)
  }

  /** Two scenes whose objects carry the same names agree on every `Find`. */
  lemma FindFrame(a: seq<GameObject>, b: seq<GameObject>, name: string)
    requires SameShape(a, b)
    ensures Find(a, name) == Find(b, name)
  {
    var ra, rb := Find(a, name), Find(b, name);
    if ra.Some? && rb.Some? {
      assert !(ra.value < rb.value) by { assert a[ra.value].name == b[ra.value].name; }
      assert !(rb.value < ra.value) by { assert a[rb.value].name == b[rb.value].name; }
    }
  }

  /** The indices of the elements satisfying `p`, in order: a filter over a scan. */
  function Select<T>(s: seq<T>, p: T -> bool): (r: seq<nat>)
    ensures forall k :: 0 <= k < |r| ==> r[k] < |s| && p(s[r[k]])
    ensures forall x :: 0 <= x < |s| && p(s[x]) ==> x in r
    ensures forall k, l :: 0 <= k < l < |r| ==> r[k] < r[l]
  {
    if s == [] then []
    else
      var n := |s| - 1;
      Select(s[..n], p) + (if p(s[n]) then [n] else [])
  }

  /** Filters that agree element by element select the same indices. */
  lemma {:induction false} SelectFrame<T, U>(a: seq<T>, p: T -> bool, b: seq<U>, q: U -> bool)
    requires |a| == |b| && forall x :: 0 <= x < |a| ==> p(a[x]) == q(b[x])
    ensures Select(a, p) == Select(b, q)
  {
    if a != [] {
      var n := |a| - 1;
      SelectFrame(a[..n], p, b[..n], q);
    }
  }

  /** The number of elements satisfying `p`. */
  function Count<T>(s: seq<T>, p: T -> bool): nat {
    if s == [] then 0 else Count(s[..|s| - 1], p) + (if p(s[|s| - 1]) then 1 else 0)
  }

  lemma {:induction false} CountAppend<T>(a: seq<T>, b: seq<T>, p: T -> bool)
    ensures Count(a + b, p) == Count(a, p) + Count(b, p)
    decreases |b|
  {
    if b != [] {
      var n := |b| - 1;
      assert (a + b)[..|a + b| - 1] == a + b[..n];
      CountAppend(a, b[..n], p);
    } else {
      assert a + b == a;
    }
  }

  lemma CountPair<T>(a: T, b: T, p: T -> bool)
    ensures Count([a, b], p) == (if p(a) then 1 else 0) + (if p(b) then 1 else 0)
  {
    assert [a, b][..1] == [a];
    assert [a][..0] == [];
    assert Count([a], p) == (if p(a) then 1 else 0);
  }

  /** Filters that agree element by element count the same. */
  lemma {:induction false} CountFrame<T, U>(a: seq<T>, p: T -> bool, b: seq<U>, q: U -> bool)
    requires |a| == |b| && forall x :: 0 <= x < |a| ==> p(a[x]) == q(b[x])
    ensures Count(a, p) == Count(b, q)
  {
    if a != [] {
      var n := |a| - 1;
      CountFrame(a[..n], p, b[..n], q);
    }
  }

  /** How many objects carry exactly this name. */
  function CountNamed(objs: seq<GameObject>, name: string): nat {
    Count(objs, (o: GameObject) => o.name == name)
  }

  /** The sum of `f` over a scene. */
  function Sum(objs: seq<GameObject>, f: GameObject -> nat): nat {
    if objs == [] then 0 else Sum(objs[..|objs| - 1], f) + f(objs[|objs| - 1])
  }

  /** A sequence of indices as a sequence of non-null references. */
  function Refs(s: seq<nat>): seq<Option<nat>> {
    seq(|s|, k requires 0 <= k < |s| => Some(s[k]))
  }

  /** A behaviour slot holds a component, that is, `comp != null`. */
  predicate Present(b: Option<Behaviour>) {
    b.Some?
  }

  /** Every present behaviour switched on: `comp.enabled = true` over a component list. */
  function EnableAll(bs: seq<Option<Behaviour>>): (r: seq<Option<Behaviour>>)
    ensures |r| == |bs|
    ensures forall k :: 0 <= k < |bs| ==> r[k].Some? == bs[k].Some?
    ensures forall k :: 0 <= k < |bs| && bs[k].Some? ==> r[k].value.enabled && r[k].value.kind == bs[k].value.kind
  {
    seq(|bs|, k requires 0 <= k < |bs| =>
      match bs[k]
      case Some(b) => Some(b.(enabled := true))
      case None => None)
  }

  lemma EnableAllIdempotent(bs: seq<Option<Behaviour>>)
    ensures EnableAll(EnableAll(bs)) == EnableAll(bs)
  {
  }

  /** `renderer.enabled = true` when the object has a renderer. */
  function ShowRenderer(o: GameObject): GameObject {
    o.(renderer := if o.renderer.Some? then Some(true) else None)
  }

  /** Switches every present behaviour of object `x` on and returns how many there were. */
  method EnableBehavioursOf(scene: Scene, x: nat) returns (count: nat)
    requires x < |scene.objects|
    modifies scene
    ensures scene.objects == old(scene.objects)[x := old(scene.objects)[x].(behaviours := EnableAll(old(scene.objects)[x].behaviours))]
    ensures count == Count(old(scene.objects)[x].behaviours, Present)
  {
    var bs := scene.objects[x].behaviours;
    var current := bs;
    count := 0;
    for k := 0 to |bs|
      invariant |current| == |bs|
      invariant forall j :: 0 <= j < |bs| ==> current[j] == if j < k then EnableAll(bs)[j] else bs[j]
      invariant count == Count(bs[..k], Present)
    {
      assert bs[..k + 1][..k] == bs[..k];
      if current[k].Some? {
        current := current[k := Some(current[k].value.(enabled := true))];
        count := count + 1;
      }
    }
    assert bs[..|bs|] == bs;
    assert current == EnableAll(bs);
    scene.objects := scene.objects[x := scene.objects[x].(behaviours := current)];
  }

  /** The open scene(s); the editor tools and the behaviours change its objects in place. */
  class Scene {
    var objects: seq<GameObject>

    ghost predicate Valid()
      reads this
    {
      WellFormed(objects)
    }
  }

  /** The two `EditorPrefs` keys the tools use. */
  class EditorPrefs {
    var autoMergeDone: bool                   // "DJ_Venue_AutoMerge_Done"; GetBool's default false when unset
    var installedClientPath: Option<string>   // "VRC_installedClientPath"; None when unset
  }

  /** A reference into a scene loaded after `offset` others; null stays null. */
  function ShiftRef(ref: Option<nat>, offset: nat): (r: Option<nat>)
    ensures r.Some? == ref.Some? && (ref.Some? ==> r.value == ref.value + offset)
  {
    match ref
    case None => None
    case Some(i) => Some(i + offset)
  }

  /** A component's kind with the references it holds moved by `offset`; other kinds hold none. */
  function ShiftKind(k: Kind, offset: nat): (r: Kind)
    ensures TypeName(r) == TypeName(k)
    ensures k.MirrorController? ==> r == MirrorController(ShiftRef(k.mirror, offset))
    ensures k.LightController? ==>
      r.LightController? && |r.lightsToToggle| == |k.lightsToToggle| &&
      forall i :: 0 <= i < |k.lightsToToggle| ==> r.lightsToToggle[i] == ShiftRef(k.lightsToToggle[i], offset)
    ensures !k.MirrorController? && !k.LightController? ==> r == k
  {
    match k
    case MirrorController(m) => MirrorController(ShiftRef(m, offset))
    case LightController(ts) => LightController(seq(|ts|, i requires 0 <= i < |ts| => ShiftRef(ts[i], offset)))
    case _ => k
  }

  function ShiftBehaviour(b: Option<Behaviour>, offset: nat): Option<Behaviour> {
    match b
    case None => None
    case Some(c) => Some(c.(kind := ShiftKind(c.kind, offset)))
  }

  /**
   * An object of a scene loaded after `offset` others: every reference it holds moves by
   * `offset`; its name, renderer, lights, colliders and each component's presence, type and
   * `enabled` flag are kept.
   */
  function Shift(o: GameObject, offset: nat): (r: GameObject)
    ensures r == o.(parent := r.parent, behaviours := r.behaviours)
    ensures o.parent.None? ==> r.parent.None?
    ensures o.parent.Some? ==> r.parent == Some(o.parent.value + offset)
    ensures |r.behaviours| == |o.behaviours|
    ensures forall k :: 0 <= k < |o.behaviours| ==>
      r.behaviours[k].Some? == o.behaviours[k].Some? &&
      (o.behaviours[k].Some? ==>
        r.behaviours[k].value.enabled == o.behaviours[k].value.enabled &&
        TypeName(r.behaviours[k].value.kind) == TypeName(o.behaviours[k].value.kind) &&
        r.behaviours[k].value.kind == ShiftKind(o.behaviours[k].value.kind, offset))
  {
    o.(parent := ShiftRef(o.parent, offset),
       behaviours := seq(|o.behaviours|, k requires 0 <= k < |o.behaviours| => ShiftBehaviour(o.behaviours[k], offset)))
  }

  /** `OpenScene(path, OpenSceneMode.Additive)` and `InstantiatePrefab`: `b`'s objects join after `a`'s. */
  function Append(a: seq<GameObject>, b: seq<GameObject>): (r: seq<GameObject>)
    ensures |r| == |a| + |b| && r[..|a|] == a
    ensures forall k :: 0 <= k < |b| ==> r[|a| + k] == Shift(b[k], |a|)
    ensures forall k :: 0 <= k < |b| ==> r[|a| + k].name == b[k].name
    ensures WellFormed(a) && WellFormed(b) ==> WellFormed(r)
  {
    a + seq(|b|, k requires 0 <= k < |b| => Shift(b[k], |a|))
  }
}
