/**
 * The menu command `SetupInteractiveButtons`: finds the two mirror buttons and the light
 * toggle button by name, gives each a BoxCollider and its controller behaviour, points the
 * mirror buttons at the mirror and the toggle button at every light, and sets the
 * UdonBehaviour's interact text.
 */
module InteractiveButtons {
  import opened Unity
  import opened Names
  import opened Text
  import opened LightToggle

  predicate IsMirrorControllerSlot(b: Option<Behaviour>) {
    b.Some? && b.value.kind.MirrorController?
  }

  predicate IsLightControllerSlot(b: Option<Behaviour>) {
    b.Some? && b.value.kind.LightController?
  }

  predicate IsUdonSlot(b: Option<Behaviour>) {
    b.Some? && b.value.kind.Udon?
  }

  /** `GetComponent<BoxCollider>()`, adding one when there is none. */
  function WithCollider(o: GameObject): (r: GameObject)
    ensures r.boxColliders >= 1
    ensures o.boxColliders >= 1 ==> r == o
    ensures r == o.(boxColliders := r.boxColliders) && r.boxColliders <= o.boxColliders + 1
  {
    if o.boxColliders == 0 then o.(boxColliders := 1) else o
  }

  /**
   * `GetComponent<T>()`, adding `extra` when the list has no `T`: the list afterwards and the
   * slot a later `GetComponent<T>()` finds.
   */
  function GetOrAdd(bs: seq<Option<Behaviour>>, p: Option<Behaviour> -> bool, extra: Behaviour)
    : (r: (seq<Option<Behaviour>>, nat))
    requires p(Some(extra))
    ensures First(r.0, p) == Some(r.1)
    ensures First(bs, p).Some? ==> r.0 == bs
    ensures First(bs, p).None? ==> r.0 == bs + [Some(extra)]
  {
    match First(bs, p)
    case Some(k) => (bs, k)
    case None =>
      var added := bs + [Some(extra)];
      FirstAt(added, p, Some(|bs|));
      (added, |bs|)
  }

  /** Changing one slot, or adding one, where `p` fails leaves the first `p` where it was. */
  lemma FirstUnchangedOutside(a: seq<Option<Behaviour>>, b: seq<Option<Behaviour>>, p: Option<Behaviour> -> bool, k: nat)
    requires |a| <= |b| <= |a| + 1 && k < |b|
    requires forall j :: 0 <= j < |b| && j != k ==> j < |a| && b[j] == a[j]
    requires !p(b[k]) && (k < |a| ==> !p(a[k]))
    ensures First(b, p) == First(a, p)
  {
    FirstAt(b, p, First(a, p));
  }

  /** The first UdonBehaviour's `interactText` set to `text`, when there is one. */
  function SetUdonText(bs: seq<Option<Behaviour>>, text: string): (r: seq<Option<Behaviour>>)
    ensures |r| == |bs|
    ensures First(bs, IsUdonSlot).None? ==> r == bs
    ensures First(bs, IsUdonSlot).Some? ==>
      var u := First(bs, IsUdonSlot).value;
      (forall j :: 0 <= j < |bs| && j != u ==> r[j] == bs[j]) &&
      r[u] == Some(Behaviour(Udon(text), bs[u].value.enabled))
  {
    match First(bs, IsUdonSlot)
    case None => bs
    case Some(u) => bs[u := Some(bs[u].value.(kind := Udon(text)))]
  }

  /** What `SetupUdonInteract(obj, methodName)` says on the button. */
  function InteractText(methodName: string): string {
    "Click to " + methodName
  }

  /** The first `T` on the object: what a later `GetComponent<T>()` returns. */
  function Controller(o: GameObject, p: Option<Behaviour> -> bool): Option<Behaviour> {
    match First(o.behaviours, p)
    case None => None
    case Some(k) => o.behaviours[k]
  }

  /** `GetComponent<MirrorQualityController>()` or a new one, its `mirror` set when `mirror` is not null. */
  function AddMirrorController(bs: seq<Option<Behaviour>>, mirror: Option<nat>): (r: (seq<Option<Behaviour>>, nat))
    ensures First(r.0, IsMirrorControllerSlot) == Some(r.1)
    ensures |bs| <= |r.0| <= |bs| + 1 && r.1 < |r.0|
    ensures forall j :: 0 <= j < |r.0| && j != r.1 ==> j < |bs| && r.0[j] == bs[j]
    ensures First(bs, IsMirrorControllerSlot).Some? ==>
      r.1 == First(bs, IsMirrorControllerSlot).value && r.0[r.1].value.enabled == bs[r.1].value.enabled
    ensures First(bs, IsMirrorControllerSlot).None? ==>
      r.1 == |bs| && r.0[r.1] == Some(Behaviour(MirrorController(mirror), true))
    ensures mirror.Some? ==> r.0[r.1].value.kind.mirror == mirror
    ensures mirror.None? && First(bs, IsMirrorControllerSlot).Some? ==> r.0 == bs
    ensures mirror.None? && First(bs, IsMirrorControllerSlot).None? ==>
      r.0 == bs + [Some(Behaviour(MirrorController(None), true))]
  {
    var added := GetOrAdd(bs, IsMirrorControllerSlot, Behaviour(MirrorController(None), true));
    var k := added.1;
    if mirror.Some? then
      var w := added.0[k := Some(added.0[k].value.(kind := MirrorController(mirror)))];
      FirstAt(w, IsMirrorControllerSlot, Some(k));
      (w, k)
    else added
  }

  /** `GetComponent<LightToggleController>()` or a new one, its `lightsToToggle` set to `lights`. */
  function AddLightController(bs: seq<Option<Behaviour>>, lights: seq<nat>): (r: (seq<Option<Behaviour>>, nat))
    ensures First(r.0, IsLightControllerSlot) == Some(r.1)
    ensures |bs| <= |r.0| <= |bs| + 1 && r.1 < |r.0|
    ensures forall j :: 0 <= j < |r.0| && j != r.1 ==> j < |bs| && r.0[j] == bs[j]
    ensures First(bs, IsLightControllerSlot).Some? ==>
      r.1 == First(bs, IsLightControllerSlot).value && r.0[r.1].value.enabled == bs[r.1].value.enabled
    ensures First(bs, IsLightControllerSlot).None? ==>
      r.1 == |bs| && r.0[r.1] == Some(Behaviour(LightController(Refs(lights)), true))
    ensures r.0[r.1].value.kind.lightsToToggle == Refs(lights)
  {
    var added := GetOrAdd(bs, IsLightControllerSlot, Behaviour(LightController([]), true));
    var k := added.1;
    var w := added.0[k := Some(added.0[k].value.(kind := LightController(Refs(lights))))];
    FirstAt(w, IsLightControllerSlot, Some(k));
    (w, k)
  }

  /** `SetupMirrorButton(button, mirror, methodName)` on one object. */
  function WireMirrorButton(o: GameObject, mirror: Option<nat>, methodName: string): (r: GameObject)
    ensures r == o.(boxColliders := r.boxColliders, behaviours := r.behaviours)
  {
    var o1 := WithCollider(o);
    o1.(behaviours := SetUdonText(AddMirrorController(o1.behaviours, mirror).0, InteractText(methodName)))
  }

  /** `SetupLightToggleButton(button)` on one object, given the light list it collected. */
  function WireLightButton(o: GameObject, lights: seq<nat>): (r: GameObject)
    ensures r == o.(boxColliders := r.boxColliders, behaviours := r.behaviours)
  {
    var o1 := WithCollider(o);
    o1.(behaviours := SetUdonText(AddLightController(o1.behaviours, lights).0, InteractText("ToggleLights")))
  }

  /**
   * A wired mirror button has a collider and a MirrorQualityController, pointed at the mirror
   * when there is one (an existing controller keeps its reference otherwise), and its
   * UdonBehaviour, if it has one, says "Click to " + the method name.
   */
  lemma MirrorButtonWired(o: GameObject, mirror: Option<nat>, methodName: string)
    ensures var r := WireMirrorButton(o, mirror, methodName);
      r.boxColliders >= 1 && (o.boxColliders >= 1 ==> r.boxColliders == o.boxColliders) &&
      Controller(r, IsMirrorControllerSlot).Some? &&
      (mirror.Some? ==> Controller(r, IsMirrorControllerSlot).value.kind.mirror == mirror) &&
      (mirror.None? && Controller(o, IsMirrorControllerSlot).Some? ==>
        Controller(r, IsMirrorControllerSlot) == Controller(o, IsMirrorControllerSlot)) &&
      (Controller(r, IsUdonSlot).Some? <==> Controller(o, IsUdonSlot).Some?) &&
      (Controller(r, IsUdonSlot).Some? ==> Controller(r, IsUdonSlot).value.kind == Udon(InteractText(methodName)))
  {
    var r := WireMirrorButton(o, mirror, methodName);
    var c := AddMirrorController(o.behaviours, mirror);
    var k := c.1;
    FirstUnchangedOutside(o.behaviours, c.0, IsUdonSlot, k);
    var u := First(c.0, IsUdonSlot);
    if u.Some? {
      FirstUnchangedOutside(c.0, r.behaviours, IsMirrorControllerSlot, u.value);
      FirstAt(r.behaviours, IsUdonSlot, u);
    } else {
      assert r.behaviours == c.0;
    }
  }

  /**
   * A wired toggle button has a collider and a LightToggleController whose target list is
   * exactly the collected lights, and its UdonBehaviour, if any, says "Click to ToggleLights".
   */
  lemma LightButtonWired(o: GameObject, lights: seq<nat>)
    ensures var r := WireLightButton(o, lights);
      r.boxColliders >= 1 && (o.boxColliders >= 1 ==> r.boxColliders == o.boxColliders) &&
      Controller(r, IsLightControllerSlot).Some? &&
      Controller(r, IsLightControllerSlot).value.kind.lightsToToggle == Refs(lights) &&
      (Controller(r, IsUdonSlot).Some? <==> Controller(o, IsUdonSlot).Some?) &&
      (Controller(r, IsUdonSlot).Some? ==> Controller(r, IsUdonSlot).value.kind == Udon(InteractText("ToggleLights")))
  {
    var r := WireLightButton(o, lights);
    var c := AddLightController(o.behaviours, lights);
    var k := c.1;
    FirstUnchangedOutside(o.behaviours, c.0, IsUdonSlot, k);
    var u := First(c.0, IsUdonSlot);
    if u.Some? {
      FirstUnchangedOutside(c.0, r.behaviours, IsLightControllerSlot, u.value);
      FirstAt(r.behaviours, IsUdonSlot, u);
    } else {
      assert r.behaviours == c.0;
    }
  }

  /** A second run on the same button adds no second collider or controller and changes nothing. */
  lemma {:induction false} WireMirrorButtonIdempotent(o: GameObject, mirror: Option<nat>, methodName: string)
    ensures WireMirrorButton(WireMirrorButton(o, mirror, methodName), mirror, methodName) ==
            WireMirrorButton(o, mirror, methodName)
  {
    MirrorButtonWired(o, mirror, methodName);
    var once := WireMirrorButton(o, mirror, methodName);
    var bs := once.behaviours;
    var k := First(bs, IsMirrorControllerSlot).value;
    if mirror.Some? {
      assert bs[k := Some(bs[k].value.(kind := MirrorController(mirror)))] == bs;
    }
    assert AddMirrorController(bs, mirror).0 == bs;
    var u := First(bs, IsUdonSlot);
    if u.Some? {
      assert bs[u.value := Some(bs[u.value].value.(kind := Udon(InteractText(methodName))))] == bs;
    }
  }

  lemma {:induction false} WireLightButtonIdempotent(o: GameObject, lights: seq<nat>)
    ensures WireLightButton(WireLightButton(o, lights), lights) == WireLightButton(o, lights)
  {
    LightButtonWired(o, lights);
    var once := WireLightButton(o, lights);
    var bs := once.behaviours;
    var k := First(bs, IsLightControllerSlot).value;
    assert bs[k := Some(bs[k].value.(kind := LightController(Refs(lights))))] == bs;
    assert AddLightController(bs, lights).0 == bs;
    var u := First(bs, IsUdonSlot);
    if u.Some? {
      assert bs[u.value := Some(bs[u.value].value.(kind := Udon(InteractText("ToggleLights"))))] == bs;
    }
  }

  /** `b` is `a` with at most the colliders and behaviours of some objects changed. */
  predicate SameButParts(a: seq<GameObject>, b: seq<GameObject>) {
    |a| == |b| &&
    forall x :: 0 <= x < |a| ==> b[x] == a[x].(boxColliders := b[x].boxColliders, behaviours := b[x].behaviours)
  }

  lemma SameButPartsFrame(a: seq<GameObject>, b: seq<GameObject>)
    requires SameButParts(a, b)
    ensures SameShape(a, b)
    ensures Select(a, IsWiredLight) == Select(b, IsWiredLight)
  {
    SelectFrame(a, IsWiredLight, b, IsWiredLight);
  }

  /** One mirror button wired, when the name search found it. */
  function WireMirrorAt(objs: seq<GameObject>, at: Option<nat>, mirror: Option<nat>, methodName: string): (r: seq<GameObject>)
    requires at.Some? ==> at.value < |objs|
    ensures SameButParts(objs, r)
    ensures forall x :: 0 <= x < |objs| && Some(x) != at ==> r[x] == objs[x]
  {
    if at.Some? then objs[at.value := WireMirrorButton(objs[at.value], mirror, methodName)] else objs
  }

  /** The toggle button at `at`, when the name search found one, wired with the scene's lights. */
  function WireLightAt(objs: seq<GameObject>, at: Option<nat>): (r: seq<GameObject>)
    requires at.Some? ==> at.value < |objs|
    ensures SameButParts(objs, r)
    ensures forall x :: 0 <= x < |objs| && Some(x) != at ==> r[x] == objs[x]
  {
    if at.Some? then objs[at.value := WireLightButton(objs[at.value], Select(objs, IsWiredLight))] else objs
  }

  /** The scene after both mirror buttons, before the toggle button. */
  function MirrorButtonsWired(objs: seq<GameObject>): (r: seq<GameObject>)
    ensures SameButParts(objs, r)
  {
    var mirror := Find(objs, "Mirror");
    var s1 := WireMirrorAt(objs, Find(objs, "HighQualityButton"), mirror, "SetHighQuality");
    WireMirrorAt(s1, Find(objs, "LowQualityButton"), mirror, "SetLowQuality")
  }

  /** The scene after `SetupButtons` went past its dialog. */
  function SetupAll(objs: seq<GameObject>): (r: seq<GameObject>)
    ensures SameButParts(objs, r)
  {
    var s2 := MirrorButtonsWired(objs);
    WireLightAt(s2, Find(objs, "LightToggleButton"))
  }

  /** How many of the three buttons the name search found: `setupCount`. */
  function ButtonsFound(objs: seq<GameObject>): (r: nat)
    ensures r <= 3
    ensures r == 0 <==> Find(objs, "HighQualityButton").None? && Find(objs, "LowQualityButton").None? &&
                        Find(objs, "LightToggleButton").None?
    ensures r == 3 <==> Find(objs, "HighQualityButton").Some? && Find(objs, "LowQualityButton").Some? &&
                        Find(objs, "LightToggleButton").Some?
  {
    (if Find(objs, "HighQualityButton").Some? then 1 else 0) +
    (if Find(objs, "LowQualityButton").Some? then 1 else 0) +
    (if Find(objs, "LightToggleButton").Some? then 1 else 0)
  }

  /** The name searches see the same objects before and after any wiring. */
  lemma FindsAgree(a: seq<GameObject>, b: seq<GameObject>)
    requires SameButParts(a, b)
    ensures Find(a, "Mirror") == Find(b, "Mirror")
    ensures Find(a, "HighQualityButton") == Find(b, "HighQualityButton")
    ensures Find(a, "LowQualityButton") == Find(b, "LowQualityButton")
    ensures Find(a, "LightToggleButton") == Find(b, "LightToggleButton")
  {
    FindFrame(a, b, "Mirror");
    FindFrame(a, b, "HighQualityButton");
    FindFrame(a, b, "LowQualityButton");
    FindFrame(a, b, "LightToggleButton");
  }

  /** The three name searches of `SetupButtons` find three different objects. */
  lemma ButtonsDistinct(objs: seq<GameObject>)
    ensures var high, low, toggle := Find(objs, "HighQualityButton"), Find(objs, "LowQualityButton"), Find(objs, "LightToggleButton");
      (high.Some? && low.Some? ==> high.value != low.value) &&
      (high.Some? && toggle.Some? ==> high.value != toggle.value) &&
      (low.Some? && toggle.Some? ==> low.value != toggle.value)
  {
  }

  /**
   * Each button the name search finds is wired for its role, the high and low buttons with
   * "SetHighQuality" and "SetLowQuality" and the toggle button with the lights of the scene.
   */
  lemma SetupAllWiresEachButton(objs: seq<GameObject>)
    ensures var r, mirror := SetupAll(objs), Find(objs, "Mirror");
      var high, low, toggle := Find(objs, "HighQualityButton"), Find(objs, "LowQualityButton"), Find(objs, "LightToggleButton");
      (high.Some? ==> r[high.value] == WireMirrorButton(objs[high.value], mirror, "SetHighQuality")) &&
      (low.Some? ==> r[low.value] == WireMirrorButton(objs[low.value], mirror, "SetLowQuality")) &&
      (toggle.Some? ==> r[toggle.value] == WireLightButton(objs[toggle.value], Select(objs, IsWiredLight)))
  {
    var mirror := Find(objs, "Mirror");
    var high, low, toggle := Find(objs, "HighQualityButton"), Find(objs, "LowQualityButton"), Find(objs, "LightToggleButton");
    ButtonsDistinct(objs);
    var s1 := WireMirrorAt(objs, high, mirror, "SetHighQuality");
    var s2 := WireMirrorAt(s1, low, mirror, "SetLowQuality");
    assert s2 == MirrorButtonsWired(objs);
    assert low.Some? ==> s1[low.value] == objs[low.value];
    assert toggle.Some? ==> s2[toggle.value] == objs[toggle.value];
    SameButPartsFrame(objs, s2);
  }

  /** Every object other than the three buttons is left as it was. */
  lemma SetupAllLeavesTheRest(objs: seq<GameObject>)
    ensures var high, low, toggle := Find(objs, "HighQualityButton"), Find(objs, "LowQualityButton"), Find(objs, "LightToggleButton");
      forall x :: 0 <= x < |objs| && Some(x) != high && Some(x) != low && Some(x) != toggle ==> SetupAll(objs)[x] == objs[x]
  {
    var mirror := Find(objs, "Mirror");
    var high, low, toggle := Find(objs, "HighQualityButton"), Find(objs, "LowQualityButton"), Find(objs, "LightToggleButton");
    var s1 := WireMirrorAt(objs, high, mirror, "SetHighQuality");
    var s2 := WireMirrorAt(s1, low, mirror, "SetLowQuality");
    assert s2 == MirrorButtonsWired(objs);
    var r := SetupAll(objs);
    forall x | 0 <= x < |objs| && Some(x) != high && Some(x) != low && Some(x) != toggle
      ensures r[x] == objs[x]
    {
      assert r[x] == s2[x];
    }
  }

  /** A second run leaves the high-quality button as the first run wired it. */
  lemma HighButtonStable(objs: seq<GameObject>, h: nat)
    requires Find(objs, "HighQualityButton") == Some(h)
    ensures h < |SetupAll(objs)| && SetupAll(SetupAll(objs))[h] == SetupAll(objs)[h]
  {
    var once := SetupAll(objs);
    FindsAgree(objs, once);
    SetupAllWiresEachButton(objs);
    SetupAllWiresEachButton(once);
    WireMirrorButtonIdempotent(objs[h], Find(objs, "Mirror"), "SetHighQuality");
  }

  /** A second run leaves the low-quality button as the first run wired it. */
  lemma LowButtonStable(objs: seq<GameObject>, l: nat)
    requires Find(objs, "LowQualityButton") == Some(l)
    ensures l < |SetupAll(objs)| && SetupAll(SetupAll(objs))[l] == SetupAll(objs)[l]
  {
    var once := SetupAll(objs);
    FindsAgree(objs, once);
    SetupAllWiresEachButton(objs);
    SetupAllWiresEachButton(once);
    WireMirrorButtonIdempotent(objs[l], Find(objs, "Mirror"), "SetLowQuality");
  }

  /** A second run leaves the toggle button as the first run wired it: the light list is the same. */
  lemma ToggleButtonStable(objs: seq<GameObject>, t: nat)
    requires Find(objs, "LightToggleButton") == Some(t)
    ensures t < |SetupAll(objs)| && SetupAll(SetupAll(objs))[t] == SetupAll(objs)[t]
  {
    var once := SetupAll(objs);
    FindsAgree(objs, once);
    SameButPartsFrame(objs, once);
    SetupAllWiresEachButton(objs);
    SetupAllWiresEachButton(once);
    WireLightButtonIdempotent(objs[t], Select(objs, IsWiredLight));
  }

  /** A second run leaves every object other than the three buttons alone. */
  lemma OthersStable(objs: seq<GameObject>, x: nat)
    requires x < |objs|
    requires Some(x) != Find(objs, "HighQualityButton") && Some(x) != Find(objs, "LowQualityButton")
    requires Some(x) != Find(objs, "LightToggleButton")
    ensures x < |SetupAll(objs)| && SetupAll(SetupAll(objs))[x] == SetupAll(objs)[x]
  {
    var once := SetupAll(objs);
    FindsAgree(objs, once);
    SetupAllLeavesTheRest(objs);
    SetupAllLeavesTheRest(once);
  }

  /** Running the tool a second time changes nothing more. */
  lemma {:induction false} SetupAllIdempotent(objs: seq<GameObject>)
    ensures SetupAll(SetupAll(objs)) == SetupAll(objs)
  {
    var once := SetupAll(objs);
    var twice := SetupAll(once);
    var high := Find(objs, "HighQualityButton");
    var low := Find(objs, "LowQualityButton");
    var toggle := Find(objs, "LightToggleButton");
    forall x | 0 <= x < |objs|
      ensures twice[x] == once[x]
    {
      if Some(x) == high {
        HighButtonStable(objs, x);
      } else if Some(x) == low {
        LowButtonStable(objs, x);
      } else if Some(x) == toggle {
        ToggleButtonStable(objs, x);
      } else {
        OthersStable(objs, x);
      }
    }
  }

  /**
   * The toggle button collects itself and its label: both names contain "Light", so the
   * button's own controller targets every object whose name has that token.
   */
  lemma ToggleButtonTargetsItself(objs: seq<GameObject>, t: nat)
    requires Find(objs, "LightToggleButton") == Some(t)
    ensures Controller(SetupAll(objs)[t], IsLightControllerSlot).Some?
    ensures var targets := Controller(SetupAll(objs)[t], IsLightControllerSlot).value.kind.lightsToToggle;
      Some(t) in targets &&
      forall x :: 0 <= x < |objs| && Contains(objs[x].name, "Light") ==> Some(x) in targets
  {
    var lights := Select(objs, IsWiredLight);
    ToggleButtonLightList(objs, t);
    forall x | 0 <= x < |objs| && Contains(objs[x].name, "Light")
      ensures Some(x) in Refs(lights)
    {
      SelectedIsReferenced(objs, x);
    }
    ToggleNameHasLight();
    SelectedIsReferenced(objs, t);
  }

  /** The button's own name carries the token the light list is built from. */
  lemma ToggleNameHasLight()
    ensures Contains("LightToggleButton", "Light")
  {
    assert "LightToggleButton"[..5] == "Light";
  }

  /** So does the label the merge puts under the button. */
  lemma LabelNameHasLight()
    ensures Contains("LightToggleButton_Label", "Light")
  {
    assert "LightToggleButton_Label"[..5] == "Light";
  }

  /** The toggle button's controller lists every wired light of the scene, in scan order. */
  lemma ToggleButtonLightList(objs: seq<GameObject>, t: nat)
    requires Find(objs, "LightToggleButton") == Some(t)
    ensures t < |SetupAll(objs)| && Controller(SetupAll(objs)[t], IsLightControllerSlot).Some?
    ensures Controller(SetupAll(objs)[t], IsLightControllerSlot).value.kind.lightsToToggle ==
      Refs(Select(objs, IsWiredLight))
  {
    SetupAllWiresEachButton(objs);
    LightButtonWired(objs[t], Select(objs, IsWiredLight));
  }

  /** Every wired light appears in the reference list built from the selection. */
  lemma SelectedIsReferenced(objs: seq<GameObject>, x: nat)
    requires x < |objs| && IsWiredLight(objs[x])
    ensures Some(x) in Refs(Select(objs, IsWiredLight))
  {
    var lights := Select(objs, IsWiredLight);
    var k :| 0 <= k < |lights| && lights[k] == x;
    assert Refs(lights)[k] == Some(x);
  }

  /**
   * Pressed for the first time (`lightsOn` starts true, so the lights go off), the toggle
   * button hides every rendered object whose name has "Light" in it, its own cube and
   * label included.
   */
  lemma FirstToggleHidesTheButton(objs: seq<GameObject>, t: nat)
    requires Find(objs, "LightToggleButton") == Some(t)
    ensures Controller(SetupAll(objs)[t], IsLightControllerSlot).Some?
    ensures var r := SetupAll(objs);
      var after := Lit(r, Controller(r[t], IsLightControllerSlot).value.kind.lightsToToggle, false);
      forall x :: 0 <= x < |objs| && Contains(objs[x].name, "Light") && objs[x].renderer.Some? ==>
        after[x].renderer == Some(false)
    ensures var r := SetupAll(objs);
      var after := Lit(r, Controller(r[t], IsLightControllerSlot).value.kind.lightsToToggle, false);
      (objs[t].renderer.Some? ==> after[t].renderer == Some(false)) &&
      forall x :: 0 <= x < |objs| && objs[x].name == "LightToggleButton_Label" && objs[x].renderer.Some? ==>
        after[x].renderer == Some(false)
  {
    ToggleButtonTargetsItself(objs, t);
    ToggleNameHasLight();
    LabelNameHasLight();
    var r := SetupAll(objs);
    var targets := Controller(r[t], IsLightControllerSlot).value.kind.lightsToToggle;
    forall x | 0 <= x < |objs| && Contains(objs[x].name, "Light") && objs[x].renderer.Some?
      ensures Lit(r, targets, false)[x].renderer == Some(false)
    {
      ListedObjectIsSet(r, targets, x, false);
    }
  }

  /** The scan of `SetupLightToggleButton`: every wired light, in scan order. */
  method CollectLights(objs: seq<GameObject>) returns (lights: seq<nat>)
    ensures lights == Select(objs, IsWiredLight)
    ensures forall x :: 0 <= x < |objs| ==> (x in lights <==> IsWiredLight(objs[x]))
  {
    lights := [];
    for i := 0 to |objs|
      invariant lights == Select(objs[..i], IsWiredLight)
    {
      assert objs[..i + 1][..i] == objs[..i];
      if IsWiredLight(objs[i]) {
        lights := lights + [i];
      }
    }
    assert objs[..|objs|] == objs;
  }

  /**
   * The serialized `lightsToToggle` after `arraySize = lights.Count` and one write per index:
   * whatever the array held before, it ends as the light list.
   */
  method AssignLights(current: seq<Option<nat>>, lights: seq<nat>) returns (prop: seq<Option<nat>>)
    ensures |prop| == |lights|
    ensures forall i :: 0 <= i < |lights| ==> prop[i] == Some(lights[i])
  {
    prop := if |current| >= |lights| then current[..|lights|] else current + seq(|lights| - |current|, _ => None);
    for i := 0 to |lights|
      invariant |prop| == |lights|
      invariant forall j :: 0 <= j < i ==> prop[j] == Some(lights[j])
    {
      prop := prop[i := Some(lights[i])];
    }
  }

  method SetupUdonInteract(scene: Scene, obj: nat, methodName: string)
    requires obj < |scene.objects|
    modifies scene
    ensures scene.objects == old(scene.objects)[obj := old(scene.objects)[obj].(behaviours :=
      SetUdonText(old(scene.objects)[obj].behaviours, InteractText(methodName)))]
  {
    var o := scene.objects[obj];
    var udon := First(o.behaviours, IsUdonSlot);
    if udon.Some? {
      var b := o.behaviours[udon.value].value;
      scene.objects := scene.objects[obj := o.(behaviours := o.behaviours[udon.value := Some(b.(kind := Udon(InteractText(methodName))))])];
    }
  }

  method SetupMirrorButton(scene: Scene, button: nat, mirror: Option<nat>, methodName: string)
    requires button < |scene.objects|
    modifies scene
    ensures scene.objects == old(scene.objects)[button := WireMirrorButton(old(scene.objects)[button], mirror, methodName)]
  {
    var o := WithCollider(scene.objects[button]);
    var controller := First(o.behaviours, IsMirrorControllerSlot);
    if controller.None? {
      o := o.(behaviours := o.behaviours + [Some(Behaviour(MirrorController(None), true))]);
      controller := Some(|o.behaviours| - 1);
    }
    var k := controller.value;
    if mirror.Some? {
      o := o.(behaviours := o.behaviours[k := Some(o.behaviours[k].value.(kind := MirrorController(mirror)))]);
    }
    scene.objects := scene.objects[button := o];
    SetupUdonInteract(scene, button, methodName);
  }

  method SetupLightToggleButton(scene: Scene, button: nat) returns (lightCount: nat)
    requires button < |scene.objects|
    modifies scene
    ensures scene.objects == old(scene.objects)[button := WireLightButton(old(scene.objects)[button], Select(old(scene.objects), IsWiredLight))]
    ensures lightCount == |Select(old(scene.objects), IsWiredLight)|
  {
    var o := WithCollider(scene.objects[button]);
    var controller := First(o.behaviours, IsLightControllerSlot);
    if controller.None? {
      o := o.(behaviours := o.behaviours + [Some(Behaviour(LightController([]), true))]);
      controller := Some(|o.behaviours| - 1);
    }
    var k := controller.value;
    var lights := CollectLights(scene.objects);
    var prop := AssignLights(o.behaviours[k].value.kind.lightsToToggle, lights);
    assert prop == Refs(lights);
    o := o.(behaviours := o.behaviours[k := Some(o.behaviours[k].value.(kind := LightController(prop)))]);
    scene.objects := scene.objects[button := o];
    SetupUdonInteract(scene, button, "ToggleLights");
    lightCount := |lights|;
  }

  /** One mirror button, when the name search found it; returns 1 for a button set up, else 0. */
  method SetupMirrorButtonAt(scene: Scene, at: Option<nat>, mirror: Option<nat>, methodName: string) returns (n: nat)
    requires at.Some? ==> at.value < |scene.objects|
    modifies scene
    ensures scene.objects == WireMirrorAt(old(scene.objects), at, mirror, methodName)
    ensures n == if at.Some? then 1 else 0
  {
    n := 0;
    if at.Some? {
      SetupMirrorButton(scene, at.value, mirror, methodName);
      n := 1;
    }
  }

  /** Both mirror buttons; returns how many were found. */
  method SetupMirrorButtons(scene: Scene) returns (n: nat)
    modifies scene
    ensures scene.objects == MirrorButtonsWired(old(scene.objects))
    ensures n == (if Find(old(scene.objects), "HighQualityButton").Some? then 1 else 0) +
                 (if Find(old(scene.objects), "LowQualityButton").Some? then 1 else 0)
  {
    ghost var objs := scene.objects;
    var mirror := Find(scene.objects, "Mirror");
    var high := Find(scene.objects, "HighQualityButton");
    var low := Find(scene.objects, "LowQualityButton");
    var highCount := SetupMirrorButtonAt(scene, high, mirror, "SetHighQuality");
    assert |scene.objects| == |objs|;
    var lowCount := SetupMirrorButtonAt(scene, low, mirror, "SetLowQuality");
    n := highCount + lowCount;
  }

  /** The toggle button, when the name search found it; returns 1 for a button set up, else 0. */
  method SetupToggleButtonAt(scene: Scene, at: Option<nat>) returns (n: nat)
    requires at.Some? ==> at.value < |scene.objects|
    modifies scene
    ensures scene.objects == WireLightAt(old(scene.objects), at)
    ensures n == if at.Some? then 1 else 0
  {
    n := 0;
    if at.Some? {
      var lightCount := SetupLightToggleButton(scene, at.value);
      n := 1;
    }
  }

  /** The menu command; `confirmed` is the dialog's answer and `None` the cancelled run. */
  method SetupButtons(scene: Scene, confirmed: bool) returns (setupCount: Option<nat>)
    modifies scene
    ensures !confirmed ==> setupCount.None? && scene.objects == old(scene.objects)
    ensures confirmed ==> setupCount == Some(ButtonsFound(old(scene.objects))) && scene.objects == SetupAll(old(scene.objects))
  {
    if !confirmed {
      return None;
    }
    ghost var objs := scene.objects;
    var toggle := Find(scene.objects, "LightToggleButton");
    var mirrorCount := SetupMirrorButtons(scene);
    assert |scene.objects| == |objs|;
    var toggleCount := SetupToggleButtonAt(scene, toggle);
    assert mirrorCount + toggleCount == ButtonsFound(objs) by {
      assert ButtonsFound(objs) == (if Find(objs, "HighQualityButton").Some? then 1 else 0) +
        (if Find(objs, "LowQualityButton").Some? then 1 else 0) + (if toggle.Some? then 1 else 0);
    }
    setupCount := Some(mirrorCount + toggleCount);
  }
}
