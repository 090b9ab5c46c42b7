/**
 * The name-substring classifiers. Every tool picks its objects by testing whether the name
 * contains one of the literal tokens "VRSL", "Light" or "AudioLink", case-sensitively.
 */
module Names {
  import opened Text
  import opened Unity

  /** The light fix and the AudioLink tool: "VRSL" or "AudioLink" in the name. */
  predicate IsVrslOrAudioLink(o: GameObject) {
    Contains(o.name, "VRSL") || Contains(o.name, "AudioLink")
  }

  /** The DMX tool: "VRSL" in the name. */
  predicate IsVrsl(o: GameObject) {
    Contains(o.name, "VRSL")
  }

  /** The light toggle's auto-discovery in `Start`: any of the three tokens. */
  predicate IsLightObject(o: GameObject) {
    Contains(o.name, "VRSL") || Contains(o.name, "Light") || Contains(o.name, "AudioLink")
  }

  /** The light list of the button setup tool: "AudioLink" objects count only with a Renderer. */
  predicate IsWiredLight(o: GameObject) {
    Contains(o.name, "VRSL") || Contains(o.name, "Light") ||
    (Contains(o.name, "AudioLink") && o.renderer.Some?)
  }

  /** A behaviour whose type name contains "AudioLink" (`comp.GetType().Name.Contains("AudioLink")`). */
  predicate IsAudioLinkBehaviour(b: Option<Behaviour>) {
    b.Some? && Contains(TypeName(b.value.kind), "AudioLink")
  }

  /** Every object the button tool wires as a light is one the behaviour would discover itself. */
  lemma WiredLightsAreDiscoverable(o: GameObject)
    ensures IsWiredLight(o) ==> IsLightObject(o)
  {
  }
}
