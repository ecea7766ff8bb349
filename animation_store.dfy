/** The animation registry of src/store/animationStore.ts: a list of
    registered timelines that only grows, in registration order, until it is
    cleared. The target element and the timeline are named by strings. */
module AnimationStore {
  import opened Wrappers

  /** The optional placement settings of a registration. */
  datatype RegistrationConfig = RegistrationConfig(
    start: Option<string>, end: Option<string>, startOffset: Option<string>,
    overlap: Option<real>, priority: Option<real>)

  datatype AnimationRegistration = AnimationRegistration(
    target: string, animation: string, config: Option<RegistrationConfig>)

  datatype AnimationState = AnimationState(animations: seq<AnimationRegistration>)

  /** The store's initial state. */
  function InitialState(): (s: AnimationState)
    ensures |s.animations| == 0
  {
    AnimationState([])
  }

  /** `registerAnimation(registration)`: appended after every earlier one. */
  function RegisterAnimation(state: AnimationState, registration: AnimationRegistration): (r: AnimationState)
    ensures |r.animations| == |state.animations| + 1
    ensures r.animations[|state.animations|] == registration
    ensures r.animations[..|state.animations|] == state.animations
  {
    AnimationState(state.animations + [registration])
  }

  /** `clearAnimations()`. */
  function ClearAnimations(state: AnimationState): (r: AnimationState)
    ensures |r.animations| == 0
  {
    AnimationState([])
  }

  lemma ClearIdempotent(state: AnimationState)
    ensures ClearAnimations(ClearAnimations(state)) == ClearAnimations(state)
    ensures ClearAnimations(state) == InitialState()
  {
  }

  /** Registering a list one after the other. */
  function RegisterAll(state: AnimationState, registrations: seq<AnimationRegistration>): AnimationState
    decreases |registrations|
  {
    if registrations == [] then state
    else RegisterAll(RegisterAnimation(state, registrations[0]), registrations[1..])
  }

  /** The registry holds the earlier registrations followed by the new ones,
      in the order they were made. */
  lemma {:induction false} RegisterAllAppends(state: AnimationState, registrations: seq<AnimationRegistration>)
    ensures RegisterAll(state, registrations).animations == state.animations + registrations
    decreases |registrations|
  {
    if registrations == [] {
      assert state.animations + registrations == state.animations;
    } else {
      var next := RegisterAnimation(state, registrations[0]);
      RegisterAllAppends(next, registrations[1..]);
      assert next.animations == state.animations + [registrations[0]];
      assert [registrations[0]] + registrations[1..] == registrations;
      assert state.animations + [registrations[0]] + registrations[1..] == state.animations + registrations;
    }
  }

  /** From the initial state, the registry is exactly the registrations. */
  lemma RegistryIsRegistrationOrder(registrations: seq<AnimationRegistration>)
    ensures RegisterAll(InitialState(), registrations).animations == registrations
  {
    RegisterAllAppends(InitialState(), registrations);
  }
}
