/** The application store of src/stores/useAppStore.ts: the current
    section, the loading flag and whether the video is muted. Each action
    sets one field and keeps the others, as the store's merge does. */
module AppStore {
  datatype AppState = AppState(currentSection: string, isLoading: bool, videoMuted: bool)

  /** The store's initial state: on the hero, loading, muted. */
  function InitialState(): (s: AppState)
    ensures s.currentSection == "hero" && s.isLoading && s.videoMuted
  {
    AppState("hero", true, true)
  }

  /** `setCurrentSection(section)`. */
  function SetCurrentSection(state: AppState, section: string): (r: AppState)
    ensures r.currentSection == section
    ensures r.isLoading == state.isLoading && r.videoMuted == state.videoMuted
  {
    state.(currentSection := section)
  }

  /** `setLoading(loading)`. */
  function SetLoading(state: AppState, loading: bool): (r: AppState)
    ensures r.isLoading == loading
    ensures r.currentSection == state.currentSection && r.videoMuted == state.videoMuted
  {
    state.(isLoading := loading)
  }

  /** `toggleVideoMute()`. */
  function ToggleVideoMute(state: AppState): (r: AppState)
    ensures r.videoMuted != state.videoMuted
    ensures r.currentSection == state.currentSection && r.isLoading == state.isLoading
  {
    state.(videoMuted := !state.videoMuted)
  }

  /** Toggling twice restores the state. */
  lemma ToggleTwiceIsIdentity(state: AppState)
    ensures ToggleVideoMute(ToggleVideoMute(state)) == state
  {
  }

  /** Setting a field twice keeps the last value, and actions on different
      fields commute. */
  lemma SettersOverwriteAndCommute(state: AppState, a: string, b: string, l: bool)
    ensures SetCurrentSection(SetCurrentSection(state, a), b) == SetCurrentSection(state, b)
    ensures SetLoading(SetCurrentSection(state, a), l) == SetCurrentSection(SetLoading(state, l), a)
    ensures ToggleVideoMute(SetLoading(state, l)) == SetLoading(ToggleVideoMute(state), l)
    ensures ToggleVideoMute(SetCurrentSection(state, a)) == SetCurrentSection(ToggleVideoMute(state), a)
  {
  }
}
