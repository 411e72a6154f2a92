/**
 * The two client-side stores (lib/store.ts): the portfolio store that the
 * scene reads (projects, selection, loading flag, category filter, camera
 * target) and the UI store (menu, theme, sound, performance mode).
 */
module Stores {
  import opened Wrappers
  import opened PortfolioTypes

  /** A camera target `[x, y, z]`. */
  datatype Triple = Triple(x: real, y: real, z: real)

  class PortfolioStore {
    var projects: seq<Project>
    var selectedProject: Option<Project>
    var isLoading: bool
    var filter: string
    var cameraTarget: Triple

    /** The initial state: nothing loaded yet, loading, every category shown, camera at the origin. */
    constructor ()
      ensures projects == [] && selectedProject == None && isLoading
      ensures filter == AllCategories && cameraTarget == Triple(0.0, 0.0, 0.0)
    {
      projects := [];
      selectedProject := None;
      isLoading := true;
      filter := AllCategories;
      cameraTarget := Triple(0.0, 0.0, 0.0);
    }

    method SetProjects(ps: seq<Project>)
      modifies this
      ensures projects == ps
      ensures selectedProject == old(selectedProject) && isLoading == old(isLoading)
      ensures filter == old(filter) && cameraTarget == old(cameraTarget)
    {
      projects := ps;
    }

    method SetSelectedProject(p: Option<Project>)
      modifies this
      ensures selectedProject == p
      ensures projects == old(projects) && isLoading == old(isLoading)
      ensures filter == old(filter) && cameraTarget == old(cameraTarget)
    {
      selectedProject := p;
    }

    method SetIsLoading(loading: bool)
      modifies this
      ensures isLoading == loading
      ensures projects == old(projects) && selectedProject == old(selectedProject)
      ensures filter == old(filter) && cameraTarget == old(cameraTarget)
    {
      isLoading := loading;
    }

    method SetFilter(f: string)
      modifies this
      ensures filter == f
      ensures projects == old(projects) && selectedProject == old(selectedProject)
      ensures isLoading == old(isLoading) && cameraTarget == old(cameraTarget)
    {
      filter := f;
    }

    method SetCameraTarget(target: Triple)
      modifies this
      ensures cameraTarget == target
      ensures projects == old(projects) && selectedProject == old(selectedProject)
      ensures isLoading == old(isLoading) && filter == old(filter)
    {
      cameraTarget := target;
    }
  }

  datatype Theme = Dark | Light

  /** A snapshot of the UI store's state. */
  datatype UIState = UIState(isMenuOpen: bool, theme: Theme, soundEnabled: bool, performanceMode: bool)

  const InitialUI := UIState(false, Dark, false, false)

  /** The update `toggleMenu` hands to `set`. */
  function MenuToggled(s: UIState): (r: UIState)
    ensures r.isMenuOpen != s.isMenuOpen
    ensures r.(isMenuOpen := s.isMenuOpen) == s
  {
    s.(isMenuOpen := !s.isMenuOpen)
  }

  /** The update `toggleSound` hands to `set`. */
  function SoundToggled(s: UIState): (r: UIState)
    ensures r.soundEnabled != s.soundEnabled
    ensures r.(soundEnabled := s.soundEnabled) == s
  {
    s.(soundEnabled := !s.soundEnabled)
  }

  /** The update `togglePerformanceMode` hands to `set`. */
  function PerformanceModeToggled(s: UIState): (r: UIState)
    ensures r.performanceMode != s.performanceMode
    ensures r.(performanceMode := s.performanceMode) == s
  {
    s.(performanceMode := !s.performanceMode)
  }

  /** Toggling twice restores the state, and toggles of different flags commute. */
  lemma TogglesAreInvolutions(s: UIState)
    ensures MenuToggled(MenuToggled(s)) == s
    ensures SoundToggled(SoundToggled(s)) == s
    ensures PerformanceModeToggled(PerformanceModeToggled(s)) == s
    ensures MenuToggled(SoundToggled(s)) == SoundToggled(MenuToggled(s))
    ensures MenuToggled(PerformanceModeToggled(s)) == PerformanceModeToggled(MenuToggled(s))
    ensures SoundToggled(PerformanceModeToggled(s)) == PerformanceModeToggled(SoundToggled(s))
  {
  }

  class UIStore {
    var isMenuOpen: bool
    var theme: Theme
    var soundEnabled: bool
    var performanceMode: bool

    function State(): UIState
      reads this
    {
      UIState(isMenuOpen, theme, soundEnabled, performanceMode)
    }

    /** The initial state: menu closed, dark theme, sound off, full quality. */
    constructor ()
      ensures State() == InitialUI
      ensures !isMenuOpen && theme == Dark && !soundEnabled && !performanceMode
    {
      isMenuOpen := false;
      theme := Dark;
      soundEnabled := false;
      performanceMode := false;
    }

    method ToggleMenu()
      modifies this
      ensures State() == MenuToggled(old(State()))
      ensures isMenuOpen == !old(isMenuOpen)
      ensures theme == old(theme) && soundEnabled == old(soundEnabled) && performanceMode == old(performanceMode)
    {
      isMenuOpen := !isMenuOpen;
    }

    method SetTheme(t: Theme)
      modifies this
      ensures theme == t
      ensures isMenuOpen == old(isMenuOpen) && soundEnabled == old(soundEnabled) && performanceMode == old(performanceMode)
    {
      theme := t;
    }

    method ToggleSound()
      modifies this
      ensures State() == SoundToggled(old(State()))
      ensures soundEnabled == !old(soundEnabled)
      ensures isMenuOpen == old(isMenuOpen) && theme == old(theme) && performanceMode == old(performanceMode)
    {
      soundEnabled := !soundEnabled;
    }

    method TogglePerformanceMode()
      modifies this
      ensures State() == PerformanceModeToggled(old(State()))
      ensures performanceMode == !old(performanceMode)
      ensures isMenuOpen == old(isMenuOpen) && theme == old(theme) && soundEnabled == old(soundEnabled)
    {
      performanceMode := !performanceMode;
    }
  }
}
