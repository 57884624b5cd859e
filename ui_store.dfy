/**
 * src/stores/uiStore.ts: the interface state store (mobile menu, auth
 * modal, sidebar, global loading flag). The store is a class whose setters
 * update its fields; each setter is proved to perform `Apply` of its
 * action on the state before it, and the store's laws are lemmas about
 * `Apply`. Subscriptions and re-renders are not modelled.
 */
module UiStore {

  datatype AuthMode = Login | Signup

  /** The store's data fields at one moment. */
  datatype UiState = UiState(
    mobileMenuOpen: bool,
    authModalOpen: bool,
    authModalMode: AuthMode,
    sidebarOpen: bool,
    globalLoading: bool)

  /** The state the store is created with. */
  const Initial: UiState := UiState(false, false, Login, true, false)

  /** One call of a store setter. */
  datatype UiAction =
    | SetMobileMenuOpen(open: bool)
    | ToggleMobileMenu
    | OpenAuthModal(mode: AuthMode)
    | CloseAuthModal
    | SetSidebarOpen(open: bool)
    | ToggleSidebar
    | SetGlobalLoading(loading: bool)

  /** The partial state each setter merges into the store. */
  function Apply(s: UiState, a: UiAction): UiState {
    match a
    case SetMobileMenuOpen(open) => s.(mobileMenuOpen := open)
    case ToggleMobileMenu => s.(mobileMenuOpen := !s.mobileMenuOpen)
    case OpenAuthModal(mode) => s.(authModalOpen := true, authModalMode := mode)
    case CloseAuthModal => s.(authModalOpen := false)
    case SetSidebarOpen(open) => s.(sidebarOpen := open)
    case ToggleSidebar => s.(sidebarOpen := !s.sidebarOpen)
    case SetGlobalLoading(loading) => s.(globalLoading := loading)
  }

  /** The state after a run of setter calls, first to last. */
  function Run(s: UiState, actions: seq<UiAction>): UiState
    decreases |actions|
  {
    if actions == [] then s else Run(Apply(s, actions[0]), actions[1..])
  }

  /** The part of the state an action writes: menu, auth modal, sidebar or loading flag. */
  function Part(a: UiAction): nat {
    match a
    case SetMobileMenuOpen(_) => 0
    case ToggleMobileMenu => 0
    case OpenAuthModal(_) => 1
    case CloseAuthModal => 1
    case SetSidebarOpen(_) => 2
    case ToggleSidebar => 2
    case SetGlobalLoading(_) => 3
  }

  /** Setters of different parts do not interfere: their order does not matter. */
  lemma DifferentPartsCommute(s: UiState, a: UiAction, b: UiAction)
    requires Part(a) != Part(b)
    ensures Run(s, [a, b]) == Run(s, [b, a])
  {
    assert [a, b][1..] == [b] && [b, a][1..] == [a];
    assert [a][1..] == [] && [b][1..] == [];
  }

  /** A toggle flips its flag and nothing else. */
  lemma ToggleFlips(s: UiState)
    ensures Apply(s, ToggleMobileMenu).mobileMenuOpen == !s.mobileMenuOpen
    ensures Apply(s, ToggleMobileMenu).(mobileMenuOpen := s.mobileMenuOpen) == s
    ensures Apply(s, ToggleSidebar).sidebarOpen == !s.sidebarOpen
    ensures Apply(s, ToggleSidebar).(sidebarOpen := s.sidebarOpen) == s
  {
  }

  /** Toggling twice restores the state. */
  lemma ToggleTwiceRestores(s: UiState)
    ensures Run(s, [ToggleMobileMenu, ToggleMobileMenu]) == s
    ensures Run(s, [ToggleSidebar, ToggleSidebar]) == s
  {
    assert [ToggleMobileMenu, ToggleMobileMenu][1..] == [ToggleMobileMenu];
    assert [ToggleSidebar, ToggleSidebar][1..] == [ToggleSidebar];
    assert [ToggleMobileMenu][1..] == [] && [ToggleSidebar][1..] == [];
  }

  /** Setting a value twice is setting it once; closing the modal twice is closing it once. */
  lemma SettersIdempotent(s: UiState, a: UiAction)
    requires !a.ToggleMobileMenu? && !a.ToggleSidebar?
    ensures Apply(Apply(s, a), a) == Apply(s, a)
  {
  }

  /** Closing the modal keeps its mode: opening and closing changes only the mode. */
  lemma OpenThenCloseKeepsMode(s: UiState, mode: AuthMode)
    ensures Run(s, [OpenAuthModal(mode), CloseAuthModal]) == s.(authModalOpen := false, authModalMode := mode)
  {
    assert [OpenAuthModal(mode), CloseAuthModal][1..] == [CloseAuthModal];
    assert [CloseAuthModal][1..] == [];
  }

  /** The store itself. */
  class Store {
    var isMobileMenuOpen: bool
    var isAuthModalOpen: bool
    var authModalMode: AuthMode
    var isSidebarOpen: bool
    var isGlobalLoading: bool

    function State(): UiState
      reads this
    {
      UiState(isMobileMenuOpen, isAuthModalOpen, authModalMode, isSidebarOpen, isGlobalLoading)
    }

    constructor ()
      ensures State() == Initial
    {
      isMobileMenuOpen := false;
      isAuthModalOpen := false;
      authModalMode := Login;
      isSidebarOpen := true;
      isGlobalLoading := false;
    }

    method SetMobileMenuOpen(open: bool)
      modifies this
      ensures State() == Apply(old(State()), UiAction.SetMobileMenuOpen(open))
    {
      isMobileMenuOpen := open;
    }

    method ToggleMobileMenu()
      modifies this
      ensures State() == Apply(old(State()), UiAction.ToggleMobileMenu)
    {
      isMobileMenuOpen := !isMobileMenuOpen;
    }

    method OpenAuthModal(mode: AuthMode)
      modifies this
      ensures State() == Apply(old(State()), UiAction.OpenAuthModal(mode))
    {
      isAuthModalOpen := true;
      authModalMode := mode;
    }

    method CloseAuthModal()
      modifies this
      ensures State() == Apply(old(State()), UiAction.CloseAuthModal)
    {
      isAuthModalOpen := false;
    }

    method SetSidebarOpen(open: bool)
      modifies this
      ensures State() == Apply(old(State()), UiAction.SetSidebarOpen(open))
    {
      isSidebarOpen := open;
    }

    method ToggleSidebar()
      modifies this
      ensures State() == Apply(old(State()), UiAction.ToggleSidebar)
    {
      isSidebarOpen := !isSidebarOpen;
    }

    method SetGlobalLoading(loading: bool)
      modifies this
      ensures State() == Apply(old(State()), UiAction.SetGlobalLoading(loading))
    {
      isGlobalLoading := loading;
    }
  }
}
