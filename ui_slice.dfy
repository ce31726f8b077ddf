/** The `ui` slice (src/redux/uiSlice.js): two toggles and the search text. */
module UiReducer {

  datatype UiState = UiState(darkMode: bool, searchQuery: string, isSidebar: bool)

  const Initial := UiState(false, "", true)

  function ToggleDarkMode(s: UiState): (r: UiState)
    ensures r.darkMode != s.darkMode
    ensures r.searchQuery == s.searchQuery && r.isSidebar == s.isSidebar
  {
    s.(darkMode := !s.darkMode)
  }

  function SetSearchQuery(s: UiState, query: string): (r: UiState)
    ensures r.searchQuery == query
    ensures r.darkMode == s.darkMode && r.isSidebar == s.isSidebar
  {
    s.(searchQuery := query)
  }

  function ToggleSidebar(s: UiState): (r: UiState)
    ensures r.isSidebar != s.isSidebar
    ensures r.darkMode == s.darkMode && r.searchQuery == s.searchQuery
  {
    s.(isSidebar := !s.isSidebar)
  }

  /** Each toggle undoes itself. */
  lemma TogglesAreInvolutions(s: UiState)
    ensures ToggleDarkMode(ToggleDarkMode(s)) == s
    ensures ToggleSidebar(ToggleSidebar(s)) == s
  {
  }
}

/** The `ui` slice as the store holds it. */
module UiSlice {
  import opened UiReducer

  class UiStore {
    var darkMode: bool
    var searchQuery: string
    var isSidebar: bool

    function State(): UiState
      reads this
    {
      UiState(darkMode, searchQuery, isSidebar)
    }

    constructor ()
      ensures State() == Initial
    {
      darkMode, searchQuery, isSidebar := false, "", true;
    }

    method ToggleDarkMode()
      modifies this
      ensures State() == UiReducer.ToggleDarkMode(old(State()))
    {
      darkMode := !darkMode;
    }

    method SetSearchQuery(query: string)
      modifies this
      ensures State() == UiReducer.SetSearchQuery(old(State()), query)
    {
      searchQuery := query;
    }

    method ToggleSidebar()
      modifies this
      ensures State() == UiReducer.ToggleSidebar(old(State()))
    {
      isSidebar := !isSidebar;
    }
  }
}
