/** The view state of the course page: the active tab, the function area and the copy flag. */
module CourseUi {

  /** The three refs of the store as one value. */
  datatype UiState = UiState(activeTab: string, isFunctionAreaExpanded: bool, copyStatus: bool)

  /** The state a fresh store starts in. */
  const InitialUi := UiState("info", false, false)

  // The store operations on values: the specifications of the methods below.

  function SwitchedTo(u: UiState, tab: string): UiState { u.(activeTab := tab) }

  function Toggled(u: UiState): UiState { u.(isFunctionAreaExpanded := !u.isFunctionAreaExpanded) }

  function WithCopyStatus(u: UiState, status: bool): UiState { u.(copyStatus := status) }

  /** Toggling the function area twice restores the state, and the other fields never move. */
  lemma ToggleInvolutive(u: UiState)
    ensures Toggled(Toggled(u)) == u
    ensures Toggled(u) != u
    ensures Toggled(u).activeTab == u.activeTab && Toggled(u).copyStatus == u.copyStatus
  {
  }

  /** Setting the copy status is idempotent: the second call with the same flag changes nothing. */
  lemma SetCopyStatusIdempotent(u: UiState, status: bool)
    ensures WithCopyStatus(WithCopyStatus(u, status), status) == WithCopyStatus(u, status)
    ensures WithCopyStatus(u, status).copyStatus == status
  {
  }

  /** Switching tabs only ever changes the tab: the last switch wins. */
  lemma SwitchTabLastWins(u: UiState, first: string, second: string)
    ensures SwitchedTo(SwitchedTo(u, first), second) == SwitchedTo(u, second)
    ensures SwitchedTo(u, second).activeTab == second
  {
  }

  class CourseUiStore {
    var activeTab: string
    var isFunctionAreaExpanded: bool
    var copyStatus: bool

    function State(): UiState
      reads this
    {
      UiState(activeTab, isFunctionAreaExpanded, copyStatus)
    }

    constructor ()
      ensures State() == InitialUi
    {
      activeTab := "info";
      isFunctionAreaExpanded := false;
      copyStatus := false;
    }

    /** `switchTab(tab)` */
    method SwitchTab(tab: string)
      modifies this
      ensures State() == SwitchedTo(old(State()), tab)
    {
      activeTab := tab;
    }

    /** `toggleFunctionArea()` */
    method ToggleFunctionArea()
      modifies this
      ensures State() == Toggled(old(State()))
    {
      isFunctionAreaExpanded := !isFunctionAreaExpanded;
    }

    /** `setCopyStatus(status)` */
    method SetCopyStatus(status: bool)
      modifies this
      ensures State() == WithCopyStatus(old(State()), status)
    {
      copyStatus := status;
    }
  }
}
