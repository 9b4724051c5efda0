/** The client-side stores: the monitor store and the UI store, each a set of fields its actions overwrite. */
module Store {
  import opened Base

  class MonitorStore {
    var isPolling: bool
    var lastError: Option<string>

    /** The monitor store starts idle with no error. */
    constructor ()
      ensures !isPolling && lastError.None?
    {
      isPolling := false;
      lastError := None;
    }

    method SetPolling(polling: bool)
      modifies this
      ensures isPolling == polling && lastError == old(lastError)
    {
      isPolling := polling;
    }

    method SetError(error: Option<string>)
      modifies this
      ensures lastError == error && isPolling == old(isPolling)
    {
      lastError := error;
    }

    method ClearError()
      modifies this
      ensures lastError.None? && isPolling == old(isPolling)
    {
      lastError := None;
    }
  }

  class UIStore {
    var sidebarOpen: bool

    /** The sidebar starts closed. */
    constructor ()
      ensures !sidebarOpen
    {
      sidebarOpen := false;
    }

    /** Toggling negates the sidebar's state, so two toggles restore it. */
    method ToggleSidebar()
      modifies this
      ensures sidebarOpen == !old(sidebarOpen)
    {
      sidebarOpen := !sidebarOpen;
    }

    method SetSidebarOpen(open: bool)
      modifies this
      ensures sidebarOpen == open
    {
      sidebarOpen := open;
    }
  }
}
