/**
 * The layout context: whether the sidebar is open, and the hook that refuses
 * to run outside its provider.
 */
module UI {
  import opened Wrappers

  const MissingUIProvider := "useUI must be used within a UIProvider"

  /** What the provider hands to its consumers. */
  datatype UIContextValue = UIContextValue(sidebarOpen: bool)

  /** `useUI`: the provider's value, or the error it throws without one. */
  function UseUI(context: Option<UIContextValue>): (r: Result<UIContextValue, string>)
    ensures context.None? <==> r == Failure(MissingUIProvider)
    ensures context.Some? ==> r == Success(context.value)
  {
    if context.None? then Failure(MissingUIProvider) else Success(context.value)
  }

  class UIProvider {
    var sidebarOpen: bool

    constructor ()
      ensures !sidebarOpen
    {
      sidebarOpen := false;
    }

    function Value(): (v: UIContextValue)
      reads this
      ensures v.sidebarOpen == sidebarOpen
    {
      UIContextValue(sidebarOpen)
    }

    /** `toggleSidebar`. */
    method ToggleSidebar()
      modifies this
      ensures sidebarOpen == !old(sidebarOpen)
    {
      sidebarOpen := !sidebarOpen;
    }

    /** Two toggles restore the original state. */
    method ToggleTwice()
      modifies this
      ensures sidebarOpen == old(sidebarOpen)
    {
      ToggleSidebar();
      ToggleSidebar();
    }
  }
}
