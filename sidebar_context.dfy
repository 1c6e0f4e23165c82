/**
 * The sidebar context: two independent flags, `collapsed` for the desktop
 * sidebar and `mobileOpen` for the mobile drawer, and the hook that refuses
 * to run outside the provider. `Flags` is a snapshot of the provider's
 * state; `Provider` holds the two cells and applies the transitions.
 */
module SidebarContext {
  import opened Common

  datatype Flags = Flags(collapsed: bool, mobileOpen: bool)

  const InitialFlags := Flags(false, false)

  const OutsideProviderError := "useSidebar must be used within a SidebarProvider"

  /** `toggleSidebar` */
  function ToggleSidebar(f: Flags): (r: Flags)
    ensures r.collapsed != f.collapsed && r.mobileOpen == f.mobileOpen
  {
    f.(collapsed := !f.collapsed)
  }

  /** `toggleMobileSidebar` */
  function ToggleMobileSidebar(f: Flags): (r: Flags)
    ensures r.mobileOpen != f.mobileOpen && r.collapsed == f.collapsed
  {
    f.(mobileOpen := !f.mobileOpen)
  }

  /** `closeMobileSidebar` */
  function CloseMobileSidebar(f: Flags): (r: Flags)
    ensures !r.mobileOpen && r.collapsed == f.collapsed
  {
    f.(mobileOpen := false)
  }

  /** Each toggle undoes itself. */
  lemma TogglesAreInvolutions(f: Flags)
    ensures ToggleSidebar(ToggleSidebar(f)) == f
    ensures ToggleMobileSidebar(ToggleMobileSidebar(f)) == f
  {
  }

  /** Closing the drawer twice is closing it once, and it never touches `collapsed`. */
  lemma CloseIsIdempotent(f: Flags)
    ensures CloseMobileSidebar(CloseMobileSidebar(f)) == CloseMobileSidebar(f)
    ensures CloseMobileSidebar(ToggleMobileSidebar(f)).mobileOpen == false
  {
  }

  /** The two flags are independent: the toggles commute. */
  lemma TogglesCommute(f: Flags)
    ensures ToggleSidebar(ToggleMobileSidebar(f)) == ToggleMobileSidebar(ToggleSidebar(f))
    ensures ToggleSidebar(CloseMobileSidebar(f)) == CloseMobileSidebar(ToggleSidebar(f))
  {
  }

  class Provider {
    var collapsed: bool
    var mobileOpen: bool

    function State(): Flags
      reads this
    {
      Flags(collapsed, mobileOpen)
    }

    constructor ()
      ensures State() == InitialFlags
    {
      collapsed, mobileOpen := false, false;
    }

    method Toggle()
      modifies this
      ensures State() == ToggleSidebar(old(State()))
    {
      collapsed := !collapsed;
    }

    method ToggleMobile()
      modifies this
      ensures State() == ToggleMobileSidebar(old(State()))
    {
      mobileOpen := !mobileOpen;
    }

    method CloseMobile()
      modifies this
      ensures State() == CloseMobileSidebar(old(State()))
    {
      mobileOpen := false;
    }
  }

  /** `useSidebar()`: the context value, or an error when no provider is above the caller. */
  function UseSidebar<C>(context: Option<C>): (r: Result<C, string>)
    ensures r.Ok? <==> context.Some?
    ensures r.Ok? ==> r.value == context.value
    ensures r.Err? ==> r.error == OutsideProviderError
  {
    if context.None? then Err(OutsideProviderError) else Ok(context.value)
  }
}
