// The sidebar's open/closed state (src/providers/sidebar-provider.tsx). The
// provider keeps `isOpen` and `isMobile`; an effect that depends on `isOpen`
// runs `checkMobile` on mount, on every change of `isOpen` and on every
// window resize. The window width is a parameter of each step.

module SidebarProvider {
  import opened Common

  /** The `md` breakpoint: narrower windows count as mobile. */
  const MobileBreakpoint: int := 768

  /** What the provider publishes through its context. */
  datatype SidebarContext = SidebarContext(isOpen: bool, isMobile: bool)

  const OutsideProviderError: string := "useSidebar must be used within a SidebarProvider"

  /** `useSidebar`: the context, or an error when no provider is above the caller. */
  function UseSidebar(context: Option<SidebarContext>): (r: Result<SidebarContext>)
    ensures r.Failure? <==> context.None?
    ensures r.Success? ==> context == Some(r.value)
    ensures r.Failure? ==> r.error == OutsideProviderError
  {
    if context.None? then Failure(OutsideProviderError) else Success(context.value)
  }

  class Sidebar {
    var isOpen: bool
    var isMobile: bool

    /** The state every effect run leaves behind: open on desktop, closed on mobile. */
    predicate Settled()
      reads this
    {
      isOpen == !isMobile
    }

    /** The first render, before any effect has run: closed, and not yet known to be mobile. */
    constructor ()
      ensures !isOpen && !isMobile
      ensures !Settled()
    {
      isOpen := false;
      isMobile := false;
    }

    /**
     * `checkMobile`: record whether the window is narrower than the breakpoint,
     * open the sidebar on desktop when closed, close it on mobile when open.
     * In all four cases it leaves the settled state, and on a settled state with
     * the same width it changes nothing.
     */
    method CheckMobile(innerWidth: int)
      modifies this
      ensures isMobile == (innerWidth < MobileBreakpoint)
      ensures Settled()
      ensures old(Settled()) && old(isMobile) == isMobile ==> isOpen == old(isOpen)
    {
      var mobile := innerWidth < MobileBreakpoint;
      isMobile := mobile;
      if !mobile && !isOpen {
        isOpen := true;
      } else if mobile && isOpen {
        isOpen := false;
      }
    }

    /**
     * One run of the effect, and the re-run React performs because that run
     * changed `isOpen`; the re-run finds nothing to change, so the state is
     * then stable.
     */
    method RunEffect(innerWidth: int)
      modifies this
      ensures isMobile == (innerWidth < MobileBreakpoint)
      ensures Settled()
    {
      var before := isOpen;
      CheckMobile(innerWidth);
      if isOpen != before {
        var after := isOpen;
        CheckMobile(innerWidth);
        assert isOpen == after;
      }
    }

    /** The effect on mount. */
    method Mount(innerWidth: int)
      modifies this
      ensures isMobile == (innerWidth < MobileBreakpoint)
      ensures Settled()
    {
      RunEffect(innerWidth);
    }

    /** The `resize` listener: `checkMobile` with the new width, then the effect it may trigger. */
    method Resize(innerWidth: int)
      modifies this
      ensures isMobile == (innerWidth < MobileBreakpoint)
      ensures Settled()
    {
      RunEffect(innerWidth);
    }

    /**
     * `setIsOpen(value)` followed by what React does next: a render with the new
     * value (`shown`), and the effect when `isOpen` changed. The setter never
     * touches `isMobile`.
     */
    method SetIsOpen(value: bool, innerWidth: int) returns (shown: bool)
      modifies this
      ensures shown == value
      ensures value == old(isOpen) ==> isOpen == old(isOpen) && isMobile == old(isMobile)
      ensures value != old(isOpen) ==> isMobile == (innerWidth < MobileBreakpoint) && Settled()
    {
      var before := isOpen;
      isOpen := value;
      shown := isOpen;
      if isOpen != before {
        RunEffect(innerWidth);
      }
    }

    /**
     * `toggle`: the next render shows the sidebar flipped, but the effect that
     * change triggers drives it back: from a settled state at an unchanged
     * width the toggle is undone.
     */
    method Toggle(innerWidth: int) returns (shown: bool)
      modifies this
      ensures shown == !old(isOpen)
      ensures isMobile == (innerWidth < MobileBreakpoint) && Settled()
      ensures old(Settled()) && old(isMobile) == (innerWidth < MobileBreakpoint) ==>
        isOpen == old(isOpen) && isMobile == old(isMobile)
    {
      shown := SetIsOpen(!isOpen, innerWidth);
    }

    /** `open`: from a settled state at an unchanged width, nothing changes once the effect has run. */
    method Open(innerWidth: int) returns (shown: bool)
      modifies this
      ensures shown
      ensures old(Settled()) && old(isMobile) == (innerWidth < MobileBreakpoint) ==>
        isOpen == old(isOpen) && isMobile == old(isMobile)
    {
      shown := SetIsOpen(true, innerWidth);
    }

    /** `close`: from a settled state at an unchanged width, nothing changes once the effect has run. */
    method Close(innerWidth: int) returns (shown: bool)
      modifies this
      ensures !shown
      ensures old(Settled()) && old(isMobile) == (innerWidth < MobileBreakpoint) ==>
        isOpen == old(isOpen) && isMobile == old(isMobile)
    {
      shown := SetIsOpen(false, innerWidth);
    }

    /**
     * A consumer rendered below a freshly mounted provider: `useSidebar`
     * succeeds and reports the sidebar open exactly when the window is not mobile.
     */
    method ConsumerAfterMount(innerWidth: int) returns (r: Result<SidebarContext>)
      modifies this
      ensures r.Success?
      ensures r.value.isMobile == (innerWidth < MobileBreakpoint)
      ensures r.value.isOpen == !(innerWidth < MobileBreakpoint)
      ensures r.value == Context()
    {
      Mount(innerWidth);
      r := UseSidebar(Some(Context()));
    }

    /** The value the provider publishes. */
    function Context(): (c: SidebarContext)
      reads this
      ensures c.isOpen == isOpen && c.isMobile == isMobile
    {
      SidebarContext(isOpen, isMobile)
    }
  }
}
