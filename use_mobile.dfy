/**
 * The viewport classifier: a width below the breakpoint is "mobile". The
 * hook keeps one cell, unset until the first classification, which it reads
 * as `false` while unset.
 */
module UseMobile {
  import opened Wrappers

  const MobileBreakpoint := 768

  /** The classification of one window width. */
  predicate IsMobileWidth(innerWidth: int) {
    innerWidth < MobileBreakpoint
  }

  class MobileHook {
    /** The state cell: `None` before the first resize handling. */
    var isMobile: Option<bool>

    /** The hook's state starts unset, and it then reports "not mobile". */
    constructor ()
      ensures isMobile == None && !Value()
    {
      isMobile := None;
    }

    /** What the hook returns: the cell coerced to a boolean (`!!isMobile`). */
    function Value(): (mobile: bool)
      reads this
      ensures mobile ==> isMobile.Some?
      ensures isMobile.Some? ==> mobile == isMobile.value
    {
      isMobile == Some(true)
    }

    /** The resize handler: reclassify from the current width alone. */
    method HandleResize(innerWidth: int)
      modifies this
      ensures isMobile == Some(IsMobileWidth(innerWidth))
      ensures Value() == (innerWidth < MobileBreakpoint)
    {
      isMobile := Some(innerWidth < MobileBreakpoint);
    }

    /**
     * The mount effect: after registering the resize listener (not modelled)
     * the handler runs once, so the classification exists before any resize.
     */
    method Mount(innerWidth: int)
      modifies this
      ensures isMobile.Some?
      ensures Value() == IsMobileWidth(innerWidth)
    {
      HandleResize(innerWidth);
    }
  }

  /** The boundary: 767 is mobile, 768 is not, and a repeated resize changes nothing. */
  method ClassificationScenario()
  {
    var hook := new MobileHook();
    assert !hook.Value();
    hook.Mount(767);
    assert hook.Value();
    hook.HandleResize(768);
    assert !hook.Value();
    var before := hook.isMobile;
    hook.HandleResize(768);
    assert hook.isMobile == before;
  }
}
