/**
  The responsive-layout hook (Frontend/src/hooks/useResponsive.js): the
  screen size and device type it keeps as state, the width thresholds that
  classify a device, and the flags derived from both. The resize listener is
  not modelled; each resize is a call of `HandleResize`.
 */
module Responsive {
  import opened Js

  datatype DeviceType = Mobile | Tablet | Desktop

  const TabletMinWidth: int := 640
  const DesktopMinWidth: int := 1024

  /** The if/else chain of `handleResize`: below 640 mobile, below 1024 tablet, else desktop. */
  function DeviceTypeFor(width: int): (d: DeviceType)
    ensures d == Mobile <==> width < 640
    ensures d == Tablet <==> 640 <= width < 1024
    ensures d == Desktop <==> 1024 <= width
  {
    if width < TabletMinWidth then Mobile
    else if width < DesktopMinWidth then Tablet
    else Desktop
  }

  datatype Flags = Flags(isMobile: bool, isTablet: bool, isDesktop: bool, isSmallScreen: bool)

  /**
    The flags the hook returns: three from the stored device type, the
    fourth from the stored width. Exactly one of the first three holds.
   */
  function FlagsFor(deviceType: DeviceType, width: int): (f: Flags)
    ensures (f.isMobile && !f.isTablet && !f.isDesktop)
         || (!f.isMobile && f.isTablet && !f.isDesktop)
         || (!f.isMobile && !f.isTablet && f.isDesktop)
    ensures f.isMobile <==> deviceType == Mobile
    ensures f.isTablet <==> deviceType == Tablet
    ensures f.isDesktop <==> deviceType == Desktop
    ensures f.isSmallScreen <==> width < 1024
  {
    Flags(deviceType == Mobile, deviceType == Tablet, deviceType == Desktop, width < DesktopMinWidth)
  }

  /** Once the device type has been derived from the width, "small screen" means "not desktop". */
  lemma SmallScreenIsNotDesktop(width: int)
    ensures var f := FlagsFor(DeviceTypeFor(width), width);
      f.isSmallScreen <==> !f.isDesktop
  {
  }

  /**
    Before the mount effect has run, the device type is the initial
    'desktop' whatever the width: a narrow first render reports both
    desktop and small screen.
   */
  lemma FirstRenderMayDisagree()
    ensures var f := FlagsFor(Desktop, 800);
      f.isDesktop && f.isSmallScreen
  {
  }

  /** The hook's state. */
  class Viewport {
    var width: int
    var height: int
    var deviceType: DeviceType

    /**
      The initial state: the window's size when there is a window, 1200 by
      800 otherwise; the device type starts as desktop either way, which
      agrees with the width only when the width is a desktop one.
     */
    constructor (window: Option<(int, int)>)
      ensures window.Some? ==> width == window.value.0 && height == window.value.1
      ensures window.None? ==> width == 1200 && height == 800
      ensures deviceType == Desktop
      ensures Consistent() <==> width >= 1024
    {
      if window.Some? {
        width, height := window.value.0, window.value.1;
      } else {
        width, height := 1200, 800;
      }
      deviceType := Desktop;
    }

    /** The stored device type agrees with the stored width. */
    ghost predicate Consistent()
      reads this
    {
      deviceType == DeviceTypeFor(width)
    }

    /** `handleResize`, run on mount and on every resize. */
    method HandleResize(innerWidth: int, innerHeight: int)
      modifies this
      ensures width == innerWidth && height == innerHeight
      ensures deviceType == DeviceTypeFor(innerWidth)
      ensures Consistent()
    {
      width, height := innerWidth, innerHeight;
      if innerWidth < 640 {
        deviceType := Mobile;
      } else if innerWidth < 1024 {
        deviceType := Tablet;
      } else {
        deviceType := Desktop;
      }
    }

    function CurrentFlags(): (f: Flags)
      reads this
      ensures f == FlagsFor(deviceType, width)
      ensures Consistent() ==> (f.isSmallScreen <==> !f.isDesktop)
    {
      FlagsFor(deviceType, width)
    }
  }
}
