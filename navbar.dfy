/**
 * The navigation bar's state machine (`components/Navbar.tsx`): the
 * keyboard shortcuts of the command palette, the hide-on-scroll behaviour
 * and the navigation guard. The router is modelled by the current path;
 * prefetching, the feedback delay and the animation-frame throttle are not
 * part of this model.
 */
module Navbar {
  import opened Wrappers

  /** The palette's two entries, in order: home and the dashboard. */
  function Routes(): (r: seq<string>)
    ensures |r| == 2
  {
    ["/", "/dashboard"]
  }

  function Abs(x: real): real {
    if x < 0.0 then -x else x
  }

  function Min(a: int, b: int): int {
    if a <= b then a else b
  }

  function Max(a: int, b: int): int {
    if a >= b then a else b
  }

  /** A scroll moves less than this counts as jitter. */
  const ScrollThreshold: real := 10.0
  /** Above this offset the bar is compact, and below it the bar always shows. */
  const TopZone: real := 100.0

  class NavbarState {
    var pathname: string
    var isVisible: bool
    var isCompact: bool
    var showCommandPalette: bool
    var mobileMenuOpen: bool
    var isLoading: bool
    /** The highlighted palette entry, −1 for none. */
    var focusedIndex: int
    /** `lastScrollY.current`: the offset of the last scroll that counted. */
    var lastScrollY: real

    /** The highlighted entry is none or one of the two routes. */
    predicate Valid()
      reads this
    {
      -1 <= focusedIndex <= 1
    }

    constructor (pathname: string)
      ensures Valid()
      ensures this.pathname == pathname && isVisible && !isCompact && !showCommandPalette
      ensures !mobileMenuOpen && !isLoading && focusedIndex == -1 && lastScrollY == 0.0
    {
      this.pathname := pathname;
      isVisible := true;
      isCompact := false;
      showCommandPalette := false;
      mobileMenuOpen := false;
      isLoading := false;
      focusedIndex := -1;
      lastScrollY := 0.0;
    }

    /**
     * `handleNavigation`: going to the current path does nothing; any other
     * path closes the palette and the mobile menu and becomes the current
     * path. Returns the path pushed to the router, if any.
     */
    method HandleNavigation(href: string) returns (pushed: Option<string>)
      modifies this
      ensures href == old(pathname) ==>
        pushed == None && pathname == old(pathname) && showCommandPalette == old(showCommandPalette)
        && mobileMenuOpen == old(mobileMenuOpen) && isLoading == old(isLoading)
      ensures href != old(pathname) ==>
        pushed == Some(href) && pathname == href && !showCommandPalette && !mobileMenuOpen && !isLoading
      ensures focusedIndex == old(focusedIndex) && isVisible == old(isVisible) && isCompact == old(isCompact)
      ensures lastScrollY == old(lastScrollY)
    {
      if href == pathname {
        pushed := None;
        return;
      }
      isLoading := true;
      showCommandPalette := false;
      mobileMenuOpen := false;
      pathname := href;
      pushed := Some(href);
      isLoading := false;
    }

    /**
     * `handleKeyDown`. The handler sees the palette flag and the highlighted
     * entry as they were when the key was pressed. Returns the path
     * navigated to, if any.
     */
    method HandleKeyDown(key: string, metaKey: bool, ctrlKey: bool) returns (pushed: Option<string>)
      requires Valid()
      modifies this
      ensures Valid()
      ensures pushed.Some? <==>
        key == "Enter" && old(showCommandPalette) && old(focusedIndex) >= 0
        && Routes()[old(focusedIndex)] != old(pathname)
      ensures pushed.Some? ==> pushed.value == Routes()[old(focusedIndex)]
      ensures showCommandPalette ==
        (if (metaKey || ctrlKey) && key == "k" then true
         else if key == "Escape" || pushed.Some? then false
         else old(showCommandPalette))
      ensures mobileMenuOpen == (if key == "Escape" || pushed.Some? then false else old(mobileMenuOpen))
      ensures focusedIndex ==
        (if key == "Escape" then -1
         else if old(showCommandPalette) && key == "ArrowDown" then Min(old(focusedIndex) + 1, 1)
         else if old(showCommandPalette) && key == "ArrowUp" then Max(old(focusedIndex) - 1, 0)
         else old(focusedIndex))
      ensures pathname == (if pushed.Some? then pushed.value else old(pathname))
      ensures isLoading == (if pushed.Some? then false else old(isLoading))
      ensures isVisible == old(isVisible) && isCompact == old(isCompact) && lastScrollY == old(lastScrollY)
    {
      var paletteOpen := showCommandPalette;
      var focus := focusedIndex;
      pushed := None;
      if (metaKey || ctrlKey) && key == "k" {
        showCommandPalette := true;
      }
      if key == "Escape" {
        showCommandPalette := false;
        mobileMenuOpen := false;
        focusedIndex := -1;
      }
      if paletteOpen {
        if key == "ArrowDown" {
          focusedIndex := Min(focusedIndex + 1, 1);
        } else if key == "ArrowUp" {
          focusedIndex := Max(focusedIndex - 1, 0);
        } else if key == "Enter" && focus >= 0 {
          pushed := HandleNavigation(Routes()[focus]);
        }
      }
    }

    /**
     * The mouse-down listener, registered only while the palette is open:
     * a press outside the palette closes it.
     */
    method HandleClickOutside(insidePalette: bool)
      requires Valid()
      modifies this
      ensures Valid()
      ensures showCommandPalette == (old(showCommandPalette) && insidePalette)
      ensures mobileMenuOpen == old(mobileMenuOpen) && focusedIndex == old(focusedIndex) && pathname == old(pathname)
      ensures isLoading == old(isLoading)
      ensures isVisible == old(isVisible) && isCompact == old(isCompact) && lastScrollY == old(lastScrollY)
    {
      if showCommandPalette && !insidePalette {
        showCommandPalette := false;
      }
    }

    /**
     * `updateScrollBehavior` for the page offset `scrollY`: a move of less
     * than 10 since the last counted scroll changes nothing; otherwise the
     * bar shows when scrolling up or near the top, is compact below the top
     * zone, and the offset is remembered.
     */
    method UpdateScrollBehavior(scrollY: real)
      modifies this
      ensures Abs(scrollY - old(lastScrollY)) < ScrollThreshold ==>
        isVisible == old(isVisible) && isCompact == old(isCompact) && lastScrollY == old(lastScrollY)
      ensures Abs(scrollY - old(lastScrollY)) >= ScrollThreshold ==>
        (isVisible <==> scrollY < old(lastScrollY) || scrollY < TopZone)
        && (isCompact <==> scrollY > TopZone) && lastScrollY == scrollY
      ensures lastScrollY == old(lastScrollY) || Abs(lastScrollY - old(lastScrollY)) >= ScrollThreshold
      ensures isCompact && old(lastScrollY) != lastScrollY ==> lastScrollY > TopZone
      ensures pathname == old(pathname) && showCommandPalette == old(showCommandPalette)
      ensures mobileMenuOpen == old(mobileMenuOpen) && isLoading == old(isLoading) && focusedIndex == old(focusedIndex)
    {
      if Abs(scrollY - lastScrollY) < ScrollThreshold {
        return;
      }
      isVisible := scrollY < lastScrollY || scrollY < TopZone;
      isCompact := scrollY > TopZone;
      lastScrollY := scrollY;
    }
  }
}
