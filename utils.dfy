/**
 * The two scroll handlers of `front/src/lib/utils.js`. Each component that
 * uses one owns a hidden flag and the last scroll position; the handler reads
 * the current position and writes both.
 */
module Utils {

  /** How far down the page scrolling down starts to hide the footer. */
  const FooterThreshold := 50

  class ScrollState {
    var isHidden: bool
    var lastScrollY: int

    constructor (isHidden: bool, lastScrollY: int)
      ensures this.isHidden == isHidden && this.lastScrollY == lastScrollY
    {
      this.isHidden := isHidden;
      this.lastScrollY := lastScrollY;
    }

    /**
     * `handleScroll` (the footer): hidden exactly when the page moved down and
     * is past the threshold; scrolling up, or staying near the top, shows it.
     */
    method HandleScroll(scrollY: int)
      modifies this
      ensures isHidden <==> scrollY > old(lastScrollY) && scrollY > FooterThreshold
      ensures scrollY <= FooterThreshold ==> !isHidden
      ensures lastScrollY == scrollY
    {
      if scrollY > lastScrollY && scrollY > FooterThreshold {
        isHidden := true;
      } else {
        isHidden := false;
      }
      lastScrollY := scrollY;
    }

    /** `handleNavBarScroll`: the flag is set exactly when the page moved up. */
    method HandleNavBarScroll(scrollY: int)
      modifies this
      ensures isHidden <==> scrollY < old(lastScrollY)
      ensures lastScrollY == scrollY
    {
      if scrollY < lastScrollY {
        isHidden := true;
      } else {
        isHidden := false;
      }
      lastScrollY := scrollY;
    }
  }

  /** Two footer events at the same position: the second always shows the footer. */
  method ScrollTwiceShows(s: ScrollState, y: int)
    modifies s
    ensures !s.isHidden && s.lastScrollY == y
  {
    s.HandleScroll(y);
    s.HandleScroll(y);
  }
}
