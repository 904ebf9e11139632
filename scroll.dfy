/**
 * NavigationHandler and the page's scroll targets: when the fixed navigation
 * bar and the back-to-top control are shown, and where a navigation click or
 * a hash in the URL scrolls to.
 */
module Scroll {

  /** The nav bar appears once the page is scrolled past this many pixels. */
  const NavThreshold := 50
  /** The back-to-top control appears this many pixels before the hero ends. */
  const HeroLead := 100
  /** The fixed offset a navigation click leaves above its target. */
  const NavOffset := 68
  /** The offset a page-load hash correction leaves above most sections. */
  const HashOffset := 90
  const DetailsSection := "details-section"

  /** `window.pageYOffset || document.documentElement.scrollTop`: a zero
      offset is falsy and falls through to the root element's scrollTop. */
  function ScrollOffset(pageYOffset: int, scrollTop: int): int
  {
    if pageYOffset != 0 then pageYOffset else scrollTop
  }

  predicate NavVisibleAt(scrolled: int)
  {
    scrolled > NavThreshold
  }

  predicate BackToTopVisibleAt(scrolled: int, heroHeight: int)
  {
    scrolled > heroHeight - HeroLead
  }

  /** Where a click on an in-page navigation link scrolls to. */
  function NavClickTarget(rectTop: int, pageYOffset: int): int
  {
    rectTop + pageYOffset - NavOffset
  }

  /** Where the page-load correction for a URL hash scrolls to. */
  function HashTarget(targetId: string, offsetTop: int): int
  {
    offsetTop - (if targetId == DetailsSection then NavOffset else HashOffset)
  }

  /** For a target whose document position is `offsetTop` (its client top plus
      the current scroll offset), the hash correction lands where a navigation
      click does for the details section, and 22 pixels higher for any other. */
  lemma HashTargetVersusNavClick(targetId: string, rectTop: int, pageYOffset: int)
    ensures var offsetTop := rectTop + pageYOffset;
      && (targetId == DetailsSection ==> HashTarget(targetId, offsetTop) == NavClickTarget(rectTop, pageYOffset))
      && (targetId != DetailsSection ==> HashTarget(targetId, offsetTop) == NavClickTarget(rectTop, pageYOffset) - (HashOffset - NavOffset))
  {
  }

  /** The visibility classes NavigationHandler keeps on the nav bar and the
      back-to-top control, and the hero height it measures. */
  class NavigationHandler {
    const hasNav: bool
    const hasBackToTop: bool
    var heroHeight: int
    var navVisible: bool
    var backToTopVisible: bool

    ghost predicate Valid()
      reads this
    {
      && (!hasNav ==> !navVisible && !backToTopVisible)
      && (!hasBackToTop ==> !backToTopVisible)
    }

    /** The handler records the viewport height as the hero height. Without a
        nav bar it binds nothing, so every later event leaves it unchanged. */
    constructor (hasNav: bool, hasBackToTop: bool, innerHeight: int)
      ensures Valid()
      ensures this.hasNav == hasNav && this.hasBackToTop == hasBackToTop
      ensures heroHeight == innerHeight && !navVisible && !backToTopVisible
    {
      this.hasNav := hasNav;
      this.hasBackToTop := hasBackToTop;
      heroHeight := innerHeight;
      navVisible := false;
      backToTopVisible := false;
    }

    /** The scroll listener: the nav bar is visible exactly past 50 pixels and
        the back-to-top control exactly past the hero height less 100. With a
        hero at least 150 pixels tall, the control is then never shown without
        the nav bar. */
    method OnScroll(pageYOffset: int, scrollTop: int)
      requires Valid()
      modifies this
      ensures Valid() && heroHeight == old(heroHeight)
      ensures !hasNav ==> unchanged(this)
      ensures hasNav ==> navVisible == NavVisibleAt(ScrollOffset(pageYOffset, scrollTop))
      ensures hasNav ==> backToTopVisible == (hasBackToTop && BackToTopVisibleAt(ScrollOffset(pageYOffset, scrollTop), heroHeight))
      ensures heroHeight >= NavThreshold + HeroLead && backToTopVisible ==> navVisible
    {
      if hasNav {
        var scrolled := ScrollOffset(pageYOffset, scrollTop);
        if scrolled > NavThreshold {
          navVisible := true;
        } else {
          navVisible := false;
        }
        if hasBackToTop && scrolled > heroHeight - HeroLead {
          backToTopVisible := true;
        } else if hasBackToTop {
          backToTopVisible := false;
        }
      }
    }

    /** A click on the back-to-top control, bound only when both the nav bar
        and the control exist: the page scrolls to the top, and once it is
        there the scroll listener hides the nav bar, and hides the control
        unless the hero is under 100 pixels tall. */
    method BackToTopClick() returns (target: int)
      requires Valid() && hasNav && hasBackToTop
      modifies this
      ensures Valid() && heroHeight == old(heroHeight)
      ensures target == 0 && !navVisible
      ensures backToTopVisible <==> heroHeight < HeroLead
    {
      target := 0;
      OnScroll(target, target);
    }

    /** The resize listener re-measures the hero height. */
    method OnResize(innerHeight: int)
      requires Valid()
      modifies this
      ensures Valid() && navVisible == old(navVisible) && backToTopVisible == old(backToTopVisible)
      ensures heroHeight == if hasNav then innerHeight else old(heroHeight)
    {
      if hasNav {
        heroHeight := innerHeight;
      }
    }

    /** The pass shortly after load: shows the nav bar past 50 pixels (never
        hides it), then replays the scroll listener. */
    method LoadCheck(pageYOffset: int, scrollTop: int)
      requires Valid()
      modifies this
      ensures Valid() && heroHeight == old(heroHeight)
      ensures !hasNav ==> unchanged(this)
      ensures hasNav ==> navVisible == NavVisibleAt(ScrollOffset(pageYOffset, scrollTop))
      ensures hasNav ==> backToTopVisible == (hasBackToTop && BackToTopVisibleAt(ScrollOffset(pageYOffset, scrollTop), heroHeight))
      ensures heroHeight >= NavThreshold + HeroLead && backToTopVisible ==> navVisible
    {
      if hasNav {
        var scrolled := ScrollOffset(pageYOffset, scrollTop);
        if scrolled > NavThreshold {
          navVisible := true;
        }
        OnScroll(pageYOffset, scrollTop);
      }
    }

    /** The page-load hash correction: scrolls to the corrected target and,
        when that lies past 50 pixels, shows the nav bar. */
    method CorrectHashScroll(targetId: string, offsetTop: int) returns (y: int)
      requires Valid()
      modifies this
      ensures Valid() && heroHeight == old(heroHeight) && backToTopVisible == old(backToTopVisible)
      ensures y == HashTarget(targetId, offsetTop)
      ensures hasNav ==> navVisible == (old(navVisible) || NavVisibleAt(y))
      ensures !hasNav ==> navVisible == old(navVisible)
    {
      y := HashTarget(targetId, offsetTop);
      if y > NavThreshold && hasNav {
        navVisible := true;
      }
    }
  }
}
