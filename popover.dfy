/**
 * The TechMemory QR-code popover: where it is placed next to its trigger link
 * (positionPopover) and when it is shown or hidden.
 */
module Popover {

  import opened Wrappers

  /** A bounding rectangle in viewport pixels. */
  datatype Rect = Rect(left: int, top: int, right: int, bottom: int)

  const PopoverWidth := 230
  const PopoverHeight := 260
  const Margin := 20
  const Gap := 10

  datatype Side = RightOfLink | LeftOfLink | BelowLink

  /** The side positionPopover picks: right of the link when the popover fits
      between the margins there, otherwise left of it when it fits there,
      otherwise below it. */
  function ChosenSide(link: Rect, viewportWidth: int): Side
  {
    if link.right + Gap + PopoverWidth <= viewportWidth - Margin && link.right + Gap >= Margin then RightOfLink
    else if link.right + Gap + PopoverWidth > viewportWidth - Margin && link.left - PopoverWidth - Gap >= Margin then LeftOfLink
    else BelowLink
  }

  function Max(a: int, b: int): int { if a < b then b else a }
  function Min(a: int, b: int): int { if a < b then a else b }

  /** The left and top positionPopover gives the popover, in closed form: the
      left edge of the chosen side, and the wanted top (50 pixels above the
      link's top beside it, 10 pixels under its bottom below it) pushed down
      to the top margin and then up to the bottom margin. */
  function Placement(link: Rect, viewportWidth: int, viewportHeight: int): (int, int)
  {
    var side := ChosenSide(link, viewportWidth);
    var left := match side
      case RightOfLink => link.right + Gap
      case LeftOfLink => link.left - PopoverWidth - Gap
      case BelowLink => link.left;
    var wanted := if side == BelowLink then link.bottom + Gap else link.top - 50;
    var lowest := viewportHeight - Margin - PopoverHeight;
    (left, if lowest < Margin then lowest else Max(Margin, Min(wanted, lowest)))
  }

  /** Beside the link the popover keeps the side margin, to the right it also
      keeps the right margin, and its bottom edge always keeps the bottom
      margin; when the viewport is tall enough the top margin is kept too. */
  lemma PlacementBounds(link: Rect, viewportWidth: int, viewportHeight: int)
    ensures var (left, top) := Placement(link, viewportWidth, viewportHeight);
      && (ChosenSide(link, viewportWidth) != BelowLink ==> Margin <= left)
      && (ChosenSide(link, viewportWidth) == RightOfLink ==> left + PopoverWidth <= viewportWidth - Margin)
      && top + PopoverHeight <= viewportHeight - Margin
      && (viewportHeight >= Margin + PopoverHeight + Margin ==> Margin <= top)
  {
  }

  /** positionPopover: the left and top the popover is given. */
  method PositionPopover(link: Rect, viewportWidth: int, viewportHeight: int) returns (left: int, top: int)
    ensures (left, top) == Placement(link, viewportWidth, viewportHeight)
    ensures top + PopoverHeight <= viewportHeight - Margin
  {
    left := link.right + Gap;
    top := link.top - 50;
    if left + PopoverWidth > viewportWidth - Margin {
      left := link.left - PopoverWidth - Gap;
    }
    if left < Margin {
      left := link.left;
      top := link.bottom + Gap;
    }
    if top < Margin {
      top := Margin;
    }
    if top + PopoverHeight > viewportHeight - Margin {
      top := viewportHeight - PopoverHeight - Margin;
    }
  }

  /** The popover with its backdrop. Both carry the `active` class together. */
  class QrPopover {
    var popoverActive: bool
    var overlayActive: bool
    var left: int
    var top: int
    /** Whether the trigger link existed when the click listener was attached. */
    const triggerBound: bool

    ghost predicate Valid()
      reads this
    {
      popoverActive == overlayActive
    }

    constructor (linkFound: bool)
      ensures Valid() && !popoverActive && triggerBound == linkFound
    {
      popoverActive, overlayActive := false, false;
      left, top := 0, 0;
      triggerBound := linkFound;
    }

    /** A click on the TechMemory link: placed next to the link and shown. */
    method ClickTrigger(link: Rect, viewportWidth: int, viewportHeight: int)
      requires Valid()
      modifies this
      ensures Valid()
      ensures triggerBound ==> popoverActive && (left, top) == Placement(link, viewportWidth, viewportHeight)
      ensures !triggerBound ==> unchanged(this)
    {
      if triggerBound {
        left, top := PositionPopover(link, viewportWidth, viewportHeight);
        popoverActive, overlayActive := true, true;
      }
    }

    /** A click on the close button or on the backdrop. */
    method Dismiss()
      requires Valid()
      modifies this
      ensures Valid() && !popoverActive
      ensures left == old(left) && top == old(top)
    {
      popoverActive, overlayActive := false, false;
    }

    /** A key press: Escape hides a visible popover; other keys do nothing. */
    method KeyDown(key: string)
      requires Valid()
      modifies this
      ensures Valid()
      ensures popoverActive == (old(popoverActive) && key != "Escape")
      ensures left == old(left) && top == old(top)
    {
      if key == "Escape" && popoverActive {
        popoverActive, overlayActive := false, false;
      }
    }

    /** A window resize: a visible popover is placed again if its link is still there. */
    method Resize(link: Option<Rect>, viewportWidth: int, viewportHeight: int)
      requires Valid()
      modifies this
      ensures Valid() && popoverActive == old(popoverActive)
      ensures popoverActive && link.Some? ==> (left, top) == Placement(link.value, viewportWidth, viewportHeight)
      ensures !(popoverActive && link.Some?) ==> left == old(left) && top == old(top)
    {
      if popoverActive && link.Some? {
        left, top := PositionPopover(link.value, viewportWidth, viewportHeight);
      }
    }
  }
}
