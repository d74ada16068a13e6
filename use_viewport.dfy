/**
 * `hooks/use-viewport.tsx`: the width breakpoints and the `viewport`
 * state the resize listener sets. The window width is a parameter.
 */
module UseViewport {

  datatype Viewport = Mobile | Tablet | Desktop

  const TABLET_FROM := 768
  const DESKTOP_FROM := 1024

  /** The class `handleResize` picks for a width. */
  function Classify(width: int): (v: Viewport)
    ensures v == Mobile <==> width < TABLET_FROM
    ensures v == Tablet <==> TABLET_FROM <= width < DESKTOP_FROM
    ensures v == Desktop <==> width >= DESKTOP_FROM
  {
    if width < 768 then Mobile
    else if width >= 768 && width < 1024 then Tablet
    else Desktop
  }

  /** Mobile, tablet, desktop, from small to large. */
  function Rank(v: Viewport): nat
  {
    match v
    case Mobile => 0
    case Tablet => 1
    case Desktop => 2
  }

  /** A larger width never gives a smaller class. */
  lemma {:induction false} ClassifyMonotone(w: int, w': int)
    requires w <= w'
    ensures Rank(Classify(w)) <= Rank(Classify(w'))
  {
  }

  /** Each class is reached: the breakpoints are the first widths of their classes. */
  lemma Breakpoints()
    ensures Classify(TABLET_FROM - 1) == Mobile && Classify(TABLET_FROM) == Tablet
    ensures Classify(DESKTOP_FROM - 1) == Tablet && Classify(DESKTOP_FROM) == Desktop
  {
  }

  class ViewportState {
    var viewport: Viewport

    /** `useState<Viewport>("mobile")`, before anything is measured. */
    constructor ()
      ensures viewport == Mobile
    {
      viewport := Mobile;
    }

    /** `handleResize`, on mount and on every resize event. */
    method HandleResize(width: int)
      modifies this
      ensures viewport == Classify(width)
    {
      if width < 768 {
        viewport := Mobile;
      } else if width >= 768 && width < 1024 {
        viewport := Tablet;
      } else {
        viewport := Desktop;
      }
    }
  }
}
