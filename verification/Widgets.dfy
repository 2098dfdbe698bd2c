/** The one piece of state the portal's accordions share: a panel that a
    click opens and the next click closes again (the FAQ items on the
    landing page and the dashboard, and the automation cards on the nudges
    page). */
module Widgets {

  class Disclosure {
    var open: bool

    /** Every panel starts closed. */
    constructor()
      ensures !open
    {
      open := false;
    }

    /** `setOpen(!open)`. */
    method Toggle()
      modifies this
      ensures open == !old(open)
    {
      open := !open;
    }
  }

  /** A fresh panel clicked once is open and clicked again is closed: each
      click flips it, and two clicks bring it back. */
  method ClickTwice() returns (afterFirst: bool, afterSecond: bool)
    ensures afterFirst && !afterSecond
  {
    var d := new Disclosure();
    d.Toggle();
    afterFirst := d.open;
    d.Toggle();
    afterSecond := d.open;
  }

  /** Two panels are independent: clicking one leaves the other as it was. */
  method IndependentPanels() returns (clicked: bool, other: bool)
    ensures clicked && !other
  {
    var a := new Disclosure();
    var b := new Disclosure();
    a.Toggle();
    clicked := a.open;
    other := b.open;
  }
}
