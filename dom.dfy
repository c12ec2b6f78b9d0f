/**
 * The one page element that two controllers share: the rituals scroll
 * (`#scroll-rituals`), whose `open` class both the scroll system and the modal
 * controller remove.
 */
module Dom {

  class Panel {
    /** Whether the element carries the `open` class. */
    var open: bool

    constructor (open: bool)
      ensures this.open == open
    {
      this.open := open;
    }
  }
}
