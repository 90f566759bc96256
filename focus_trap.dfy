/**
 * `design-system/hooks/useFocusTrap.ts`: while active, focus is placed in a
 * container, Tab and Shift+Tab wrap around its first and last focusable
 * elements, and on cleanup focus returns to where it was.
 */
module FocusTrap {
  import opened Wrappers
  import opened Dom

  datatype KeyEvent = KeyEvent(key: string, shiftKey: bool)

  /** The outcome of the keydown handler: whether it called `preventDefault`, and where focus is afterwards. */
  datatype Handled = Handled(prevented: bool, focus: Element)

  /**
   * `handleKeyDown` over the container's focusable elements in document
   * order. Only Tab is handled; Shift+Tab on the first element jumps to the
   * last, Tab on the last jumps to the first, and anything else is left to
   * the browser. With no focusable element both ends are `undefined`, which
   * no active element equals.
   */
  function TrapKey(focusables: seq<Element>, active: Element, e: KeyEvent): (r: Handled)
    ensures !r.prevented ==> r.focus == active
  {
    if e.key != "Tab" || |focusables| == 0 then Handled(false, active)
    else if e.shiftKey then
      if active == focusables[0] then Handled(true, focusables[|focusables| - 1]) else Handled(false, active)
    else
      if active == focusables[|focusables| - 1] then Handled(true, focusables[0]) else Handled(false, active)
  }

  /** The default is prevented exactly for Tab off the last element and Shift+Tab off the first. */
  lemma PreventedIff(focusables: seq<Element>, active: Element, e: KeyEvent)
    ensures TrapKey(focusables, active, e).prevented <==>
      e.key == "Tab" && |focusables| > 0 &&
      (if e.shiftKey then active == focusables[0] else active == focusables[|focusables| - 1])
  {
  }

  /** A wrap always lands inside the container, on the opposite end. */
  lemma WrapStaysInside(focusables: seq<Element>, active: Element, e: KeyEvent)
    requires TrapKey(focusables, active, e).prevented
    ensures TrapKey(focusables, active, e).focus in focusables
    ensures TrapKey(focusables, active, e).focus ==
      (if e.shiftKey then focusables[|focusables| - 1] else focusables[0])
  {
  }

  /** Shift+Tab undoes the wrap that Tab made, and Tab undoes Shift+Tab's. */
  lemma WrapsAreInverse(focusables: seq<Element>)
    requires |focusables| > 0
    ensures var first := focusables[0];
      var last := focusables[|focusables| - 1];
      TrapKey(focusables, TrapKey(focusables, last, KeyEvent("Tab", false)).focus, KeyEvent("Tab", true)).focus == last &&
      TrapKey(focusables, TrapKey(focusables, first, KeyEvent("Tab", true)).focus, KeyEvent("Tab", false)).focus == first
  {
  }

  /** Any key other than Tab passes through untouched. */
  lemma OtherKeysIgnored(focusables: seq<Element>, active: Element, e: KeyEvent)
    requires e.key != "Tab"
    ensures TrapKey(focusables, active, e) == Handled(false, active)
  {
  }

  /** Where the effect puts focus: the given initial element, else the first focusable, else nowhere new. */
  function InitialFocus(focusables: seq<Element>, initialFocus: Option<Element>, current: Element): (r: Element)
    ensures initialFocus.Some? ==> r == initialFocus.value
    ensures initialFocus.None? && |focusables| > 0 ==> r == focusables[0]
    ensures initialFocus.None? && |focusables| == 0 ==> r == current
  {
    if initialFocus.Some? then initialFocus.value
    else if |focusables| > 0 then focusables[0]
    else current
  }

  /** One mounted trap: the container's focusables are fixed when the effect runs. */
  class Trap {
    const doc: Document
    const active: bool
    /** Whether `containerRef.current` was attached when the effect ran. */
    const hasContainer: bool
    const focusables: seq<Element>
    var previouslyFocused: Element
    var listening: bool

    /** The effect's set-up, or nothing when the trap is inactive or the container is missing. */
    constructor (doc: Document, active: bool, hasContainer: bool, focusables: seq<Element>, initialFocus: Option<Element>)
      modifies doc
      ensures this.doc == doc && this.active == active && this.hasContainer == hasContainer
      ensures this.focusables == focusables
      ensures listening <==> active && hasContainer
      ensures listening ==> previouslyFocused == old(doc.activeElement) &&
                            doc.activeElement == InitialFocus(focusables, initialFocus, old(doc.activeElement))
      ensures !listening ==> doc.activeElement == old(doc.activeElement)
    {
      this.doc := doc;
      this.active := active;
      this.hasContainer := hasContainer;
      this.focusables := focusables;
      previouslyFocused := doc.activeElement;
      listening := active && hasContainer;
      new;
      if listening {
        doc.activeElement := InitialFocus(focusables, initialFocus, doc.activeElement);
      }
    }

    /** A keydown on the document, seen by the handler only while it is registered. */
    method KeyDown(e: KeyEvent) returns (prevented: bool)
      modifies doc
      ensures listening ==>
        prevented == TrapKey(focusables, old(doc.activeElement), e).prevented &&
        doc.activeElement == TrapKey(focusables, old(doc.activeElement), e).focus
      ensures !listening ==> !prevented && doc.activeElement == old(doc.activeElement)
    {
      prevented := false;
      if listening {
        var h := TrapKey(focusables, doc.activeElement, e);
        prevented := h.prevented;
        doc.activeElement := h.focus;
      }
    }

    /** The effect's cleanup: remove the handler and give focus back to the element that had it before. */
    method Cleanup()
      modifies this, doc
      ensures !listening
      ensures old(listening) ==> doc.activeElement == previouslyFocused
      ensures !old(listening) ==> doc.activeElement == old(doc.activeElement)
      ensures previouslyFocused == old(previouslyFocused)
    {
      if listening {
        doc.activeElement := previouslyFocused;
        listening := false;
      }
    }
  }

  /** Activating a trap and releasing it leaves focus where it started, whatever keys were pressed in between. */
  method FocusRestoredAfterTrap(doc: Document, focusables: seq<Element>, keys: seq<KeyEvent>)
    modifies doc
    ensures doc.activeElement == old(doc.activeElement)
  {
    var trap := new Trap(doc, true, true, focusables, None);
    var i := 0;
    while i < |keys|
      invariant 0 <= i <= |keys|
      invariant trap.listening && trap.previouslyFocused == old(doc.activeElement)
      modifies doc
    {
      var _ := trap.KeyDown(keys[i]);
      i := i + 1;
    }
    trap.Cleanup();
  }
}
