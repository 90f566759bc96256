/**
 * The pieces of browser state the components write: the `<body>` element's
 * class list and font size, `localStorage`, and a live region's text.
 */
module Dom {
  import opened Wrappers

  class Body {
    /** The class tokens of `document.body`; assigning `className = "x"` leaves exactly `{"x"}`. */
    var classList: set<string>
    var fontSize: string

    constructor (classList: set<string>)
      ensures this.classList == classList && fontSize == ""
    {
      this.classList := classList;
      fontSize := "";
    }
  }

  /** `window.localStorage`: a string-to-string map. */
  class Storage {
    var items: map<string, string>

    constructor (items: map<string, string>)
      ensures this.items == items
    {
      this.items := items;
    }

    /** `getItem(key)`: the stored string, or `null`. */
    function GetItem(key: string): (r: Option<string>)
      reads this
      ensures r.Some? <==> key in items
      ensures r.Some? ==> r.value == items[key]
    {
      if key in items then Some(items[key]) else None
    }

    method SetItem(key: string, value: string)
      modifies this
      ensures items == old(items)[key := value]
    {
      items := items[key := value];
    }
  }

  /** An element whose `textContent` assistive technology reads out. */
  class LiveRegion {
    var text: string

    constructor ()
      ensures text == ""
    {
      text := "";
    }
  }

  /** `navigator.clipboard`: the last text written to it. */
  class Clipboard {
    var text: string

    constructor (text: string)
      ensures this.text == text
    {
      this.text := text;
    }
  }

  /** Elements are told apart by identity; `document.activeElement` is one of them. */
  type Element = nat

  class Document {
    var activeElement: Element

    constructor (activeElement: Element)
      ensures this.activeElement == activeElement
    {
      this.activeElement := activeElement;
    }
  }
}
