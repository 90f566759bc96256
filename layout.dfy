/**
 * `components/layout/Layout.tsx`: the accessibility menu's open flag, the
 * document listeners that exist only while it is open (Escape and a click
 * outside close it), and the menu's actions on `<body>`.
 */
module Layout {
  import opened Dom
  import ThemeContext

  /** Where a mousedown lands, relative to the menu and the button that opens it. */
  datatype ClickTarget = InsideMenu | OnMenuButton | Outside

  const ContrastClass: string := "theme-high-contrast"

  /** `classList.toggle(c)`: remove the class if present, add it otherwise. */
  function ToggleClass(classes: set<string>, c: string): (r: set<string>)
    ensures c in r <==> c !in classes
    ensures forall d :: d != c ==> (d in r <==> d in classes)
  {
    if c in classes then classes - {c} else classes + {c}
  }

  /** Toggling twice restores the class list. */
  lemma ToggleClassTwice(classes: set<string>, c: string)
    ensures ToggleClass(ToggleClass(classes, c), c) == classes
  {
  }

  class Page {
    const body: Body
    var menuOpen: bool
    /** Whether the `mousedown` and `keydown` handlers are registered on the document. */
    var mouseListener: bool
    var keyListener: bool

    /** Both effects register their handler exactly while the menu is open. */
    predicate Valid()
      reads this
    {
      mouseListener == menuOpen && keyListener == menuOpen
    }

    /** The button's `aria-expanded`, and whether the menu element is rendered. */
    function AriaExpanded(): bool
      reads this
    {
      menuOpen
    }

    constructor (body: Body)
      ensures this.body == body && !menuOpen && Valid()
    {
      this.body := body;
      menuOpen := false;
      mouseListener := false;
      keyListener := false;
    }

    /** Re-run both effects for the current flag: the old handlers are removed, new ones added if open. */
    method SyncListeners()
      modifies this`mouseListener, this`keyListener
      ensures Valid()
    {
      mouseListener := menuOpen;
      keyListener := menuOpen;
    }

    /** `toggleAccessibilityMenu`. */
    method ToggleMenu()
      requires Valid()
      modifies this`menuOpen, this`mouseListener, this`keyListener
      ensures menuOpen == !old(menuOpen) && AriaExpanded() == menuOpen && Valid()
    {
      menuOpen := !menuOpen;
      SyncListeners();
    }

    /** A keydown on the document: only Escape, and only while the handler is registered, closes the menu. */
    method KeyDown(key: string)
      requires Valid()
      modifies this`menuOpen, this`mouseListener, this`keyListener
      ensures menuOpen == (old(menuOpen) && key != "Escape") && Valid()
    {
      if keyListener && key == "Escape" {
        menuOpen := false;
        SyncListeners();
      }
    }

    /** A mousedown on the document: one outside both the menu and its button closes the menu. */
    method MouseDown(target: ClickTarget)
      requires Valid()
      modifies this`menuOpen, this`mouseListener, this`keyListener
      ensures menuOpen == (old(menuOpen) && target != Outside) && Valid()
    {
      if mouseListener && target == Outside {
        menuOpen := false;
        SyncListeners();
      }
    }

    /** The "A+" button, which exists only while the menu is open. */
    method IncreaseText()
      requires menuOpen
      modifies body`fontSize
      ensures body.fontSize == "larger"
    {
      body.fontSize := "larger";
    }

    /** The "A-" button. */
    method DecreaseText()
      requires menuOpen
      modifies body`fontSize
      ensures body.fontSize == "smaller"
    {
      body.fontSize := "smaller";
    }

    /** The contrast button toggles one class on `<body>` and leaves the others. */
    method ToggleContrast()
      requires menuOpen
      modifies body`classList
      ensures body.classList == ToggleClass(old(body.classList), ContrastClass)
    {
      body.classList := ToggleClass(body.classList, ContrastClass);
    }
  }

  /**
   * The contrast class set from the menu does not survive a theme change:
   * the theme effect overwrites the body's class list, so afterwards the
   * class is present exactly when the new theme is high contrast.
   */
  method ContrastOverwrittenByTheme(layout: Page, theme: ThemeContext.ThemeProvider)
    requires layout.menuOpen && layout.body == theme.body
    modifies layout.body, theme, theme.storage, theme.announcer
    ensures layout.body.classList == {ThemeContext.BodyClass(theme.theme)}
    ensures ContrastClass in layout.body.classList <==> theme.theme == ThemeContext.HighContrast
  {
    layout.ToggleContrast();
    theme.ToggleTheme();
    ThemeContext.HighContrastBodyClass(theme.theme);
  }
}
