/**
 * The theme toggle control: a button that stays disabled and invisible until a one-shot
 * mount step has read the theme from the root element, and from then on flips the theme
 * on every click or Enter/Space key, writing the cookie, the `dark` class and the
 * `data-theme` mirror.
 *
 * The pure functions below specify one step each over a `State` snapshot; the class
 * `ThemeToggle` performs the same steps by updating its fields and the document in place.
 */
module ThemeToggleComponent {
  import opened Wrappers
  import opened Themes
  import opened Cookies
  import opened Dom

  /** Everything the control reads or writes: its own two fields and the document. */
  datatype State = State(
    mounted: bool,
    currentTheme: Theme,
    darkClass: bool,
    dataTheme: Option<string>,
    cookies: Jar)

  /** A freshly created control on a page whose document is as given. */
  function Initial(darkClass: bool, dataTheme: Option<string>, cookies: Jar): State {
    State(false, Light, darkClass, dataTheme, cookies)
  }

  /** The theme the root element shows: the `dark` class is authoritative. */
  function Detect(darkClass: bool): Theme {
    if darkClass then Dark else Light
  }

  /** The mount effect: adopt the theme of the root element and become mounted. */
  function Mounted(s: State): State {
    s.(mounted := true, currentTheme := Detect(s.darkClass))
  }

  /** `handleToggle`: cookie, then class and mirror, then the control's own belief. */
  function Toggled(s: State, cookieKey: string): State {
    var next := Opposite(s.currentTheme);
    var cookies := AssignCookie(s.cookies, ThemeCookieString(cookieKey, Name(next)));
    s.(currentTheme := next, darkClass := next == Dark, dataTheme := Some(Name(next)), cookies := cookies)
  }

  /** The keys that activate the control from the keyboard. */
  predicate IsActivationKey(key: string) {
    key == "Enter" || key == " "
  }

  /** A user interaction with the button. */
  datatype Event = Click | KeyDown(key: string)

  predicate IsActivation(e: Event) {
    e.Click? || IsActivationKey(e.key)
  }

  /**
   * One interaction. Before mount the button is disabled and carries no handlers, so
   * nothing happens; after mount a click or an activation key runs `handleToggle`.
   */
  function Step(s: State, e: Event, cookieKey: string): State {
    if s.mounted && IsActivation(e) then Toggled(s, cookieKey) else s
  }

  /** Whether the interaction's default action is suppressed. */
  predicate PreventsDefault(s: State, e: Event) {
    s.mounted && e.KeyDown? && IsActivationKey(e.key)
  }

  /** A sequence of interactions, in order. */
  function Run(s: State, events: seq<Event>, cookieKey: string): State
    decreases |events|
  {
    if events == [] then s else Run(Step(s, events[0], cookieKey), events[1..], cookieKey)
  }

  /** How many of the interactions are activations. */
  function Activations(events: seq<Event>): nat {
    if events == [] then 0
    else (if IsActivation(events[0]) then 1 else 0) + Activations(events[1..])
  }

  /** The class flag, the mirror attribute and the theme cookie all show the control's belief. */
  predicate InSync(s: State, cookieKey: string) {
    && s.darkClass == (s.currentTheme == Dark)
    && s.dataTheme == Some(Name(s.currentTheme))
    && cookieKey in s.cookies
    && s.cookies[cookieKey] == StoredCookie(Name(s.currentTheme), THEME_COOKIE_ATTRIBUTES)
  }

  datatype Icon = Sun | Moon

  /** What the button shows: its accessible label, its icon, and whether it is usable. */
  datatype Button = Button(ariaLabel: string, icon: Icon, disabled: bool, visible: bool)

  const UNMOUNTED_LABEL: string := "Switch theme"

  /** `Switch to ${nextTheme} mode` */
  function ActionLabel(t: Theme): string {
    "Switch to " + Name(Opposite(t)) + " mode"
  }

  /** The two render branches: disabled, invisible, sun icon before mount; live afterwards. */
  function Render(s: State): Button {
    if !s.mounted then Button(UNMOUNTED_LABEL, Sun, true, false)
    else Button(ActionLabel(s.currentTheme), if s.currentTheme == Dark then Moon else Sun, false, true)
  }

  class ThemeToggle {
    /** the page the control lives on */
    const doc: Document
    /** `THEME_COOKIE_KEY`, from configuration */
    const cookieKey: string
    var mounted: bool
    var currentTheme: Theme

    ghost predicate Valid() {
      IsCookieName(cookieKey)
    }

    function Snapshot(): State
      reads this, doc
    {
      State(mounted, currentTheme, doc.darkClass, doc.dataTheme, doc.cookies)
    }

    constructor (doc: Document, cookieKey: string)
      requires IsCookieName(cookieKey)
      ensures Valid() && this.doc == doc && this.cookieKey == cookieKey
      ensures Snapshot() == Initial(doc.darkClass, doc.dataTheme, doc.cookies)
    {
      this.doc := doc;
      this.cookieKey := cookieKey;
      mounted := false;
      currentTheme := Light;
    }

    /** The mount effect. */
    method Mount()
      modifies this`mounted, this`currentTheme
      ensures Snapshot() == Mounted(old(Snapshot()))
      ensures mounted && (currentTheme == Dark <==> doc.darkClass)
    {
      var isDark := doc.darkClass;
      var detected := if isDark then Dark else Light;
      currentTheme := detected;
      mounted := true;
    }

    /** `handleToggle` */
    method Toggle()
      requires Valid()
      modifies this`currentTheme, doc
      ensures Snapshot() == Toggled(old(Snapshot()), cookieKey)
      ensures currentTheme == Opposite(old(currentTheme)) && mounted == old(mounted)
      ensures InSync(Snapshot(), cookieKey)
    {
      var next := if currentTheme == Light then Dark else Light;
      doc.AssignCookieString(ThemeCookieString(cookieKey, Name(next)));
      if next == Dark {
        doc.AddDarkClass();
      } else {
        doc.RemoveDarkClass();
      }
      doc.SetDataTheme(Name(next));
      currentTheme := next;
      AssignThemeCookie(old(doc.cookies), cookieKey, Name(next));
    }

    /** A click on the button: `onClick={handleToggle}` once mounted, nothing while disabled. */
    method Click()
      requires Valid()
      modifies this`currentTheme, doc
      ensures Snapshot() == Step(old(Snapshot()), Event.Click, cookieKey)
    {
      if mounted {
        Toggle();
      }
    }

    /** A key press on the focused button; the result says whether `preventDefault` was called. */
    method KeyDown(key: string) returns (preventDefault: bool)
      requires Valid()
      modifies this`currentTheme, doc
      ensures Snapshot() == Step(old(Snapshot()), Event.KeyDown(key), cookieKey)
      ensures preventDefault == PreventsDefault(old(Snapshot()), Event.KeyDown(key))
    {
      preventDefault := false;
      if mounted {
        if key == "Enter" || key == " " {
          preventDefault := true;
          Toggle();
        }
      }
    }

    /** The `aria-label` the button carries. */
    function AriaLabel(): (r: string)
      reads this, doc
      ensures !mounted ==> r == UNMOUNTED_LABEL
      ensures mounted ==> r == "Switch to " + Name(Toggled(Snapshot(), cookieKey).currentTheme) + " mode"
    {
      Render(Snapshot()).ariaLabel
    }

    /** Whether the moon icon is shown (otherwise the sun). */
    function ShowsMoon(): (r: bool)
      reads this, doc
      ensures r <==> mounted && currentTheme == Dark
    {
      Render(Snapshot()).icon == Moon
    }

    /** Whether the button is disabled; a disabled button ignores every interaction. */
    function IsDisabled(): (r: bool)
      reads this, doc
      ensures r <==> !mounted
      ensures r ==> forall e :: Step(Snapshot(), e, cookieKey) == Snapshot()
    {
      Render(Snapshot()).disabled
    }
  }
}
