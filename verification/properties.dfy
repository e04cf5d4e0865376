/** What the theme toggle promises, stated over the step functions of `ThemeToggleComponent`. */
module ThemeToggleProperties {
  import opened Wrappers
  import opened Themes
  import opened Cookies
  import opened ThemeToggleComponent

  /** A new control is unmounted, believes `light`, and renders inert whatever the document holds. */
  lemma InitialIsInert(darkClass: bool, dataTheme: Option<string>, cookies: Jar)
    ensures var s := Initial(darkClass, dataTheme, cookies);
      && !s.mounted && s.currentTheme == Light
      && Render(s) == Button(UNMOUNTED_LABEL, Sun, true, false)
  {
  }

  /** Before mount the rendering depends on nothing: neither the belief nor the document. */
  lemma UnmountedRenderIsFixed(s: State, t: State)
    requires !s.mounted && !t.mounted
    ensures Render(s) == Render(t)
    ensures Render(s).disabled && !Render(s).visible
    ensures Render(s).ariaLabel == UNMOUNTED_LABEL && Render(s).icon == Sun
  {
  }

  /** Mount adopts the class flag, becomes mounted and leaves the document alone. */
  lemma MountReadsClass(s: State)
    ensures var m := Mounted(s);
      && m.mounted
      && (m.currentTheme == Dark <==> s.darkClass)
      && m.darkClass == s.darkClass && m.dataTheme == s.dataTheme && m.cookies == s.cookies
  {
  }

  /** A toggle flips the belief, whatever the document says, and never changes `mounted`. */
  lemma ToggleFlipsBelief(s: State, cookieKey: string)
    ensures Toggled(s, cookieKey).currentTheme == Opposite(s.currentTheme)
    ensures Toggled(s, cookieKey).mounted == s.mounted
  {
  }

  /**
   * After a toggle the class flag, the mirror and the cookie all show the new theme,
   * even when the document disagreed with the control beforehand.
   */
  lemma ToggleSyncsDocument(s: State, cookieKey: string)
    requires IsCookieName(cookieKey)
    ensures InSync(Toggled(s, cookieKey), cookieKey)
  {
    AssignThemeCookie(s.cookies, cookieKey, Name(Opposite(s.currentTheme)));
  }

  /** A toggle writes the theme cookie and no other cookie. */
  lemma ToggleKeepsOtherCookies(s: State, cookieKey: string, other: string)
    requires IsCookieName(cookieKey) && other != cookieKey
    ensures other in Toggled(s, cookieKey).cookies <==> other in s.cookies
    ensures other in s.cookies ==> Toggled(s, cookieKey).cookies[other] == s.cookies[other]
  {
    AssignThemeCookie(s.cookies, cookieKey, Name(Opposite(s.currentTheme)));
  }

  /** Two toggles bring back the belief and leave the document and cookie showing it. */
  lemma ToggleTwice(s: State, cookieKey: string)
    requires IsCookieName(cookieKey)
    ensures var r := Toggled(Toggled(s, cookieKey), cookieKey);
      && r.currentTheme == s.currentTheme && r.mounted == s.mounted
      && r.darkClass == (s.currentTheme == Dark)
      && cookieKey in r.cookies && r.cookies[cookieKey].value == Name(s.currentTheme)
  {
    ToggleSyncsDocument(Toggled(s, cookieKey), cookieKey);
  }

  /** From a synchronised state, two toggles restore everything exactly. */
  lemma ToggleTwiceRestores(s: State, cookieKey: string)
    requires IsCookieName(cookieKey) && InSync(s, cookieKey)
    ensures Toggled(Toggled(s, cookieKey), cookieKey) == s
  {
    var once := Toggled(s, cookieKey);
    var next := Opposite(s.currentTheme);
    AssignThemeCookie(s.cookies, cookieKey, Name(next));
    AssignThemeCookie(once.cookies, cookieKey, Name(s.currentTheme));
    assert once.cookies[cookieKey := StoredCookie(Name(s.currentTheme), THEME_COOKIE_ATTRIBUTES)] == s.cookies;
  }

  /** Enter and Space act exactly like a click and suppress the default action; other keys do nothing. */
  lemma KeyDownMatchesClick(s: State, key: string, cookieKey: string)
    ensures IsActivationKey(key) ==> Step(s, KeyDown(key), cookieKey) == Step(s, Click, cookieKey)
    ensures IsActivationKey(key) ==> PreventsDefault(s, KeyDown(key)) == s.mounted
    ensures !IsActivationKey(key) ==> Step(s, KeyDown(key), cookieKey) == s && !PreventsDefault(s, KeyDown(key))
  {
  }

  /** Before mount no sequence of interactions changes anything. */
  lemma {:induction false} RunBeforeMount(s: State, events: seq<Event>, cookieKey: string)
    requires !s.mounted
    ensures Run(s, events, cookieKey) == s
    decreases |events|
  {
    if events != [] {
      RunBeforeMount(s, events[1..], cookieKey);
    }
  }

  /** One interaction after mount: an activation toggles and synchronises, anything else is a no-op. */
  lemma StepAfterMount(s: State, e: Event, cookieKey: string)
    requires s.mounted && IsCookieName(cookieKey)
    ensures Step(s, e, cookieKey).mounted
    ensures IsActivation(e) ==> Step(s, e, cookieKey).currentTheme == Opposite(s.currentTheme)
    ensures IsActivation(e) ==> InSync(Step(s, e, cookieKey), cookieKey)
    ensures !IsActivation(e) ==> Step(s, e, cookieKey) == s
  {
    if IsActivation(e) {
      ToggleSyncsDocument(s, cookieKey);
    }
  }

  /** After mount, a run without activations changes nothing. */
  lemma {:induction false} RunWithoutActivation(s: State, events: seq<Event>, cookieKey: string)
    requires s.mounted && IsCookieName(cookieKey) && Activations(events) == 0
    ensures Run(s, events, cookieKey) == s
    decreases |events|
  {
    if events != [] {
      StepAfterMount(s, events[0], cookieKey);
      RunWithoutActivation(s, events[1..], cookieKey);
    }
  }

  /**
   * After mount, the belief after any run of interactions is the original one for an even
   * number of activations and its opposite for an odd number.
   */
  lemma {:induction false} RunParity(s: State, events: seq<Event>, cookieKey: string)
    requires s.mounted && IsCookieName(cookieKey)
    ensures Run(s, events, cookieKey).mounted
    ensures Run(s, events, cookieKey).currentTheme
         == if Activations(events) % 2 == 0 then s.currentTheme else Opposite(s.currentTheme)
    decreases |events|
  {
    if events != [] {
      var e, rest := events[0], events[1..];
      var next := Step(s, e, cookieKey);
      var n := Activations(rest);
      StepAfterMount(s, e, cookieKey);
      RunParity(next, rest, cookieKey);
      if IsActivation(e) {
        assert Activations(events) == n + 1;
        assert (n + 1) % 2 == 0 <==> n % 2 != 0;
      } else {
        assert Activations(events) == n;
      }
    }
  }

  /** After mount, once anything was activated the document and cookie agree with the belief. */
  lemma {:induction false} RunSyncs(s: State, events: seq<Event>, cookieKey: string)
    requires s.mounted && IsCookieName(cookieKey) && Activations(events) > 0
    ensures InSync(Run(s, events, cookieKey), cookieKey)
    decreases |events|
  {
    var e, rest := events[0], events[1..];
    var next := Step(s, e, cookieKey);
    assert Run(s, events, cookieKey) == Run(next, rest, cookieKey);
    StepAfterMount(s, e, cookieKey);
    if Activations(rest) > 0 {
      RunSyncs(next, rest, cookieKey);
    } else {
      assert IsActivation(e);
      RunWithoutActivation(next, rest, cookieKey);
    }
  }

  /** A synchronised state stays synchronised under any run of interactions, mounted or not. */
  lemma RunKeepsSync(s: State, events: seq<Event>, cookieKey: string)
    requires IsCookieName(cookieKey) && InSync(s, cookieKey)
    ensures InSync(Run(s, events, cookieKey), cookieKey)
  {
    if !s.mounted {
      RunBeforeMount(s, events, cookieKey);
    } else if Activations(events) > 0 {
      RunSyncs(s, events, cookieKey);
    } else {
      RunWithoutActivation(s, events, cookieKey);
    }
  }

  /**
   * A control mounted on a page and then used: it starts from the theme the root element
   * shows, and a later control mounted on the same page adopts the theme this one left.
   */
  lemma Session(darkClass: bool, dataTheme: Option<string>, cookies: Jar, events: seq<Event>, cookieKey: string)
    requires IsCookieName(cookieKey)
    ensures var r := Run(Mounted(Initial(darkClass, dataTheme, cookies)), events, cookieKey);
      && r.currentTheme == (if Activations(events) % 2 == 0 then Detect(darkClass) else Opposite(Detect(darkClass)))
      && Mounted(Initial(r.darkClass, r.dataTheme, r.cookies)).currentTheme == r.currentTheme
  {
    var m := Mounted(Initial(darkClass, dataTheme, cookies));
    RunParity(m, events, cookieKey);
    if Activations(events) > 0 {
      RunSyncs(m, events, cookieKey);
    } else {
      RunWithoutActivation(m, events, cookieKey);
    }
  }

  /** Once mounted the label names the theme an activation switches to, never the current one. */
  lemma LabelNamesTarget(s: State, cookieKey: string)
    requires s.mounted
    ensures Render(s).ariaLabel == "Switch to " + Name(Toggled(s, cookieKey).currentTheme) + " mode"
    ensures Render(s).ariaLabel != "Switch to " + Name(s.currentTheme) + " mode"
  {
  }

  /** Once mounted the moon icon is shown exactly for `dark`, so every toggle swaps the icon. */
  lemma IconFollowsTheme(s: State, cookieKey: string)
    requires s.mounted
    ensures Render(s).icon == Moon <==> s.currentTheme == Dark
    ensures Render(Toggled(s, cookieKey)).icon != Render(s).icon
  {
  }
}
