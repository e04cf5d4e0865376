# Theme toggle model

A Dafny model of the theme toggle control of the component kit
(`lp-system/components/ui/ThemeToggle.tsx`). The control is a button. It stays disabled and
invisible, with the fixed label "Switch theme" and a sun icon, until a one-shot mount step
reads the theme from the `dark` class of the root `<html>` element. After that, every click
or Enter/Space key press does three things in order. It computes the opposite theme, writes
it to the theme cookie (`<key>=<theme>; path=/; max-age=31536000; samesite=lax`), and sets
the `dark` class and the `data-theme` mirror attribute. Then it updates its own belief.

Modules:

- `Themes` (`theme.dfy`): the `light`/`dark` variants, their opposite and their literals.
- `Cookies` (`cookies.dfy`): the cookie string the toggle writes. It also holds the way a
  browser turns a `document.cookie` assignment into a jar entry. That is the
  set-cookie-string parsing of section 5.2 of RFC 6265, reduced to the name, the value and
  the raw attributes.
- `Dom` (`document.dfy`): the `Document` object. It holds the `dark` class flag, the
  `data-theme` attribute and the cookie jar, with the four DOM operations the toggle uses.
- `ThemeToggleComponent` (`theme_toggle.dfy`): a `State` snapshot and one pure function per
  step: `Mounted`, `Toggled`, `Step` for one interaction, `Run` for a sequence, and `Render`
  for the two render branches. The class `ThemeToggle` holds `mounted`, `currentTheme`, the
  document and the configured cookie key. Its methods update these in place and are proved
  equal to the step functions.
- `ThemeToggleProperties` (`properties.dfy`): the properties of those step functions.

`THEME_COOKIE_KEY` comes from a configuration file that is not part of this model. It is
the constant field `cookieKey`, fixed by the constructor and required only to be a valid
cookie name: non-empty, without `=` or `;`, and with no blank (space or tab) at either end.

Two consequences of the code are easy to miss:

- The label names the opposite of the control's belief (`currentTheme`), not of the theme
  the document currently shows. The two can differ if something else changes the document
  after mount. The next toggle then flips the belief and overwrites the document to match.
- The class flag and `data-theme` are guaranteed to agree only after the first toggle
  (`ToggleSyncsDocument`). Before that, the document is whatever the page was served with,
  and mount changes nothing in it.

## Model

| member | source | states |
|---|---|---|
| `Themes.Opposite` | lp-system/components/ui/ThemeToggle.tsx:26 | the next theme is always the other variant |
| `Themes.Name` | lp-system/components/ui/ThemeToggle.tsx:20 | each theme literal is a non-empty lower-case word, so it is a valid cookie value and attribute value |
| `Themes.NameInjective` | lp-system/components/ui/ThemeToggle.tsx:39 | the `data-theme` literal tells the two themes apart |
| `Cookies.ParseSetCookie` | lp-system/components/ui/ThemeToggle.tsx:29 | an accepted `document.cookie` assignment splits into a non-empty name without `=` or `;`, a value without `;` and attributes starting with `;`, which re-assemble to the assigned string; a refused one has an empty name or no `=` before its first `;` |
| `Cookies.ParseThemeCookie` | lp-system/components/ui/ThemeToggle.tsx:29 | the cookie string the toggle writes parses back to exactly the key, the theme and the attributes `path=/; max-age=31536000; samesite=lax` |
| `Cookies.AssignThemeCookie` | lp-system/components/ui/ThemeToggle.tsx:29 | assigning the theme cookie string sets the key's jar entry to the theme and keeps every other entry |
| `Dom.Document.AddDarkClass` | lp-system/components/ui/ThemeToggle.tsx:34 | the `dark` class is present afterwards; nothing else changes |
| `Dom.Document.RemoveDarkClass` | lp-system/components/ui/ThemeToggle.tsx:36 | the `dark` class is absent afterwards; nothing else changes |
| `Dom.Document.SetDataTheme` | lp-system/components/ui/ThemeToggle.tsx:39 | `data-theme` holds the given literal; nothing else changes |
| `Dom.Document.AssignCookieString` | lp-system/components/ui/ThemeToggle.tsx:29 | the jar becomes the old jar with the assignment applied; nothing else changes |
| `ThemeToggleComponent.ThemeToggle.constructor` | lp-system/components/ui/ThemeToggle.tsx:12-13 | a new control is unmounted, believes `light`, and leaves the document as it is |
| `ThemeToggleComponent.ThemeToggle.Mount` | lp-system/components/ui/ThemeToggle.tsx:16-23 | the control becomes mounted and believes `dark` exactly when the root has the `dark` class; the document is untouched |
| `ThemeToggleComponent.ThemeToggle.Toggle` | lp-system/components/ui/ThemeToggle.tsx:25-42 | the belief flips, `mounted` is kept, and afterwards the class flag, `data-theme` and the theme cookie all show the new theme (equal to the `Toggled` step) |
| `ThemeToggleComponent.ThemeToggle.Click` | lp-system/components/ui/ThemeToggle.tsx:96 | a click toggles once mounted and changes nothing while unmounted (equal to the `Step` function) |
| `ThemeToggleComponent.ThemeToggle.KeyDown` | lp-system/components/ui/ThemeToggle.tsx:99-104 | Enter or Space toggles and prevents the default action once mounted; any other key, or any key before mount, changes nothing (equal to the `Step` function) |
| `ThemeToggleComponent.ThemeToggle.AriaLabel` | lp-system/components/ui/ThemeToggle.tsx:44-45 | "Switch theme" before mount; afterwards "Switch to X mode" where X is the theme that `Toggle` would switch to |
| `ThemeToggleComponent.ThemeToggle.ShowsMoon` | lp-system/components/ui/ThemeToggle.tsx:106 | the moon icon is shown exactly when mounted with belief `dark` |
| `ThemeToggleComponent.ThemeToggle.IsDisabled` | lp-system/components/ui/ThemeToggle.tsx:80-90 | the button is disabled exactly while unmounted, and then no interaction changes anything |
| `ThemeToggleProperties.InitialIsInert` | lp-system/components/ui/ThemeToggle.tsx:12-13 | the initial state is unmounted with belief `light`, and renders disabled, invisible, "Switch theme" with the sun icon, whatever the document holds |
| `ThemeToggleProperties.UnmountedRenderIsFixed` | lp-system/components/ui/ThemeToggle.tsx:80-90 | before mount the rendering is the same for every belief and document: disabled, invisible, "Switch theme", sun icon |
| `ThemeToggleProperties.MountReadsClass` | lp-system/components/ui/ThemeToggle.tsx:16-23 | mount sets the belief to `dark` exactly when the `dark` class is present and leaves class, `data-theme` and cookies unchanged |
| `ThemeToggleProperties.ToggleFlipsBelief` | lp-system/components/ui/ThemeToggle.tsx:26-41 | the new belief is the opposite of the old belief, not of the class flag; `mounted` is unchanged |
| `ThemeToggleProperties.ToggleSyncsDocument` | lp-system/components/ui/ThemeToggle.tsx:32-39 | after any toggle the class flag, `data-theme` and the theme cookie agree with the new belief, even if they disagreed before |
| `ThemeToggleProperties.ToggleKeepsOtherCookies` | lp-system/components/ui/ThemeToggle.tsx:29 | a toggle leaves every cookie other than the theme cookie as it was |
| `ThemeToggleProperties.ToggleTwice` | lp-system/components/ui/ThemeToggle.tsx:25-42 | two toggles restore the belief and `mounted`, and leave the class flag and the cookie value showing the original theme |
| `ThemeToggleProperties.ToggleTwiceRestores` | lp-system/components/ui/ThemeToggle.tsx:25-42 | from a state where document and cookie agree with the belief, two toggles restore the whole state exactly |
| `ThemeToggleProperties.KeyDownMatchesClick` | lp-system/components/ui/ThemeToggle.tsx:99-104 | Enter and Space act exactly as a click and prevent the default once mounted; other keys change nothing and prevent nothing |
| `ThemeToggleProperties.RunBeforeMount` | lp-system/components/ui/ThemeToggle.tsx:80-90 | before mount, no sequence of clicks and key presses changes anything |
| `ThemeToggleProperties.StepAfterMount` | lp-system/components/ui/ThemeToggle.tsx:93-104 | after mount an activation flips the belief and synchronises the document; any other interaction changes nothing |
| `ThemeToggleProperties.RunWithoutActivation` | lp-system/components/ui/ThemeToggle.tsx:99-104 | after mount, a run of interactions none of which is a click, Enter or Space changes nothing |
| `ThemeToggleProperties.RunParity` | lp-system/components/ui/ThemeToggle.tsx:25-42 | after mount, the belief after any run is the original one for an even number of activations and its opposite for an odd number; the control stays mounted |
| `ThemeToggleProperties.RunSyncs` | lp-system/components/ui/ThemeToggle.tsx:32-39 | after mount, once a run holds at least one activation, the class flag, `data-theme` and the theme cookie agree with the belief at its end |
| `ThemeToggleProperties.RunKeepsSync` | lp-system/components/ui/ThemeToggle.tsx:25-42 | once document and cookie agree with the belief, every run of interactions, before or after mount, keeps them in agreement |
| `ThemeToggleProperties.Session` | lp-system/components/ui/ThemeToggle.tsx:16-42 | a mounted control starts from the theme the `dark` class shows and flips once per activation; a control mounted later on the same page adopts the theme the first one left |
| `ThemeToggleProperties.LabelNamesTarget` | lp-system/components/ui/ThemeToggle.tsx:44-45 | once mounted the label is "Switch to X mode" for the theme X a toggle produces, and never names the current belief |
| `ThemeToggleProperties.IconFollowsTheme` | lp-system/components/ui/ThemeToggle.tsx:106 | once mounted the moon icon is shown exactly for `dark`, and every toggle swaps the icon |

## Left out

- React mechanics (`useState`, `useEffect` scheduling, hydration, re-rendering): the mount effect is the explicit `Mount` step, and state setters are direct field updates.
- `Mount` has no precondition that the control is unmounted: a repeated run of the effect, as React's development mode does, only reads the class again.
- Reading the cookie back, cookie expiry, path matching and `SameSite` enforcement belong to the browser. The jar keeps only the value and the raw attribute string of each cookie.
- `Cookies.ParseSetCookie` does not trim blanks around the name and the value, as section 5.2 of RFC 6265 does. This cannot affect the theme cookie: `IsCookieName` excludes a key with a blank at either end, and every theme value is lower-case letters (`Themes.Name`).
- The server-side initial theme and the pre-paint application of the stored preference: `config/preferences` and the layout that uses it are not part of this model. The document's initial state is an arbitrary input.
- SVG path data, Tailwind class strings, the focus ring and `opacity-0` styling. Only "visible or not" is kept.
- The semantic token table and its resolver: no file in this model implements them. `tailwind.config.ts` is static build configuration.
- `CTAButton.tsx` and `FeatureCard.tsx`: presentational components that join class names taken from design-system tables that are not part of this model.
