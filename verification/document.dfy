/**
 * The part of the page the toggle reads and writes: the `dark` class and the
 * `data-theme` attribute of the root `<html>` element, and the cookie jar behind
 * `document.cookie`.
 */
module Dom {
  import opened Wrappers
  import opened Cookies

  class Document {
    /** `document.documentElement.classList.contains('dark')` */
    var darkClass: bool
    /** `document.documentElement.dataset.theme`; `None` while unset */
    var dataTheme: Option<string>
    /** the cookies stored for the site, by name */
    var cookies: Jar

    /** `html.classList.add('dark')` */
    method AddDarkClass()
      modifies this`darkClass
      ensures darkClass
    {
      darkClass := true;
    }

    /** `html.classList.remove('dark')` */
    method RemoveDarkClass()
      modifies this`darkClass
      ensures !darkClass
    {
      darkClass := false;
    }

    /** `html.dataset.theme = value` */
    method SetDataTheme(value: string)
      modifies this`dataTheme
      ensures dataTheme == Some(value)
    {
      dataTheme := Some(value);
    }

    /** `document.cookie = s` */
    method AssignCookieString(s: string)
      modifies this`cookies
      ensures cookies == AssignCookie(old(cookies), s)
    {
      cookies := AssignCookie(cookies, s);
    }
  }
}
