/**
 * The theme cookie: the string the toggle assigns to `document.cookie`, and the way a
 * browser turns such an assignment into an entry of its cookie jar (the set-cookie-string
 * parsing of section 5.2 of RFC 6265, restricted to what this model needs).
 */
module Cookies {
  import opened Wrappers

  /** Everything after the name-value pair of the theme cookie: site-wide, one year, lax. */
  const THEME_COOKIE_ATTRIBUTES: string := "; path=/; max-age=31536000; samesite=lax"

  /** What a parsed name can be: non-empty, no `=` and no `;`. */
  predicate IsNameToken(s: string) {
    |s| > 0 && forall i :: 0 <= i < |s| ==> s[i] != '=' && s[i] != ';'
  }

  /** The blanks a browser trims from both ends of a cookie name and value. */
  predicate IsBlank(c: char) {
    c == ' ' || c == '\t'
  }

  /**
   * A cookie name a browser stores as written: a name token that neither starts nor ends
   * with a blank, so the trimming of section 5.2 of RFC 6265 leaves it as it is.
   */
  predicate IsCookieName(s: string) {
    IsNameToken(s) && !IsBlank(s[0]) && !IsBlank(s[|s| - 1])
  }

  /** A cookie value: no `;`. */
  predicate IsCookieValue(s: string) {
    forall i :: 0 <= i < |s| ==> s[i] != ';'
  }

  /** `${THEME_COOKIE_KEY}=${nextTheme}; path=/; max-age=31536000; samesite=lax` */
  function ThemeCookieString(name: string, value: string): string {
    name + "=" + value + THEME_COOKIE_ATTRIBUTES
  }

  /** Position of the first `c` in `s`, or `|s|` when there is none. */
  function IndexOf(s: string, c: char): (i: nat)
    ensures i <= |s|
    ensures forall j :: 0 <= j < i ==> s[j] != c
    ensures i < |s| ==> s[i] == c
  {
    if |s| == 0 then 0
    else if s[0] == c then 0
    else 1 + IndexOf(s[1..], c)
  }

  /** One parsed cookie assignment. */
  datatype SetCookie = SetCookie(name: string, value: string, attributes: string)

  /**
   * The name-value pair is everything before the first `;`; it is split at its first `=`.
   * An assignment without `=` in that pair, or with an empty name, is ignored.
   */
  function ParseSetCookie(s: string): (r: Option<SetCookie>)
    ensures r.Some? ==> IsNameToken(r.value.name) && IsCookieValue(r.value.value)
    ensures r.Some? ==> r.value.attributes == [] || r.value.attributes[0] == ';'
    ensures r.Some? ==> s == r.value.name + "=" + r.value.value + r.value.attributes
    ensures r.None? ==>
              (|s| > 0 && s[0] == '=') ||
              (forall j :: 0 <= j < |s| && s[j] == '=' ==> exists k :: 0 <= k < j && s[k] == ';')
  {
    var semi := IndexOf(s, ';');
    var pair := s[..semi];
    var eq := IndexOf(pair, '=');
    if eq == |pair| || eq == 0 then
      assert eq == |pair| ==> forall j :: 0 <= j < |s| && s[j] == '=' ==> j > semi && s[semi] == ';';
      None
    else
      var c := SetCookie(pair[..eq], pair[eq + 1..], s[semi..]);
      assert pair == c.name + "=" + c.value;
      assert s == pair + s[semi..];
      Some(c)
  }

  /** A jar entry: the value and the attributes it was set with. */
  datatype StoredCookie = StoredCookie(value: string, attributes: string)

  type Jar = map<string, StoredCookie>

  /** The jar after `document.cookie = s`: a parsed assignment replaces the entry of its name. */
  function AssignCookie(jar: Jar, s: string): Jar {
    match ParseSetCookie(s)
    case None => jar
    case Some(c) => jar[c.name := StoredCookie(c.value, c.attributes)]
  }

  /** `IndexOf` finds exactly the first occurrence. */
  lemma IndexOfIsFirst(s: string, c: char, i: nat)
    requires i <= |s|
    requires forall j :: 0 <= j < i ==> s[j] != c
    requires i < |s| ==> s[i] == c
    ensures IndexOf(s, c) == i
  {
  }

  /** The theme cookie string parses back to its name, its value and its attributes. */
  lemma ParseThemeCookie(name: string, value: string)
    requires IsCookieName(name) && IsCookieValue(value)
    ensures ParseSetCookie(ThemeCookieString(name, value))
         == Some(SetCookie(name, value, THEME_COOKIE_ATTRIBUTES))
  {
    var s := ThemeCookieString(name, value);
    var semi := |name| + 1 + |value|;
    assert s[semi] == ';';
    assert forall j :: 0 <= j < semi ==> s[j] != ';' by {
      forall j | 0 <= j < semi ensures s[j] != ';' {
        if j < |name| { assert s[j] == name[j]; }
        else if j > |name| { assert s[j] == value[j - |name| - 1]; }
      }
    }
    IndexOfIsFirst(s, ';', semi);
    var pair := s[..semi];
    assert pair == name + "=" + value;
    assert pair[|name|] == '=';
    assert forall j :: 0 <= j < |name| ==> pair[j] != '=' by {
      forall j | 0 <= j < |name| ensures pair[j] != '=' { assert pair[j] == name[j]; }
    }
    IndexOfIsFirst(pair, '=', |name|);
    assert pair[..|name|] == name;
    assert pair[|name| + 1..] == value;
    assert s[semi..] == THEME_COOKIE_ATTRIBUTES;
  }

  /** Writing the theme cookie sets exactly the entry of its name. */
  lemma AssignThemeCookie(jar: Jar, name: string, value: string)
    requires IsCookieName(name) && IsCookieValue(value)
    ensures AssignCookie(jar, ThemeCookieString(name, value))
         == jar[name := StoredCookie(value, THEME_COOKIE_ATTRIBUTES)]
  {
    ParseThemeCookie(name, value);
  }
}
