/** The two theme variants and the string literals that name them in the DOM and in the cookie. */
module Themes {

  datatype Theme = Light | Dark

  /** The theme an activation switches to: `currentTheme === 'light' ? 'dark' : 'light'`. */
  function Opposite(t: Theme): (r: Theme)
    ensures r != t
  {
    if t == Light then Dark else Light
  }

  /** The literal written to `data-theme`, to the cookie and into the label. */
  function Name(t: Theme): (s: string)
    ensures |s| > 0
    ensures forall i :: 0 <= i < |s| ==> 'a' <= s[i] <= 'z'
  {
    match t
    case Light => "light"
    case Dark => "dark"
  }

  /** Two different themes are never written as the same literal. */
  lemma NameInjective(a: Theme, b: Theme)
    ensures Name(a) == Name(b) <==> a == b
  {
  }
}
