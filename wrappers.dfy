/** Optional values, used for the keyboard highlight and for lookups that
    make the page's render throw when a key is missing. */
module Wrappers {

  datatype Option<+T> = None | Some(value: T)

  function Min(a: nat, b: nat): nat
  {
    if a <= b then a else b
  }
}
