/** Python's `None`-or-value, and the `x or ""` default the source applies
    to texts that may be missing. */
module Wrappers {

  datatype Option<+T> = None | Some(value: T)

  /** `txt or ""`: a missing or empty text becomes the empty string, any
      other text is kept. */
  function OrEmpty(txt: Option<string>): (s: string)
    ensures txt.Some? ==> s == txt.value
    ensures txt.None? ==> s == ""
  {
    match txt
    case None => ""
    case Some(t) => t
  }
}
