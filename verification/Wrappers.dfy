/** Values that may be missing, and Python's idioms for texts. */
module Wrappers {
  datatype Option<+T> = None | Some(value: T)

  /** `a or b` on texts that may be missing. */
  function Or(a: Option<string>, b: Option<string>): Option<string> {
    if a.Some? && a.value != "" then a else b
  }

  /** `not text.strip()` */
  predicate Blank(s: string) {
    forall c :: c in s ==> c in " \t\n\r"
  }
}
