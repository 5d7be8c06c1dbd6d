/** A value that may be missing: a JavaScript `null`/`undefined`, a guard that found nothing wrong. */
module Wrappers {

  datatype Option<+T> = None | Some(value: T)
}
