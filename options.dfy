/** JavaScript's `null`-or-value, and the way a call can end. */
module Options {

  datatype Option<+T> = None | Some(value: T)

  /** How a JavaScript call ends: normally, or by throwing the named error. */
  datatype Completion = Normal | Threw(error: string)
}
