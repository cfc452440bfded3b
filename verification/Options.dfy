module Options {
  /** A value that may be absent. */
  datatype Option<+T> = None | Some(value: T)

  /** A patch's value, or the current one where the patch is silent. */
  function Or<T>(patch: Option<T>, current: T): T { if patch.Some? then patch.value else current }
}
