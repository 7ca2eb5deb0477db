/** The `T | null` values of the hook and the component. */
module Options {

  datatype Option<+T> = None | Some(value: T)
}
