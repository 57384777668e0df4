/** The option type that every other module uses for Go's nil-able values. */
module Options {
  datatype Option<+T> = None | Some(value: T)

  function Max(a: nat, b: nat): nat {
    if a < b then b else a
  }
}
