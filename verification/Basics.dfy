/** What every model here shares. Identifiers are only ever compared for equality, so they are
    numbers; NONE stands for the empty string. */
module Basics {
  type Id = nat
  const NONE: Id := 0

  datatype Option<+T> = None | Some(value: T)

  function Max(a: real, b: real): real { if a < b then b else a }

  function Min(a: real, b: real): real { if b < a then b else a }
}
