/** Values that may be absent. */
module Wrappers {
  datatype Option<+T> = None | Some(value: T)

  function Or<T>(first: Option<T>, otherwise: T): T { if first.Some? then first.value else otherwise }

  function OrElse<T>(first: Option<T>, second: Option<T>): Option<T> { if first.Some? then first else second }
}
