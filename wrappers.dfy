/** Optional values: a JavaScript `string | null` is an `Option<string>`,
    with `None` standing for null. */
module Wrappers {

  datatype Option<+T> = None | Some(value: T)
}
