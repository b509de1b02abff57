/** The absent-or-present value used where a build-time selection can fail
    to produce a definition, or where a runtime lookup has no answer. */
module Wrappers {

  datatype Option<+T> = None | Some(value: T)

}
