/** The "present or absent" wrapper used throughout the model. A falsy
    JavaScript `err` (null, undefined) is `None`; a truthy one is `Some`. */
module Wrappers {

  datatype Option<+T> = None | Some(value: T)
}
