/** The usual optional-value wrapper, used where the bot's code gets "nothing" back. */
module Wrappers {
  datatype Option<T> = None | Some(value: T)
}
