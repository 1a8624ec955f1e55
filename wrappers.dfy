/** The one optional-value type the model needs: it stands for a JavaScript
    value that may be `undefined`. */
module Wrappers {

  datatype Option<+T> = None | Some(value: T)
}
