/** Option, standing for PHP's "null or a value" and for operations that
    end in an error the model does not describe further. */
module Wrappers {

  datatype Option<+T> = None | Some(value: T)
}
