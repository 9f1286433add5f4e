/** Small shared vocabulary: an optional value, used for JavaScript values that may be `undefined`
    and for external calls that may throw. */
module Common {

  datatype Option<+T> = None | Some(value: T)
}
