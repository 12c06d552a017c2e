/** An optional value, for the places where the component holds `undefined`
    or where an external call may produce nothing. */
module Options {

  datatype Option<+T> = None | Some(value: T)
}
