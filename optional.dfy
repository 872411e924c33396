/** An optional value: `None` where the JavaScript code sees `NaN` or a missing field. */
module Optional {

  datatype Option<+T> = None | Some(value: T)
}
