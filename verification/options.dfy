/** An optional value, standing in for the JavaScript `null` / `undefined`
    that the widgets use for "no error yet" and "field absent from the body". */
module Options {

  datatype Option<+T> = None | Some(value: T)
}
