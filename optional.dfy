/** An optional value, for the results the firmware signals with a status flag. */
module Optional {

  datatype Option<+T> = None | Some(value: T)
}
