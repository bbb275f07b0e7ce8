/** An optional value, used where a handler may or may not produce a report. */
module Optional {
  datatype Option<+T> = None | Some(value: T)
}
