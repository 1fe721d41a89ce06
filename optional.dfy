/** The optional value that stands for the source's `null`, `undefined`
    and NaN results. */
module Optional {
  datatype Option<+T> = None | Some(value: T)
}
