/** A value that may be absent: stands for TypeScript's `T | null`. */
module Optional {
  datatype Option<+T> = None | Some(value: T)
}
