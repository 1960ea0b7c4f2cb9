/** The optional value used for "absent" results across the model
    (a missing storage item, a failed JSON parse, a null render). */
module Options {
  datatype Option<+T> = None | Some(value: T)
}
