/** The optional value used for Python's `None`-or-value results (`dict.get`,
    a nullable SQLite column). */
module Options {

  datatype Option<+T> = None | Some(value: T)

}
