/** An optional value: used for the storage slot (absent or holding a list)
    and for the outcome of parsing a number (NaN or an integer). */
module Optional {

  datatype Option<T> = None | Some(value: T)
}
