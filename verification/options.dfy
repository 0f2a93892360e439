/** A minimal optional-value datatype, used for the partial inverses of the
    name tables (a stored string back to the button or sidebar item that
    writes it). */
module Options {

  datatype Option<+T> = None | Some(value: T)

}
