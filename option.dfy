/** The optional value the parser's `None`-or-value results are modelled with. */
module Optional {

  datatype Option<+T> = None | Some(value: T)
}
