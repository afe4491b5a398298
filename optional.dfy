/** The optional value the game code gets from Swift's `?` chains. */
module Optional {

  datatype Option<+T> = None | Some(value: T)
}
