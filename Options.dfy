/** Swift's `Optional`, shared by every screen that stores or returns an
    optional value. */
module Options {
  datatype Option<T> = None | Some(value: T)
}
