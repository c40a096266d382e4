/** An optional value: Java's nullable references (a component, a package name,
    the secure setting) are modelled as Option. */
module Options {

  datatype Option<+T> = None | Some(value: T)
}
