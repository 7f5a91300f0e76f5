/** An optional value, used for the optional `screen?` field of an app icon. */
module Optional {

  datatype Option<+T> = None | Some(value: T)

}
