/** The optional value used wherever the Java code works with `java.util.Optional` or a nullable reference. */
module Options {

  datatype Option<+T> = None | Some(value: T)
}
