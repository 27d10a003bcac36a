/** The optional value that stands for a JavaScript slot holding either `null` or an object. */
module Options {

  datatype Option<+T> = None | Some(value: T)

}
