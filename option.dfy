/**
 * Optional values: the model of a JavaScript `number | null` and of a record
 * field that may be missing.
 */
module Optional {

  datatype Option<+T> = None | Some(value: T)

}
