/** A value that may be absent: TypeScript's `string | null` and `string | undefined`. */
module Maybe {

  datatype Option<T> = None | Some(value: T)

}
