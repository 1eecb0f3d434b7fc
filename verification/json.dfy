/** Values of a request body once `express.json()` has decoded it, as far as the
    `/calculate` handler can tell them apart. */
module Json {

  /** `Num` is a finite number, as `typeof v === 'number'` accepts. `Str` is kept apart because
      the operation is compared against string literals. Every other JSON value (null,
      a boolean, an array, an object) and a missing property (`undefined`) is `Other`. */
  datatype Value = Num(n: real) | Str(s: string) | Other

  /** An optional value: `None` is a request body that is not there at all. */
  datatype Option<+T> = None | Some(value: T)
}
