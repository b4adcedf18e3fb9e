/** Outcomes of operations that the source aborts with an explicit `panic!` or `assert_eq!`. */
module Results {
  /** `Panic` carries the message the source panics with; `Ok` the value it returns. */
  datatype Result<T> = Ok(value: T) | Panic(message: string)

  /** An optional argument, as the source's `Option<&[f32]>`. */
  datatype Option<T> = None | Some(value: T)
}
