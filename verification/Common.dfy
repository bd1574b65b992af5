/** Vocabulary shared by every model: optional pointers and native status codes. */
module Common {

  /** A pointer that may be null. */
  datatype Option<+T> = None | Some(value: T)

  /** What a native call returns; nats.c has many failure codes and the wrapper treats them alike. */
  datatype Status = Ok | Failed(code: nat)
}
