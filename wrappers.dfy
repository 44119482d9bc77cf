/** Option and Result, the failure-carrying values used throughout the model
    in place of JavaScript's undefined/null and thrown errors. */
module Wrappers {

  /** A value that may be absent: `None` stands for JavaScript's `undefined` or `null`. */
  datatype Option<+T> = None | Some(value: T)

  /** The outcome of an operation that either returns a value or throws. */
  datatype Result<+R, +E> = Success(value: R) | Failure(error: E)
}

/** The errors that travel from the entity and the persistence client up to the
    controller. A JavaScript `Error` carries a message; an error raised by the
    Prisma client also carries a provider code such as "P2002". */
module Errors {
  import opened Wrappers

  datatype Error = Error(message: string, code: Option<string>)

  /** Prisma's code for a unique-constraint violation (duplicate email or CPF). */
  const UniqueViolation: string := "P2002"

  /** Prisma's code for an operation on a record that does not exist. */
  const RecordNotFound: string := "P2025"
}
