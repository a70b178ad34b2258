// Optional values and the outcome of an operation that can panic.
module Results {
  datatype Option<T> = None | Some(value: T)

  /** The value of a call, or the panic it raises with its message. */
  datatype Result<T> = Ok(value: T) | Panic(message: string)

  /** The decimal digits of `n`, as `{}` formats an integer. */
  function Decimal(n: nat): string
    decreases n
  {
    if n < 10 then ["0123456789"[n]] else Decimal(n / 10) + ["0123456789"[n % 10]]
  }
}
