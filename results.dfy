/** Failure-carrying values shared by the model.
    A `log.Fatal()` record followed by process exit is modelled as `Fatal(message)`. */
module Results {

  datatype Option<+T> = None | Some(value: T)

  /** Either the value a step produces, or the message of the fatal record that ends the process. */
  datatype Result<+T> = Ok(value: T) | Fatal(message: string)
}
