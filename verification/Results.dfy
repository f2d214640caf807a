/** Success-or-error and optional values, shared by every module. */
module Results {

  datatype Option<+T> = None | Some(value: T)

  datatype Result<+T> = Ok(value: T) | Err(reason: Reason)

  /** The error classes that the parsers of the operator distinguish. */
  datatype Reason =
    | InvalidFormat
    | InvalidProvider
    | InvalidName
    | InvalidKubernetesMajor
    | InvalidKubernetesMinor
    | InvalidVersion
    | NotANumber
}
