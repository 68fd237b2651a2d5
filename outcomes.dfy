/** Option, results and the two ways a setter of the legacy entry can stop:
    the process exits (System.exit(1)) or an HPOException is thrown. */
module Outcomes {

  datatype Option<+T> = None | Some(value: T)

  /** Why the converter calls System.exit(1). */
  datatype ExitCause =
    | UnrecognizedDiseaseDatabase
    | EmptyDiseaseName
    | BadOnsetPrefix
    | BadOnsetLength
    | FrequencyGivenAsTerm
    | UnrecognizedFrequency
    | UnidentifiedModifier

  /** Why the converter throws an HPOException. */
  datatype ExceptionCause =
    | InvalidHpoPrefix
    | TermNotInOntology
    | UnrecognizedSexId
    | UnrecognizedSexName
    | UnrecognizedSexCode
    | MalformedNegationId
    | MalformedNegationName

  datatype Failure =
    | Exit(exitCause: ExitCause)
    | Thrown(exceptionCause: ExceptionCause)

  datatype Result<+T> = Ok(value: T) | Err(failure: Failure)

  /** What a setter returns: it completed, or it stopped with a failure. */
  datatype Outcome = Done | Failed(failure: Failure)
}
