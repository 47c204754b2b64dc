/** Value-or-exception outcomes.

    Every collaborator the system calls (speech-to-text, chorus detection, the
    music2emo service, the language models, Veo, Cloud Storage, moviepy) is
    modelled by the outcome of the call: either the value it returned or the
    message of the exception it raised. Functions of the model that can raise
    in the original program return a `Result` as well.

    An exception is represented by its text `str(e)`, without the class name,
    as the program itself renders the exceptions it catches. For the ones
    that escape `process_audio` only which exception it is matters.
 */
module Results {

  /** Python's `None` or a present value. */
  datatype Option<+T> = None | Some(value: T)

  /** A returned value, or an exception that propagates to the caller. */
  datatype Result<+T> = Ok(value: T) | Raised(error: string)
}
