/** Java's exceptions as values: what a call may throw, and the result of a call that may throw. */
module Exceptions {
  import opened Wrappers
  import opened Config

  /** The kind of configuration a ConfigNotFoundException names. */
  datatype ConfigSchema =
    | StandardSourceDefinitionSchema
    | StandardDestinationDefinitionSchema
    | SourceConnectionSchema
    | DestinationConnectionSchema
    | StandardSyncSchema

  /** The exceptions that cross this layer. OtherException stands for every other subclass of
      java.lang.Exception; throwables that are not Exceptions (java.lang.Error) are not modelled. */
  datatype Exception =
    | ConfigNotFoundException(schema: ConfigSchema, configId: Uuid)
    | IOException(message: string)
    | JsonValidationException(violations: seq<string>)
    | SynchronousJobException(metadata: SynchronousJobMetadata)
    | RuntimeException(cause: Exception)
    | OtherException(className: string, message: string)

  /** The result of a call that may throw: its return value, or the exception it throws. */
  datatype Result<+T> = Ok(value: T) | Err(exception: Exception) {

    predicate IsFailure() {
      Err?
    }

    function PropagateFailure<U>(): (r: Result<U>)
      requires Err?
    {
      Err(exception)
    }

    function Extract(): (v: T)
      requires Ok?
    {
      value
    }
  }

  /** What a unit of work did when it was run: it returned a value (possibly null), or it threw. */
  datatype Outcome<+T> = Returned(value: Option<T>) | Threw(thrown: Exception)
}
