/** The error taxonomy of the actor lifecycle (src/error.rs). */
module Errors {

  /** `ActorError`: initialisation errors and lifecycle errors signalled by the runtime. */
  datatype ActorError =
    | UnableToInitSupervisor
    | UnableToInitChildren
    | StopError
    | KillError
    | AddExecutorFailed
}
