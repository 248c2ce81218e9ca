/** Vocabulary shared by every component: optional values, the error classes the
    reconcile loop tells apart, and what the environment may do to one call. */
module Support {

  datatype Option<+T> = None | Some(value: T)

  function Or<T>(o: Option<T>, otherwise: T): T { if o.Some? then o.value else otherwise }

  /** Cloud identifiers. The empty string of the source is NO_UUID. */
  type Uuid = nat
  const NO_UUID: Uuid := 0

  const NOT_FOUND := 404
  const CONFLICT := 409

  /** The error classes the operator branches on. Api carries the HTTP status of a
      cloud error (0 when unknown); Other is any error that carries none. */
  datatype Error = DependencyNotReady | Pending | Api(status: nat) | Other

  predicate IsNotFound(e: Error) { e == Api(NOT_FOUND) }

  predicate IsConflict(e: Error) { e == Api(CONFLICT) }

  datatype Result<+T> = Ok(value: T) | Err(error: Error)

  /** Status of a failing call. A 404 is only ever an honest answer: section 15.5.5
      of RFC 9110 says the target was not found, and the operator trusts it. */
  type FailStatus = s: nat | s != NOT_FOUND witness 500

  /** What the environment does to one call: it goes through, it is refused with no
      effect, or it takes effect and the answer is lost. */
  datatype Fault = Works | Refused(status: FailStatus) | LostReply(status: FailStatus)

  predicate TakesEffect(f: Fault) { !f.Refused? }

  /** The answer a caller sees for a call whose honest answer is `honest`. */
  function Answer<T>(f: Fault, honest: Result<T>): Result<T> {
    match f
    case Works => honest
    case Refused(s) => Err(Api(s))
    case LostReply(s) => Err(Api(s))
  }

  /** Outcome of a write to the Kubernetes API server. */
  datatype Write = Done | Rejected | DoneNoReply
}
