/**
 Values shared by every component of the model.

 Identifiers that the middleware derives with SHA-256, HMAC or uuid5 are modelled by one
 constructor per derivation, so that a derivation is injective and two different derivations
 never meet.  Identifiers drawn at random (uuid4, `secrets`) are `Random` values numbered by the
 component that draws them.
 */
module Identities {

  datatype Option<+T> = None | Some(value: T)

  datatype Result<+T, +E> = Ok(value: T) | Err(error: E)

  /** Instants are integers; the unit is the one the component in question works in. */
  type Time = int

  datatype Name =
    | Text(chars: string)
    | Random(n: int)
      // Digests and tokens
    | TokenDigest(token: Name)
    | LeaseToken(delivery: Name, job: Name, execution: Name, client: Name)
      // Automation
    | JobId(tenant: Name, event: Name, workflowKey: Name, workflowVersion: int)
    | DeadLetterId(tenant: Name, job: Name)
    | ApprovalId(tenant: Name, job: Name, key: Name)
      // Calling
    | CallId(client: Name, tenant: Name, subject: Name, key: Name)
      // Incidents and their notifications
    | IncidentId(tenant: Name, fingerprint: Name)
    | RequestKey(client: Name, key: Name, fingerprint: Name)
    | AlertKey(groupKey: Name, fingerprint: Name, firing: bool, receiver: Name,
               environment: Name, recipientPolicy: Name, startsAt: Time)
    | AlertCommandId(idempotencyKey: Name)
    | RepeatKey(base: Name, requestKey: Name)
    | RepeatCommandId(idempotencyKey: Name)
    | GroupWaitCancelKey(incident: Name, operation: Name)
    | RetryKey(tenant: Name, command: Name, actor: Name, key: Name)

  function Or<T>(first: Option<T>, second: Option<T>): Option<T> {
    if first.Some? then first else second
  }
}
