/** The records of the voucher system and the errors its services return. */
module Domain {

  datatype Option<+T> = None | Some(value: T)

  datatype Result<+T> = Ok(value: T) | Err(error: Error)

  datatype Error =
    | InvalidInput
    | NotFound
    | InvalidToken
    | TokenExpired
    | TokenRevoked
    | TokenConsumed
    | DeviceBound
    | PlanInactive
    | SessionNotFound
    | SessionNotActive
    | AlreadyExists      // the store refuses a duplicate identifier
    | InvalidCount
    | RandomFailed       // the random source failed
    | GatewayFailed      // the gateway controller refused or did not answer
    | MissingStatus

  /** Instants and durations are whole nanoseconds, as in Go's time package. */
  type Time = int

  const SECOND: Time := 1_000_000_000
  const MINUTE: Time := 60 * SECOND

  const BYTES_PER_MB := 1024 * 1024

  datatype Plan = Plan(
    id: string,
    durationMinutes: int,
    dataLimitMB: int,
    speedDownKbps: int,
    speedUpKbps: int,
    deviceLimit: int,
    active: bool)
  {
    function Lifetime(): Time { durationMinutes * MINUTE }

    function LimitBytes(): int { dataLimitMB * BYTES_PER_MB }
  }

  datatype TokenStatus = Created | Unused | Active | Expired | Consumed | Revoked
  {
    /** Created and unused come before active, which comes before the three final statuses. */
    function Rank(): nat {
      match this
      case Created | Unused => 0
      case Active => 1
      case Expired | Consumed | Revoked => 2
    }
  }

  datatype Token = Token(
    id: string,
    planId: string,
    codeHash: string,
    status: TokenStatus,
    createdAt: Time,
    updatedAt: Time,
    activatedAt: Option<Time>,
    expiresAt: Option<Time>,
    usedBy: Option<string>,
    notes: string,
    revokedReason: string)
  {
    /** The expiry instant is set and has been reached. */
    predicate PastExpiry(now: Time) {
      expiresAt.Some? && expiresAt.value <= now
    }

    /** What the sweep looks for. */
    predicate Due(now: Time) {
      status == Active && PastExpiry(now)
    }
  }

  datatype SessionStatus = Live | Ended

  datatype Session = Session(
    id: string,
    tokenId: string,
    deviceMac: string,
    ip: string,
    gatewayId: string,
    radiusSessionId: string,
    nasIp: string,
    nasIdentifier: string,
    pending: bool,            // a gateway disconnect is still owed
    startedAt: Time,
    endedAt: Option<Time>,
    bytesUp: int,
    bytesDown: int,
    status: SessionStatus,
    endReason: string)
  {
    function Close(now: Time, reason: string, owed: bool): Session {
      this.(status := Ended, endReason := reason, endedAt := Some(now), pending := owed)
    }
  }

  datatype UsageRecord = UsageRecord(
    sessionId: string,
    tokenId: string,
    bytesUp: int,
    bytesDown: int,
    createdAt: Time)

  datatype Policy = Policy(
    sessionTimeoutSec: int,
    dataQuotaBytes: int,
    speedDownKbps: int,
    speedUpKbps: int,
    deviceLimit: int)

  /** A queued request to disconnect a session again. */
  datatype Task = Task(sessionId: string, reason: string)

  /**
   What the surroundings decide during one operation: the clock reading, the sessions whose
   disconnect the gateway controller refuses, and those whose retry the queue fails to store.
   */
  datatype Env = Env(now: Time, failing: set<string>, unqueued: set<string>)
}
