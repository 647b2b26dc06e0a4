/** RADIUS authentication and accounting over the other services (service/radius_service.go). */
module RadiusServices {
  import opened Domain
  import opened Keys
  import opened Store
  import opened Gateway
  import opened Quota
  import opened Sessions
  import opened Tokens
  import opened Services

  datatype AuthInput = AuthInput(
    userName: string,
    callingStation: string,
    framedIp: string,
    nasIp: string,
    nasIdentifier: string,
    acctSessionId: string)

  datatype Decision =
    | Allow(session: Session, policy: Policy)
    | BadAddress
    | Deny(reason: Error)

  datatype Answer = Answer(world: World, decision: Decision)

  function GatewayName(req: AuthInput): string {
    if req.nasIdentifier != "" then req.nasIdentifier else if req.nasIp != "" then req.nasIp else "radius"
  }

  function AsRedeem(req: AuthInput, mac: string): RedeemInput {
    RedeemInput(req.userName, mac, req.framedIp, GatewayName(req), req.acctSessionId, req.nasIp, req.nasIdentifier)
  }

  function Decide(r: Result<RedeemResult>): Decision {
    match r
    case Ok(v) => Allow(v.session, v.policy)
    case Err(e) => Deny(e)
  }

  /**
   Resume first; redeem only when resuming reports an unknown or unused token. The clock is read by each of
   the two, the second time at `later`.
   */
  ghost function Authentication(hash: string -> string, w: World, env: Env, later: Time, req: AuthInput, newId: string)
    : Answer
  {
    var mac := CanonicalMac(req.callingStation);
    if mac.None? then Answer(w, BadAddress)
    else
      var resumed := Redeem(hash, w, env, AsRedeem(req, mac.value), true, newId);
      var final :=
        if resumed.result == Err(InvalidToken) then
          Redeem(hash, resumed.world, env.(now := later), AsRedeem(req, mac.value), false, newId)
        else resumed;
      Answer(final.world, Decide(final.result))
  }

  /** The reading that decides: the second one exactly when resuming reports an unknown or unused token. */
  ghost function Deciding(hash: string -> string, w: World, env: Env, later: Time, req: AuthInput, newId: string): Env {
    if Redeem(hash, w, env, AsRedeem(req, req.callingStation), true, newId).result == Err(InvalidToken)
    then env.(now := later)
    else env
  }

  lemma AuthenticateKeepsValid(hash: string -> string, w: World, env: Env, later: Time, req: AuthInput, newId: string)
    requires Valid(w.db)
    ensures var w' := Authentication(hash, w, env, later, req, newId).world; Valid(w'.db) && Evolves(w.db, w'.db)
  {
    var at := Deciding(hash, w, env, later, req, newId);
    AuthenticateIsRedeem(hash, w, env, later, req, newId);
    RedeemKeepsValid(hash, w, at, AsRedeem(req, req.callingStation), false, newId);
  }

  /** A resume either agrees with a redeem in every respect or reports InvalidToken and has changed nothing. */
  lemma ResumeOrRedeem(hash: string -> string, w: World, env: Env, req: RedeemInput, newId: string)
    ensures var resumed := Redeem(hash, w, env, req, true, newId);
            if resumed.result == Err(InvalidToken) then resumed.world == w
            else resumed == Redeem(hash, w, env, req, false, newId)
  {
    var admitted := Admit(hash, w.db, req);
    if admitted.Ok? && admitted.value.token.PastExpiry(env.now) {
      ExpiryErrors(w, env, admitted.value.token);
    }
  }

  lemma ExpiryErrors(w: World, env: Env, t: Token)
    requires t.PastExpiry(env.now)
    ensures EnsureNotExpired(w, env, t).result in {Err(TokenExpired), Err(GatewayFailed), Err(SessionNotFound)}
  {
  }

  /**
   Authentication is one redemption with the address exactly as the access point sent it: the same
   final world, allowed in the same cases with the same session and policy, denied for the same
   reason. A malformed address is denied by both, and neither changes anything.
   */
  lemma AuthenticateIsRedeem(hash: string -> string, w: World, env: Env, later: Time, req: AuthInput, newId: string)
    ensures var answer := Authentication(hash, w, env, later, req, newId);
            var at := Deciding(hash, w, env, later, req, newId);
            var redeemed := Redeem(hash, w, at, AsRedeem(req, req.callingStation), false, newId);
            && answer.world == redeemed.world
            && answer.decision
               == (if CanonicalMac(req.callingStation).None? then BadAddress else Decide(redeemed.result))
            && (CanonicalMac(req.callingStation).None? ==> redeemed == Reply(w, Err(InvalidInput)))
  {
    var mac := CanonicalMac(req.callingStation);
    if mac.Some? {
      MacIdempotent(req.callingStation);
      ResumeOrRedeem(hash, w, env, AsRedeem(req, mac.value), newId);
      SameAddressSameRedeem(hash, w, env, AsRedeem(req, mac.value), AsRedeem(req, req.callingStation), true, newId);
      var at := Deciding(hash, w, env, later, req, newId);
      SameAddressSameRedeem(hash, w, at, AsRedeem(req, mac.value), AsRedeem(req, req.callingStation), false, newId);
    }
  }

  /** Only the canonical form of the device address matters to a redemption. */
  lemma SameAddressSameRedeem(hash: string -> string, w: World, env: Env, a: RedeemInput, b: RedeemInput,
                              requireActive: bool, newId: string)
    requires b == a.(deviceMac := b.deviceMac) && CanonicalMac(a.deviceMac) == CanonicalMac(b.deviceMac)
    ensures Redeem(hash, w, env, a, requireActive, newId) == Redeem(hash, w, env, b, requireActive, newId)
  {
    assert Admit(hash, w.db, a) == Admit(hash, w.db, b);
  }

  /** The second reading of the clock never changes whether access is allowed, nor the reason for a denial. */
  lemma ReadingDecidesNothing(hash: string -> string, w: World, env: Env, later: Time, req: RedeemInput, newId: string)
    requires Valid(w.db) && Redeem(hash, w, env, req, true, newId).result == Err(InvalidToken)
    ensures var once := Redeem(hash, w, env, req, false, newId).result;
            var again := Redeem(hash, w, env.(now := later), req, false, newId).result;
            once.Ok? == again.Ok? && (once.Err? ==> once == again)
  {
    var admitted := Admit(hash, w.db, req);
    if admitted.Ok? {
      AdmitFindsStored(hash, w.db, req);
      assert TokenOk(w.db, admitted.value.token);
      if admitted.value.token.PastExpiry(env.now) {
        ExpiryErrors(w, env, admitted.value.token);
      }
    }
  }

  lemma AnyMatch(db: Db, radiusSessionId: string, nasIp: string) returns (found: Option<string>)
    ensures IsRadiusMatch(db, found, radiusSessionId, nasIp)
  {
    if sid :| sid in db.sessions && MatchesRadius(db.sessions[sid], radiusSessionId, nasIp) {
      found := Some(sid);
    } else {
      found := None;
    }
  }

  class RadiusService {
    const store: MemoryStore
    const outside: Outside
    const tokens: TokenService
    const sessions: SessionService
    const gateway: GatewayIntegrationService

    constructor (store: MemoryStore, outside: Outside, digest: string -> string)
      ensures this.store == store && this.outside == outside && tokens.digest == digest && Wired()
    {
      this.store := store;
      this.outside := outside;
      this.tokens := new TokenService(store, outside, digest);
      this.sessions := new SessionService(store, outside);
      this.gateway := new GatewayIntegrationService(store, outside);
    }

    predicate Wired() {
      && tokens.store == store && tokens.outside == outside && tokens.Wired()
      && sessions.store == store && sessions.outside == outside && sessions.Wired()
      && gateway.store == store && gateway.outside == outside
    }

    method Authenticate(req: AuthInput, newId: string, env: Env, later: Time) returns (d: Decision)
      requires Wired() && Valid(store.Contents())
      modifies store, outside
      ensures Authentication(Hasher(tokens.digest), old(Snapshot(store, outside)), env, later, req, newId)
           == Answer(Snapshot(store, outside), d)
      ensures Valid(store.Contents())
    {
      var mac := NormalizeMAC(req.callingStation);
      if mac.None? {
        return BadAddress;
      }
      var gatewayId := req.nasIdentifier;
      if gatewayId == "" {
        gatewayId := req.nasIp;
      }
      if gatewayId == "" {
        gatewayId := "radius";
      }
      var redeemInput :=
        RedeemInput(req.userName, mac.value, req.framedIp, gatewayId, req.acctSessionId, req.nasIp, req.nasIdentifier);
      var r := tokens.ResumeToken(redeemInput, newId, env);
      if r == Err(InvalidToken) {
        r := tokens.RedeemToken(redeemInput, newId, env.(now := later));
      }
      d := Decide(r);
    }

    method DisconnectIfDue(update: Result<UsageUpdate>, env: Env) returns (r: Result<()>)
      requires Wired() && Keyed(store.Contents())
      modifies store, outside
      ensures ThenDisconnect(Reply(old(Snapshot(store, outside)), update), env) == Reply(Snapshot(store, outside), r)
    {
      if update.Err? {
        return Err(update.error);
      }
      if update.value.disconnect.None? {
        return Ok(());
      }
      var d := gateway.Disconnect(update.value.session.id, update.value.disconnect.value, true, env);
      r := if d.Ok? then Ok(()) else Err(d.error);
    }

    method HandleAccounting(event: AccountingEvent, env: Env) returns (r: Result<()>, ghost found: Option<string>)
      requires Wired() && Keyed(store.Contents())
      modifies store, outside
      ensures IsRadiusMatch(old(store.Contents()), found, event.acctSessionId, event.nasIp)
      ensures found.Some? ==> found.value in old(store.sessions)
      ensures Account(old(Snapshot(store, outside)), env, found, event) == Reply(Snapshot(store, outside), r)
    {
      found := AnyMatch(store.Contents(), event.acctSessionId, event.nasIp);
      if event.kind == NoStatus {
        return Err(MissingStatus), found;
      }
      var mac := "";
      if event.callingStation != "" {
        var normalized := NormalizeMAC(event.callingStation);
        if normalized.Some? {
          mac := normalized.value;
        }
      }
      var update;
      update, found := sessions.HandleRadiusAccounting(
        RadiusInput(event.kind, event.acctSessionId, event.nasIp, event.nasIdentifier, event.framedIp, mac,
                    event.bytesOut, event.bytesIn, event.stopReason), env);
      if update == Err(SessionNotFound) {
        return Ok(()), found;
      }
      r := DisconnectIfDue(update, env);
    }

    /** The HTTP interim request (accounting_handler.go). */
    method InterimRequest(sid: string, up: int, down: int, env: Env) returns (r: Result<()>)
      requires Wired() && Keyed(store.Contents())
      modifies store, outside
      ensures Interim(old(Snapshot(store, outside)), env, sid, up, down) == Reply(Snapshot(store, outside), r)
    {
      ApplyUsageKeepsKeyed(Snapshot(store, outside), env, sid, up, down);
      var update := sessions.quota.Apply(sid, up, down, env);
      r := DisconnectIfDue(update, env);
    }
  }
}
