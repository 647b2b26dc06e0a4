/** What redeeming, resuming, expiring and revoking a voucher do to the stored records, field by field. */
module Vouchers {
  import opened Domain
  import opened Keys
  import opened Store
  import opened Gateway
  import opened Quota
  import opened Tokens
  import opened Sweeping
  import opened RadiusServices
  import opened Machine

  type Hash = string -> string

  // ---- First use ----

  /** A well-formed request for a stored token. */
  ghost predicate For(hash: Hash, w: World, req: RedeemInput, t: Token, mac: string) {
    && t.id in w.db.tokens && w.db.tokens[t.id] == t && req.code != "" && hash(req.code) == t.codeHash
    && CanonicalMac(req.deviceMac) == Some(mac)
    && t.planId in w.db.plans && w.db.plans[t.planId].active
  }

  ghost function UsedToken(t: Token, mac: string, now: Time, minutes: int): Token {
    t.(status := Active, usedBy := Some(mac), activatedAt := Some(now),
       expiresAt := Some(now + minutes * 60 * 1_000_000_000), updatedAt := now)
  }

  ghost function NewSession(newId: string, t: Token, mac: string, req: RedeemInput, now: Time): Session {
    Session(newId, t.id, mac, req.ip, req.gatewayId, req.radiusSessionId, req.nasIp, req.nasIdentifier, false, now,
            None, 0, 0, Live, "")
  }

  ghost function Granted(plan: Plan, seconds: int): Policy {
    Policy(seconds, plan.dataLimitMB * 1_048_576, plan.speedDownKbps, plan.speedUpKbps, plan.deviceLimit)
  }

  /**
   The first redeem of an unused token binds the device and opens a session with zero counters. The token
   lasts for the plan's minutes from now on, and exactly these minutes are granted.
   */
  lemma FirstRedeem(hash: Hash, w: World, env: Env, req: RedeemInput, newId: string, t: Token, mac: string)
    requires Valid(w.db) && For(hash, w, req, t, mac) && t.status == Unused && newId !in w.db.sessions
    ensures var plan := w.db.plans[t.planId]; var used := UsedToken(t, mac, env.now, plan.durationMinutes);
            var s := NewSession(newId, t, mac, req, env.now);
            Redeem(hash, w, env, req, false, newId) ==
              Reply(w.(db := w.db.(tokens := w.db.tokens[t.id := used], sessions := w.db.sessions[newId := s])),
                    Ok(RedeemResult(used, s, Granted(plan, plan.durationMinutes * 60), false)))
  {
    assert TokenOk(w.db, t) && Lookup(w.db, t.codeHash) == Some(t);
    RedeemIsFirstUse(hash, w, env, req, newId, t, mac);
    FirstUseForm(w, env, t, w.db.plans[t.planId], mac, req, newId);
  }

  lemma RedeemIsFirstUse(hash: Hash, w: World, env: Env, req: RedeemInput, newId: string, t: Token, mac: string)
    requires For(hash, w, req, t, mac) && Lookup(w.db, t.codeHash) == Some(t) && t.status == Unused && t.expiresAt.None?
    ensures Redeem(hash, w, env, req, false, newId) == FirstUse(w, env, t, w.db.plans[t.planId], mac, req, newId)
  {
  }

  lemma FirstUseForm(w: World, env: Env, t: Token, plan: Plan, mac: string, req: RedeemInput, newId: string)
    requires Indexed(w.db) && t.id in w.db.tokens && w.db.tokens[t.id] == t && plan.durationMinutes > 0
    ensures var used := UsedToken(t, mac, env.now, plan.durationMinutes);
            var s := NewSession(newId, t, mac, req, env.now);
            var bound := w.(db := w.db.(tokens := w.db.tokens[t.id := used]));
            FirstUse(w, env, t, plan, mac, req, newId) ==
              if newId in w.db.sessions then Reply(bound, Err(AlreadyExists))
              else Reply(bound.(db := bound.db.(sessions := w.db.sessions[newId := s])),
                         Ok(RedeemResult(used, s, Granted(plan, plan.durationMinutes * 60), false)))
  {
    var used := UsedToken(t, mac, env.now, plan.durationMinutes);
    WholePlan(plan, used, env.now);
    RetireIndex(w.db, used);
  }

  lemma WholePlan(plan: Plan, t: Token, now: Time)
    requires plan.durationMinutes > 0 && t.expiresAt == Some(now + plan.durationMinutes * 60 * 1_000_000_000)
    ensures PolicyFor(plan, t, now) == Granted(plan, plan.durationMinutes * 60)
  {
    assert plan.durationMinutes * 60 * 1_000_000_000 / 1_000_000_000 == plan.durationMinutes * 60;
  }

  /** An unused token cannot be resumed. */
  lemma ResumeUnused(hash: Hash, w: World, env: Env, req: RedeemInput, newId: string, t: Token, mac: string)
    requires Valid(w.db) && For(hash, w, req, t, mac) && t.status == Unused
    ensures Redeem(hash, w, env, req, true, newId) == Reply(w, Err(InvalidToken))
  {
    assert TokenOk(w.db, t) && Lookup(w.db, t.codeHash) == Some(t);
  }

  // ---- Further use ----

  ghost predicate Current(t: Token, now: Time) {
    t.expiresAt.Some? ==> now < t.expiresAt.value
  }

  ghost function SecondsLeft(plan: Plan, t: Token, now: Time): int
    requires t.expiresAt.Some? && now < t.expiresAt.value
  {
    var left := (t.expiresAt.value - now) / 1_000_000_000;
    if left < 1 then 1 else if left < plan.durationMinutes * 60 then left else plan.durationMinutes * 60
  }

  lemma RestOfPlan(plan: Plan, t: Token, now: Time)
    requires plan.durationMinutes > 0 && t.expiresAt.Some? && now < t.expiresAt.value
    ensures PolicyFor(plan, t, now) == Granted(plan, SecondsLeft(plan, t, now))
  {
  }

  /** The session with the context of the request; what the request leaves empty stays. */
  ghost function Refreshed(s: Session, req: RedeemInput): Session {
    s.(ip := req.ip, gatewayId := req.gatewayId,
       radiusSessionId := if req.radiusSessionId == "" then s.radiusSessionId else req.radiusSessionId,
       nasIp := if req.nasIp == "" then s.nasIp else req.nasIp,
       nasIdentifier := if req.nasIdentifier == "" then s.nasIdentifier else req.nasIdentifier)
  }

  /** Redeeming or resuming a token in use, before its expiry: its device keeps its session, or gets a new one. */
  lemma ReturnOfDevice(hash: Hash, w: World, env: Env, req: RedeemInput, requireActive: bool, newId: string, t: Token,
                       mac: string)
    requires Valid(w.db) && For(hash, w, req, t, mac) && t.status == Active && t.usedBy == Some(mac)
             && Current(t, env.now)
    requires newId !in w.db.sessions
    ensures var plan := w.db.plans[t.planId]; var r := Redeem(hash, w, env, req, requireActive, newId);
            && t.expiresAt.Some?
            && r.result.Ok? && r.result.value.token == t && r.result.value.resumed
            && r.result.value.policy == Granted(plan, SecondsLeft(plan, t, env.now))
            && var s := r.result.value.session;
               && r.world == w.(db := w.db.(sessions := w.db.sessions[s.id := s]))
               && (forall sid | IsActiveOf(w.db, sid, t.id) :: s == Refreshed(w.db.sessions[sid], req))
               && ((forall sid :: !IsActiveOf(w.db, sid, t.id)) ==> s == NewSession(newId, t, mac, req, env.now))
  {
    assert TokenOk(w.db, t) && Lookup(w.db, t.codeHash) == Some(t);
    RestOfPlan(w.db.plans[t.planId], t, env.now);
    RedeemIsFurtherUse(hash, w, env, req, requireActive, newId, t, mac);
    FurtherUseForm(w, env, t, w.db.plans[t.planId], mac, req, newId);
  }

  lemma RedeemIsFurtherUse(hash: Hash, w: World, env: Env, req: RedeemInput, requireActive: bool, newId: string,
                           t: Token, mac: string)
    requires For(hash, w, req, t, mac) && Lookup(w.db, t.codeHash) == Some(t) && t.status == Active
             && Current(t, env.now)
    ensures Redeem(hash, w, env, req, requireActive, newId)
         == FurtherUse(w, env, t, w.db.plans[t.planId], mac, req, newId)
  {
  }

  lemma FurtherUseForm(w: World, env: Env, t: Token, plan: Plan, mac: string, req: RedeemInput, newId: string)
    requires Keyed(w.db) && SingleActive(w.db) && t.usedBy == Some(mac) && newId !in w.db.sessions
    ensures var r := FurtherUse(w, env, t, plan, mac, req, newId);
            && r.result.Ok? && r.result.value.token == t && r.result.value.resumed
            && r.result.value.policy == PolicyFor(plan, t, env.now)
            && var s := r.result.value.session;
               && r.world == w.(db := w.db.(sessions := w.db.sessions[s.id := s]))
               && (forall sid | IsActiveOf(w.db, sid, t.id) :: s == Refreshed(w.db.sessions[sid], req))
               && ((forall sid :: !IsActiveOf(w.db, sid, t.id)) ==> s == NewSession(newId, t, mac, req, env.now))
  {
    forall sid | IsActiveOf(w.db, sid, t.id)
      ensures ActiveOf(w.db, t.id) == Some(w.db.sessions[sid])
    {
      ActiveOfUnique(w.db, sid, t.id);
    }
  }

  /** Another device is told so. */
  lemma OtherDevice(hash: Hash, w: World, env: Env, req: RedeemInput, requireActive: bool, newId: string, t: Token,
                    mac: string)
    requires Valid(w.db) && For(hash, w, req, t, mac) && t.status == Active && t.usedBy != Some(mac)
             && Current(t, env.now)
    ensures Redeem(hash, w, env, req, requireActive, newId) == Reply(w, Err(DeviceBound))
  {
    assert Lookup(w.db, t.codeHash) == Some(t);
    RedeemIsFurtherUse(hash, w, env, req, requireActive, newId, t, mac);
  }

  /** The identifier of the new session is taken: an error, and a first use has bound the token nevertheless. */
  lemma IdentifierTaken(hash: Hash, w: World, env: Env, req: RedeemInput, newId: string, t: Token, mac: string)
    requires Valid(w.db) && For(hash, w, req, t, mac) && newId in w.db.sessions
    requires t.status == Unused || (t.status == Active && t.usedBy == Some(mac) && Current(t, env.now))
    requires forall k :: !IsActiveOf(w.db, k, t.id)
    ensures var used := UsedToken(t, mac, env.now, w.db.plans[t.planId].durationMinutes);
            Redeem(hash, w, env, req, false, newId) ==
              Reply(if t.status == Unused then w.(db := w.db.(tokens := w.db.tokens[t.id := used])) else w,
                    Err(AlreadyExists))
  {
    assert TokenOk(w.db, t) && Lookup(w.db, t.codeHash) == Some(t);
    if t.status == Unused {
      RedeemIsFirstUse(hash, w, env, req, newId, t, mac);
      FirstUseForm(w, env, t, w.db.plans[t.planId], mac, req, newId);
    } else {
      RedeemIsFurtherUse(hash, w, env, req, false, newId, t, mac);
    }
  }

  // ---- Refusals ----

  /** What is wrong with a request is told in this order, and changes nothing. */
  lemma BadRequest(hash: Hash, w: World, env: Env, req: RedeemInput, requireActive: bool, newId: string)
    requires Valid(w.db)
    ensures var r := Redeem(hash, w, env, req, requireActive, newId);
            if req.code == "" || CanonicalMac(req.deviceMac).None? then r == Reply(w, Err(InvalidInput))
            else if forall k | k in w.db.tokens :: w.db.tokens[k].codeHash != hash(req.code) then
              r == Reply(w, Err(InvalidToken))
            else
              forall k | k in w.db.tokens && w.db.tokens[k].codeHash == hash(req.code) ::
                && w.db.tokens[k].planId in w.db.plans
                && (!w.db.plans[w.db.tokens[k].planId].active ==> r == Reply(w, Err(PlanInactive)))
  {
    forall k | k in w.db.tokens && w.db.tokens[k].codeHash == hash(req.code)
      ensures w.db.tokens[k].planId in w.db.plans && Lookup(w.db, hash(req.code)) == Some(w.db.tokens[k])
    {
      assert TokenOk(w.db, w.db.tokens[k]);
    }
  }

  /** A token in a final status, its expiry instant not reached or never set, is refused with that status. */
  lemma FinalStatus(hash: Hash, w: World, env: Env, req: RedeemInput, requireActive: bool, newId: string, t: Token,
                    mac: string)
    requires Valid(w.db) && For(hash, w, req, t, mac) && Current(t, env.now)
    ensures var r := Redeem(hash, w, env, req, requireActive, newId);
            && (t.status == Revoked ==> r == Reply(w, Err(TokenRevoked)))
            && (t.status == Consumed ==> r == Reply(w, Err(TokenConsumed)))
            && (t.status == Expired ==> r == Reply(w, Err(TokenExpired)))
            && (t.status == Created ==> r == Reply(w, Err(InvalidToken)))
  {
    assert Lookup(w.db, t.codeHash) == Some(t);
  }

  // ---- Expiry on demand, and revocation ----

  /** The identifier of a token's active session, if it has one. */
  ghost predicate LiveOf(db: Db, tid: string, live: Option<string>) {
    match live
    case None => forall k | k in db.sessions && db.sessions[k].tokenId == tid :: db.sessions[k].status == Ended
    case Some(sid) => sid in db.sessions && db.sessions[sid].tokenId == tid && db.sessions[sid].status == Live
  }

  /**
   A token in its new state, and its active session ended for a reason at this instant. A refusal of the
   gateway leaves the disconnect owed and hands a retry to the queue.
   */
  ghost predicate Retired(w: World, env: Env, t: Token, live: Option<string>, reason: string, after: World)
    requires LiveOf(w.db, t.id, live)
  {
    match live
    case None => after == w.(db := w.db.(tokens := w.db.tokens[t.id := t]))
    case Some(sid) =>
      var refused := sid in env.failing;
      var s := w.db.sessions[sid].(status := Ended, endReason := reason, endedAt := Some(env.now), pending := refused);
      after == World(
        w.db.(tokens := w.db.tokens[t.id := t], sessions := w.db.sessions[sid := s]),
        if refused && sid !in env.unqueued then w.queue + [Task(sid, reason)] else w.queue,
        if refused then w.acked else w.acked + {sid},
        w.stopped)
  }

  ghost predicate Refused(env: Env, live: Option<string>) { live.Some? && live.value in env.failing }

  lemma LiveIsActive(db: Db, tid: string, live: Option<string>)
    requires SingleActive(db) && LiveOf(db, tid, live)
    ensures ActiveOf(db, tid) == if live.None? then None else Some(db.sessions[live.value])
  {
    match live
    case None =>
      forall k
        ensures !IsActiveOf(db, k, tid)
      {
      }
    case Some(sid) => ActiveOfUnique(db, sid, tid);
  }

  lemma RetireForm(w: World, env: Env, t: Token, live: Option<string>, reason: string)
    requires Keyed(w.db) && Indexed(w.db) && SingleActive(w.db) && reason != "" && LiveOf(w.db, t.id, live)
    requires t.id in w.db.tokens && w.db.tokens[t.id].codeHash == t.codeHash
    ensures var r := RetireToken(w, env, t, reason);
            && Retired(w, env, t, live, reason, r.world)
            && r.result == if Refused(env, live) then Err(GatewayFailed) else Ok(())
  {
    LiveIsActive(w.db, t.id, live);
    RetireTokenEffect(w, env, t, reason);
    RetireIndex(w.db, t);
    if live.Some? {
      EndSessionEffect(SaveToken(w, t), env, w.db.sessions[live.value], reason);
    }
  }

  /**
   Redeeming or resuming a token whose expiry instant has come, whatever its status, expires it and ends its
   session.
   */
  lemma ExpiryOnDemand(hash: Hash, w: World, env: Env, req: RedeemInput, requireActive: bool, newId: string, t: Token,
                       mac: string, live: Option<string>)
    requires Valid(w.db) && For(hash, w, req, t, mac) && t.expiresAt.Some? && t.expiresAt.value <= env.now
    requires LiveOf(w.db, t.id, live)
    ensures var r := Redeem(hash, w, env, req, requireActive, newId);
            && Retired(w, env, t.(status := Expired, updatedAt := env.now), live, "expired", r.world)
            && r.result == Err(if Refused(env, live) then GatewayFailed else TokenExpired)
  {
    assert Lookup(w.db, t.codeHash) == Some(t);
    RetireForm(w, env, t.(status := Expired, updatedAt := env.now), live, "expired");
  }

  /** A revocation revokes, whatever the token's status, and leaves no active session of it. */
  lemma RevokeOutcome(w: World, env: Env, tid: string, reason: string, live: Option<string>)
    requires Valid(w.db) && tid in w.db.tokens && LiveOf(w.db, tid, live)
    ensures var r := Revoke(w, env, tid, reason); var why := if reason == "" then "revoked by admin" else reason;
            && Retired(w, env, w.db.tokens[tid].(status := Revoked, revokedReason := why, updatedAt := env.now), live,
                       "revoked", r.world)
            && r.result == (if Refused(env, live) then Err(GatewayFailed) else Ok(()))
            && LiveOf(r.world.db, tid, None)
  {
    var why := if reason == "" then "revoked by admin" else reason;
    RetireForm(w, env, w.db.tokens[tid].(status := Revoked, revokedReason := why, updatedAt := env.now), live,
               "revoked");
    LiveIsOnly(w.db, tid, live);
  }

  lemma LiveIsOnly(db: Db, tid: string, live: Option<string>)
    requires SingleActive(db) && LiveOf(db, tid, live)
    ensures forall k | k in db.sessions && db.sessions[k].tokenId == tid
            && db.sessions[k].status == Live :: Some(k) == live
  {
    forall k | k in db.sessions && db.sessions[k].tokenId == tid && db.sessions[k].status == Live
      ensures Some(k) == live
    {
      assert IsActiveOf(db, k, tid);
      if live.Some? {
        assert IsActiveOf(db, live.value, tid);
      }
    }
  }

  lemma RevokeUnknown(w: World, env: Env, tid: string, reason: string)
    requires tid !in w.db.tokens
    ensures Revoke(w, env, tid, reason) == Reply(w, Err(NotFound))
  {
  }

  /** A revoked voucher is refused after any later run, by redeem and resume alike. */
  lemma RevokedForGood(hash: Hash, w: World, env: Env, tid: string, reason: string, later: seq<Event>, env': Env,
                       req: RedeemInput, requireActive: bool, newId: string)
    requires Valid(w.db) && tid in w.db.tokens && hash(req.code) == w.db.tokens[tid].codeHash
    requires Fits(hash, Revoke(w, env, tid, reason).world, later)
    ensures Redeem(hash, Play(hash, Revoke(w, env, tid, reason).world, later), env', req, requireActive,
                   newId).result.Err?
  {
    var w1 := Revoke(w, env, tid, reason).world;
    assert Valid(w1.db) && w1.db.tokens[tid].status == Revoked
           && w1.db.tokens[tid].codeHash == w.db.tokens[tid].codeHash by {
      RevokeKeepsValid(w, env, tid, reason);
      var live := SomeLive(w.db, tid);
      RevokeOutcome(w, env, tid, reason, live);
    }
    RetiredStaysRefused(hash, w1, later, tid, env', req, requireActive, newId);
  }

  lemma SomeLive(db: Db, tid: string) returns (live: Option<string>)
    ensures LiveOf(db, tid, live)
  {
    if sid :| sid in db.sessions && db.sessions[sid].tokenId == tid && db.sessions[sid].status == Live {
      live := Some(sid);
    } else {
      live := None;
    }
  }

  // ---- Authentication ----

  /**
   Authentication uses the name as the code, and the calling station as the device; the session is attributed
   to the access point's name, or its address, or nothing in particular.
   */
  lemma AuthenticateOutcome(hash: Hash, w: World, env: Env, later: Time, req: AuthInput, newId: string)
    ensures var gateway := if req.nasIdentifier != "" then req.nasIdentifier
                           else if req.nasIp != "" then req.nasIp else "radius";
            var redeem := RedeemInput(req.userName, req.callingStation, req.framedIp, gateway, req.acctSessionId,
                                      req.nasIp, req.nasIdentifier);
            var resumed := Redeem(hash, w, env, redeem, true, newId);
            var r := if resumed.result == Err(InvalidToken)
                     then Redeem(hash, w, env.(now := later), redeem, false, newId) else resumed;
            var answer := Authentication(hash, w, env, later, req, newId);
            && answer.world == r.world
            && match r.result
               case Ok(v) => answer.decision == Allow(v.session, v.policy)
               case Err(e) => answer.decision == if CanonicalMac(req.callingStation).None? then BadAddress else Deny(e)
  {
    AuthenticateIsRedeem(hash, w, env, later, req, newId);
    ResumeOrRedeem(hash, w, env, AsRedeem(req, req.callingStation), newId);
  }

  // ---- The sweep, in terms of the records ----

  ghost predicate HasLapsed(t: Token, now: Time) {
    t.status == Active && t.expiresAt.Some? && t.expiresAt.value <= now
  }

  ghost predicate Lapsed(db: Db, tid: string, now: Time) {
    tid in db.tokens && HasLapsed(db.tokens[tid], now)
  }

  /** The lapsed tokens expired, their active sessions ended for that reason, and nothing else changed. */
  ghost predicate LapsedExpired(w: World, after: World, now: Time) {
    && after.db.tokens == (map k | k in w.db.tokens ::
         if Lapsed(w.db, k, now) then w.db.tokens[k].(status := Expired, updatedAt := now) else w.db.tokens[k])
    && after.db.sessions == (map k | k in w.db.sessions ::
         if w.db.sessions[k].status == Live && Lapsed(w.db, w.db.sessions[k].tokenId, now)
         then w.db.sessions[k].(status := Ended, endReason := "expired", endedAt := Some(now), pending := false)
         else w.db.sessions[k])
    && after.db.plans == w.db.plans && after.db.byHash == w.db.byHash && after.db.usage == w.db.usage
    && after.queue == w.queue && after.stopped == w.stopped
  }

  /**
   A sweep that completes has expired the active tokens whose expiry instant has come, ended their active
   sessions, and changed nothing else; it returns how many they were, and leaves no such token.
   */
  lemma SweepOutcome(w: World, env: Env, list: seq<Token>)
    requires Valid(w.db) && ListsTokens(list, w.db.tokens) && Sweep(w, env, list).finished
    ensures var r := Sweep(w, env, list);
            && LapsedExpired(w, r.world, env.now)
            && r.changed == |set k | k in w.db.tokens && Lapsed(w.db, k, env.now)|
            && (forall k | k in r.world.db.tokens :: !HasLapsed(r.world.db.tokens[k], env.now))
  {
    SweepExact(w, env, list);
    var due := DueTokens(w.db, env.now);
    assert due == set k | k in w.db.tokens && Lapsed(w.db, k, env.now);
    SweptPlainly(w, env, due);
    assert forall k | k in Sweep(w, env, list).world.db.tokens
           && HasLapsed(Sweep(w, env, list).world.db.tokens[k], env.now) ::
        k in DueTokens(Sweep(w, env, list).world.db, env.now);
  }

  lemma SweptPlainly(w: World, env: Env, due: set<string>)
    requires due == (set k | k in w.db.tokens && Lapsed(w.db, k, env.now)) && Lapsing(w.db, env.now, due) !! env.failing
    ensures LapsedExpired(w, Swept(w, env, due), env.now)
  {
    var after := Swept(w, env, due);
    forall k | k in w.db.sessions
      ensures after.db.sessions[k] ==
                if w.db.sessions[k].status == Live && Lapsed(w.db, w.db.sessions[k].tokenId, env.now)
                then w.db.sessions[k].(status := Ended, endReason := "expired", endedAt := Some(env.now),
                                       pending := false)
                else w.db.sessions[k]
    {
      if Lapses(w.db, env.now, due, w.db.sessions[k]) {
        assert k in Lapsing(w.db, env.now, due);
      }
    }
  }
}
