/** Vouchers from generation to their final status (service/token_service.go). */
module Tokens {
  import opened Domain
  import opened Keys
  import opened Store
  import opened Gateway
  import opened Quota
  import opened Sessions

  datatype RedeemInput = RedeemInput(
    code: string,
    deviceMac: string,
    ip: string,
    gatewayId: string,
    radiusSessionId: string,
    nasIp: string,
    nasIdentifier: string)

  datatype RedeemResult = RedeemResult(token: Token, session: Session, policy: Policy, resumed: bool)

  /** Whole seconds of a duration, cut toward zero. */
  function WholeSeconds(d: Time): int {
    if d >= 0 then d / SECOND else -(-d / SECOND)
  }

  function PolicyFor(plan: Plan, token: Token, now: Time): Policy {
    var granted := plan.durationMinutes * 60;
    var timeout :=
      if token.expiresAt.None? then granted
      else
        var seconds := WholeSeconds(token.expiresAt.value - now);
        var remaining := if seconds < 1 then 1 else seconds;
        if remaining < granted then remaining else granted;
    Policy(timeout, plan.LimitBytes(), plan.speedDownKbps, plan.speedUpKbps, plan.deviceLimit)
  }

  function OpenSession(newId: string, tokenId: string, mac: string, req: RedeemInput, now: Time): Session {
    Session(newId, tokenId, mac, req.ip, req.gatewayId, req.radiusSessionId, req.nasIp, req.nasIdentifier, false, now,
            None, 0, 0, Live, "")
  }

  function Refresh(s: Session, req: RedeemInput): Session {
    s.(
      ip := req.ip,
      gatewayId := req.gatewayId,
      radiusSessionId := Or(req.radiusSessionId, s.radiusSessionId),
      nasIp := Or(req.nasIp, s.nasIp),
      nasIdentifier := Or(req.nasIdentifier, s.nasIdentifier))
  }

  /** Store a token in its final status and end its active session, if it has one. */
  ghost function RetireToken(w: World, env: Env, t: Token, reason: string): Reply<()> {
    var w1 := SaveToken(w, t);
    match ActiveOf(w1.db, t.id)
    case None => Reply(w1, Ok(()))
    case Some(s) =>
      var r := EndSession(w1, env, s, reason);
      Reply(r.world, if r.result.Ok? then Ok(()) else Err(r.result.error))
  }

  function AsExpired(t: Token, now: Time): Token {
    t.(status := Expired, updatedAt := now)
  }

  /** An expired token is refused, after its status and session have been brought up to date. */
  ghost function EnsureNotExpired(w: World, env: Env, t: Token): Reply<()> {
    if !t.PastExpiry(env.now) then Reply(w, Ok(()))
    else
      var r := RetireToken(w, env, AsExpired(t, env.now), "expired");
      if r.result.Err? then r else Reply(r.world, Err(TokenExpired))
  }

  function Activate(t: Token, plan: Plan, mac: string, now: Time): Token {
    t.(usedBy := Some(mac), activatedAt := Some(now), expiresAt := Some(now + plan.Lifetime()), status := Active,
       updatedAt := now)
  }

  /** First use: the token is bound to the device and its first session opens. */
  function FirstUse(w: World, env: Env, t: Token, plan: Plan, mac: string, req: RedeemInput,
                    newId: string): Reply<RedeemResult> {
    var used := Activate(t, plan, mac, env.now);
    var w1 := SaveToken(w, used);
    var s := OpenSession(newId, t.id, mac, req, env.now);
    if newId in w1.db.sessions then Reply(w1, Err(AlreadyExists))
    else Reply(SaveSession(w1, s), Ok(RedeemResult(used, s, PolicyFor(plan, used, env.now), false)))
  }

  /** Use of an active token: only by its device, on its active session or on a new one. */
  ghost function FurtherUse(w: World, env: Env, t: Token, plan: Plan, mac: string, req: RedeemInput, newId: string)
    : Reply<RedeemResult>
  {
    if t.usedBy != Some(mac) then Reply(w, Err(DeviceBound))
    else
      match ActiveOf(w.db, t.id)
      case Some(s) =>
        var s' := Refresh(s, req);
        Reply(SaveSession(w, s'), Ok(RedeemResult(t, s', PolicyFor(plan, t, env.now), true)))
      case None =>
        var s := OpenSession(newId, t.id, mac, req, env.now);
        if newId in w.db.sessions then Reply(w, Err(AlreadyExists))
        else Reply(SaveSession(w, s), Ok(RedeemResult(t, s, PolicyFor(plan, t, env.now), true)))
  }

  ghost function UseToken(w: World, env: Env, t: Token, plan: Plan, mac: string, req: RedeemInput, requireActive: bool,
                          newId: string)
    : Reply<RedeemResult>
  {
    match t.status
    case Unused => if requireActive then Reply(w, Err(InvalidToken)) else FirstUse(w, env, t, plan, mac, req, newId)
    case Active => FurtherUse(w, env, t, plan, mac, req, newId)
    case Revoked => Reply(w, Err(TokenRevoked))
    case Consumed => Reply(w, Err(TokenConsumed))
    case Expired => Reply(w, Err(TokenExpired))
    case Created => Reply(w, Err(InvalidToken))
  }

  /** The token a code names. */
  function Lookup(db: Db, codeHash: string): Option<Token> {
    if codeHash in db.byHash && db.byHash[codeHash] in db.tokens then Some(db.tokens[db.byHash[codeHash]]) else None
  }

  datatype Admission = Admission(token: Token, plan: Plan, mac: string)

  /** The checks that look at the request and the plan only. */
  function Admit(hash: string -> string, db: Db, req: RedeemInput): Result<Admission> {
    var mac := CanonicalMac(req.deviceMac);
    if req.code == "" || mac.None? then Err(InvalidInput)
    else
      var token := Lookup(db, hash(req.code));
      if token.None? then Err(InvalidToken)
      else if token.value.planId !in db.plans || !db.plans[token.value.planId].active then Err(PlanInactive)
      else Ok(Admission(token.value, db.plans[token.value.planId], mac.value))
  }

  ghost function RedeemAdmitted(w: World, env: Env, a: Admission, req: RedeemInput, requireActive: bool, newId: string)
    : Reply<RedeemResult>
  {
    var checked := EnsureNotExpired(w, env, a.token);
    match checked.result
    case Err(e) => Reply(checked.world, Err(e))
    case Ok(_) => UseToken(checked.world, env, a.token, a.plan, a.mac, req, requireActive, newId)
  }

  ghost function Redeem(hash: string -> string, w: World, env: Env, req: RedeemInput, requireActive: bool,
                        newId: string)
    : Reply<RedeemResult>
  {
    match Admit(hash, w.db, req)
    case Err(e) => Reply(w, Err(e))
    case Ok(a) => RedeemAdmitted(w, env, a, req, requireActive, newId)
  }

  function AsRevoked(t: Token, reason: string, now: Time): Token {
    t.(status := Revoked, revokedReason := if reason == "" then "revoked by admin" else reason, updatedAt := now)
  }

  ghost function Revoke(w: World, env: Env, tid: string, reason: string): Reply<()> {
    if tid !in w.db.tokens then Reply(w, Err(NotFound))
    else RetireToken(w, env, AsRevoked(w.db.tokens[tid], reason, env.now), "revoked")
  }

  /** The world after a pass over some records, how many it changed, and whether it reached the end. */
  datatype Tally = Tally(world: World, changed: nat, finished: bool)

  /** Expire the due tokens of a list, in its order, up to the first refusal of the gateway. */
  ghost function Sweep(w: World, env: Env, list: seq<Token>): Tally
    decreases |list|
  {
    if list == [] then Tally(w, 0, true)
    else if !list[0].Due(env.now) then Sweep(w, env, list[1..])
    else
      var r := RetireToken(w, env, AsExpired(list[0], env.now), "expired");
      if r.result.Err? then Tally(r.world, 0, false)
      else
        var rest := Sweep(r.world, env, list[1..]);
        rest.(changed := rest.changed + 1)
  }

  /** After a restart a session survives only if its token is active and not past its expiry instant. */
  predicate Stale(db: Db, s: Session, now: Time) {
    || s.tokenId !in db.tokens
    || db.tokens[s.tokenId].status != Active
    || (db.tokens[s.tokenId].expiresAt.Some? && db.tokens[s.tokenId].expiresAt.value < now)
  }

  /** Close the stale sessions of a list; a refusal of the gateway does not stop the pass. */
  function Recover(w: World, env: Env, list: seq<Session>): Tally
    decreases |list|
  {
    if list == [] then Tally(w, 0, true)
    else if !Stale(w.db, list[0], env.now) then Recover(w, env, list[1..])
    else
      var rest := Recover(EndSession(w, env, list[0], "recovered_closed").world, env, list[1..]);
      rest.(changed := rest.changed + 1)
  }

  /** One attempt to make a voucher: the random source fails, or yields a code and an identifier. */
  datatype Draw = Failure | Drawn(code: string, id: string)

  datatype Issued = Issued(tokenId: string, code: string)

  datatype Batch = Batch(world: World, issued: seq<Issued>, end: BatchEnd)

  /** What the caller of generation receives; the service never returns while it is still trying. */
  datatype Vouchers = Vouchers(issued: seq<Issued>, end: BatchEnd)

  datatype BatchEnd = Complete | SourceFailed | StillTrying

  function NewToken(id: string, planId: string, codeHash: string, notes: string, now: Time): Token {
    Token(id, planId, codeHash, Unused, now, now, None, None, None, notes, "")
  }

  /** Draw until `missing` vouchers exist; a duplicate identifier or hash only costs another draw. */
  function Issue(hash: string -> string, w: World, now: Time, planId: string, notes: string, missing: nat,
                 draws: seq<Draw>): Batch
    decreases |draws|
  {
    if missing == 0 then Batch(w, [], Complete)
    else if draws == [] then Batch(w, [], StillTrying)
    else if draws[0].Failure? then Batch(w, [], SourceFailed)
    else
      var t := NewToken(draws[0].id, planId, hash(draws[0].code), notes, now);
      if t.id in w.db.tokens || t.codeHash in w.db.byHash then Issue(hash, w, now, planId, notes, missing, draws[1..])
      else
        var rest := Issue(hash, SaveToken(w, t), now, planId, notes, missing - 1, draws[1..]);
        rest.(issued := [Issued(t.id, draws[0].code)] + rest.issued)
  }

  function Generate(hash: string -> string, w: World, env: Env, planId: string, count: int, notes: string,
                    draws: seq<Draw>)
    : Reply<Vouchers>
  {
    if count <= 0 || count > 1000 then Reply(w, Err(InvalidCount))
    else if planId !in w.db.plans then Reply(w, Err(NotFound))
    else if !w.db.plans[planId].active then Reply(w, Err(PlanInactive))
    else
      var batch := Issue(hash, w, env.now, planId, notes, count, draws);
      Reply(batch.world, if batch.end == SourceFailed then Err(RandomFailed) else Ok(Vouchers(batch.issued, batch.end)))
  }

  // ---- Validity ----

  lemma RetireTokenEffect(w: World, env: Env, t: Token, reason: string)
    requires Keyed(w.db) && SingleActive(w.db) && reason != ""
    ensures var o := ActiveOf(w.db, t.id); var r := RetireToken(w, env, t, reason);
            var w1 := SaveToken(w, t);
            && (o.None? ==> r == Reply(w1, Ok(())))
            && (o.Some? ==>
                  && IsActiveOf(w.db, o.value.id, t.id) && w.db.sessions[o.value.id] == o.value
                  && r.result == (if o.value.id in env.failing then Err(GatewayFailed) else Ok(()))
                  && r.world == EndSession(w1, env, o.value, reason).world
                  && r.world.db
                     == PutToken(PutSession(w.db, o.value.Close(env.now, reason, o.value.id in env.failing)), t))
  {
    var o := ActiveOf(w.db, t.id);
    if o.Some? {
      var sid :| IsActiveOf(w.db, sid, t.id) && w.db.sessions[sid] == o.value;
      EndSessionEffect(SaveToken(w, t), env, o.value, reason);
    }
  }

  lemma RetireTokenKeepsValid(w: World, env: Env, t: Token, reason: string)
    requires Valid(w.db) && t.id in w.db.tokens && RetiredFrom(w.db.tokens[t.id], t) && reason != ""
    ensures var w' := RetireToken(w, env, t, reason).world; Valid(w'.db) && Evolves(w.db, w'.db)
  {
    RetireTokenEffect(w, env, t, reason);
    var o := ActiveOf(w.db, t.id);
    if o.None? {
      RetireKeepsValid(w.db, t);
    } else {
      var closed := o.value.Close(env.now, reason, o.value.id in env.failing);
      var db1 := PutSession(w.db, closed);
      TamerKeepsValid(w.db, closed);
      ClosedLeavesNone(w.db, o.value, t.id);
      RetireKeepsValid(db1, t);
      EvolvesTransitive(w.db, db1, PutToken(db1, t));
    }
  }

  lemma FirstUseKeepsValid(w: World, env: Env, t: Token, plan: Plan, mac: string, req: RedeemInput, newId: string)
    requires Valid(w.db) && t.id in w.db.tokens && w.db.tokens[t.id] == t && t.status == Unused
    requires t.planId in w.db.plans && plan == w.db.plans[t.planId]
    ensures var w' := FirstUse(w, env, t, plan, mac, req, newId).world; Valid(w'.db) && Evolves(w.db, w'.db)
  {
    var used := Activate(t, plan, mac, env.now);
    assert TokenOk(w.db, t);
    ActivateKeepsValid(w.db, used);
    var db1 := PutToken(w.db, used);
    if newId !in db1.sessions {
      var s := OpenSession(newId, t.id, mac, req, env.now);
      NoActiveWithout(w.db, t.id);
      assert forall k :: IsActiveOf(db1, k, t.id) ==> IsActiveOf(w.db, k, t.id);
      OpenKeepsValid(db1, s);
      EvolvesTransitive(w.db, db1, PutSession(db1, s));
    }
  }

  ghost predicate ActivatedFrom(a: Token, b: Token) {
    && a.status.Rank() == 0 && b.status == Active
    && b == a.(usedBy := b.usedBy, activatedAt := b.activatedAt, expiresAt := b.expiresAt, status := Active,
               updatedAt := b.updatedAt)
  }

  lemma ActivateTokens(db: Db, t: Token)
    requires TokensOk(db) && t.id in db.tokens && ActivatedFrom(db.tokens[t.id], t) && TokenOk(db, t)
    ensures TokensOk(PutToken(db, t)) && TokensEvolve(db, PutToken(db, t))
  {
    var after := PutToken(db, t);
    forall k | k in after.tokens
      ensures TokenOk(after, after.tokens[k]) && TokenEvolves(db.tokens[k], after.tokens[k])
    {
      assert TokenOk(db, db.tokens[k]);
    }
  }

  lemma ActivateSessions(db: Db, t: Token)
    requires SessionsOk(db) && t.id in db.tokens && forall sid :: !IsActiveOf(db, sid, t.id)
    ensures SessionsOk(PutToken(db, t))
  {
    var after := PutToken(db, t);
    forall k | k in after.sessions
      ensures SessionOk(after, after.sessions[k])
    {
      assert SessionOk(db, db.sessions[k]) && !IsActiveOf(db, k, t.id);
    }
  }

  lemma ActivateKeepsValid(db: Db, t: Token)
    requires Valid(db) && t.id in db.tokens && ActivatedFrom(db.tokens[t.id], t) && TokenOk(db, t)
    ensures Valid(PutToken(db, t)) && Evolves(db, PutToken(db, t))
  {
    RetireIndex(db, t);
    NoActiveWithout(db, t.id);
    SameSessionsMetered(db, PutToken(db, t));
    SameSessionsSingle(db, PutToken(db, t));
    ActivateTokens(db, t);
    ActivateSessions(db, t);
  }

  lemma FurtherUseKeepsValid(w: World, env: Env, t: Token, plan: Plan, mac: string, req: RedeemInput, newId: string)
    requires Valid(w.db) && t.id in w.db.tokens && w.db.tokens[t.id] == t && t.status == Active
    ensures var w' := FurtherUse(w, env, t, plan, mac, req, newId).world; Valid(w'.db) && Evolves(w.db, w'.db)
  {
    if t.usedBy == Some(mac) {
      match ActiveOf(w.db, t.id)
      case Some(s) =>
        var sid :| IsActiveOf(w.db, sid, t.id) && w.db.sessions[sid] == s;
        assert SessionOk(w.db, s);
        TamerKeepsValid(w.db, Refresh(s, req));
      case None =>
        if newId !in w.db.sessions {
          OpenKeepsValid(w.db, OpenSession(newId, t.id, mac, req, env.now));
        }
    }
  }

  lemma UseTokenKeepsValid(w: World, env: Env, t: Token, plan: Plan, mac: string, req: RedeemInput, requireActive: bool,
                           newId: string)
    requires Valid(w.db) && t.id in w.db.tokens && w.db.tokens[t.id] == t
    requires t.planId in w.db.plans && plan == w.db.plans[t.planId]
    ensures var w' := UseToken(w, env, t, plan, mac, req, requireActive, newId).world;
            Valid(w'.db) && Evolves(w.db, w'.db)
  {
    if t.status == Unused && !requireActive {
      FirstUseKeepsValid(w, env, t, plan, mac, req, newId);
    } else if t.status == Active {
      FurtherUseKeepsValid(w, env, t, plan, mac, req, newId);
    }
  }

  lemma ExpiryKeepsValid(w: World, env: Env, t: Token)
    requires Valid(w.db) && t.id in w.db.tokens && w.db.tokens[t.id] == t
    ensures var w' := EnsureNotExpired(w, env, t).world; Valid(w'.db) && Evolves(w.db, w'.db)
  {
    if t.PastExpiry(env.now) {
      assert TokenOk(w.db, t);
      RetireTokenKeepsValid(w, env, AsExpired(t, env.now), "expired");
    }
  }

  lemma AdmitFindsStored(hash: string -> string, db: Db, req: RedeemInput)
    requires Keyed(db) && Admit(hash, db, req).Ok?
    ensures var a := Admit(hash, db, req).value;
            && a.token.id in db.tokens && db.tokens[a.token.id] == a.token
            && a.token.planId in db.plans && a.plan == db.plans[a.token.planId] && a.plan.active
            && Some(a.mac) == CanonicalMac(req.deviceMac)
  {
  }

  lemma RedeemKeepsValid(hash: string -> string, w: World, env: Env, req: RedeemInput, requireActive: bool,
                         newId: string)
    requires Valid(w.db)
    ensures var w' := Redeem(hash, w, env, req, requireActive, newId).world; Valid(w'.db) && Evolves(w.db, w'.db)
  {
    var admitted := Admit(hash, w.db, req);
    if admitted.Ok? {
      AdmitFindsStored(hash, w.db, req);
      var a := admitted.value;
      AdmittedKeepsValid(w, env, a, req, requireActive, newId);
    }
  }

  lemma AdmittedKeepsValid(w: World, env: Env, a: Admission, req: RedeemInput, requireActive: bool, newId: string)
    requires Valid(w.db) && a.token.id in w.db.tokens && w.db.tokens[a.token.id] == a.token
    requires a.token.planId in w.db.plans && a.plan == w.db.plans[a.token.planId]
    ensures var w' := RedeemAdmitted(w, env, a, req, requireActive, newId).world; Valid(w'.db) && Evolves(w.db, w'.db)
  {
    var checked := EnsureNotExpired(w, env, a.token);
    if checked.result.Err? {
      ExpiryKeepsValid(w, env, a.token);
    } else {
      assert checked.world == w;
      UseTokenKeepsValid(w, env, a.token, a.plan, a.mac, req, requireActive, newId);
    }
  }

  lemma RevokeKeepsValid(w: World, env: Env, tid: string, reason: string)
    requires Valid(w.db)
    ensures var w' := Revoke(w, env, tid, reason).world; Valid(w'.db) && Evolves(w.db, w'.db)
  {
    if tid in w.db.tokens {
      RetireTokenKeepsValid(w, env, AsRevoked(w.db.tokens[tid], reason, env.now), "revoked");
    }
  }
}
