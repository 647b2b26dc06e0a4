/** Who gets a voucher, for how long, and what it has cost: single winner, granted time, usage totals. */
module Claims {
  import opened Domain
  import opened Keys
  import opened Store
  import opened Gateway
  import opened Quota
  import opened Tokens
  import opened Machine

  // ---- Single winner ----

  datatype Attempt = Attempt(env: Env, req: RedeemInput, newId: string)

  ghost function Try(hash: string -> string, w: World, a: Attempt): Reply<RedeemResult> {
    Redeem(hash, w, a.env, a.req, false, a.newId)
  }

  ghost function TryAll(hash: string -> string, w: World, attempts: seq<Attempt>): World
    decreases |attempts|
  {
    if attempts == [] then w else TryAll(hash, Try(hash, w, attempts[0]).world, attempts[1..])
  }

  ghost function Answers(hash: string -> string, w: World, attempts: seq<Attempt>): seq<Result<RedeemResult>>
    decreases |attempts|
  {
    if attempts == [] then []
    else [Try(hash, w, attempts[0]).result] + Answers(hash, Try(hash, w, attempts[0]).world, attempts[1..])
  }

  /** A well-formed request for the token, before the given instant. */
  ghost predicate Aims(hash: string -> string, a: Attempt, codeHash: string, until: Time) {
    a.req.code != "" && hash(a.req.code) == codeHash && CanonicalMac(a.req.deviceMac).Some? && a.env.now < until
  }

  ghost predicate BoundTo(t: Token, mac: string, until: Time) {
    t.status == Active && t.usedBy == Some(mac) && t.expiresAt == Some(until)
  }

  /** The token is in the hands of one device, on its one active session. */
  ghost predicate Held(w: World, tid: string, mac: string, until: Time) {
    && tid in w.db.tokens && BoundTo(w.db.tokens[tid], mac, until)
    && w.db.tokens[tid].planId in w.db.plans && w.db.plans[w.db.tokens[tid].planId].active
    && exists sid :: IsActiveOf(w.db, sid, tid)
  }

  lemma LookupStored(db: Db, tid: string)
    requires Keyed(db) && Indexed(db) && tid in db.tokens
    ensures Lookup(db, db.tokens[tid].codeHash) == Some(db.tokens[tid])
  {
  }

  /** A first use: the token is now held by the device, until its expiry. */
  ghost predicate Won(r: Reply<RedeemResult>, t: Token, mac: string, until: Time) {
    && r.result.Ok? && !r.result.value.resumed
    && Held(r.world, t.id, mac, until)
    && r.world.db.tokens[t.id].codeHash == t.codeHash
  }

  lemma FirstWins(hash: string -> string, w: World, t: Token, a: Attempt)
    requires Keyed(w.db) && Indexed(w.db) && t.id in w.db.tokens && w.db.tokens[t.id] == t
    requires t.status == Unused && t.expiresAt.None? && t.planId in w.db.plans && w.db.plans[t.planId].active
    requires a.newId !in w.db.sessions && Aims(hash, a, t.codeHash, a.env.now + w.db.plans[t.planId].Lifetime())
    ensures Won(Try(hash, w, a), t, CanonicalMac(a.req.deviceMac).value, a.env.now + w.db.plans[t.planId].Lifetime())
  {
    FirstIsFirstUse(hash, w, t, a);
    FirstUseWins(w, a, t, w.db.plans[t.planId], CanonicalMac(a.req.deviceMac).value);
  }

  lemma FirstUseWins(w: World, a: Attempt, t: Token, plan: Plan, mac: string)
    requires a.newId !in w.db.sessions && t.planId in w.db.plans && w.db.plans[t.planId] == plan && plan.active
    ensures Won(FirstUse(w, a.env, t, plan, mac, a.req, a.newId), t, mac, a.env.now + plan.Lifetime())
  {
    assert IsActiveOf(FirstUse(w, a.env, t, plan, mac, a.req, a.newId).world.db, a.newId, t.id);
  }

  lemma FirstIsFirstUse(hash: string -> string, w: World, t: Token, a: Attempt)
    requires Keyed(w.db) && Indexed(w.db) && t.id in w.db.tokens && w.db.tokens[t.id] == t
    requires t.status == Unused && t.expiresAt.None? && t.planId in w.db.plans && w.db.plans[t.planId].active
    requires Aims(hash, a, t.codeHash, a.env.now + w.db.plans[t.planId].Lifetime())
    ensures Try(hash, w, a) ==
              FirstUse(w, a.env, t, w.db.plans[t.planId], CanonicalMac(a.req.deviceMac).value, a.req, a.newId)
  {
    LookupStored(w.db, t.id);
  }

  lemma LaterAttempt(hash: string -> string, w: World, tid: string, mac: string, until: Time, a: Attempt)
    requires Keyed(w.db) && Indexed(w.db) && SingleActive(w.db)
    requires Held(w, tid, mac, until) && Aims(hash, a, w.db.tokens[tid].codeHash, until)
    ensures var r := Try(hash, w, a);
            && Held(r.world, tid, mac, until) && r.world.db.tokens[tid] == w.db.tokens[tid]
            && (CanonicalMac(a.req.deviceMac) == Some(mac) ==> r.result.Ok? && r.result.value.resumed)
            && (CanonicalMac(a.req.deviceMac) != Some(mac) ==> r == Reply(w, Err(DeviceBound)))
  {
    var t := w.db.tokens[tid];
    LookupStored(w.db, tid);
    var r := Try(hash, w, a);
    assert r == FurtherUse(w, a.env, t, w.db.plans[t.planId], CanonicalMac(a.req.deviceMac).value, a.req, a.newId);
    var sid :| IsActiveOf(w.db, sid, tid);
    assert IsActiveOf(r.world.db, sid, tid);
  }

  /** Each attempt got what its device deserves. */
  ghost predicate Judged(attempts: seq<Attempt>, answers: seq<Result<RedeemResult>>, mac: string) {
    && |answers| == |attempts|
    && forall i | 0 <= i < |attempts| ::
         if CanonicalMac(attempts[i].req.deviceMac) == Some(mac) then answers[i].Ok? else answers[i] == Err(DeviceBound)
  }

  lemma JudgedCons(attempts: seq<Attempt>, first: Result<RedeemResult>, rest: seq<Result<RedeemResult>>, mac: string)
    requires attempts != [] && Judged(attempts[1..], rest, mac)
    requires if CanonicalMac(attempts[0].req.deviceMac) == Some(mac) then first.Ok? else first == Err(DeviceBound)
    ensures Judged(attempts, [first] + rest, mac)
  {
    forall i | 0 < i < |attempts|
      ensures attempts[i] == attempts[1..][i - 1] && ([first] + rest)[i] == rest[i - 1]
    {
    }
  }

  ghost predicate AllAim(hash: string -> string, attempts: seq<Attempt>, codeHash: string, until: Time) {
    forall i | 0 <= i < |attempts| :: Aims(hash, attempts[i], codeHash, until)
  }

  lemma {:induction false} LaterAttempts(hash: string -> string, w: World, tid: string, mac: string, until: Time,
                                         attempts: seq<Attempt>)
    requires Valid(w.db) && Held(w, tid, mac, until) && AllAim(hash, attempts, w.db.tokens[tid].codeHash, until)
    ensures Held(TryAll(hash, w, attempts), tid, mac, until) && Judged(attempts, Answers(hash, w, attempts), mac)
    decreases |attempts|
  {
    if attempts == [] {
    } else {
      var r := Try(hash, w, attempts[0]);
      assert AllAim(hash, attempts[1..], w.db.tokens[tid].codeHash, until);
      LaterAttempt(hash, w, tid, mac, until, attempts[0]);
      RedeemKeepsValid(hash, w, attempts[0].env, attempts[0].req, false, attempts[0].newId);
      LaterAttempts(hash, r.world, tid, mac, until, attempts[1..]);
      JudgedCons(attempts, r.result, Answers(hash, r.world, attempts[1..]), mac);
    }
  }

  /**
   Of any redemptions of one unused token, the first binds the device; each later one succeeds exactly
   when it comes from that device, and the others are told so (and, by LaterAttempt, change nothing).
   */
  lemma SingleWinner(hash: string -> string, w: World, tid: string, attempts: seq<Attempt>)
    requires Valid(w.db) && tid in w.db.tokens && w.db.tokens[tid].status == Unused && attempts != []
    requires w.db.plans[w.db.tokens[tid].planId].active && attempts[0].newId !in w.db.sessions
    requires var until := attempts[0].env.now + w.db.plans[w.db.tokens[tid].planId].Lifetime();
             AllAim(hash, attempts, w.db.tokens[tid].codeHash, until)
    ensures var winner := CanonicalMac(attempts[0].req.deviceMac);
            && winner.Some? && Judged(attempts, Answers(hash, w, attempts), winner.value)
            && Held(TryAll(hash, w, attempts), tid, winner.value,
                    attempts[0].env.now + w.db.plans[w.db.tokens[tid].planId].Lifetime())
  {
    var until := attempts[0].env.now + w.db.plans[w.db.tokens[tid].planId].Lifetime();
    var r := Try(hash, w, attempts[0]);
    var mac := CanonicalMac(attempts[0].req.deviceMac);
    assert Aims(hash, attempts[0], w.db.tokens[tid].codeHash, until);
    assert Won(r, w.db.tokens[tid], mac.value, until) by {
      assert TokenOk(w.db, w.db.tokens[tid]);
      FirstWins(hash, w, w.db.tokens[tid], attempts[0]);
    }
    assert Valid(r.world.db) by {
      RedeemKeepsValid(hash, w, attempts[0].env, attempts[0].req, false, attempts[0].newId);
    }
    WinnerAndRest(hash, r, tid, mac.value, until, attempts);
  }

  lemma WinnerAndRest(hash: string -> string, r: Reply<RedeemResult>, tid: string, mac: string, until: Time,
                      attempts: seq<Attempt>)
    requires attempts != [] && CanonicalMac(attempts[0].req.deviceMac) == Some(mac) && r.result.Ok?
    requires Valid(r.world.db) && Held(r.world, tid, mac, until)
    requires AllAim(hash, attempts, r.world.db.tokens[tid].codeHash, until)
    ensures Held(TryAll(hash, r.world, attempts[1..]), tid, mac, until)
    ensures Judged(attempts, [r.result] + Answers(hash, r.world, attempts[1..]), mac)
  {
    assert AllAim(hash, attempts[1..], r.world.db.tokens[tid].codeHash, until);
    LaterAttempts(hash, r.world, tid, mac, until, attempts[1..]);
    JudgedCons(attempts, r.result, Answers(hash, r.world, attempts[1..]), mac);
  }

  // ---- Granted time ----

  /** The timeout that goes into an Access-Accept: at least a minute (radius_server.go:163). */
  function SentTimeout(p: Policy): int {
    if p.sessionTimeoutSec > 60 then p.sessionTimeoutSec else 60
  }

  lemma PolicyBounds(plan: Plan, t: Token, now: Time)
    requires plan.durationMinutes > 0 && t.expiresAt.Some? && now < t.expiresAt.value
    ensures var p := PolicyFor(plan, t, now); var left := t.expiresAt.value - now;
            && 1 <= p.sessionTimeoutSec <= plan.durationMinutes * 60
            && (p.sessionTimeoutSec * SECOND <= left || p.sessionTimeoutSec == 1)
            && (p.sessionTimeoutSec == plan.durationMinutes * 60 || left < (p.sessionTimeoutSec + 1) * SECOND)
            && SentTimeout(p) * SECOND < left + MINUTE
  {
    var left := t.expiresAt.value - now;
    assert left / SECOND * SECOND <= left < (left / SECOND + 1) * SECOND;
  }

  /** The session carries the request's context; a field that the request leaves empty is not checked. */
  ghost predicate Reflects(s: Session, req: RedeemInput) {
    && s.ip == req.ip && s.gatewayId == req.gatewayId
    && (req.radiusSessionId != "" ==> s.radiusSessionId == req.radiusSessionId)
    && (req.nasIp != "" ==> s.nasIp == req.nasIp)
    && (req.nasIdentifier != "" ==> s.nasIdentifier == req.nasIdentifier)
  }

  /** What a redemption hands out is what the store holds: an active token of the device, on an active session. */
  ghost predicate Grants(after: Db, v: RedeemResult, plan: Plan, mac: string, now: Time, req: RedeemInput) {
    && Reflects(v.session, req)
    && v.token.id in after.tokens && after.tokens[v.token.id] == v.token && v.token.status == Active
    && IsActiveOf(after, v.session.id, v.token.id) && after.sessions[v.session.id] == v.session
    && v.token.usedBy == Some(mac)
    && v.token.expiresAt.Some? && now < v.token.expiresAt.value
    && v.token.planId == plan.id && v.policy == PolicyFor(plan, v.token, now)
  }

  lemma FirstUseGrants(w: World, env: Env, t: Token, plan: Plan, mac: string, req: RedeemInput, newId: string)
    requires t.planId == plan.id && plan.durationMinutes > 0 && FirstUse(w, env, t, plan, mac, req, newId).result.Ok?
    ensures var r := FirstUse(w, env, t, plan, mac, req, newId);
            Grants(r.world.db, r.result.value, plan, mac, env.now, req)
  {
  }

  lemma FurtherUseGrants(w: World, env: Env, t: Token, plan: Plan, mac: string, req: RedeemInput, newId: string)
    requires Keyed(w.db) && t.id in w.db.tokens && w.db.tokens[t.id] == t && t.status == Active && t.planId == plan.id
    requires t.expiresAt.Some? && env.now < t.expiresAt.value && FurtherUse(w, env, t, plan, mac, req, newId).result.Ok?
    ensures var r := FurtherUse(w, env, t, plan, mac, req, newId);
            Grants(r.world.db, r.result.value, plan, mac, env.now, req)
  {
    var o := ActiveOf(w.db, t.id);
    if o.Some? {
      var sid :| IsActiveOf(w.db, sid, t.id) && w.db.sessions[sid] == o.value;
    }
  }

  lemma RedeemGrants(hash: string -> string, w: World, env: Env, req: RedeemInput, requireActive: bool, newId: string)
    requires Valid(w.db) && Redeem(hash, w, env, req, requireActive, newId).result.Ok?
    ensures var r := Redeem(hash, w, env, req, requireActive, newId); var v := r.result.value;
            && v.token.planId in w.db.plans && CanonicalMac(req.deviceMac).Some?
            && Grants(r.world.db, v, w.db.plans[v.token.planId], CanonicalMac(req.deviceMac).value, env.now, req)
  {
    AdmitFindsStored(hash, w.db, req);
    var a := Admit(hash, w.db, req).value;
    assert TokenOk(w.db, a.token);
    if a.token.status == Unused {
      FirstUseGrants(w, env, a.token, a.plan, a.mac, req, newId);
    } else {
      FurtherUseGrants(w, env, a.token, a.plan, a.mac, req, newId);
    }
  }

  /**
   Every granted access ends with its token: the timeout is at least a second, at most the plan's
   duration, and never longer than what is left of the token (nor shorter, short of a whole second or
   the plan's duration); the timeout sent over RADIUS overshoots the expiry by less than a minute.
   */
  lemma GrantedTime(hash: string -> string, w: World, env: Env, req: RedeemInput, requireActive: bool, newId: string)
    requires Valid(w.db) && Redeem(hash, w, env, req, requireActive, newId).result.Ok?
    ensures var v := Redeem(hash, w, env, req, requireActive, newId).result.value;
            && v.token.expiresAt.Some? && v.token.planId in w.db.plans
            && var left := v.token.expiresAt.value - env.now; var seconds := v.policy.sessionTimeoutSec;
               var most := w.db.plans[v.token.planId].durationMinutes * 60;
               && 0 < left && 1 <= seconds <= most
               && (seconds * SECOND <= left || seconds == 1)
               && (seconds == most || left < (seconds + 1) * SECOND)
               && SentTimeout(v.policy) * SECOND < left + MINUTE
  {
    RedeemGrants(hash, w, env, req, requireActive, newId);
    var v := Redeem(hash, w, env, req, requireActive, newId).result.value;
    PolicyBounds(w.db.plans[v.token.planId], v.token, env.now);
  }

  /** An admitted token past its expiry instant is answered "expired" exactly when the gateway lets its session go. */
  lemma ExpiredAnswer(hash: string -> string, w: World, env: Env, req: RedeemInput, requireActive: bool, newId: string)
    requires Valid(w.db) && Admit(hash, w.db, req).Ok? && Admit(hash, w.db, req).value.token.PastExpiry(env.now)
    ensures var r := Redeem(hash, w, env, req, requireActive, newId);
            var o := ActiveOf(w.db, Admit(hash, w.db, req).value.token.id);
            && r.result.Err?
            && (r.result == Err(TokenExpired) <==> (o.Some? ==> o.value.id !in env.failing))
            && (r.result != Err(TokenExpired) ==> r.result == Err(GatewayFailed))
  {
    AdmitFindsStored(hash, w.db, req);
    RetireTokenEffect(w, env, AsExpired(Admit(hash, w.db, req).value.token, env.now), "expired");
  }

  // ---- Usage totals ----

  /** The sum of all usage records of one token. */
  function TokenTraffic(usage: seq<UsageRecord>, tid: string): Traffic {
    if usage == [] then Traffic(0, 0)
    else
      var r := usage[|usage| - 1];
      var before := TokenTraffic(usage[..|usage| - 1], tid);
      if r.tokenId == tid then before.Plus(Carried(r)) else before
  }

  function SumOverSessions(usage: seq<UsageRecord>, ids: seq<string>): Traffic {
    if ids == [] then Traffic(0, 0) else SessionTraffic(usage, ids[0]).Plus(SumOverSessions(usage, ids[1..]))
  }

  function SumOfCounters(sessions: map<string, Session>, ids: seq<string>): Traffic
    requires forall i | 0 <= i < |ids| :: ids[i] in sessions
  {
    if ids == [] then Traffic(0, 0)
    else Traffic(sessions[ids[0]].bytesUp, sessions[ids[0]].bytesDown).Plus(SumOfCounters(sessions, ids[1..]))
  }

  /** The sessions of a token, each once. */
  ghost predicate ListsSessionsOf(ids: seq<string>, sessions: map<string, Session>, tid: string) {
    && (forall i | 0 <= i < |ids| :: ids[i] in sessions && sessions[ids[i]].tokenId == tid)
    && (forall i, j | 0 <= i < j < |ids| :: ids[i] != ids[j])
    && (forall k | k in sessions && sessions[k].tokenId == tid :: k in ids)
  }

  lemma {:induction false} SumOneMore(usage: seq<UsageRecord>, r: UsageRecord, ids: seq<string>)
    requires forall i, j | 0 <= i < j < |ids| :: ids[i] != ids[j]
    ensures SumOverSessions(usage + [r], ids)
         == if r.sessionId in ids then SumOverSessions(usage, ids).Plus(Carried(r)) else SumOverSessions(usage, ids)
  {
    if ids == [] {
    } else {
      TrafficSnoc(usage, r, ids[0]);
      SumOneMore(usage, r, ids[1..]);
      assert ids == [ids[0]] + ids[1..];
    }
  }

  lemma {:induction false} SumOfNothing(ids: seq<string>)
    ensures SumOverSessions([], ids) == Traffic(0, 0)
  {
    if ids == [] {
    } else {
      SumOfNothing(ids[1..]);
    }
  }

  lemma {:induction false} RecordsAddUp(usage: seq<UsageRecord>, db: Db, tid: string, ids: seq<string>)
    requires ListsSessionsOf(ids, db.sessions, tid)
    requires forall i | 0 <= i < |usage| :: RecordOk(db, usage[i])
    ensures TokenTraffic(usage, tid) == SumOverSessions(usage, ids)
  {
    if usage == [] {
      SumOfNothing(ids);
    } else {
      var front, r := usage[..|usage| - 1], usage[|usage| - 1];
      assert usage == front + [r];
      RecordsAddUp(front, db, tid, ids);
      SumOneMore(front, r, ids);
      assert RecordOk(db, r);
    }
  }

  lemma {:induction false} CountersAddUp(db: Db, ids: seq<string>)
    requires Metered(db) && forall i | 0 <= i < |ids| :: ids[i] in db.sessions
    ensures SumOfCounters(db.sessions, ids) == SumOverSessions(db.usage, ids)
  {
    if ids == [] {
    } else {
      CountersAddUp(db, ids[1..]);
    }
  }

  /**
   In every reachable state a token's usage records add up to the counters of its sessions, and so do each
   session's.
   */
  lemma UsageConserved(hash: string -> string, w: World, run: seq<Event>, tid: string, ids: seq<string>)
    requires Initial(w) && Fits(hash, w, run) && ListsSessionsOf(ids, Play(hash, w, run).db.sessions, tid)
    ensures var db := Play(hash, w, run).db;
            && TokenTraffic(db.usage, tid) == SumOfCounters(db.sessions, ids)
            && forall sid | sid in db.sessions ::
                 SessionTraffic(db.usage, sid) == Traffic(db.sessions[sid].bytesUp, db.sessions[sid].bytesDown)
  {
    InitialValid(w);
    RunKeepsValid(hash, w, run);
    var db := Play(hash, w, run).db;
    RecordsAddUp(db.usage, db, tid, ids);
    CountersAddUp(db, ids);
  }

  // ---- The data limit ----

  /** A usage update that reaches the limit: session ended, disconnect owed and token consumed, in one step. */
  ghost predicate EndedAtLimit(before: Db, after: Db, s: Session, counted: Session, now: Time) {
    && s.tokenId in before.tokens
    && after.sessions == before.sessions[s.id := counted.Close(now, DATA_LIMIT, true)]
    && after.tokens == before.tokens[s.tokenId := before.tokens[s.tokenId].(status := Consumed, updatedAt := now)]
    && (forall k :: !IsActiveOf(after, k, s.tokenId))
  }

  /**
   One usage update on an active session: exactly when the plan has a limit and the new total reaches it, the
   session has ended at this instant with a disconnect owed, the token is consumed and no active session is
   left on it; otherwise only the counters move.
   */
  lemma LimitEndsTogether(w: World, env: Env, sid: string, up: int, down: int)
    requires Valid(w.db) && sid in w.db.sessions && w.db.sessions[sid].status == Live
    ensures var s := w.db.sessions[sid]; var r := ApplyUsage(w, env, sid, up, down);
            var counted := s.(bytesUp := s.bytesUp + up, bytesDown := s.bytesDown + down);
            && s.tokenId in w.db.tokens && w.db.tokens[s.tokenId].planId in w.db.plans
            && var limit := w.db.plans[w.db.tokens[s.tokenId].planId].dataLimitMB * 1_048_576;
               if limit > 0 && counted.bytesUp + counted.bytesDown >= limit then
                 EndedAtLimit(w.db, r.world.db, s, counted, env.now) && r.result.Ok? && r.result.value.disconnect.Some?
               else
                 && r.result == Ok(UsageUpdate(counted, None))
                 && r.world.db.sessions == w.db.sessions[sid := counted] && r.world.db.tokens == w.db.tokens
  {
    var s := w.db.sessions[sid];
    assert SessionOk(w.db, s) && TokenOk(w.db, w.db.tokens[s.tokenId]);
    ApplyUsageForm(w, env, sid, up, down);
    ClosedLeavesNone(w.db, s, s.tokenId);
    var r := ApplyUsage(w, env, sid, up, down);
    var done := Counted(s, w.db.plans[w.db.tokens[s.tokenId].planId], up, down, env.now);
    if done.status == Ended {
      forall k
        ensures !IsActiveOf(r.world.db, k, s.tokenId)
      {
        if IsActiveOf(r.world.db, k, s.tokenId) {
          assert IsActiveOf(w.db, k, s.tokenId) && IsActiveOf(w.db, sid, s.tokenId);
        }
      }
    }
  }
}
