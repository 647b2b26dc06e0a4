/** Byte counters, the data limit and ordinary session ends (service/quota_service.go). */
module Quota {
  import opened Domain
  import opened Store
  import opened Gateway

  /** The session after an update, and the reason when the gateway has to drop it. */
  datatype UsageUpdate = UsageUpdate(session: Session, disconnect: Option<string>)

  const DATA_LIMIT := "data_limit_reached"

  function AddRecord(db: Db, r: UsageRecord): Db {
    db.(usage := db.usage + [r])
  }

  function ApplyUsage(w: World, env: Env, sid: string, up: int, down: int): Reply<UsageUpdate> {
    if sid !in w.db.sessions then Reply(w, Err(SessionNotFound))
    else if w.db.sessions[sid].status != Live then Reply(w, Err(SessionNotActive))
    else
      var before := w.db.sessions[sid];
      var s := before.(bytesUp := before.bytesUp + up, bytesDown := before.bytesDown + down);
      var db := AddRecord(PutSession(w.db, s), UsageRecord(sid, s.tokenId, up, down, env.now));
      if s.tokenId !in db.tokens || db.tokens[s.tokenId].planId !in db.plans then Reply(w.(db := db), Err(NotFound))
      else
        var t := db.tokens[s.tokenId];
        var limit := db.plans[t.planId].LimitBytes();
        if limit > 0 && s.bytesUp + s.bytesDown >= limit then
          var ended := s.Close(env.now, DATA_LIMIT, true);
          var used := t.(status := Consumed, updatedAt := env.now);
          Reply(w.(db := PutToken(PutSession(db, ended), used)), Ok(UsageUpdate(ended, Some(DATA_LIMIT))))
        else
          Reply(w.(db := db), Ok(UsageUpdate(s, None)))
  }

  function StopSession(w: World, env: Env, sid: string, reason: string): Reply<Session> {
    if sid !in w.db.sessions then Reply(w, Err(SessionNotFound))
    else
      var s := w.db.sessions[sid];
      if s.status == Ended then Reply(w, Ok(s))
      else
        var done := s.Close(env.now, reason, false);
        Reply(SaveSession(w, done).(stopped := w.stopped + {sid}), Ok(done))
  }

  // ---- Validity ----

  lemma TrafficSnoc(usage: seq<UsageRecord>, r: UsageRecord, sid: string)
    ensures SessionTraffic(usage + [r], sid)
         == if r.sessionId == sid then SessionTraffic(usage, sid).Plus(Carried(r)) else SessionTraffic(usage, sid)
  {
    assert (usage + [r])[..|usage|] == usage;
  }

  /** Adding a record and the same bytes to the counters keeps records and counters in step. */
  lemma MeteredStep(db: Db, s: Session, up: int, down: int, now: Time)
    requires Metered(db)
    requires s.id in db.sessions && s.tokenId == db.sessions[s.id].tokenId
    requires s.bytesUp == db.sessions[s.id].bytesUp + up && s.bytesDown == db.sessions[s.id].bytesDown + down
    ensures Metered(AddRecord(PutSession(db, s), UsageRecord(s.id, s.tokenId, up, down, now)))
  {
    var r := UsageRecord(s.id, s.tokenId, up, down, now);
    var after := AddRecord(PutSession(db, s), r);
    forall i | 0 <= i < |after.usage|
      ensures RecordOk(after, after.usage[i])
    {
      if i < |db.usage| {
        assert RecordOk(db, db.usage[i]);
      }
    }
    forall sid | sid in after.sessions
      ensures SessionTraffic(after.usage, sid) == Traffic(after.sessions[sid].bytesUp, after.sessions[sid].bytesDown)
    {
      TrafficSnoc(db.usage, r, sid);
    }
  }

  /** Counting bytes on an active session, which stays active only under the limit. */
  lemma CountKeepsValid(db: Db, s: Session, up: int, down: int, now: Time)
    requires Valid(db) && s.id in db.sessions
    requires db.sessions[s.id].status == Live && SessionEvolves(db.sessions[s.id], s)
    requires s.bytesUp == db.sessions[s.id].bytesUp + up && s.bytesDown == db.sessions[s.id].bytesDown + down
    requires SessionOk(db, s)
    ensures var after := AddRecord(PutSession(db, s), UsageRecord(s.id, s.tokenId, up, down, now));
            Valid(after) && Evolves(db, after)
  {
    MeteredStep(db, s, up, down, now);
    CountEvolves(db, s, UsageRecord(s.id, s.tokenId, up, down, now));
    var after := AddRecord(PutSession(db, s), UsageRecord(s.id, s.tokenId, up, down, now));
    CountedSingle(db, s, after);
    CountedSessions(db, s, after);
    assert TokensOk(after) by {
      assert forall k | k in after.tokens :: TokenOk(db, db.tokens[k]) && TokenOk(after, after.tokens[k]);
    }
  }

  lemma CountEvolves(db: Db, s: Session, r: UsageRecord)
    requires s.id in db.sessions && SessionEvolves(db.sessions[s.id], s)
    ensures Evolves(db, AddRecord(PutSession(db, s), r))
  {
  }

  lemma CountedSingle(db: Db, s: Session, after: Db)
    requires SingleActive(db) && s.id in db.sessions && db.sessions[s.id].status == Live
    requires s.tokenId == db.sessions[s.id].tokenId && after.sessions == db.sessions[s.id := s]
    ensures SingleActive(after)
  {
    forall tid, a, b | IsActiveOf(after, a, tid) && IsActiveOf(after, b, tid)
      ensures a == b
    {
      assert IsActiveOf(db, a, tid) && IsActiveOf(db, b, tid);
    }
  }

  lemma CountedSessions(db: Db, s: Session, after: Db)
    requires SessionsOk(db) && SessionOk(db, s)
    requires after.sessions == db.sessions[s.id := s] && after.tokens == db.tokens && after.plans == db.plans
    ensures SessionsOk(after)
  {
    forall k | k in after.sessions
      ensures SessionOk(after, after.sessions[k])
    {
      if k != s.id {
        assert SessionOk(db, db.sessions[k]);
      }
    }
  }

  /** The final statuses, reached by an active token together with the end of its session. */
  ghost predicate RetiredFrom(a: Token, b: Token) {
    && b == a.(status := b.status, updatedAt := b.updatedAt, revokedReason := b.revokedReason)
    && b.status.Rank() == 2
  }

  lemma RetireIndex(db: Db, t: Token)
    requires Indexed(db) && t.id in db.tokens && t.codeHash == db.tokens[t.id].codeHash
    ensures PutToken(db, t).byHash == db.byHash && Indexed(PutToken(db, t))
  {
    assert db.byHash[db.tokens[t.id].codeHash] == t.id;
    assert db.byHash[t.codeHash := t.id] == db.byHash;
  }

  lemma RetireTokens(db: Db, t: Token)
    requires TokensOk(db)
    requires t.id in db.tokens && RetiredFrom(db.tokens[t.id], t)
    ensures TokensOk(PutToken(db, t))
  {
    var after := PutToken(db, t);
    forall k | k in after.tokens
      ensures TokenOk(after, after.tokens[k])
    {
      assert TokenOk(db, db.tokens[k]);
    }
  }

  lemma RetireSessions(db: Db, t: Token)
    requires SessionsOk(db)
    requires t.id in db.tokens && RetiredFrom(db.tokens[t.id], t)
    requires forall sid :: !IsActiveOf(db, sid, t.id)
    ensures SessionsOk(PutToken(db, t))
  {
    var after := PutToken(db, t);
    forall k | k in after.sessions
      ensures SessionOk(after, after.sessions[k])
    {
      assert SessionOk(db, db.sessions[k]);
      assert !IsActiveOf(db, k, t.id);
    }
  }

  lemma SameSessionsSingle(db: Db, after: Db)
    requires SingleActive(db) && after.sessions == db.sessions
    ensures SingleActive(after)
  {
    forall tid, a, b | IsActiveOf(after, a, tid) && IsActiveOf(after, b, tid)
      ensures a == b
    {
      assert IsActiveOf(db, a, tid) && IsActiveOf(db, b, tid);
    }
  }

  lemma SameSessionsMetered(db: Db, after: Db)
    requires Metered(db) && after.sessions == db.sessions && after.usage == db.usage
    ensures Metered(after)
  {
    assert forall i | 0 <= i < |after.usage| :: RecordOk(db, db.usage[i]) && RecordOk(after, after.usage[i]);
  }

  lemma RetireEvolves(db: Db, t: Token)
    requires Indexed(db) && t.id in db.tokens && RetiredFrom(db.tokens[t.id], t)
    ensures Evolves(db, PutToken(db, t))
  {
    RetireIndex(db, t);
  }

  /** A token none of whose sessions is active may take a final status. */
  lemma RetireKeepsValid(db: Db, t: Token)
    requires Valid(db) && t.id in db.tokens && RetiredFrom(db.tokens[t.id], t)
    requires forall sid :: !IsActiveOf(db, sid, t.id)
    ensures Valid(PutToken(db, t)) && Evolves(db, PutToken(db, t))
  {
    RetireIndex(db, t);
    RetireEvolves(db, t);
    RetireTokens(db, t);
    RetireSessions(db, t);
    SameSessionsMetered(db, PutToken(db, t));
    SameSessionsSingle(db, PutToken(db, t));
  }

  /** Closing a token's active session leaves the token without one. */
  lemma ClosedLeavesNone(db: Db, s: Session, tid: string)
    requires SingleActive(db) && IsActiveOf(db, s.id, tid) && s.status == Live
    ensures forall now, reason, owed, sid :: !IsActiveOf(PutSession(db, s.Close(now, reason, owed)), sid, tid)
  {
    forall now, reason, owed, sid
      ensures !IsActiveOf(PutSession(db, s.Close(now, reason, owed)), sid, tid)
    {
      if IsActiveOf(PutSession(db, s.Close(now, reason, owed)), sid, tid) {
        assert IsActiveOf(db, sid, tid);
      }
    }
  }

  /** The session after an update, ended when the limit is reached. */
  ghost function Counted(s: Session, plan: Plan, up: int, down: int, now: Time): Session {
    var open := s.(bytesUp := s.bytesUp + up, bytesDown := s.bytesDown + down);
    if WithinQuota(open, plan) then open else open.Close(now, DATA_LIMIT, true)
  }

  /** One usage update: count, and at the limit end the session, mark a disconnect owed and consume the token. */
  lemma ApplyUsageForm(w: World, env: Env, sid: string, up: int, down: int)
    requires sid in w.db.sessions && w.db.sessions[sid].id == sid && w.db.sessions[sid].status == Live
    requires w.db.sessions[sid].tokenId in w.db.tokens && w.db.tokens[w.db.sessions[sid].tokenId].planId in w.db.plans
    ensures var t := w.db.tokens[w.db.sessions[sid].tokenId];
            var s := Counted(w.db.sessions[sid], w.db.plans[t.planId], up, down, env.now);
            var counted := AddRecord(PutSession(w.db, s), UsageRecord(sid, s.tokenId, up, down, env.now));
            ApplyUsage(w, env, sid, up, down) ==
              if s.status == Ended
              then Reply(w.(db := PutToken(counted, t.(status := Consumed, updatedAt := env.now))),
                         Ok(UsageUpdate(s, Some(DATA_LIMIT))))
              else Reply(w.(db := counted), Ok(UsageUpdate(s, None)))
  {
    var before := w.db.sessions[sid];
    var open := before.(bytesUp := before.bytesUp + up, bytesDown := before.bytesDown + down);
    var ended := open.Close(env.now, DATA_LIMIT, true);
    assert w.db.sessions[sid := open][sid := ended] == w.db.sessions[sid := ended];
  }

  lemma CountedKeepsValid(db: Db, sid: string, up: int, down: int, now: Time)
    requires Valid(db) && sid in db.sessions && db.sessions[sid].status == Live
    ensures var t := db.tokens[db.sessions[sid].tokenId];
            var s := Counted(db.sessions[sid], db.plans[t.planId], up, down, now);
            var counted := AddRecord(PutSession(db, s), UsageRecord(sid, s.tokenId, up, down, now));
            && Valid(counted) && Evolves(db, counted)
            && (s.status == Ended ==> forall k :: !IsActiveOf(counted, k, t.id))
  {
    var before := db.sessions[sid];
    assert SessionOk(db, before) && TokenOk(db, db.tokens[before.tokenId]);
    var s := Counted(before, db.plans[db.tokens[before.tokenId].planId], up, down, now);
    CountKeepsValid(db, s, up, down, now);
    var counted := AddRecord(PutSession(db, s), UsageRecord(sid, s.tokenId, up, down, now));
    if s.status == Ended {
      forall k
        ensures !IsActiveOf(counted, k, before.tokenId)
      {
        if IsActiveOf(counted, k, before.tokenId) {
          assert IsActiveOf(db, k, before.tokenId) && IsActiveOf(db, sid, before.tokenId);
        }
      }
    }
  }

  lemma ApplyUsageKeepsValid(w: World, env: Env, sid: string, up: int, down: int)
    requires Valid(w.db)
    ensures var w' := ApplyUsage(w, env, sid, up, down).world; Valid(w'.db) && Evolves(w.db, w'.db)
  {
    if sid in w.db.sessions && w.db.sessions[sid].status == Live {
      assert SessionOk(w.db, w.db.sessions[sid]);
      var t := w.db.tokens[w.db.sessions[sid].tokenId];
      assert TokenOk(w.db, t);
      ApplyUsageForm(w, env, sid, up, down);
      CountedKeepsValid(w.db, sid, up, down, env.now);
      var s := Counted(w.db.sessions[sid], w.db.plans[t.planId], up, down, env.now);
      if s.status == Ended {
        var counted := AddRecord(PutSession(w.db, s), UsageRecord(sid, s.tokenId, up, down, env.now));
        var used := t.(status := Consumed, updatedAt := env.now);
        RetireKeepsValid(counted, used);
        EvolvesTransitive(w.db, counted, PutToken(counted, used));
      }
    }
  }

  lemma StopKeepsValid(w: World, env: Env, sid: string, reason: string)
    requires Valid(w.db)
    ensures var w' := StopSession(w, env, sid, reason).world; Valid(w'.db) && Evolves(w.db, w'.db)
  {
    if sid in w.db.sessions && w.db.sessions[sid].status == Live {
      TamerKeepsValid(w.db, w.db.sessions[sid].Close(env.now, reason, false));
    }
  }

  lemma ApplyUsageKeepsKeyed(w: World, env: Env, sid: string, up: int, down: int)
    requires Keyed(w.db)
    ensures Keyed(ApplyUsage(w, env, sid, up, down).world.db)
  {
  }

  class QuotaService {
    const store: MemoryStore
    const outside: Outside

    constructor (store: MemoryStore, outside: Outside)
      ensures this.store == store && this.outside == outside
    {
      this.store := store;
      this.outside := outside;
    }

    method Apply(sid: string, up: int, down: int, env: Env) returns (r: Result<UsageUpdate>)
      requires Keyed(store.Contents())
      modifies store
      ensures ApplyUsage(old(Snapshot(store, outside)), env, sid, up, down) == Reply(Snapshot(store, outside), r)
    {
      var found := store.GetSessionByID(sid);
      if found.None? {
        return Err(SessionNotFound);
      }
      var session := found.value;
      if session.status != Live {
        return Err(SessionNotActive);
      }
      session := session.(bytesUp := session.bytesUp + up, bytesDown := session.bytesDown + down);
      var saved := store.UpdateSession(session);
      if !saved {
        return Err(SessionNotFound);
      }
      store.CreateUsageRecord(UsageRecord(sid, session.tokenId, up, down, env.now));
      ghost var counted := Snapshot(store, outside);
      assert counted.db
             == AddRecord(PutSession(old(store.Contents()), session),
                          UsageRecord(sid, session.tokenId, up, down, env.now));
      var token := store.GetTokenByID(session.tokenId);
      if token.None? {
        return Err(NotFound);
      }
      var plan := store.GetPlan(token.value.planId);
      if plan.None? {
        return Err(NotFound);
      }
      var total := session.bytesUp + session.bytesDown;
      var limit := plan.value.LimitBytes();
      if limit > 0 && total >= limit {
        session := session.(status := Ended, endReason := DATA_LIMIT, endedAt := Some(env.now), pending := true);
        saved := store.UpdateSession(session);
        var kept := store.UpdateToken(token.value.(status := Consumed, updatedAt := env.now));
        if !saved || !kept {
          return Err(NotFound);
        }
        assert store.Contents()
               == PutToken(PutSession(counted.db, session), token.value.(status := Consumed, updatedAt := env.now));
        return Ok(UsageUpdate(session, Some(DATA_LIMIT)));
      }
      r := Ok(UsageUpdate(session, None));
    }

    method Stop(sid: string, reason: string, env: Env) returns (r: Result<Session>)
      requires Keyed(store.Contents())
      modifies store, outside`stopped
      ensures StopSession(old(Snapshot(store, outside)), env, sid, reason) == Reply(Snapshot(store, outside), r)
      ensures Keyed(store.Contents())
    {
      var found := store.GetSessionByID(sid);
      if found.None? {
        return Err(SessionNotFound);
      }
      var session := found.value;
      if session.status == Ended {
        return Ok(session);
      }
      session := session.(status := Ended, endReason := reason, endedAt := Some(env.now), pending := false);
      var saved := store.UpdateSession(session);
      if !saved {
        return Err(SessionNotFound);
      }
      outside.stopped := outside.stopped + {sid};
      r := Ok(session);
    }
  }
}
