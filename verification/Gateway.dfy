/** Telling the gateway to drop a session, with a retry queue (service/gateway_service.go, jobs/worker.go). */
module Gateway {
  import opened Domain
  import opened Store

  /** A service's answer and the world it leaves behind. */
  datatype Reply<+T> = Reply(world: World, result: Result<T>)

  function Enqueue(w: World, env: Env, sid: string, reason: string): World {
    if sid in env.unqueued then w else w.(queue := w.queue + [Task(sid, reason)])
  }

  function DisconnectSession(w: World, env: Env, sid: string, reason: string, force: bool): Reply<Session> {
    if sid !in w.db.sessions then Reply(w, Err(SessionNotFound))
    else
      var why := if reason == "" then "disconnect" else reason;
      var found := w.db.sessions[sid];
      if found.status == Ended && !force && !found.pending then Reply(w, Ok(found))
      else
        var closed := if found.status == Ended then found.(pending := true) else found.Close(env.now, why, true);
        if sid in env.failing then
          Reply(Enqueue(SaveSession(w, closed), env, sid, why), Err(GatewayFailed))
        else
          var done := closed.(pending := false);
          Reply(SaveSession(w, done).(acked := w.acked + {sid}), Ok(done))
  }

  /** End an active session on the server's own account, then tell the gateway. */
  function EndSession(w: World, env: Env, s: Session, reason: string): Reply<Session> {
    DisconnectSession(SaveSession(w, s.Close(env.now, reason, true)), env, s.id, reason, true)
  }

  /** The worker's handling of one queued task; a failed task may be tried again by the queue itself. */
  function RetryTask(w: World, env: Env, index: nat, again: bool): World
    requires index < |w.queue|
  {
    var task := w.queue[index];
    var reply := DisconnectSession(w.(queue := w.queue[..index] + w.queue[index + 1..]), env, task.sessionId,
                                   task.reason, true);
    if reply.result.Err? && again then reply.world.(queue := reply.world.queue + [task]) else reply.world
  }

  /** What a forced ending leaves: the session closed, owed exactly when the controller failed. */
  lemma EndSessionEffect(w: World, env: Env, s: Session, reason: string)
    requires reason != "" && s.id in w.db.sessions
    ensures var r := EndSession(w, env, s, reason);
            && r.result.Ok? == (s.id !in env.failing)
            && r.world.db == PutSession(w.db, s.Close(env.now, reason, s.id in env.failing))
            && r.world.stopped == w.stopped
            && (s.id in env.failing ==> r.world == Enqueue(w.(db := r.world.db), env, s.id, reason))
            && (s.id !in env.failing ==> r.world == w.(db := r.world.db, acked := w.acked + {s.id}))
  {
    var marked := SaveSession(w, s.Close(env.now, reason, true));
    assert marked.db.sessions[s.id := s.Close(env.now, reason, s.id in env.failing)]
        == w.db.sessions[s.id := s.Close(env.now, reason, s.id in env.failing)];
  }

  /** Replacing a session by one with the same owner and counters that is no more active than before. */
  ghost predicate Tamer(a: Session, b: Session) {
    && SessionEvolves(a, b)
    && a.bytesUp == b.bytesUp && a.bytesDown == b.bytesDown
    && (b.status == Live <==> b.endedAt.None?)
    && (b.status == Live ==> a.status == Live)
  }

  lemma TamerSessions(db: Db, s: Session)
    requires Keyed(db) && SessionsOk(db)
    requires s.id in db.sessions && Tamer(db.sessions[s.id], s)
    ensures SessionsOk(PutSession(db, s))
  {
    var after := PutSession(db, s);
    forall k | k in after.sessions
      ensures SessionOk(after, after.sessions[k])
    {
      assert SessionOk(db, db.sessions[k]);
    }
  }

  lemma TamerSingle(db: Db, s: Session)
    requires SingleActive(db)
    requires s.id in db.sessions && Tamer(db.sessions[s.id], s)
    ensures SingleActive(PutSession(db, s))
  {
    var after := PutSession(db, s);
    forall tid, a, b | IsActiveOf(after, a, tid) && IsActiveOf(after, b, tid)
      ensures a == b
    {
      assert IsActiveOf(db, a, tid) && IsActiveOf(db, b, tid);
    }
  }

  lemma TamerMetered(db: Db, s: Session)
    requires Metered(db)
    requires s.id in db.sessions && Tamer(db.sessions[s.id], s)
    ensures Metered(PutSession(db, s))
  {
    var after := PutSession(db, s);
    forall i | 0 <= i < |after.usage|
      ensures RecordOk(after, after.usage[i])
    {
      assert RecordOk(db, db.usage[i]);
    }
  }

  lemma TamerKeepsValid(db: Db, s: Session)
    requires Valid(db) && s.id in db.sessions && Tamer(db.sessions[s.id], s)
    ensures Valid(PutSession(db, s)) && Evolves(db, PutSession(db, s))
  {
    TamerSessions(db, s);
    TamerSingle(db, s);
    TamerMetered(db, s);
    var after := PutSession(db, s);
    assert forall k | k in after.tokens :: TokenOk(db, db.tokens[k]) && TokenOk(after, after.tokens[k]);
  }

  /** A disconnect rewrites at most the named session, which ends if it had not ended before. */
  lemma DisconnectEffect(w: World, env: Env, sid: string, reason: string, force: bool) returns (s: Session)
    requires sid in w.db.sessions && w.db.sessions[sid].id == sid
    requires w.db.sessions[sid].status == Live <==> w.db.sessions[sid].endedAt.None?
    ensures s.id == sid && s.status == Ended && Tamer(w.db.sessions[sid], s)
    ensures DisconnectSession(w, env, sid, reason, force).world.db == PutSession(w.db, s)
  {
    var found := w.db.sessions[sid];
    var why := if reason == "" then "disconnect" else reason;
    if found.status == Ended && !force && !found.pending {
      s := found;
      assert w.db.sessions[sid := found] == w.db.sessions;
    } else {
      s := if found.status == Ended then found.(pending := true) else found.Close(env.now, why, true);
      s := if sid in env.failing then s else s.(pending := false);
    }
  }

  lemma DisconnectKeepsValid(w: World, env: Env, sid: string, reason: string, force: bool)
    requires Valid(w.db)
    ensures var w' := DisconnectSession(w, env, sid, reason, force).world; Valid(w'.db) && Evolves(w.db, w'.db)
  {
    if sid in w.db.sessions {
      assert SessionOk(w.db, w.db.sessions[sid]);
      var s := DisconnectEffect(w, env, sid, reason, force);
      TamerKeepsValid(w.db, s);
    }
  }

  lemma DisconnectKeepsKeyed(w: World, env: Env, sid: string, reason: string, force: bool)
    requires Keyed(w.db)
    ensures Keyed(DisconnectSession(w, env, sid, reason, force).world.db)
  {
    var after := DisconnectSession(w, env, sid, reason, force).world.db;
    assert after.plans == w.db.plans && after.tokens == w.db.tokens;
    assert forall k | k in after.sessions :: after.sessions[k].id == k;
  }

  lemma SaveTwice(db: Db, a: Session, b: Session)
    requires a.id == b.id
    ensures PutSession(PutSession(db, a), b) == PutSession(db, b)
  {
    assert db.sessions[a.id := a][b.id := b] == db.sessions[b.id := b];
  }

  // ---- The services ----

  class GatewayIntegrationService {
    const store: MemoryStore
    const outside: Outside

    constructor (store: MemoryStore, outside: Outside)
      ensures this.store == store && this.outside == outside
    {
      this.store := store;
      this.outside := outside;
    }

    /** The controller's answer is decided by the surroundings. */
    method CallController(session: Session, env: Env) returns (ok: bool)
      modifies outside`acked
      ensures ok <==> session.id !in env.failing
      ensures outside.acked == if ok then old(outside.acked) + {session.id} else old(outside.acked)
    {
      ok := session.id !in env.failing;
      if ok {
        outside.acked := outside.acked + {session.id};
      }
    }

    method EnqueueDisconnect(sid: string, reason: string, env: Env)
      modifies outside`tasks
      ensures outside.tasks
           == if sid in env.unqueued then old(outside.tasks) else old(outside.tasks) + [Task(sid, reason)]
    {
      if sid !in env.unqueued {
        outside.tasks := outside.tasks + [Task(sid, reason)];
      }
    }

    /** A session that was just read can be written back, so the store's answers are not looked at. */
    method Disconnect(sid: string, reasonGiven: string, force: bool, env: Env) returns (r: Result<Session>)
      requires Keyed(store.Contents())
      modifies store, outside
      ensures DisconnectSession(old(Snapshot(store, outside)), env, sid, reasonGiven, force)
              == Reply(Snapshot(store, outside), r)
    {
      ghost var w := Snapshot(store, outside);
      var found := store.GetSessionByID(sid);
      if found.None? {
        return Err(SessionNotFound);
      }
      var session := found.value;
      var reason := if reasonGiven == "" then "disconnect" else reasonGiven;
      var needsControllerCall := force || session.pending || session.status != Ended;
      if session.status == Ended && !needsControllerCall {
        return Ok(session);
      }
      if session.status != Ended {
        session := session.(status := Ended, endedAt := Some(env.now), endReason := reason);
      }
      session := session.(pending := true);
      var _ := store.UpdateSession(session);
      assert Snapshot(store, outside) == SaveSession(w, session);
      if needsControllerCall {
        var ok := CallController(session, env);
        if !ok {
          EnqueueDisconnect(session.id, reason, env);
          assert Snapshot(store, outside) == Enqueue(SaveSession(w, session), env, sid, reason);
          return Err(GatewayFailed);
        }
      }
      assert Snapshot(store, outside) == SaveSession(w, session).(acked := w.acked + {sid});
      SaveTwice(w.db, session, session.(pending := false));
      session := session.(pending := false);
      var _ := store.UpdateSession(session);
      assert Snapshot(store, outside) == SaveSession(w, session).(acked := w.acked + {sid});
      r := Ok(session);
    }

    /** One delivery of a queued disconnect task. */
    method HandleTask(index: nat, again: bool, env: Env) returns (ok: bool)
      requires Keyed(store.Contents()) && index < |outside.tasks|
      modifies store, outside
      ensures Snapshot(store, outside) == RetryTask(old(Snapshot(store, outside)), env, index, again)
      ensures Keyed(store.Contents())
    {
      var task := outside.tasks[index];
      outside.tasks := outside.tasks[..index] + outside.tasks[index + 1..];
      DisconnectKeepsKeyed(Snapshot(store, outside), env, task.sessionId, task.reason, true);
      var r := Disconnect(task.sessionId, task.reason, true, env);
      ok := r.Ok?;
      if !ok && again {
        outside.tasks := outside.tasks + [task];
      }
    }
  }
}
