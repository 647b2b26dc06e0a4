/** What recovery after a restart leaves: exactly the stale sessions closed, in whatever order they were listed. */
module Recovery {
  import opened Domain
  import opened Store
  import opened Gateway
  import opened Tokens
  import opened Sweeping

  const REASON := "recovered_closed"

  ghost function SessionIds(list: seq<Session>): set<string> {
    set i | 0 <= i < |list| :: list[i].id
  }

  ghost function StaleAmong(db: Db, now: Time, ids: set<string>): set<string> {
    set k | k in ids && k in db.sessions && db.sessions[k].status == Live && Stale(db, db.sessions[k], now)
  }

  ghost function StaleSessions(db: Db, now: Time): set<string> {
    set k | k in db.sessions && db.sessions[k].status == Live && Stale(db, db.sessions[k], now)
  }

  ghost function ClosedSessions(db: Db, env: Env, ids: set<string>): map<string, Session> {
    map k | k in db.sessions ::
      if k in ids then db.sessions[k].Close(env.now, REASON, k in env.failing) else db.sessions[k]
  }

  /** Nothing but these sessions is rewritten; each owes a disconnect exactly when the gateway refused it. */
  ghost function Recovered(w: World, env: Env, ids: set<string>): World {
    w.(db := w.db.(sessions := ClosedSessions(w.db, env, ids)), acked := w.acked + (ids - env.failing))
  }

  /** The retries handed to the queue: one for each refused session, unless the queue refuses it too. */
  ghost function Retries(env: Env, ids: set<string>): set<Task> {
    set k | k in ids && k in env.failing && k !in env.unqueued :: Task(k, REASON)
  }

  ghost predicate RecoveredPart(w: World, env: Env, closed: set<string>, r: Tally) {
    && r == Tally(Recovered(w, env, closed).(queue := r.world.queue), |closed|, true)
    && Queued(w, r.world, Retries(env, closed))
  }

  /** The queue has grown at its end by these requests, once each. */
  ghost predicate Queued(a: World, b: World, added: set<Task>) {
    a.queue <= b.queue && multiset(b.queue[|a.queue|..]) == multiset(added)
  }

  lemma QueuedTwice(a: World, b: World, c: World, first: set<Task>, others: set<Task>)
    requires Queued(a, b, first) && Queued(b, c, others) && first !! others
    ensures Queued(a, c, first + others)
  {
    assert c.queue[|a.queue|..] == b.queue[|a.queue|..] + c.queue[|b.queue|..];
  }

  lemma RecoveredCompose(w: World, env: Env, id: string, rest: set<string>)
    requires id !in rest
    ensures Recovered(Recovered(w, env, {id}), env, rest) == Recovered(w, env, {id} + rest)
  {
    var w1 := Recovered(w, env, {id});
    assert ClosedSessions(w1.db, env, rest) == ClosedSessions(w.db, env, {id} + rest);
    assert w.acked + ({id} - env.failing) + (rest - env.failing) == w.acked + ({id} + rest - env.failing);
  }

  lemma RecoveredOne(w: World, env: Env, s: Session)
    requires s.id in w.db.sessions && w.db.sessions[s.id] == s
    ensures var w1 := EndSession(w, env, s, REASON).world;
            && w1 == Recovered(w, env, {s.id}).(queue := w1.queue)
            && Queued(w, w1, Retries(env, {s.id}))
  {
    EndSessionEffect(w, env, s, REASON);
    assert ClosedSessions(w.db, env, {s.id}) == w.db.sessions[s.id := s.Close(env.now, REASON, s.id in env.failing)];
    if s.id in env.failing {
      assert {s.id} - env.failing == {} && w.acked + {} == w.acked;
    } else {
      assert {s.id} - env.failing == {s.id};
    }
    if s.id in env.failing && s.id !in env.unqueued {
      assert Retries(env, {s.id}) == {Task(s.id, REASON)};
    } else {
      assert Retries(env, {s.id}) == {};
    }
  }

  lemma RetriesSplit(env: Env, id: string, rest: set<string>)
    requires id !in rest
    ensures Retries(env, {id} + rest) == Retries(env, {id}) + Retries(env, rest)
    ensures Retries(env, {id}) !! Retries(env, rest)
  {
  }

  lemma RecoveredCons(w: World, env: Env, s: Session, rest: set<string>, r: Tally)
    requires s.id in w.db.sessions && w.db.sessions[s.id] == s && s.id !in rest
    requires RecoveredPart(EndSession(w, env, s, REASON).world, env, rest, r)
    ensures RecoveredPart(w, env, {s.id} + rest, r.(changed := r.changed + 1))
  {
    var w1 := EndSession(w, env, s, REASON).world;
    RecoveredOne(w, env, s);
    RecoveredCompose(w, env, s.id, rest);
    RetriesSplit(env, s.id, rest);
    QueuedTwice(w, w1, r.world, Retries(env, {s.id}), Retries(env, rest));
    assert |{s.id} + rest| == 1 + |rest|;
  }

  lemma StaleNot(db: Db, now: Time, list: seq<Session>)
    requires list != [] && list[0].id in db.sessions && db.sessions[list[0].id] == list[0] && !Stale(db, list[0], now)
    ensures StaleAmong(db, now, SessionIds(list)) == StaleAmong(db, now, SessionIds(list[1..]))
  {
    SessionIdsSplit(list);
  }

  lemma StaleSplit(w: World, env: Env, list: seq<Session>)
    requires list != [] && CurrentSessions(list, w.db) && Stale(w.db, list[0], env.now)
    ensures var later := StaleAmong(EndSession(w, env, list[0], REASON).world.db, env.now, SessionIds(list[1..]));
            StaleAmong(w.db, env.now, SessionIds(list)) == {list[0].id} + later && list[0].id !in later
  {
    SessionIdsSplit(list);
    EndSessionEffect(w, env, list[0], REASON);
    assert list[0].id !in SessionIds(list[1..]) by {
      assert forall i | 0 <= i < |list| - 1 :: list[1..][i] == list[i + 1];
    }
  }

  lemma SessionIdsSplit(list: seq<Session>)
    requires list != []
    ensures SessionIds(list) == {list[0].id} + SessionIds(list[1..])
  {
    forall k
      ensures k in SessionIds(list) <==> k in {list[0].id} + SessionIds(list[1..])
    {
      if k in SessionIds(list) {
        var i :| 0 <= i < |list| && list[i].id == k;
        if i > 0 {
          assert list[1..][i - 1].id == k;
        }
      }
      if k in SessionIds(list[1..]) {
        var i :| 0 <= i < |list[1..]| && list[1..][i].id == k;
        assert list[i + 1].id == k;
      }
    }
  }

  lemma {:induction false} RecoverIsRecovered(w: World, env: Env, list: seq<Session>)
    requires CurrentSessions(list, w.db)
    ensures RecoveredPart(w, env, StaleAmong(w.db, env.now, SessionIds(list)), Recover(w, env, list))
    decreases |list|
  {
    if list == [] {
      assert SessionIds(list) == {} == StaleAmong(w.db, env.now, {}) == {} - env.failing;
      assert ClosedSessions(w.db, env, {}) == w.db.sessions && Retries(env, {}) == {} && w.acked + {} == w.acked;
    } else {
      var w1 := EndSession(w, env, list[0], REASON).world;
      RecoverRest(w, env, list);
      if Stale(w.db, list[0], env.now) {
        StaleSplit(w, env, list);
        RecoverIsRecovered(w1, env, list[1..]);
        RecoveredCons(w, env, list[0], StaleAmong(w1.db, env.now, SessionIds(list[1..])), Recover(w1, env, list[1..]));
      } else {
        StaleNot(w.db, env.now, list);
        RecoverIsRecovered(w, env, list[1..]);
      }
    }
  }

  /**
   Whatever the order of the list and whatever the gateway refuses, recovery runs to its end, closes exactly
   the stale active sessions and counts them; those refused still owe their disconnect, and the queue has
   grown by one retry for each of them that it accepts.
   */
  lemma RecoverExact(w: World, env: Env, list: seq<Session>)
    requires ListsActive(list, w.db.sessions)
    ensures var r := Recover(w, env, list); var stale := StaleSessions(w.db, env.now);
            && r == Tally(Recovered(w, env, stale).(queue := r.world.queue), |stale|, true)
            && Queued(w, r.world, Retries(env, stale))
  {
    RecoverIsRecovered(w, env, list);
    var stale := StaleSessions(w.db, env.now);
    assert StaleAmong(w.db, env.now, SessionIds(list)) == stale by {
      forall k | k in stale
        ensures k in SessionIds(list)
      {
        var i :| 0 <= i < |list| && list[i].id == k;
      }
    }
  }

  /** In a valid store an active session is stale exactly when the expiry instant of its token has passed. */
  lemma StaleMeansPast(db: Db, now: Time, sid: string)
    requires Valid(db) && sid in db.sessions && db.sessions[sid].status == Live
    ensures var t := db.sessions[sid].tokenId;
            && t in db.tokens && db.tokens[t].expiresAt.Some?
            && (sid in StaleSessions(db, now) <==> db.tokens[t].expiresAt.value < now)
  {
    assert SessionOk(db, db.sessions[sid]) && TokenOk(db, db.tokens[db.sessions[sid].tokenId]);
  }
}
