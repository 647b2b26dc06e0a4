/** The in-memory store (repository/memory.go): its contents as a value, and the object that holds them. */
module Store {
  import opened Domain

  datatype Db = Db(
    plans: map<string, Plan>,
    tokens: map<string, Token>,
    byHash: map<string, string>,       // code hash to token identifier
    sessions: map<string, Session>,
    usage: seq<UsageRecord>)

  /**
   The store together with what lies outside it: the retry queue, the sessions whose disconnect
   the controller has confirmed, and the sessions that ended because the access point said so.
   */
  datatype World = World(db: Db, queue: seq<Task>, acked: set<string>, stopped: set<string>)

  function PutToken(db: Db, t: Token): Db {
    db.(tokens := db.tokens[t.id := t], byHash := db.byHash[t.codeHash := t.id])
  }

  function PutSession(db: Db, s: Session): Db {
    db.(sessions := db.sessions[s.id := s])
  }

  function SaveSession(w: World, s: Session): World {
    w.(db := PutSession(w.db, s))
  }

  function SaveToken(w: World, t: Token): World {
    w.(db := PutToken(w.db, t))
  }

  ghost predicate IsActiveIn(sessions: map<string, Session>, sid: string, tid: string) {
    sid in sessions && sessions[sid].tokenId == tid && sessions[sid].status == Live
  }

  ghost predicate IsActiveOf(db: Db, sid: string, tid: string) {
    IsActiveIn(db.sessions, sid, tid)
  }

  ghost function ActiveIn(sessions: map<string, Session>, tid: string): (r: Option<Session>)
    ensures r.Some? ==> exists sid :: IsActiveIn(sessions, sid, tid) && sessions[sid] == r.value
    ensures r.None? ==> forall sid :: !IsActiveIn(sessions, sid, tid)
  {
    if exists sid :: IsActiveIn(sessions, sid, tid) then
      var sid :| IsActiveIn(sessions, sid, tid);
      Some(sessions[sid])
    else
      None
  }

  /** The active session of a token; unique in every valid store. */
  ghost function ActiveOf(db: Db, tid: string): (r: Option<Session>)
    ensures r.Some? ==> exists sid :: IsActiveOf(db, sid, tid) && db.sessions[sid] == r.value
    ensures r.None? ==> forall sid :: !IsActiveOf(db, sid, tid)
  {
    var r := ActiveIn(db.sessions, tid);
    assert r.Some? ==> exists sid :: IsActiveOf(db, sid, tid) && db.sessions[sid] == r.value by {
      if r.Some? {
        var sid :| IsActiveIn(db.sessions, sid, tid) && db.sessions[sid] == r.value;
        assert IsActiveOf(db, sid, tid);
      }
    }
    r
  }

  lemma ActiveOfUnique(db: Db, sid: string, tid: string)
    requires SingleActive(db) && IsActiveOf(db, sid, tid)
    ensures ActiveOf(db, tid) == Some(db.sessions[sid])
  {
  }

  // ---- What a valid store satisfies ----

  ghost predicate Keyed(db: Db) {
    && (forall k | k in db.plans :: db.plans[k].id == k && db.plans[k].durationMinutes > 0)
    && (forall k | k in db.tokens :: db.tokens[k].id == k)
    && (forall k | k in db.sessions :: db.sessions[k].id == k)
  }

  /** The hash index is exactly the inverse of token identifier to code hash. */
  ghost predicate Indexed(db: Db) {
    && (forall h | h in db.byHash :: db.byHash[h] in db.tokens && db.tokens[db.byHash[h]].codeHash == h)
    && (forall t | t in db.tokens :: db.tokens[t].codeHash in db.byHash && db.byHash[db.tokens[t].codeHash] == t)
  }

  /** Device, activation and expiry are set together, and expiry is activation plus the plan's duration. */
  ghost predicate Activated(t: Token, plan: Plan) {
    && (t.usedBy.Some? <==> t.activatedAt.Some?)
    && (t.usedBy.Some? <==> t.expiresAt.Some?)
    && (t.status.Rank() == 0 ==> t.usedBy.None?)
    && (t.status == Active ==> t.usedBy.Some?)
    && (t.expiresAt.Some? ==> t.expiresAt.value == t.activatedAt.value + plan.Lifetime())
  }

  ghost predicate TokenOk(db: Db, t: Token) {
    t.planId in db.plans && Activated(t, db.plans[t.planId])
  }

  ghost predicate TokensOk(db: Db) {
    forall k | k in db.tokens :: TokenOk(db, db.tokens[k])
  }

  ghost predicate WithinQuota(s: Session, plan: Plan) {
    plan.LimitBytes() > 0 ==> s.bytesUp + s.bytesDown < plan.LimitBytes()
  }

  ghost predicate SessionOk(db: Db, s: Session) {
    && s.tokenId in db.tokens
    && (s.status == Live <==> s.endedAt.None?)
    && (s.status == Live ==>
          var t := db.tokens[s.tokenId];
          t.status == Active && t.planId in db.plans && WithinQuota(s, db.plans[t.planId]))
  }

  ghost predicate SessionsOk(db: Db) {
    forall k | k in db.sessions :: SessionOk(db, db.sessions[k])
  }

  ghost predicate SingleActive(db: Db) {
    forall tid, a, b | IsActiveOf(db, a, tid) && IsActiveOf(db, b, tid) :: a == b
  }

  datatype Traffic = Traffic(up: int, down: int)
  {
    function Plus(that: Traffic): Traffic { Traffic(up + that.up, down + that.down) }
  }

  function Carried(r: UsageRecord): Traffic { Traffic(r.bytesUp, r.bytesDown) }

  /** The sum of one session's usage records. */
  function SessionTraffic(usage: seq<UsageRecord>, sid: string): Traffic {
    if usage == [] then Traffic(0, 0)
    else
      var r := usage[|usage| - 1];
      var before := SessionTraffic(usage[..|usage| - 1], sid);
      if r.sessionId == sid then before.Plus(Carried(r)) else before
  }

  ghost predicate RecordOk(db: Db, r: UsageRecord) {
    r.sessionId in db.sessions && r.tokenId == db.sessions[r.sessionId].tokenId
  }

  /** Every usage record names a stored session and its token; the records of a session add up to its counters. */
  ghost predicate Metered(db: Db) {
    && (forall i | 0 <= i < |db.usage| :: RecordOk(db, db.usage[i]))
    && (forall sid | sid in db.sessions ::
          SessionTraffic(db.usage, sid) == Traffic(db.sessions[sid].bytesUp, db.sessions[sid].bytesDown))
  }

  ghost predicate Valid(db: Db) {
    && Keyed(db)
    && Indexed(db)
    && TokensOk(db)
    && SessionsOk(db)
    && SingleActive(db)
    && Metered(db)
  }

  // ---- What may change from one valid store to a later one ----

  ghost predicate TokenEvolves(a: Token, b: Token) {
    && a.id == b.id && a.planId == b.planId && a.codeHash == b.codeHash
    && a.createdAt == b.createdAt && a.notes == b.notes
    && a.status.Rank() <= b.status.Rank()
    && (a.usedBy.Some? ==> a.usedBy == b.usedBy && a.activatedAt == b.activatedAt && a.expiresAt == b.expiresAt)
  }

  ghost predicate SessionEvolves(a: Session, b: Session) {
    && a.id == b.id && a.tokenId == b.tokenId && a.startedAt == b.startedAt
    && (a.status == Ended ==>
          && b.status == Ended && a.endedAt == b.endedAt && a.endReason == b.endReason
          && a.bytesUp == b.bytesUp && a.bytesDown == b.bytesDown)
  }

  ghost predicate TokensEvolve(a: Db, b: Db) {
    forall k | k in a.tokens :: k in b.tokens && TokenEvolves(a.tokens[k], b.tokens[k])
  }

  ghost predicate SessionsEvolve(a: Db, b: Db) {
    forall k | k in a.sessions :: k in b.sessions && SessionEvolves(a.sessions[k], b.sessions[k])
  }

  ghost predicate IndexEvolves(a: Db, b: Db) {
    forall h | h in a.byHash :: h in b.byHash && b.byHash[h] == a.byHash[h]
  }

  ghost predicate Evolves(a: Db, b: Db) {
    && a.plans == b.plans
    && TokensEvolve(a, b)
    && SessionsEvolve(a, b)
    && IndexEvolves(a, b)
    && a.usage <= b.usage
  }

  lemma EvolvesTransitive(a: Db, b: Db, c: Db)
    requires Evolves(a, b) && Evolves(b, c)
    ensures Evolves(a, c)
  {
  }

  // ---- The object ----

  ghost predicate ListsTokens(list: seq<Token>, tokens: map<string, Token>) {
    && (forall i | 0 <= i < |list| :: list[i].id in tokens && tokens[list[i].id] == list[i])
    && (forall i, j | 0 <= i < j < |list| :: list[i].id != list[j].id)
    && (forall k | k in tokens :: exists i :: 0 <= i < |list| && list[i].id == k)
  }

  ghost predicate ListsActive(list: seq<Session>, sessions: map<string, Session>) {
    && (forall i | 0 <= i < |list| ::
          list[i].id in sessions && sessions[list[i].id] == list[i] && list[i].status == Live)
    && (forall i, j | 0 <= i < j < |list| :: list[i].id != list[j].id)
    && (forall k | k in sessions && sessions[k].status == Live :: exists i :: 0 <= i < |list| && list[i].id == k)
  }

  ghost predicate MatchesRadius(s: Session, radiusSessionId: string, nasIp: string) {
    s.radiusSessionId == radiusSessionId && s.nasIp == nasIp
  }

  class MemoryStore {
    var plans: map<string, Plan>
    var tokens: map<string, Token>
    var tokenByHash: map<string, string>
    var sessions: map<string, Session>
    var usage: seq<UsageRecord>

    ghost function Contents(): Db
      reads this
    {
      Db(plans, tokens, tokenByHash, sessions, usage)
    }

    constructor ()
      ensures Contents() == Db(map[], map[], map[], map[], [])
    {
      plans, tokens, tokenByHash, sessions, usage := map[], map[], map[], map[], [];
    }

    method GetPlan(id: string) returns (r: Option<Plan>)
      ensures r == if id in plans then Some(plans[id]) else None
    {
      r := if id in plans then Some(plans[id]) else None;
    }

    method CreateToken(token: Token) returns (ok: bool)
      modifies this
      ensures ok <==> token.id !in old(tokens) && token.codeHash !in old(tokenByHash)
      ensures Contents() == if ok then PutToken(old(Contents()), token) else old(Contents())
    {
      if token.id in tokens {
        return false;
      }
      if token.codeHash in tokenByHash {
        return false;
      }
      tokens := tokens[token.id := token];
      tokenByHash := tokenByHash[token.codeHash := token.id];
      ok := true;
    }

    method GetTokenByID(id: string) returns (r: Option<Token>)
      ensures r == if id in tokens then Some(tokens[id]) else None
    {
      r := if id in tokens then Some(tokens[id]) else None;
    }

    method GetTokenByCodeHash(codeHash: string) returns (r: Option<Token>)
      ensures r == if codeHash in tokenByHash && tokenByHash[codeHash] in tokens
                   then Some(tokens[tokenByHash[codeHash]]) else None
      ensures Indexed(Contents()) ==>
                match r
                case Some(t) => t.codeHash == codeHash && exists k :: k in tokens && tokens[k] == t
                case None => forall k | k in tokens :: tokens[k].codeHash != codeHash
    {
      if codeHash !in tokenByHash {
        return None;
      }
      r := GetTokenByID(tokenByHash[codeHash]);
    }

    method UpdateToken(token: Token) returns (ok: bool)
      modifies this
      ensures ok <==> token.id in old(tokens)
      ensures Contents() == if ok then PutToken(old(Contents()), token) else old(Contents())
    {
      if token.id !in tokens {
        return false;
      }
      tokens := tokens[token.id := token];
      tokenByHash := tokenByHash[token.codeHash := token.id];
      ok := true;
    }

    /** The tokens in the arbitrary order in which the map yields them. */
    method ListTokens() returns (list: seq<Token>)
      requires forall k | k in tokens :: tokens[k].id == k
      ensures ListsTokens(list, tokens)
    {
      list := [];
      var rest := tokens.Keys;
      while rest != {}
        invariant rest <= tokens.Keys
        invariant forall i | 0 <= i < |list| ::
            list[i].id in tokens && list[i].id !in rest && tokens[list[i].id] == list[i]
        invariant forall i, j | 0 <= i < j < |list| :: list[i].id != list[j].id
        invariant forall k | k in tokens && k !in rest :: exists i :: 0 <= i < |list| && list[i].id == k
      {
        var k :| k in rest;
        ghost var before := list;
        list := list + [tokens[k]];
        rest := rest - {k};
        assert list[|before|].id == k;
        assert forall i | 0 <= i < |before| :: list[i] == before[i];
      }
    }

    method CreateSession(session: Session) returns (ok: bool)
      modifies this
      ensures ok <==> session.id !in old(sessions)
      ensures Contents() == if ok then PutSession(old(Contents()), session) else old(Contents())
    {
      if session.id in sessions {
        return false;
      }
      sessions := sessions[session.id := session];
      ok := true;
    }

    method GetSessionByID(id: string) returns (r: Option<Session>)
      ensures r == if id in sessions then Some(sessions[id]) else None
    {
      r := if id in sessions then Some(sessions[id]) else None;
    }

    /** Some session with the given accounting identifier and access point, if there is one. */
    method GetSessionByRadius(radiusSessionId: string, nasIp: string) returns (r: Option<Session>)
      ensures r.Some? ==> MatchesRadius(r.value, radiusSessionId, nasIp)
      ensures r.Some? ==> r.value.radiusSessionId == radiusSessionId && r.value.nasIp == nasIp
      ensures r.Some? ==> exists k :: k in sessions && sessions[k] == r.value
      ensures r.None? ==> forall k | k in sessions :: !MatchesRadius(sessions[k], radiusSessionId, nasIp)
      ensures r.None? ==> forall k | k in sessions ::
                            sessions[k].radiusSessionId != radiusSessionId || sessions[k].nasIp != nasIp
    {
      var rest := sessions.Keys;
      while rest != {}
        invariant rest <= sessions.Keys
        invariant forall k | k in sessions && k !in rest :: !MatchesRadius(sessions[k], radiusSessionId, nasIp)
      {
        var k :| k in rest;
        var s := sessions[k];
        if s.radiusSessionId == radiusSessionId && s.nasIp == nasIp {
          return Some(s);
        }
        rest := rest - {k};
      }
      r := None;
    }

    /** The search visits the map in any order; uniqueness is what makes its answer definite. */
    method GetActiveSessionByToken(tokenId: string) returns (r: Option<Session>)
      ensures r.Some? ==> exists k :: IsActiveOf(Contents(), k, tokenId) && sessions[k] == r.value
      ensures r.None? <==> forall k :: !IsActiveOf(Contents(), k, tokenId)
      ensures SingleActive(Contents()) ==> r == ActiveOf(Contents(), tokenId)
    {
      var rest := sessions.Keys;
      while rest != {}
        invariant rest <= sessions.Keys
        invariant forall k | k in sessions && k !in rest :: !IsActiveOf(Contents(), k, tokenId)
      {
        var k :| k in rest;
        var s := sessions[k];
        if s.tokenId == tokenId && s.status == Live {
          assert IsActiveOf(Contents(), k, tokenId);
          if SingleActive(Contents()) {
            ActiveOfUnique(Contents(), k, tokenId);
          }
          return Some(s);
        }
        rest := rest - {k};
      }
      r := None;
    }

    method UpdateSession(session: Session) returns (ok: bool)
      modifies this
      ensures ok <==> session.id in old(sessions)
      ensures Contents() == if ok then PutSession(old(Contents()), session) else old(Contents())
    {
      if session.id !in sessions {
        return false;
      }
      sessions := sessions[session.id := session];
      ok := true;
    }

    method ListActiveSessions() returns (list: seq<Session>)
      requires forall k | k in sessions :: sessions[k].id == k
      ensures ListsActive(list, sessions)
    {
      list := [];
      var rest := sessions.Keys;
      while rest != {}
        invariant rest <= sessions.Keys
        invariant forall i | 0 <= i < |list| ::
            list[i].id in sessions && list[i].id !in rest && sessions[list[i].id] == list[i] && list[i].status == Live
        invariant forall i, j | 0 <= i < j < |list| :: list[i].id != list[j].id
        invariant forall k | k in sessions && k !in rest && sessions[k].status == Live ::
            exists i :: 0 <= i < |list| && list[i].id == k
      {
        var k :| k in rest;
        ghost var before := list;
        if sessions[k].status == Live {
          list := list + [sessions[k]];
          assert list[|before|].id == k;
        }
        rest := rest - {k};
        assert forall i | 0 <= i < |before| :: list[i] == before[i];
      }
    }

    method CreateUsageRecord(record: UsageRecord)
      modifies this
      ensures Contents() == old(Contents()).(usage := old(usage) + [record])
    {
      usage := usage + [record];
    }
  }

  /** The retry queue, and the history that the disconnect theorems speak of. */
  class Outside {
    var tasks: seq<Task>
    ghost var acked: set<string>
    ghost var stopped: set<string>

    constructor ()
      ensures tasks == [] && acked == {} && stopped == {}
    {
      tasks, acked, stopped := [], {}, {};
    }
  }

  ghost function Snapshot(store: MemoryStore, outside: Outside): World
    reads store, outside
  {
    World(store.Contents(), outside.tasks, outside.acked, outside.stopped)
  }
}
