/** Passes over many records: the expiry sweep, recovery after a restart, and voucher generation. */
module Sweeping {
  import opened Domain
  import opened Store
  import opened Gateway
  import opened Quota
  import opened Tokens

  // ---- The lists the passes run over ----

  /** Distinct tokens, each as it is stored. */
  ghost predicate CurrentTokens(list: seq<Token>, db: Db) {
    && (forall i | 0 <= i < |list| :: list[i].id in db.tokens && db.tokens[list[i].id] == list[i])
    && (forall i, j | 0 <= i < j < |list| :: list[i].id != list[j].id)
  }

  /** Distinct active sessions, each as it is stored. */
  ghost predicate CurrentSessions(list: seq<Session>, db: Db) {
    && (forall i | 0 <= i < |list| ::
          list[i].id in db.sessions && db.sessions[list[i].id] == list[i] && list[i].status == Live)
    && (forall i, j | 0 <= i < j < |list| :: list[i].id != list[j].id)
  }

  lemma CurrentTail(list: seq<Token>, db: Db, after: Db)
    requires list != [] && CurrentTokens(list, db)
    requires forall k | k in db.tokens && k != list[0].id :: k in after.tokens && after.tokens[k] == db.tokens[k]
    ensures CurrentTokens(list[1..], after)
  {
    assert forall i | 0 <= i < |list| - 1 :: list[1..][i] == list[i + 1] && list[0].id != list[i + 1].id;
  }

  // ---- Validity ----

  lemma SweepHeadRest(w: World, env: Env, list: seq<Token>)
    requires Keyed(w.db) && SingleActive(w.db) && list != [] && CurrentTokens(list, w.db)
    ensures var t := AsExpired(list[0], env.now); var after := RetireToken(w, env, t, "expired").world.db;
            after.tokens == w.db.tokens[t.id := t] && CurrentTokens(list[1..], after)
  {
    var t := AsExpired(list[0], env.now);
    RetireTokenEffect(w, env, t, "expired");
    var after := RetireToken(w, env, t, "expired").world.db;
    assert after.tokens == w.db.tokens[t.id := t];
    CurrentTail(list, w.db, after);
  }

  /** What the pass needs to know about expiring the first token of its list. */
  lemma SweepHead(w: World, env: Env, list: seq<Token>)
    requires Valid(w.db) && list != [] && CurrentTokens(list, w.db)
    ensures var t := AsExpired(list[0], env.now); var r := RetireToken(w, env, t, "expired");
            && Valid(r.world.db) && Evolves(w.db, r.world.db)
            && CurrentTokens(list[1..], r.world.db)
            && r.world.db.tokens == w.db.tokens[t.id := t]
  {
    SweepHeadRest(w, env, list);
    RetireTokenKeepsValid(w, env, AsExpired(list[0], env.now), "expired");
  }

  lemma {:induction false} SweepKeepsValid(w: World, env: Env, list: seq<Token>)
    requires Valid(w.db) && CurrentTokens(list, w.db)
    ensures var w' := Sweep(w, env, list).world; Valid(w'.db) && Evolves(w.db, w'.db)
    decreases |list|
  {
    if list == [] {
    } else if !list[0].Due(env.now) {
      CurrentTail(list, w.db, w.db);
      SweepKeepsValid(w, env, list[1..]);
    } else {
      SweepHead(w, env, list);
      var r := RetireToken(w, env, AsExpired(list[0], env.now), "expired");
      if r.result.Ok? {
        SweepKeepsValid(r.world, env, list[1..]);
        EvolvesTransitive(w.db, r.world.db, Sweep(r.world, env, list[1..]).world.db);
      }
    }
  }

  lemma EndSessionKeepsValid(w: World, env: Env, s: Session, reason: string)
    requires Valid(w.db) && s.id in w.db.sessions && w.db.sessions[s.id] == s && s.status == Live && reason != ""
    ensures var w' := EndSession(w, env, s, reason).world; Valid(w'.db) && Evolves(w.db, w'.db)
  {
    EndSessionEffect(w, env, s, reason);
    TamerKeepsValid(w.db, s.Close(env.now, reason, s.id in env.failing));
  }

  lemma RecoverHead(w: World, env: Env, list: seq<Session>)
    requires Valid(w.db) && list != [] && CurrentSessions(list, w.db)
    ensures CurrentSessions(list[1..], w.db)
    ensures var w' := EndSession(w, env, list[0], "recovered_closed").world;
            Valid(w'.db) && Evolves(w.db, w'.db) && CurrentSessions(list[1..], w'.db)
  {
    RecoverRest(w, env, list);
    EndSessionKeepsValid(w, env, list[0], "recovered_closed");
  }

  lemma RecoverRest(w: World, env: Env, list: seq<Session>)
    requires list != [] && CurrentSessions(list, w.db)
    ensures CurrentSessions(list[1..], w.db)
    ensures CurrentSessions(list[1..], EndSession(w, env, list[0], "recovered_closed").world.db)
  {
    assert forall i | 0 <= i < |list| - 1 :: list[1..][i] == list[i + 1] && list[0].id != list[i + 1].id;
    EndSessionEffect(w, env, list[0], "recovered_closed");
  }

  lemma {:induction false} RecoverKeepsValid(w: World, env: Env, list: seq<Session>)
    requires Valid(w.db) && CurrentSessions(list, w.db)
    ensures var w' := Recover(w, env, list).world; Valid(w'.db) && Evolves(w.db, w'.db)
    decreases |list|
  {
    if list == [] {
    } else {
      RecoverHead(w, env, list);
      if !Stale(w.db, list[0], env.now) {
        RecoverKeepsValid(w, env, list[1..]);
      } else {
        var w1 := EndSession(w, env, list[0], "recovered_closed").world;
        RecoverKeepsValid(w1, env, list[1..]);
        EvolvesTransitive(w.db, w1.db, Recover(w1, env, list[1..]).world.db);
      }
    }
  }

  lemma NewTokenIndexed(db: Db, t: Token)
    requires Indexed(db) && t.id !in db.tokens && t.codeHash !in db.byHash
    ensures Indexed(PutToken(db, t)) && IndexEvolves(db, PutToken(db, t))
  {
  }

  lemma NewTokenSessions(db: Db, t: Token)
    requires SessionsOk(db) && t.id !in db.tokens
    ensures SessionsOk(PutToken(db, t))
  {
    var after := PutToken(db, t);
    forall k | k in after.sessions
      ensures SessionOk(after, after.sessions[k])
    {
      assert SessionOk(db, db.sessions[k]);
    }
  }

  /** An unused token of a stored plan, with an identifier and a hash not stored yet. */
  ghost predicate Fresh(db: Db, t: Token) {
    && t.id !in db.tokens && t.codeHash !in db.byHash && t.planId in db.plans
    && t.status == Unused && t.usedBy.None? && t.activatedAt.None? && t.expiresAt.None?
  }

  lemma NewTokenKeepsValid(db: Db, t: Token)
    requires Valid(db) && Fresh(db, t)
    ensures Valid(PutToken(db, t)) && Evolves(db, PutToken(db, t))
  {
    var after := PutToken(db, t);
    NewTokenIndexed(db, t);
    NewTokenSessions(db, t);
    SameSessionsMetered(db, after);
    SameSessionsSingle(db, after);
    NewTokenTokens(db, t);
  }

  lemma NewTokenTokens(db: Db, t: Token)
    requires TokensOk(db) && t.id !in db.tokens && TokenOk(db, t)
    ensures TokensOk(PutToken(db, t)) && TokensEvolve(db, PutToken(db, t))
  {
    var after := PutToken(db, t);
    forall k | k in after.tokens
      ensures TokenOk(after, after.tokens[k])
    {
      if k != t.id {
        assert TokenOk(db, db.tokens[k]);
      }
    }
  }

  ghost function PutAll(db: Db, ts: seq<Token>): Db
    decreases |ts|
  {
    if ts == [] then db else PutAll(PutToken(db, ts[0]), ts[1..])
  }

  /** Each token is new where its turn comes. */
  ghost predicate AllFresh(db: Db, ts: seq<Token>)
    decreases |ts|
  {
    ts != [] ==> Fresh(db, ts[0]) && AllFresh(PutToken(db, ts[0]), ts[1..])
  }

  lemma {:induction false} PutAllKeepsValid(db: Db, ts: seq<Token>)
    requires Valid(db) && AllFresh(db, ts)
    ensures Valid(PutAll(db, ts)) && Evolves(db, PutAll(db, ts))
    decreases |ts|
  {
    if ts == [] {
    } else {
      NewTokenKeepsValid(db, ts[0]);
      PutAllKeepsValid(PutToken(db, ts[0]), ts[1..]);
      EvolvesTransitive(db, PutToken(db, ts[0]), PutAll(db, ts));
    }
  }

  /** Generation is nothing but storing fresh tokens, one after another. */
  lemma {:induction false} IssuePuts(hash: string -> string, w: World, now: Time, planId: string, notes: string,
                                     missing: nat, draws: seq<Draw>) returns (ts: seq<Token>)
    requires planId in w.db.plans
    ensures AllFresh(w.db, ts)
    ensures Issue(hash, w, now, planId, notes, missing, draws).world == w.(db := PutAll(w.db, ts))
    decreases |draws|
  {
    ts := [];
    if missing == 0 || draws == [] || draws[0].Failure? {
      return;
    }
    var t := NewToken(draws[0].id, planId, hash(draws[0].code), notes, now);
    if t.id in w.db.tokens || t.codeHash in w.db.byHash {
      ts := IssuePuts(hash, w, now, planId, notes, missing, draws[1..]);
    } else {
      var rest := IssuePuts(hash, SaveToken(w, t), now, planId, notes, missing - 1, draws[1..]);
      ts := [t] + rest;
      assert ts[1..] == rest;
    }
  }

  lemma IssueKeepsValid(hash: string -> string, w: World, now: Time, planId: string, notes: string, missing: nat,
                        draws: seq<Draw>)
    requires Valid(w.db) && planId in w.db.plans
    ensures var w' := Issue(hash, w, now, planId, notes, missing, draws).world; Valid(w'.db) && Evolves(w.db, w'.db)
  {
    var ts := IssuePuts(hash, w, now, planId, notes, missing, draws);
    PutAllKeepsValid(w.db, ts);
  }

  lemma GenerateKeepsValid(hash: string -> string, w: World, env: Env, planId: string, count: int, notes: string,
                           draws: seq<Draw>)
    requires Valid(w.db)
    ensures var w' := Generate(hash, w, env, planId, count, notes, draws).world; Valid(w'.db) && Evolves(w.db, w'.db)
  {
    if 0 < count <= 1000 && planId in w.db.plans {
      IssueKeepsValid(hash, w, env.now, planId, notes, count, draws);
    }
  }

  // ---- The sweep is exact and does not depend on the order of the list ----

  ghost predicate Lapses(db: Db, now: Time, ids: set<string>, s: Session) {
    s.status == Live && s.tokenId in ids && s.tokenId in db.tokens && db.tokens[s.tokenId].Due(now)
  }

  /** The active sessions of the due tokens among `ids`. */
  ghost function Lapsing(db: Db, now: Time, ids: set<string>): set<string> {
    set k | k in db.sessions && Lapses(db, now, ids, db.sessions[k])
  }

  ghost function SweptTokens(db: Db, now: Time, ids: set<string>): map<string, Token> {
    map k | k in db.tokens :: if k in ids && db.tokens[k].Due(now) then AsExpired(db.tokens[k], now) else db.tokens[k]
  }

  ghost function SweptSessions(db: Db, env: Env, ids: set<string>): map<string, Session> {
    map k | k in db.sessions ::
      if Lapses(db, env.now, ids, db.sessions[k]) then db.sessions[k].Close(env.now, "expired", k in env.failing)
      else db.sessions[k]
  }

  /**
   The world with the due ones among `ids` expired and their active sessions ended, which owe a disconnect
   exactly when the gateway refused it; nothing else is touched, and no order is involved.
   */
  ghost function Swept(w: World, env: Env, ids: set<string>): World {
    w.(db := w.db.(tokens := SweptTokens(w.db, env.now, ids), sessions := SweptSessions(w.db, env, ids)),
       acked := w.acked + (Lapsing(w.db, env.now, ids) - env.failing))
  }

  ghost function DueAmong(db: Db, now: Time, ids: set<string>): set<string> {
    set k | k in ids && k in db.tokens && db.tokens[k].Due(now)
  }

  ghost function DueTokens(db: Db, now: Time): set<string> {
    set k | k in db.tokens && db.tokens[k].Due(now)
  }

  ghost function Ids(list: seq<Token>): set<string> {
    set i | 0 <= i < |list| :: list[i].id
  }

  lemma SweptCompose(w: World, env: Env, a: set<string>, b: set<string>)
    ensures Swept(Swept(w, env, a), env, b) == Swept(w, env, a + b)
    ensures Lapsing(w.db, env.now, a + b) == Lapsing(w.db, env.now, a) + Lapsing(Swept(w, env, a).db, env.now, b)
  {
    var w1 := Swept(w, env, a);
    assert SweptTokens(w1.db, env.now, b) == SweptTokens(w.db, env.now, a + b);
    forall k | k in w.db.sessions
      ensures SweptSessions(w1.db, env, b)[k] == SweptSessions(w.db, env, a + b)[k]
      ensures k in Lapsing(w.db, env.now, a) || k in Lapsing(w1.db, env.now, b) <==> k in Lapsing(w.db, env.now, a + b)
    {
    }
    assert SweptSessions(w1.db, env, b) == SweptSessions(w.db, env, a + b);
    assert Lapsing(w.db, env.now, a) + Lapsing(w1.db, env.now, b) == Lapsing(w.db, env.now, a + b);
  }

  lemma SweptOneToken(db: Db, now: Time, t: Token)
    requires t.id in db.tokens && db.tokens[t.id] == t && t.Due(now)
    ensures SweptTokens(db, now, {t.id}) == db.tokens[t.id := AsExpired(t, now)]
  {
  }

  /** The active sessions that lapse with one due token: its active session, if any. */
  lemma SweptOneSession(db: Db, env: Env, t: Token)
    requires Keyed(db) && SingleActive(db) && t.id in db.tokens && db.tokens[t.id] == t && t.Due(env.now)
    ensures match ActiveOf(db, t.id)
            case None => SweptSessions(db, env, {t.id}) == db.sessions && Lapsing(db, env.now, {t.id}) == {}
            case Some(s) =>
              && SweptSessions(db, env, {t.id}) == db.sessions[s.id := s.Close(env.now, "expired", s.id in env.failing)]
              && Lapsing(db, env.now, {t.id}) == {s.id}
  {
    match ActiveOf(db, t.id)
    case None =>
      forall k | k in db.sessions
        ensures !Lapses(db, env.now, {t.id}, db.sessions[k])
      {
        assert !IsActiveOf(db, k, t.id);
      }
    case Some(s) =>
      var sid :| IsActiveOf(db, sid, t.id) && db.sessions[sid] == s;
      forall k | k in db.sessions
        ensures Lapses(db, env.now, {t.id}, db.sessions[k]) <==> k == s.id
      {
        if Lapses(db, env.now, {t.id}, db.sessions[k]) {
          assert IsActiveOf(db, k, t.id);
        }
      }
  }

  /** Expiring one due token, and what the gateway's refusal of its session adds to that. */
  lemma SweptOne(w: World, env: Env, t: Token)
    requires Keyed(w.db) && Indexed(w.db) && SingleActive(w.db)
    requires t.id in w.db.tokens && w.db.tokens[t.id] == t && t.Due(env.now)
    ensures var r := RetireToken(w, env, AsExpired(t, env.now), "expired"); var w1 := Swept(w, env, {t.id});
            match ActiveOf(w.db, t.id)
            case None => Lapsing(w.db, env.now, {t.id}) == {} && r == Reply(w1, Ok(()))
            case Some(s) =>
              && Lapsing(w.db, env.now, {t.id}) == {s.id}
              && r == if s.id in env.failing then Reply(Enqueue(w1, env, s.id, "expired"), Err(GatewayFailed))
                      else Reply(w1, Ok(()))
  {
    var used := AsExpired(t, env.now);
    RetireTokenEffect(w, env, used, "expired");
    RetireIndex(w.db, used);
    SweptOneToken(w.db, env.now, t);
    SweptOneSession(w.db, env, t);
    var o := ActiveOf(w.db, t.id);
    if o.Some? {
      EndSessionEffect(SaveToken(w, used), env, o.value, "expired");
      assert w.acked + ({o.value.id} - env.failing)
          == if o.value.id in env.failing then w.acked else w.acked + {o.value.id};
    } else {
      assert w.acked + ({} - env.failing) == w.acked;
    }
  }

  lemma SweptNothing(w: World, env: Env, ids: set<string>)
    requires DueAmong(w.db, env.now, ids) == {}
    ensures Swept(w, env, ids) == w && Lapsing(w.db, env.now, ids) == {}
  {
    assert forall k | k in ids && k in w.db.tokens :: k !in DueAmong(w.db, env.now, ids);
    assert SweptTokens(w.db, env.now, ids) == w.db.tokens;
    assert SweptSessions(w.db, env, ids) == w.db.sessions;
    assert Lapsing(w.db, env.now, ids) == {};
    assert w.acked + ({} - env.failing) == w.acked;
  }

  lemma IdsSplit(list: seq<Token>)
    requires list != []
    ensures Ids(list) == {list[0].id} + Ids(list[1..])
  {
    forall k
      ensures k in Ids(list) <==> k in {list[0].id} + Ids(list[1..])
    {
      if k in Ids(list) {
        var i :| 0 <= i < |list| && list[i].id == k;
        if i > 0 {
          assert list[1..][i - 1].id == k;
        }
      }
      if k in Ids(list[1..]) {
        var i :| 0 <= i < |list[1..]| && list[1..][i].id == k;
        assert list[i + 1].id == k;
      }
    }
  }

  /** Expiring the first token of the list leaves the others due that were. */
  lemma DueSplit(w: World, env: Env, list: seq<Token>)
    requires list != [] && CurrentTokens(list, w.db) && list[0].Due(env.now)
    ensures var id := list[0].id; var later := DueAmong(Swept(w, env, {id}).db, env.now, Ids(list[1..]));
            DueAmong(w.db, env.now, Ids(list)) == {id} + later && id !in later
  {
    IdsSplit(list);
    assert list[0].id !in Ids(list[1..]) by {
      assert forall i | 0 <= i < |list| - 1 :: list[1..][i] == list[i + 1];
    }
  }

  /**
   The outcome of a pass that expired the tokens `done`, all of them due. It went through exactly when the
   gateway refused none of their sessions, and then they are all the due ones; otherwise the one refused
   session belongs to the last of them, which is not counted, and its retry is with the queue.
   */
  ghost predicate SweptPart(w: World, env: Env, ids: set<string>, r: Tally, done: set<string>) {
    && done <= DueAmong(w.db, env.now, ids)
    && if r.finished then
         && done == DueAmong(w.db, env.now, ids) && Lapsing(w.db, env.now, done) !! env.failing
         && r == Tally(Swept(w, env, done), |done|, true)
       else
         exists sid :: Lapsing(w.db, env.now, done) * env.failing == {sid} && |done| > 0
                    && r == Tally(Enqueue(Swept(w, env, done), env, sid, "expired"), |done| - 1, false)
  }

  lemma SweptPartCons(w: World, env: Env, list: seq<Token>, r: Tally, rest: set<string>)
    requires list != [] && CurrentTokens(list, w.db) && list[0].Due(env.now)
    requires Lapsing(w.db, env.now, {list[0].id}) !! env.failing
    requires SweptPart(Swept(w, env, {list[0].id}), env, Ids(list[1..]), r, rest)
    ensures SweptPart(w, env, Ids(list), r.(changed := r.changed + 1), {list[0].id} + rest)
  {
    DueSplit(w, env, list);
    SweptCompose(w, env, {list[0].id}, rest);
    SweptPartJoin(w, env, Ids(list), list[0].id, Swept(w, env, {list[0].id}), Ids(list[1..]), r, rest);
  }

  lemma SweptPartJoin(w: World, env: Env, ids: set<string>, id: string, w1: World, ids1: set<string>, r: Tally,
                      rest: set<string>)
    requires SweptPart(w1, env, ids1, r, rest) && Lapsing(w.db, env.now, {id}) !! env.failing
    requires var later := DueAmong(w1.db, env.now, ids1);
             DueAmong(w.db, env.now, ids) == {id} + later && id !in later
    requires Swept(w1, env, rest) == Swept(w, env, {id} + rest)
    requires Lapsing(w.db, env.now, {id} + rest) == Lapsing(w.db, env.now, {id}) + Lapsing(w1.db, env.now, rest)
    ensures SweptPart(w, env, ids, r.(changed := r.changed + 1), {id} + rest)
  {
    var first, later := Lapsing(w.db, env.now, {id}), Lapsing(w1.db, env.now, rest);
    assert |{id} + rest| == 1 + |rest|;
    assert (first + later) * env.failing == later * env.failing;
  }

  /** Where the gateway refuses, the pass ends with the one token just expired. */
  lemma SweptPartLast(w: World, env: Env, list: seq<Token>, sid: string)
    requires list != [] && CurrentTokens(list, w.db) && list[0].Due(env.now)
    requires Lapsing(w.db, env.now, {list[0].id}) == {sid} && sid in env.failing
    ensures SweptPart(w, env, Ids(list), Tally(Enqueue(Swept(w, env, {list[0].id}), env, sid, "expired"), 0, false),
                      {list[0].id})
  {
    IdsSplit(list);
    var done := {list[0].id};
    assert |done| == 1;
    assert Lapsing(w.db, env.now, done) * env.failing == {sid};
  }

  lemma SweptPartSkip(w: World, env: Env, list: seq<Token>, r: Tally, done: set<string>)
    requires list != [] && CurrentTokens(list, w.db) && !list[0].Due(env.now)
    requires SweptPart(w, env, Ids(list[1..]), r, done)
    ensures SweptPart(w, env, Ids(list), r, done)
  {
    DueAmongTail(w.db, env.now, list);
  }

  /** The first step of a pass at a due token: it ends the pass at a refused session, or leads on to the rest. */
  lemma SweepDueHead(w: World, env: Env, list: seq<Token>) returns (refused: Option<string>)
    requires Keyed(w.db) && Indexed(w.db) && SingleActive(w.db)
    requires list != [] && CurrentTokens(list, w.db) && list[0].Due(env.now)
    ensures var w1 := Swept(w, env, {list[0].id}); var lapsing := Lapsing(w.db, env.now, {list[0].id});
            match refused
            case Some(sid) =>
              && lapsing == {sid} && sid in env.failing
              && Sweep(w, env, list) == Tally(Enqueue(w1, env, sid, "expired"), 0, false)
            case None =>
              && lapsing !! env.failing && RetireToken(w, env, AsExpired(list[0], env.now), "expired").world == w1
              && Sweep(w, env, list) == Sweep(w1, env, list[1..]).(changed := Sweep(w1, env, list[1..]).changed + 1)
  {
    SweptOne(w, env, list[0]);
    var o := ActiveOf(w.db, list[0].id);
    refused := if o.Some? && o.value.id in env.failing then Some(o.value.id) else None;
  }

  /** Every pass over distinct tokens, whatever the gateway refuses, is of that form. */
  lemma {:induction false} SweepIsSwept(w: World, env: Env, list: seq<Token>) returns (done: set<string>)
    requires Valid(w.db) && CurrentTokens(list, w.db)
    ensures SweptPart(w, env, Ids(list), Sweep(w, env, list), done)
    decreases |list|
  {
    done := {};
    if list == [] {
      SweptNothing(w, env, {});
      assert Ids(list) == {} == DueAmong(w.db, env.now, Ids(list));
    } else if !list[0].Due(env.now) {
      CurrentTail(list, w.db, w.db);
      done := SweepIsSwept(w, env, list[1..]);
      SweptPartSkip(w, env, list, Sweep(w, env, list[1..]), done);
    } else {
      var refused := SweepDueHead(w, env, list);
      match refused
      case Some(sid) =>
        done := {list[0].id};
        SweptPartLast(w, env, list, sid);
      case None =>
        var w1 := Swept(w, env, {list[0].id});
        assert Valid(w1.db) && CurrentTokens(list[1..], w1.db) by {
          SweepHead(w, env, list);
        }
        done := SweepIsSwept(w1, env, list[1..]);
        SweptPartCons(w, env, list, Sweep(w1, env, list[1..]), done);
        done := {list[0].id} + done;
    }
  }

  /**
   A sweep completes exactly when the gateway refuses no active session of a due token. It has then expired
   exactly the due tokens and ended their active sessions, counted them, and left none due, whatever the
   order of the list and whatever else the gateway would refuse.
   */
  lemma SweepExact(w: World, env: Env, list: seq<Token>)
    requires Valid(w.db) && ListsTokens(list, w.db.tokens)
    ensures var r := Sweep(w, env, list); var due := DueTokens(w.db, env.now);
            && (r.finished <==> Lapsing(w.db, env.now, due) !! env.failing)
            && (r.finished ==> r == Tally(Swept(w, env, due), |due|, true) && DueTokens(r.world.db, env.now) == {})
  {
    var done := SweepIsSwept(w, env, list);
    ListedIds(w.db, env.now, list);
    var r, due := Sweep(w, env, list), DueTokens(w.db, env.now);
    if r.finished {
      SweptLeavesNone(w, env);
    } else {
      assert Lapsing(w.db, env.now, done) <= Lapsing(w.db, env.now, due);
      var sid :| Lapsing(w.db, env.now, done) * env.failing == {sid};
      assert sid in Lapsing(w.db, env.now, done) * env.failing;
    }
  }

  /**
   A sweep cut short has expired some of the due tokens, one more than it counts, and ended their active
   sessions; just one of these was refused and its retry handed to the queue. Nothing else is rewritten.
   */
  lemma SweepCutShort(w: World, env: Env, list: seq<Token>) returns (done: set<string>, sid: string)
    requires Valid(w.db) && ListsTokens(list, w.db.tokens) && !Sweep(w, env, list).finished
    ensures done <= DueTokens(w.db, env.now) && |done| > 0
    ensures Lapsing(w.db, env.now, done) * env.failing == {sid}
    ensures Sweep(w, env, list) == Tally(Enqueue(Swept(w, env, done), env, sid, "expired"), |done| - 1, false)
  {
    done := SweepIsSwept(w, env, list);
    ListedIds(w.db, env.now, list);
    sid :| Lapsing(w.db, env.now, done) * env.failing == {sid} && |done| > 0
        && Sweep(w, env, list) == Tally(Enqueue(Swept(w, env, done), env, sid, "expired"), |done| - 1, false);
  }

  lemma ListedIds(db: Db, now: Time, list: seq<Token>)
    requires ListsTokens(list, db.tokens)
    ensures Ids(list) == db.tokens.Keys && DueAmong(db, now, Ids(list)) == DueTokens(db, now)
  {
  }

  lemma SweptLeavesNone(w: World, env: Env)
    ensures DueTokens(Swept(w, env, DueTokens(w.db, env.now)).db, env.now) == {}
  {
  }

  lemma DueShrinks(db: Db, after: Db, now: Time, t: Token)
    requires t.id in db.tokens && db.tokens[t.id] == t && t.Due(now)
    requires after.tokens == db.tokens[t.id := AsExpired(t, now)]
    ensures t.id in DueTokens(db, now) && DueTokens(after, now) == DueTokens(db, now) - {t.id}
  {
  }

  lemma DueAmongTail(db: Db, now: Time, list: seq<Token>)
    requires list != [] && list[0].id in db.tokens && db.tokens[list[0].id] == list[0] && !list[0].Due(now)
    ensures DueAmong(db, now, Ids(list)) == DueAmong(db, now, Ids(list[1..]))
  {
    IdsSplit(list);
  }

  /** Whatever the controller does, a pass only removes due tokens, and removes at least one if the list holds one. */
  lemma {:induction false} SweepProgress(w: World, env: Env, list: seq<Token>)
    requires Valid(w.db) && CurrentTokens(list, w.db)
    ensures var r := Sweep(w, env, list);
            && DueTokens(r.world.db, env.now) <= DueTokens(w.db, env.now)
            && (DueAmong(w.db, env.now, Ids(list)) != {} ==> DueTokens(r.world.db, env.now) < DueTokens(w.db, env.now))
            && (!r.finished ==> DueTokens(r.world.db, env.now) < DueTokens(w.db, env.now))
    decreases |list|
  {
    if list == [] {
      assert DueAmong(w.db, env.now, Ids(list)) == {};
    } else if !list[0].Due(env.now) {
      CurrentTail(list, w.db, w.db);
      DueAmongTail(w.db, env.now, list);
      SweepProgress(w, env, list[1..]);
    } else {
      var r := RetireToken(w, env, AsExpired(list[0], env.now), "expired");
      SweepHead(w, env, list);
      DueShrinks(w.db, r.world.db, env.now, list[0]);
      if r.result.Ok? {
        SweepProgress(r.world, env, list[1..]);
      }
    }
  }

  /** One call of the sweep: the order in which the store listed the tokens, and what the surroundings did. */
  datatype SweepCall = SweepCall(env: Env, list: seq<Token>)

  ghost predicate CallsFit(w: World, now: Time, calls: seq<SweepCall>)
    decreases |calls|
  {
    calls != [] ==>
      && calls[0].env.now == now
      && ListsTokens(calls[0].list, w.db.tokens)
      && CallsFit(Sweep(w, calls[0].env, calls[0].list).world, now, calls[1..])
  }

  ghost function SweepAll(w: World, calls: seq<SweepCall>): World
    decreases |calls|
  {
    if calls == [] then w else SweepAll(Sweep(w, calls[0].env, calls[0].list).world, calls[1..])
  }

  /** As many calls as there are due tokens clear them all, even if the gateway refuses every disconnect. */
  lemma {:induction false} SweepsReachFixedPoint(w: World, now: Time, calls: seq<SweepCall>)
    requires Valid(w.db) && CallsFit(w, now, calls)
    requires |calls| >= |DueTokens(w.db, now)|
    ensures DueTokens(SweepAll(w, calls).db, now) == {}
    decreases |calls|
  {
    if calls == [] {
    } else {
      var env, list := calls[0].env, calls[0].list;
      var w1 := Sweep(w, env, list).world;
      SweepKeepsValid(w, env, list);
      CallProgress(w, env, list);
      SweepsReachFixedPoint(w1, now, calls[1..]);
    }
  }

  lemma CallProgress(w: World, env: Env, list: seq<Token>)
    requires Valid(w.db) && ListsTokens(list, w.db.tokens)
    ensures var before, after := DueTokens(w.db, env.now), DueTokens(Sweep(w, env, list).world.db, env.now);
            |after| < |before| || |after| == |before| == 0
  {
    SweepProgress(w, env, list);
    ListedIds(w.db, env.now, list);
    Shrinks(DueTokens(Sweep(w, env, list).world.db, env.now), DueTokens(w.db, env.now));
  }

  lemma Shrinks(small: set<string>, large: set<string>)
    requires small <= large
    ensures small < large ==> |small| < |large|
    ensures |small| <= |large|
  {
    assert large == small + (large - small);
  }

  // ---- Generation ----

  ghost function IssuedIds(issued: seq<Issued>): set<string> {
    set i | 0 <= i < |issued| :: issued[i].tokenId
  }

  /** One unused token of the plan, findable by its code, and new compared with `before`. */
  ghost predicate IsNew(hash: string -> string, before: Db, after: Db, planId: string, v: Issued) {
    && v.tokenId !in before.tokens && hash(v.code) !in before.byHash
    && v.tokenId in after.tokens
    && after.tokens[v.tokenId].status == Unused && after.tokens[v.tokenId].planId == planId
    && Lookup(after, hash(v.code)) == Some(after.tokens[v.tokenId])
  }

  ghost predicate Distinct(hash: string -> string, issued: seq<Issued>) {
    forall i, j | 0 <= i < j < |issued| ::
      issued[i].tokenId != issued[j].tokenId && hash(issued[i].code) != hash(issued[j].code)
  }

  ghost predicate AllNew(hash: string -> string, before: Db, after: Db, planId: string, issued: seq<Issued>) {
    forall i | 0 <= i < |issued| :: IsNew(hash, before, after, planId, issued[i])
  }

  /** Nothing but the issued tokens is different. */
  ghost predicate Keeps(before: Db, after: Db, issued: seq<Issued>) {
    && after.plans == before.plans && after.sessions == before.sessions && after.usage == before.usage
    && (forall k | k in before.tokens :: k in after.tokens && after.tokens[k] == before.tokens[k])
    && after.tokens.Keys == before.tokens.Keys + IssuedIds(issued)
  }

  /** What a run of draws adds: the issued tokens, all new and distinct, and nothing else. */
  ghost predicate Adds(hash: string -> string, before: Db, after: Db, planId: string, issued: seq<Issued>) {
    Keeps(before, after, issued) && AllNew(hash, before, after, planId, issued) && Distinct(hash, issued)
  }

  lemma IssuedIdsCons(v: Issued, rest: seq<Issued>)
    ensures IssuedIds([v] + rest) == {v.tokenId} + IssuedIds(rest)
  {
    var all := [v] + rest;
    forall k
      ensures k in IssuedIds(all) <==> k in {v.tokenId} + IssuedIds(rest)
    {
      if k in IssuedIds(all) {
        var i :| 0 <= i < |all| && all[i].tokenId == k;
        if i > 0 {
          assert rest[i - 1].tokenId == k;
        }
      }
      if k in IssuedIds(rest) {
        var i :| 0 <= i < |rest| && rest[i].tokenId == k;
        assert all[i + 1].tokenId == k;
      }
      assert all[0].tokenId == v.tokenId;
    }
  }

  lemma AddsOne(hash: string -> string, before: Db, t: Token, code: string, after: Db, planId: string,
                rest: seq<Issued>, all: seq<Issued>)
    requires t.id !in before.tokens && t.codeHash !in before.byHash && t.codeHash == hash(code)
    requires t.status == Unused && t.planId == planId
    requires Adds(hash, PutToken(before, t), after, planId, rest)
    requires IndexEvolves(PutToken(before, t), after)
    requires all == [Issued(t.id, code)] + rest
    ensures Adds(hash, before, after, planId, all) && IndexEvolves(before, after)
  {
    IndexPast(before, t, after);
    KeepsOne(before, t, code, after, rest);
    OneIsNew(hash, before, t, code, after, planId, rest);
    RestAreNew(hash, before, t, after, planId, rest);
    AllNewCons(hash, before, after, planId, Issued(t.id, code), rest);
    DistinctCons(hash, Issued(t.id, code), rest);
  }

  lemma IndexPast(before: Db, t: Token, after: Db)
    requires t.codeHash !in before.byHash && IndexEvolves(PutToken(before, t), after)
    ensures IndexEvolves(before, after)
  {
    forall h | h in before.byHash
      ensures h in after.byHash && after.byHash[h] == before.byHash[h]
    {
      assert PutToken(before, t).byHash[h] == before.byHash[h];
    }
  }

  lemma KeepsOne(before: Db, t: Token, code: string, after: Db, rest: seq<Issued>)
    requires t.id !in before.tokens && Keeps(PutToken(before, t), after, rest)
    ensures Keeps(before, after, [Issued(t.id, code)] + rest)
  {
    var mid := PutToken(before, t);
    IssuedIdsCons(Issued(t.id, code), rest);
    assert mid.tokens.Keys == before.tokens.Keys + {t.id};
    forall k | k in before.tokens
      ensures k in after.tokens && after.tokens[k] == before.tokens[k]
    {
      assert k in mid.tokens && mid.tokens[k] == before.tokens[k];
    }
  }

  lemma RestAreNew(hash: string -> string, before: Db, t: Token, after: Db, planId: string, rest: seq<Issued>)
    requires AllNew(hash, PutToken(before, t), after, planId, rest)
    ensures AllNew(hash, before, after, planId, rest)
    ensures forall i | 0 <= i < |rest| :: rest[i].tokenId != t.id && hash(rest[i].code) != t.codeHash
  {
    forall i | 0 <= i < |rest|
      ensures IsNew(hash, before, after, planId, rest[i])
      ensures rest[i].tokenId != t.id && hash(rest[i].code) != t.codeHash
    {
      RestIsNew(hash, before, t, after, planId, rest[i]);
    }
  }

  lemma AllNewCons(hash: string -> string, before: Db, after: Db, planId: string, v: Issued, rest: seq<Issued>)
    requires IsNew(hash, before, after, planId, v) && AllNew(hash, before, after, planId, rest)
    ensures AllNew(hash, before, after, planId, [v] + rest)
  {
    var all := [v] + rest;
    forall i | 0 <= i < |all|
      ensures IsNew(hash, before, after, planId, all[i])
    {
      assert all[i] == if i == 0 then v else rest[i - 1];
    }
  }

  lemma OneIsNew(hash: string -> string, before: Db, t: Token, code: string, after: Db, planId: string,
                 rest: seq<Issued>)
    requires t.id !in before.tokens && t.codeHash !in before.byHash && t.codeHash == hash(code)
    requires t.status == Unused && t.planId == planId
    requires Adds(hash, PutToken(before, t), after, planId, rest) && IndexEvolves(PutToken(before, t), after)
    ensures IsNew(hash, before, after, planId, Issued(t.id, code))
  {
    var mid := PutToken(before, t);
    assert t.id in mid.tokens && t.codeHash in mid.byHash;
    assert after.byHash[t.codeHash] == mid.byHash[t.codeHash];
  }

  lemma RestIsNew(hash: string -> string, before: Db, t: Token, after: Db, planId: string, v: Issued)
    requires IsNew(hash, PutToken(before, t), after, planId, v)
    ensures IsNew(hash, before, after, planId, v) && v.tokenId != t.id && hash(v.code) != t.codeHash
  {
  }

  lemma DistinctCons(hash: string -> string, v: Issued, rest: seq<Issued>)
    requires Distinct(hash, rest)
    requires forall i | 0 <= i < |rest| :: rest[i].tokenId != v.tokenId && hash(rest[i].code) != hash(v.code)
    ensures Distinct(hash, [v] + rest)
  {
    var all := [v] + rest;
    forall i, j | 0 <= i < j < |all|
      ensures all[i].tokenId != all[j].tokenId && hash(all[i].code) != hash(all[j].code)
    {
      assert all[j] == rest[j - 1] && (i > 0 ==> all[i] == rest[i - 1]);
    }
  }

  lemma AddsNothing(hash: string -> string, db: Db, planId: string)
    ensures Adds(hash, db, db, planId, [])
  {
    assert IssuedIds([]) == {};
  }

  /** Generation completes exactly when it has issued as many vouchers as asked, and touches only the store. */
  lemma {:induction false} IssueCount(hash: string -> string, w: World, now: Time, planId: string, notes: string,
                                      missing: nat, draws: seq<Draw>)
    ensures var b := Issue(hash, w, now, planId, notes, missing, draws);
            |b.issued| <= missing && (b.end == Complete <==> |b.issued| == missing) && b.world == w.(db := b.world.db)
    decreases |draws|
  {
    if missing != 0 && draws != [] && draws[0].Drawn? {
      var t := NewToken(draws[0].id, planId, hash(draws[0].code), notes, now);
      if t.id in w.db.tokens || t.codeHash in w.db.byHash {
        IssueCount(hash, w, now, planId, notes, missing, draws[1..]);
      } else {
        IssueCount(hash, SaveToken(w, t), now, planId, notes, missing - 1, draws[1..]);
      }
    }
  }

  ghost predicate BatchAdds(hash: string -> string, before: Db, b: Batch, planId: string) {
    Adds(hash, before, b.world.db, planId, b.issued) && IndexEvolves(before, b.world.db)
  }

  lemma BatchAddsOne(hash: string -> string, before: Db, t: Token, code: string, rest: Batch, planId: string)
    requires t.id !in before.tokens && t.codeHash !in before.byHash && t.codeHash == hash(code)
    requires t.status == Unused && t.planId == planId && BatchAdds(hash, PutToken(before, t), rest, planId)
    ensures BatchAdds(hash, before, rest.(issued := [Issued(t.id, code)] + rest.issued), planId)
  {
    AddsOne(hash, before, t, code, rest.world.db, planId, rest.issued, [Issued(t.id, code)] + rest.issued);
  }

  /** Despite retries, generation adds exactly one fresh unused token per issued code and changes nothing else. */
  lemma {:induction false} IssueAdds(hash: string -> string, w: World, now: Time, planId: string, notes: string,
                                     missing: nat, draws: seq<Draw>)
    ensures BatchAdds(hash, w.db, Issue(hash, w, now, planId, notes, missing, draws), planId)
    decreases |draws|
  {
    if missing == 0 || draws == [] || draws[0].Failure? {
      AddsNothing(hash, w.db, planId);
    } else {
      var t := NewToken(draws[0].id, planId, hash(draws[0].code), notes, now);
      if t.id in w.db.tokens || t.codeHash in w.db.byHash {
        IssueAdds(hash, w, now, planId, notes, missing, draws[1..]);
      } else {
        IssueAdds(hash, SaveToken(w, t), now, planId, notes, missing - 1, draws[1..]);
        BatchAddsOne(hash, w.db, t, draws[0].code,
                     Issue(hash, SaveToken(w, t), now, planId, notes, missing - 1, draws[1..]), planId);
      }
    }
  }
}
