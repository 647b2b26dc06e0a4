/** The token and RADIUS services as objects over the store (service/token_service.go, service/radius_service.go). */
module Services {
  import opened Domain
  import opened Keys
  import opened Store
  import opened Gateway
  import opened Quota
  import opened Tokens
  import opened Sweeping
  import opened Recovery

  /** How a typed code is turned into the key of the hash index. */
  function Hasher(digest: string -> string): string -> string {
    (code: string) => HashCode(digest, code)
  }

  ghost predicate SweepReady(w: World, rest: seq<Token>) {
    Keyed(w.db) && SingleActive(w.db) && CurrentTokens(rest, w.db)
  }

  ghost predicate RecoverReady(w: World, rest: seq<Session>) {
    Keyed(w.db) && CurrentSessions(rest, w.db)
  }

  ghost function AddChanged(t: Tally, changed: nat): Tally {
    t.(changed := changed + t.changed)
  }

  ghost function Prepend(out: seq<Issued>, b: Batch): Batch {
    b.(issued := out + b.issued)
  }

  lemma RetireStaysReady(w: World, env: Env, list: seq<Token>)
    requires list != [] && SweepReady(w, list)
    ensures SweepReady(RetireToken(w, env, AsExpired(list[0], env.now), "expired").world, list[1..])
  {
    var t := AsExpired(list[0], env.now);
    RetireTokenEffect(w, env, t, "expired");
    var w1 := RetireToken(w, env, t, "expired").world;
    var o := ActiveOf(w.db, t.id);
    if o.Some? {
      ClosedSingle(w.db, o.value, env.now, "expired", o.value.id in env.failing);
    }
    var mid := if o.Some? then PutSession(w.db, o.value.Close(env.now, "expired", o.value.id in env.failing)) else w.db;
    SameSessionsSingle(mid, w1.db);
    CurrentTail(list, w.db, w1.db);
  }

  lemma ClosedSingle(db: Db, s: Session, now: Time, reason: string, owed: bool)
    requires SingleActive(db) && s.id in db.sessions && db.sessions[s.id] == s
    ensures SingleActive(PutSession(db, s.Close(now, reason, owed)))
  {
    var after := PutSession(db, s.Close(now, reason, owed));
    forall tid, a, b | IsActiveOf(after, a, tid) && IsActiveOf(after, b, tid)
      ensures a == b
    {
      assert IsActiveOf(db, a, tid) && IsActiveOf(db, b, tid);
    }
  }

  /** One round of the sweep's loop, seen from the whole pass. */
  lemma SweepRound(w: World, env: Env, tokens: seq<Token>, i: nat)
    requires i < |tokens| && SweepReady(w, tokens[i..])
    ensures tokens[i].id in w.db.tokens
    ensures !tokens[i].Due(env.now) ==>
              SweepReady(w, tokens[i + 1..]) && Sweep(w, env, tokens[i..]) == Sweep(w, env, tokens[i + 1..])
    ensures tokens[i].Due(env.now) ==>
              var r := RetireToken(w, env, AsExpired(tokens[i], env.now), "expired");
              if r.result.Err? then Sweep(w, env, tokens[i..]) == Tally(r.world, 0, false)
              else SweepReady(r.world, tokens[i + 1..])
                   && Sweep(w, env, tokens[i..]) == AddChanged(Sweep(r.world, env, tokens[i + 1..]), 1)
  {
    assert tokens[i..][0] == tokens[i] && tokens[i..][1..] == tokens[i + 1..];
    CurrentTail(tokens[i..], w.db, w.db);
    RetireStaysReady(w, env, tokens[i..]);
  }

  lemma EndStaysReady(w: World, env: Env, list: seq<Session>)
    requires list != [] && RecoverReady(w, list)
    ensures RecoverReady(w, list[1..])
    ensures RecoverReady(EndSession(w, env, list[0], "recovered_closed").world, list[1..])
  {
    assert forall i | 0 <= i < |list| - 1 :: list[1..][i] == list[i + 1] && list[0].id != list[i + 1].id;
    EndSessionEffect(w, env, list[0], "recovered_closed");
  }

  lemma RecoverRound(w: World, env: Env, active: seq<Session>, i: nat)
    requires i < |active| && RecoverReady(w, active[i..])
    ensures active[i].id in w.db.sessions
    ensures !Stale(w.db, active[i], env.now) ==>
              RecoverReady(w, active[i + 1..]) && Recover(w, env, active[i..]) == Recover(w, env, active[i + 1..])
    ensures Stale(w.db, active[i], env.now) ==>
              var w1 := EndSession(w, env, active[i], "recovered_closed").world;
              RecoverReady(w1, active[i + 1..])
                  && Recover(w, env, active[i..]) == AddChanged(Recover(w1, env, active[i + 1..]), 1)
  {
    assert active[i..][0] == active[i] && active[i..][1..] == active[i + 1..];
    EndStaysReady(w, env, active[i..]);
  }

  lemma IssueStep(hash: string -> string, w: World, now: Time, planId: string, notes: string, missing: nat,
                  draws: seq<Draw>, next: nat, out: seq<Issued>)
    requires next < |draws| && missing > 0 && draws[next].Drawn?
    ensures var t := NewToken(draws[next].id, planId, hash(draws[next].code), notes, now);
            Prepend(out, Issue(hash, w, now, planId, notes, missing, draws[next..])) ==
              if t.id in w.db.tokens || t.codeHash in w.db.byHash
              then Prepend(out, Issue(hash, w, now, planId, notes, missing, draws[next + 1..]))
              else Prepend(out + [Issued(t.id, draws[next].code)],
                           Issue(hash, SaveToken(w, t), now, planId, notes, missing - 1, draws[next + 1..]))
  {
    assert draws[next..][0] == draws[next] && draws[next..][1..] == draws[next + 1..];
    var t := NewToken(draws[next].id, planId, hash(draws[next].code), notes, now);
    var rest := Issue(hash, SaveToken(w, t), now, planId, notes, missing - 1, draws[next + 1..]).issued;
    var one := [Issued(t.id, draws[next].code)];
    assert out + (one + rest) == out + one + rest;
  }

  class TokenService {
    const store: MemoryStore
    const outside: Outside
    const gateway: GatewayIntegrationService
    const digest: string -> string

    constructor (store: MemoryStore, outside: Outside, digest: string -> string)
      ensures this.store == store && this.outside == outside && this.digest == digest && Wired()
    {
      this.store := store;
      this.outside := outside;
      this.gateway := new GatewayIntegrationService(store, outside);
      this.digest := digest;
    }

    predicate Wired() {
      gateway.store == store && gateway.outside == outside
    }

    /** The end of a token's active session, shared by revocation and the two forms of expiry. */
    method EndActive(tokenId: string, reason: string, env: Env) returns (ok: bool)
      requires Wired() && Keyed(store.Contents()) && SingleActive(store.Contents())
      modifies store, outside
      ensures Keyed(store.Contents())
      ensures match old(ActiveOf(store.Contents(), tokenId))
              case None => Snapshot(store, outside) == old(Snapshot(store, outside)) && ok
              case Some(s) =>
                var r := EndSession(old(Snapshot(store, outside)), env, s, reason);
                Snapshot(store, outside) == r.world && ok == r.result.Ok? && (!ok ==> r.result.error == GatewayFailed)
    {
      var found := store.GetActiveSessionByToken(tokenId);
      if found.None? {
        return true;
      }
      var session := found.value;
      session := session.(status := Ended, endReason := reason, endedAt := Some(env.now), pending := true);
      var _ := store.UpdateSession(session);
      DisconnectKeepsKeyed(Snapshot(store, outside), env, session.id, reason, true);
      var r := gateway.Disconnect(session.id, reason, true, env);
      ok := r.Ok?;
    }

    /** Store a token in its final status, then end its active session. */
    method Retire(token: Token, reason: string, env: Env) returns (r: Result<()>)
      requires Wired() && Keyed(store.Contents()) && SingleActive(store.Contents())
      requires token.id in store.tokens
      modifies store, outside
      ensures RetireToken(old(Snapshot(store, outside)), env, token, reason) == Reply(Snapshot(store, outside), r)
    {
      var _ := store.UpdateToken(token);
      SameSessionsSingle(old(store.Contents()), store.Contents());
      var ok := EndActive(token.id, reason, env);
      r := if ok then Ok(()) else Err(GatewayFailed);
    }

    method EnsureUnexpired(token: Token, env: Env) returns (r: Result<()>)
      requires Wired() && Keyed(store.Contents()) && SingleActive(store.Contents())
      requires token.id in store.tokens
      modifies store, outside
      ensures EnsureNotExpired(old(Snapshot(store, outside)), env, token) == Reply(Snapshot(store, outside), r)
    {
      if token.expiresAt.None? {
        return Ok(());
      }
      if env.now < token.expiresAt.value {
        return Ok(());
      }
      r := Retire(token.(status := Expired, updatedAt := env.now), "expired", env);
      if r.Ok? {
        r := Err(TokenExpired);
      }
    }

    method UseUnused(token: Token, plan: Plan, mac: string, req: RedeemInput, newId: string, env: Env)
      returns (r: Result<RedeemResult>)
      requires token.id in store.tokens
      modifies store
      ensures FirstUse(old(Snapshot(store, outside)), env, token, plan, mac, req, newId)
              == Reply(Snapshot(store, outside), r)
    {
      var expires := env.now + plan.Lifetime();
      var used := token.(usedBy := Some(mac), activatedAt := Some(env.now), expiresAt := Some(expires),
                         status := Active, updatedAt := env.now);
      var _ := store.UpdateToken(used);
      var session := OpenSession(newId, token.id, mac, req, env.now);
      var created := store.CreateSession(session);
      if !created {
        return Err(AlreadyExists);
      }
      r := Ok(RedeemResult(used, session, PolicyFor(plan, used, env.now), false));
    }

    method UseActive(token: Token, plan: Plan, mac: string, req: RedeemInput, newId: string, env: Env)
      returns (r: Result<RedeemResult>)
      requires Keyed(store.Contents()) && SingleActive(store.Contents())
      modifies store
      ensures FurtherUse(old(Snapshot(store, outside)), env, token, plan, mac, req, newId)
              == Reply(Snapshot(store, outside), r)
    {
      if token.usedBy.None? || token.usedBy.value != mac {
        return Err(DeviceBound);
      }
      var found := store.GetActiveSessionByToken(token.id);
      if found.Some? {
        var session := found.value;
        session := session.(ip := req.ip, gatewayId := req.gatewayId);
        if req.radiusSessionId != "" {
          session := session.(radiusSessionId := req.radiusSessionId);
        }
        if req.nasIp != "" {
          session := session.(nasIp := req.nasIp);
        }
        if req.nasIdentifier != "" {
          session := session.(nasIdentifier := req.nasIdentifier);
        }
        var _ := store.UpdateSession(session);
        return Ok(RedeemResult(token, session, PolicyFor(plan, token, env.now), true));
      }
      var session := OpenSession(newId, token.id, mac, req, env.now);
      var created := store.CreateSession(session);
      if !created {
        return Err(AlreadyExists);
      }
      r := Ok(RedeemResult(token, session, PolicyFor(plan, token, env.now), true));
    }

    /** The checks before the token's own status counts. */
    method AdmitRequest(req: RedeemInput) returns (r: Result<Admission>)
      ensures r == Admit(Hasher(digest), store.Contents(), req)
    {
      if req.code == "" {
        return Err(InvalidInput);
      }
      var mac := NormalizeMAC(req.deviceMac);
      if mac.None? {
        return Err(InvalidInput);
      }
      var token := store.GetTokenByCodeHash(Hasher(digest)(req.code));
      if token.None? {
        return Err(InvalidToken);
      }
      var plan := store.GetPlan(token.value.planId);
      if plan.None? || !plan.value.active {
        return Err(PlanInactive);
      }
      r := Ok(Admission(token.value, plan.value, mac.value));
    }

    method UseAdmitted(a: Admission, req: RedeemInput, requireActive: bool, newId: string, env: Env)
      returns (r: Result<RedeemResult>)
      requires Wired() && Keyed(store.Contents()) && SingleActive(store.Contents())
      requires a.token.id in store.tokens
      modifies store, outside
      ensures RedeemAdmitted(old(Snapshot(store, outside)), env, a, req, requireActive, newId)
              == Reply(Snapshot(store, outside), r)
    {
      var unexpired := EnsureUnexpired(a.token, env);
      if unexpired.Err? {
        return Err(unexpired.error);
      }
      match a.token.status
      case Unused =>
        if requireActive {
          return Err(InvalidToken);
        }
        r := UseUnused(a.token, a.plan, a.mac, req, newId, env);
      case Active => r := UseActive(a.token, a.plan, a.mac, req, newId, env);
      case Revoked => r := Err(TokenRevoked);
      case Consumed => r := Err(TokenConsumed);
      case Expired => r := Err(TokenExpired);
      case Created => r := Err(InvalidToken);
    }

    method RedeemUnsafe(req: RedeemInput, requireActive: bool, newId: string, env: Env)
      returns (r: Result<RedeemResult>)
      requires Wired() && Keyed(store.Contents()) && SingleActive(store.Contents())
      modifies store, outside
      ensures Redeem(Hasher(digest), old(Snapshot(store, outside)), env, req, requireActive, newId)
           == Reply(Snapshot(store, outside), r)
    {
      var admitted := AdmitRequest(req);
      if admitted.Err? {
        return Err(admitted.error);
      }
      AdmitFindsStored(Hasher(digest), store.Contents(), req);
      r := UseAdmitted(admitted.value, req, requireActive, newId, env);
    }

    method RedeemToken(req: RedeemInput, newId: string, env: Env) returns (r: Result<RedeemResult>)
      requires Wired() && Valid(store.Contents())
      modifies store, outside
      ensures Redeem(Hasher(digest), old(Snapshot(store, outside)), env, req, false, newId)
              == Reply(Snapshot(store, outside), r)
      ensures Valid(store.Contents())
    {
      RedeemKeepsValid(Hasher(digest), Snapshot(store, outside), env, req, false, newId);
      r := RedeemUnsafe(req, false, newId, env);
    }

    method ResumeToken(req: RedeemInput, newId: string, env: Env) returns (r: Result<RedeemResult>)
      requires Wired() && Valid(store.Contents())
      modifies store, outside
      ensures Redeem(Hasher(digest), old(Snapshot(store, outside)), env, req, true, newId)
              == Reply(Snapshot(store, outside), r)
      ensures Valid(store.Contents())
    {
      RedeemKeepsValid(Hasher(digest), Snapshot(store, outside), env, req, true, newId);
      r := RedeemUnsafe(req, true, newId, env);
    }

    method RevokeToken(tokenId: string, reasonGiven: string, env: Env) returns (r: Result<()>)
      requires Wired() && Keyed(store.Contents()) && SingleActive(store.Contents())
      modifies store, outside
      ensures Revoke(old(Snapshot(store, outside)), env, tokenId, reasonGiven) == Reply(Snapshot(store, outside), r)
    {
      var reason := if reasonGiven == "" then "revoked by admin" else reasonGiven;
      var found := store.GetTokenByID(tokenId);
      if found.None? {
        return Err(NotFound);
      }
      r := Retire(found.value.(status := Revoked, revokedReason := reason, updatedAt := env.now), "revoked", env);
    }

    method SweepList(tokens: seq<Token>, env: Env) returns (changed: nat, finished: bool)
      requires Wired() && SweepReady(Snapshot(store, outside), tokens)
      modifies store, outside
      ensures Sweep(old(Snapshot(store, outside)), env, tokens) == Tally(Snapshot(store, outside), changed, finished)
    {
      changed := 0;
      ghost var goal := Sweep(Snapshot(store, outside), env, tokens);
      var i := 0;
      while i < |tokens|
        invariant 0 <= i <= |tokens|
        invariant SweepReady(Snapshot(store, outside), tokens[i..])
        invariant goal == AddChanged(Sweep(Snapshot(store, outside), env, tokens[i..]), changed)
      {
        var token := tokens[i];
        SweepRound(Snapshot(store, outside), env, tokens, i);
        if token.status == Active && token.expiresAt.Some? && token.expiresAt.value <= env.now {
          var retired := Retire(AsExpired(token, env.now), "expired", env);
          if retired.Err? {
            return changed, false;
          }
          changed := changed + 1;
        }
        i := i + 1;
      }
      finished := true;
    }

    method SweepExpiredTokens(env: Env) returns (changed: nat, finished: bool, ghost list: seq<Token>)
      requires Wired() && Keyed(store.Contents()) && SingleActive(store.Contents())
      modifies store, outside
      ensures ListsTokens(list, old(store.tokens))
      ensures Sweep(old(Snapshot(store, outside)), env, list) == Tally(Snapshot(store, outside), changed, finished)
      ensures old(Valid(store.Contents())) ==>
                var due := DueTokens(old(store.Contents()), env.now);
                && (finished <==> Lapsing(old(store.Contents()), env.now, due) !! env.failing)
                && (finished
                   ==> Snapshot(store, outside) == Swept(old(Snapshot(store, outside)), env, due) && changed == |due|)
    {
      ghost var w := Snapshot(store, outside);
      var tokens := store.ListTokens();
      list := tokens;
      changed, finished := SweepList(tokens, env);
      if Valid(w.db) {
        SweepExact(w, env, list);
      }
    }

    method RecoverList(active: seq<Session>, env: Env) returns (closed: nat)
      requires Wired() && RecoverReady(Snapshot(store, outside), active)
      modifies store, outside
      ensures Recover(old(Snapshot(store, outside)), env, active) == Tally(Snapshot(store, outside), closed, true)
    {
      closed := 0;
      ghost var goal := Recover(Snapshot(store, outside), env, active);
      var i := 0;
      while i < |active|
        invariant 0 <= i <= |active|
        invariant RecoverReady(Snapshot(store, outside), active[i..])
        invariant goal == AddChanged(Recover(Snapshot(store, outside), env, active[i..]), closed)
      {
        var session := active[i];
        RecoverRound(Snapshot(store, outside), env, active, i);
        var stale := IsStale(session, env.now);
        if stale {
          CloseStale(session, env);
          closed := closed + 1;
        }
        i := i + 1;
      }
    }

    method RecoverSessionsAfterRestart(env: Env) returns (closed: nat, ghost list: seq<Session>)
      requires Wired() && Keyed(store.Contents())
      modifies store, outside
      ensures ListsActive(list, old(store.sessions))
      ensures Recover(old(Snapshot(store, outside)), env, list) == Tally(Snapshot(store, outside), closed, true)
      ensures var stale := StaleSessions(old(store.Contents()), env.now);
              && closed == |stale|
              && Snapshot(store, outside)
                 == Recovered(old(Snapshot(store, outside)), env, stale).(queue := outside.tasks)
    {
      var active := store.ListActiveSessions();
      list := active;
      RecoverExact(Snapshot(store, outside), env, list);
      closed := RecoverList(active, env);
    }

    method IsStale(session: Session, now: Time) returns (stale: bool)
      ensures stale == Stale(store.Contents(), session, now)
    {
      var token := store.GetTokenByID(session.tokenId);
      if token.None? || token.value.status != Active {
        return true;
      }
      stale := token.value.expiresAt.Some? && now > token.value.expiresAt.value;
    }

    /** A refusal of the gateway is ignored here; the retry queue holds the request. */
    method CloseStale(session: Session, env: Env)
      requires Wired() && Keyed(store.Contents()) && session.id in store.sessions
      modifies store, outside
      ensures Snapshot(store, outside)
              == EndSession(old(Snapshot(store, outside)), env, session, "recovered_closed").world
    {
      var ended := session.(status := Ended, endedAt := Some(env.now), endReason := "recovered_closed",
                            pending := true);
      var _ := store.UpdateSession(ended);
      var _ := gateway.Disconnect(session.id, "recovered_closed", true, env);
    }

    /** The loop that draws until `count` vouchers exist; a refused duplicate takes back the loop's count. */
    method IssueTokens(planId: string, count: nat, notes: string, draws: seq<Draw>, env: Env)
      returns (out: seq<Issued>, end: BatchEnd)
      modifies store
      ensures Issue(Hasher(digest), old(Snapshot(store, outside)), env.now, planId, notes, count, draws)
           == Batch(Snapshot(store, outside), out, end)
    {
      var hash := Hasher(digest);
      out := [];
      ghost var goal := Issue(hash, Snapshot(store, outside), env.now, planId, notes, count, draws);
      var i, next := 0, 0;
      while i < count && next < |draws|
        invariant 0 <= i <= count && 0 <= next <= |draws|
        invariant goal
                  == Prepend(out,
                             Issue(hash, Snapshot(store, outside), env.now, planId, notes, count - i, draws[next..]))
        decreases |draws| - next
      {
        var draw := draws[next];
        if draw.Failure? {
          assert draws[next..][0] == draw && out + [] == out;
          return out, SourceFailed;
        }
        IssueStep(hash, Snapshot(store, outside), env.now, planId, notes, count - i, draws, next, out);
        var token := NewToken(draw.id, planId, hash(draw.code), notes, env.now);
        var created := store.CreateToken(token);
        if !created {
          i := i - 1;
        } else {
          out := out + [Issued(token.id, draw.code)];
        }
        i := i + 1;
        next := next + 1;
      }
      assert next == |draws| ==> draws[next..] == [];
      assert out + [] == out;
      end := if i == count then Complete else StillTrying;
    }

    method GenerateTokens(planId: string, count: int, notes: string, draws: seq<Draw>, env: Env)
      returns (r: Result<Vouchers>)
      modifies store
      ensures Generate(Hasher(digest), old(Snapshot(store, outside)), env, planId, count, notes, draws)
           == Reply(Snapshot(store, outside), r)
    {
      if count <= 0 || count > 1000 {
        return Err(InvalidCount);
      }
      var plan := store.GetPlan(planId);
      if plan.None? {
        return Err(NotFound);
      }
      if !plan.value.active {
        return Err(PlanInactive);
      }
      var issued, end := IssueTokens(planId, count, notes, draws, env);
      r := if end == SourceFailed then Err(RandomFailed) else Ok(Vouchers(issued, end));
    }
  }
}
