/**
 Expiry on demand and expiry by the periodic sweep cannot be told apart by anyone who redeems,
 resumes or authenticates, as long as the gateway answers.
 */
module LazyExpiry {
  import opened Domain
  import opened Store
  import opened Gateway
  import opened Quota
  import opened Sessions
  import opened Tokens
  import opened Sweeping
  import opened Recovery
  import opened RadiusServices
  import opened Machine

  // ---- Stores that differ only on tokens past their expiry instant, and on their sessions ----

  /** What no expiry, revocation or consumption touches. */
  ghost predicate SameVoucher(a: Token, b: Token) {
    b == a.(status := b.status, updatedAt := b.updatedAt, revokedReason := b.revokedReason)
  }

  ghost predicate SameOwner(a: Session, b: Session) {
    a.id == b.id && a.tokenId == b.tokenId && a.radiusSessionId == b.radiusSessionId && a.nasIp == b.nasIp
  }

  ghost predicate Lapsed(db: Db, tid: string, now: Time) {
    tid in db.tokens && db.tokens[tid].PastExpiry(now)
  }

  ghost predicate SameFrame(a: World, b: World) {
    && a.db.plans == b.db.plans && a.db.byHash == b.db.byHash && a.queue == b.queue
    && a.db.tokens.Keys == b.db.tokens.Keys && a.db.sessions.Keys == b.db.sessions.Keys
    && (forall k | k in a.db.tokens :: SameVoucher(a.db.tokens[k], b.db.tokens[k]))
    && (forall k | k in a.db.sessions :: SameOwner(a.db.sessions[k], b.db.sessions[k]))
  }

  /** Everything that belongs to tokens outside `but` agrees. */
  ghost predicate AgreeBeyond(a: World, b: World, but: iset<string>)
    requires SameFrame(a, b)
  {
    && (forall k | k in a.db.tokens && k !in but :: a.db.tokens[k] == b.db.tokens[k])
    && (forall k | k in a.db.sessions && a.db.sessions[k].tokenId !in but :: a.db.sessions[k] == b.db.sessions[k])
  }

  ghost function LapsedSet(db: Db, now: Time): iset<string> {
    iset k | Lapsed(db, k, now)
  }

  ghost predicate Alike(a: World, b: World, now: Time) {
    SameFrame(a, b) && AgreeBeyond(a, b, LapsedSet(a.db, now))
  }

  /** One world became another by changing nothing beyond one token and its sessions. */
  ghost predicate Touches(a: World, b: World, tid: string) {
    SameFrame(a, b) && AgreeBeyond(a, b, iset{tid})
  }

  lemma AlikeLater(a: World, b: World, now: Time, later: Time)
    requires Alike(a, b, now) && now <= later
    ensures Alike(a, b, later)
  {
    assert forall k | Lapsed(a.db, k, now) :: Lapsed(a.db, k, later);
  }

  lemma TouchesTwice(a: World, b: World, c: World, tid: string)
    requires Touches(a, b, tid) && Touches(b, c, tid)
    ensures Touches(a, c, tid)
  {
    forall k | k in a.db.tokens
      ensures SameVoucher(a.db.tokens[k], c.db.tokens[k])
    {
      assert SameVoucher(a.db.tokens[k], b.db.tokens[k]) && SameVoucher(b.db.tokens[k], c.db.tokens[k]);
    }
    forall k | k in a.db.sessions
      ensures SameOwner(a.db.sessions[k], c.db.sessions[k])
    {
      assert SameOwner(a.db.sessions[k], b.db.sessions[k]) && SameOwner(b.db.sessions[k], c.db.sessions[k]);
    }
  }

  lemma AlikeSymmetric(a: World, b: World, now: Time)
    requires Alike(a, b, now)
    ensures Alike(b, a, now) && LapsedSet(a.db, now) == LapsedSet(b.db, now)
  {
    forall k | k in a.db.tokens
      ensures SameVoucher(b.db.tokens[k], a.db.tokens[k])
      ensures Lapsed(a.db, k, now) <==> Lapsed(b.db, k, now)
    {
      assert SameVoucher(a.db.tokens[k], b.db.tokens[k]);
    }
    forall k | k in a.db.sessions
      ensures SameOwner(b.db.sessions[k], a.db.sessions[k])
    {
      assert SameOwner(a.db.sessions[k], b.db.sessions[k]);
    }
  }

  /** A change on one side that touches only a lapsed token keeps the two worlds alike. */
  lemma LapsedTouchOnOneSide(a: World, b: World, b': World, tid: string, now: Time)
    requires Alike(a, b, now) && Lapsed(a.db, tid, now) && Touches(b, b', tid)
    ensures Alike(a, b', now)
  {
    forall k | k in a.db.tokens
      ensures SameVoucher(a.db.tokens[k], b'.db.tokens[k])
    {
      assert SameVoucher(a.db.tokens[k], b.db.tokens[k]) && SameVoucher(b.db.tokens[k], b'.db.tokens[k]);
    }
    forall k | k in a.db.sessions
      ensures SameOwner(a.db.sessions[k], b'.db.sessions[k])
      ensures a.db.sessions[k].tokenId !in LapsedSet(a.db, now) ==> a.db.sessions[k] == b'.db.sessions[k]
    {
      assert SameOwner(a.db.sessions[k], b.db.sessions[k]) && SameOwner(b.db.sessions[k], b'.db.sessions[k]);
    }
  }

  lemma LapsedTouchKeepsAlike(a: World, b: World, a': World, b': World, tid: string, now: Time)
    requires Alike(a, b, now) && Lapsed(a.db, tid, now)
    requires Touches(a, a', tid) && Touches(b, b', tid)
    ensures Alike(a', b', now)
  {
    LapsedTouchOnOneSide(a, b, b', tid, now);
    AlikeSymmetric(a, b', now);
    assert tid in LapsedSet(b'.db, now);
    LapsedTouchOnOneSide(b', a, a', tid, now);
    AlikeSymmetric(b', a', now);
  }

  lemma TouchesItself(w: World, tid: string)
    ensures Touches(w, w, tid)
  {
  }

  // ---- The same change made on both sides ----

  lemma SavedSessionAlike(a: World, b: World, s: Session, now: Time)
    requires Alike(a, b, now)
    ensures Alike(SaveSession(a, s), SaveSession(b, s), now)
  {
    assert LapsedSet(SaveSession(a, s).db, now) == LapsedSet(a.db, now);
  }

  /** The token is new or has not lapsed, so both sides hold the same sessions for it. */
  lemma SavedTokenAlike(a: World, b: World, t: Token, now: Time)
    requires Alike(a, b, now) && !Lapsed(a.db, t.id, now)
    ensures Alike(SaveToken(a, t), SaveToken(b, t), now)
  {
    var a', b' := SaveToken(a, t), SaveToken(b, t);
    forall k | k in a'.db.sessions && a'.db.sessions[k].tokenId !in LapsedSet(a'.db, now)
      ensures a'.db.sessions[k] == b'.db.sessions[k]
    {
      assert a.db.sessions[k].tokenId !in LapsedSet(a.db, now);
    }
  }

  lemma SameActive(a: World, b: World, tid: string, now: Time)
    requires Alike(a, b, now) && Keyed(a.db) && Keyed(b.db) && SingleActive(a.db) && SingleActive(b.db)
             && !Lapsed(a.db, tid, now)
    ensures ActiveOf(a.db, tid) == ActiveOf(b.db, tid)
  {
    var oa, ob := ActiveOf(a.db, tid), ActiveOf(b.db, tid);
    if oa.Some? {
      var sid :| IsActiveOf(a.db, sid, tid) && a.db.sessions[sid] == oa.value;
      assert a.db.sessions[sid] == b.db.sessions[sid];
      ActiveOfUnique(b.db, sid, tid) by {
        assert IsActiveOf(b.db, sid, tid);
      }
    } else if ob.Some? {
      var sid :| IsActiveOf(b.db, sid, tid) && b.db.sessions[sid] == ob.value;
      assert SameOwner(a.db.sessions[sid], b.db.sessions[sid]);
      assert a.db.sessions[sid] == b.db.sessions[sid];
      assert IsActiveOf(a.db, sid, tid);
    }
  }

  // ---- The operations, one by one: a lapsed token is touched, any other is changed alike ----

  lemma DisconnectTouches(w: World, env: Env, sid: string, reason: string, force: bool)
    requires Keyed(w.db) && env.failing == {} && sid in w.db.sessions
    ensures Touches(w, DisconnectSession(w, env, sid, reason, force).world, w.db.sessions[sid].tokenId)
  {
    var found, tid := w.db.sessions[sid], w.db.sessions[sid].tokenId;
    if found.status == Ended && !force && !found.pending {
      TouchesItself(w, tid);
    } else {
      var why := if reason == "" then "disconnect" else reason;
      var done := (if found.status == Ended then found else found.Close(env.now, why, true)).(pending := false);
      SaveTouches(w, done);
      assert DisconnectSession(w, env, sid, reason, force).world == SaveSession(w, done).(acked := w.acked + {sid});
      TouchesNoted(w, SaveSession(w, done), w.acked + {sid}, tid);
    }
  }

  lemma TouchesNoted(w: World, w': World, acked: set<string>, tid: string)
    requires Touches(w, w', tid)
    ensures Touches(w, w'.(acked := acked), tid)
  {
  }

  lemma DisconnectAlike(a: World, b: World, env: Env, sid: string, reason: string, force: bool, now: Time)
    requires Alike(a, b, now) && Keyed(a.db) && Keyed(b.db) && env.failing == {}
    ensures Alike(DisconnectSession(a, env, sid, reason, force).world,
                  DisconnectSession(b, env, sid, reason, force).world, now)
    ensures DisconnectSession(a, env, sid, reason, force).result.Ok?
            == DisconnectSession(b, env, sid, reason, force).result.Ok?
  {
    if sid in a.db.sessions {
      var a', b' := DisconnectSession(a, env, sid, reason, force).world,
          DisconnectSession(b, env, sid, reason, force).world;
      var tid := a.db.sessions[sid].tokenId;
      assert SameOwner(a.db.sessions[sid], b.db.sessions[sid]);
      if Lapsed(a.db, tid, now) {
        DisconnectTouches(a, env, sid, reason, force);
        DisconnectTouches(b, env, sid, reason, force);
        LapsedTouchKeepsAlike(a, b, a', b', tid, now);
      } else {
        DisconnectSame(a, b, env, sid, reason, force, now);
      }
    }
  }

  lemma DisconnectSame(a: World, b: World, env: Env, sid: string, reason: string, force: bool, now: Time)
    requires Alike(a, b, now) && Keyed(a.db) && env.failing == {}
    requires sid in a.db.sessions && a.db.sessions[sid] == b.db.sessions[sid]
    ensures Alike(DisconnectSession(a, env, sid, reason, force).world,
                  DisconnectSession(b, env, sid, reason, force).world, now)
  {
    var found := a.db.sessions[sid];
    if found.status != Ended || force || found.pending {
      var why := if reason == "" then "disconnect" else reason;
      var done := (if found.status == Ended then found else found.Close(env.now, why, true)).(pending := false);
      SavedSessionAlike(a, b, done, now);
      assert DisconnectSession(a, env, sid, reason, force).world == SaveSession(a, done).(acked := a.acked + {sid});
      assert DisconnectSession(b, env, sid, reason, force).world == SaveSession(b, done).(acked := b.acked + {sid});
    }
  }

  /** Retiring a token, with a gateway that answers. */
  lemma RetireTouches(w: World, env: Env, t: Token, reason: string)
    requires Keyed(w.db) && Indexed(w.db) && SingleActive(w.db) && env.failing == {} && reason != ""
    requires t.id in w.db.tokens && SameVoucher(w.db.tokens[t.id], t)
    ensures var r := RetireToken(w, env, t, reason); r.result == Ok(()) && Touches(w, r.world, t.id)
  {
    RetireTokenEffect(w, env, t, reason);
    RetireIndex(w.db, t);
    var o := ActiveOf(w.db, t.id);
    if o.Some? {
      EndSessionEffect(SaveToken(w, t), env, o.value, reason);
    }
  }

  lemma RetireAlike(a: World, b: World, env: Env, t: Token, reason: string, now: Time)
    requires Alike(a, b, now) && env.failing == {} && reason != ""
    requires Keyed(a.db) && Keyed(b.db) && SingleActive(a.db) && SingleActive(b.db)
    requires t.id in a.db.tokens && !Lapsed(a.db, t.id, now) && SameVoucher(a.db.tokens[t.id], t)
    ensures Alike(RetireToken(a, env, t, reason).world, RetireToken(b, env, t, reason).world, now)
  {
    SameActive(a, b, t.id, now);
    RetireTokenEffect(a, env, t, reason);
    RetireTokenEffect(b, env, t, reason);
    SavedTokenAlike(a, b, t, now);
    var a1, b1 := SaveToken(a, t), SaveToken(b, t);
    var o := ActiveOf(a.db, t.id);
    if o.Some? {
      EndSessionEffect(a1, env, o.value, reason);
      EndSessionEffect(b1, env, o.value, reason);
      SavedSessionAlike(a1, b1, o.value.Close(env.now, reason, false), now);
    }
  }

  lemma RevokeAlike(a: World, b: World, env: Env, tid: string, reason: string)
    requires Valid(a.db) && Valid(b.db) && Alike(a, b, env.now) && env.failing == {}
    ensures Alike(Revoke(a, env, tid, reason).world, Revoke(b, env, tid, reason).world, env.now)
  {
    if tid in a.db.tokens {
      var ta, tb := AsRevoked(a.db.tokens[tid], reason, env.now), AsRevoked(b.db.tokens[tid], reason, env.now);
      if Lapsed(a.db, tid, env.now) {
        RetireTouches(a, env, ta, "revoked");
        RetireTouches(b, env, tb, "revoked");
        LapsedTouchKeepsAlike(a, b, RetireToken(a, env, ta, "revoked").world, RetireToken(b, env, tb, "revoked").world,
                              tid, env.now);
      } else {
        RetireAlike(a, b, env, ta, "revoked", env.now);
      }
    }
  }

  // ---- Redeeming ----

  lemma FirstUseAlike(a: World, b: World, env: Env, t: Token, plan: Plan, mac: string, req: RedeemInput, newId: string)
    requires Alike(a, b, env.now) && t.id in a.db.tokens && !Lapsed(a.db, t.id, env.now)
    ensures var ra := FirstUse(a, env, t, plan, mac, req, newId);
            var rb := FirstUse(b, env, t, plan, mac, req, newId);
            ra.result == rb.result && Alike(ra.world, rb.world, env.now)
  {
    var used := Activate(t, plan, mac, env.now);
    SavedTokenAlike(a, b, used, env.now);
    SavedSessionAlike(SaveToken(a, used), SaveToken(b, used), OpenSession(newId, t.id, mac, req, env.now), env.now);
  }

  lemma FurtherUseAlike(a: World, b: World, env: Env, t: Token, plan: Plan, mac: string, req: RedeemInput,
                        newId: string)
    requires Alike(a, b, env.now) && ActiveOf(a.db, t.id) == ActiveOf(b.db, t.id)
    ensures var ra := FurtherUse(a, env, t, plan, mac, req, newId);
            var rb := FurtherUse(b, env, t, plan, mac, req, newId);
            ra.result == rb.result && Alike(ra.world, rb.world, env.now)
  {
    match ActiveOf(a.db, t.id)
    case Some(s) => SavedSessionAlike(a, b, Refresh(s, req), env.now);
    case None => SavedSessionAlike(a, b, OpenSession(newId, t.id, mac, req, env.now), env.now);
  }

  lemma UseAlike(a: World, b: World, env: Env, t: Token, plan: Plan, mac: string, req: RedeemInput, requireActive: bool,
                 newId: string)
    requires Alike(a, b, env.now) && Keyed(a.db) && Keyed(b.db) && SingleActive(a.db) && SingleActive(b.db)
    requires t.id in a.db.tokens && !Lapsed(a.db, t.id, env.now)
    ensures var ra := UseToken(a, env, t, plan, mac, req, requireActive, newId);
            var rb := UseToken(b, env, t, plan, mac, req, requireActive, newId);
            ra.result == rb.result && Alike(ra.world, rb.world, env.now)
  {
    if t.status == Unused && !requireActive {
      FirstUseAlike(a, b, env, t, plan, mac, req, newId);
    } else if t.status == Active {
      SameActive(a, b, t.id, env.now);
      FurtherUseAlike(a, b, env, t, plan, mac, req, newId);
    }
  }

  lemma ExpiryTouches(w: World, env: Env, t: Token)
    requires Keyed(w.db) && Indexed(w.db) && SingleActive(w.db) && env.failing == {}
    requires t.id in w.db.tokens && w.db.tokens[t.id] == t && t.PastExpiry(env.now)
    ensures var r := EnsureNotExpired(w, env, t); r.result == Err(TokenExpired) && Touches(w, r.world, t.id)
  {
    RetireTouches(w, env, AsExpired(t, env.now), "expired");
  }

  lemma RedeemAlike(hash: string -> string, a: World, b: World, env: Env, req: RedeemInput, requireActive: bool,
                    newId: string)
    requires Valid(a.db) && Valid(b.db) && Alike(a, b, env.now) && env.failing == {}
    ensures var ra := Redeem(hash, a, env, req, requireActive, newId);
            var rb := Redeem(hash, b, env, req, requireActive, newId);
            ra.result == rb.result && Alike(ra.world, rb.world, env.now)
  {
    var xa, xb := Admit(hash, a.db, req), Admit(hash, b.db, req);
    var h := hash(req.code);
    if h in a.db.byHash {
      assert a.db.byHash[h] in a.db.tokens;
      assert SameVoucher(a.db.tokens[a.db.byHash[h]], b.db.tokens[a.db.byHash[h]]);
    }
    if xa.Ok? {
      AdmittedAlike(a, b, env, xa.value, xb.value, req, requireActive, newId);
    }
  }

  lemma AdmittedAlike(a: World, b: World, env: Env, xa: Admission, xb: Admission, req: RedeemInput, requireActive: bool,
                      newId: string)
    requires Alike(a, b, env.now) && env.failing == {} && xb == xa.(token := xb.token)
    requires Keyed(a.db) && Indexed(a.db) && SingleActive(a.db) && Keyed(b.db) && Indexed(b.db) && SingleActive(b.db)
    requires xa.token.id in a.db.tokens && a.db.tokens[xa.token.id] == xa.token
    requires xb.token.id == xa.token.id && b.db.tokens[xb.token.id] == xb.token
    ensures var ra := RedeemAdmitted(a, env, xa, req, requireActive, newId);
            var rb := RedeemAdmitted(b, env, xb, req, requireActive, newId);
            ra.result == rb.result && Alike(ra.world, rb.world, env.now)
  {
    assert SameVoucher(xa.token, xb.token);
    if xa.token.PastExpiry(env.now) {
      PastExpiryAlike(a, b, env, xa.token, xb.token);
    } else {
      UseAlike(a, b, env, xa.token, xa.plan, xa.mac, req, requireActive, newId);
    }
  }

  lemma PastExpiryAlike(a: World, b: World, env: Env, ta: Token, tb: Token)
    requires Alike(a, b, env.now) && env.failing == {} && SameVoucher(ta, tb) && ta.PastExpiry(env.now)
    requires Keyed(a.db) && Indexed(a.db) && SingleActive(a.db) && Keyed(b.db) && Indexed(b.db) && SingleActive(b.db)
    requires ta.id in a.db.tokens && a.db.tokens[ta.id] == ta && b.db.tokens[ta.id] == tb
    ensures var ra, rb := EnsureNotExpired(a, env, ta), EnsureNotExpired(b, env, tb);
            ra.result == rb.result == Err(TokenExpired) && Alike(ra.world, rb.world, env.now)
  {
    ExpiryTouches(a, env, ta);
    ExpiryTouches(b, env, tb);
    LapsedTouchKeepsAlike(a, b, EnsureNotExpired(a, env, ta).world, EnsureNotExpired(b, env, tb).world, ta.id, env.now);
  }

  lemma AuthenticationAlike(hash: string -> string, a: World, b: World, env: Env, later: Time, req: AuthInput,
                            newId: string)
    requires Valid(a.db) && Valid(b.db) && Alike(a, b, env.now) && env.failing == {} && env.now <= later
    ensures var ra := Authentication(hash, a, env, later, req, newId);
            var rb := Authentication(hash, b, env, later, req, newId);
            ra.decision == rb.decision && Alike(ra.world, rb.world, later)
  {
    var redeem, at := AsRedeem(req, req.callingStation), Deciding(hash, a, env, later, req, newId);
    AuthenticateIsRedeem(hash, a, env, later, req, newId);
    AuthenticateIsRedeem(hash, b, env, later, req, newId);
    RedeemAlike(hash, a, b, env, redeem, true, newId);
    AlikeLater(a, b, env.now, at.now);
    RedeemAlike(hash, a, b, at, redeem, false, newId);
    AlikeLater(Redeem(hash, a, at, redeem, false, newId).world, Redeem(hash, b, at, redeem, false, newId).world, at.now,
               later);
  }

  // ---- Accounting ----

  /** Saving any version of a token's session touches only that token. */
  lemma SaveTouches(w: World, s: Session)
    requires s.id in w.db.sessions && SameOwner(w.db.sessions[s.id], s)
    ensures Touches(w, SaveSession(w, s), s.tokenId)
  {
  }

  lemma StopTouches(w: World, env: Env, sid: string, reason: string)
    requires Keyed(w.db) && sid in w.db.sessions
    ensures Touches(w, StopSession(w, env, sid, reason).world, w.db.sessions[sid].tokenId)
  {
    var s := w.db.sessions[sid];
    SaveTouches(w, s.Close(env.now, reason, false));
    TouchesItself(w, s.tokenId);
  }

  lemma StopAlike(a: World, b: World, env: Env, sid: string, reason: string)
    requires Alike(a, b, env.now) && Keyed(a.db) && Keyed(b.db)
    ensures Alike(StopSession(a, env, sid, reason).world, StopSession(b, env, sid, reason).world, env.now)
  {
    if sid in a.db.sessions {
      var tid := a.db.sessions[sid].tokenId;
      assert SameOwner(a.db.sessions[sid], b.db.sessions[sid]);
      if Lapsed(a.db, tid, env.now) {
        StopTouches(a, env, sid, reason);
        StopTouches(b, env, sid, reason);
        LapsedTouchKeepsAlike(a, b, StopSession(a, env, sid, reason).world, StopSession(b, env, sid, reason).world, tid,
                              env.now);
      } else {
        SavedSessionAlike(a, b, a.db.sessions[sid].Close(env.now, reason, false), env.now);
      }
    }
  }

  /** The session's token and plan are stored. */
  ghost predicate Owned(db: Db, sid: string) {
    && sid in db.sessions && db.sessions[sid].id == sid
    && var tid := db.sessions[sid].tokenId;
       tid in db.tokens && db.tokens[tid].id == tid && db.tokens[tid].planId in db.plans
  }

  lemma StoredIsOwned(db: Db, sid: string)
    requires Keyed(db) && SessionsOk(db) && TokensOk(db) && sid in db.sessions
    ensures Owned(db, sid)
  {
    assert SessionOk(db, db.sessions[sid]);
    assert TokenOk(db, db.tokens[db.sessions[sid].tokenId]);
  }

  lemma ApplyUsageTouches(w: World, env: Env, sid: string, up: int, down: int)
    requires Owned(w.db, sid) && Indexed(w.db)
    ensures Touches(w, ApplyUsage(w, env, sid, up, down).world, w.db.sessions[sid].tokenId)
  {
    if w.db.sessions[sid].status == Live {
      ApplyUsageForm(w, env, sid, up, down);
      var t := w.db.tokens[w.db.sessions[sid].tokenId];
      RetireIndex(w.db, t.(status := Consumed, updatedAt := env.now));
    }
  }

  lemma ApplyUsageAlike(a: World, b: World, env: Env, sid: string, up: int, down: int)
    requires Owned(a.db, sid) && Owned(b.db, sid) && Alike(a, b, env.now)
    requires !Lapsed(a.db, a.db.sessions[sid].tokenId, env.now)
    ensures var ra, rb := ApplyUsage(a, env, sid, up, down), ApplyUsage(b, env, sid, up, down);
            ra.result == rb.result && Alike(ra.world, rb.world, env.now)
  {
    var s := a.db.sessions[sid];
    assert s == b.db.sessions[sid];
    if s.status == Live {
      var t := a.db.tokens[s.tokenId];
      assert t == b.db.tokens[s.tokenId];
      ApplyUsageForm(a, env, sid, up, down);
      ApplyUsageForm(b, env, sid, up, down);
      var c := Counted(s, a.db.plans[t.planId], up, down, env.now);
      SavedSessionAlike(a, b, c, env.now);
      SavedTokenAlike(SaveSession(a, c), SaveSession(b, c), t.(status := Consumed, updatedAt := env.now), env.now);
    }
  }

  /** The disconnect after a usage update concerns the session that was updated. */
  ghost predicate Concerns(r: Reply<UsageUpdate>, sid: string) {
    r.result.Ok? && r.result.value.disconnect.Some? ==> r.result.value.session.id == sid
  }

  lemma ThenDisconnectTouches(w: World, r: Reply<UsageUpdate>, env: Env, sid: string)
    requires Keyed(r.world.db) && env.failing == {} && sid in w.db.sessions
    requires Touches(w, r.world, w.db.sessions[sid].tokenId) && Concerns(r, sid)
    ensures Touches(w, ThenDisconnect(r, env).world, w.db.sessions[sid].tokenId)
  {
    if r.result.Ok? && r.result.value.disconnect.Some? {
      assert SameOwner(w.db.sessions[sid], r.world.db.sessions[sid]);
      DisconnectTouches(r.world, env, sid, r.result.value.disconnect.value, true);
      TouchesTwice(w, r.world, ThenDisconnect(r, env).world, w.db.sessions[sid].tokenId);
    }
  }

  lemma ThenDisconnectAlike(ra: Reply<UsageUpdate>, rb: Reply<UsageUpdate>, env: Env)
    requires Keyed(ra.world.db) && Keyed(rb.world.db) && env.failing == {}
    requires ra.result == rb.result && Alike(ra.world, rb.world, env.now)
    ensures Alike(ThenDisconnect(ra, env).world, ThenDisconnect(rb, env).world, env.now)
  {
    if ra.result.Ok? && ra.result.value.disconnect.Some? {
      DisconnectAlike(ra.world, rb.world, env, ra.result.value.session.id, ra.result.value.disconnect.value, true,
                      env.now);
    }
  }

  lemma ApplyUsageConcerns(w: World, env: Env, sid: string, up: int, down: int)
    requires Keyed(w.db)
    ensures Concerns(ApplyUsage(w, env, sid, up, down), sid)
  {
  }

  lemma InterimTouches(w: World, env: Env, sid: string, up: int, down: int)
    requires Valid(w.db) && sid in w.db.sessions && env.failing == {}
    ensures Touches(w, Interim(w, env, sid, up, down).world, w.db.sessions[sid].tokenId)
  {
    StoredIsOwned(w.db, sid);
    ApplyUsageTouches(w, env, sid, up, down);
    ApplyUsageKeepsValid(w, env, sid, up, down);
    ApplyUsageConcerns(w, env, sid, up, down);
    ThenDisconnectTouches(w, ApplyUsage(w, env, sid, up, down), env, sid);
  }

  lemma InterimAlike(a: World, b: World, env: Env, sid: string, up: int, down: int)
    requires Valid(a.db) && Valid(b.db) && Alike(a, b, env.now) && env.failing == {}
    ensures Alike(Interim(a, env, sid, up, down).world, Interim(b, env, sid, up, down).world, env.now)
  {
    if sid in a.db.sessions {
      var tid := a.db.sessions[sid].tokenId;
      assert SameOwner(a.db.sessions[sid], b.db.sessions[sid]);
      if Lapsed(a.db, tid, env.now) {
        InterimTouches(a, env, sid, up, down);
        InterimTouches(b, env, sid, up, down);
        LapsedTouchKeepsAlike(a, b, Interim(a, env, sid, up, down).world, Interim(b, env, sid, up, down).world, tid,
                              env.now);
      } else {
        StoredIsOwned(a.db, sid);
        StoredIsOwned(b.db, sid);
        ApplyUsageAlike(a, b, env, sid, up, down);
        ApplyUsageKeepsValid(a, env, sid, up, down);
        ApplyUsageKeepsValid(b, env, sid, up, down);
        ThenDisconnectAlike(ApplyUsage(a, env, sid, up, down), ApplyUsage(b, env, sid, up, down), env);
      }
    }
  }

  lemma CountTouches(w: World, env: Env, sid: string, upTotal: int, downTotal: int)
    requires Valid(w.db) && sid in w.db.sessions
    ensures var r := CountTotals(w, env, w.db.sessions[sid], upTotal, downTotal);
            && Touches(w, r.world, w.db.sessions[sid].tokenId) && Concerns(r, sid) && Keyed(r.world.db)
            && (r.result.Ok? ==> r.result.value.session.id == sid)
  {
    var s := w.db.sessions[sid];
    StoredIsOwned(w.db, sid);
    ApplyUsageTouches(w, env, sid, Growth(upTotal, s.bytesUp), Growth(downTotal, s.bytesDown));
    TouchesItself(w, s.tokenId);
  }

  lemma StopAfterTouches(w: World, counted: Reply<UsageUpdate>, env: Env, sid: string, stopReason: string)
    requires Keyed(counted.world.db) && sid in w.db.sessions && Touches(w, counted.world, w.db.sessions[sid].tokenId)
    requires counted.result.Ok? && counted.result.value.session.id == sid
    ensures var r := StopAfter(counted, env, stopReason);
            Touches(w, r.world, w.db.sessions[sid].tokenId) && Concerns(r, sid) && Keyed(r.world.db)
  {
    assert SameOwner(w.db.sessions[sid], counted.world.db.sessions[sid]);
    StopTouches(counted.world, env, sid, Or(stopReason, "radius_stop"));
    TouchesTwice(w, counted.world, StopAfter(counted, env, stopReason).world, w.db.sessions[sid].tokenId);
  }

  lemma HandleRadiusTouches(w: World, env: Env, sid: string, req: RadiusInput)
    requires Valid(w.db) && sid in w.db.sessions
    ensures var r := HandleRadius(w, env, Some(sid), req);
            Touches(w, r.world, w.db.sessions[sid].tokenId) && Concerns(r, sid) && Keyed(r.world.db)
  {
    var s := w.db.sessions[sid];
    if req.kind == StartPacket {
      SaveTouches(w, HandleRadius(w, env, Some(sid), req).result.value.session);
    } else if s.status != Live {
      TouchesItself(w, s.tokenId);
    } else {
      CountTouches(w, env, sid, req.upTotal, req.downTotal);
      var counted := CountTotals(w, env, s, req.upTotal, req.downTotal);
      if counted.result.Ok? && req.kind == StopPacket && counted.result.value.session.status == Live {
        StopAfterTouches(w, counted, env, sid, req.stopReason);
      }
    }
  }

  lemma HandleRadiusAlike(a: World, b: World, env: Env, sid: string, req: RadiusInput)
    requires Valid(a.db) && Valid(b.db) && Alike(a, b, env.now)
    requires sid in a.db.sessions && !Lapsed(a.db, a.db.sessions[sid].tokenId, env.now)
    ensures var ra, rb := HandleRadius(a, env, Some(sid), req), HandleRadius(b, env, Some(sid), req);
            ra.result == rb.result && Alike(ra.world, rb.world, env.now)
  {
    var s := a.db.sessions[sid];
    assert s == b.db.sessions[sid];
    if req.kind == StartPacket {
      SavedSessionAlike(a, b, HandleRadius(a, env, Some(sid), req).result.value.session, env.now);
    } else if s.status == Live {
      StoredIsOwned(a.db, sid);
      StoredIsOwned(b.db, sid);
      ApplyUsageAlike(a, b, env, sid, Growth(req.upTotal, s.bytesUp), Growth(req.downTotal, s.bytesDown));
      var ca, cb := CountTotals(a, env, s, req.upTotal, req.downTotal),
          CountTotals(b, env, s, req.upTotal, req.downTotal);
      assert ca.result == cb.result && Alike(ca.world, cb.world, env.now);
      if ca.result.Ok? && req.kind == StopPacket && ca.result.value.session.status == Live {
        CountTouches(a, env, sid, req.upTotal, req.downTotal);
        CountTouches(b, env, sid, req.upTotal, req.downTotal);
        StopAfterAlike(a, ca, cb, env, sid, req.stopReason);
      }
    }
  }

  lemma StopAfterAlike(w: World, ca: Reply<UsageUpdate>, cb: Reply<UsageUpdate>, env: Env, sid: string,
                       stopReason: string)
    requires Keyed(ca.world.db) && Keyed(cb.world.db) && Alike(ca.world, cb.world, env.now)
    requires ca.result == cb.result && ca.result.Ok? && ca.result.value.session.id == sid
    requires sid in w.db.sessions && Touches(w, ca.world, w.db.sessions[sid].tokenId)
    requires !Lapsed(w.db, w.db.sessions[sid].tokenId, env.now)
    ensures var ra, rb := StopAfter(ca, env, stopReason), StopAfter(cb, env, stopReason);
            ra.result == rb.result && Alike(ra.world, rb.world, env.now)
  {
    var tid := w.db.sessions[sid].tokenId;
    assert SameOwner(w.db.sessions[sid], ca.world.db.sessions[sid]);
    assert tid in w.db.tokens ==> SameVoucher(w.db.tokens[tid], ca.world.db.tokens[tid]);
    assert ca.world.db.sessions[sid] == cb.world.db.sessions[sid];
    StopAlike(ca.world, cb.world, env, sid, Or(stopReason, "radius_stop"));
  }

  /** A packet followed by the disconnect it may call for. */
  ghost function Packet(w: World, env: Env, sid: string, req: RadiusInput): World
    requires sid in w.db.sessions
  {
    ThenDisconnect(HandleRadius(w, env, Some(sid), req), env).world
  }

  lemma PacketTouches(w: World, env: Env, sid: string, req: RadiusInput)
    requires Valid(w.db) && sid in w.db.sessions && env.failing == {}
    ensures Touches(w, Packet(w, env, sid, req), w.db.sessions[sid].tokenId)
  {
    HandleRadiusTouches(w, env, sid, req);
    ThenDisconnectTouches(w, HandleRadius(w, env, Some(sid), req), env, sid);
  }

  lemma PacketSame(a: World, b: World, env: Env, sid: string, req: RadiusInput)
    requires Valid(a.db) && Valid(b.db) && Alike(a, b, env.now) && env.failing == {}
    requires sid in a.db.sessions && !Lapsed(a.db, a.db.sessions[sid].tokenId, env.now)
    ensures Alike(Packet(a, env, sid, req), Packet(b, env, sid, req), env.now)
  {
    HandleRadiusTouches(a, env, sid, req);
    HandleRadiusTouches(b, env, sid, req);
    HandleRadiusAlike(a, b, env, sid, req);
    ThenDisconnectAlike(HandleRadius(a, env, Some(sid), req), HandleRadius(b, env, Some(sid), req), env);
  }

  lemma PacketAlike(a: World, b: World, env: Env, sid: string, req: RadiusInput)
    requires Valid(a.db) && Valid(b.db) && Alike(a, b, env.now) && env.failing == {} && sid in a.db.sessions
    ensures Alike(Packet(a, env, sid, req), Packet(b, env, sid, req), env.now)
  {
    var tid := a.db.sessions[sid].tokenId;
    assert SameOwner(a.db.sessions[sid], b.db.sessions[sid]);
    if Lapsed(a.db, tid, env.now) {
      PacketTouches(a, env, sid, req);
      PacketTouches(b, env, sid, req);
      LapsedTouchKeepsAlike(a, b, Packet(a, env, sid, req), Packet(b, env, sid, req), tid, env.now);
    } else {
      PacketSame(a, b, env, sid, req);
    }
  }

  lemma AccountIsPacket(w: World, env: Env, sid: string, e: AccountingEvent)
    requires e.kind != NoStatus && sid in w.db.sessions
    ensures Account(w, env, Some(sid), e).world == Packet(w, env, sid, ToInput(e))
  {
  }

  lemma AccountAlike(a: World, b: World, env: Env, found: Option<string>, e: AccountingEvent)
    requires Valid(a.db) && Valid(b.db) && Alike(a, b, env.now) && env.failing == {}
    requires found.Some? ==> found.value in a.db.sessions
    ensures Alike(Account(a, env, found, e).world, Account(b, env, found, e).world, env.now)
  {
    if e.kind != NoStatus && found.Some? {
      AccountIsPacket(a, env, found.value, e);
      AccountIsPacket(b, env, found.value, e);
      PacketAlike(a, b, env, found.value, ToInput(e));
    }
  }

  // ---- The remaining operations ----

  lemma {:induction false} IssueAlike(hash: string -> string, a: World, b: World, now: Time, planId: string,
                                      notes: string, missing: nat, draws: seq<Draw>)
    requires Alike(a, b, now)
    ensures Alike(Issue(hash, a, now, planId, notes, missing, draws).world,
                  Issue(hash, b, now, planId, notes, missing, draws).world, now)
    decreases |draws|
  {
    if missing != 0 && draws != [] && draws[0].Drawn? {
      var t := NewToken(draws[0].id, planId, hash(draws[0].code), notes, now);
      if t.id in a.db.tokens || t.codeHash in a.db.byHash {
        IssueAlike(hash, a, b, now, planId, notes, missing, draws[1..]);
      } else {
        SavedTokenAlike(a, b, t, now);
        IssueAlike(hash, SaveToken(a, t), SaveToken(b, t), now, planId, notes, missing - 1, draws[1..]);
      }
    }
  }

  lemma RetryAlike(a: World, b: World, env: Env, index: nat, again: bool)
    requires Keyed(a.db) && Keyed(b.db) && Alike(a, b, env.now) && env.failing == {} && index < |a.queue|
    ensures Alike(RetryTask(a, env, index, again), RetryTask(b, env, index, again), env.now)
  {
    var task, queue := a.queue[index], a.queue[..index] + a.queue[index + 1..];
    DisconnectAlike(a.(queue := queue), b.(queue := queue), env, task.sessionId, task.reason, true, env.now);
  }

  /** A sweep changes nothing that matters: it only touches tokens past their expiry instant. */
  lemma SweepUnseen(a: World, b: World, env: Env, list: seq<Token>)
    requires Alike(a, b, env.now) && Valid(b.db) && CurrentTokens(list, b.db) && env.failing == {}
    ensures Alike(a, Sweep(b, env, list).world, env.now)
  {
    var done := SweepIsSwept(b, env, list);
    assert Sweep(b, env, list).finished;
    SweptUnseen(a, b, env, done);
  }

  lemma SweptUnseen(a: World, b: World, env: Env, ids: set<string>)
    requires Alike(a, b, env.now)
    ensures Alike(a, Swept(b, env, ids), env.now)
  {
    var after := Swept(b, env, ids);
    AlikeSymmetric(a, b, env.now);
    forall k | k in a.db.sessions
      ensures SameOwner(a.db.sessions[k], after.db.sessions[k])
      ensures a.db.sessions[k].tokenId !in LapsedSet(a.db, env.now) ==> a.db.sessions[k] == after.db.sessions[k]
    {
      assert SameOwner(a.db.sessions[k], b.db.sessions[k]);
      if Lapses(b.db, env.now, ids, b.db.sessions[k]) {
        assert b.db.sessions[k].tokenId in LapsedSet(b.db, env.now);
      }
    }
    forall k | k in a.db.tokens
      ensures SameVoucher(a.db.tokens[k], after.db.tokens[k])
      ensures k !in LapsedSet(a.db, env.now) ==> a.db.tokens[k] == after.db.tokens[k]
    {
      assert SameVoucher(a.db.tokens[k], b.db.tokens[k]);
      if b.db.tokens[k].Due(env.now) {
        assert k in LapsedSet(b.db, env.now);
      }
    }
  }

  /** Nor does a recovery: in a valid store it closes only sessions of tokens past their expiry instant. */
  lemma RecoverUnseen(a: World, b: World, env: Env, list: seq<Session>)
    requires Alike(a, b, env.now) && Valid(b.db) && ListsActive(list, b.db.sessions) && env.failing == {}
    ensures Alike(a, Recover(b, env, list).world, env.now)
  {
    var stale, after := StaleSessions(b.db, env.now), Recover(b, env, list).world;
    RecoverExact(b, env, list);
    assert Retries(env, stale) == {};
    assert after.queue == b.queue by {
      assert |after.queue[|b.queue|..]| == |multiset(after.queue[|b.queue|..])| == 0;
    }
    forall k | k in stale
      ensures Lapsed(b.db, b.db.sessions[k].tokenId, env.now)
    {
      StaleMeansPast(b.db, env.now, k);
    }
    RecoveredUnseen(a, b, env, stale);
    assert after == Recovered(b, env, stale);
  }

  lemma RecoveredUnseen(a: World, b: World, env: Env, ids: set<string>)
    requires Alike(a, b, env.now)
    requires forall k | k in ids && k in b.db.sessions :: Lapsed(b.db, b.db.sessions[k].tokenId, env.now)
    ensures Alike(a, Recovered(b, env, ids), env.now)
  {
    AlikeSymmetric(a, b, env.now);
    forall k | k in a.db.sessions
      ensures SameOwner(a.db.sessions[k], Recovered(b, env, ids).db.sessions[k])
      ensures a.db.sessions[k].tokenId !in LapsedSet(a.db, env.now) ==>
                a.db.sessions[k] == Recovered(b, env, ids).db.sessions[k]
    {
      assert SameOwner(a.db.sessions[k], b.db.sessions[k]);
      if k in ids {
        assert b.db.sessions[k].tokenId in LapsedSet(b.db, env.now);
      }
    }
  }

  // ---- Runs ----

  /** What a client gets to see of a step. */
  datatype Seen = Redeemed(result: Result<RedeemResult>) | Authenticated(decision: Decision)

  ghost function Observe(hash: string -> string, w: World, env: Env, step: Step): seq<Seen> {
    match step
    case RedeemStep(req, newId) => [Redeemed(Redeem(hash, w, env, req, false, newId).result)]
    case ResumeStep(req, newId) => [Redeemed(Redeem(hash, w, env, req, true, newId).result)]
    case AuthenticateStep(auth, newId, later) =>
      [Authenticated(Authentication(hash, w, env, later, auth, newId).decision)]
    case _ => []
  }

  ghost function Observations(hash: string -> string, w: World, run: seq<Event>): seq<Seen>
    requires Fits(hash, w, run)
    decreases |run|
  {
    if run == [] then []
    else
      Observe(hash, w, run[0].env, run[0].step)
      + Observations(hash, Apply(hash, w, run[0].env, run[0].step), run[1..])
  }

  predicate IsHousekeeping(step: Step) { step.SweepStep? || step.RecoverStep? }

  /** The run with every sweep and every recovery taken out. */
  function WithoutHousekeeping(run: seq<Event>): seq<Event> {
    if run == [] then []
    else if IsHousekeeping(run[0].step) then WithoutHousekeeping(run[1..])
    else [run[0]] + WithoutHousekeeping(run[1..])
  }

  /** The last reading of the clock in an event. */
  function ClockAfter(e: Event): Time {
    if e.step.AuthenticateStep? then e.step.later else e.env.now
  }

  /** The clock does not go back, the gateway answers, and start requests name no token past its expiry instant. */
  ghost predicate Calm(hash: string -> string, w: World, run: seq<Event>, now: Time)
    requires Fits(hash, w, run)
    decreases |run|
  {
    run != [] ==>
      && now <= run[0].env.now <= ClockAfter(run[0]) && run[0].env.failing == {}
      && (run[0].step.StartStep? ==> !Lapsed(w.db, run[0].step.start.tokenId, run[0].env.now))
      && Calm(hash, Apply(hash, w, run[0].env, run[0].step), run[1..], ClockAfter(run[0]))
  }

  /** What a single step has to satisfy in a calm run. */
  ghost predicate CalmStep(w: World, env: Env, step: Step) {
    && env.failing == {} && env.now <= ClockAfter(Event(env, step))
    && (step.StartStep? ==> !Lapsed(w.db, step.start.tokenId, env.now))
  }

  lemma EnabledAlike(a: World, b: World, env: Env, step: Step)
    requires Alike(a, b, env.now) && CalmStep(b, env, step) && !IsHousekeeping(step) && Enabled(b, step)
    ensures Enabled(a, step)
  {
    if step.AccountStep? {
      MatchAlike(a, b, env.now, step.found, step.event);
    }
    if step.StartStep? {
      AlikeSymmetric(a, b, env.now);
      assert step.start.tokenId !in LapsedSet(a.db, env.now);
    }
  }

  /** A start request for a token not past its expiry instant finds the same session on both sides, or none. */
  lemma StartAlike(a: World, b: World, env: Env, req: StartInput, newId: string)
    requires Keyed(a.db) && Keyed(b.db) && SingleActive(a.db) && SingleActive(b.db)
    requires Alike(a, b, env.now) && !Lapsed(b.db, req.tokenId, env.now)
    ensures Alike(StartAccounting(a, env, req, ActiveOf(a.db, req.tokenId), newId).world,
                  StartAccounting(b, env, req, ActiveOf(b.db, req.tokenId), newId).world, env.now)
  {
    AlikeSymmetric(a, b, env.now);
    assert req.tokenId !in LapsedSet(a.db, env.now);
    SameActive(a, b, req.tokenId, env.now);
    var r := StartAccounting(a, env, req, ActiveOf(a.db, req.tokenId), newId);
    if r.result.Ok? {
      SavedSessionAlike(a, b, r.result.value, env.now);
    }
  }

  lemma SeenAlike(hash: string -> string, a: World, b: World, env: Env, step: Step)
    requires Valid(a.db) && Valid(b.db) && Alike(a, b, env.now) && CalmStep(b, env, step)
    ensures Observe(hash, a, env, step) == Observe(hash, b, env, step)
  {
    match step
    case RedeemStep(req, newId) => RedeemAlike(hash, a, b, env, req, false, newId);
    case ResumeStep(req, newId) => RedeemAlike(hash, a, b, env, req, true, newId);
    case AuthenticateStep(auth, newId, later) => AuthenticationAlike(hash, a, b, env, later, auth, newId);
    case _ =>
  }

  /** Steps that start from a voucher. */
  predicate IsVoucherStep(step: Step) {
    step.GenerateStep? || step.RedeemStep? || step.ResumeStep? || step.RevokeStep? || step.AuthenticateStep?
  }

  lemma GenerateAlike(hash: string -> string, a: World, b: World, env: Env, planId: string, count: int, notes: string,
                      draws: seq<Draw>)
    requires Alike(a, b, env.now)
    ensures Alike(Generate(hash, a, env, planId, count, notes, draws).world,
                  Generate(hash, b, env, planId, count, notes, draws).world, env.now)
  {
    if 0 < count {
      IssueAlike(hash, a, b, env.now, planId, notes, count, draws);
    }
  }

  lemma VoucherStepAlike(hash: string -> string, a: World, b: World, env: Env, step: Step)
    requires Valid(a.db) && Valid(b.db) && Alike(a, b, env.now) && CalmStep(b, env, step) && IsVoucherStep(step)
    ensures Alike(Apply(hash, a, env, step), Apply(hash, b, env, step), ClockAfter(Event(env, step)))
  {
    match step
    case GenerateStep(planId, count, notes, draws) => GenerateAlike(hash, a, b, env, planId, count, notes, draws);
    case RedeemStep(req, newId) => RedeemAlike(hash, a, b, env, req, false, newId);
    case ResumeStep(req, newId) => RedeemAlike(hash, a, b, env, req, true, newId);
    case RevokeStep(tokenId, reason) => RevokeAlike(a, b, env, tokenId, reason);
    case AuthenticateStep(auth, newId, later) => AuthenticationAlike(hash, a, b, env, later, auth, newId);
  }

  lemma SessionStepAlike(hash: string -> string, a: World, b: World, env: Env, step: Step)
    requires Valid(a.db) && Valid(b.db) && Alike(a, b, env.now) && CalmStep(b, env, step)
    requires !IsHousekeeping(step) && !IsVoucherStep(step) && Enabled(a, step) && Enabled(b, step)
    ensures Alike(Apply(hash, a, env, step), Apply(hash, b, env, step), ClockAfter(Event(env, step)))
  {
    match step
    case StartStep(start, newId) => StartAlike(a, b, env, start, newId);
    case InterimStep(sessionId, up, down) => InterimAlike(a, b, env, sessionId, up, down);
    case StopStep(sessionId, reason) => StopAlike(a, b, env, sessionId, reason);
    case DisconnectStep(sessionId, reason, force) => DisconnectAlike(a, b, env, sessionId, reason, force, env.now);
    case AccountStep(found, event) => AccountAlike(a, b, env, found, event);
    case RetryStep(index, again) => RetryAlike(a, b, env, index, again);
  }

  lemma StepAlike(hash: string -> string, a: World, b: World, env: Env, step: Step)
    requires Valid(a.db) && Valid(b.db) && Alike(a, b, env.now) && CalmStep(b, env, step)
    requires !IsHousekeeping(step) && Enabled(b, step)
    ensures Enabled(a, step)
    ensures Alike(Apply(hash, a, env, step), Apply(hash, b, env, step), ClockAfter(Event(env, step)))
    ensures Observe(hash, a, env, step) == Observe(hash, b, env, step)
  {
    EnabledAlike(a, b, env, step);
    SeenAlike(hash, a, b, env, step);
    if IsVoucherStep(step) {
      VoucherStepAlike(hash, a, b, env, step);
    } else {
      SessionStepAlike(hash, a, b, env, step);
    }
  }

  lemma MatchAlike(a: World, b: World, now: Time, found: Option<string>, event: AccountingEvent)
    requires Alike(a, b, now) && IsRadiusMatch(b.db, found, event.acctSessionId, event.nasIp)
    ensures IsRadiusMatch(a.db, found, event.acctSessionId, event.nasIp)
  {
    forall k | k in a.db.sessions
      ensures MatchesRadius(a.db.sessions[k], event.acctSessionId, event.nasIp)
          <==> MatchesRadius(b.db.sessions[k], event.acctSessionId, event.nasIp)
    {
      assert SameOwner(a.db.sessions[k], b.db.sessions[k]);
    }
  }

  lemma HousekeepingUnseen(hash: string -> string, a: World, b: World, env: Env, step: Step)
    requires Alike(a, b, env.now) && Valid(b.db) && env.failing == {} && IsHousekeeping(step) && Enabled(b, step)
    ensures Alike(a, Apply(hash, b, env, step), env.now) && Observe(hash, b, env, step) == []
  {
    match step
    case SweepStep(tokens) => SweepUnseen(a, b, env, tokens);
    case RecoverStep(sessions) => RecoverUnseen(a, b, env, sessions);
  }

  lemma {:induction false} AlikeRuns(hash: string -> string, a: World, b: World, run: seq<Event>, now: Time)
    requires Valid(a.db) && Valid(b.db) && Alike(a, b, now) && Fits(hash, b, run) && Calm(hash, b, run, now)
    ensures Fits(hash, a, WithoutHousekeeping(run))
    ensures Observations(hash, a, WithoutHousekeeping(run)) == Observations(hash, b, run)
    decreases |run|
  {
    if run == [] {
    } else {
      var env, step, clock := run[0].env, run[0].step, ClockAfter(run[0]);
      AlikeLater(a, b, now, env.now);
      var b1 := Apply(hash, b, env, step);
      StepKeepsValid(hash, b, env, step);
      if IsHousekeeping(step) {
        HousekeepingUnseen(hash, a, b, env, step);
        AlikeRuns(hash, a, b1, run[1..], clock);
      } else {
        StepAlike(hash, a, b, env, step);
        StepKeepsValid(hash, a, env, step);
        AlikeRuns(hash, Apply(hash, a, env, step), b1, run[1..], clock);
        var rest := WithoutHousekeeping(run[1..]);
        assert WithoutHousekeeping(run) == [run[0]] + rest && ([run[0]] + rest)[1..] == rest;
      }
    }
  }

  /**
   Taking every sweep and every recovery out of a run changes no answer to any redeem, resume or
   authentication: expiry on demand is as good as eager expiry.
   */
  lemma LazyEqualsEager(hash: string -> string, w: World, run: seq<Event>, now: Time)
    requires Valid(w.db) && Fits(hash, w, run) && Calm(hash, w, run, now)
    ensures Fits(hash, w, WithoutHousekeeping(run))
    ensures Observations(hash, w, WithoutHousekeeping(run)) == Observations(hash, w, run)
  {
    AlikeRuns(hash, w, w, run, now);
  }
}
