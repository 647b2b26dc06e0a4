/** One voucher, one device: whatever happens between two uses of a token. */
module Devices {
  import opened Domain
  import opened Keys
  import opened Store
  import opened Gateway
  import opened Tokens
  import opened RadiusServices
  import opened Machine
  import opened Claims

  ghost predicate Grant(r: Reply<RedeemResult>, address: string, tid: string, mac: string) {
    r.result.Ok? && r.result.value.token.id == tid && CanonicalMac(address) == Some(mac)
  }

  /** The event is a redeem, resume or authentication that gives the device access on the token. */
  ghost predicate Admits(hash: string -> string, w: World, e: Event, tid: string, mac: string) {
    match e.step
    case RedeemStep(req, newId) => Grant(Redeem(hash, w, e.env, req, false, newId), req.deviceMac, tid, mac)
    case ResumeStep(req, newId) => Grant(Redeem(hash, w, e.env, req, true, newId), req.deviceMac, tid, mac)
    case AuthenticateStep(auth, newId, later) =>
      var d := Authentication(hash, w, e.env, later, auth, newId).decision;
      d.Allow? && d.session.tokenId == tid && CanonicalMac(auth.callingStation) == Some(mac)
    case _ => false
  }

  ghost predicate BelongsTo(db: Db, tid: string, mac: string) {
    tid in db.tokens && db.tokens[tid].usedBy == Some(mac)
  }

  lemma GrantBinds(hash: string -> string, w: World, env: Env, req: RedeemInput, requireActive: bool, newId: string,
                   tid: string, mac: string)
    requires Valid(w.db) && Grant(Redeem(hash, w, env, req, requireActive, newId), req.deviceMac, tid, mac)
    ensures BelongsTo(Redeem(hash, w, env, req, requireActive, newId).world.db, tid, mac)
  {
    RedeemGrants(hash, w, env, req, requireActive, newId);
  }

  lemma AdmittedBelongs(hash: string -> string, w: World, e: Event, tid: string, mac: string)
    requires Valid(w.db) && Enabled(w, e.step) && Admits(hash, w, e, tid, mac)
    ensures BelongsTo(Apply(hash, w, e.env, e.step).db, tid, mac)
  {
    match e.step
    case RedeemStep(req, newId) => GrantBinds(hash, w, e.env, req, false, newId, tid, mac);
    case ResumeStep(req, newId) => GrantBinds(hash, w, e.env, req, true, newId, tid, mac);
    case AuthenticateStep(auth, newId, later) =>
      var at, redeem := Deciding(hash, w, e.env, later, auth, newId), AsRedeem(auth, auth.callingStation);
      AuthenticateIsRedeem(hash, w, e.env, later, auth, newId);
      RedeemGrants(hash, w, at, redeem, false, newId);
      GrantBinds(hash, w, at, redeem, false, newId, tid, mac);
  }

  lemma BelongsNext(hash: string -> string, w: World, e: Event, tid: string, mac: string)
    requires Valid(w.db) && Enabled(w, e.step) && BelongsTo(w.db, tid, mac)
    ensures BelongsTo(Apply(hash, w, e.env, e.step).db, tid, mac)
  {
    StepKeepsValid(hash, w, e.env, e.step);
    assert TokenEvolves(w.db.tokens[tid], Apply(hash, w, e.env, e.step).db.tokens[tid]);
  }

  lemma AdmittedIsOwner(hash: string -> string, w: World, e: Event, tid: string, a: string, b: string)
    requires Valid(w.db) && Enabled(w, e.step) && BelongsTo(w.db, tid, a) && Admits(hash, w, e, tid, b)
    ensures a == b
  {
    BelongsNext(hash, w, e, tid, a);
    AdmittedBelongs(hash, w, e, tid, b);
  }

  lemma BelongsLater(hash: string -> string, w: World, run: seq<Event>, tid: string, mac: string)
    requires Valid(w.db) && Fits(hash, w, run) && BelongsTo(w.db, tid, mac)
    ensures BelongsTo(Play(hash, w, run).db, tid, mac)
  {
    TokensMoveForward(hash, w, run, tid);
  }

  /**
   Whoever is given access on a token, by redeem, resume or RADIUS, and whatever run lies between, is one and
   the same device.
   */
  lemma OneDevice(hash: string -> string, w: World, first: Event, run: seq<Event>, second: Event, tid: string,
                  a: string, b: string)
    requires Valid(w.db) && Enabled(w, first.step) && Admits(hash, w, first, tid, a)
    requires var w1 := Apply(hash, w, first.env, first.step);
             && Fits(hash, w1, run)
             && Enabled(Play(hash, w1, run), second.step) && Admits(hash, Play(hash, w1, run), second, tid, b)
    ensures a == b
  {
    var w1 := Apply(hash, w, first.env, first.step);
    assert Valid(w1.db) by {
      StepKeepsValid(hash, w, first.env, first.step);
    }
    AdmittedBelongs(hash, w, first, tid, a);
    OwnerForGood(hash, w1, run, second, tid, a, b);
  }

  lemma OwnerForGood(hash: string -> string, w: World, run: seq<Event>, e: Event, tid: string, a: string, b: string)
    requires Valid(w.db) && Fits(hash, w, run) && BelongsTo(w.db, tid, a)
    requires Enabled(Play(hash, w, run), e.step) && Admits(hash, Play(hash, w, run), e, tid, b)
    ensures a == b
  {
    BelongsLater(hash, w, run, tid, a);
    assert Valid(Play(hash, w, run).db) by {
      RunKeepsValid(hash, w, run);
    }
    AdmittedIsOwner(hash, Play(hash, w, run), e, tid, a, b);
  }

  // ---- The winner, whatever happens in between ----

  /**
   A redeem of a token in use, with a fresh session identifier: only its device succeeds, no other changes anything.
   */
  lemma ActiveAttempt(hash: string -> string, w: World, tid: string, mac: string, until: Time, a: Attempt)
    requires Keyed(w.db) && Indexed(w.db) && tid in w.db.tokens && BoundTo(w.db.tokens[tid], mac, until)
    requires w.db.tokens[tid].planId in w.db.plans && w.db.plans[w.db.tokens[tid].planId].active
    requires Aims(hash, a, w.db.tokens[tid].codeHash, until) && a.newId !in w.db.sessions
    ensures var r := Try(hash, w, a);
            if CanonicalMac(a.req.deviceMac) == Some(mac) then r.result.Ok? && r.result.value.resumed
            else r == Reply(w, Err(DeviceBound))
  {
    var t := w.db.tokens[tid];
    LookupStored(w.db, tid);
    assert Try(hash, w, a)
        == FurtherUse(w, a.env, t, w.db.plans[t.planId], CanonicalMac(a.req.deviceMac).value, a.req, a.newId);
  }

  /** What a first use fixes about a token for all later worlds. */
  ghost predicate Claimed(db: Db, tid: string, codeHash: string, mac: string, until: Time) {
    && tid in db.tokens && db.tokens[tid].codeHash == codeHash && db.tokens[tid].status.Rank() >= 1
    && db.tokens[tid].usedBy == Some(mac) && db.tokens[tid].expiresAt == Some(until)
    && db.tokens[tid].planId in db.plans && db.plans[db.tokens[tid].planId].active
  }

  lemma ClaimedLater(before: Db, after: Db, tid: string, codeHash: string, mac: string, until: Time)
    requires Claimed(before, tid, codeHash, mac, until) && Evolves(before, after)
    ensures Claimed(after, tid, codeHash, mac, until)
  {
    assert TokenEvolves(before.tokens[tid], after.tokens[tid]);
  }

  lemma FirstClaims(hash: string -> string, w: World, t: Token, a: Attempt, mac: string, until: Time)
    requires Keyed(w.db) && Indexed(w.db) && t.id in w.db.tokens && w.db.tokens[t.id] == t && a.newId !in w.db.sessions
    requires t.status == Unused && t.expiresAt.None?
    requires t.planId in w.db.plans && w.db.plans[t.planId].active
             && until == a.env.now + w.db.plans[t.planId].Lifetime()
    requires Aims(hash, a, t.codeHash, until) && CanonicalMac(a.req.deviceMac) == Some(mac)
    ensures Claimed(Try(hash, w, a).world.db, t.id, t.codeHash, mac, until)
  {
    FirstWins(hash, w, t, a);
  }

  lemma ClaimedRun(hash: string -> string, w: World, run: seq<Event>, tid: string, codeHash: string, mac: string,
                   until: Time)
    requires Valid(w.db) && Fits(hash, w, run) && Claimed(w.db, tid, codeHash, mac, until)
    ensures var db := Play(hash, w, run).db; Keyed(db) && Indexed(db) && Claimed(db, tid, codeHash, mac, until)
  {
    RunKeepsValid(hash, w, run);
    ClaimedLater(w.db, Play(hash, w, run).db, tid, codeHash, mac, until);
  }

  /** The answer to a redeem of a claimed token: granted exactly to its device while nothing has ended the token. */
  ghost predicate Answered(w: World, tid: string, r: Reply<RedeemResult>, same: bool) {
    && tid in w.db.tokens
    && (r.result.Ok? <==> w.db.tokens[tid].status == Active && same)
    && (w.db.tokens[tid].status == Active && !same ==> r == Reply(w, Err(DeviceBound)))
  }

  lemma ClaimedAttempt(hash: string -> string, w: World, tid: string, codeHash: string, mac: string, until: Time,
                       b: Attempt)
    requires Keyed(w.db) && Indexed(w.db) && Claimed(w.db, tid, codeHash, mac, until)
    requires Aims(hash, b, codeHash, until) && b.newId !in w.db.sessions
    ensures Answered(w, tid, Try(hash, w, b), CanonicalMac(b.req.deviceMac) == Some(mac))
  {
    if w.db.tokens[tid].status == Active {
      ActiveAttempt(hash, w, tid, mac, until, b);
    } else if Try(hash, w, b).result.Ok? {
      LookupStored(w.db, tid);
      RedeemedWasOpen(hash, w, b.env, b.req, false, b.newId);
    }
  }

  lemma ClaimedForGood(hash: string -> string, w: World, run: seq<Event>, tid: string, codeHash: string, mac: string,
                       until: Time, b: Attempt)
    requires Valid(w.db) && Fits(hash, w, run) && Claimed(w.db, tid, codeHash, mac, until)
    requires Aims(hash, b, codeHash, until) && b.newId !in Play(hash, w, run).db.sessions
    ensures var end := Play(hash, w, run);
            Answered(end, tid, Try(hash, end, b), CanonicalMac(b.req.deviceMac) == Some(mac))
  {
    ClaimedRun(hash, w, run, tid, codeHash, mac, until);
    ClaimedAttempt(hash, Play(hash, w, run), tid, codeHash, mac, until, b);
  }

  /**
   Single winner with anything in between: the first redeem of an unused token binds its device, and after
   any run a well-formed redeem of that token before its expiry succeeds exactly when it comes from that
   device and nothing has ended the token; while it is active, others are told so and change nothing.
   */
  lemma WinnerForGood(hash: string -> string, w: World, t: Token, a: Attempt, mac: string, until: Time, run: seq<Event>,
                      b: Attempt)
    requires Valid(w.db) && t.id in w.db.tokens && w.db.tokens[t.id] == t && t.status == Unused
             && a.newId !in w.db.sessions
    requires t.planId in w.db.plans && w.db.plans[t.planId].active
             && until == a.env.now + w.db.plans[t.planId].Lifetime()
    requires Aims(hash, a, t.codeHash, until) && CanonicalMac(a.req.deviceMac) == Some(mac)
    requires Fits(hash, Try(hash, w, a).world, run) && Aims(hash, b, t.codeHash, until)
    requires b.newId !in Play(hash, Try(hash, w, a).world, run).db.sessions
    ensures var end := Play(hash, Try(hash, w, a).world, run);
            Answered(end, t.id, Try(hash, end, b), CanonicalMac(b.req.deviceMac) == Some(mac))
  {
    var w1 := Try(hash, w, a).world;
    assert Valid(w1.db) by {
      RedeemKeepsValid(hash, w, a.env, a.req, false, a.newId);
    }
    assert Claimed(w1.db, t.id, t.codeHash, mac, until) by {
      assert TokenOk(w.db, t);
      FirstClaims(hash, w, t, a, mac, until);
    }
    ClaimedForGood(hash, w1, run, t.id, t.codeHash, mac, until, b);
  }
}
