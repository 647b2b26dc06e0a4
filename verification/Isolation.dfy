/** One voucher's business is not another's: which records an operation may rewrite. */
module Isolation {
  import opened Domain
  import opened Store
  import opened Gateway
  import opened Quota
  import opened Sessions
  import opened Tokens
  import opened Sweeping
  import opened Recovery
  import opened RadiusServices
  import opened Machine

  /** Usage records are only added, and only to this token. */
  ghost predicate OnlyCounts(a: Db, b: Db, tid: string) {
    a.usage <= b.usage && forall i | |a.usage| <= i < |b.usage| :: b.usage[i].tokenId == tid
  }

  /** Nothing outside one token, its sessions and its usage is different, and no other record appeared or went. */
  ghost predicate OnlyOf(a: Db, b: Db, tid: string) {
    && a.plans == b.plans && a.byHash == b.byHash && a.tokens.Keys == b.tokens.Keys
    && (forall k | k in a.tokens && k != tid :: a.tokens[k] == b.tokens[k])
    && (forall k | k in a.sessions :: k in b.sessions && a.sessions[k].tokenId == b.sessions[k].tokenId)
    && (forall k | k in a.sessions && a.sessions[k].tokenId != tid :: a.sessions[k] == b.sessions[k])
    && (forall k | k in b.sessions && k !in a.sessions :: b.sessions[k].tokenId == tid)
    && OnlyCounts(a, b, tid)
  }

  lemma OnlyOfNothing(db: Db, tid: string)
    ensures OnlyOf(db, db, tid)
  {
  }

  lemma OnlyOfTwice(a: Db, b: Db, c: Db, tid: string)
    requires OnlyOf(a, b, tid) && OnlyOf(b, c, tid)
    ensures OnlyOf(a, c, tid)
  {
  }

  lemma PutSessionOnly(db: Db, s: Session)
    requires s.id in db.sessions ==> db.sessions[s.id].tokenId == s.tokenId
    ensures OnlyOf(db, PutSession(db, s), s.tokenId)
  {
  }

  lemma PutTokenOnly(db: Db, t: Token)
    requires Indexed(db) && t.id in db.tokens && t.codeHash == db.tokens[t.id].codeHash
    ensures OnlyOf(db, PutToken(db, t), t.id)
  {
    RetireIndex(db, t);
  }

  lemma DisconnectOnly(w: World, env: Env, sid: string, reason: string, force: bool)
    requires Keyed(w.db) && SessionsOk(w.db) && sid in w.db.sessions
    ensures OnlyOf(w.db, DisconnectSession(w, env, sid, reason, force).world.db, w.db.sessions[sid].tokenId)
  {
    assert SessionOk(w.db, w.db.sessions[sid]);
    var s := DisconnectEffect(w, env, sid, reason, force);
    PutSessionOnly(w.db, s);
  }

  lemma RetireOnly(w: World, env: Env, t: Token, reason: string)
    requires Keyed(w.db) && Indexed(w.db) && SingleActive(w.db) && reason != ""
    requires t.id in w.db.tokens && t.codeHash == w.db.tokens[t.id].codeHash
    ensures OnlyOf(w.db, RetireToken(w, env, t, reason).world.db, t.id)
  {
    RetireTokenEffect(w, env, t, reason);
    var o := ActiveOf(w.db, t.id);
    if o.None? {
      PutTokenOnly(w.db, t);
    } else {
      var closed := o.value.Close(env.now, reason, o.value.id in env.failing);
      PutSessionOnly(w.db, closed);
      PutTokenOnly(PutSession(w.db, closed), t);
      OnlyOfTwice(w.db, PutSession(w.db, closed), PutToken(PutSession(w.db, closed), t), t.id);
    }
  }

  lemma FirstUseOnly(w: World, env: Env, t: Token, plan: Plan, mac: string, req: RedeemInput, newId: string)
    requires Indexed(w.db) && t.id in w.db.tokens && w.db.tokens[t.id] == t
    ensures OnlyOf(w.db, FirstUse(w, env, t, plan, mac, req, newId).world.db, t.id)
  {
    var used := Activate(t, plan, mac, env.now);
    var db1 := PutToken(w.db, used);
    PutTokenOnly(w.db, used);
    if newId !in w.db.sessions {
      var s := OpenSession(newId, t.id, mac, req, env.now);
      PutSessionOnly(db1, s);
      OnlyOfTwice(w.db, db1, PutSession(db1, s), t.id);
    }
  }

  lemma FurtherUseOnly(w: World, env: Env, t: Token, plan: Plan, mac: string, req: RedeemInput, newId: string)
    requires Keyed(w.db)
    ensures OnlyOf(w.db, FurtherUse(w, env, t, plan, mac, req, newId).world.db, t.id)
  {
    OnlyOfNothing(w.db, t.id);
    var o := ActiveOf(w.db, t.id);
    if o.Some? {
      var sid :| IsActiveOf(w.db, sid, t.id) && w.db.sessions[sid] == o.value;
      PutSessionOnly(w.db, Refresh(o.value, req));
    } else if newId !in w.db.sessions {
      PutSessionOnly(w.db, OpenSession(newId, t.id, mac, req, env.now));
    }
  }

  lemma AdmittedOnly(w: World, env: Env, a: Admission, req: RedeemInput, requireActive: bool, newId: string)
    requires Keyed(w.db) && Indexed(w.db) && SingleActive(w.db)
    requires a.token.id in w.db.tokens && w.db.tokens[a.token.id] == a.token
    ensures OnlyOf(w.db, RedeemAdmitted(w, env, a, req, requireActive, newId).world.db, a.token.id)
  {
    OnlyOfNothing(w.db, a.token.id);
    var checked := EnsureNotExpired(w, env, a.token);
    if checked.result.Err? {
      RetireOnly(w, env, AsExpired(a.token, env.now), "expired");
    } else {
      assert checked.world == w;
      FirstUseOnly(w, env, a.token, a.plan, a.mac, req, newId);
      FurtherUseOnly(w, env, a.token, a.plan, a.mac, req, newId);
    }
  }

  /** A redeem or resume concerns the token that the code names, and no other. */
  lemma RedeemOnly(hash: string -> string, w: World, env: Env, req: RedeemInput, requireActive: bool, newId: string)
    requires Keyed(w.db) && Indexed(w.db) && SingleActive(w.db)
    ensures var after := Redeem(hash, w, env, req, requireActive, newId).world.db;
            var named := Lookup(w.db, hash(req.code));
            if named.None? then after == w.db else OnlyOf(w.db, after, named.value.id)
  {
    var admitted := Admit(hash, w.db, req);
    if admitted.Ok? {
      AdmitFindsStored(hash, w.db, req);
      AdmittedOnly(w, env, admitted.value, req, requireActive, newId);
    } else if Lookup(w.db, hash(req.code)).Some? {
      OnlyOfNothing(w.db, Lookup(w.db, hash(req.code)).value.id);
    }
  }

  lemma RecordOnly(a: Db, b: Db, r: UsageRecord, tid: string)
    requires OnlyOf(a, b, tid) && r.tokenId == tid
    ensures OnlyOf(a, AddRecord(b, r), tid)
  {
  }

  lemma ApplyUsageOnly(w: World, env: Env, sid: string, up: int, down: int)
    requires Valid(w.db) && sid in w.db.sessions
    ensures OnlyOf(w.db, ApplyUsage(w, env, sid, up, down).world.db, w.db.sessions[sid].tokenId)
  {
    var before := w.db.sessions[sid];
    OnlyOfNothing(w.db, before.tokenId);
    if before.status == Live {
      assert SessionOk(w.db, before) && TokenOk(w.db, w.db.tokens[before.tokenId]);
      CountedOnly(w, env, sid, up, down);
    }
  }

  lemma CountedOnly(w: World, env: Env, sid: string, up: int, down: int)
    requires Keyed(w.db) && Indexed(w.db) && sid in w.db.sessions && w.db.sessions[sid].status == Live
    requires w.db.sessions[sid].tokenId in w.db.tokens && w.db.tokens[w.db.sessions[sid].tokenId].planId in w.db.plans
    ensures OnlyOf(w.db, ApplyUsage(w, env, sid, up, down).world.db, w.db.sessions[sid].tokenId)
  {
    ApplyUsageForm(w, env, sid, up, down);
    var t := w.db.tokens[w.db.sessions[sid].tokenId];
    var s := Counted(w.db.sessions[sid], w.db.plans[t.planId], up, down, env.now);
    var r := UsageRecord(sid, s.tokenId, up, down, env.now);
    PutSessionOnly(w.db, s);
    RecordOnly(w.db, PutSession(w.db, s), r, t.id);
    if s.status == Ended {
      var counted, used := AddRecord(PutSession(w.db, s), r), t.(status := Consumed, updatedAt := env.now);
      PutTokenOnly(counted, used);
      OnlyOfTwice(w.db, counted, PutToken(counted, used), t.id);
    }
  }

  lemma ThenDisconnectOnly(a: Db, r: Reply<UsageUpdate>, env: Env, sid: string)
    requires Keyed(r.world.db) && SessionsOk(r.world.db) && sid in a.sessions
             && OnlyOf(a, r.world.db, a.sessions[sid].tokenId)
    requires r.result.Ok? && r.result.value.disconnect.Some? ==> r.result.value.session.id == sid
    ensures OnlyOf(a, ThenDisconnect(r, env).world.db, a.sessions[sid].tokenId)
  {
    if r.result.Ok? && r.result.value.disconnect.Some? {
      DisconnectOnly(r.world, env, sid, r.result.value.disconnect.value, true);
      OnlyOfTwice(a, r.world.db, ThenDisconnect(r, env).world.db, a.sessions[sid].tokenId);
    }
  }

  lemma InterimOnly(w: World, env: Env, sid: string, up: int, down: int)
    requires Valid(w.db) && sid in w.db.sessions
    ensures OnlyOf(w.db, Interim(w, env, sid, up, down).world.db, w.db.sessions[sid].tokenId)
  {
    ApplyUsageOnly(w, env, sid, up, down);
    ApplyUsageKeepsValid(w, env, sid, up, down);
    ThenDisconnectOnly(w.db, ApplyUsage(w, env, sid, up, down), env, sid);
  }

  lemma StopOnly(w: World, env: Env, sid: string, reason: string)
    requires Keyed(w.db) && sid in w.db.sessions
    ensures OnlyOf(w.db, StopSession(w, env, sid, reason).world.db, w.db.sessions[sid].tokenId)
  {
    OnlyOfNothing(w.db, w.db.sessions[sid].tokenId);
    PutSessionOnly(w.db, w.db.sessions[sid].Close(env.now, reason, false));
  }

  lemma CountTotalsOnly(w: World, env: Env, sid: string, upTotal: int, downTotal: int)
    requires Valid(w.db) && sid in w.db.sessions
    ensures var s := w.db.sessions[sid]; var r := CountTotals(w, env, s, upTotal, downTotal);
            OnlyOf(w.db, r.world.db, s.tokenId) && Keyed(r.world.db)
                && (r.result.Ok? ==> r.result.value.session.id == sid)
  {
    var s := w.db.sessions[sid];
    OnlyOfNothing(w.db, s.tokenId);
    ApplyUsageOnly(w, env, sid, Growth(upTotal, s.bytesUp), Growth(downTotal, s.bytesDown));
    ApplyUsageKeepsKeyed(w, env, sid, Growth(upTotal, s.bytesUp), Growth(downTotal, s.bytesDown));
  }

  lemma StopAfterOnly(a: Db, counted: Reply<UsageUpdate>, env: Env, sid: string, stopReason: string)
    requires sid in a.sessions && OnlyOf(a, counted.world.db, a.sessions[sid].tokenId) && Keyed(counted.world.db)
    requires counted.result.Ok? && counted.result.value.session.id == sid
    ensures var r := StopAfter(counted, env, stopReason);
            OnlyOf(a, r.world.db, a.sessions[sid].tokenId) && (r.result.Ok? ==> r.result.value.session.id == sid)
  {
    StopOnly(counted.world, env, sid, Or(stopReason, "radius_stop"));
    OnlyOfTwice(a, counted.world.db, StopAfter(counted, env, stopReason).world.db, a.sessions[sid].tokenId);
  }

  lemma HandleRadiusOnly(w: World, env: Env, sid: string, req: RadiusInput)
    requires Valid(w.db) && sid in w.db.sessions
    ensures var r := HandleRadius(w, env, Some(sid), req);
            && OnlyOf(w.db, r.world.db, w.db.sessions[sid].tokenId)
            && (r.result.Ok? ==> r.result.value.session.id == sid)
  {
    var s := w.db.sessions[sid];
    OnlyOfNothing(w.db, s.tokenId);
    if req.kind == StartPacket {
      PutSessionOnly(w.db, HandleRadius(w, env, Some(sid), req).result.value.session);
    } else if s.status == Live {
      var counted := CountTotals(w, env, s, req.upTotal, req.downTotal);
      CountTotalsOnly(w, env, sid, req.upTotal, req.downTotal);
      if counted.result.Ok? && req.kind == StopPacket && counted.result.value.session.status == Live {
        StopAfterOnly(w.db, counted, env, sid, req.stopReason);
      } else {
        assert HandleRadius(w, env, Some(sid), req) == counted;
      }
    }
  }

  /** A packet's own effect and the disconnect it may call for. */
  lemma PacketOnly(w: World, env: Env, sid: string, req: RadiusInput)
    requires Valid(w.db) && sid in w.db.sessions
    ensures var r := HandleRadius(w, env, Some(sid), req); var tid := w.db.sessions[sid].tokenId;
            OnlyOf(w.db, r.world.db, tid) && OnlyOf(w.db, ThenDisconnect(r, env).world.db, tid)
  {
    var r := HandleRadius(w, env, Some(sid), req);
    assert Keyed(r.world.db) && SessionsOk(r.world.db) by {
      HandleRadiusKeepsValid(w, env, Some(sid), req);
    }
    HandleRadiusOnly(w, env, sid, req);
    ThenDisconnectOnly(w.db, r, env, sid);
  }

  lemma AccountOnly(w: World, env: Env, sid: string, e: AccountingEvent)
    requires Valid(w.db) && sid in w.db.sessions
    ensures OnlyOf(w.db, Account(w, env, Some(sid), e).world.db, w.db.sessions[sid].tokenId)
  {
    if e.kind == NoStatus {
      OnlyOfNothing(w.db, w.db.sessions[sid].tokenId);
    } else {
      PacketOnly(w, env, sid, ToInput(e));
      var r := HandleRadius(w, env, Some(sid), ToInput(e));
      assert Account(w, env, Some(sid), e).world.db == r.world.db
          || Account(w, env, Some(sid), e).world.db == ThenDisconnect(r, env).world.db;
    }
  }

  lemma StartOnly(w: World, env: Env, req: StartInput, newId: string)
    requires Keyed(w.db)
    ensures OnlyOf(w.db, StartAccounting(w, env, req, ActiveOf(w.db, req.tokenId), newId).world.db, req.tokenId)
  {
    OnlyOfNothing(w.db, req.tokenId);
    var o, r := ActiveOf(w.db, req.tokenId), StartAccounting(w, env, req, ActiveOf(w.db, req.tokenId), newId);
    if o.Some? {
      var sid :| IsActiveOf(w.db, sid, req.tokenId) && w.db.sessions[sid] == o.value;
      PutSessionOnly(w.db, r.result.value);
    } else if r.result.Ok? {
      PutSessionOnly(w.db, r.result.value);
    }
  }

  /** The token whose records a step may rewrite; passes over all records and generation concern many. */
  ghost function Concerned(hash: string -> string, w: World, step: Step): Option<string>
    requires Enabled(w, step)
  {
    match step
    case RedeemStep(req, _) => TokenNamed(w.db, hash(req.code))
    case ResumeStep(req, _) => TokenNamed(w.db, hash(req.code))
    case AuthenticateStep(auth, _, _) => TokenNamed(w.db, hash(auth.userName))
    case RevokeStep(tokenId, _) => if tokenId in w.db.tokens then Some(tokenId) else None
    case StartStep(start, _) => Some(start.tokenId)
    case InterimStep(sid, _, _) => OwnerOf(w.db, sid)
    case StopStep(sid, _) => OwnerOf(w.db, sid)
    case DisconnectStep(sid, _, _) => OwnerOf(w.db, sid)
    case AccountStep(found, _) => if found.None? then None else OwnerOf(w.db, found.value)
    case RetryStep(index, _) => OwnerOf(w.db, w.queue[index].sessionId)
    case _ => None
  }

  function TokenNamed(db: Db, codeHash: string): Option<string> {
    var t := Lookup(db, codeHash);
    if t.None? then None else Some(t.value.id)
  }

  function OwnerOf(db: Db, sid: string): Option<string> {
    if sid in db.sessions then Some(db.sessions[sid].tokenId) else None
  }

  predicate IsPass(step: Step) {
    step.GenerateStep? || step.SweepStep? || step.RecoverStep?
  }

  ghost predicate Confined(a: Db, b: Db, concerned: Option<string>) {
    match concerned
    case Some(tid) => OnlyOf(a, b, tid)
    case None => a == b
  }

  lemma VoucherStepConfined(hash: string -> string, w: World, env: Env, step: Step)
    requires Valid(w.db) && Enabled(w, step)
             && (step.RedeemStep? || step.ResumeStep? || step.AuthenticateStep? || step.RevokeStep?)
    ensures Confined(w.db, Apply(hash, w, env, step).db, Concerned(hash, w, step))
  {
    match step
    case RedeemStep(req, newId) => RedeemOnly(hash, w, env, req, false, newId);
    case ResumeStep(req, newId) => RedeemOnly(hash, w, env, req, true, newId);
    case AuthenticateStep(auth, newId, later) =>
      AuthenticateIsRedeem(hash, w, env, later, auth, newId);
      RedeemOnly(hash, w, Deciding(hash, w, env, later, auth, newId), AsRedeem(auth, auth.callingStation), false,
                 newId);
    case RevokeStep(tokenId, reason) =>
      if tokenId in w.db.tokens {
        RetireOnly(w, env, AsRevoked(w.db.tokens[tokenId], reason, env.now), "revoked");
      }
  }

  lemma RetryConfined(w: World, env: Env, index: nat, again: bool)
    requires Keyed(w.db) && SessionsOk(w.db) && index < |w.queue|
    ensures Confined(w.db, RetryTask(w, env, index, again).db, OwnerOf(w.db, w.queue[index].sessionId))
  {
    var task, w1 := w.queue[index], w.(queue := w.queue[..index] + w.queue[index + 1..]);
    if task.sessionId in w.db.sessions {
      DisconnectOnly(w1, env, task.sessionId, task.reason, true);
    }
  }

  lemma SessionStepConfined(hash: string -> string, w: World, env: Env, step: Step)
    requires Valid(w.db) && Enabled(w, step)
    requires step.StartStep? || step.InterimStep? || step.StopStep? || step.DisconnectStep? || step.AccountStep?
             || step.RetryStep?
    ensures Confined(w.db, Apply(hash, w, env, step).db, Concerned(hash, w, step))
  {
    match step
    case StartStep(start, newId) => StartOnly(w, env, start, newId);
    case InterimStep(sid, up, down) => if sid in w.db.sessions { InterimOnly(w, env, sid, up, down); }
    case StopStep(sid, reason) => if sid in w.db.sessions { StopOnly(w, env, sid, reason); }
    case DisconnectStep(sid, reason, force) => if sid in w.db.sessions { DisconnectOnly(w, env, sid, reason, force); }
    case AccountStep(found, event) => if found.Some? { AccountOnly(w, env, found.value, event); }
    case RetryStep(index, again) => RetryConfined(w, env, index, again);
  }

  /**
   Every request rewrites, opens and ends only records of the one token it concerns: the token of the
   code, of the session or of the identifier it names; and a request that names none changes nothing.
   */
  lemma StepConfined(hash: string -> string, w: World, env: Env, step: Step)
    requires Valid(w.db) && Enabled(w, step) && !IsPass(step)
    ensures Confined(w.db, Apply(hash, w, env, step).db, Concerned(hash, w, step))
  {
    if step.RedeemStep? || step.ResumeStep? || step.AuthenticateStep? || step.RevokeStep? {
      VoucherStepConfined(hash, w, env, step);
    } else {
      SessionStepConfined(hash, w, env, step);
    }
  }

  /** No run rewrites a token, its sessions or its usage with events that are none of its business. */
  lemma {:induction false} OthersLeaveAlone(hash: string -> string, w: World, run: seq<Event>, tid: string)
    requires Valid(w.db) && Fits(hash, w, run) && AllElsewhere(hash, w, run, tid)
    ensures SameRecords(w.db, Play(hash, w, run).db, tid)
    decreases |run|
  {
    if run == [] {
    } else {
      var w1 := Apply(hash, w, run[0].env, run[0].step);
      assert Valid(w1.db) by {
        StepKeepsValid(hash, w, run[0].env, run[0].step);
      }
      StepElsewhere(hash, w, run[0].env, run[0].step, tid);
      OthersLeaveAlone(hash, w1, run[1..], tid);
      SameRecordsTwice(w.db, w1.db, Play(hash, w1, run[1..]).db, tid);
    }
  }

  lemma StepElsewhere(hash: string -> string, w: World, env: Env, step: Step, tid: string)
    requires Valid(w.db) && Enabled(w, step) && Elsewhere(hash, w, env, step, tid)
    ensures SameRecords(w.db, Apply(hash, w, env, step).db, tid)
  {
    match step
    case SweepStep(tokens) => SweepElsewhere(w, env, tokens, tid);
    case RecoverStep(sessions) => RecoverElsewhere(w, env, sessions, tid);
    case GenerateStep(planId, count, notes, draws) => GenerateElsewhere(hash, w, env, planId, count, notes, draws, tid);
    case _ =>
      StepConfined(hash, w, env, step);
      ConfinedElsewhere(w.db, Apply(hash, w, env, step).db, Concerned(hash, w, step), tid);
  }

  /** A sweep, completed or cut short, leaves alone every token that is not due. */
  lemma SweepElsewhere(w: World, env: Env, list: seq<Token>, tid: string)
    requires Valid(w.db) && ListsTokens(list, w.db.tokens) && tid !in DueTokens(w.db, env.now)
    ensures SameRecords(w.db, Sweep(w, env, list).world.db, tid)
  {
    var done := SweepIsSwept(w, env, list);
    ListedIds(w.db, env.now, list);
    assert Sweep(w, env, list).world.db == Swept(w, env, done).db;
    SweptElsewhere(w, env, done, tid);
  }

  lemma SweptElsewhere(w: World, env: Env, ids: set<string>, tid: string)
    requires tid !in ids
    ensures SameRecords(w.db, Swept(w, env, ids).db, tid)
  {
  }

  /** A recovery, whatever the gateway refuses, leaves alone every token none of whose sessions is stale. */
  lemma RecoverElsewhere(w: World, env: Env, list: seq<Session>, tid: string)
    requires ListsActive(list, w.db.sessions)
    requires forall k | k in StaleSessions(w.db, env.now) :: w.db.sessions[k].tokenId != tid
    ensures SameRecords(w.db, Recover(w, env, list).world.db, tid)
  {
    RecoverExact(w, env, list);
    assert Recover(w, env, list).world.db == Recovered(w, env, StaleSessions(w.db, env.now)).db;
  }

  lemma GenerateElsewhere(hash: string -> string, w: World, env: Env, planId: string, count: int, notes: string,
                          draws: seq<Draw>, tid: string)
    requires tid in w.db.tokens
    ensures SameRecords(w.db, Generate(hash, w, env, planId, count, notes, draws).world.db, tid)
  {
    if 0 < count {
      IssueAdds(hash, w, env.now, planId, notes, count, draws);
    }
  }

  lemma ConfinedElsewhere(a: Db, b: Db, concerned: Option<string>, tid: string)
    requires Confined(a, b, concerned) && concerned != Some(tid)
    ensures SameRecords(a, b, tid)
  {
    if concerned.Some? {
      OthersCounted(a.usage, b.usage, concerned.value, tid);
    }
  }

  lemma {:induction false} OthersCounted(a: seq<UsageRecord>, b: seq<UsageRecord>, other: string, tid: string)
    requires a <= b && other != tid && forall i | |a| <= i < |b| :: b[i].tokenId == other
    ensures UsageOf(a, tid) == UsageOf(b, tid)
    decreases |b|
  {
    if a == b {
    } else {
      OthersCounted(a, b[..|b| - 1], other, tid);
    }
  }

  lemma SameRecordsTwice(a: Db, b: Db, c: Db, tid: string)
    requires SameRecords(a, b, tid) && SameRecords(b, c, tid)
    ensures SameRecords(a, c, tid)
  {
  }

  /** A token's usage records, in order. */
  function UsageOf(usage: seq<UsageRecord>, tid: string): seq<UsageRecord> {
    if usage == [] then []
    else
      var front, last := usage[..|usage| - 1], usage[|usage| - 1];
      UsageOf(front, tid) + if last.tokenId == tid then [last] else []
  }

  /** The token, its sessions and its usage records, no more and no fewer, are as they were. */
  ghost predicate SameRecords(a: Db, b: Db, tid: string) {
    && UsageOf(a.usage, tid) == UsageOf(b.usage, tid)
    && (tid in a.tokens <==> tid in b.tokens) && (tid in a.tokens ==> b.tokens[tid] == a.tokens[tid])
    && (forall k | k in a.sessions && a.sessions[k].tokenId == tid :: k in b.sessions && b.sessions[k] == a.sessions[k])
    && (forall k | k in b.sessions && b.sessions[k].tokenId == tid :: k in a.sessions && b.sessions[k] == a.sessions[k])
  }

  /** A request that concerns another token or none, a pass that finds nothing to do here, or generation. */
  ghost predicate Elsewhere(hash: string -> string, w: World, env: Env, step: Step, tid: string)
    requires Enabled(w, step)
  {
    match step
    case SweepStep(_) => tid !in DueTokens(w.db, env.now)
    case RecoverStep(_) => forall k | k in StaleSessions(w.db, env.now) :: w.db.sessions[k].tokenId != tid
    case GenerateStep(_, _, _, _) => tid in w.db.tokens
    case _ => Concerned(hash, w, step) != Some(tid)
  }

  ghost predicate AllElsewhere(hash: string -> string, w: World, run: seq<Event>, tid: string)
    requires Fits(hash, w, run)
    decreases |run|
  {
    run != [] ==>
      && Elsewhere(hash, w, run[0].env, run[0].step, tid)
      && AllElsewhere(hash, Apply(hash, w, run[0].env, run[0].step), run[1..], tid)
  }
}
