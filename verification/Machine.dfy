/** The whole system as a state machine: one step per operation, and what holds over every run. */
module Machine {
  import opened Domain
  import opened Store
  import opened Gateway
  import opened Quota
  import opened Sessions
  import opened Tokens
  import opened Sweeping
  import opened RadiusServices

  datatype Step =
    | GenerateStep(planId: string, count: int, notes: string, draws: seq<Draw>)
    | RedeemStep(req: RedeemInput, newId: string)
    | ResumeStep(req: RedeemInput, newId: string)
    | RevokeStep(tokenId: string, reason: string)
    | SweepStep(tokens: seq<Token>)
    | RecoverStep(sessions: seq<Session>)
    | StartStep(start: StartInput, newId: string)
    | InterimStep(sessionId: string, up: int, down: int)
    | StopStep(sessionId: string, reason: string)
    | DisconnectStep(sessionId: string, reason: string, force: bool)
    | AuthenticateStep(auth: AuthInput, newId: string, later: Time)
    | AccountStep(found: Option<string>, event: AccountingEvent)
    | RetryStep(index: nat, again: bool)

  /**
   When a step can happen: the store's lists and lookups are what the store could have answered,
   a delivered task is in the queue, and a start request names an active token (the code does not
   check this itself, see Sessions.StartExactlyWhen).
   */
  ghost predicate Enabled(w: World, step: Step) {
    match step
    case SweepStep(tokens) => ListsTokens(tokens, w.db.tokens)
    case RecoverStep(sessions) => ListsActive(sessions, w.db.sessions)
    case StartStep(start, newId) => StartAllowed(w.db, start, newId)
    case AccountStep(found, event) => IsRadiusMatch(w.db, found, event.acctSessionId, event.nasIp)
    case RetryStep(index, _) => index < |w.queue|
    case _ => true
  }

  ghost function Apply(hash: string -> string, w: World, env: Env, step: Step): World
    requires Enabled(w, step)
  {
    match step
    case GenerateStep(planId, count, notes, draws) => Generate(hash, w, env, planId, count, notes, draws).world
    case RedeemStep(req, newId) => Redeem(hash, w, env, req, false, newId).world
    case ResumeStep(req, newId) => Redeem(hash, w, env, req, true, newId).world
    case RevokeStep(tokenId, reason) => Revoke(w, env, tokenId, reason).world
    case SweepStep(tokens) => Sweep(w, env, tokens).world
    case RecoverStep(sessions) => Recover(w, env, sessions).world
    case StartStep(start, newId) => StartAccounting(w, env, start, ActiveOf(w.db, start.tokenId), newId).world
    case InterimStep(sessionId, up, down) => Interim(w, env, sessionId, up, down).world
    case StopStep(sessionId, reason) => StopSession(w, env, sessionId, reason).world
    case DisconnectStep(sessionId, reason, force) => DisconnectSession(w, env, sessionId, reason, force).world
    case AuthenticateStep(auth, newId, later) => Authentication(hash, w, env, later, auth, newId).world
    case AccountStep(found, event) => Account(w, env, found, event).world
    case RetryStep(index, again) => RetryTask(w, env, index, again)
  }

  datatype Event = Event(env: Env, step: Step)

  /** Every step of the run can happen where it stands. */
  ghost predicate Fits(hash: string -> string, w: World, run: seq<Event>)
    decreases |run|
  {
    run != [] ==> Enabled(w, run[0].step) && Fits(hash, Apply(hash, w, run[0].env, run[0].step), run[1..])
  }

  ghost function Play(hash: string -> string, w: World, run: seq<Event>): World
    requires Fits(hash, w, run)
    decreases |run|
  {
    if run == [] then w else Play(hash, Apply(hash, w, run[0].env, run[0].step), run[1..])
  }

  /** A fresh system: some plans, each with a positive duration, and nothing else. */
  ghost predicate Initial(w: World) {
    && w == World(Db(w.db.plans, map[], map[], map[], []), [], {}, {})
    && forall k | k in w.db.plans :: w.db.plans[k].id == k && w.db.plans[k].durationMinutes > 0
  }

  lemma RetryKeepsValid(w: World, env: Env, index: nat, again: bool)
    requires Valid(w.db) && index < |w.queue|
    ensures var w' := RetryTask(w, env, index, again); Valid(w'.db) && Evolves(w.db, w'.db)
  {
    var task := w.queue[index];
    DisconnectKeepsValid(w.(queue := w.queue[..index] + w.queue[index + 1..]), env, task.sessionId, task.reason, true);
  }

  /** Every operation, whether it succeeds, is refused or is cut short by the gateway, keeps the store valid. */
  lemma StepKeepsValid(hash: string -> string, w: World, env: Env, step: Step)
    requires Valid(w.db) && Enabled(w, step)
    ensures var w' := Apply(hash, w, env, step); Valid(w'.db) && Evolves(w.db, w'.db)
  {
    match step
    case GenerateStep(planId, count, notes, draws) => GenerateKeepsValid(hash, w, env, planId, count, notes, draws);
    case RedeemStep(req, newId) => RedeemKeepsValid(hash, w, env, req, false, newId);
    case ResumeStep(req, newId) => RedeemKeepsValid(hash, w, env, req, true, newId);
    case RevokeStep(tokenId, reason) => RevokeKeepsValid(w, env, tokenId, reason);
    case SweepStep(tokens) => SweepKeepsValid(w, env, tokens);
    case RecoverStep(sessions) => RecoverKeepsValid(w, env, sessions);
    case StartStep(start, newId) => StartKeepsValid(w, env, start, newId);
    case InterimStep(sessionId, up, down) => InterimKeepsValid(w, env, sessionId, up, down);
    case StopStep(sessionId, reason) => StopKeepsValid(w, env, sessionId, reason);
    case DisconnectStep(sessionId, reason, force) => DisconnectKeepsValid(w, env, sessionId, reason, force);
    case AuthenticateStep(auth, newId, later) => AuthenticateKeepsValid(hash, w, env, later, auth, newId);
    case AccountStep(found, event) => AccountKeepsValid(w, env, found, event);
    case RetryStep(index, again) => RetryKeepsValid(w, env, index, again);
  }

  lemma {:induction false} RunKeepsValid(hash: string -> string, w: World, run: seq<Event>)
    requires Valid(w.db) && Fits(hash, w, run)
    ensures Valid(Play(hash, w, run).db) && Evolves(w.db, Play(hash, w, run).db)
    decreases |run|
  {
    if run == [] {
    } else {
      var w1 := Apply(hash, w, run[0].env, run[0].step);
      StepKeepsValid(hash, w, run[0].env, run[0].step);
      RunKeepsValid(hash, w1, run[1..]);
      EvolvesTransitive(w.db, w1.db, Play(hash, w1, run[1..]).db);
    }
  }

  lemma InitialValid(w: World)
    requires Initial(w)
    ensures Valid(w.db)
  {
  }

  // ---- The same facts, one by one, for every run of a fresh system ----

  /** At most one active session per token; its token exists and is active; and its counters are under the limit. */
  lemma ActiveSessionsSound(hash: string -> string, w: World, run: seq<Event>, sid: string)
    requires Initial(w) && Fits(hash, w, run)
    requires var db := Play(hash, w, run).db; sid in db.sessions && db.sessions[sid].status == Live
    ensures var db := Play(hash, w, run).db; var s := db.sessions[sid];
            && s.tokenId in db.tokens && db.tokens[s.tokenId].status == Active
            && db.tokens[s.tokenId].planId in db.plans
            && (forall other :: IsActiveOf(db, other, s.tokenId) ==> other == sid)
            && var limit := db.plans[db.tokens[s.tokenId].planId].dataLimitMB * 1_048_576;
               limit > 0 ==> s.bytesUp + s.bytesDown < limit
  {
    InitialValid(w);
    RunKeepsValid(hash, w, run);
    var db := Play(hash, w, run).db;
    assert SessionOk(db, db.sessions[sid]);
    assert IsActiveOf(db, sid, db.sessions[sid].tokenId);
  }

  /** The search through all tokens that the hash index replaces. */
  ghost predicate HasHash(db: Db, tid: string, h: string) {
    tid in db.tokens && db.tokens[tid].codeHash == h
  }

  /** The indexed lookup finds exactly what a search through all tokens finds, and there is never more than one. */
  lemma IndexIsSearch(hash: string -> string, w: World, run: seq<Event>, h: string, tid: string)
    requires Initial(w) && Fits(hash, w, run)
    ensures var db := Play(hash, w, run).db;
            HasHash(db, tid, h) <==> Lookup(db, h).Some? && Lookup(db, h).value.id == tid && tid in db.tokens
  {
    InitialValid(w);
    RunKeepsValid(hash, w, run);
  }

  /** Once a session has ended, its end and its counters stand, whatever happens later. */
  lemma EndedIsFinal(hash: string -> string, w: World, later: seq<Event>, sid: string)
    requires Valid(w.db) && Fits(hash, w, later)
    requires sid in w.db.sessions && w.db.sessions[sid].status == Ended
    ensures var db := Play(hash, w, later).db; var a := w.db.sessions[sid];
            sid in db.sessions && var b := db.sessions[sid];
            b.status == Ended && b.endedAt == a.endedAt && b.endReason == a.endReason
            && b.bytesUp == a.bytesUp && b.bytesDown == a.bytesDown && b.tokenId == a.tokenId
  {
    RunKeepsValid(hash, w, later);
  }

  /** A token's status only moves forward, and device, activation and expiry never change once set. */
  lemma TokensMoveForward(hash: string -> string, w: World, later: seq<Event>, tid: string)
    requires Valid(w.db) && Fits(hash, w, later) && tid in w.db.tokens
    ensures var db := Play(hash, w, later).db; var a := w.db.tokens[tid];
            tid in db.tokens && var b := db.tokens[tid];
            && a.status.Rank() <= b.status.Rank()
            && (a.usedBy.Some? ==> b.usedBy == a.usedBy && b.activatedAt == a.activatedAt && b.expiresAt == a.expiresAt)
            && (b.usedBy.Some? <==> b.expiresAt.Some?) && (b.usedBy.Some? <==> b.activatedAt.Some?)
            && b.planId in db.plans
            && (b.expiresAt.Some? ==>
                  b.expiresAt.value == b.activatedAt.value + db.plans[b.planId].durationMinutes * 60 * 1_000_000_000)
  {
    RunKeepsValid(hash, w, later);
    var db := Play(hash, w, later).db;
    assert TokenEvolves(w.db.tokens[tid], db.tokens[tid]);
    assert TokenOk(db, db.tokens[tid]);
    InMinutes(db.plans[db.tokens[tid].planId]);
  }

  /** A used token is never unused again, and a final status never gives way to another kind of status. */
  lemma StatusForward(hash: string -> string, w: World, later: seq<Event>, tid: string)
    requires Valid(w.db) && Fits(hash, w, later) && tid in w.db.tokens
    ensures var db := Play(hash, w, later).db;
            tid in db.tokens && var a, b := w.db.tokens[tid].status, db.tokens[tid].status;
            && (a in {Active, Expired, Consumed, Revoked} ==> b in {Active, Expired, Consumed, Revoked})
            && (a in {Expired, Consumed, Revoked} ==> b in {Expired, Consumed, Revoked})
  {
    TokensMoveForward(hash, w, later, tid);
  }

  lemma InMinutes(plan: Plan)
    ensures plan.Lifetime() == plan.durationMinutes * 60 * 1_000_000_000
  {
  }

  /** Only an unused or active token can be redeemed. */
  lemma RedeemedWasOpen(hash: string -> string, w: World, env: Env, req: RedeemInput, requireActive: bool,
                        newId: string)
    requires Keyed(w.db) && Redeem(hash, w, env, req, requireActive, newId).result.Ok?
    ensures var found := Lookup(w.db, hash(req.code)); found.Some? && found.value.status.Rank() <= 1
  {
  }

  /** A token that has left the active status is refused for good, by redeem, resume and RADIUS alike. */
  lemma RetiredStaysRefused(hash: string -> string, w: World, later: seq<Event>, tid: string, env: Env,
                            req: RedeemInput, requireActive: bool, newId: string)
    requires Valid(w.db) && Fits(hash, w, later)
    requires tid in w.db.tokens && w.db.tokens[tid].status.Rank() == 2 && hash(req.code) == w.db.tokens[tid].codeHash
    ensures Redeem(hash, Play(hash, w, later), env, req, requireActive, newId).result.Err?
  {
    RunKeepsValid(hash, w, later);
    var end := Play(hash, w, later);
    assert w.db.byHash[w.db.tokens[tid].codeHash] == tid;
    assert TokenEvolves(w.db.tokens[tid], end.db.tokens[tid]);
    if Redeem(hash, end, env, req, requireActive, newId).result.Ok? {
      RedeemedWasOpen(hash, end, env, req, requireActive, newId);
    }
  }
}
