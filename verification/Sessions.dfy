/** Accounting requests (service/session_service.go, service/radius_service.go:96-134, accounting_handler.go). */
module Sessions {
  import opened Domain
  import opened Store
  import opened Gateway
  import opened Quota
  import opened Keys

  datatype StartInput = StartInput(
    tokenId: string,
    deviceMac: string,
    ip: string,
    gatewayId: string,
    radiusSessionId: string,
    nasIp: string,
    nasIdentifier: string,
    pending: bool)

  datatype PacketKind = NoStatus | StartPacket | StopPacket | InterimPacket

  datatype RadiusInput = RadiusInput(
    kind: PacketKind,
    radiusSessionId: string,
    nasIp: string,
    nasIdentifier: string,
    ip: string,
    deviceMac: string,
    upTotal: int,
    downTotal: int,
    stopReason: string)

  /** What the RADIUS server hands over: the address is still as the access point sent it. */
  datatype AccountingEvent = AccountingEvent(
    kind: PacketKind,
    callingStation: string,
    framedIp: string,
    nasIp: string,
    nasIdentifier: string,
    acctSessionId: string,
    bytesIn: int,
    bytesOut: int,
    stopReason: string)

  function Or(given: string, kept: string): string {
    if given != "" then given else kept
  }

  function StartAccounting(w: World, env: Env, req: StartInput, current: Option<Session>,
                           newId: string): Reply<Session> {
    match current
    case Some(s) =>
      var s' := s.(
        ip := req.ip,
        gatewayId := req.gatewayId,
        radiusSessionId := Or(req.radiusSessionId, s.radiusSessionId),
        nasIp := Or(req.nasIp, s.nasIp),
        nasIdentifier := Or(req.nasIdentifier, s.nasIdentifier),
        pending := req.pending);
      Reply(SaveSession(w, s'), Ok(s'))
    case None =>
      if newId in w.db.sessions then Reply(w, Err(AlreadyExists))
      else
        var s := Session(newId, req.tokenId, req.deviceMac, req.ip, req.gatewayId, req.radiusSessionId, req.nasIp,
                         req.nasIdentifier, req.pending, env.now, None, 0, 0, Live, "");
        Reply(SaveSession(w, s), Ok(s))
  }

  /** An admissible answer of the lookup by accounting identifier: any match, and nothing only when there is none. */
  ghost predicate IsRadiusMatch(db: Db, found: Option<string>, radiusSessionId: string, nasIp: string) {
    match found
    case Some(sid) => sid in db.sessions && MatchesRadius(db.sessions[sid], radiusSessionId, nasIp)
    case None => forall k | k in db.sessions :: !MatchesRadius(db.sessions[k], radiusSessionId, nasIp)
  }

  /** The part of a running total that the session has not counted yet. */
  function Growth(total: int, counted: int): nat {
    if total > counted then total - counted else 0
  }

  /** Turn running totals into an increment, and count it unless it is zero. */
  function CountTotals(w: World, env: Env, s: Session, upTotal: int, downTotal: int): Reply<UsageUpdate> {
    var up, down := Growth(upTotal, s.bytesUp), Growth(downTotal, s.bytesDown);
    if up > 0 || down > 0 then ApplyUsage(w, env, s.id, up, down) else Reply(w, Ok(UsageUpdate(s, None)))
  }

  function StopAfter(counted: Reply<UsageUpdate>, env: Env, stopReason: string): Reply<UsageUpdate>
    requires counted.result.Ok?
  {
    var stopped := StopSession(counted.world, env, counted.result.value.session.id, Or(stopReason, "radius_stop"));
    match stopped.result
    case Ok(ended) => Reply(stopped.world, Ok(counted.result.value.(session := ended)))
    case Err(e) => Reply(stopped.world, Err(e))
  }

  function HandleRadius(w: World, env: Env, found: Option<string>, req: RadiusInput): Reply<UsageUpdate>
    requires found.Some? ==> found.value in w.db.sessions
  {
    if found.None? then Reply(w, Err(SessionNotFound))
    else
      var s := w.db.sessions[found.value];
      if req.kind == StartPacket then
        var s' := s.(
          ip := Or(req.ip, s.ip),
          deviceMac := Or(req.deviceMac, s.deviceMac),
          nasIdentifier := Or(req.nasIdentifier, s.nasIdentifier));
        Reply(SaveSession(w, s'), Ok(UsageUpdate(s', None)))
      else if s.status != Live then Reply(w, Ok(UsageUpdate(s, None)))
      else
        var counted := CountTotals(w, env, s, req.upTotal, req.downTotal);
        if counted.result.Ok? && req.kind == StopPacket && counted.result.value.session.status == Live then
          StopAfter(counted, env, req.stopReason)
        else
          counted
  }

  /** A usage update that reached the limit is followed by a forced disconnect. */
  function ThenDisconnect(r: Reply<UsageUpdate>, env: Env): Reply<()> {
    match r.result
    case Err(e) => Reply(r.world, Err(e))
    case Ok(update) =>
      if update.disconnect.None? then Reply(r.world, Ok(()))
      else
        var d := DisconnectSession(r.world, env, update.session.id, update.disconnect.value, true);
        Reply(d.world, if d.result.Ok? then Ok(()) else Err(d.result.error))
  }

  /** The HTTP interim request. */
  function Interim(w: World, env: Env, sid: string, up: int, down: int): Reply<()> {
    ThenDisconnect(ApplyUsage(w, env, sid, up, down), env)
  }

  function CanonicalOrEmpty(address: string): string {
    var mac := if address != "" then CanonicalMac(address) else None;
    if mac.Some? then mac.value else ""
  }

  function ToInput(e: AccountingEvent): RadiusInput {
    RadiusInput(e.kind, e.acctSessionId, e.nasIp, e.nasIdentifier, e.framedIp, CanonicalOrEmpty(e.callingStation),
                e.bytesOut, e.bytesIn, e.stopReason)
  }

  /** The RADIUS accounting request; a packet for an unknown session is accepted and ignored. */
  function Account(w: World, env: Env, found: Option<string>, e: AccountingEvent): Reply<()>
    requires found.Some? ==> found.value in w.db.sessions
  {
    if e.kind == NoStatus then Reply(w, Err(MissingStatus))
    else
      var r := HandleRadius(w, env, found, ToInput(e));
      if r.result == Err(SessionNotFound) then Reply(r.world, Ok(()))
      else ThenDisconnect(r, env)
  }

  // ---- Validity ----

  lemma OpenSingle(db: Db, s: Session)
    requires SingleActive(db) && s.id !in db.sessions
    requires forall k :: !IsActiveOf(db, k, s.tokenId)
    ensures SingleActive(PutSession(db, s))
  {
    var after := PutSession(db, s);
    forall tid, a, b | IsActiveOf(after, a, tid) && IsActiveOf(after, b, tid)
      ensures a == b
    {
      if a != s.id {
        assert IsActiveOf(db, a, tid);
      }
      if b != s.id {
        assert IsActiveOf(db, b, tid);
      }
    }
  }

  lemma OpenMetered(db: Db, s: Session)
    requires Metered(db) && s.id !in db.sessions && s.bytesUp == 0 && s.bytesDown == 0
    ensures Metered(PutSession(db, s))
  {
    var after := PutSession(db, s);
    NoTraffic(db, s.id);
    forall i | 0 <= i < |after.usage|
      ensures RecordOk(after, after.usage[i])
    {
      assert RecordOk(db, db.usage[i]);
    }
  }

  lemma OpenSessions(db: Db, s: Session)
    requires SessionsOk(db)
    requires SessionOk(db, s)
    ensures SessionsOk(PutSession(db, s))
  {
    var after := PutSession(db, s);
    forall k | k in after.sessions
      ensures SessionOk(after, after.sessions[k])
    {
      if k != s.id {
        assert SessionOk(db, db.sessions[k]);
      }
    }
  }

  /** A new session with zero counters, for an active token that has none. */
  lemma OpenKeepsValid(db: Db, s: Session)
    requires Valid(db) && s.id !in db.sessions
    requires s.status == Live && s.endedAt.None? && s.bytesUp == 0 && s.bytesDown == 0
    requires s.tokenId in db.tokens && db.tokens[s.tokenId].status == Active
    requires forall k :: !IsActiveOf(db, k, s.tokenId)
    ensures Valid(PutSession(db, s)) && Evolves(db, PutSession(db, s))
  {
    assert TokenOk(db, db.tokens[s.tokenId]);
    OpenSingle(db, s);
    OpenMetered(db, s);
    OpenSessions(db, s);
    OpenTokens(db, s);
  }

  lemma OpenTokens(db: Db, s: Session)
    requires TokensOk(db) && s.id !in db.sessions
    ensures TokensOk(PutSession(db, s)) && Evolves(db, PutSession(db, s))
  {
    var after := PutSession(db, s);
    assert forall k | k in after.tokens :: TokenOk(db, db.tokens[k]) && TokenOk(after, after.tokens[k]);
  }

  lemma NoTraffic(db: Db, sid: string)
    requires Metered(db) && sid !in db.sessions
    ensures SessionTraffic(db.usage, sid) == Traffic(0, 0)
  {
    NoTrafficIn(db.usage, sid) by {
      assert forall i | 0 <= i < |db.usage| :: RecordOk(db, db.usage[i]);
    }
  }

  lemma {:induction false} NoTrafficIn(usage: seq<UsageRecord>, sid: string)
    requires forall i | 0 <= i < |usage| :: usage[i].sessionId != sid
    ensures SessionTraffic(usage, sid) == Traffic(0, 0)
  {
    if usage == [] {
    } else {
      NoTrafficIn(usage[..|usage| - 1], sid);
    }
  }

  /** When a start request leaves a valid store valid: the token is active, or nothing is created. */
  ghost predicate StartAllowed(db: Db, req: StartInput, newId: string) {
    || (req.tokenId in db.tokens && db.tokens[req.tokenId].status == Active)
    || newId in db.sessions
  }

  lemma StartKeepsValid(w: World, env: Env, req: StartInput, newId: string)
    requires Valid(w.db) && StartAllowed(w.db, req, newId)
    ensures var w' := StartAccounting(w, env, req, ActiveOf(w.db, req.tokenId), newId).world;
            Valid(w'.db) && Evolves(w.db, w'.db)
  {
    var current := ActiveOf(w.db, req.tokenId);
    var r := StartAccounting(w, env, req, current, newId);
    match current
    case Some(s) =>
      var sid :| IsActiveOf(w.db, sid, req.tokenId) && w.db.sessions[sid] == s;
      assert SessionOk(w.db, s);
      TamerKeepsValid(w.db, r.result.value);
    case None =>
      if newId !in w.db.sessions {
        OpenKeepsValid(w.db, r.result.value);
      }
  }

  lemma NoActiveWithout(db: Db, tid: string)
    requires Valid(db) && (tid in db.tokens ==> db.tokens[tid].status != Active)
    ensures forall k :: !IsActiveOf(db, k, tid)
  {
    forall k
      ensures !IsActiveOf(db, k, tid)
    {
      if k in db.sessions {
        assert SessionOk(db, db.sessions[k]);
      }
    }
  }

  /**
   A start request is not checked against the token (session_service.go:71-84): it keeps the store
   valid exactly when its token is active or it creates no session.
   */
  lemma StartExactlyWhen(w: World, env: Env, req: StartInput, newId: string)
    requires Valid(w.db)
    ensures Valid(StartAccounting(w, env, req, ActiveOf(w.db, req.tokenId), newId).world.db)
            <==> StartAllowed(w.db, req, newId)
  {
    if StartAllowed(w.db, req, newId) {
      StartKeepsValid(w, env, req, newId);
    } else {
      NoActiveWithout(w.db, req.tokenId);
      var after := StartAccounting(w, env, req, None, newId).world.db;
      assert !SessionOk(after, after.sessions[newId]);
    }
  }

  /** The code admits a start request that names no token at all, and a fresh store is valid no longer. */
  lemma StartUnchecked(env: Env, ip: string, gatewayId: string)
    ensures var w := World(Db(map[], map[], map[], map[], []), [], {}, {});
            var r := StartAccounting(w, env, StartInput("nobody", "", ip, gatewayId, "", "", "", false), None, "s1");
            Valid(w.db) && ActiveOf(w.db, "nobody") == None && r.result.Ok? && !Valid(r.world.db)
  {
    var w := World(Db(map[], map[], map[], map[], []), [], {}, {});
    var req := StartInput("nobody", "", ip, gatewayId, "", "", "", false);
    StartExactlyWhen(w, env, req, "s1");
  }

  lemma CountTotalsKeepsValid(w: World, env: Env, s: Session, upTotal: int, downTotal: int)
    requires Valid(w.db)
    ensures var w' := CountTotals(w, env, s, upTotal, downTotal).world; Valid(w'.db) && Evolves(w.db, w'.db)
  {
    ApplyUsageKeepsValid(w, env, s.id, Growth(upTotal, s.bytesUp), Growth(downTotal, s.bytesDown));
  }

  lemma StopAfterKeepsValid(before: Db, counted: Reply<UsageUpdate>, env: Env, stopReason: string)
    requires Valid(counted.world.db) && Evolves(before, counted.world.db) && counted.result.Ok?
    ensures var w' := StopAfter(counted, env, stopReason).world; Valid(w'.db) && Evolves(before, w'.db)
  {
    StopKeepsValid(counted.world, env, counted.result.value.session.id, Or(stopReason, "radius_stop"));
    EvolvesTransitive(before, counted.world.db, StopAfter(counted, env, stopReason).world.db);
  }

  lemma HandleRadiusKeepsValid(w: World, env: Env, found: Option<string>, req: RadiusInput)
    requires Valid(w.db) && (found.Some? ==> found.value in w.db.sessions)
    ensures var w' := HandleRadius(w, env, found, req).world; Valid(w'.db) && Evolves(w.db, w'.db)
  {
    if found.Some? {
      var s := w.db.sessions[found.value];
      if req.kind == StartPacket {
        assert SessionOk(w.db, s);
        TamerKeepsValid(w.db, HandleRadius(w, env, found, req).result.value.session);
      } else if s.status == Live {
        var counted := CountTotals(w, env, s, req.upTotal, req.downTotal);
        CountTotalsKeepsValid(w, env, s, req.upTotal, req.downTotal);
        if counted.result.Ok? && req.kind == StopPacket && counted.result.value.session.status == Live {
          StopAfterKeepsValid(w.db, counted, env, req.stopReason);
        }
      }
    }
  }

  lemma ThenDisconnectKeepsValid(before: Db, r: Reply<UsageUpdate>, env: Env)
    requires Valid(r.world.db) && Evolves(before, r.world.db)
    ensures var w' := ThenDisconnect(r, env).world; Valid(w'.db) && Evolves(before, w'.db)
  {
    if r.result.Ok? && r.result.value.disconnect.Some? {
      DisconnectKeepsValid(r.world, env, r.result.value.session.id, r.result.value.disconnect.value, true);
      EvolvesTransitive(before, r.world.db, ThenDisconnect(r, env).world.db);
    }
  }

  lemma InterimKeepsValid(w: World, env: Env, sid: string, up: int, down: int)
    requires Valid(w.db)
    ensures var w' := Interim(w, env, sid, up, down).world; Valid(w'.db) && Evolves(w.db, w'.db)
  {
    ApplyUsageKeepsValid(w, env, sid, up, down);
    ThenDisconnectKeepsValid(w.db, ApplyUsage(w, env, sid, up, down), env);
  }

  lemma AccountKeepsValid(w: World, env: Env, found: Option<string>, e: AccountingEvent)
    requires Valid(w.db) && (found.Some? ==> found.value in w.db.sessions)
    ensures var w' := Account(w, env, found, e).world; Valid(w'.db) && Evolves(w.db, w'.db)
  {
    if e.kind != NoStatus {
      HandleRadiusKeepsValid(w, env, found, ToInput(e));
      ThenDisconnectKeepsValid(w.db, HandleRadius(w, env, found, ToInput(e)), env);
    }
  }

  // ---- The services ----

  class SessionService {
    const store: MemoryStore
    const outside: Outside
    const quota: QuotaService
    const gateway: GatewayIntegrationService

    constructor (store: MemoryStore, outside: Outside)
      ensures this.store == store && this.outside == outside
      ensures quota.store == store && quota.outside == outside
      ensures gateway.store == store && gateway.outside == outside
    {
      this.store := store;
      this.outside := outside;
      this.quota := new QuotaService(store, outside);
      this.gateway := new GatewayIntegrationService(store, outside);
    }

    predicate Wired() {
      quota.store == store && quota.outside == outside && gateway.store == store && gateway.outside == outside
    }

    method Start(req: StartInput, newId: string, env: Env) returns (r: Result<Session>)
      requires Keyed(store.Contents()) && SingleActive(store.Contents())
      modifies store
      ensures StartAccounting(old(Snapshot(store, outside)), env, req, old(ActiveOf(store.Contents(), req.tokenId)),
                              newId)
           == Reply(Snapshot(store, outside), r)
    {
      var found := store.GetActiveSessionByToken(req.tokenId);
      if found.Some? {
        var current := found.value;
        current := current.(ip := req.ip, gatewayId := req.gatewayId);
        if req.radiusSessionId != "" {
          current := current.(radiusSessionId := req.radiusSessionId);
        }
        if req.nasIp != "" {
          current := current.(nasIp := req.nasIp);
        }
        if req.nasIdentifier != "" {
          current := current.(nasIdentifier := req.nasIdentifier);
        }
        current := current.(pending := req.pending);
        var saved := store.UpdateSession(current);
        if !saved {
          return Err(SessionNotFound);
        }
        return Ok(current);
      }
      var session := Session(newId, req.tokenId, req.deviceMac, req.ip, req.gatewayId, req.radiusSessionId, req.nasIp,
                             req.nasIdentifier, req.pending, env.now, None, 0, 0, Live, "");
      var created := store.CreateSession(session);
      if !created {
        return Err(AlreadyExists);
      }
      r := Ok(session);
    }

    method CountRunningTotals(session: Session, upTotal: int, downTotal: int, env: Env) returns (r: Result<UsageUpdate>)
      requires Wired() && Keyed(store.Contents())
      modifies store
      ensures CountTotals(old(Snapshot(store, outside)), env, session, upTotal, downTotal)
              == Reply(Snapshot(store, outside), r)
      ensures Keyed(store.Contents())
    {
      var deltaUp := upTotal - session.bytesUp;
      if deltaUp < 0 {
        deltaUp := 0;
      }
      var deltaDown := downTotal - session.bytesDown;
      if deltaDown < 0 {
        deltaDown := 0;
      }
      if deltaUp > 0 || deltaDown > 0 {
        ApplyUsageKeepsKeyed(Snapshot(store, outside), env, session.id, deltaUp, deltaDown);
        r := quota.Apply(session.id, deltaUp, deltaDown, env);
      } else {
        r := Ok(UsageUpdate(session, None));
      }
    }

    method HandleRadiusAccounting(req: RadiusInput, env: Env)
      returns (r: Result<UsageUpdate>, ghost found: Option<string>)
      requires Wired() && Keyed(store.Contents())
      modifies store, outside`stopped
      ensures IsRadiusMatch(old(store.Contents()), found, req.radiusSessionId, req.nasIp)
      ensures HandleRadius(old(Snapshot(store, outside)), env, found, req) == Reply(Snapshot(store, outside), r)
      ensures Keyed(store.Contents())
    {
      var hit := store.GetSessionByRadius(req.radiusSessionId, req.nasIp);
      if hit.None? {
        found := None;
        return Err(SessionNotFound), found;
      }
      var session := hit.value;
      found := Some(session.id);
      if req.kind == StartPacket {
        if req.ip != "" {
          session := session.(ip := req.ip);
        }
        if req.deviceMac != "" {
          session := session.(deviceMac := req.deviceMac);
        }
        if req.nasIdentifier != "" {
          session := session.(nasIdentifier := req.nasIdentifier);
        }
        var saved := store.UpdateSession(session);
        if !saved {
          return Err(SessionNotFound), found;
        }
        return Ok(UsageUpdate(session, None)), found;
      }
      if session.status != Live {
        return Ok(UsageUpdate(session, None)), found;
      }
      var counted := CountRunningTotals(session, req.upTotal, req.downTotal, env);
      if counted.Err? {
        return counted, found;
      }
      var update := counted.value;
      session := update.session;
      if req.kind == StopPacket && session.status == Live {
        var stopReason := req.stopReason;
        if stopReason == "" {
          stopReason := "radius_stop";
        }
        var stopped := quota.Stop(session.id, stopReason, env);
        if stopped.Err? {
          return Err(stopped.error), found;
        }
        update := update.(session := stopped.value);
      }
      return Ok(update), found;
    }
  }
}
