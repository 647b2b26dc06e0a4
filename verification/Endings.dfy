/** What accounting, disconnects and recovery do to the stored records, field by field. */
module Endings {
  import opened Domain
  import opened Keys
  import opened Store
  import opened Gateway
  import opened Quota
  import opened Sessions
  import opened Tokens
  import opened Recovery

  // ---- Disconnects ----

  /** A session ended for a reason at an instant. */
  ghost function EndedAs(s: Session, now: Time, reason: string, owed: bool): Session {
    s.(status := SessionStatus.Ended, endReason := reason, endedAt := Some(now), pending := owed)
  }

  /**
   What a call of the gateway about a session adds to the world: a confirmation, or a retry that the queue may
   refuse.
   */
  ghost function Called(w: World, env: Env, sid: string, reason: string): World {
    if sid !in env.failing then w.(acked := w.acked + {sid})
    else if sid in env.unqueued then w
    else w.(queue := w.queue + [Task(sid, reason)])
  }

  /**
   A disconnect ends an active session for its reason, calls the gateway, and leaves the disconnect owed
   exactly when the gateway refuses; the end of an ended session stands, and without force the gateway is
   called for it only if a disconnect is owed.
   */
  lemma DisconnectOutcome(w: World, env: Env, sid: string, reason: string, force: bool)
    requires sid in w.db.sessions
    ensures var s := w.db.sessions[sid]; var refused := sid in env.failing;
            var why := if reason == "" then "disconnect" else reason;
            var done := if s.status == Ended then s.(pending := refused) else EndedAs(s, env.now, why, refused);
            var r := DisconnectSession(w, env, sid, reason, force);
            if s.status == Ended && !s.pending && !force then r == Reply(w, Ok(s))
            else
              && r.result == (if refused then Err(GatewayFailed) else Ok(done))
              && (s.id == sid ==>
                    r.world == Called(w.(db := w.db.(sessions := w.db.sessions[sid := done])), env, sid, why))
  {
  }

  lemma DisconnectUnknown(w: World, env: Env, sid: string, reason: string, force: bool)
    requires sid !in w.db.sessions
    ensures DisconnectSession(w, env, sid, reason, force) == Reply(w, Err(SessionNotFound))
  {
  }

  /** One delivery takes its request out of the queue and forces the disconnect; a refusal may put it back besides. */
  lemma DeliveryOutcome(w: World, env: Env, index: nat, again: bool)
    requires index < |w.queue|
    ensures var task := w.queue[index]; var rest := w.(queue := w.queue[..index] + w.queue[index + 1..]);
            var r := DisconnectSession(rest, env, task.sessionId, task.reason, true);
            RetryTask(w, env, index, again) ==
              if again && r.result.Err? then r.world.(queue := r.world.queue + [task]) else r.world
  {
  }

  // ---- Usage ----

  ghost predicate Reaches(plan: Plan, up: int, down: int) {
    plan.dataLimitMB * 1_048_576 > 0 && up + down >= plan.dataLimitMB * 1_048_576
  }

  /** Where a session's counters stand, and the records that say so. */
  ghost function Moved(w: World, s: Session, up: int, down: int, now: Time): World {
    w.(db := w.db.(
         sessions := w.db.sessions[s.id := s.(bytesUp := s.bytesUp + up, bytesDown := s.bytesDown + down)],
         usage := w.db.usage + [UsageRecord(s.id, s.tokenId, up, down, now)]))
  }

  /** The same with the session ended at the limit and its token consumed. */
  ghost function MovedAndConsumed(w: World, s: Session, up: int, down: int, now: Time): World
    requires s.tokenId in w.db.tokens
  {
    var moved := Moved(w, s, up, down, now);
    var s' := EndedAs(s.(bytesUp := s.bytesUp + up, bytesDown := s.bytesDown + down), now, "data_limit_reached", true);
    moved.(db := moved.db.(
             sessions := w.db.sessions[s.id := s'],
             tokens := w.db.tokens[s.tokenId := w.db.tokens[s.tokenId].(status := Consumed, updatedAt := now)]))
  }

  /** The answer to a usage update: the session as it stands, and the reason if the gateway has to drop it. */
  ghost function UsageReply(w: World, s: Session, plan: Plan, up: int, down: int, now: Time): Reply<UsageUpdate>
    requires s.tokenId in w.db.tokens
  {
    if Reaches(plan, s.bytesUp + up, s.bytesDown + down) then
      var after := MovedAndConsumed(w, s, up, down, now);
      Reply(after, Ok(UsageUpdate(after.db.sessions[s.id], Some("data_limit_reached"))))
    else
      var after := Moved(w, s, up, down, now);
      Reply(after, Ok(UsageUpdate(after.db.sessions[s.id], None)))
  }

  /**
   A usage update adds to the counters and files a record; at the plan's limit the session ends and the token is
   used up.
   */
  lemma UsageOutcome(w: World, env: Env, sid: string, up: int, down: int)
    requires Valid(w.db) && sid in w.db.sessions && w.db.sessions[sid].status == Live
    ensures var s := w.db.sessions[sid];
            && s.tokenId in w.db.tokens && w.db.tokens[s.tokenId].planId in w.db.plans
            && var plan := w.db.plans[w.db.tokens[s.tokenId].planId];
               ApplyUsage(w, env, sid, up, down) == UsageReply(w, s, plan, up, down, env.now)
  {
    var s := w.db.sessions[sid];
    assert SessionOk(w.db, s) && TokenOk(w.db, w.db.tokens[s.tokenId]);
    ApplyUsageForm(w, env, sid, up, down);
    RetireIndex(w.db, w.db.tokens[s.tokenId].(status := Consumed, updatedAt := env.now));
  }

  lemma UsageRefused(w: World, env: Env, sid: string, up: int, down: int)
    requires sid in w.db.sessions ==> w.db.sessions[sid].status == Ended
    ensures ApplyUsage(w, env, sid, up, down)
         == Reply(w, Err(if sid in w.db.sessions then SessionNotActive else SessionNotFound))
  {
  }

  /** An HTTP interim: the usage, and at the limit the forced disconnect. */
  lemma InterimOutcome(w: World, env: Env, sid: string, up: int, down: int)
    requires Valid(w.db) && sid in w.db.sessions && w.db.sessions[sid].status == Live
    ensures var s := w.db.sessions[sid];
            && s.tokenId in w.db.tokens && w.db.tokens[s.tokenId].planId in w.db.plans
            && var plan := w.db.plans[w.db.tokens[s.tokenId].planId];
               Interim(w, env, sid, up, down) ==
                 if Reaches(plan, s.bytesUp + up, s.bytesDown + down)
                 then Dropped(MovedAndConsumed(w, s, up, down, env.now), env, sid)
                 else Reply(Moved(w, s, up, down, env.now), Ok(()))
  {
    UsageOutcome(w, env, sid, up, down);
    DropAtLimit(w, env, w.db.sessions[sid], up, down);
  }

  /** The forced disconnect of a session just ended at the limit. */
  ghost function Dropped(w: World, env: Env, sid: string): Reply<()>
    requires sid in w.db.sessions
  {
    var refused := sid in env.failing;
    Reply(Called(w.(db := w.db.(sessions := w.db.sessions[sid := w.db.sessions[sid].(pending := refused)])), env, sid,
                 "data_limit_reached"),
          if refused then Err(GatewayFailed) else Ok(()))
  }

  lemma DropAtLimit(w: World, env: Env, s: Session, up: int, down: int)
    requires s.tokenId in w.db.tokens
    ensures var after := MovedAndConsumed(w, s, up, down, env.now);
            ThenDisconnect(Reply(after, Ok(UsageUpdate(after.db.sessions[s.id], Some("data_limit_reached")))), env)
              == Dropped(after, env, s.id)
  {
    DisconnectOutcome(MovedAndConsumed(w, s, up, down, env.now), env, s.id, "data_limit_reached", true);
  }

  // ---- Stops ----

  lemma StopOutcome(w: World, env: Env, sid: string, reason: string)
    requires Keyed(w.db) && sid in w.db.sessions
    ensures var s := w.db.sessions[sid]; var s' := EndedAs(s, env.now, reason, false);
            StopSession(w, env, sid, reason) ==
              if s.status == Ended then Reply(w, Ok(s))
              else Reply(w.(db := w.db.(sessions := w.db.sessions[sid := s']), stopped := w.stopped + {sid}), Ok(s'))
  {
  }

  lemma StopUnknown(w: World, env: Env, sid: string, reason: string)
    requires sid !in w.db.sessions
    ensures StopSession(w, env, sid, reason) == Reply(w, Err(SessionNotFound))
  {
  }

  // ---- Start requests and accounting packets ----

  ghost function Given(given: string, kept: string): string {
    if given == "" then kept else given
  }

  /** A start request refreshes the token's active session, or opens one without looking at the token. */
  lemma StartOutcome(w: World, env: Env, req: StartInput, newId: string)
    requires Keyed(w.db) && SingleActive(w.db)
    ensures var r := StartAccounting(w, env, req, ActiveOf(w.db, req.tokenId), newId);
            && (forall sid | IsActiveOf(w.db, sid, req.tokenId) ::
                  var s := w.db.sessions[sid];
                  var s' := s.(
                    ip := req.ip,
                    gatewayId := req.gatewayId,
                    radiusSessionId := Given(req.radiusSessionId, s.radiusSessionId),
                    nasIp := Given(req.nasIp, s.nasIp),
                    nasIdentifier := Given(req.nasIdentifier, s.nasIdentifier),
                    pending := req.pending);
                  r == Reply(w.(db := w.db.(sessions := w.db.sessions[sid := s'])), Ok(s')))
            && ((forall sid :: !IsActiveOf(w.db, sid, req.tokenId)) ==>
                  var s := Session(newId, req.tokenId, req.deviceMac, req.ip, req.gatewayId, req.radiusSessionId,
                                   req.nasIp, req.nasIdentifier, req.pending, env.now, None, 0, 0, Live, "");
                  r == if newId in w.db.sessions then Reply(w, Err(AlreadyExists))
                       else Reply(w.(db := w.db.(sessions := w.db.sessions[newId := s])), Ok(s)))
  {
    forall sid | IsActiveOf(w.db, sid, req.tokenId)
      ensures ActiveOf(w.db, req.tokenId) == Some(w.db.sessions[sid])
    {
      ActiveOfUnique(w.db, sid, req.tokenId);
    }
  }

  /**
   A packet without status is refused; one for an unknown session, and a count or stop for an ended one, are
   ignored.
   */
  lemma PacketIgnored(w: World, env: Env, found: Option<string>, e: AccountingEvent)
    requires found.Some? ==> found.value in w.db.sessions
    requires e.kind == NoStatus || found.None? || (e.kind != StartPacket && w.db.sessions[found.value].status == Ended)
    ensures Account(w, env, found, e) == Reply(w, if e.kind == NoStatus then Err(MissingStatus) else Ok(()))
  {
  }

  /**
   A start packet refreshes the address, the device if it is well-formed, and the access point's name; nothing else.
   */
  lemma StartPacketOutcome(w: World, env: Env, sid: string, e: AccountingEvent)
    requires Keyed(w.db) && sid in w.db.sessions && e.kind == StartPacket
    ensures var s := w.db.sessions[sid]; var mac := CanonicalMac(e.callingStation);
            var s' := s.(
              ip := Given(e.framedIp, s.ip),
              deviceMac := if mac.Some? then mac.value else s.deviceMac,
              nasIdentifier := Given(e.nasIdentifier, s.nasIdentifier));
            Account(w, env, Some(sid), e) == Reply(w.(db := w.db.(sessions := w.db.sessions[sid := s'])), Ok(()))
  {
    EmptyIsNoMac();
    if CanonicalMac(e.callingStation).Some? {
      MacIdempotent(e.callingStation);
    }
  }

  lemma EmptyIsNoMac()
    ensures CanonicalMac("") == None
  {
    MacAccepted("");
  }

  ghost function Higher(counted: int, reported: int): int {
    if reported > counted then reported else counted
  }

  /** What a packet's running totals add to a session: nothing is filed when they add nothing. */
  ghost function Reported(w: World, s: Session, e: AccountingEvent, now: Time): World {
    var up, down := Higher(s.bytesUp, e.bytesOut) - s.bytesUp, Higher(s.bytesDown, e.bytesIn) - s.bytesDown;
    if up == 0 && down == 0 then w else Moved(w, s, up, down, now)
  }

  ghost function ReportedAndConsumed(w: World, s: Session, e: AccountingEvent, now: Time): World
    requires s.tokenId in w.db.tokens
  {
    MovedAndConsumed(w, s, Higher(s.bytesUp, e.bytesOut) - s.bytesUp, Higher(s.bytesDown, e.bytesIn) - s.bytesDown, now)
  }

  /** The answer to an interim or stop packet for an active session. */
  ghost function PacketReply(w: World, s: Session, plan: Plan, e: AccountingEvent, env: Env): Reply<()>
    requires s.tokenId in w.db.tokens && s.id in w.db.sessions
  {
    var counted := Reported(w, s, e, env.now);
    if Reaches(plan, Higher(s.bytesUp, e.bytesOut), Higher(s.bytesDown, e.bytesIn)) then
      Dropped(ReportedAndConsumed(w, s, e, env.now), env, s.id)
    else if e.kind == StopPacket then
      var reason := if e.stopReason == "" then "radius_stop" else e.stopReason;
      var s' := EndedAs(counted.db.sessions[s.id], env.now, reason, false);
      Reply(counted.(db := counted.db.(sessions := counted.db.sessions[s.id := s']), stopped := w.stopped + {s.id}),
            Ok(()))
    else
      Reply(counted, Ok(()))
  }

  /**
   An interim or stop packet for an active session. The higher of counted and reported totals become its
   counters. Where they reach the limit the session ends for it, the token is consumed and the gateway is
   told; otherwise an interim does no more, and a stop ends the session at this instant, owing nothing.
   */
  lemma TotalsPacketOutcome(w: World, env: Env, sid: string, e: AccountingEvent)
    requires Valid(w.db) && sid in w.db.sessions && w.db.sessions[sid].status == Live
    requires e.kind == StopPacket || e.kind == InterimPacket
    ensures var s := w.db.sessions[sid];
            && s.id == sid && s.tokenId in w.db.tokens && w.db.tokens[s.tokenId].planId in w.db.plans
            && Account(w, env, Some(sid), e) == PacketReply(w, s, w.db.plans[w.db.tokens[s.tokenId].planId], e, env)
  {
    TotalsCounted(w, env, sid, e);
    UnderLimit(w.db, sid);
    PacketAnswered(w, env, w.db.sessions[sid], w.db.plans[w.db.tokens[w.db.sessions[sid].tokenId].planId], e);
  }

  lemma PacketAnswered(w: World, env: Env, s: Session, plan: Plan, e: AccountingEvent)
    requires Keyed(w.db) && s.id in w.db.sessions && w.db.sessions[s.id] == s && s.status == Live
             && s.tokenId in w.db.tokens
    requires e.kind == StopPacket || e.kind == InterimPacket
    requires CountTotals(w, env, s, e.bytesOut, e.bytesIn) == TotalsReply(w, s, plan, e, env.now)
    ensures Account(w, env, Some(s.id), e) == PacketReply(w, s, plan, e, env)
  {
    AccountForm(w, env, s.id, e);
    if Reaches(plan, Higher(s.bytesUp, e.bytesOut), Higher(s.bytesDown, e.bytesIn)) {
      DropAtLimit(w, env, s, Higher(s.bytesUp, e.bytesOut) - s.bytesUp, Higher(s.bytesDown, e.bytesIn) - s.bytesDown);
    } else if e.kind == StopPacket {
      assert Keyed(Reported(w, s, e, env.now).db);
      StopOutcome(Reported(w, s, e, env.now), env, s.id, if e.stopReason == "" then "radius_stop" else e.stopReason);
    }
  }

  /** The answer to running totals. */
  ghost function TotalsReply(w: World, s: Session, plan: Plan, e: AccountingEvent, now: Time): Reply<UsageUpdate>
    requires s.tokenId in w.db.tokens
  {
    if Reaches(plan, Higher(s.bytesUp, e.bytesOut), Higher(s.bytesDown, e.bytesIn)) then
      var after := ReportedAndConsumed(w, s, e, now);
      Reply(after, Ok(UsageUpdate(after.db.sessions[s.id], Some("data_limit_reached"))))
    else
      var after := Reported(w, s, e, now);
      Reply(after, Ok(UsageUpdate(if s.id in after.db.sessions then after.db.sessions[s.id] else s, None)))
  }

  lemma TotalsCounted(w: World, env: Env, sid: string, e: AccountingEvent)
    requires Valid(w.db) && sid in w.db.sessions && w.db.sessions[sid].status == Live
    ensures var s := w.db.sessions[sid];
            && s.tokenId in w.db.tokens && w.db.tokens[s.tokenId].planId in w.db.plans
            && CountTotals(w, env, s, e.bytesOut, e.bytesIn)
                 == TotalsReply(w, s, w.db.plans[w.db.tokens[s.tokenId].planId], e, env.now)
  {
    var s := w.db.sessions[sid];
    UsageOutcome(w, env, sid, Higher(s.bytesUp, e.bytesOut) - s.bytesUp, Higher(s.bytesDown, e.bytesIn) - s.bytesDown);
    UnderLimit(w.db, sid);
    CountForm(w, env, s, e);
    TotalsAreUsage(w, s, w.db.plans[w.db.tokens[s.tokenId].planId], e, env.now);
  }

  lemma TotalsAreUsage(w: World, s: Session, plan: Plan, e: AccountingEvent, now: Time)
    requires s.tokenId in w.db.tokens && s.id in w.db.sessions && w.db.sessions[s.id] == s
    requires !Reaches(plan, s.bytesUp, s.bytesDown)
    ensures var up, down := Higher(s.bytesUp, e.bytesOut) - s.bytesUp, Higher(s.bytesDown, e.bytesIn) - s.bytesDown;
            TotalsReply(w, s, plan, e, now) ==
              if up == 0 && down == 0 then Reply(w, Ok(UsageUpdate(s, None))) else UsageReply(w, s, plan, up, down, now)
  {
  }

  lemma UnderLimit(db: Db, sid: string)
    requires Valid(db) && sid in db.sessions && db.sessions[sid].status == Live
    ensures var s := db.sessions[sid];
            && s.id == sid && s.tokenId in db.tokens && db.tokens[s.tokenId].planId in db.plans
            && !Reaches(db.plans[db.tokens[s.tokenId].planId], s.bytesUp, s.bytesDown)
  {
    assert SessionOk(db, db.sessions[sid]);
  }

  lemma CountForm(w: World, env: Env, s: Session, e: AccountingEvent)
    ensures var up, down := Higher(s.bytesUp, e.bytesOut) - s.bytesUp, Higher(s.bytesDown, e.bytesIn) - s.bytesDown;
            CountTotals(w, env, s, e.bytesOut, e.bytesIn) ==
              if up == 0 && down == 0 then Reply(w, Ok(UsageUpdate(s, None))) else ApplyUsage(w, env, s.id, up, down)
  {
  }

  lemma AccountForm(w: World, env: Env, sid: string, e: AccountingEvent)
    requires sid in w.db.sessions && w.db.sessions[sid].status == Live
             && (e.kind == StopPacket || e.kind == InterimPacket)
    ensures var counted := CountTotals(w, env, w.db.sessions[sid], e.bytesOut, e.bytesIn);
            var reason := if e.stopReason == "" then "radius_stop" else e.stopReason;
            counted.result.Ok? ==>
              var ended := StopSession(counted.world, env, counted.result.value.session.id, reason);
              if e.kind == StopPacket && counted.result.value.session.status == Live && ended.result.Ok? then
                Account(w, env, Some(sid), e) ==
                  ThenDisconnect(Reply(ended.world, Ok(counted.result.value.(session := ended.result.value))), env)
              else if e.kind == InterimPacket || counted.result.value.session.status == SessionStatus.Ended then
                Account(w, env, Some(sid), e) == ThenDisconnect(counted, env)
              else true
  {
  }

  /** A stop packet stops: whatever the counters, the session has ended at this instant, with the higher totals. */
  lemma StopStops(w: World, env: Env, sid: string, e: AccountingEvent)
    requires Valid(w.db) && sid in w.db.sessions && w.db.sessions[sid].status == Live && e.kind == StopPacket
    ensures var s := w.db.sessions[sid]; var after := Account(w, env, Some(sid), e).world;
            && s.tokenId in w.db.tokens && w.db.tokens[s.tokenId].planId in w.db.plans
            && sid in after.db.sessions && var s' := after.db.sessions[sid];
            && s'.status == Ended && s'.endedAt == Some(env.now)
            && s'.bytesUp == Higher(s.bytesUp, e.bytesOut) && s'.bytesDown == Higher(s.bytesDown, e.bytesIn)
            && var plan := w.db.plans[w.db.tokens[s.tokenId].planId];
               if Reaches(plan, s'.bytesUp, s'.bytesDown) then s'.endReason == "data_limit_reached"
               else
                 && s'.endReason == (if e.stopReason == "" then "radius_stop" else e.stopReason)
                 && !s'.pending && sid in after.stopped && after.db.tokens == w.db.tokens
  {
    TotalsPacketOutcome(w, env, sid, e);
    var s := w.db.sessions[sid];
    StoppedSession(w, s, w.db.plans[w.db.tokens[s.tokenId].planId], e, env);
  }

  lemma StoppedSession(w: World, s: Session, plan: Plan, e: AccountingEvent, env: Env)
    requires s.tokenId in w.db.tokens && s.id in w.db.sessions && w.db.sessions[s.id] == s && e.kind == StopPacket
    ensures var after := PacketReply(w, s, plan, e, env).world;
            && s.id in after.db.sessions && var s' := after.db.sessions[s.id];
            && s'.status == SessionStatus.Ended && s'.endedAt == Some(env.now)
            && s'.bytesUp == Higher(s.bytesUp, e.bytesOut) && s'.bytesDown == Higher(s.bytesDown, e.bytesIn)
            && if Reaches(plan, s'.bytesUp, s'.bytesDown) then s'.endReason == "data_limit_reached"
               else
                 && s'.endReason == (if e.stopReason == "" then "radius_stop" else e.stopReason)
                 && !s'.pending && s.id in after.stopped && after.db.tokens == w.db.tokens
  {
  }

  // ---- Recovery ----

  /**
   Recovery closes exactly the active sessions whose token's expiry instant has passed; the reason is the
   restart, and the disconnect stays owed where the gateway refuses.
   */
  lemma RecoverOutcome(w: World, env: Env, list: seq<Session>, sid: string)
    requires Valid(w.db) && ListsActive(list, w.db.sessions) && sid in w.db.sessions
    ensures var s := w.db.sessions[sid]; var after := Recover(w, env, list).world.db;
            && after.tokens == w.db.tokens && after.usage == w.db.usage && after.sessions.Keys == w.db.sessions.Keys
            && s.tokenId in w.db.tokens && var t := w.db.tokens[s.tokenId];
            && (s.status == Live ==> t.expiresAt.Some?)
            && after.sessions[sid] ==
                 if s.status == Live && t.expiresAt.value < env.now
                 then EndedAs(s, env.now, "recovered_closed", sid in env.failing) else s
  {
    RecoverExact(w, env, list);
    assert SessionOk(w.db, w.db.sessions[sid]);
    if w.db.sessions[sid].status == Live {
      StaleMeansPast(w.db, env.now, sid);
    }
  }
}
