/** No server-side disconnect is lost: every ended session is confirmed, stopped by the access point, or queued. */
module Disconnects {
  import opened Domain
  import opened Store
  import opened Gateway
  import opened Quota
  import opened Sessions
  import opened Tokens
  import opened Sweeping
  import opened RadiusServices
  import opened Machine

  ghost predicate HasTask(queue: seq<Task>, sid: string) {
    exists i :: 0 <= i < |queue| && queue[i].sessionId == sid
  }

  /** `dropped` are the sessions whose retry the queue failed to store. */
  ghost predicate Settled(w: World, dropped: set<string>, s: Session) {
    s.status == Ended ==>
      if s.pending then HasTask(w.queue, s.id) || s.id in dropped
      else s.id in w.acked || s.id in w.stopped
  }

  ghost predicate SettledBut(w: World, dropped: set<string>, but: set<string>) {
    forall k | k in w.db.sessions && k !in but :: Settled(w, dropped, w.db.sessions[k])
  }

  /** Every queued task names a stored session. */
  ghost predicate TasksKnown(w: World) {
    forall i | 0 <= i < |w.queue| :: w.queue[i].sessionId in w.db.sessions
  }

  ghost predicate NoneLost(w: World, dropped: set<string>) {
    SettledBut(w, dropped, {}) && TasksKnown(w)
  }

  /** Tasks, confirmations and stops only accumulate, and no session but `sid` is rewritten. */
  ghost predicate Grows(a: World, b: World, sid: string) {
    && a.queue <= b.queue && a.acked <= b.acked && a.stopped <= b.stopped
    && a.db.sessions.Keys <= b.db.sessions.Keys
    && (forall k | k in b.db.sessions && k != sid :: k in a.db.sessions && b.db.sessions[k] == a.db.sessions[k])
  }

  lemma HasTaskGrows(a: seq<Task>, b: seq<Task>, sid: string)
    requires a <= b && HasTask(a, sid)
    ensures HasTask(b, sid)
  {
    var i :| 0 <= i < |a| && a[i].sessionId == sid;
    assert b[i].sessionId == sid;
  }

  lemma GrowsKeepsSettled(a: World, b: World, sid: string, dropped: set<string>, but: set<string>)
    requires Grows(a, b, sid) && SettledBut(a, dropped, but) && Keyed(a.db)
    ensures SettledBut(b, dropped, but + {sid})
  {
    forall k | k in b.db.sessions && k !in but + {sid}
      ensures Settled(b, dropped, b.db.sessions[k])
    {
      var s := a.db.sessions[k];
      assert Settled(a, dropped, s);
      if s.status == Ended && s.pending && s.id !in dropped {
        HasTaskGrows(a.queue, b.queue, s.id);
      }
    }
  }

  lemma SettleOne(w: World, dropped: set<string>, sid: string)
    requires SettledBut(w, dropped, {} + {sid}) && (sid in w.db.sessions ==> Settled(w, dropped, w.db.sessions[sid]))
    ensures SettledBut(w, dropped, {})
  {
    forall k | k in w.db.sessions
      ensures Settled(w, dropped, w.db.sessions[k])
    {
      if k != sid {
        assert k !in {} + {sid};
      }
    }
  }

  /** A disconnect that reaches the controller settles its session, whatever the controller answers. */
  lemma DisconnectGrows(w: World, env: Env, sid: string, reason: string, force: bool, dropped: set<string>)
    requires Keyed(w.db) && TasksKnown(w) && env.unqueued <= dropped && sid in w.db.sessions
    requires force || Settled(w, dropped, w.db.sessions[sid])
    ensures var w' := DisconnectSession(w, env, sid, reason, force).world;
            Grows(w, w', sid) && TasksKnown(w') && Settled(w', dropped, w'.db.sessions[sid])
  {
    var w' := DisconnectSession(w, env, sid, reason, force).world;
    if sid in env.failing && sid !in env.unqueued && |w'.queue| > |w.queue| {
      assert w'.queue[|w.queue|].sessionId == sid;
    }
  }

  /** Enough for one operation on one session: only it was touched, and it ends up settled. */
  lemma TouchedKeepsNoneLost(a: World, b: World, sid: string, dropped: set<string>)
    requires Keyed(a.db) && NoneLost(a, dropped) && Grows(a, b, sid) && TasksKnown(b)
    requires sid in b.db.sessions ==> Settled(b, dropped, b.db.sessions[sid])
    ensures NoneLost(b, dropped)
  {
    GrowsKeepsSettled(a, b, sid, dropped, {});
    SettleOne(b, dropped, sid);
  }

  lemma DisconnectKeepsNoneLost(w: World, env: Env, sid: string, reason: string, force: bool, dropped: set<string>)
    requires Keyed(w.db) && NoneLost(w, dropped) && env.unqueued <= dropped
    ensures NoneLost(DisconnectSession(w, env, sid, reason, force).world, dropped)
  {
    if sid in w.db.sessions {
      assert Settled(w, dropped, w.db.sessions[sid]);
      DisconnectGrows(w, env, sid, reason, force, dropped);
      TouchedKeepsNoneLost(w, DisconnectSession(w, env, sid, reason, force).world, sid, dropped);
    }
  }

  lemma EndSessionGrows(w: World, env: Env, s: Session, reason: string, dropped: set<string>)
    requires Keyed(w.db) && TasksKnown(w) && env.unqueued <= dropped && s.id in w.db.sessions && reason != ""
    ensures var w' := EndSession(w, env, s, reason).world;
            Grows(w, w', s.id) && TasksKnown(w') && Settled(w', dropped, w'.db.sessions[s.id])
  {
    var marked := SaveSession(w, s.Close(env.now, reason, true));
    DisconnectGrows(marked, env, s.id, reason, true, dropped);
  }

  lemma EndSessionKeepsNoneLost(w: World, env: Env, s: Session, reason: string, dropped: set<string>)
    requires Keyed(w.db) && NoneLost(w, dropped) && env.unqueued <= dropped && s.id in w.db.sessions && reason != ""
    ensures NoneLost(EndSession(w, env, s, reason).world, dropped)
  {
    EndSessionGrows(w, env, s, reason, dropped);
    TouchedKeepsNoneLost(w, EndSession(w, env, s, reason).world, s.id, dropped);
  }

  lemma SaveTokenKeepsNoneLost(w: World, t: Token, dropped: set<string>)
    requires NoneLost(w, dropped)
    ensures NoneLost(SaveToken(w, t), dropped)
  {
    forall k | k in w.db.sessions
      ensures Settled(SaveToken(w, t), dropped, w.db.sessions[k])
    {
      assert Settled(w, dropped, w.db.sessions[k]);
    }
  }

  lemma RetireTokenKeepsNoneLost(w: World, env: Env, t: Token, reason: string, dropped: set<string>)
    requires Keyed(w.db) && NoneLost(w, dropped) && env.unqueued <= dropped && reason != ""
    ensures NoneLost(RetireToken(w, env, t, reason).world, dropped)
  {
    SaveTokenKeepsNoneLost(w, t, dropped);
    var w1 := SaveToken(w, t);
    var o := ActiveOf(w1.db, t.id);
    if o.Some? {
      var sid :| IsActiveOf(w1.db, sid, t.id) && w1.db.sessions[sid] == o.value;
      EndSessionKeepsNoneLost(w1, env, o.value, reason, dropped);
    }
  }

  /** Saving a live session, new or refreshed, owes nothing. */
  lemma SaveLiveKeepsNoneLost(w: World, s: Session, dropped: set<string>)
    requires Keyed(w.db) && NoneLost(w, dropped) && s.status == Live
    ensures NoneLost(SaveSession(w, s), dropped)
  {
    TouchedKeepsNoneLost(w, SaveSession(w, s), s.id, dropped);
  }

  lemma UseTokenKeepsNoneLost(w: World, env: Env, t: Token, plan: Plan, mac: string, req: RedeemInput,
                              requireActive: bool, newId: string, dropped: set<string>)
    requires Keyed(w.db) && NoneLost(w, dropped) && env.unqueued <= dropped
    ensures NoneLost(UseToken(w, env, t, plan, mac, req, requireActive, newId).world, dropped)
  {
    if t.status == Unused && !requireActive {
      var used := Activate(t, plan, mac, env.now);
      SaveTokenKeepsNoneLost(w, used, dropped);
      SaveLiveKeepsNoneLost(SaveToken(w, used), OpenSession(newId, t.id, mac, req, env.now), dropped);
    } else if t.status == Active {
      SaveLiveKeepsNoneLost(w, OpenSession(newId, t.id, mac, req, env.now), dropped);
      var o := ActiveOf(w.db, t.id);
      if o.Some? {
        SaveLiveKeepsNoneLost(w, Refresh(o.value, req), dropped);
      }
    }
  }

  lemma RedeemKeepsNoneLost(hash: string -> string, w: World, env: Env, req: RedeemInput, requireActive: bool,
                            newId: string, dropped: set<string>)
    requires Keyed(w.db) && NoneLost(w, dropped) && env.unqueued <= dropped
    ensures NoneLost(Redeem(hash, w, env, req, requireActive, newId).world, dropped)
  {
    var admitted := Admit(hash, w.db, req);
    if admitted.Ok? {
      var a := admitted.value;
      if a.token.PastExpiry(env.now) {
        RetireTokenKeepsNoneLost(w, env, AsExpired(a.token, env.now), "expired", dropped);
      } else {
        UseTokenKeepsNoneLost(w, env, a.token, a.plan, a.mac, req, requireActive, newId, dropped);
      }
    }
  }

  lemma {:induction false} SweepKeepsNoneLost(w: World, env: Env, list: seq<Token>, dropped: set<string>)
    requires Valid(w.db) && CurrentTokens(list, w.db) && NoneLost(w, dropped) && env.unqueued <= dropped
    ensures NoneLost(Sweep(w, env, list).world, dropped)
    decreases |list|
  {
    if list == [] {
    } else if !list[0].Due(env.now) {
      CurrentTail(list, w.db, w.db);
      SweepKeepsNoneLost(w, env, list[1..], dropped);
    } else {
      SweepHead(w, env, list);
      RetireTokenKeepsNoneLost(w, env, AsExpired(list[0], env.now), "expired", dropped);
      var r := RetireToken(w, env, AsExpired(list[0], env.now), "expired");
      if r.result.Ok? {
        SweepKeepsNoneLost(r.world, env, list[1..], dropped);
      }
    }
  }

  lemma {:induction false} RecoverKeepsNoneLost(w: World, env: Env, list: seq<Session>, dropped: set<string>)
    requires Valid(w.db) && CurrentSessions(list, w.db) && NoneLost(w, dropped) && env.unqueued <= dropped
    ensures NoneLost(Recover(w, env, list).world, dropped)
    decreases |list|
  {
    if list == [] {
    } else {
      RecoverHead(w, env, list);
      if !Stale(w.db, list[0], env.now) {
        RecoverKeepsNoneLost(w, env, list[1..], dropped);
      } else {
        EndSessionKeepsNoneLost(w, env, list[0], "recovered_closed", dropped);
        RecoverKeepsNoneLost(EndSession(w, env, list[0], "recovered_closed").world, env, list[1..], dropped);
      }
    }
  }

  lemma {:induction false} IssueKeepsNoneLost(hash: string -> string, w: World, now: Time, planId: string,
                                              notes: string, missing: nat, draws: seq<Draw>, dropped: set<string>)
    requires NoneLost(w, dropped)
    ensures NoneLost(Issue(hash, w, now, planId, notes, missing, draws).world, dropped)
    decreases |draws|
  {
    if missing != 0 && draws != [] && draws[0].Drawn? {
      var t := NewToken(draws[0].id, planId, hash(draws[0].code), notes, now);
      SaveTokenKeepsNoneLost(w, t, dropped);
      if t.id in w.db.tokens || t.codeHash in w.db.byHash {
        IssueKeepsNoneLost(hash, w, now, planId, notes, missing, draws[1..], dropped);
      } else {
        IssueKeepsNoneLost(hash, SaveToken(w, t), now, planId, notes, missing - 1, draws[1..], dropped);
      }
    }
  }

  lemma StopKeepsNoneLost(w: World, env: Env, sid: string, reason: string, dropped: set<string>)
    requires Keyed(w.db) && NoneLost(w, dropped)
    ensures NoneLost(StopSession(w, env, sid, reason).world, dropped)
  {
    if sid in w.db.sessions && w.db.sessions[sid].status == Live {
      TouchedKeepsNoneLost(w, StopSession(w, env, sid, reason).world, sid, dropped);
    }
  }

  /** After a usage update only the updated session can be unsettled, and only if a disconnect is now due. */
  lemma ApplyUsageGrows(w: World, env: Env, sid: string, up: int, down: int)
    requires Keyed(w.db)
    ensures var r := ApplyUsage(w, env, sid, up, down);
            && r.world.queue == w.queue && r.world.acked == w.acked && r.world.stopped == w.stopped
            && r.world.db.sessions.Keys == w.db.sessions.Keys
            && Grows(w, r.world, sid)
            && (r.result.Ok? ==>
                  && sid in w.db.sessions && r.result.value.session.id == sid
                  && r.world.db.sessions[sid] == r.result.value.session
                  && (r.result.value.disconnect.None? ==> r.result.value.session.status == Live)
                  && (r.result.value.disconnect.Some? ==> r.result.value.disconnect.value != ""))
            && (r.result.Err? && sid in w.db.sessions ==>
                  r.world.db.sessions[sid] == w.db.sessions[sid] || r.world.db.sessions[sid].status == Live)
  {
  }

  /** A usage update together with the disconnect that follows it. */
  lemma CountedKeepsNoneLost(w: World, r: Reply<UsageUpdate>, env: Env, sid: string, dropped: set<string>)
    requires Keyed(w.db) && Keyed(r.world.db) && NoneLost(w, dropped) && env.unqueued <= dropped
    requires Grows(w, r.world, sid) && TasksKnown(r.world)
    requires r.result.Ok? && r.result.value.disconnect.Some?
             ==> r.result.value.session.id == sid && sid in r.world.db.sessions
    requires !(r.result.Ok? && r.result.value.disconnect.Some?) ==>
               (sid in r.world.db.sessions ==> Settled(r.world, dropped, r.world.db.sessions[sid]))
    ensures NoneLost(ThenDisconnect(r, env).world, dropped)
  {
    GrowsKeepsSettled(w, r.world, sid, dropped, {});
    if r.result.Ok? && r.result.value.disconnect.Some? {
      var d := DisconnectSession(r.world, env, sid, r.result.value.disconnect.value, true).world;
      DisconnectGrows(r.world, env, sid, r.result.value.disconnect.value, true, dropped);
      assert SettledBut(d, dropped, {} + {sid}) by {
        GrowsKeepsSettled(r.world, d, sid, dropped, {} + {sid});
        assert {} + {sid} + {sid} == {} + {sid};
      }
      SettleOne(d, dropped, sid);
    } else {
      SettleOne(r.world, dropped, sid);
    }
  }

  lemma InterimKeepsNoneLost(w: World, env: Env, sid: string, up: int, down: int, dropped: set<string>)
    requires Valid(w.db) && NoneLost(w, dropped) && env.unqueued <= dropped
    ensures NoneLost(Interim(w, env, sid, up, down).world, dropped)
  {
    ApplyUsageGrows(w, env, sid, up, down);
    ApplyUsageKeepsValid(w, env, sid, up, down);
    if sid in w.db.sessions {
      assert Settled(w, dropped, w.db.sessions[sid]);
    }
    CountedKeepsNoneLost(w, ApplyUsage(w, env, sid, up, down), env, sid, dropped);
  }

  /** What a packet for a known session leaves: the others as they were, and this one settled or due. */
  ghost predicate PacketSettles(w: World, r: Reply<UsageUpdate>, sid: string, dropped: set<string>) {
    && Grows(w, r.world, sid) && r.world.queue == w.queue && r.world.db.sessions.Keys == w.db.sessions.Keys
    && sid in r.world.db.sessions
    && (r.result.Ok? && r.result.value.disconnect.Some? ==> r.result.value.session.id == sid)
    && (!(r.result.Ok? && r.result.value.disconnect.Some?) ==> Settled(r.world, dropped, r.world.db.sessions[sid]))
  }

  lemma CountTotalsSettles(w: World, env: Env, sid: string, upTotal: int, downTotal: int, dropped: set<string>)
    requires Keyed(w.db) && sid in w.db.sessions && w.db.sessions[sid].status == Live
    ensures var r := CountTotals(w, env, w.db.sessions[sid], upTotal, downTotal);
            && PacketSettles(w, r, sid, dropped)
            && (r.result.Ok? ==> r.world.db.sessions[sid] == r.result.value.session && r.result.value.session.id == sid
                                 && (r.result.value.session.status == Live ==> r.result.value.disconnect.None?))
  {
    var s := w.db.sessions[sid];
    ApplyUsageGrows(w, env, sid, Growth(upTotal, s.bytesUp), Growth(downTotal, s.bytesDown));
  }

  lemma StopAfterSettles(w: World, counted: Reply<UsageUpdate>, env: Env, sid: string, stopReason: string,
                         dropped: set<string>)
    requires PacketSettles(w, counted, sid, dropped) && counted.result.Ok? && counted.result.value.disconnect.None?
    requires counted.world.db.sessions[sid] == counted.result.value.session && counted.result.value.session.id == sid
    requires counted.result.value.session.status == Live
    ensures PacketSettles(w, StopAfter(counted, env, stopReason), sid, dropped)
  {
  }

  lemma HandleRadiusGrows(w: World, env: Env, sid: string, req: RadiusInput, dropped: set<string>)
    requires Keyed(w.db) && NoneLost(w, dropped) && sid in w.db.sessions
    ensures PacketSettles(w, HandleRadius(w, env, Some(sid), req), sid, dropped)
  {
    var s := w.db.sessions[sid];
    assert Settled(w, dropped, s);
    if req.kind != StartPacket && s.status == Live {
      CountTotalsSettles(w, env, sid, req.upTotal, req.downTotal, dropped);
      var counted := CountTotals(w, env, s, req.upTotal, req.downTotal);
      if counted.result.Ok? && req.kind == StopPacket && counted.result.value.session.status == Live {
        StopAfterSettles(w, counted, env, sid, req.stopReason, dropped);
      }
    }
  }

  lemma AccountKeepsNoneLost(w: World, env: Env, found: Option<string>, e: AccountingEvent, dropped: set<string>)
    requires Valid(w.db) && NoneLost(w, dropped) && env.unqueued <= dropped
             && (found.Some? ==> found.value in w.db.sessions)
    ensures NoneLost(Account(w, env, found, e).world, dropped)
  {
    if e.kind != NoStatus && found.Some? {
      HandleRadiusGrows(w, env, found.value, ToInput(e), dropped);
      HandleRadiusKeepsValid(w, env, found, ToInput(e));
      CountedKeepsNoneLost(w, HandleRadius(w, env, found, ToInput(e)), env, found.value, dropped);
    }
  }

  lemma AuthenticationKeepsNoneLost(hash: string -> string, w: World, env: Env, later: Time, req: AuthInput,
                                    newId: string, dropped: set<string>)
    requires Keyed(w.db) && NoneLost(w, dropped) && env.unqueued <= dropped
    ensures NoneLost(Authentication(hash, w, env, later, req, newId).world, dropped)
  {
    var at := Deciding(hash, w, env, later, req, newId);
    AuthenticateIsRedeem(hash, w, env, later, req, newId);
    RedeemKeepsNoneLost(hash, w, at, AsRedeem(req, req.callingStation), false, newId, dropped);
  }

  /** A delivered task leaves the queue only when its session has been confirmed, or queued again. */
  lemma RetryKeepsNoneLost(w: World, env: Env, index: nat, again: bool, dropped: set<string>)
    requires Keyed(w.db) && NoneLost(w, dropped) && env.unqueued <= dropped && index < |w.queue|
    ensures NoneLost(RetryTask(w, env, index, again), dropped)
  {
    var task := w.queue[index];
    var sid := task.sessionId;
    var w1 := w.(queue := w.queue[..index] + w.queue[index + 1..]);
    TakenTask(w, index, dropped);
    DisconnectGrows(w1, env, sid, task.reason, true, dropped);
    var w2 := DisconnectSession(w1, env, sid, task.reason, true).world;
    assert SettledBut(w2, dropped, {} + {sid}) by {
      GrowsKeepsSettled(w1, w2, sid, dropped, {sid});
      assert {sid} + {sid} == {} + {sid};
    }
    SettleOne(w2, dropped, sid);
    RequeueKeepsNoneLost(w2, task, dropped);
  }

  /** Taking a task out of the queue can leave only its own session without one. */
  lemma TakenTask(w: World, index: nat, dropped: set<string>)
    requires Keyed(w.db) && NoneLost(w, dropped) && index < |w.queue|
    ensures var w1 := w.(queue := w.queue[..index] + w.queue[index + 1..]);
            TasksKnown(w1) && SettledBut(w1, dropped, {w.queue[index].sessionId})
  {
    var w1 := w.(queue := w.queue[..index] + w.queue[index + 1..]);
    forall i | 0 <= i < |w1.queue|
      ensures w1.queue[i].sessionId in w1.db.sessions
    {
      assert w1.queue[i] == if i < index then w.queue[i] else w.queue[i + 1];
    }
    forall k | k in w1.db.sessions && k != w.queue[index].sessionId
      ensures Settled(w1, dropped, w1.db.sessions[k])
    {
      assert Settled(w, dropped, w.db.sessions[k]);
      if HasTask(w.queue, w.db.sessions[k].id) {
        TaskElsewhere(w.queue, index, w.db.sessions[k].id);
      }
    }
  }

  lemma TaskElsewhere(queue: seq<Task>, index: nat, sid: string)
    requires index < |queue| && queue[index].sessionId != sid && HasTask(queue, sid)
    ensures HasTask(queue[..index] + queue[index + 1..], sid)
  {
    var i :| 0 <= i < |queue| && queue[i].sessionId == sid;
    assert (queue[..index] + queue[index + 1..])[if i < index then i else i - 1].sessionId == sid;
  }

  lemma RequeueKeepsNoneLost(w: World, task: Task, dropped: set<string>)
    requires Keyed(w.db) && NoneLost(w, dropped) && task.sessionId in w.db.sessions
    ensures NoneLost(w.(queue := w.queue + [task]), dropped)
  {
    TouchedKeepsNoneLost(w, w.(queue := w.queue + [task]), task.sessionId, dropped) by {
      var s := w.db.sessions[task.sessionId];
      assert Settled(w, dropped, s);
      if HasTask(w.queue, s.id) {
        HasTaskGrows(w.queue, w.queue + [task], s.id);
      }
    }
  }

  lemma StepKeepsNoneLost(hash: string -> string, w: World, env: Env, step: Step, dropped: set<string>)
    requires Valid(w.db) && Enabled(w, step) && NoneLost(w, dropped) && env.unqueued <= dropped
    ensures NoneLost(Apply(hash, w, env, step), dropped)
  {
    match step
    case GenerateStep(planId, count, notes, draws) =>
      if 0 < count {
        IssueKeepsNoneLost(hash, w, env.now, planId, notes, count, draws, dropped);
      }
    case RedeemStep(req, newId) => RedeemKeepsNoneLost(hash, w, env, req, false, newId, dropped);
    case ResumeStep(req, newId) => RedeemKeepsNoneLost(hash, w, env, req, true, newId, dropped);
    case RevokeStep(tokenId, reason) =>
      if tokenId in w.db.tokens {
        RetireTokenKeepsNoneLost(w, env, AsRevoked(w.db.tokens[tokenId], reason, env.now), "revoked", dropped);
      }
    case SweepStep(tokens) => SweepKeepsNoneLost(w, env, tokens, dropped);
    case RecoverStep(sessions) => RecoverKeepsNoneLost(w, env, sessions, dropped);
    case StartStep(start, newId) => StartKeepsNoneLost(w, env, start, newId, dropped);
    case InterimStep(sessionId, up, down) => InterimKeepsNoneLost(w, env, sessionId, up, down, dropped);
    case StopStep(sessionId, reason) => StopKeepsNoneLost(w, env, sessionId, reason, dropped);
    case DisconnectStep(sessionId, reason, force) => DisconnectKeepsNoneLost(w, env, sessionId, reason, force, dropped);
    case AuthenticateStep(auth, newId, later) => AuthenticationKeepsNoneLost(hash, w, env, later, auth, newId, dropped);
    case AccountStep(found, event) => AccountKeepsNoneLost(w, env, found, event, dropped);
    case RetryStep(index, again) => RetryKeepsNoneLost(w, env, index, again, dropped);
  }

  lemma StartKeepsNoneLost(w: World, env: Env, start: StartInput, newId: string, dropped: set<string>)
    requires Keyed(w.db) && NoneLost(w, dropped)
    ensures NoneLost(StartAccounting(w, env, start, ActiveOf(w.db, start.tokenId), newId).world, dropped)
  {
    var r := StartAccounting(w, env, start, ActiveOf(w.db, start.tokenId), newId);
    if r.result.Ok? {
      SaveLiveKeepsNoneLost(w, r.result.value, dropped);
    }
  }

  /** The sessions whose retry was refused by the queue at some point of the run. */
  ghost function Dropped(run: seq<Event>): set<string> {
    if run == [] then {} else run[0].env.unqueued + Dropped(run[1..])
  }

  lemma {:induction false} RunKeepsNoneLost(hash: string -> string, w: World, run: seq<Event>, dropped: set<string>)
    requires Valid(w.db) && Fits(hash, w, run) && NoneLost(w, dropped) && Dropped(run) <= dropped
    ensures NoneLost(Play(hash, w, run), dropped)
    decreases |run|
  {
    if run == [] {
    } else {
      StepKeepsValid(hash, w, run[0].env, run[0].step);
      StepKeepsNoneLost(hash, w, run[0].env, run[0].step, dropped);
      RunKeepsNoneLost(hash, Apply(hash, w, run[0].env, run[0].step), run[1..], dropped);
    }
  }

  /**
   After any run, with any failures of the gateway: an ended session that still owes a disconnect has a
   task in the queue, unless the queue itself refused to store one; and an ended session that owes none
   was confirmed by the gateway or had been stopped by the access point.
   */
  lemma NoDisconnectLost(hash: string -> string, w: World, run: seq<Event>, sid: string)
    requires Initial(w) && Fits(hash, w, run)
    requires var db := Play(hash, w, run).db; sid in db.sessions && db.sessions[sid].status == Ended
    ensures var end := Play(hash, w, run);
            if end.db.sessions[sid].pending then HasTask(end.queue, sid) || sid in Dropped(run)
            else sid in end.acked || sid in end.stopped
  {
    InitialValid(w);
    RunKeepsNoneLost(hash, w, run, Dropped(run));
    RunKeepsValid(hash, w, run);
    var end := Play(hash, w, run);
    assert Settled(end, Dropped(run), end.db.sessions[sid]);
  }

  /** Deliver the queued tasks one after another to a gateway that answers. */
  ghost function Drain(w: World, now: Time): World
    decreases |w.queue|
  {
    if w.queue == [] then w
    else
      var w1 := RetryTask(w, Env(now, {}, {}), 0, false);
      if |w1.queue| < |w.queue| then Drain(w1, now) else w1
  }

  lemma {:induction false} DrainSettles(w: World, now: Time)
    requires Valid(w.db) && NoneLost(w, {})
    ensures var end := Drain(w, now);
            end.queue == [] && NoneLost(end, {}) && Valid(end.db) && Evolves(w.db, end.db)
    decreases |w.queue|
  {
    if w.queue != [] {
      var env := Env(now, {}, {});
      var w1 := RetryTask(w, env, 0, false);
      RetryKeepsNoneLost(w, env, 0, false, {});
      RetryKeepsValid(w, env, 0, false);
      DrainSettles(w1, now);
      EvolvesTransitive(w.db, w1.db, Drain(w1, now).db);
    }
  }

  /** Once the gateway answers again, one pass over the queue leaves no session that owes a disconnect. */
  lemma OnePassClearsAll(hash: string -> string, w: World, run: seq<Event>, now: Time)
    requires Initial(w) && Fits(hash, w, run) && Dropped(run) == {}
    ensures var end := Drain(Play(hash, w, run), now);
            && end.queue == []
            && (forall k | k in end.db.sessions && end.db.sessions[k].status == Ended :: !end.db.sessions[k].pending)
  {
    InitialValid(w);
    RunKeepsNoneLost(hash, w, run, {});
    RunKeepsValid(hash, w, run);
    DrainSettles(Play(hash, w, run), now);
    var end := Drain(Play(hash, w, run), now);
    forall k | k in end.db.sessions && end.db.sessions[k].status == Ended
      ensures !end.db.sessions[k].pending
    {
      assert Settled(end, {}, end.db.sessions[k]);
    }
  }
}
