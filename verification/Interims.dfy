/** Running totals may arrive in any order and any number of times. */
module Interims {
  import opened Domain
  import opened Store
  import opened Gateway
  import opened Quota
  import opened Sessions

  /** One interim packet for a given session, with what the surroundings did meanwhile. */
  datatype Report = Report(env: Env, event: AccountingEvent)
  {
    function Totals(): Traffic { Traffic(event.bytesOut, event.bytesIn) }
  }

  ghost predicate AllInterim(reports: seq<Report>) {
    forall i | 0 <= i < |reports| :: reports[i].event.kind == InterimPacket
  }

  function Max(a: int, b: int): int {
    if a >= b then a else b
  }

  function Raise(base: Traffic, t: Traffic): Traffic {
    Traffic(Max(base.up, t.up), Max(base.down, t.down))
  }

  /** The highest upload and download totals, counting from what the session already holds. */
  function Highest(base: Traffic, reports: seq<Report>): Traffic
    decreases |reports|
  {
    if reports == [] then base else Highest(Raise(base, reports[0].Totals()), reports[1..])
  }

  predicate OverLimit(t: Traffic, plan: Plan) {
    plan.dataLimitMB * 1_048_576 > 0 && t.up + t.down >= plan.dataLimitMB * 1_048_576
  }

  function CountersOf(s: Session): Traffic { Traffic(s.bytesUp, s.bytesDown) }

  function Deliver(w: World, sid: string, r: Report): World
    requires sid in w.db.sessions
  {
    Account(w, r.env, Some(sid), r.event).world
  }

  lemma DeliverKeeps(w: World, sid: string, r: Report)
    requires Valid(w.db) && sid in w.db.sessions
    ensures Valid(Deliver(w, sid, r).db) && sid in Deliver(w, sid, r).db.sessions
  {
    AccountKeepsValid(w, r.env, Some(sid), r.event);
  }

  ghost function DeliverAll(w: World, sid: string, reports: seq<Report>): World
    requires Valid(w.db) && sid in w.db.sessions
    decreases |reports|
  {
    if reports == [] then w
    else
      DeliverKeeps(w, sid, reports[0]);
      DeliverAll(Deliver(w, sid, reports[0]), sid, reports[1..])
  }

  /** The owner of a stored session and its plan. */
  ghost function PlanOf(db: Db, sid: string): Plan
    requires Valid(db) && sid in db.sessions
  {
    assert SessionOk(db, db.sessions[sid]) && TokenOk(db, db.tokens[db.sessions[sid].tokenId]);
    db.plans[db.tokens[db.sessions[sid].tokenId].planId]
  }

  /** A packet for an ended session changes nothing. */
  lemma DeliverToEnded(w: World, sid: string, r: Report)
    requires sid in w.db.sessions && w.db.sessions[sid].status == Ended && r.event.kind == InterimPacket
    ensures Deliver(w, sid, r) == w
  {
  }

  lemma {:induction false} DeliverAllToEnded(w: World, sid: string, reports: seq<Report>)
    requires Valid(w.db) && sid in w.db.sessions && w.db.sessions[sid].status == Ended && AllInterim(reports)
    ensures DeliverAll(w, sid, reports) == w
    decreases |reports|
  {
    if reports == [] {
    } else {
      DeliverToEnded(w, sid, reports[0]);
      DeliverAllToEnded(w, sid, reports[1..]);
    }
  }

  /** The verdict on a session: still active with these counters, or ended at the limit with its token consumed. */
  ghost predicate Verdict(w: World, sid: string, tid: string, tokenBefore: Token, counters: Traffic, over: bool) {
    && sid in w.db.sessions && w.db.sessions[sid].tokenId == tid && tid in w.db.tokens
    && if over then
         w.db.sessions[sid].status == Ended && w.db.sessions[sid].endReason == DATA_LIMIT
             && w.db.tokens[tid].status == Consumed
       else
         w.db.sessions[sid].status == Live && CountersOf(w.db.sessions[sid]) == counters
             && w.db.tokens[tid] == tokenBefore
  }

  lemma CountTotalsVerdict(w: World, env: Env, sid: string, upTotal: int, downTotal: int)
    requires Valid(w.db) && sid in w.db.sessions && w.db.sessions[sid].status == Live
    ensures var s := w.db.sessions[sid]; var high := Raise(CountersOf(s), Traffic(upTotal, downTotal));
            var r := CountTotals(w, env, s, upTotal, downTotal); var over := OverLimit(high, PlanOf(w.db, sid));
            && Verdict(r.world, sid, s.tokenId, w.db.tokens[s.tokenId], high, over)
            && r.result.Ok? && r.result.value.session.id == sid
            && r.result.value.disconnect == (if over then Some(DATA_LIMIT) else None)
  {
    var s := w.db.sessions[sid];
    assert SessionOk(w.db, s) && TokenOk(w.db, w.db.tokens[s.tokenId]);
    ApplyUsageForm(w, env, sid, Growth(upTotal, s.bytesUp), Growth(downTotal, s.bytesDown));
  }

  lemma DisconnectKeepsVerdict(w: World, env: Env, sid: string, tid: string, tokenBefore: Token, counters: Traffic)
    requires Verdict(w, sid, tid, tokenBefore, counters, true) && w.db.sessions[sid].id == sid
    ensures Verdict(DisconnectSession(w, env, sid, DATA_LIMIT, true).world, sid, tid, tokenBefore, counters, true)
  {
  }

  lemma DeliverVerdict(w: World, sid: string, r: Report)
    requires Valid(w.db) && sid in w.db.sessions && w.db.sessions[sid].status == Live && r.event.kind == InterimPacket
    ensures var s := w.db.sessions[sid]; var high := Raise(CountersOf(s), r.Totals());
            Verdict(Deliver(w, sid, r), sid, s.tokenId, w.db.tokens[s.tokenId], high,
                    OverLimit(high, PlanOf(w.db, sid)))
  {
    var s := w.db.sessions[sid];
    var high := Raise(CountersOf(s), r.Totals());
    CountTotalsVerdict(w, r.env, sid, r.event.bytesOut, r.event.bytesIn);
    CountTotalsKeepsValid(w, r.env, s, r.event.bytesOut, r.event.bytesIn);
    var counted := CountTotals(w, r.env, s, r.event.bytesOut, r.event.bytesIn);
    DeliverForm(w, sid, r);
    if counted.result.value.disconnect.Some? {
      DisconnectKeepsVerdict(counted.world, r.env, sid, s.tokenId, w.db.tokens[s.tokenId], high);
    }
  }

  lemma DeliverForm(w: World, sid: string, r: Report)
    requires sid in w.db.sessions && w.db.sessions[sid].status == Live && r.event.kind == InterimPacket
    ensures var counted := CountTotals(w, r.env, w.db.sessions[sid], r.event.bytesOut, r.event.bytesIn);
            Deliver(w, sid, r) == ThenDisconnect(counted, r.env).world
  {
  }

  lemma {:induction false} HighestGrows(base: Traffic, reports: seq<Report>)
    ensures Highest(base, reports).up >= base.up && Highest(base, reports).down >= base.down
    decreases |reports|
  {
    if reports == [] {
    } else {
      HighestGrows(Raise(base, reports[0].Totals()), reports[1..]);
    }
  }

  lemma PlanStays(w: World, sid: string, r: Report)
    requires Valid(w.db) && sid in w.db.sessions
    ensures Valid(Deliver(w, sid, r).db) && sid in Deliver(w, sid, r).db.sessions
    ensures PlanOf(Deliver(w, sid, r).db, sid) == PlanOf(w.db, sid)
  {
    AccountKeepsValid(w, r.env, Some(sid), r.event);
    var s := w.db.sessions[sid];
    assert SessionEvolves(s, Deliver(w, sid, r).db.sessions[sid]);
    assert TokenEvolves(w.db.tokens[s.tokenId], Deliver(w, sid, r).db.tokens[s.tokenId]);
  }

  /**
   After any sequence of interim packets the session has ended at the limit, and its token is consumed,
   exactly when the highest totals reach a positive limit; otherwise its counters are those totals.
   */
  lemma {:induction false} InterimsOutcome(w: World, sid: string, reports: seq<Report>)
    requires Valid(w.db) && sid in w.db.sessions && w.db.sessions[sid].status == Live && AllInterim(reports)
    ensures var s := w.db.sessions[sid]; var high := Highest(CountersOf(s), reports);
            Verdict(DeliverAll(w, sid, reports), sid, s.tokenId, w.db.tokens[s.tokenId], high,
                    OverLimit(high, PlanOf(w.db, sid)))
    decreases |reports|
  {
    var s := w.db.sessions[sid];
    assert SessionOk(w.db, s);
    if reports == [] {
    } else {
      var w1 := Deliver(w, sid, reports[0]);
      var high := Raise(CountersOf(s), reports[0].Totals());
      DeliverVerdict(w, sid, reports[0]);
      DeliverKeeps(w, sid, reports[0]);
      HighestGrows(high, reports[1..]);
      if w1.db.sessions[sid].status == Ended {
        DeliverAllToEnded(w1, sid, reports[1..]);
      } else {
        PlanStays(w, sid, reports[0]);
        InterimsOutcome(w1, sid, reports[1..]);
      }
    }
  }

  // ---- Order and repetition ----

  ghost function UpTotals(reports: seq<Report>): set<int> {
    set i | 0 <= i < |reports| :: reports[i].Totals().up
  }

  ghost function DownTotals(reports: seq<Report>): set<int> {
    set i | 0 <= i < |reports| :: reports[i].Totals().down
  }

  /** The highest total is one of the totals, or the base, and none exceeds it. */
  lemma {:induction false} HighestIsGreatest(base: Traffic, reports: seq<Report>)
    ensures var h := Highest(base, reports);
            && (h.up == base.up || h.up in UpTotals(reports)) && (forall u | u in UpTotals(reports) :: u <= h.up)
            && (h.down == base.down || h.down in DownTotals(reports))
               && (forall d | d in DownTotals(reports) :: d <= h.down)
            && base.up <= h.up && base.down <= h.down
    decreases |reports|
  {
    if reports == [] {
    } else {
      var base' := Raise(base, reports[0].Totals());
      var rest := reports[1..];
      HighestIsGreatest(base', rest);
      assert reports[0].Totals().up in UpTotals(reports) && reports[0].Totals().down in DownTotals(reports);
      forall u
        ensures u in UpTotals(reports) <==> u == reports[0].Totals().up || u in UpTotals(rest)
      {
        if u in UpTotals(reports) {
          var i :| 0 <= i < |reports| && reports[i].Totals().up == u;
          if i > 0 {
            assert rest[i - 1].Totals().up == u;
          }
        }
        if u in UpTotals(rest) {
          var i :| 0 <= i < |rest| && rest[i].Totals().up == u;
          assert reports[i + 1].Totals().up == u;
        }
      }
      forall d
        ensures d in DownTotals(reports) <==> d == reports[0].Totals().down || d in DownTotals(rest)
      {
        if d in DownTotals(reports) {
          var i :| 0 <= i < |reports| && reports[i].Totals().down == d;
          if i > 0 {
            assert rest[i - 1].Totals().down == d;
          }
        }
        if d in DownTotals(rest) {
          var i :| 0 <= i < |rest| && rest[i].Totals().down == d;
          assert reports[i + 1].Totals().down == d;
        }
      }
    }
  }

  /**
   Two sequences that report the same totals, in whatever order and however often, agree on whether
   the session ends and the token is consumed, and on the counters if it does not.
   */
  lemma OrderAndRepetitionIrrelevant(w: World, sid: string, a: seq<Report>, b: seq<Report>)
    requires Valid(w.db) && sid in w.db.sessions && w.db.sessions[sid].status == Live && AllInterim(a) && AllInterim(b)
    requires UpTotals(a) == UpTotals(b) && DownTotals(a) == DownTotals(b)
    ensures var s := w.db.sessions[sid]; var high := Highest(CountersOf(s), a);
            var over := OverLimit(high, PlanOf(w.db, sid));
            && Verdict(DeliverAll(w, sid, a), sid, s.tokenId, w.db.tokens[s.tokenId], high, over)
            && Verdict(DeliverAll(w, sid, b), sid, s.tokenId, w.db.tokens[s.tokenId], high, over)
  {
    var base := CountersOf(w.db.sessions[sid]);
    HighestIsGreatest(base, a);
    HighestIsGreatest(base, b);
    InterimsOutcome(w, sid, a);
    InterimsOutcome(w, sid, b);
  }

  lemma PermutationSameTotals(a: seq<Report>, b: seq<Report>)
    requires multiset(a) == multiset(b)
    ensures UpTotals(a) == UpTotals(b) && DownTotals(a) == DownTotals(b)
  {
    SubsetTotals(a, b);
    SubsetTotals(b, a);
  }

  lemma SubsetTotals(a: seq<Report>, b: seq<Report>)
    requires forall r | r in a :: r in multiset(b)
    ensures UpTotals(a) <= UpTotals(b) && DownTotals(a) <= DownTotals(b)
  {
    forall i | 0 <= i < |a|
      ensures a[i].Totals().up in UpTotals(b) && a[i].Totals().down in DownTotals(b)
    {
      assert a[i] in a;
      assert a[i] in b;
      var j :| 0 <= j < |b| && b[j] == a[i];
    }
  }
}
