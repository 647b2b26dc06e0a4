/** What generating vouchers does: which draws are taken, what is stored, and how it ends. */
module Generation {
  import opened Domain
  import opened Store
  import opened Gateway
  import opened Tokens
  import opened Sweeping

  /** The stored record of a voucher as drawn. */
  ghost predicate StoredAs(hash: string -> string, db: Db, v: Issued, planId: string, notes: string, now: Time) {
    v.tokenId in db.tokens
    && db.tokens[v.tokenId] == Token(v.tokenId, planId, hash(v.code), Unused, now, now, None, None, None, notes, "")
  }

  ghost predicate AllStored(hash: string -> string, db: Db, issued: seq<Issued>, planId: string, notes: string,
                            now: Time) {
    forall i | 0 <= i < |issued| :: StoredAs(hash, db, issued[i], planId, notes, now)
  }

  ghost predicate BatchStored(hash: string -> string, b: Batch, planId: string, notes: string, now: Time) {
    AllStored(hash, b.world.db, b.issued, planId, notes, now)
  }

  lemma {:induction false} IssueStores(hash: string -> string, w: World, now: Time, planId: string, notes: string,
                                       missing: nat, draws: seq<Draw>)
    ensures BatchStored(hash, Issue(hash, w, now, planId, notes, missing, draws), planId, notes, now)
    decreases |draws|
  {
    if missing == 0 || draws == [] || draws[0].Failure? {
    } else {
      var t := NewToken(draws[0].id, planId, hash(draws[0].code), notes, now);
      if t.id in w.db.tokens || t.codeHash in w.db.byHash {
        IssueStores(hash, w, now, planId, notes, missing, draws[1..]);
      } else {
        IssueStores(hash, SaveToken(w, t), now, planId, notes, missing - 1, draws[1..]);
        StoredOne(hash, w, now, planId, notes, missing - 1, draws[1..], t, draws[0].code);
      }
    }
  }

  lemma StoredOne(hash: string -> string, w: World, now: Time, planId: string, notes: string, missing: nat,
                  draws: seq<Draw>, t: Token, code: string)
    requires t == NewToken(t.id, planId, hash(code), notes, now)
    requires BatchStored(hash, Issue(hash, SaveToken(w, t), now, planId, notes, missing, draws), planId, notes, now)
    ensures var rest := Issue(hash, SaveToken(w, t), now, planId, notes, missing, draws);
            BatchStored(hash, rest.(issued := [Issued(t.id, code)] + rest.issued), planId, notes, now)
  {
    var rest := Issue(hash, SaveToken(w, t), now, planId, notes, missing, draws);
    IssueAdds(hash, SaveToken(w, t), now, planId, notes, missing, draws);
    StoredCons(hash, SaveToken(w, t).db, rest.world.db, t, code, rest.issued, planId, notes, now);
  }

  lemma StoredCons(hash: string -> string, mid: Db, after: Db, t: Token, code: string, rest: seq<Issued>,
                   planId: string, notes: string, now: Time)
    requires Keeps(mid, after, rest) && AllStored(hash, after, rest, planId, notes, now)
    requires t.id in mid.tokens && mid.tokens[t.id] == t && t == NewToken(t.id, planId, hash(code), notes, now)
    ensures AllStored(hash, after, [Issued(t.id, code)] + rest, planId, notes, now)
  {
    var all := [Issued(t.id, code)] + rest;
    assert after.tokens[t.id] == t;
    forall i | 0 <= i < |all|
      ensures StoredAs(hash, after, all[i], planId, notes, now)
    {
      assert i > 0 ==> all[i] == rest[i - 1];
    }
  }

  /** The draw was taken: its identifier or its hash is in the store. */
  ghost predicate Taken(hash: string -> string, db: Db, d: Draw) {
    d.Drawn? && (d.id in db.tokens || hash(d.code) in db.byHash)
  }

  ghost predicate AllTaken(hash: string -> string, db: Db, draws: seq<Draw>) {
    forall i | 0 <= i < |draws| :: Taken(hash, db, draws[i])
  }

  ghost predicate AllDrawn(issued: seq<Issued>, draws: seq<Draw>) {
    forall i | 0 <= i < |issued| :: Drawn(issued[i].code, issued[i].tokenId) in draws
  }

  /**
   No draw is passed over: the first `used` ones are stored or were taken already, and what ended the batch is next.
   */
  ghost predicate Used(hash: string -> string, b: Batch, missing: nat, draws: seq<Draw>, used: nat) {
    && used <= |draws|
    && AllTaken(hash, b.world.db, draws[..used]) && AllDrawn(b.issued, draws[..used])
    && match b.end
       case Complete => |b.issued| == missing
       case StillTrying => |b.issued| < missing && used == |draws|
       case SourceFailed => |b.issued| < missing && used < |draws| && draws[used] == Failure
  }

  lemma {:induction false} IssueUses(hash: string -> string, w: World, now: Time, planId: string, notes: string,
                                     missing: nat, draws: seq<Draw>) returns (used: nat)
    ensures Used(hash, Issue(hash, w, now, planId, notes, missing, draws), missing, draws, used)
    decreases |draws|
  {
    used := 0;
    if missing == 0 || draws == [] || draws[0].Failure? {
      return;
    }
    var t := NewToken(draws[0].id, planId, hash(draws[0].code), notes, now);
    if t.id in w.db.tokens || t.codeHash in w.db.byHash {
      used := IssueUses(hash, w, now, planId, notes, missing, draws[1..]);
      StillTaken(hash, w, now, planId, notes, missing, draws[1..], draws[0]);
      UsedPast(hash, Issue(hash, w, now, planId, notes, missing, draws[1..]), missing, draws, used);
    } else {
      var w1 := SaveToken(w, t);
      used := IssueUses(hash, w1, now, planId, notes, missing - 1, draws[1..]);
      StillTaken(hash, w1, now, planId, notes, missing - 1, draws[1..], draws[0]);
      UsedOne(hash, Issue(hash, w1, now, planId, notes, missing - 1, draws[1..]), missing - 1, draws, used);
    }
    used := used + 1;
  }

  lemma StillTaken(hash: string -> string, w: World, now: Time, planId: string, notes: string, missing: nat,
                   draws: seq<Draw>, d: Draw)
    requires Taken(hash, w.db, d)
    ensures Taken(hash, Issue(hash, w, now, planId, notes, missing, draws).world.db, d)
  {
    IssueAdds(hash, w, now, planId, notes, missing, draws);
  }

  lemma UsedPast(hash: string -> string, b: Batch, missing: nat, draws: seq<Draw>, used: nat)
    requires draws != [] && Used(hash, b, missing, draws[1..], used) && Taken(hash, b.world.db, draws[0])
    ensures Used(hash, b, missing, draws, used + 1)
  {
    TakenCons(hash, b.world.db, draws, used);
    assert forall i | 0 <= i < |b.issued| :: Drawn(b.issued[i].code, b.issued[i].tokenId) in draws[..used + 1];
  }

  lemma UsedOne(hash: string -> string, b: Batch, missing: nat, draws: seq<Draw>, used: nat)
    requires draws != [] && Used(hash, b, missing, draws[1..], used) && Taken(hash, b.world.db, draws[0])
    ensures Used(hash, b.(issued := [Issued(draws[0].id, draws[0].code)] + b.issued), missing + 1, draws, used + 1)
  {
    TakenCons(hash, b.world.db, draws, used);
    var all := [Issued(draws[0].id, draws[0].code)] + b.issued;
    forall i | 0 <= i < |all|
      ensures Drawn(all[i].code, all[i].tokenId) in draws[..used + 1]
    {
      assert i > 0 ==> all[i] == b.issued[i - 1];
    }
  }

  lemma TakenCons(hash: string -> string, db: Db, draws: seq<Draw>, used: nat)
    requires draws != [] && used <= |draws| - 1 && AllTaken(hash, db, draws[1..][..used]) && Taken(hash, db, draws[0])
    ensures AllTaken(hash, db, draws[..used + 1])
    ensures draws[..used + 1] == [draws[0]] + draws[1..][..used]
  {
    assert draws[..used + 1] == [draws[0]] + draws[1..][..used];
  }

  /** A count outside 1 to 1000, an unknown plan and an inactive plan are refused, and nothing is drawn. */
  lemma GenerateRefused(hash: string -> string, w: World, env: Env, planId: string, count: int, notes: string,
                        draws: seq<Draw>)
    ensures var r := Generate(hash, w, env, planId, count, notes, draws);
            && (count < 1 || count > 1000 ==> r == Reply(w, Err(InvalidCount)))
            && (1 <= count <= 1000 && planId !in w.db.plans ==> r == Reply(w, Err(NotFound)))
            && (1 <= count <= 1000 && planId in w.db.plans && !w.db.plans[planId].active
               ==> r == Reply(w, Err(PlanInactive)))
  {
  }

  /**
   Otherwise the draws are used in turn: each is stored as an unused voucher of the plan or was taken already,
   none is passed over, and nothing else changes. The call returns the vouchers when they are as many as asked
   for; it fails when the source does, keeping what is stored.
   */
  lemma GenerateOutcome(hash: string -> string, w: World, env: Env, planId: string, count: int, notes: string,
                        draws: seq<Draw>) returns (issued: seq<Issued>, used: nat)
    requires 1 <= count <= 1000 && planId in w.db.plans && w.db.plans[planId].active
    ensures var r := Generate(hash, w, env, planId, count, notes, draws); var after := r.world.db;
            && r.world == w.(db := after) && Adds(hash, w.db, after, planId, issued)
            && AllStored(hash, after, issued, planId, notes, env.now)
            && used <= |draws| && AllTaken(hash, after, draws[..used]) && AllDrawn(issued, draws[..used])
            && |issued| <= count
            && if |issued| == count then r.result == Ok(Vouchers(issued, Complete))
               else if used < |draws| then draws[used] == Failure && r.result == Err(RandomFailed)
               else r.result == Ok(Vouchers(issued, StillTrying))
  {
    var b := Issue(hash, w, env.now, planId, notes, count, draws);
    issued := b.issued;
    used := IssueUses(hash, w, env.now, planId, notes, count, draws);
    IssueCount(hash, w, env.now, planId, notes, count, draws);
    IssueAdds(hash, w, env.now, planId, notes, count, draws);
    IssueStores(hash, w, env.now, planId, notes, count, draws);
  }
}
