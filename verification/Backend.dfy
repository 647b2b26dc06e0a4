/**
 The services wired over one store, gateway and queue (cmd/api/main.go): each call is one step of the state machine.
 */
module Backends {
  import opened Domain
  import opened Store
  import opened Sessions
  import opened Tokens
  import opened Services
  import opened RadiusServices
  import opened Machine

  class Backend {
    const radius: RadiusService
    ghost const hash: string -> string

    /** The plans are seeded; nothing else is stored yet. */
    constructor (digest: string -> string, plans: map<string, Plan>)
      requires forall k | k in plans :: plans[k].id == k && plans[k].durationMinutes > 0
      ensures hash == Hasher(digest) && fresh(radius.store) && fresh(radius.outside)
      ensures Now().db == Db(plans, map[], map[], map[], []) && Initial(Now()) && Sound()
    {
      var store := new MemoryStore();
      store.plans := plans;
      var outside := new Outside();
      radius := new RadiusService(store, outside, digest);
      hash := Hasher(digest);
    }

    ghost function Now(): World
      reads radius.store, radius.outside
    {
      Snapshot(radius.store, radius.outside)
    }

    ghost predicate Sound()
      reads radius.store, radius.outside
    {
      radius.Wired() && hash == Hasher(radius.tokens.digest) && Valid(Now().db)
    }

    method Generate(planId: string, count: int, notes: string, draws: seq<Draw>, env: Env) returns (r: Result<Vouchers>)
      requires Sound()
      modifies radius.store
      ensures Now() == Apply(hash, old(Now()), env, GenerateStep(planId, count, notes, draws)) && Sound()
    {
      StepKeepsValid(hash, Now(), env, GenerateStep(planId, count, notes, draws));
      r := radius.tokens.GenerateTokens(planId, count, notes, draws, env);
    }

    method Redeem(req: RedeemInput, newId: string, env: Env) returns (r: Result<RedeemResult>)
      requires Sound()
      modifies radius.store, radius.outside
      ensures Now() == Apply(hash, old(Now()), env, RedeemStep(req, newId)) && Sound()
    {
      r := radius.tokens.RedeemToken(req, newId, env);
    }

    method Resume(req: RedeemInput, newId: string, env: Env) returns (r: Result<RedeemResult>)
      requires Sound()
      modifies radius.store, radius.outside
      ensures Now() == Apply(hash, old(Now()), env, ResumeStep(req, newId)) && Sound()
    {
      r := radius.tokens.ResumeToken(req, newId, env);
    }

    method Revoke(tokenId: string, reason: string, env: Env) returns (r: Result<()>)
      requires Sound()
      modifies radius.store, radius.outside
      ensures Now() == Apply(hash, old(Now()), env, RevokeStep(tokenId, reason)) && Sound()
    {
      StepKeepsValid(hash, Now(), env, RevokeStep(tokenId, reason));
      r := radius.tokens.RevokeToken(tokenId, reason, env);
    }

    method Sweep(env: Env) returns (changed: nat, finished: bool, ghost list: seq<Token>)
      requires Sound()
      modifies radius.store, radius.outside
      ensures Enabled(old(Now()), SweepStep(list)) && Now() == Apply(hash, old(Now()), env, SweepStep(list)) && Sound()
    {
      ghost var w := Now();
      changed, finished, list := radius.tokens.SweepExpiredTokens(env);
      StepKeepsValid(hash, w, env, SweepStep(list));
    }

    method Recover(env: Env) returns (closed: nat, ghost list: seq<Session>)
      requires Sound()
      modifies radius.store, radius.outside
      ensures Enabled(old(Now()), RecoverStep(list)) && Now() == Apply(hash, old(Now()), env, RecoverStep(list))
              && Sound()
    {
      ghost var w := Now();
      closed, list := radius.tokens.RecoverSessionsAfterRestart(env);
      StepKeepsValid(hash, w, env, RecoverStep(list));
    }

    /** The source does not look at the token; runs contain the start requests for which this makes no difference. */
    method Start(req: StartInput, newId: string, env: Env) returns (r: Result<Session>)
      requires Sound() && Enabled(Now(), StartStep(req, newId))
      modifies radius.store
      ensures Now() == Apply(hash, old(Now()), env, StartStep(req, newId)) && Sound()
    {
      StepKeepsValid(hash, Now(), env, StartStep(req, newId));
      r := radius.sessions.Start(req, newId, env);
    }

    method Interim(sid: string, up: int, down: int, env: Env) returns (r: Result<()>)
      requires Sound()
      modifies radius.store, radius.outside
      ensures Now() == Apply(hash, old(Now()), env, InterimStep(sid, up, down)) && Sound()
    {
      StepKeepsValid(hash, Now(), env, InterimStep(sid, up, down));
      r := radius.InterimRequest(sid, up, down, env);
    }

    method Stop(sid: string, reason: string, env: Env) returns (r: Result<Session>)
      requires Sound()
      modifies radius.store, radius.outside
      ensures Now() == Apply(hash, old(Now()), env, StopStep(sid, reason)) && Sound()
    {
      StepKeepsValid(hash, Now(), env, StopStep(sid, reason));
      r := radius.sessions.quota.Stop(sid, reason, env);
    }

    method Disconnect(sid: string, reason: string, force: bool, env: Env) returns (r: Result<Session>)
      requires Sound()
      modifies radius.store, radius.outside
      ensures Now() == Apply(hash, old(Now()), env, DisconnectStep(sid, reason, force)) && Sound()
    {
      StepKeepsValid(hash, Now(), env, DisconnectStep(sid, reason, force));
      r := radius.gateway.Disconnect(sid, reason, force, env);
    }

    method Authenticate(auth: AuthInput, newId: string, env: Env, later: Time) returns (d: Decision)
      requires Sound()
      modifies radius.store, radius.outside
      ensures Now() == Apply(hash, old(Now()), env, AuthenticateStep(auth, newId, later)) && Sound()
    {
      d := radius.Authenticate(auth, newId, env, later);
    }

    method Account(event: AccountingEvent, env: Env) returns (r: Result<()>, ghost found: Option<string>)
      requires Sound()
      modifies radius.store, radius.outside
      ensures Enabled(old(Now()), AccountStep(found, event))
      ensures Now() == Apply(hash, old(Now()), env, AccountStep(found, event)) && Sound()
    {
      ghost var w := Now();
      r, found := radius.HandleAccounting(event, env);
      StepKeepsValid(hash, w, env, AccountStep(found, event));
    }

    method Deliver(index: nat, again: bool, env: Env) returns (ok: bool)
      requires Sound() && index < |radius.outside.tasks|
      modifies radius.store, radius.outside
      ensures Now() == Apply(hash, old(Now()), env, RetryStep(index, again)) && Sound()
    {
      StepKeepsValid(hash, Now(), env, RetryStep(index, again));
      ok := radius.gateway.HandleTask(index, again, env);
    }
  }
}
