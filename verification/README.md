# Voucher, session and quota model of a captive-portal backend

The backend sells prepaid access. A plan has a duration and a data limit; a voucher (token) of a plan is drawn in
batches, redeemed by one device, and kept alive by resuming it; sessions count bytes; a gateway is told to drop a
session when the voucher expires, is revoked or has used up its data; and access points talk RADIUS to it. Several
services write the same token and session records along different paths. This project models those services over
the in-memory store, proves each service method against a function on the whole system state, and proves what
holds over every run of them.

`dafny verify dfyconfig.toml` checks everything.

## How it is organised

| file | contents |
|---|---|
| Domain.dfy | plans, tokens, sessions, usage records, retry requests, the surroundings of one step (clock, gateway, queue) |
| Keys.dfy, Codes.dfy | canonical MAC addresses and voucher codes; drawing of codes |
| Store.dfy | the store as a value and as an object; what a valid store satisfies; how a store may evolve |
| Gateway.dfy | disconnecting a session, the retry queue |
| Quota.dfy, Sessions.dfy | counters, the data limit, stops, accounting requests |
| Tokens.dfy, Services.dfy | vouchers from generation to their final status, as functions and as the service object |
| Sweeping.dfy, Recovery.dfy | passes over many records: sweep, generation and recovery, and exactly what each leaves |
| RadiusService.dfy, RadiusServer.dfy | authentication and accounting, from the datagram to the store and back |
| Machine.dfy | one step relation over all operations, runs, and what holds in every reachable state |
| Disconnects.dfy, LazyExpiry.dfy, Interims.dfy, Isolation.dfy, Claims.dfy, Devices.dfy | the main results about runs |
| Vouchers.dfy, Endings.dfy, Generation.dfy, Formats.dfy, Datagrams.dfy | what each operation leaves in the store and on the wire, field by field and byte by byte |
| Backend.dfy | the wired services as an object whose every call is one step of the state machine |
| Packets.dfy, Texts.dfy, Wire.dfy | the RADIUS codec as functions and as byte loops; texts and addresses in attributes; what an Access-Accept tells the access point |

The state is a `World`: the store, the queue of retry requests, and two histories used only in statements (sessions
the gateway confirmed, sessions the access point stopped). Each operation reads the clock once, authentication up
to twice, and runs to its end before the next one starts. What the surroundings decide is an input of the step: the instant, the sessions whose
disconnect the gateway refuses, the sessions whose retry the queue refuses, fresh identifiers, and the order in
which the store lists its maps. The hash from code to key, SHA-256 and MD5 are arbitrary functions.

## What the code does where one might expect otherwise

- A start request from the HTTP side never looks at the token (session_service.go:71-84). `Sessions.StartExactlyWhen`
  says exactly which start requests keep the store valid, `Sessions.StartUnchecked` exhibits one that does not; runs
  contain only those that do.
- The sweep expires a token at its expiry instant (`!Before`), recovery only after it (`After`).
- Upload totals are taken from Acct-Output-Octets and download totals from Acct-Input-Octets
  (radius_service.go:115-116), the reverse of sections 5.3 and 5.4 of RFC 2866. The quota counts the sum, so it is not
  affected; the two counters of a session are swapped with respect to the device.
- A revoked or consumed token can still be relabelled expired, and any token revoked. `Machine.TokensMoveForward` and
  `Machine.RetiredStaysRefused` hold all the same.
- A failed delivery of a retry request adds another request, in addition to whatever the queue does with the failed one.
- The parser accepts packets of up to 65535 bytes; section 3 of RFC 2865 stops at 4096. The server's read buffer holds
  4096 bytes (radius_server.go:68), so longer datagrams reach the parser cut off.
- A redeem that finds the token expired keeps its writes although it reports an error: the store does not roll back.

## Model

| member | source | states |
|---|---|---|
| LazyExpiry.LazyEqualsEager | backend/internal/service/token_service.go:129-413 | in any run with a clock that does not go back, a gateway that answers, and start requests only for tokens not past their expiry, removing every sweep and every recovery changes no answer to any redeem, resume or authentication |
| LazyExpiry.StepAlike | backend/internal/service/token_service.go:129-305 | two stores that differ only on tokens past their expiry and on those tokens' sessions give the same answers to the same step, start requests for a token before its expiry included, and stay so related |
| LazyExpiry.HousekeepingUnseen | backend/internal/service/token_service.go:307-380 | a sweep or a recovery on one side keeps the two stores so related |
| Machine.StepKeepsValid | backend/internal/service/token_service.go:59-413 | every operation, successful, refused or cut short by the gateway, keeps all store invariants at once and moves every record only forward |
| Machine.RunKeepsValid | backend/internal/service/token_service.go:59-413 | the same over every finite run |
| Backends.Backend.Revoke | backend/cmd/api/main.go:66-145 | on the wired services a revocation is exactly the machine's revocation step and keeps the store valid |
| Backends.Backend.Redeem | backend/cmd/api/main.go:66-145 | a redeem is exactly the machine's redeem step |
| Backends.Backend.Sweep | backend/cmd/api/main.go:66-145 | a sweep is exactly the machine's sweep step over the list the store gave |
| Backends.Backend.Account | backend/cmd/api/main.go:66-145 | a RADIUS accounting request is exactly the machine's step for the session the store found |
| Backends.Backend.Authenticate | backend/cmd/api/main.go:66-145 | a RADIUS authentication is exactly the machine's authentication step |
| Machine.ActiveSessionsSound | backend/internal/service/quota_service.go:64-100 | in every reachable state an active session is the only one of its token, the token exists and is active, its plan exists, and with a positive limit the counters are below it |
| Machine.IndexIsSearch | backend/internal/repository/memory.go:95-140 | in every reachable state the lookup by hash finds exactly the token that a search through all tokens would find |
| Machine.EndedIsFinal | backend/internal/service/gateway_service.go:51-79 | whatever happens after a session has ended, its status, end instant, reason, counters and owner stand |
| Machine.TokensMoveForward | backend/internal/service/token_service.go:161-175 | status rank never decreases; device, activation and expiry are set together, never change once set, and expiry is activation plus the plan's minutes |
| Machine.StatusForward | backend/internal/service/token_service.go:161-261 | a used token is never unused again, and an expired, consumed or revoked one always is one of these |
| Machine.RedeemedWasOpen | backend/internal/service/token_service.go:161-262 | a successful redeem or resume found a token that was unused or active |
| Machine.RetiredStaysRefused | backend/internal/service/token_service.go:253-261 | a token that is expired, consumed or revoked is refused after every later run |
| Disconnects.NoDisconnectLost | backend/internal/service/gateway_service.go:51-79 | after every run an ended session that owes a disconnect has a request in the queue unless the queue refused one for it, and an ended session that owes none was confirmed by the gateway or stopped by the access point |
| Disconnects.StepKeepsNoneLost | backend/internal/service/token_service.go:276-300 | each single operation keeps that |
| Disconnects.OnePassClearsAll | backend/internal/jobs/worker.go:25-39 | once the gateway answers, one pass over the queue empties it and leaves no session owing a disconnect |
| Isolation.StepConfined | backend/internal/service/token_service.go:129-305 | every request rewrites, opens or ends only records of the one token that its code, session or identifier names, adds usage only to that token, and changes no record when it names none, even when the gateway refuses |
| Isolation.OthersLeaveAlone | backend/internal/service/radius_service.go:55-134 | no run of requests for other tokens, of generations, and of sweeps and recoveries that find nothing due here changes a token, or adds, removes or changes a session or usage record of it |
| Isolation.SweepElsewhere | backend/internal/service/token_service.go:314-345 | a sweep, completed or cut short, leaves alone every token that is not due |
| Isolation.RecoverElsewhere | backend/internal/service/token_service.go:356-378 | a recovery leaves alone every token without a stale session |
| Isolation.RedeemOnly | backend/internal/service/token_service.go:129-262 | a redeem or resume, granted, refused or finding the token expired, concerns only the token that the code names |
| RadiusServices.AuthenticateIsRedeem | backend/internal/service/radius_service.go:55-94 | resume-then-redeem, with a clock reading each, is one redeem at one of the two readings: same final state, same allow or deny, same session, policy and reason; a malformed address is denied by both and changes nothing |
| RadiusServices.ReadingDecidesNothing | backend/internal/service/radius_service.go:80-85 | the second clock reading changes neither whether access is allowed nor the reason of a denial |
| RadiusServices.ResumeOrRedeem | backend/internal/service/token_service.go:103-127 | a resume agrees with a redeem entirely, or reports an invalid token and has changed nothing |
| RadiusServices.AuthenticateKeepsValid | backend/internal/service/radius_service.go:55-94 | authentication keeps all invariants |
| RadiusServices.RadiusService.Authenticate | backend/internal/service/radius_service.go:55-94 | the method computes the specified authentication on the store object and keeps it valid |
| RadiusServices.RadiusService.HandleAccounting | backend/internal/service/radius_service.go:96-134 | the method normalises the address leniently, ignores unknown sessions, counts, and disconnects by force at the limit, as specified |
| RadiusServices.RadiusService.InterimRequest | backend/internal/http/handlers/accounting_handler.go:34-57 | an HTTP interim counts and, at the limit, disconnects by force, as specified |
| Interims.InterimsOutcome | backend/internal/service/session_service.go:137-157 | after any sequence of interim totals the session is ended at the limit with its token consumed exactly when the highest totals reach a positive limit; otherwise its counters are those maxima |
| Interims.OrderAndRepetitionIrrelevant | backend/internal/service/session_service.go:137-157 | two sequences that report the same set of totals, in any order and repetition, end alike |
| Interims.PermutationSameTotals | backend/internal/service/session_service.go:137-157 | permutations report the same set of totals |
| Claims.SingleWinner | backend/internal/service/token_service.go:135-228 | of any redeems of one unused token before its expiry, the first binds the device and each later one succeeds exactly when it comes from that device; the others get the device-bound error |
| Devices.WinnerForGood | backend/internal/service/token_service.go:135-228 | after the first redeem of an unused token and any run whatever, a redeem of it before its expiry succeeds exactly when it comes from the first device and nothing has ended the token; while it is active, others get the device-bound error and change nothing |
| Devices.OneDevice | backend/internal/service/token_service.go:161-251 | all devices that are ever given access on one token, by redeem, resume or RADIUS, with any run in between, are one device |
| Claims.LaterAttempt | backend/internal/service/token_service.go:200-251 | a redeem from another device leaves the whole state as it was |
| Claims.GrantedTime | backend/internal/service/token_service.go:415-425 | granted seconds lie between 1 and the plan's duration, never exceed what the token has left beyond the one-second minimum, are as many as possible, and with the sixty-second minimum end less than a minute after the token |
| Claims.RedeemGrants | backend/internal/service/token_service.go:161-251 | what a successful redeem returns is what the store holds: an active token of this device, before expiry, on its active session, which carries the address, gateway and non-empty access-point fields of the request |
| Claims.ExpiredAnswer | backend/internal/service/token_service.go:382-413 | a token past its expiry is answered "expired" exactly when the gateway does not refuse its active session |
| Claims.UsageConserved | backend/internal/service/quota_service.go:45-62 | in every reachable state each session's counters are the sums of its usage records and each token's record totals are the sums over its sessions |
| Claims.LimitEndsTogether | backend/internal/service/quota_service.go:64-100 | an update ends the session, marks a disconnect owed and consumes the token together, exactly when the plan has a limit and the new total reaches it; otherwise only the counters move |
| Sweeping.SweepExact | backend/internal/service/token_service.go:307-347 | a sweep completes exactly when the gateway refuses no active session of a due token; whatever the listing order and whatever else the gateway would refuse, it has then expired exactly the due tokens, ended their active sessions, returned their number, and left none due |
| Sweeping.SweepCutShort | backend/internal/service/token_service.go:321-343 | a sweep cut short has expired some of the due tokens, one more than it counts, and ended their active sessions, one of them refused and handed to the retry queue, and rewritten nothing else |
| Sweeping.SweepProgress | backend/internal/service/token_service.go:314-345 | even when the gateway cuts it short, a sweep that meets a due token strictly shrinks the set of due tokens |
| Sweeping.SweepsReachFixedPoint | backend/internal/service/token_service.go:307-347 | as many calls as there are due tokens leave none due, even if the gateway refuses everything |
| Sweeping.SweepKeepsValid | backend/internal/service/token_service.go:307-347 | a sweep, completed or cut short, keeps all invariants |
| Sweeping.RecoverKeepsValid | backend/internal/service/token_service.go:349-380 | recovery keeps all invariants |
| Recovery.RecoverExact | backend/internal/service/token_service.go:349-380 | whatever the order and the refusals, recovery closes exactly the stale active sessions and counts them; those refused owe their disconnect, and the queue grows by one retry for each of these that it accepts |
| Recovery.StaleMeansPast | backend/internal/service/token_service.go:361 | in a valid store an active session is stale exactly when the expiry instant of its token has passed |
| Sweeping.IssueAdds | backend/internal/service/token_service.go:74-96 | despite the take-back loop, generation adds exactly one new unused token of the plan per issued code, with distinct identifiers and hashes, each found by its code, and touches nothing else |
| Sweeping.IssueCount | backend/internal/service/token_service.go:74-96 | generation completes exactly when it has issued as many vouchers as asked, and never issues more |
| Generation.GenerateRefused | backend/internal/service/token_service.go:60-72 | a count outside 1 to 1000, an unknown plan and an inactive plan are refused, and nothing is stored |
| Generation.GenerateOutcome | backend/internal/service/token_service.go:74-100 | otherwise the draws are used in turn and none is passed over; each is stored as an unused voucher of the plan with its hash, notes and instant, or was taken already; the call returns them when they are as many as asked, and fails when the source does |
| Tokens.RedeemKeepsValid | backend/internal/service/token_service.go:129-262 | redeem and resume keep all invariants, whatever they answer |
| Tokens.RevokeKeepsValid | backend/internal/service/token_service.go:264-305 | revocation keeps all invariants, even if the gateway refuses |
| Tokens.RetireTokenEffect | backend/internal/service/token_service.go:321-343 | retiring a token changes that token and closes its one active session, still owing a disconnect exactly when the gateway refused |
| Services.TokenService.RedeemToken | backend/internal/service/token_service.go:103-114 | the method computes the specified redeem on the store object, keeps it valid |
| Services.TokenService.ResumeToken | backend/internal/service/token_service.go:116-127 | likewise for resume |
| Services.TokenService.RedeemUnsafe | backend/internal/service/token_service.go:129-262 | the checks, the lazy expiry and the case on status give exactly the specified reply and state |
| Services.TokenService.EnsureUnexpired | backend/internal/service/token_service.go:382-413 | expiry on demand as specified, including the error of a refusing gateway |
| Services.TokenService.RevokeToken | backend/internal/service/token_service.go:264-305 | the method computes the specified revocation, which Vouchers.RevokeOutcome describes field by field |
| Vouchers.FirstRedeem | backend/internal/service/token_service.go:162-198 | the first redeem binds the device, sets expiry to now plus the plan's minutes, opens a session with the request's context and zero counters, and grants exactly these minutes, the plan's quota and speeds |
| Vouchers.ResumeUnused | backend/internal/service/token_service.go:163-165 | an unused token cannot be resumed, and nothing changes |
| Vouchers.ReturnOfDevice | backend/internal/service/token_service.go:204-251 | before the expiry the bound device keeps its active session with the request's context, or gets a new one; it is granted the whole seconds left, at least one and at most the plan |
| Vouchers.OtherDevice | backend/internal/service/token_service.go:201-203 | another device gets the device-bound error and nothing changes |
| Vouchers.BadRequest | backend/internal/service/token_service.go:132-155 | an empty code or malformed address, an unknown code and an inactive plan are told in this order, and nothing changes |
| Vouchers.FinalStatus | backend/internal/service/token_service.go:253-261 | a token in a final status is refused with the error of that status |
| Vouchers.IdentifierTaken | backend/internal/service/token_service.go:173-193 | when the session identifier is taken the request fails, yet a first use stays bound |
| Vouchers.ExpiryOnDemand | backend/internal/service/token_service.go:382-413 | from the expiry instant on, a redeem or resume expires the token whatever its status, ends its active session as expired, and tells so, or that the gateway refused |
| Vouchers.RevokeOutcome | backend/internal/service/token_service.go:276-300 | afterwards the token is revoked with the given or the default reason, its active session ended as revoked at this instant, none is active, and the call fails exactly when the gateway refuses that session |
| Vouchers.RevokeUnknown | backend/internal/service/token_service.go:269-275 | an unknown identifier is not found and changes nothing |
| Vouchers.RevokedForGood | backend/internal/service/token_service.go:253-254 | a revoked voucher is refused, to redeem and resume, after every later run |
| Vouchers.AuthenticateOutcome | backend/internal/service/radius_service.go:62-93 | authentication resumes, then redeems, the code in the user name for the calling station, on behalf of the named, the numbered or a nameless access point, and passes on session, policy or reason |
| Vouchers.SweepOutcome | backend/internal/service/token_service.go:314-346 | a completed sweep has expired the active tokens whose expiry instant has come, ended their active sessions as expired, changed nothing else, counted them, and left no such token |
| Services.TokenService.SweepExpiredTokens | backend/internal/service/token_service.go:307-347 | the loop computes the specified sweep of whatever list the store gave, with its count, and stops where the gateway refuses; on a valid store it completes exactly when no active session of a due token is refused, with exactly the due tokens expired and counted |
| Services.TokenService.RecoverSessionsAfterRestart | backend/internal/service/token_service.go:349-380 | the loop closes exactly the stale sessions of the store, counts them, and ignores the gateway's refusals |
| Services.TokenService.IssueTokens | backend/internal/service/token_service.go:74-96 | the loop with its taken-back counter computes the specified batch |
| Services.TokenService.GenerateTokens | backend/internal/service/token_service.go:59-101 | count and plan are checked first, then the batch is issued |
| Services.SweepRound | backend/internal/service/token_service.go:314-345 | one round of the loop is one step of the specified sweep, and the rest of the list is still current afterwards |
| Sessions.StartExactlyWhen | backend/internal/service/session_service.go:52-88 | a start request keeps a valid store valid if and only if its token exists and is active, or the fresh identifier is already taken and nothing is created |
| Sessions.StartUnchecked | backend/internal/service/session_service.go:71-88 | a start request for an unknown token succeeds on a fresh store and leaves it invalid |
| Sessions.AccountKeepsValid | backend/internal/service/session_service.go:106-171 | start, interim and stop packets keep all invariants, for ended sessions too |
| Endings.UsageOutcome | backend/internal/service/quota_service.go:41-100 | a usage update adds to the counters and files one record; exactly when the plan's mebibytes are positive and reached, the session ends for it owing a disconnect and the token is consumed |
| Endings.UsageRefused | backend/internal/service/quota_service.go:38-43 | usage of an unknown or ended session is refused with its error and changes nothing |
| Endings.InterimOutcome | backend/internal/http/handlers/accounting_handler.go:40-56 | an HTTP interim does this, and at the limit forces the disconnect, which stays owed and queued where the gateway refuses |
| Endings.StopOutcome | backend/internal/service/quota_service.go:109-122 | a stop ends an active session now, for its reason, owing nothing; an ended one stands |
| Endings.StartOutcome | backend/internal/service/session_service.go:52-88 | a start request gives the active session its context, or opens one with zero counters for any token |
| Endings.StartPacketOutcome | backend/internal/service/session_service.go:116-131 | a start packet refreshes address, well-formed device address and access point name, on ended sessions too, and nothing else |
| Endings.TotalsPacketOutcome | backend/internal/service/session_service.go:137-170 | an interim or stop packet raises the counters to the reported totals; at the limit session and token end and the gateway is told, otherwise a stop ends the session now for its reason |
| Endings.StopStops | backend/internal/service/session_service.go:159-169 | a stop packet always leaves the session ended at this instant with the higher totals; below the limit for the given reason or the default one, owing nothing, the token untouched |
| Endings.PacketIgnored | backend/internal/service/radius_service.go:96-124 | a packet without status is refused, one for an unknown session, or a count or stop for an ended one, is acknowledged and ignored |
| Endings.DisconnectOutcome | backend/internal/service/gateway_service.go:48-79 | a disconnect ends an active session for the given or default reason, leaves an ended one's end alone, calls the gateway unless an ended session owes nothing and no force is used, and leaves the disconnect owed exactly when the gateway refuses |
| Endings.DeliveryOutcome | backend/internal/jobs/worker.go:33-38 | a delivery takes its request out of the queue and forces the disconnect with its reason |
| Endings.RecoverOutcome | backend/internal/service/token_service.go:356-377 | recovery ends an active session, as recovered, exactly when its token's expiry instant has passed, and rewrites nothing else |
| Sessions.SessionService.Start | backend/internal/service/session_service.go:52-88 | the method computes the specified start |
| Sessions.SessionService.HandleRadiusAccounting | backend/internal/service/session_service.go:106-171 | the method turns totals into increments and stops, for the session the store found, as Endings.TotalsPacketOutcome says field by field |
| Quota.ApplyUsageKeepsValid | backend/internal/service/quota_service.go:32-101 | counting keeps all invariants: quota, one active session, records in step with counters |
| Quota.StopKeepsValid | backend/internal/service/quota_service.go:103-123 | a stop keeps all invariants and does nothing to an ended session |
| Quota.QuotaService.Apply | backend/internal/service/quota_service.go:32-101 | the method computes the specified update on the store object, error cases included |
| Quota.QuotaService.Stop | backend/internal/service/quota_service.go:103-123 | the method computes the specified stop |
| Quota.MeteredStep | backend/internal/service/quota_service.go:45-62 | one record with the same bytes keeps records and counters in step |
| Gateway.DisconnectKeepsValid | backend/internal/service/gateway_service.go:40-80 | a disconnect, refused or not, keeps all invariants |
| Gateway.EndSessionEffect | backend/internal/service/token_service.go:283-297 | ending a session on the server's account leaves it closed, owing a disconnect exactly when the gateway refused, in which case a retry is queued |
| Gateway.GatewayIntegrationService.Disconnect | backend/internal/service/gateway_service.go:40-80 | the method, with its two writes around the gateway call, computes the specified disconnect |
| Gateway.GatewayIntegrationService.HandleTask | backend/internal/jobs/worker.go:25-39 | one delivery of a queued request is one forced disconnect |
| Store.MemoryStore.GetActiveSessionByToken | backend/internal/repository/memory.go:180-189 | the search in any order returns some active session of the token, nothing exactly if there is none, and under uniqueness the one active session |
| Store.MemoryStore.GetSessionByRadius | backend/internal/repository/memory.go:169-178 | the search returns some match, and nothing only if there is none |
| Store.MemoryStore.CreateToken | backend/internal/repository/memory.go:95-107 | refused exactly for a known identifier or hash; otherwise token and index entry are added together |
| Store.MemoryStore.GetTokenByCodeHash | backend/internal/repository/memory.go:116-125 | through the index, the lookup gives a token with this hash, and none exactly if no stored token has it, whenever the index agrees with the tokens |
| Store.MemoryStore.UpdateToken | backend/internal/repository/memory.go:131-140 | replaces a stored token and its index entry, refuses an unknown one |
| Store.MemoryStore.ListTokens | backend/internal/repository/memory.go:142-150 | every token exactly once, in some order |
| Store.MemoryStore.ListActiveSessions | backend/internal/repository/memory.go:201-211 | every active session exactly once, in some order |
| Store.ActiveOfUnique | backend/internal/repository/memory.go:180-189 | any active session of a token is the one the lookup gives |
| RadiusServers.CountersReachQuota | backend/internal/service/radius_server.go:179-224 | the bytes of a signed interim request leave the session ended and the token consumed exactly when the higher of counted and reported totals reach the limit, and with those totals otherwise |
| Datagrams.AuthReads | backend/internal/service/radius_server.go:144-151 | which attribute is the code, the device, the address, the access point and the session of an authentication |
| Datagrams.EventReads | backend/internal/service/radius_server.go:191-219 | status 1 is a start, 2 a stop, 3 and others an interim; which attributes are the totals, the device, the access point, the session and the reason |
| Datagrams.ForgedIgnored | backend/internal/service/radius_server.go:187-189 | an accounting datagram that does not start with a packet signed with the secret changes nothing and gets no answer |
| Datagrams.WrongKindIgnored | backend/internal/service/radius_server.go:141-143 | a datagram of another code than the port's changes nothing and gets no answer |
| Datagrams.GarbageIgnored | backend/internal/service/radius_server.go:137-140 | bytes that do not start with a laid out packet change nothing and get no answer |
| Datagrams.SignedAccounted | backend/internal/service/radius_server.go:179-224 | a signed accounting request is accounted for as the event it spells, and acknowledged with a signed response exactly when that succeeds |
| Datagrams.StopDatagram | backend/internal/service/radius_server.go:179-224 | the bytes of a signed stop request leave the active session ended now with the higher totals |
| Datagrams.AuthReply | backend/internal/service/radius_server.go:154-176 | an allowed authentication is answered by an accept with the policy, any other by a reject with the reason |
| RadiusServers.ReplyTellsDecision | backend/internal/service/radius_server.go:136-177 | the reply parses, carries the request's identifier, validates against it, and is an accept exactly when access was allowed |
| RadiusServers.RadiusServer.HandleAuthPacket | backend/internal/service/radius_server.go:136-177 | the method, from bytes to bytes, reads names, addresses and identifiers from the attributes, authenticates, answers as specified and keeps the store valid |
| RadiusServers.RadiusServer.HandleAccountingPacket | backend/internal/service/radius_server.go:179-224 | the method ignores other codes, refuses datagrams not signed with the secret (Datagrams.ForgedIgnored), reads status, counters, names and addresses from the attributes, and accounts for the session the store found |
| Wire.AccessEndsWithToken | backend/internal/service/radius_server.go:154-168 | the Session-Timeout an access point reads from an accept ends less than a minute after the token of the asking device; it is a minute when less is granted, and otherwise the granted seconds, exactly when these fit 32 bits |
| Formats.SentIsGranted | backend/internal/service/radius_server.go:163 | the timeout sent is the granted one, raised to sixty seconds |
| Formats.AcceptLayout | backend/internal/service/radius_server.go:162-166 | an accept holds the timeout, the vendor's rate limit and a message under the numbers and in the bytes of the standards |
| Formats.RateLayout | backend/internal/service/token_service.go:433 | the rate text names the speed toward the device first, then the other |
| Wire.AcceptArrives | backend/internal/service/radius_server.go:162-167 | an accept validates and answers its request; its timeout is read modulo 2^32, and it arrives complete exactly when its rate text fits an attribute |
| Wire.FewArrive | backend/internal/service/radius_server.go:226-250 | a response of at most 200 attributes validates, and parses back to exactly those that can be sent |
| Texts.RateIsShort | backend/internal/service/token_service.go:433 | the rate text of 64-bit speeds has at most 43 characters |
| Texts.FirstString | backend/internal/service/radius_server.go:279-286 | the scan gives the first attribute of the type as trimmed text, and empty text without one |
| Texts.FirstIP | backend/internal/service/radius_server.go:288-299 | the scan gives the first four-byte attribute of the type in dotted form, skipping other lengths |
| Texts.DottedTells | backend/internal/service/radius_server.go:288-299 | two addresses have the same dotted form exactly when they are the same address |
| Wire.RateLimitReadable | backend/internal/service/radius_server.go:337-346 | the vendor attribute contains the vendor number and one well-formed attribute with exactly the rate |
| Wire.ParsePacket | backend/internal/service/gateway_client.go:198-226 | the parser loop terminates on every byte string and computes the specified parse |
| Wire.ValidateRequest | backend/internal/service/radius_server.go:252-268 | the digest check for every byte string, as Formats.RequestCheckExact says in full |
| Wire.ReadOctets | backend/internal/service/radius_server.go:314-329 | the scan gives the last octets and gigawords values joined as a signed 64-bit number |
| Wire.FirstUint32 | backend/internal/service/radius_server.go:301-312 | the scan gives the first four-byte value of the type, and 0 without one |
| Wire.AppendAttrs | backend/internal/service/radius_server.go:226-236 | the append loop writes the encoding of the attributes, without the over-long ones where they are skipped |
| Wire.BuildResponse | backend/internal/service/radius_server.go:226-250 | the buffer, with length and digest patched in place, is the specified response |
| Wire.BuildDisconnectRequest | backend/internal/service/gateway_client.go:228-252 | likewise for the disconnect request |
| Packets.PacketRoundTrip | backend/internal/service/gateway_client.go:198-226 | laying out and parsing gives back code, identifier, authenticator and attributes if and only if every value has at most 253 bytes and the length fits sixteen bits |
| Packets.ParseThenEncode | backend/internal/service/gateway_client.go:209-224 | whatever payload parses is re-encoded byte for byte |
| Packets.AcceptsExactlyChains | backend/internal/service/gateway_client.go:209-224 | exactly the chains of well-formed attributes are accepted |
| Packets.AttributesRoundTrip | backend/internal/service/gateway_client.go:209-224 | encoded attributes parse back if and only if all of them fit |
| Packets.ResponseRoundTrip | backend/internal/service/radius_server.go:226-250 | a response parses back to exactly its sendable attributes if and only if it fits, and then validates for the requester |
| Packets.DisconnectRequestRoundTrip | backend/internal/service/gateway_client.go:228-252 | a disconnect request validates and parses back if and only if its attributes fit |
| Packets.RequestValidates | backend/internal/service/radius_server.go:252-268 | a request of fitting length passes the check with the same secret |
| Formats.RequestCheckExact | backend/internal/service/radius_server.go:252-268 | a request passes the check if and only if it starts with a packet whose authenticator is the digest of that packet, with zeros for the authenticator, and the secret |
| Formats.ResponseCheckExact | backend/internal/service/radius_server.go:241-248 | a response passes the access point's check if and only if its digest was taken with the authenticator of the request |
| Formats.BuiltPackets | backend/internal/service/gateway_client.go:228-252 | requests and responses are these signed packets |
| Formats.ParseExactly | backend/internal/service/gateway_client.go:198-226 | bytes are read as a packet if and only if they start with it: code, identifier, length, authenticator, attributes with values of at most 253 bytes |
| Formats.AttributeLayout | backend/internal/service/gateway_client.go:232-236 | an attribute is its type, the length of all three parts, and its value |
| Formats.FirstWordFound | backend/internal/service/radius_server.go:301-312 | the number read is that of the first four-byte attribute of the type |
| Formats.FirstTextFound | backend/internal/service/radius_server.go:279-286 | the text read is that of the first attribute of the type |
| Formats.FirstAddressFound | backend/internal/service/radius_server.go:288-299 | the address read is that of the first four-byte attribute of the type |
| Formats.DottedLayout | backend/internal/service/radius_server.go:288-299 | an address is its four bytes in order, in decimal, with dots between them |
| Packets.PaddingIgnored | backend/internal/service/gateway_client.go:202-206 | bytes after the Length field change neither the parse nor either check |
| Packets.CounterSurvives | backend/internal/service/radius_server.go:314-329 | a 64-bit counter split into octets and gigawords, in either order among any attributes of which none of these kinds comes later, is read back exactly below 2^63 and as its two's complement above |
| Packets.CounterSurvivesWire | backend/internal/service/radius_server.go:314-335 | the same, in either order and for all 64-bit counters, through a whole packet: built, validated, parsed, read |
| Keys.NormalizeMAC | backend/internal/util/mac.go:12-31 | the filtering and grouping loop computes the canonical form or refuses |
| Keys.MacAccepted | backend/internal/util/mac.go:12-31 | an address is accepted exactly when it holds twelve hexadecimal digits, wherever they stand |
| Keys.MacIdempotent | backend/internal/util/mac.go:12-31 | the canonical form has seventeen characters and is its own canonical form |
| Keys.MacCanonical | backend/internal/util/mac.go:12-31 | two accepted addresses have one canonical form exactly when their digits agree up to case |
| Formats.MacLayout | backend/internal/util/mac.go:21-30 | the canonical form is the twelve digits in order, in capitals, in six pairs with colons between them |
| Keys.CodeIdempotent | backend/internal/util/token.go:13-17 | normalising a code twice changes nothing more |
| Keys.CodeInsensitive | backend/internal/util/token.go:13-17 | case, blanks inside and white space around a code do not matter |
| Codes.RandomPart | backend/internal/util/token.go:33-43 | the loop maps each byte to its symbol; a failing source gives the empty text |
| Codes.GenerateTokenCode | backend/internal/util/token.go:25-31 | three parts joined, or nothing when a part is empty |
| Codes.CodeCanonical | backend/internal/util/token.go:11-31 | a drawn code is its own normal form |
| Formats.CodeLayout | backend/internal/util/token.go:25-43 | a code is three groups of four symbols of the alphabet, chosen by the bytes in order, with dashes between them |
| Codes.KeysTellCodesApart | backend/internal/util/token.go:19-31 | under a digest without collisions two draws share a key exactly when all twelve bytes agree modulo 32 |
| Codes.TypedCodeFinds | backend/internal/util/token.go:13-23 | a code typed in any case and spacing finds the voucher it was printed on |

## Left out

- LazyEqualsEager: says nothing about runs in which the gateway refuses a disconnect (a refusal surfaces as the error of whichever call meets it first) or a start request names a token past its expiry (refused or not depending on whether the sweep has been there).
- SingleWinner: the attempts follow one another directly; WinnerForGood and OneDevice allow anything in between.
- IssueAdds: the supply of draws is finite, so a batch may also end still trying; the source would go on drawing.
- IssueTokens: likewise, the supply of draws is finite.
- GenerateTokens: likewise; the audit entry is not part of this model.
- HandleAuthPacket: how bytes spell characters (UTF-8) and the text of a denial are parameters; the datagram is given as received.
- HandleAccountingPacket: likewise, how bytes spell characters is a parameter.
- CodeIdempotent: letters beyond ASCII keep their case in the model.
- CodeInsensitive: likewise.
- GetSessionByRadius: which of several matches is returned is left open, as in the source; statements about one session name it.
- Interleaving inside operations other than redeem and resume: every operation is one atomic step with one clock reading (authentication has two), though several of them take no lock around their reads and writes.
- Optional wiring: the services are modelled with gateway and queue present, and store calls fail only as the in-memory store makes them fail.
- The in-memory transaction lock and the context that carries it.
- The Postgres store, SQL and migrations, whose rollback differs from the in-memory store.
- Gin handlers other than the interim request, templates, the admin application, rate limiting and configuration.
- Redis and asynq: the queue is a sequence of requests; a failed delivery is kept or dropped by an input of the step.
- UDP sockets, the HTTP and change-of-authorization clients and the controller that tries two of them: whether a disconnect succeeds is an input of the step.
- Payments, audit logs, plan creation and listing, roles and devices: appends and first-write-wins maps. Plans do not change, and their durations are positive.
- Payment and seller references of a token, the identifier text of a usage record, and the message texts of replies.
- SHA-256, MD5, hexadecimal digests, identifiers and randomness: parameters. The request check compares digests as bytes rather than as hexadecimal text, and the check of a response is the one section 3 of RFC 2865 asks of the access point.
- Letter case beyond ASCII.
- Rounding of durations in floating point, and overflow of durations and byte totals: integers are unbounded, except in the signed 64-bit counter.
