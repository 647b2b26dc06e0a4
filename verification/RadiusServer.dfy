/** From a datagram to the store and back (service/radius_server.go). */
module RadiusServers {
  import opened Domain
  import opened Keys
  import opened Store
  import opened Sessions
  import opened Services
  import opened RadiusServices
  import opened Interims
  import opened Packets
  import opened Texts
  import opened Wire

  const ACCESS_REQUEST: byte := 1
  const ACCESS_REJECT: byte := 3
  const ACCOUNTING_REQUEST: byte := 4
  const ACCOUNTING_RESPONSE: byte := 5

  const USER_NAME: byte := 1
  const NAS_IP: byte := 4
  const FRAMED_IP: byte := 8
  const CALLING_STATION: byte := 31
  const NAS_IDENTIFIER: byte := 32
  const STATUS_TYPE: byte := 40
  const INPUT_OCTETS: byte := 42
  const OUTPUT_OCTETS: byte := 43
  const SESSION_ID: byte := 44
  const INPUT_GIGAWORDS: byte := 52
  const OUTPUT_GIGAWORDS: byte := 53

  /** The digest, the shared secret, how bytes spell characters, and the text of a denial. */
  datatype Dialect = Dialect(md5: Md5, secret: Bytes, decode: Decode, reason: Decision -> Bytes)

  /** Nothing goes back for a packet that fails or is of another kind. */
  datatype Outcome = Failed | Silent | Sent(bytes: Bytes)

  datatype Handled = Handled(world: World, outcome: Outcome)

  function FirstNonEmpty(given: string, other: string): string {
    if TrimSpace(given) != "" then given else if TrimSpace(other) != "" then other else ""
  }

  function AuthOf(d: Dialect, attrs: seq<Attr>, remote: string): AuthInput {
    AuthInput(
      FirstText(d.decode, attrs, USER_NAME), FirstText(d.decode, attrs, CALLING_STATION),
      FirstNonEmpty(FirstAddress(attrs, FRAMED_IP), remote), FirstAddress(attrs, NAS_IP),
      FirstText(d.decode, attrs, NAS_IDENTIFIER), FirstText(d.decode, attrs, SESSION_ID))
  }

  /** An unknown status counts as an interim packet. */
  function KindOf(status: nat): PacketKind {
    if status == 1 then StartPacket else if status == 2 then StopPacket else InterimPacket
  }

  function EventOf(d: Dialect, attrs: seq<Attr>, remote: string): AccountingEvent {
    AccountingEvent(
      KindOf(FirstWord(attrs, STATUS_TYPE)), FirstText(d.decode, attrs, CALLING_STATION),
      FirstAddress(attrs, FRAMED_IP), Or(FirstAddress(attrs, NAS_IP), remote),
      FirstText(d.decode, attrs, NAS_IDENTIFIER), FirstText(d.decode, attrs, SESSION_ID),
      Octets(attrs, INPUT_OCTETS, INPUT_GIGAWORDS), Octets(attrs, OUTPUT_OCTETS, OUTPUT_GIGAWORDS),
      FirstText(d.decode, attrs, REPLY_MESSAGE))
  }

  function DecisionBytes(d: Dialect, asked: Packet, decision: Decision): Bytes {
    if decision.Allow? then AcceptBytes(d.md5, asked, decision.policy, d.secret)
    else Response(d.md5, asked, ACCESS_REJECT, [Attr(REPLY_MESSAGE, d.reason(decision))], d.secret)
  }

  ghost function AuthPacket(hash: string -> string, d: Dialect, w: World, env: Env, later: Time, raw: Bytes,
                            remote: string, newId: string): Handled
  {
    var p := Parse(raw);
    if p.None? then Handled(w, Failed)
    else if p.value.code != ACCESS_REQUEST then Handled(w, Silent)
    else
      var answer := Authentication(hash, w, env, later, AuthOf(d, p.value.attributes, remote), newId);
      Handled(answer.world, Sent(DecisionBytes(d, p.value, answer.decision)))
  }

  function AcctPacket(d: Dialect, w: World, env: Env, found: Option<string>, raw: Bytes, remote: string): Handled
    requires found.Some? ==> found.value in w.db.sessions
  {
    var p := Parse(raw);
    if p.None? then Handled(w, Failed)
    else if p.value.code != ACCOUNTING_REQUEST then Handled(w, Silent)
    else if !ValidRequest(d.md5, raw, d.secret) then Handled(w, Failed)
    else
      var r := Account(w, env, found, EventOf(d, p.value.attributes, remote));
      Handled(r.world,
              if r.result.Err? then Failed else Sent(Response(d.md5, p.value, ACCOUNTING_RESPONSE, [], d.secret)))
  }

  predicate Accountable(d: Dialect, raw: Bytes) {
    Parse(raw).Some? && Parse(raw).value.code == ACCOUNTING_REQUEST && ValidRequest(d.md5, raw, d.secret)
  }

  // ---- End to end ----

  /** The reply to an authentication answers that very request, and accepts exactly when the decision is to allow. */
  lemma ReplyTellsDecision(hash: string -> string, d: Dialect, w: World, env: Env, later: Time, raw: Bytes,
                           remote: string, newId: string)
    requires Parse(raw).Some? && Parse(raw).value.code == ACCESS_REQUEST
    ensures var asked := Parse(raw).value; var handled := AuthPacket(hash, d, w, env, later, raw, remote, newId);
            var decision := Authentication(hash, w, env, later, AuthOf(d, asked.attributes, remote), newId).decision;
            && handled.outcome.Sent? && var reply := handled.outcome.bytes;
            && ValidResponse(d.md5, reply, asked.authenticator, d.secret)
            && Parse(reply).Some? && Parse(reply).value.identifier == asked.identifier
            && Parse(reply).value.code == (if decision.Allow? then ACCESS_ACCEPT else ACCESS_REJECT)
  {
    var asked := Parse(raw).value;
    var decision := Authentication(hash, w, env, later, AuthOf(d, asked.attributes, remote), newId).decision;
    if decision.Allow? {
      FewArrive(d.md5, asked, ACCESS_ACCEPT, AcceptAttrs(decision.policy), d.secret);
    } else {
      FewArrive(d.md5, asked, ACCESS_REJECT, [Attr(REPLY_MESSAGE, d.reason(decision))], d.secret);
    }
  }

  /**
   Counters from the access point to the quota: an interim request signed with the secret leaves its active
   session ended at the limit, with the token consumed, exactly when the higher of counted and reported totals
   reach the limit, and with those totals otherwise.
   */
  lemma CountersReachQuota(d: Dialect, w: World, env: Env, sid: string, identifier: byte, attrs: seq<Attr>,
                           remote: string)
    requires Valid(w.db) && sid in w.db.sessions && w.db.sessions[sid].status == Live
    requires AllFit(attrs) && HEADER + |EncodeAttrs(attrs)| <= MAX_LENGTH
    requires KindOf(FirstWord(attrs, STATUS_TYPE)) == InterimPacket
    ensures var raw := Request(d.md5, ACCOUNTING_REQUEST, identifier, attrs, d.secret); var s := w.db.sessions[sid];
            var handled := AcctPacket(d, w, env, Some(sid), raw, remote);
            var totals := Traffic(Octets(attrs, OUTPUT_OCTETS, OUTPUT_GIGAWORDS),
                                  Octets(attrs, INPUT_OCTETS, INPUT_GIGAWORDS));
            var high := Raise(CountersOf(s), totals); var over := OverLimit(high, PlanOf(w.db, sid));
            Verdict(handled.world, sid, s.tokenId, w.db.tokens[s.tokenId], high, over)
  {
    var auth := d.md5(Covered(ACCOUNTING_REQUEST, identifier, ZEROS, EncodeAttrs(attrs), d.secret));
    PacketRoundTrip(ACCOUNTING_REQUEST, identifier, auth, attrs);
    RequestValidates(d.md5, ACCOUNTING_REQUEST, identifier, attrs, d.secret);
    DeliverVerdict(w, sid, Report(env, EventOf(d, attrs, remote)));
  }

  class RadiusServer {
    const service: RadiusService
    const dialect: Dialect

    constructor (service: RadiusService, dialect: Dialect)
      ensures this.service == service && this.dialect == dialect
    {
      this.service := service;
      this.dialect := dialect;
    }

    method HandleAuthPacket(raw: Bytes, remote: string, newId: string, env: Env, later: Time) returns (outcome: Outcome)
      requires service.Wired() && Valid(service.store.Contents())
      modifies service.store, service.outside
      ensures AuthPacket(Hasher(service.tokens.digest), dialect, old(Snapshot(service.store, service.outside)), env,
                         later, raw, remote, newId)
           == Handled(Snapshot(service.store, service.outside), outcome)
      ensures Valid(service.store.Contents())
    {
      var packet := ParsePacket(raw);
      if packet.None? {
        return Failed;
      }
      if packet.value.code != ACCESS_REQUEST {
        return Silent;
      }
      var attributes := packet.value.attributes;
      var userName := FirstString(dialect.decode, attributes, USER_NAME);
      var callingStation := FirstString(dialect.decode, attributes, CALLING_STATION);
      var framedIp := FirstIP(attributes, FRAMED_IP);
      var nasIp := FirstIP(attributes, NAS_IP);
      var nasIdentifier := FirstString(dialect.decode, attributes, NAS_IDENTIFIER);
      var sessionId := FirstString(dialect.decode, attributes, SESSION_ID);
      var decision := service.Authenticate(
        AuthInput(userName, callingStation, FirstNonEmpty(framedIp, remote), nasIp, nasIdentifier, sessionId),
        newId, env, later);
      var reply: array<byte>;
      if decision.Allow? {
        reply := BuildResponse(dialect.md5, packet.value, ACCESS_ACCEPT, AcceptAttrs(decision.policy), dialect.secret);
      } else {
        var attrs := [Attr(REPLY_MESSAGE, dialect.reason(decision))];
        reply := BuildResponse(dialect.md5, packet.value, ACCESS_REJECT, attrs, dialect.secret);
      }
      outcome := Sent(reply[..]);
    }

    method HandleAccountingPacket(raw: Bytes, remote: string, env: Env)
      returns (outcome: Outcome, ghost found: Option<string>)
      requires service.Wired() && Keyed(service.store.Contents())
      modifies service.store, service.outside
      ensures found.Some? ==> found.value in old(service.store.sessions)
      ensures Accountable(dialect, raw) ==>
                var event := EventOf(dialect, Parse(raw).value.attributes, remote);
                IsRadiusMatch(old(service.store.Contents()), found, event.acctSessionId, event.nasIp)
      ensures AcctPacket(dialect, old(Snapshot(service.store, service.outside)), env, found, raw, remote)
           == Handled(Snapshot(service.store, service.outside), outcome)
    {
      found := None;
      var packet := ParsePacket(raw);
      if packet.None? {
        return Failed, found;
      }
      if packet.value.code != ACCOUNTING_REQUEST {
        return Silent, found;
      }
      var signed := ValidateRequest(dialect.md5, raw, dialect.secret);
      if !signed {
        return Failed, found;
      }
      var attrs := packet.value.attributes;
      var status := FirstUint32(attrs, STATUS_TYPE);
      var bytesIn := ReadOctets(attrs, INPUT_OCTETS, INPUT_GIGAWORDS);
      var bytesOut := ReadOctets(attrs, OUTPUT_OCTETS, OUTPUT_GIGAWORDS);
      var nasIp := FirstIP(attrs, NAS_IP);
      if nasIp == "" {
        nasIp := remote;
      }
      var callingStation := FirstString(dialect.decode, attrs, CALLING_STATION);
      var framedIp := FirstIP(attrs, FRAMED_IP);
      var nasIdentifier := FirstString(dialect.decode, attrs, NAS_IDENTIFIER);
      var sessionId := FirstString(dialect.decode, attrs, SESSION_ID);
      var stopReason := FirstString(dialect.decode, attrs, REPLY_MESSAGE);
      var event := AccountingEvent(
        KindOf(status), callingStation, framedIp, nasIp, nasIdentifier, sessionId, bytesIn, bytesOut, stopReason);
      var r;
      r, found := service.HandleAccounting(event, env);
      if r.Err? {
        return Failed, found;
      }
      var reply := BuildResponse(dialect.md5, packet.value, ACCOUNTING_RESPONSE, [], dialect.secret);
      outcome := Sent(reply[..]);
    }
  }
}
