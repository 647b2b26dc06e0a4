/** What the server makes of a datagram, attribute by attribute (service/radius_server.go). */
module Datagrams {
  import opened Domain
  import opened Keys
  import opened Store
  import opened Sessions
  import opened RadiusServices
  import opened Packets
  import opened Texts
  import opened RadiusServers
  import opened Endings
  import opened Formats
  import Wire

  // ---- Which attribute is what ----

  /**
   An authentication takes the code from User-Name (1), the device from Calling-Station-Id (31), the address
   from Framed-IP-Address (8) or else from the sender, the access point from NAS-IP-Address (4) and
   NAS-Identifier (32), and the session from Acct-Session-Id (44).
   */
  lemma AuthReads(d: Dialect, attrs: seq<Attr>, remote: string)
    ensures var req := AuthOf(d, attrs, remote); var framed := FirstAddress(attrs, 8);
            && req.userName == FirstText(d.decode, attrs, 1)
            && req.callingStation == FirstText(d.decode, attrs, 31)
            && (framed != "" ==> req.framedIp == framed)
            && (framed == "" && TrimSpace(remote) != "" ==> req.framedIp == remote)
            && req.nasIp == FirstAddress(attrs, 4)
            && req.nasIdentifier == FirstText(d.decode, attrs, 32)
            && req.acctSessionId == FirstText(d.decode, attrs, 44)
  {
    AddressNotBlank(attrs, 8);
    assert TrimSpace("") == "";
  }

  lemma {:induction false} AddressNotBlank(attrs: seq<Attr>, kind: byte)
    ensures FirstAddress(attrs, kind) != "" ==> TrimSpace(FirstAddress(attrs, kind)) != ""
    decreases |attrs|
  {
    if attrs == [] {
    } else if attrs[0].kind == kind && |attrs[0].value| == 4 {
      var text := Dotted(attrs[0].value);
      var lead, trail := TrimSpaceParts(text);
      assert !IsSpace(text[0]);
      assert TrimSpace(text) == "" ==> text == lead + trail && (lead != "" || trail != "");
    } else {
      AddressNotBlank(attrs[1..], kind);
    }
  }

  /**
   An accounting event takes its kind from Acct-Status-Type (40): 1 is a start, 2 a stop, 3 and anything else
   an interim. Input and output totals come from 42 with 52 and from 43 with 53, the stop reason from
   Reply-Message (18), and a missing access point address from the sender.
   */
  lemma EventReads(d: Dialect, attrs: seq<Attr>, remote: string)
    ensures var e := EventOf(d, attrs, remote); var status := FirstWord(attrs, 40);
            && (status == 1 <==> e.kind == StartPacket) && (status == 2 <==> e.kind == StopPacket)
            && (status != 1 && status != 2 <==> e.kind == InterimPacket)
            && e.bytesIn == Octets(attrs, 42, 52) && e.bytesOut == Octets(attrs, 43, 53)
            && e.callingStation == FirstText(d.decode, attrs, 31)
            && e.framedIp == FirstAddress(attrs, 8)
            && e.nasIp == (if FirstAddress(attrs, 4) == "" then remote else FirstAddress(attrs, 4))
            && e.nasIdentifier == FirstText(d.decode, attrs, 32)
            && e.acctSessionId == FirstText(d.decode, attrs, 44)
            && e.stopReason == FirstText(d.decode, attrs, 18)
  {
  }

  // ---- Datagrams that change nothing ----

  /** An accounting datagram that is not signed with the secret changes nothing and gets no answer. */
  lemma ForgedIgnored(d: Dialect, w: World, env: Env, found: Option<string>, raw: Bytes, remote: string)
    requires found.Some? ==> found.value in w.db.sessions
    requires forall code, identifier, body | 20 + |body| <= 65_535 ::
               !(SignedFrame(d.md5, code, identifier, NOUGHT, body, d.secret) <= raw)
    ensures var handled := AcctPacket(d, w, env, found, raw, remote); handled.world == w && !handled.outcome.Sent?
  {
    RequestCheckExact(d.md5, raw, d.secret);
  }

  /** A datagram of another kind than the port's changes nothing and gets no answer. */
  lemma WrongKindIgnored(hash: string -> string, d: Dialect, w: World, env: Env, later: Time, found: Option<string>,
                         raw: Bytes, remote: string, newId: string)
    requires found.Some? ==> found.value in w.db.sessions
    ensures raw == [] || raw[0] != 1 ==>
              var handled := AuthPacket(hash, d, w, env, later, raw, remote, newId);
                  handled.world == w && !handled.outcome.Sent?
    ensures raw == [] || raw[0] != 4 ==>
              var handled := AcctPacket(d, w, env, found, raw, remote); handled.world == w && !handled.outcome.Sent?
  {
  }

  /** Bytes that do not start with a laid out packet change nothing and get no answer, on either port. */
  lemma GarbageIgnored(hash: string -> string, d: Dialect, w: World, env: Env, later: Time, found: Option<string>,
                       raw: Bytes, remote: string, newId: string)
    requires found.Some? ==> found.value in w.db.sessions
    requires forall p: Packet | AllFit(p.attributes) && 20 + |EncodeAttrs(p.attributes)| <= 65_535 ::
               !(Frame(p.code, p.identifier, p.authenticator, EncodeAttrs(p.attributes)) <= raw)
    ensures AuthPacket(hash, d, w, env, later, raw, remote, newId) == Handled(w, Failed)
    ensures AcctPacket(d, w, env, found, raw, remote) == Handled(w, Failed)
  {
    if Parse(raw).Some? {
      ParsedIsFramed(raw, Parse(raw).value);
    }
  }

  // ---- Datagrams that count ----

  /**
   A signed accounting request is accounted for as the event it spells, and acknowledged, in a response that
   is signed for it, exactly when that succeeds.
   */
  lemma SignedAccounted(d: Dialect, w: World, env: Env, found: Option<string>, identifier: byte, attrs: seq<Attr>,
                        remote: string)
    requires found.Some? ==> found.value in w.db.sessions
    requires AllFit(attrs) && 20 + |EncodeAttrs(attrs)| <= 65_535
    ensures var raw := SignedFrame(d.md5, 4, identifier, NOUGHT, EncodeAttrs(attrs), d.secret);
            var r := Account(w, env, found, EventOf(d, attrs, remote));
                var handled := AcctPacket(d, w, env, found, raw, remote);
            && handled.world == r.world
            && match r.result
               case Err(_) => handled.outcome == Failed
               case Ok(_) => handled.outcome == Sent(SignedFrame(d.md5, 5, identifier, raw[4..20], [], d.secret))
  {
    var raw := SignedFrame(d.md5, 4, identifier, NOUGHT, EncodeAttrs(attrs), d.secret);
    var p := Packet(4, identifier, raw[4..20], attrs);
    BuiltPackets(d.md5, p, 4, identifier, attrs, d.secret);
    BuiltPackets(d.md5, p, 5, identifier, [], d.secret);
    RequestValidates(d.md5, 4, identifier, attrs, d.secret);
    assert raw[4..20] == OwnDigest(d, identifier, attrs);
    FramedIsParsed(raw, p);
  }

  function OwnDigest(d: Dialect, identifier: byte, attrs: seq<Attr>): Authenticator
    requires 20 + |EncodeAttrs(attrs)| <= 65_535
  {
    d.md5(Frame(4, identifier, NOUGHT, EncodeAttrs(attrs)) + d.secret)
  }

  /** From the bytes of a signed stop request to the store: the session has ended, with the higher totals. */
  lemma StopDatagram(d: Dialect, w: World, env: Env, sid: string, identifier: byte, attrs: seq<Attr>, remote: string)
    requires Valid(w.db) && sid in w.db.sessions && w.db.sessions[sid].status == Live
    requires AllFit(attrs) && 20 + |EncodeAttrs(attrs)| <= 65_535 && FirstWord(attrs, 40) == 2
    ensures var raw := SignedFrame(d.md5, 4, identifier, NOUGHT, EncodeAttrs(attrs), d.secret);
            var after := AcctPacket(d, w, env, Some(sid), raw, remote).world;
            && sid in after.db.sessions && var s, s' := w.db.sessions[sid], after.db.sessions[sid];
            && s'.status == SessionStatus.Ended && s'.endedAt == Some(env.now)
            && s'.bytesUp == Higher(s.bytesUp, Octets(attrs, 43, 53))
               && s'.bytesDown == Higher(s.bytesDown, Octets(attrs, 42, 52))
  {
    SignedAccounted(d, w, env, Some(sid), identifier, attrs, remote);
    EventReads(d, attrs, remote);
    StopStops(w, env, sid, EventOf(d, attrs, remote));
  }

  // ---- Answers to authentications ----

  /** The reply: an accept (2) for an allowed authentication, otherwise a reject (3) that tells the reason. */
  lemma AuthReply(hash: string -> string, d: Dialect, w: World, env: Env, later: Time, asked: Packet, remote: string,
                  newId: string)
    requires asked.code == 1 && AllFit(asked.attributes) && 20 + |EncodeAttrs(asked.attributes)| <= 65_535
    ensures var raw := Frame(1, asked.identifier, asked.authenticator, EncodeAttrs(asked.attributes));
            var answer := Authentication(hash, w, env, later, AuthOf(d, asked.attributes, remote), newId);
            AuthPacket(hash, d, w, env, later, raw, remote, newId) ==
              Handled(answer.world, Sent(
                match answer.decision
                case Allow(_, policy) => Response(d.md5, asked, 2, Wire.AcceptAttrs(policy), d.secret)
                case _ => Response(d.md5, asked, 3, [Attr(18, d.reason(answer.decision))], d.secret)))
  {
    FramedIsParsed(Frame(1, asked.identifier, asked.authenticator, EncodeAttrs(asked.attributes)), asked);
  }
}
