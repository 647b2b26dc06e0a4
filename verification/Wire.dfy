/** Building, checking and reading packets in byte buffers, and what an Access-Accept tells the access point. */
module Wire {
  import opened Domain
  import opened Keys
  import opened Store
  import opened Tokens
  import opened RadiusServices
  import opened Claims
  import opened Packets
  import opened Texts

  // ---- Reading ----

  /** What is read already, put before what is still to be read. */
  function Behind(done: seq<Attr>, rest: Option<seq<Attr>>): Option<seq<Attr>> {
    if rest.None? then None else Some(done + rest.value)
  }

  lemma BehindAppend(done: seq<Attr>, a: Attr, rest: Option<seq<Attr>>)
    ensures Behind(done, Behind([a], rest)) == Behind(done + [a], rest)
  {
    if rest.Some? {
      assert done + ([a] + rest.value) == done + [a] + rest.value;
    }
  }

  method ParsePacket(b: Bytes) returns (p: Option<Packet>)
    ensures p == Parse(b)
  {
    if |b| < HEADER {
      return None;
    }
    var length := Get16(b[2..4]);
    if length < HEADER || length > |b| {
      return None;
    }
    var attributes: seq<Attr> := [];
    var payload := b[HEADER..length];
    ghost var all := ParseAttrs(payload);
    assert all.Some? ==> [] + all.value == all.value;
    while |payload| > 0
      invariant all == Behind(attributes, ParseAttrs(payload))
      decreases |payload|
    {
      if |payload| < 2 {
        return None;
      }
      var attrLen := payload[1] as nat;
      if attrLen < 2 || attrLen > |payload| {
        return None;
      }
      BehindAppend(attributes, Attr(payload[0], payload[2..attrLen]), ParseAttrs(payload[attrLen..]));
      attributes := attributes + [Attr(payload[0], payload[2..attrLen])];
      payload := payload[attrLen..];
    }
    assert attributes + [] == attributes;
    p := Some(Packet(b[0], b[1], b[4..HEADER], attributes));
  }

  method FirstUint32(attrs: seq<Attr>, kind: byte) returns (n: nat)
    ensures n == FirstWord(attrs, kind)
  {
    var i := 0;
    while i < |attrs|
      invariant 0 <= i <= |attrs|
      invariant FirstWord(attrs, kind) == FirstWord(attrs[i..], kind)
    {
      if attrs[i].kind == kind && |attrs[i].value| == 4 {
        return Get32(attrs[i].value);
      }
      i := i + 1;
    }
    n := 0;
  }

  method ReadOctets(attrs: seq<Attr>, octetsKind: byte, gigawordsKind: byte) returns (n: int)
    requires octetsKind != gigawordsKind
    ensures n == Octets(attrs, octetsKind, gigawordsKind)
  {
    var octets, gigawords := 0, 0;
    var i := 0;
    while i < |attrs|
      invariant 0 <= i <= |attrs|
      invariant octets == LastWord(attrs[..i], octetsKind) && gigawords == LastWord(attrs[..i], gigawordsKind)
    {
      var attr := attrs[i];
      assert attrs[..i + 1][..i] == attrs[..i];
      if |attr.value| == 4 {
        if attr.kind == octetsKind {
          octets := Get32(attr.value);
        } else if attr.kind == gigawordsKind {
          gigawords := Get32(attr.value);
        }
      }
      i := i + 1;
    }
    assert attrs[..i] == attrs;
    n := AsInt64(gigawords * 0x1_0000_0000 + octets);
  }

  method ValidateRequest(md5: Md5, raw: Bytes, secret: Bytes) returns (ok: bool)
    ensures ok == ValidRequest(md5, raw, secret)
  {
    if |raw| < HEADER {
      return false;
    }
    var length := Get16(raw[2..4]);
    if length < HEADER || length > |raw| {
      return false;
    }
    var packet := raw[..length];
    var check := packet[..4];
    check := check + ZEROS;
    check := check + packet[HEADER..];
    check := check + secret;
    ok := md5(check) == packet[4..HEADER];
  }

  // ---- Writing ----

  /** Append attributes to a body; a response leaves out the values that do not fit. */
  method AppendAttrs(attrs: seq<Attr>, skipLong: bool) returns (body: Bytes)
    ensures body == EncodeAttrs(Kept(attrs, skipLong))
  {
    body := [];
    ghost var goal := EncodeAttrs(Kept(attrs, skipLong));
    var i := 0;
    assert attrs[0..] == attrs;
    while i < |attrs|
      invariant 0 <= i <= |attrs|
      invariant goal == body + EncodeAttrs(Kept(attrs[i..], skipLong))
    {
      var attr := attrs[i];
      AppendRound(attrs, i, skipLong, body);
      if !skipLong || |attr.value| <= MAX_VALUE {
        body := body + ([attr.kind, ((|attr.value| + 2) % 256) as byte] + attr.value);
      }
      i := i + 1;
    }
  }

  function Kept(attrs: seq<Attr>, skipLong: bool): seq<Attr> {
    if skipLong then Sendable(attrs) else attrs
  }

  lemma KeptStep(attrs: seq<Attr>, i: nat, skipLong: bool)
    requires i < |attrs|
    ensures EncodeAttrs(Kept(attrs[i..], skipLong)) ==
              (if skipLong && !Fits(attrs[i]) then [] else EncodeAttr(attrs[i]))
                + EncodeAttrs(Kept(attrs[i + 1..], skipLong))
  {
    var rest := Kept(attrs[i + 1..], skipLong);
    assert attrs[i..][0] == attrs[i] && attrs[i..][1..] == attrs[i + 1..];
    assert Kept(attrs[i..], skipLong) == if skipLong && !Fits(attrs[i]) then rest else [attrs[i]] + rest;
    EncodeCons(attrs[i], rest);
  }

  lemma AppendRound(attrs: seq<Attr>, i: nat, skipLong: bool, body: Bytes)
    requires i < |attrs|
    ensures body + EncodeAttrs(Kept(attrs[i..], skipLong)) ==
              (if skipLong && !Fits(attrs[i]) then body else body + EncodeAttr(attrs[i]))
                + EncodeAttrs(Kept(attrs[i + 1..], skipLong))
  {
    KeptStep(attrs, i, skipLong);
  }

  /** Lay out a packet in a buffer, then patch its length and, last, the digest over the patched bytes. */
  method Finish(md5: Md5, code: byte, identifier: byte, auth: Authenticator, body: Bytes, secret: Bytes)
    returns (packet: array<byte>)
    ensures fresh(packet)
    ensures packet[..] == Assemble(code, identifier, md5(Covered(code, identifier, auth, body, secret)), body)
  {
    var packetLen := HEADER + |body|;
    var draft := [code, identifier, 0, 0] + auth + body;
    packet := new byte[packetLen](i requires 0 <= i < |draft| => draft[i]);
    packet[2], packet[3] := (packetLen / 256 % 256) as byte, (packetLen % 256) as byte;
    ghost var plain := Assemble(code, identifier, auth, body);
    assert packet[..] == plain;
    var check := packet[..4] + auth + packet[HEADER..] + secret;
    assert check == Covered(code, identifier, auth, body, secret) by {
      AssembleParts(code, identifier, auth, body);
      assert packet[..4] == plain[..4] && packet[HEADER..] == plain[HEADER..];
    }
    var sum := md5(check);
    var k := 0;
    while k < 16
      invariant 0 <= k <= 16
      invariant packet[..4] == plain[..4] && packet[HEADER..] == plain[HEADER..]
      invariant forall j | 0 <= j < k :: packet[4 + j] == sum[j]
    {
      packet[4 + k] := sum[k];
      k := k + 1;
    }
    AssembleParts(code, identifier, auth, body);
    assert packet[4..HEADER] == sum;
    assert packet[..] == packet[..4] + packet[4..HEADER] + packet[HEADER..];
  }

  method BuildResponse(md5: Md5, req: Packet, code: byte, attrs: seq<Attr>, secret: Bytes) returns (packet: array<byte>)
    ensures fresh(packet) && packet[..] == Response(md5, req, code, attrs, secret)
  {
    var body := AppendAttrs(attrs, true);
    packet := Finish(md5, code, req.identifier, req.authenticator, body, secret);
  }

  /** The identifier comes from the random source. */
  method BuildDisconnectRequest(md5: Md5, identifier: byte, attrs: seq<Attr>, secret: Bytes)
    returns (packet: array<byte>)
    ensures fresh(packet) && packet[..] == Request(md5, DISCONNECT_REQUEST, identifier, attrs, secret)
  {
    var body := AppendAttrs(attrs, false);
    packet := Finish(md5, DISCONNECT_REQUEST, identifier, ZEROS, body, secret);
  }

  // ---- The Access-Accept ----

  const MIKROTIK := 14988

  /** Vendor-specific attribute: vendor number, then one vendor attribute of type 8 with the rate text. */
  function RateLimitAttr(rate: Bytes): Attr {
    Attr(VENDOR_SPECIFIC, Put32(MIKROTIK) + [8, ((2 + |rate|) % 256) as byte] + rate)
  }

  const GRANTED := "Access granted"

  function AcceptAttrs(p: Policy): seq<Attr> {
    [WordAttr(SESSION_TIMEOUT, SentTimeout(p)), RateLimitAttr(BytesOf(RateText(p))),
     Attr(REPLY_MESSAGE, BytesOf(GRANTED))]
  }

  /** The vendor attribute inside parses back to the rate, for every rate that the packet can carry at all. */
  lemma RateLimitReadable(rate: Bytes)
    requires Fits(RateLimitAttr(rate))
    ensures var v := RateLimitAttr(rate).value;
            Get32(v[..4]) == MIKROTIK && ParseAttrs(v[4..]) == Some([Attr(8, rate)])
  {
    var v := RateLimitAttr(rate).value;
    Word32(MIKROTIK);
    assert v[..4] == Put32(MIKROTIK);
    assert v[4..] == EncodeAttr(Attr(8, rate)) + [];
    ParseOne(Attr(8, rate), []);
    assert ParseAttrs([]) == Some([]) && [Attr(8, rate)] + [] == [Attr(8, rate)];
  }

  lemma {:induction false} EncodedLength(attrs: seq<Attr>)
    requires AllFit(attrs)
    ensures |EncodeAttrs(attrs)| <= 255 * |attrs|
  {
    if attrs == [] {
    } else {
      assert Fits(attrs[0]);
      assert AllFit(attrs[1..]) by {
        assert forall i | 0 <= i < |attrs| - 1 :: attrs[1..][i] == attrs[i + 1] && Fits(attrs[i + 1]);
      }
      EncodedLength(attrs[1..]);
    }
  }

  lemma {:induction false} SendableLength(attrs: seq<Attr>)
    ensures |Sendable(attrs)| <= |attrs|
  {
    if attrs == [] {
    } else {
      SendableLength(attrs[1..]);
    }
  }

  /** A response of few attributes reaches the access point with every attribute that can be sent at all. */
  lemma FewArrive(md5: Md5, asked: Packet, code: byte, attrs: seq<Attr>, secret: Bytes)
    requires |attrs| <= 200
    ensures var raw := Response(md5, asked, code, attrs, secret);
            && ValidResponse(md5, raw, asked.authenticator, secret) && Parse(raw).Some?
            && Parse(raw).value.code == code && Parse(raw).value.identifier == asked.identifier
            && Parse(raw).value.attributes == Sendable(attrs)
  {
    var sent := Sendable(attrs);
    SendableFits(attrs);
    SendableLength(attrs);
    EncodedLength(sent);
    AssembleParts(code, asked.identifier,
                  md5(Covered(code, asked.identifier, asked.authenticator, EncodeAttrs(sent), secret)),
                      EncodeAttrs(sent));
    ResponseRoundTrip(md5, asked, code, attrs, secret);
  }

  function AcceptBytes(md5: Md5, asked: Packet, p: Policy, secret: Bytes): Bytes {
    Response(md5, asked, ACCESS_ACCEPT, AcceptAttrs(p), secret)
  }

  /**
   An accept validates and answers the request. Its timeout is read modulo 2^32, and it arrives complete
   exactly when the rate text fits an attribute, as it does for speeds of 64-bit integers.
   */
  lemma AcceptArrives(md5: Md5, asked: Packet, p: Policy, secret: Bytes)
    ensures var raw := AcceptBytes(md5, asked, p, secret);
            && ValidResponse(md5, raw, asked.authenticator, secret)
            && Parse(raw).Some? && Parse(raw).value.identifier == asked.identifier
            && FirstWord(Parse(raw).value.attributes, SESSION_TIMEOUT) == SentTimeout(p) % 0x1_0000_0000
            && (Parse(raw).value.attributes == AcceptAttrs(p) <==> |RateText(p)| <= MAX_VALUE - 6)
  {
    var attrs := AcceptAttrs(p);
    FewArrive(md5, asked, ACCESS_ACCEPT, attrs, secret);
    Word32(SentTimeout(p));
    assert Fits(attrs[0]) && Fits(attrs[2]) && (Fits(attrs[1]) <==> |RateText(p)| <= MAX_VALUE - 6);
    SendableCons(attrs[2], []);
    SendableCons(attrs[1], [attrs[2]] + []);
    SendableCons(attrs[0], [attrs[1]] + ([attrs[2]] + []));
    assert attrs == [attrs[0]] + ([attrs[1]] + ([attrs[2]] + []));
  }

  /** An allowed authentication hands out a token of the asking device, for no longer than the token has left. */
  lemma AllowedTime(hash: string -> string, w: World, env: Env, later: Time, req: AuthInput, newId: string)
    requires Valid(w.db) && Authentication(hash, w, env, later, req, newId).decision.Allow?
    ensures var answer := Authentication(hash, w, env, later, req, newId);
            var at := Deciding(hash, w, env, later, req, newId).now;
            var d := answer.decision; var db := answer.world.db;
            && d.session.tokenId in db.tokens && var t := db.tokens[d.session.tokenId];
            && t.status == Active && t.usedBy == CanonicalMac(req.callingStation)
            && 60 <= SentTimeout(d.policy)
            && t.expiresAt.Some? && at + SentTimeout(d.policy) * SECOND < t.expiresAt.value + MINUTE
  {
    var redeem, at := AsRedeem(req, req.callingStation), Deciding(hash, w, env, later, req, newId);
    AuthenticateIsRedeem(hash, w, env, later, req, newId);
    var answer := Authentication(hash, w, env, later, req, newId);
    var v := Redeem(hash, w, at, redeem, false, newId).result.value;
    assert answer.decision == Allow(v.session, v.policy);
    RedeemGrants(hash, w, at, redeem, false, newId);
    GrantedTime(hash, w, at, redeem, false, newId);
  }

  /** What the access point reads as the timeout, or nothing when the bytes are no packet. */
  function TimeoutRead(raw: Bytes): Option<nat> {
    var p := Parse(raw);
    if p.None? then None else Some(FirstWord(p.value.attributes, SESSION_TIMEOUT))
  }

  /** A timeout on the wire that ends less than a minute after the token does. */
  ghost predicate EndsWith(seconds: Option<nat>, t: Token, now: Time) {
    seconds.Some? && t.expiresAt.Some? && now + seconds.value * SECOND < t.expiresAt.value + MINUTE
  }

  /**
   From the request to the access point: what an allowed authentication answers is read there as a
   Session-Timeout that ends with the token of the asking device. It is a minute when less is granted, and
   otherwise just what is granted, exactly when that fits 32 bits.
   */
  lemma AccessEndsWithToken(hash: string -> string, w: World, env: Env, later: Time, req: AuthInput, newId: string,
                            md5: Md5, asked: Packet, secret: Bytes)
    requires Valid(w.db) && Authentication(hash, w, env, later, req, newId).decision.Allow?
    ensures var answer := Authentication(hash, w, env, later, req, newId);
            var d := answer.decision; var read := TimeoutRead(AcceptBytes(md5, asked, d.policy, secret));
            && d.session.tokenId in answer.world.db.tokens && var t := answer.world.db.tokens[d.session.tokenId];
            && t.status == Active && t.usedBy == CanonicalMac(req.callingStation)
            && EndsWith(read, t, Deciding(hash, w, env, later, req, newId).now)
            && var granted := d.policy.sessionTimeoutSec;
               && (granted < 60 ==> read.value == 60)
               && (60 <= granted ==> (read.value == granted <==> granted < 0x1_0000_0000))
  {
    AllowedTime(hash, w, env, later, req, newId);
    var p := Authentication(hash, w, env, later, req, newId).decision.policy;
    AcceptArrives(md5, asked, p, secret);
    Remainder(SentTimeout(p));
  }

  lemma Remainder(n: nat)
    ensures n % 0x1_0000_0000 <= n && (n % 0x1_0000_0000 == n <==> n < 0x1_0000_0000)
  {
  }
}
