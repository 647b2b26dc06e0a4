/**
 RADIUS packets (service/gateway_client.go, service/radius_server.go): sections 3 and 5 of RFC 2865,
 section 3 of RFC 2866, sections 5.1 and 5.2 of RFC 2869 and section 2.3 of RFC 5176. The digest is a
 parameter throughout; nothing is assumed of it.
 */
module Packets {
  import opened Domain

  newtype byte = x: int | 0 <= x < 256

  type Bytes = seq<byte>

  type Authenticator = a: Bytes | |a| == 16 witness seq(16, i => 0)

  type Md5 = Bytes -> Authenticator

  const ZEROS: Authenticator := seq(16, i => 0)

  datatype Attr = Attr(kind: byte, value: Bytes)

  datatype Packet = Packet(code: byte, identifier: byte, authenticator: Authenticator, attributes: seq<Attr>)

  const ACCESS_ACCEPT: byte := 2
  const DISCONNECT_REQUEST: byte := 40
  const SESSION_TIMEOUT: byte := 27
  const VENDOR_SPECIFIC: byte := 26
  const REPLY_MESSAGE: byte := 18

  const HEADER := 20
  const MAX_LENGTH := 65535
  const MAX_VALUE := 253

  // ---- Numbers on the wire ----

  /** The low sixteen bits, high byte first. */
  function Put16(n: nat): Bytes {
    [(n / 256 % 256) as byte, (n % 256) as byte]
  }

  function Get16(b: Bytes): nat
    requires |b| >= 2
  {
    b[0] as nat * 256 + b[1] as nat
  }

  /** The low thirty-two bits, high byte first. */
  function Put32(n: nat): Bytes {
    Put16(n / 65536) + Put16(n)
  }

  function Get32(b: Bytes): nat
    requires |b| == 4
  {
    Get16(b[..2]) * 65536 + Get16(b[2..])
  }

  lemma Word16(n: nat)
    ensures Get16(Put16(n)) == n % 65536
  {
    assert n % 65536 == (n / 256 % 256) * 256 + n % 256;
  }

  lemma Word32(n: nat)
    ensures Get32(Put32(n)) == n % 0x1_0000_0000
  {
    Word16(n / 65536);
    Word16(n);
    assert Put32(n)[..2] == Put16(n / 65536) && Put32(n)[2..] == Put16(n);
    assert n % 0x1_0000_0000 == (n / 65536 % 65536) * 65536 + n % 65536;
  }

  // ---- Attributes ----

  /** A value length that the one-byte length field can express. */
  predicate Fits(a: Attr) { |a.value| <= MAX_VALUE }

  ghost predicate AllFit(attrs: seq<Attr>) {
    forall i | 0 <= i < |attrs| :: Fits(attrs[i])
  }

  function EncodeAttr(a: Attr): Bytes {
    [a.kind, ((|a.value| + 2) % 256) as byte] + a.value
  }

  function EncodeAttrs(attrs: seq<Attr>): Bytes {
    if attrs == [] then [] else EncodeAttr(attrs[0]) + EncodeAttrs(attrs[1..])
  }

  function ParseAttrs(payload: Bytes): Option<seq<Attr>>
    decreases |payload|
  {
    if payload == [] then Some([])
    else if |payload| < 2 || payload[1] < 2 || payload[1] as nat > |payload| then None
    else
      var n := payload[1] as nat;
      var rest := ParseAttrs(payload[n..]);
      if rest.None? then None else Some([Attr(payload[0], payload[2..n])] + rest.value)
  }

  /** Whatever parses is a chain of well-formed attributes, and encoding them again gives the same bytes. */
  lemma {:induction false} ParseThenEncode(payload: Bytes)
    requires ParseAttrs(payload).Some?
    ensures EncodeAttrs(ParseAttrs(payload).value) == payload && AllFit(ParseAttrs(payload).value)
    decreases |payload|
  {
    if payload == [] {
    } else {
      var n := payload[1] as nat;
      var first, rest := Attr(payload[0], payload[2..n]), ParseAttrs(payload[n..]).value;
      ParseThenEncode(payload[n..]);
      assert ParseAttrs(payload).value == [first] + rest;
      EncodeCons(first, rest);
      FirstBytes(payload, n);
      FitsCons(first, rest);
    }
  }

  lemma FirstBytes(payload: Bytes, n: nat)
    requires 2 <= n <= |payload| && payload[1] as nat == n
    ensures EncodeAttr(Attr(payload[0], payload[2..n])) + payload[n..] == payload
  {
    assert EncodeAttr(Attr(payload[0], payload[2..n])) == payload[..n];
  }

  lemma EncodeCons(a: Attr, rest: seq<Attr>)
    ensures EncodeAttrs([a] + rest) == EncodeAttr(a) + EncodeAttrs(rest)
  {
    assert ([a] + rest)[1..] == rest;
  }

  lemma FitsCons(a: Attr, rest: seq<Attr>)
    ensures AllFit([a] + rest) <==> Fits(a) && AllFit(rest)
  {
    var all := [a] + rest;
    assert all[0] == a;
    assert forall i | 0 <= i < |rest| :: all[i + 1] == rest[i];
    assert forall i | 0 < i < |all| :: all[i] == rest[i - 1];
  }

  lemma ParseOne(a: Attr, rest: Bytes)
    requires Fits(a)
    ensures ParseAttrs(EncodeAttr(a) + rest) ==
              if ParseAttrs(rest).None? then None else Some([a] + ParseAttrs(rest).value)
  {
    var first := EncodeAttr(a);
    var payload := first + rest;
    assert payload[1] as nat == |first| && payload[0] == a.kind;
    assert payload[|first|..] == rest;
    assert payload[2..|first|] == a.value;
  }

  lemma {:induction false} EncodeThenParse(attrs: seq<Attr>)
    requires AllFit(attrs)
    ensures ParseAttrs(EncodeAttrs(attrs)) == Some(attrs)
  {
    if attrs == [] {
    } else {
      assert Fits(attrs[0]);
      assert AllFit(attrs[1..]) by {
        forall i | 0 <= i < |attrs| - 1
          ensures Fits(attrs[1..][i])
        {
          assert Fits(attrs[i + 1]);
        }
      }
      EncodeThenParse(attrs[1..]);
      ParseOne(attrs[0], EncodeAttrs(attrs[1..]));
      assert attrs == [attrs[0]] + attrs[1..];
    }
  }

  /** Attributes survive the wire exactly when each value fits its length field. */
  lemma AttributesRoundTrip(attrs: seq<Attr>)
    ensures ParseAttrs(EncodeAttrs(attrs)) == Some(attrs) <==> AllFit(attrs)
  {
    if AllFit(attrs) {
      EncodeThenParse(attrs);
    } else if ParseAttrs(EncodeAttrs(attrs)) == Some(attrs) {
      ParseThenEncode(EncodeAttrs(attrs));
      assert false;
    }
  }

  /** The parser accepts exactly the chains of well-formed attributes. */
  lemma AcceptsExactlyChains(payload: Bytes)
    ensures ParseAttrs(payload).Some? <==> exists attrs: seq<Attr> :: AllFit(attrs) && EncodeAttrs(attrs) == payload
  {
    if ParseAttrs(payload).Some? {
      ParseThenEncode(payload);
    }
    forall attrs: seq<Attr> | AllFit(attrs) && EncodeAttrs(attrs) == payload
      ensures ParseAttrs(payload).Some?
    {
      EncodeThenParse(attrs);
    }
  }

  // ---- Packets ----

  /** The length field can be trusted. */
  predicate LengthOk(raw: Bytes) {
    |raw| >= HEADER && HEADER <= Get16(raw[2..4]) <= |raw|
  }

  function Parse(raw: Bytes): Option<Packet> {
    if !LengthOk(raw) then None
    else
      var attrs := ParseAttrs(raw[HEADER..Get16(raw[2..4])]);
      if attrs.None? then None else Some(Packet(raw[0], raw[1], raw[4..HEADER], attrs.value))
  }

  function Assemble(code: byte, identifier: byte, auth: Authenticator, body: Bytes): Bytes {
    [code, identifier] + Put16(HEADER + |body|) + auth + body
  }

  /** What the digest of a packet is taken over. */
  function Covered(code: byte, identifier: byte, auth: Authenticator, body: Bytes, secret: Bytes): Bytes {
    Assemble(code, identifier, auth, body) + secret
  }

  /** Only the values that fit are sent in a response. */
  function Sendable(attrs: seq<Attr>): seq<Attr> {
    if attrs == [] then []
    else if Fits(attrs[0]) then [attrs[0]] + Sendable(attrs[1..])
    else Sendable(attrs[1..])
  }

  function Response(md5: Md5, req: Packet, code: byte, attrs: seq<Attr>, secret: Bytes): Bytes {
    var body := EncodeAttrs(Sendable(attrs));
    Assemble(code, req.identifier, md5(Covered(code, req.identifier, req.authenticator, body, secret)), body)
  }

  function Request(md5: Md5, code: byte, identifier: byte, attrs: seq<Attr>, secret: Bytes): Bytes {
    var body := EncodeAttrs(attrs);
    Assemble(code, identifier, md5(Covered(code, identifier, ZEROS, body, secret)), body)
  }

  /** The check of an accounting or disconnect request: the digest with the authenticator taken as zeros. */
  function ValidRequest(md5: Md5, raw: Bytes, secret: Bytes): bool {
    LengthOk(raw) &&
    var packet := raw[..Get16(raw[2..4])];
    md5(packet[..4] + ZEROS + packet[HEADER..] + secret) == packet[4..HEADER]
  }

  /** The check an access point makes of a response: the digest with the request's authenticator in place. */
  function ValidResponse(md5: Md5, raw: Bytes, asked: Authenticator, secret: Bytes): bool {
    LengthOk(raw) &&
    var packet := raw[..Get16(raw[2..4])];
    md5(packet[..4] + asked + packet[HEADER..] + secret) == packet[4..HEADER]
  }

  lemma AssembleParts(code: byte, identifier: byte, auth: Authenticator, body: Bytes)
    ensures var raw := Assemble(code, identifier, auth, body);
            && |raw| == HEADER + |body| && raw[0] == code && raw[1] == identifier
            && raw[2..4] == Put16(HEADER + |body|) && raw[4..HEADER] == auth && raw[HEADER..] == body
            && raw[..4] == [code, identifier] + Put16(HEADER + |body|)
            && Get16(raw[2..4]) == (HEADER + |body|) % 65536
            && (HEADER + |body| <= MAX_LENGTH ==> Get16(raw[2..4]) == |raw|)
  {
    Word16(HEADER + |body|);
    Small(HEADER + |body|);
  }

  lemma Small(n: nat)
    ensures n <= MAX_LENGTH ==> n % 65536 == n
  {
  }

  lemma ParseExact(raw: Bytes, code: byte, identifier: byte, auth: Authenticator, body: Bytes)
    requires |raw| >= HEADER && Get16(raw[2..4]) == |raw|
    requires raw[0] == code && raw[1] == identifier && raw[4..HEADER] == auth && raw[HEADER..] == body
    ensures Parse(raw) ==
              if ParseAttrs(body).None? then None else Some(Packet(code, identifier, auth, ParseAttrs(body).value))
  {
    assert raw[HEADER..|raw|] == body;
  }

  lemma ShortPacket(code: byte, identifier: byte, auth: Authenticator, body: Bytes)
    requires HEADER + |body| <= MAX_LENGTH
    ensures Parse(Assemble(code, identifier, auth, body)) ==
              if ParseAttrs(body).None? then None else Some(Packet(code, identifier, auth, ParseAttrs(body).value))
  {
    AssembleParts(code, identifier, auth, body);
    ParseExact(Assemble(code, identifier, auth, body), code, identifier, auth, body);
  }

  lemma LongPacket(code: byte, identifier: byte, auth: Authenticator, attrs: seq<Attr>)
    requires HEADER + |EncodeAttrs(attrs)| > MAX_LENGTH
    ensures Parse(Assemble(code, identifier, auth, EncodeAttrs(attrs))) != Some(Packet(code, identifier, auth, attrs))
  {
    var raw := Assemble(code, identifier, auth, EncodeAttrs(attrs));
    AssembleParts(code, identifier, auth, EncodeAttrs(attrs));
    if LengthOk(raw) && ParseAttrs(raw[HEADER..Get16(raw[2..4])]) == Some(attrs) {
      ParseThenEncode(raw[HEADER..Get16(raw[2..4])]);
      assert false;
    }
  }

  /** A packet survives the wire exactly when its values fit and its length fits sixteen bits. */
  lemma PacketRoundTrip(code: byte, identifier: byte, auth: Authenticator, attrs: seq<Attr>)
    ensures Parse(Assemble(code, identifier, auth, EncodeAttrs(attrs))) == Some(Packet(code, identifier, auth, attrs))
       <==> AllFit(attrs) && HEADER + |EncodeAttrs(attrs)| <= MAX_LENGTH
  {
    if HEADER + |EncodeAttrs(attrs)| <= MAX_LENGTH {
      ShortPacket(code, identifier, auth, EncodeAttrs(attrs));
      AttributesRoundTrip(attrs);
    } else {
      LongPacket(code, identifier, auth, attrs);
    }
  }

  lemma SendableCons(a: Attr, rest: seq<Attr>)
    ensures Sendable([a] + rest) == (if Fits(a) then [a] else []) + Sendable(rest)
  {
    assert ([a] + rest)[1..] == rest;
  }

  lemma {:induction false} SendableFits(attrs: seq<Attr>)
    ensures AllFit(Sendable(attrs))
    ensures AllFit(attrs) ==> Sendable(attrs) == attrs
  {
    if attrs == [] {
    } else {
      var first, rest := attrs[0], attrs[1..];
      assert attrs == [first] + rest;
      SendableFits(rest);
      SendableCons(first, rest);
      FitsCons(first, rest);
      FitsCons(first, Sendable(rest));
    }
  }

  /**
   Parsing a response gives the code, the identifier of the request and exactly the attributes that fit,
   if and only if the length fits sixteen bits; and the access point then accepts its authenticator.
   */
  lemma ResponseRoundTrip(md5: Md5, req: Packet, code: byte, attrs: seq<Attr>, secret: Bytes)
    ensures var raw := Response(md5, req, code, attrs, secret); var sent := Sendable(attrs);
            var auth := md5(Covered(code, req.identifier, req.authenticator, EncodeAttrs(sent), secret));
            && (Parse(raw) == Some(Packet(code, req.identifier, auth, sent)) <==> |raw| <= MAX_LENGTH)
            && (|raw| <= MAX_LENGTH ==> ValidResponse(md5, raw, req.authenticator, secret))
  {
    var sent := Sendable(attrs);
    var body := EncodeAttrs(sent);
    var auth := md5(Covered(code, req.identifier, req.authenticator, body, secret));
    SendableFits(attrs);
    PacketRoundTrip(code, req.identifier, auth, sent);
    AssembleParts(code, req.identifier, auth, body);
    var raw := Response(md5, req, code, attrs, secret);
    if |raw| <= MAX_LENGTH {
      assert raw[..Get16(raw[2..4])] == raw;
      assert raw[..4] + req.authenticator + raw[HEADER..] + secret
             == Covered(code, req.identifier, req.authenticator, body, secret);
    }
  }

  /** Every request whose length fits passes the check with the same secret. */
  lemma RequestValidates(md5: Md5, code: byte, identifier: byte, attrs: seq<Attr>, secret: Bytes)
    requires HEADER + |EncodeAttrs(attrs)| <= MAX_LENGTH
    ensures ValidRequest(md5, Request(md5, code, identifier, attrs, secret), secret)
  {
    var body := EncodeAttrs(attrs);
    var auth := md5(Covered(code, identifier, ZEROS, body, secret));
    var raw := Request(md5, code, identifier, attrs, secret);
    AssembleParts(code, identifier, auth, body);
    assert raw[..Get16(raw[2..4])] == raw;
    assert raw[..4] + ZEROS + raw[HEADER..] + secret == Covered(code, identifier, ZEROS, body, secret);
  }

  /** A disconnect request validates and parses back to its attributes exactly when they fit. */
  lemma DisconnectRequestRoundTrip(md5: Md5, identifier: byte, attrs: seq<Attr>, secret: Bytes)
    ensures var raw := Request(md5, DISCONNECT_REQUEST, identifier, attrs, secret);
            (AllFit(attrs) && |raw| <= MAX_LENGTH) <==>
              && ValidRequest(md5, raw, secret)
              && Parse(raw).Some? && Parse(raw).value.attributes == attrs
              && Parse(raw).value.code == DISCONNECT_REQUEST && Parse(raw).value.identifier == identifier
  {
    var body := EncodeAttrs(attrs);
    var auth := md5(Covered(DISCONNECT_REQUEST, identifier, ZEROS, body, secret));
    var raw := Request(md5, DISCONNECT_REQUEST, identifier, attrs, secret);
    PacketRoundTrip(DISCONNECT_REQUEST, identifier, auth, attrs);
    AssembleParts(DISCONNECT_REQUEST, identifier, auth, body);
    if AllFit(attrs) && |raw| <= MAX_LENGTH {
      RequestValidates(md5, DISCONNECT_REQUEST, identifier, attrs, secret);
    }
  }

  /** Bytes after the declared length change neither the parse nor the checks. */
  lemma PaddingIgnored(md5: Md5, raw: Bytes, padding: Bytes, asked: Authenticator, secret: Bytes)
    requires LengthOk(raw)
    ensures Parse(raw + padding) == Parse(raw)
    ensures ValidRequest(md5, raw + padding, secret) == ValidRequest(md5, raw, secret)
    ensures ValidResponse(md5, raw + padding, asked, secret) == ValidResponse(md5, raw, asked, secret)
  {
    var n := Get16(raw[2..4]);
    var long := raw + padding;
    assert long[2..4] == raw[2..4] && long[..n] == raw[..n];
    assert long[HEADER..n] == raw[HEADER..n] && long[4..HEADER] == raw[4..HEADER];
  }

  // ---- Counters ----

  /** The last four-byte value of a kind, zero if there is none: later attributes overwrite earlier ones. */
  function LastWord(attrs: seq<Attr>, kind: byte): nat {
    if attrs == [] then 0
    else
      var a := attrs[|attrs| - 1];
      if a.kind == kind && |a.value| == 4 then Get32(a.value) else LastWord(attrs[..|attrs| - 1], kind)
  }

  /** The first four-byte value of a kind, zero if there is none. */
  function FirstWord(attrs: seq<Attr>, kind: byte): nat {
    if attrs == [] then 0
    else if attrs[0].kind == kind && |attrs[0].value| == 4 then Get32(attrs[0].value)
    else FirstWord(attrs[1..], kind)
  }

  /** Two's complement reading of sixty-four bits. */
  function AsInt64(n: nat): int {
    var low := n % 0x1_0000_0000_0000_0000;
    if low >= 0x8000_0000_0000_0000 then low - 0x1_0000_0000_0000_0000 else low
  }

  function Octets(attrs: seq<Attr>, octetsKind: byte, gigawordsKind: byte): int {
    AsInt64(LastWord(attrs, gigawordsKind) * 0x1_0000_0000 + LastWord(attrs, octetsKind))
  }

  function WordAttr(kind: byte, n: nat): Attr { Attr(kind, Put32(n)) }

  ghost predicate NoWord(attrs: seq<Attr>, kind: byte) {
    forall i | 0 <= i < |attrs| :: attrs[i].kind == kind ==> |attrs[i].value| != 4
  }

  lemma {:induction false} LastWordFound(before: seq<Attr>, a: Attr, after: seq<Attr>)
    requires |a.value| == 4 && NoWord(after, a.kind)
    ensures LastWord(before + [a] + after, a.kind) == Get32(a.value)
  {
    var all := before + [a] + after;
    if after == [] {
      assert all[|all| - 1] == a;
    } else {
      LastWordFound(before, a, after[..|after| - 1]);
      assert all[..|all| - 1] == before + [a] + after[..|after| - 1];
      assert all[|all| - 1] == after[|after| - 1];
    }
  }

  /** Neither kind occurs in `y` or `z` with a four-byte value. */
  ghost predicate NoOther(y: seq<Attr>, z: seq<Attr>, k: byte, l: byte) {
    NoWord(y, k) && NoWord(z, k) && NoWord(y, l) && NoWord(z, l)
  }

  lemma TwoWordsFound(x: seq<Attr>, y: seq<Attr>, z: seq<Attr>, a: Attr, b: Attr)
    requires |a.value| == 4 && |b.value| == 4 && a.kind != b.kind && NoOther(y, z, a.kind, b.kind)
    ensures var attrs := x + [a] + y + [b] + z;
            LastWord(attrs, a.kind) == Get32(a.value) && LastWord(attrs, b.kind) == Get32(b.value)
  {
    LastWordFound(x, a, y + [b] + z);
    LastWordFound(x + [a] + y, b, z);
    assert x + [a] + (y + [b] + z) == x + [a] + y + [b] + z;
  }

  lemma Halves(n: nat)
    requires n < 0x1_0000_0000_0000_0000
    ensures n / 0x1_0000_0000 < 0x1_0000_0000
    ensures (n / 0x1_0000_0000) * 0x1_0000_0000 + n % 0x1_0000_0000 == n
  {
  }

  lemma SignBit(n: nat)
    requires n < 0x1_0000_0000_0000_0000
    ensures AsInt64(n) == n <==> n < 0x8000_0000_0000_0000
  {
  }

  lemma JoinWords(n: nat, low: nat, high: nat)
    requires n < 0x1_0000_0000_0000_0000 && low == n % 0x1_0000_0000 && high == n / 0x1_0000_0000
    ensures Get32(Put32(high)) == high && Get32(Put32(low)) == low && high * 0x1_0000_0000 + low == n
  {
    Halves(n);
    Word32(low);
    Word32(high);
  }

  /** Attributes among which the last octets and the last gigawords attribute, in either order, carry a counter. */
  function Carrying(x: seq<Attr>, y: seq<Attr>, z: seq<Attr>, octetsKind: byte, gigawordsKind: byte, n: nat,
                    octetsFirst: bool): seq<Attr>
  {
    var low, high := WordAttr(octetsKind, n % 0x1_0000_0000), WordAttr(gigawordsKind, n / 0x1_0000_0000);
    if octetsFirst then x + [low] + y + [high] + z else x + [high] + y + [low] + z
  }

  /**
   A 64-bit counter sent as an octets and a gigawords attribute, in either order among any attributes of which
   none of these kinds comes later, is read back as the same counter exactly below 2^63, and as its two's
   complement above.
   */
  lemma CounterSurvives(x: seq<Attr>, y: seq<Attr>, z: seq<Attr>, octetsKind: byte, gigawordsKind: byte, n: nat,
                        octetsFirst: bool)
    requires octetsKind != gigawordsKind && n < 0x1_0000_0000_0000_0000 && NoOther(y, z, octetsKind, gigawordsKind)
    ensures var attrs := Carrying(x, y, z, octetsKind, gigawordsKind, n, octetsFirst);
            && Octets(attrs, octetsKind, gigawordsKind) == AsInt64(n)
            && (Octets(attrs, octetsKind, gigawordsKind) == n <==> n < 0x8000_0000_0000_0000)
  {
    var low, high := WordAttr(octetsKind, n % 0x1_0000_0000), WordAttr(gigawordsKind, n / 0x1_0000_0000);
    JoinWords(n, n % 0x1_0000_0000, n / 0x1_0000_0000);
    SignBit(n);
    if octetsFirst {
      TwoWordsFound(x, y, z, low, high);
    } else {
      TwoWordsFound(x, y, z, high, low);
    }
  }

  /** The same through a whole packet: built, sent, validated, parsed and read. */
  lemma CounterSurvivesWire(md5: Md5, code: byte, identifier: byte, secret: Bytes, x: seq<Attr>, y: seq<Attr>,
                            z: seq<Attr>, octetsKind: byte, gigawordsKind: byte, n: nat, octetsFirst: bool)
    requires octetsKind != gigawordsKind && n < 0x1_0000_0000_0000_0000 && NoOther(y, z, octetsKind, gigawordsKind)
    requires var attrs := Carrying(x, y, z, octetsKind, gigawordsKind, n, octetsFirst);
             AllFit(attrs) && HEADER + |EncodeAttrs(attrs)| <= MAX_LENGTH
    ensures var attrs := Carrying(x, y, z, octetsKind, gigawordsKind, n, octetsFirst);
            var raw := Request(md5, code, identifier, attrs, secret);
            && ValidRequest(md5, raw, secret) && Parse(raw).Some?
            && var read := Octets(Parse(raw).value.attributes, octetsKind, gigawordsKind);
               read == AsInt64(n) && (read == n <==> n < 0x8000_0000_0000_0000)
  {
    var attrs := Carrying(x, y, z, octetsKind, gigawordsKind, n, octetsFirst);
    CounterSurvives(x, y, z, octetsKind, gigawordsKind, n, octetsFirst);
    PacketRoundTrip(code, identifier, md5(Covered(code, identifier, ZEROS, EncodeAttrs(attrs), secret)), attrs);
    RequestValidates(md5, code, identifier, attrs, secret);
  }
}
