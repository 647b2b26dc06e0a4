/** The formats of addresses, codes, texts and packets, character by character and byte by byte. */
module Formats {
  import opened Domain
  import opened Keys
  import opened Codes
  import opened Packets
  import opened Texts
  import opened Claims
  import opened Wire

  // ---- Addresses and codes ----

  lemma HexDigits(c: char)
    ensures IsHexDigit(c) <==> c in "0123456789abcdefABCDEF"
    ensures UpperChar(c) == if c in "abcdefghijklmnopqrstuvwxyz" then (c as int - 'a' as int + 'A' as int) as char
            else c
  {
  }

  lemma {:induction false} KeepReads(s: string, p: char -> bool)
    ensures forall i | 0 <= i < |Keep(p, s)| :: p(Keep(p, s)[i]) && Keep(p, s)[i] in s
    ensures s != "" ==> Keep(p, s) == (if p(s[0]) then [s[0]] else []) + Keep(p, s[1..])
  {
    if s == "" {
    } else {
      KeepReads(s[1..], p);
    }
  }

  /** The canonical address: the twelve digits in order, in capitals, in six pairs with colons between them. */
  lemma MacLayout(s: string)
    requires |HexOnly(s)| == 12
    ensures var d := Upper(HexOnly(s));
            CanonicalMac(s)
                == Some([d[0], d[1], ':', d[2], d[3], ':', d[4], d[5], ':', d[6], d[7], ':', d[8], d[9], ':',
                                     d[10], d[11]])
    ensures forall i | 0 <= i < 12 :: Upper(HexOnly(s))[i] in "0123456789ABCDEF"
  {
    MacAccepted(s);
    GroupedLayout(Upper(HexOnly(s)));
    CapitalDigits(s);
  }

  lemma CapitalDigits(s: string)
    ensures forall i | 0 <= i < |HexOnly(s)| :: Upper(HexOnly(s))[i] in "0123456789ABCDEF"
  {
    KeepReads(s, IsHexDigit);
    forall i | 0 <= i < |HexOnly(s)|
      ensures Upper(HexOnly(s))[i] in "0123456789ABCDEF"
    {
      HexDigits(HexOnly(s)[i]);
      CapitalDigit(HexOnly(s)[i]);
    }
  }

  lemma CapitalDigit(c: char)
    requires IsHexDigit(c)
    ensures UpperChar(c) in "0123456789ABCDEF"
  {
  }

  lemma GroupedLayout(d: string)
    requires |d| == 12
    ensures Grouped(d)
            == [d[0], d[1], ':', d[2], d[3], ':', d[4], d[5], ':', d[6], d[7], ':', d[8], d[9], ':', d[10], d[11]]
  {
    assert d[0..] == d;
    PairLayout(d, 0);
    PairLayout(d, 2);
    LastPairs(d);
  }

  lemma LastPairs(d: string)
    requires |d| == 12
    ensures Grouped(d[4..]) == [d[4], d[5], ':', d[6], d[7], ':', d[8], d[9], ':', d[10], d[11]]
  {
    assert Grouped(d[10..]) == [d[10], d[11]];
    PairLayout(d, 8);
    PairLayout(d, 6);
    PairLayout(d, 4);
  }

  lemma PairLayout(d: string, i: nat)
    requires |d| == 12 && i % 2 == 0 && i <= 8
    ensures Grouped(d[i..]) == [d[i], d[i + 1], ':'] + Grouped(d[i + 2..])
  {
    assert d[i..][..2] == [d[i], d[i + 1]] && d[i..][2..] == d[i + 2..];
  }

  /** A drawn code: three groups of four symbols of the alphabet, with dashes between them. */
  lemma CodeLayout(a: Quad, b: Quad, c: Quad)
    ensures var code := VoucherCode(a, b, c);
            && |code| == 14 && code[4] == code[9] == '-'
            && forall i | 0 <= i < 4 ::
                 && code[i] == "ABCDEFGHJKLMNPQRSTUVWXYZ23456789"[a[i] as int % 32]
                 && code[i + 5] == "ABCDEFGHJKLMNPQRSTUVWXYZ23456789"[b[i] as int % 32]
                 && code[i + 10] == "ABCDEFGHJKLMNPQRSTUVWXYZ23456789"[c[i] as int % 32]
  {
  }

  // ---- Numbers ----

  lemma SixteenBits(n: nat, b: Bytes)
    requires |b| == 2
    ensures Put16(n) == [(n / 256 % 256) as byte, (n % 256) as byte]
    ensures Get16(b) == b[0] as nat * 256 + b[1] as nat
  {
  }

  lemma ThirtyTwoBits(n: nat, b: Bytes)
    requires |b| == 4
    ensures Put32(n)
            == [(n / 16_777_216 % 256) as byte, (n / 65_536 % 256) as byte, (n / 256 % 256) as byte, (n % 256) as byte]
    ensures Get32(b) == b[0] as nat * 16_777_216 + b[1] as nat * 65_536 + b[2] as nat * 256 + b[3] as nat
  {
    assert n / 65_536 / 256 == n / 16_777_216;
  }

  lemma SixtyFourBits(n: nat)
    requires n < 0x1_0000_0000_0000_0000
    ensures AsInt64(n) == if n < 0x8000_0000_0000_0000 then n else n - 0x1_0000_0000_0000_0000
  {
  }

  // ---- Packets ----

  const NOUGHT: Authenticator := [0, 0, 0, 0, 0, 0, 0, 0, 0, 0, 0, 0, 0, 0, 0, 0]

  /** Code, identifier, length in two bytes with the high one first, authenticator, body. */
  function Frame(code: byte, identifier: byte, auth: Authenticator, body: Bytes): Bytes
    requires 20 + |body| <= 65_535
  {
    [code, identifier, ((20 + |body|) / 256) as byte, ((20 + |body|) % 256) as byte] + auth + body
  }

  /** The same with the digest over the packet, in which `asked` stands for it, and the secret. */
  function SignedFrame(md5: Md5, code: byte, identifier: byte, asked: Authenticator, body: Bytes, secret: Bytes): Bytes
    requires 20 + |body| <= 65_535
  {
    Frame(code, identifier, md5(Frame(code, identifier, asked, body) + secret), body)
  }

  lemma FrameLayout(code: byte, identifier: byte, auth: Authenticator, body: Bytes)
    requires 20 + |body| <= 65_535
    ensures Assemble(code, identifier, auth, body) == Frame(code, identifier, auth, body)
  {
  }

  ghost predicate StartsSigned(md5: Md5, raw: Bytes, asked: Authenticator, secret: Bytes) {
    exists code, identifier, body ::
      20 + |body| <= 65_535 && SignedFrame(md5, code, identifier, asked, body, secret) <= raw
  }

  ghost predicate Signed(md5: Md5, raw: Bytes, asked: Authenticator, secret: Bytes) {
    LengthOk(raw) &&
    var packet := raw[..Get16(raw[2..4])];
    md5(packet[..4] + asked + packet[HEADER..] + secret) == packet[4..HEADER]
  }

  lemma SignedStarts(md5: Md5, raw: Bytes, asked: Authenticator, secret: Bytes)
    requires Signed(md5, raw, asked, secret)
    ensures StartsSigned(md5, raw, asked, secret)
  {
    var n := Get16(raw[2..4]);
    var body := raw[20..n];
    assert n <= 65_535 && 20 + |body| == n;
    var frame := Frame(raw[0], raw[1], asked, body);
    assert frame + secret == raw[..n][..4] + asked + raw[..n][20..] + secret;
    assert SignedFrame(md5, raw[0], raw[1], asked, body, secret) == raw[..n];
  }

  lemma StartsIsSigned(md5: Md5, raw: Bytes, asked: Authenticator, secret: Bytes, code: byte, identifier: byte,
                       body: Bytes)
    requires 20 + |body| <= 65_535 && SignedFrame(md5, code, identifier, asked, body, secret) <= raw
    ensures Signed(md5, raw, asked, secret)
  {
    var packet := SignedFrame(md5, code, identifier, asked, body, secret);
    var n := 20 + |body|;
    assert raw[..n] == packet && raw[2..4] == packet[2..4];
    assert Get16(raw[2..4]) == n;
    assert packet[..4] + asked + packet[20..] + secret == Frame(code, identifier, asked, body) + secret;
  }

  /**
   A request passes the check if and only if it starts with a packet whose authenticator is the digest of that
   packet, with zeros for the authenticator, and the secret.
   */
  lemma RequestCheckExact(md5: Md5, raw: Bytes, secret: Bytes)
    ensures ValidRequest(md5, raw, secret) <==> StartsSigned(md5, raw, NOUGHT, secret)
  {
    assert ZEROS == NOUGHT;
    assert ValidRequest(md5, raw, secret) == Signed(md5, raw, NOUGHT, secret);
    CheckExact(md5, raw, NOUGHT, secret);
  }

  lemma CheckExact(md5: Md5, raw: Bytes, asked: Authenticator, secret: Bytes)
    ensures Signed(md5, raw, asked, secret) <==> StartsSigned(md5, raw, asked, secret)
  {
    if Signed(md5, raw, asked, secret) {
      SignedStarts(md5, raw, asked, secret);
    }
    if StartsSigned(md5, raw, asked, secret) {
      var code, identifier, body :|
        20 + |body| <= 65_535 && SignedFrame(md5, code, identifier, asked, body, secret) <= raw;
      StartsIsSigned(md5, raw, asked, secret, code, identifier, body);
    }
  }

  /** The access point accepts a response if and only if its digest was taken with the authenticator of the request. */
  lemma ResponseCheckExact(md5: Md5, raw: Bytes, asked: Authenticator, secret: Bytes)
    ensures ValidResponse(md5, raw, asked, secret) <==> StartsSigned(md5, raw, asked, secret)
  {
    assert ValidResponse(md5, raw, asked, secret) == Signed(md5, raw, asked, secret);
    CheckExact(md5, raw, asked, secret);
  }

  /** Attributes follow one another as type, length of all three parts, value. */
  lemma AttributeLayout(a: Attr, rest: seq<Attr>)
    requires |a.value| <= 253
    ensures EncodeAttrs([]) == []
    ensures EncodeAttrs([a] + rest) == [a.kind, (|a.value| + 2) as byte] + a.value + EncodeAttrs(rest)
  {
    EncodeCons(a, rest);
  }

  /** Bytes are read as a packet exactly when they start with that packet, laid out. */
  lemma ParseExactly(raw: Bytes, p: Packet)
    ensures Parse(raw) == Some(p) <==>
              && (forall i | 0 <= i < |p.attributes| :: |p.attributes[i].value| <= 253)
              && 20 + |EncodeAttrs(p.attributes)| <= 65_535
              && Frame(p.code, p.identifier, p.authenticator, EncodeAttrs(p.attributes)) <= raw
  {
    if Parse(raw) == Some(p) {
      ParsedIsFramed(raw, p);
    }
    if AllFit(p.attributes) && 20 + |EncodeAttrs(p.attributes)| <= 65_535
       && Frame(p.code, p.identifier, p.authenticator, EncodeAttrs(p.attributes)) <= raw {
      FramedIsParsed(raw, p);
    }
    assert AllFit(p.attributes) <==> forall i | 0 <= i < |p.attributes| :: |p.attributes[i].value| <= 253;
  }

  lemma ParsedIsFramed(raw: Bytes, p: Packet)
    requires Parse(raw) == Some(p)
    ensures AllFit(p.attributes) && 20 + |EncodeAttrs(p.attributes)| <= 65_535
    ensures Frame(p.code, p.identifier, p.authenticator, EncodeAttrs(p.attributes)) <= raw
  {
    var n := Get16(raw[2..4]);
    ParseThenEncode(raw[20..n]);
    assert Frame(p.code, p.identifier, p.authenticator, raw[20..n]) == raw[..n];
  }

  lemma FramedIsParsed(raw: Bytes, p: Packet)
    requires AllFit(p.attributes) && 20 + |EncodeAttrs(p.attributes)| <= 65_535
    requires Frame(p.code, p.identifier, p.authenticator, EncodeAttrs(p.attributes)) <= raw
    ensures Parse(raw) == Some(p)
  {
    var packet := Frame(p.code, p.identifier, p.authenticator, EncodeAttrs(p.attributes));
    FrameLayout(p.code, p.identifier, p.authenticator, EncodeAttrs(p.attributes));
    PacketRoundTrip(p.code, p.identifier, p.authenticator, p.attributes);
    AssembleParts(p.code, p.identifier, p.authenticator, EncodeAttrs(p.attributes));
    PaddingIgnored(_ => NOUGHT, packet, raw[|packet|..], NOUGHT, []);
    assert packet + raw[|packet|..] == raw;
  }

  /** A request is signed with zeros in place of its authenticator, a response with the authenticator it answers. */
  lemma BuiltPackets(md5: Md5, asked: Packet, code: byte, identifier: byte, attrs: seq<Attr>, secret: Bytes)
    ensures 20 + |EncodeAttrs(attrs)| <= 65_535 ==>
              Request(md5, code, identifier, attrs, secret)
              == SignedFrame(md5, code, identifier, NOUGHT, EncodeAttrs(attrs), secret)
    ensures 20 + |EncodeAttrs(Sendable(attrs))| <= 65_535 ==>
              Response(md5, asked, code, attrs, secret)
              == SignedFrame(md5, code, asked.identifier, asked.authenticator, EncodeAttrs(Sendable(attrs)), secret)
  {
    assert ZEROS == NOUGHT;
    SignedLayout(md5, code, identifier, NOUGHT, EncodeAttrs(attrs), secret);
    SignedLayout(md5, code, asked.identifier, asked.authenticator, EncodeAttrs(Sendable(attrs)), secret);
  }

  lemma SignedLayout(md5: Md5, code: byte, identifier: byte, asked: Authenticator, body: Bytes, secret: Bytes)
    ensures 20 + |body| <= 65_535 ==>
              Assemble(code, identifier, md5(Covered(code, identifier, asked, body, secret)), body)
              == SignedFrame(md5, code, identifier, asked, body, secret)
  {
    if 20 + |body| <= 65_535 {
      FrameLayout(code, identifier, asked, body);
      FrameLayout(code, identifier, md5(Covered(code, identifier, asked, body, secret)), body);
    }
  }

  /** A response leaves out exactly the values of more than 253 bytes. */
  lemma SentAttributes(a: Attr, rest: seq<Attr>)
    ensures Sendable([]) == [] && Sendable([a] + rest) == (if |a.value| <= 253 then [a] else []) + Sendable(rest)
  {
    SendableCons(a, rest);
  }

  // ---- Reading attributes ----

  /** No attribute of the kind is read as a number. */
  lemma {:induction false} WordsAbsent(attrs: seq<Attr>, kind: byte)
    requires NoWord(attrs, kind)
    ensures FirstWord(attrs, kind) == 0 && LastWord(attrs, kind) == 0
    decreases |attrs|
  {
    if attrs == [] {
    } else {
      WordsAbsent(attrs[1..], kind);
      WordsAbsent(attrs[..|attrs| - 1], kind);
    }
  }

  lemma {:induction false} FirstWordFound(before: seq<Attr>, a: Attr, after: seq<Attr>)
    requires |a.value| == 4 && NoWord(before, a.kind)
    ensures FirstWord(before + [a] + after, a.kind) == Get32(a.value)
    decreases |before|
  {
    var all := before + [a] + after;
    if before == [] {
      assert all[0] == a;
    } else {
      FirstWordFound(before[1..], a, after);
      assert all[1..] == before[1..] + [a] + after && all[0] == before[0];
    }
  }

  ghost predicate Without(attrs: seq<Attr>, kind: byte) {
    forall i | 0 <= i < |attrs| :: attrs[i].kind != kind
  }

  /** The first attribute of a kind is the text, trimmed; without one the text is empty. */
  lemma {:induction false} FirstTextFound(decode: Decode, before: seq<Attr>, a: Attr, after: seq<Attr>)
    requires Without(before, a.kind)
    ensures FirstText(decode, before, a.kind) == ""
    ensures FirstText(decode, before + [a] + after, a.kind) == TrimSpace(decode(a.value))
    decreases |before|
  {
    var all := before + [a] + after;
    if before == [] {
      assert all[0] == a;
    } else {
      FirstTextFound(decode, before[1..], a, after);
      assert all[1..] == before[1..] + [a] + after && all[0] == before[0];
    }
  }

  /** The first four-byte attribute of a kind is the address; without one the address is empty. */
  lemma {:induction false} FirstAddressFound(before: seq<Attr>, a: Attr, after: seq<Attr>)
    requires NoWord(before, a.kind) && |a.value| == 4
    ensures FirstAddress(before, a.kind) == ""
    ensures FirstAddress(before + [a] + after, a.kind) == Dotted(a.value)
    decreases |before|
  {
    var all := before + [a] + after;
    if before == [] {
      assert all[0] == a;
    } else {
      FirstAddressFound(before[1..], a, after);
      assert all[1..] == before[1..] + [a] + after && all[0] == before[0];
    }
  }

  /** An address reads as its four bytes in order, in decimal, with dots between them. */
  lemma DottedLayout(b: Bytes) returns (x: string, y: string, z: string, u: string)
    requires |b| == 4
    ensures Dotted(b) == x + ("." + (y + ("." + (z + ("." + u)))))
    ensures '.' !in x && '.' !in y && '.' !in z && '.' !in u
    ensures ValueOf(x) == b[0] as int && ValueOf(y) == b[1] as int && ValueOf(z) == b[2] as int
            && ValueOf(u) == b[3] as int
  {
    x, y, z, u := Decimal(b[0] as nat), Decimal(b[1] as nat), Decimal(b[2] as nat), Decimal(b[3] as nat);
    DecimalValue(b[0] as nat);
    DecimalValue(b[1] as nat);
    DecimalValue(b[2] as nat);
    DecimalValue(b[3] as nat);
  }

  // ---- The Access-Accept ----

  /** The rate limit names the speed toward the device first, then the other, both in kilobits. */
  lemma RateLayout(p: Policy) returns (down: string, up: string)
    requires p.speedDownKbps >= 0 && p.speedUpKbps >= 0
    ensures RateText(p) == down + "k/" + up + "k"
    ensures ValueOf(down) == p.speedDownKbps && ValueOf(up) == p.speedUpKbps
  {
    down, up := Decimal(p.speedDownKbps), Decimal(p.speedUpKbps);
    DecimalValue(p.speedDownKbps);
    DecimalValue(p.speedUpKbps);
  }

  /** The timeout sent is the granted one, raised to a minute. */
  lemma SentIsGranted(p: Policy)
    ensures SentTimeout(p) == (if p.sessionTimeoutSec < 60 then 60 else p.sessionTimeoutSec)
  {
  }

  /** An accept holds the timeout, the vendor's rate limit and a message, with the numbers of the standard. */
  lemma AcceptLayout(p: Policy)
    ensures var seconds := if p.sessionTimeoutSec < 60 then 60 else p.sessionTimeoutSec;
            var rate := BytesOf(RateText(p));
            var attrs := AcceptAttrs(p);
            && |attrs| == 3 && attrs[0].kind == 27 && attrs[1].kind == 26 && attrs[2].kind == 18
            && |attrs[0].value| == 4 && Get32(attrs[0].value) == seconds % 0x1_0000_0000
            && attrs[1].value == [0, 0, 58, 140, 8, ((|rate| + 2) % 256) as byte] + rate
            && attrs[2].value == BytesOf("Access granted")
  {
    SentIsGranted(p);
    Word32(SentTimeout(p));
    ThirtyTwoBits(14988, [0, 0, 0, 0]);
  }

  lemma BytesOfReads(s: string, i: nat)
    requires Ascii(s) && i < |s|
    ensures |BytesOf(s)| == |s| && BytesOf(s)[i] as int == s[i] as int
  {
  }
}
