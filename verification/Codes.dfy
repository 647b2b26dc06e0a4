/**
 Voucher codes (util/token.go): how they are drawn, and why whoever types one reaches the voucher it was printed on.
 */
module Codes {
  import opened Domain
  import opened Keys
  import opened Store
  import opened Tokens
  import opened Claims
  import opened Packets

  const ALPHABET := "ABCDEFGHJKLMNPQRSTUVWXYZ23456789"

  type Quad = b: Bytes | |b| == 4 witness [0, 0, 0, 0]

  function Symbol(b: byte): char { ALPHABET[b as int % 32] }

  function Symbols(buf: Bytes): string { seq(|buf|, i requires 0 <= i < |buf| => Symbol(buf[i])) }

  /** `None` stands for a random source that fails. */
  method RandomPart(buf: Option<Bytes>) returns (part: string)
    ensures part == if buf.None? then "" else Symbols(buf.value)
  {
    if buf.None? {
      return "";
    }
    var n := |buf.value|;
    var chars := new char[n](i => ' ');
    var i := 0;
    while i < n
      invariant 0 <= i <= n
      invariant forall k | 0 <= k < i :: chars[k] == Symbol(buf.value[k])
    {
      chars[i] := ALPHABET[buf.value[i] as int % |ALPHABET|];
      i := i + 1;
    }
    part := chars[..];
  }

  function VoucherCode(a: Quad, b: Quad, c: Quad): string {
    Symbols(a) + "-" + Symbols(b) + "-" + Symbols(c)
  }

  method GenerateTokenCode(a: Option<Quad>, b: Option<Quad>, c: Option<Quad>) returns (code: Option<string>)
    ensures code == if a.None? || b.None? || c.None? then None else Some(VoucherCode(a.value, b.value, c.value))
  {
    var first := RandomPart(a);
    var second := RandomPart(b);
    var third := RandomPart(c);
    if first == "" || second == "" || third == "" {
      return None;
    }
    code := Some(first + "-" + second + "-" + third);
  }

  predicate Plain(c: char) { IsUpper(c) && NotBlank(c) && Solid(c) }

  /** The place of a symbol in the alphabet, which leaves out I, O, 0 and 1. */
  function Place(c: char): int {
    if c <= '9' then c as int - '2' as int + 24
    else if c <= 'H' then c as int - 'A' as int
    else if c <= 'N' then c as int - 'J' as int + 8
    else c as int - 'P' as int + 13
  }

  lemma SymbolPlain(b: byte)
    ensures Plain(Symbol(b)) && Place(Symbol(b)) == b as int % 32
  {
  }

  lemma SymbolsPlain(buf: Bytes)
    ensures All(Plain, Symbols(buf))
  {
    forall i | 0 <= i < |buf|
      ensures Plain(Symbols(buf)[i])
    {
      SymbolPlain(buf[i]);
    }
  }

  lemma AllPlain(a: Quad, b: Quad, c: Quad)
    ensures var code := VoucherCode(a, b, c); |code| == 14 && All(Plain, code) && All(Solid, code)
  {
    SymbolsPlain(a);
    SymbolsPlain(b);
    SymbolsPlain(c);
    assert All(Plain, "-");
  }

  /** A printed code is its own normal form. */
  lemma CodeCanonical(a: Quad, b: Quad, c: Quad)
    ensures NormalizeCode(VoucherCode(a, b, c)) == VoucherCode(a, b, c)
  {
    var code := VoucherCode(a, b, c);
    AllPlain(a, b, c);
    assert Upper(code) == code;
    assert All(NotBlank, code);
    KeepAll(NotBlank, code);
    TrimIdentity(code);
  }

  lemma SymbolTells(v: byte, u: byte)
    ensures Symbol(v) == Symbol(u) <==> v as int % 32 == u as int % 32
  {
    SymbolPlain(v);
    SymbolPlain(u);
  }

  /** Byte for byte the same modulo the size of the alphabet. */
  ghost predicate SameDraw(a: Quad, x: Quad) {
    forall i | 0 <= i < 4 :: a[i] as int % 32 == x[i] as int % 32
  }

  lemma SymbolsTell(a: Quad, x: Quad)
    ensures Symbols(a) == Symbols(x) <==> SameDraw(a, x)
  {
    forall i | 0 <= i < 4
      ensures Symbols(a)[i] == Symbols(x)[i] <==> a[i] as int % 32 == x[i] as int % 32
    {
      SymbolTells(a[i], x[i]);
    }
  }

  lemma CodeParts(a: Quad, b: Quad, c: Quad)
    ensures var code := VoucherCode(a, b, c);
            |code| == 14 && code[..4] == Symbols(a) && code[5..9] == Symbols(b) && code[10..] == Symbols(c)
  {
  }

  /** Under a digest without collisions, two draws share a key exactly when all twelve bytes agree modulo 32. */
  lemma KeysTellCodesApart(digest: string -> string, a: Quad, b: Quad, c: Quad, x: Quad, y: Quad, z: Quad)
    requires forall s, t :: digest(s) == digest(t) ==> s == t
    ensures HashCode(digest, VoucherCode(a, b, c)) == HashCode(digest, VoucherCode(x, y, z))
       <==> SameDraw(a, x) && SameDraw(b, y) && SameDraw(c, z)
  {
    CodeCanonical(a, b, c);
    CodeCanonical(x, y, z);
    CodeParts(a, b, c);
    CodeParts(x, y, z);
    SymbolsTell(a, x);
    SymbolsTell(b, y);
    SymbolsTell(c, z);
  }

  /**
   Whoever types the code of a stored voucher, in any case, with blanks between the characters and white
   space around them, reaches that voucher.
   */
  lemma TypedCodeFinds(digest: string -> string, db: Db, tid: string, a: Quad, b: Quad, c: Quad,
                       lead: string, typed: string, trail: string)
    requires Keyed(db) && Indexed(db) && tid in db.tokens
    requires db.tokens[tid].codeHash == HashCode(digest, VoucherCode(a, b, c))
    requires All(IsSpace, lead) && All(IsSpace, trail) && Keep(NotBlank, Upper(typed)) == VoucherCode(a, b, c)
    ensures Lookup(db, HashCode(digest, lead + typed + trail)) == Some(db.tokens[tid])
  {
    AllPlain(a, b, c);
    CodeCanonical(a, b, c);
    CodeInsensitive(lead, typed, trail, VoucherCode(a, b, c));
    LookupStored(db, tid);
  }
}
