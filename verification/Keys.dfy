/** Canonical device addresses and voucher codes (util/mac.go, util/token.go). */
module Keys {
  import opened Domain

  /** Go's unicode.IsSpace. */
  predicate IsSpace(c: char) {
    var n := c as int;
    9 <= n <= 13 || n == 0x20 || n == 0x85 || n == 0xA0 || n == 0x1680 || 0x2000 <= n <= 0x200A
    || n == 0x2028 || n == 0x2029 || n == 0x202F || n == 0x205F || n == 0x3000
  }

  predicate IsHexDigit(c: char) {
    '0' <= c <= '9' || 'a' <= c <= 'f' || 'A' <= c <= 'F'
  }

  /** Upper case for ASCII; every other character is left alone. */
  function UpperChar(c: char): char {
    if 'a' <= c <= 'z' then (c as int - 32) as char else c
  }

  function Upper(s: string): (u: string)
    ensures |u| == |s|
    ensures forall i {:trigger u[i]} | 0 <= i < |s| :: u[i] == UpperChar(s[i])
  {
    if s == [] then [] else [UpperChar(s[0])] + Upper(s[1..])
  }

  ghost predicate All(p: char -> bool, s: string) {
    forall i | 0 <= i < |s| :: p(s[i])
  }

  /** The characters of `s` that satisfy `p`, in order. */
  function Keep(p: char -> bool, s: string): (r: string)
    ensures |r| <= |s|
  {
    if s == [] then [] else (if p(s[0]) then [s[0]] else []) + Keep(p, s[1..])
  }

  lemma {:induction false} KeepConcat(p: char -> bool, a: string, b: string)
    ensures Keep(p, a + b) == Keep(p, a) + Keep(p, b)
  {
    if a == [] {
      assert a + b == b;
    } else {
      var whole := a + b;
      assert whole[1..] == a[1..] + b;
      KeepConcat(p, a[1..], b);
      var first := if p(a[0]) then [a[0]] else [];
      assert Keep(p, whole) == first + (Keep(p, a[1..]) + Keep(p, b));
    }
  }

  lemma {:induction false} KeepAll(p: char -> bool, s: string)
    requires All(p, s)
    ensures Keep(p, s) == s
  {
    if s == [] {
    } else {
      KeepAll(p, s[1..]);
    }
  }

  lemma {:induction false} KeepNone(p: char -> bool, s: string)
    requires forall i | 0 <= i < |s| :: !p(s[i])
    ensures Keep(p, s) == ""
  {
    if s == [] {
    } else {
      KeepNone(p, s[1..]);
    }
  }

  /** What is kept satisfies `p`, and anything true of every character of `s` stays true. */
  lemma {:induction false} KeepKept(p: char -> bool, q: char -> bool, s: string)
    ensures All(p, Keep(p, s))
    ensures All(q, s) ==> All(q, Keep(p, s))
  {
    if s == [] {
    } else {
      KeepKept(p, q, s[1..]);
    }
  }

  function HexOnly(s: string): string { Keep(IsHexDigit, s) }

  function TrimLeft(s: string): (r: string)
    ensures |r| <= |s|
  {
    if s != [] && IsSpace(s[0]) then TrimLeft(s[1..]) else s
  }

  function TrimRight(s: string): (r: string)
    ensures |r| <= |s|
  {
    if s != [] && IsSpace(s[|s| - 1]) then TrimRight(s[..|s| - 1]) else s
  }

  function TrimSpace(s: string): string { TrimRight(TrimLeft(s)) }

  ghost predicate Trimmed(s: string) {
    s != "" ==> !IsSpace(s[0]) && !IsSpace(s[|s| - 1])
  }

  lemma {:induction false} TrimLeftPart(s: string) returns (lead: string)
    ensures s == lead + TrimLeft(s) && All(IsSpace, lead)
    ensures TrimLeft(s) != "" ==> !IsSpace(TrimLeft(s)[0])
  {
    lead := "";
    if s != [] && IsSpace(s[0]) {
      var rest := TrimLeftPart(s[1..]);
      lead := [s[0]] + rest;
    }
  }

  lemma {:induction false} TrimRightPart(s: string) returns (trail: string)
    ensures s == TrimRight(s) + trail && All(IsSpace, trail)
    ensures TrimRight(s) != "" ==> TrimRight(s)[0] == s[0] && !IsSpace(TrimRight(s)[|TrimRight(s)| - 1])
  {
    trail := "";
    if s != [] && IsSpace(s[|s| - 1]) {
      var rest := TrimRightPart(s[..|s| - 1]);
      trail := rest + [s[|s| - 1]];
    }
  }

  /** Trimming cuts white space off both ends and nothing else. */
  lemma TrimSpaceParts(s: string) returns (lead: string, trail: string)
    ensures s == lead + TrimSpace(s) + trail
    ensures All(IsSpace, lead) && All(IsSpace, trail)
    ensures Trimmed(TrimSpace(s))
  {
    lead := TrimLeftPart(s);
    trail := TrimRightPart(TrimLeft(s));
    assert lead + (TrimSpace(s) + trail) == lead + TrimSpace(s) + trail;
  }

  lemma TrimIdentity(s: string)
    requires Trimmed(s)
    ensures TrimSpace(s) == s
  {
  }

  /** Pairs of characters separated by colons. */
  function Grouped(h: string): (r: string)
    requires |h| % 2 == 0
    decreases |h|
  {
    if |h| <= 2 then h else h[..2] + ":" + Grouped(h[2..])
  }

  /** The canonical address, or nothing when the text does not hold twelve hexadecimal digits. */
  function CanonicalMac(s: string): Option<string> {
    var clean := TrimSpace(s);
    if clean == "" then None
    else
      var digits := HexOnly(clean);
      if |digits| != 12 then None else Some(Grouped(Upper(digits)))
  }

  lemma {:induction false} GroupedSnoc(h: string, pair: string)
    requires |h| % 2 == 0 && h != "" && |pair| == 2
    ensures Grouped(h + pair) == Grouped(h) + ":" + pair
    decreases |h|
  {
    if |h| == 2 {
      assert (h + pair)[..2] == h && (h + pair)[2..] == pair;
    } else {
      assert (h + pair)[..2] == h[..2] && (h + pair)[2..] == h[2..] + pair;
      GroupedSnoc(h[2..], pair);
      assert Grouped(h + pair) == h[..2] + ":" + (Grouped(h[2..]) + ":" + pair);
    }
  }

  method NormalizeMAC(input: string) returns (mac: Option<string>)
    ensures mac == CanonicalMac(input)
  {
    var clean := TrimSpace(input);
    if clean == "" {
      return None;
    }
    var hexOnly := HexOnly(clean);
    if |hexOnly| != 12 {
      return None;
    }
    hexOnly := Upper(hexOnly);
    var b := "";
    var i := 0;
    while i < |hexOnly|
      invariant 0 <= i <= |hexOnly| && i % 2 == 0
      invariant b == Grouped(hexOnly[..i])
    {
      if i > 0 {
        GroupedSnoc(hexOnly[..i], hexOnly[i..i + 2]);
        b := b + ":";
      }
      b := b + hexOnly[i..i + 2];
      assert hexOnly[..i + 2] == hexOnly[..i] + hexOnly[i..i + 2];
      i := i + 2;
    }
    assert hexOnly[..i] == hexOnly;
    mac := Some(b);
  }

  lemma {:induction false} GroupedDigits(h: string)
    requires |h| % 2 == 0 && All(IsHexDigit, h)
    ensures HexOnly(Grouped(h)) == h
    decreases |h|
  {
    if |h| <= 2 {
      KeepAll(IsHexDigit, h);
    } else {
      var head, tail := h[..2], h[2..];
      KeepConcat(IsHexDigit, head + ":", Grouped(tail));
      KeepConcat(IsHexDigit, head, ":");
      KeepAll(IsHexDigit, head);
      assert ":"[1..] == "" && !IsHexDigit(':');
      GroupedDigits(tail);
      assert h == head + tail;
    }
  }

  lemma {:induction false} GroupedEnds(h: string)
    requires |h| % 2 == 0 && h != ""
    ensures |Grouped(h)| == |h| + |h| / 2 - 1
    decreases |h|
  {
    if |h| > 2 {
      GroupedEnds(h[2..]);
    }
  }

  lemma NoDigitsInSpace(s: string)
    requires All(IsSpace, s)
    ensures HexOnly(s) == ""
  {
    KeepNone(IsHexDigit, s);
  }

  /** An address is accepted exactly when it holds twelve hexadecimal digits, wherever they stand. */
  lemma MacAccepted(s: string)
    ensures CanonicalMac(s) == if |HexOnly(s)| == 12 then Some(Grouped(Upper(HexOnly(s)))) else None
  {
    var lead, trail := TrimSpaceParts(s);
    KeepConcat(IsHexDigit, lead + TrimSpace(s), trail);
    KeepConcat(IsHexDigit, lead, TrimSpace(s));
    NoDigitsInSpace(lead);
    NoDigitsInSpace(trail);
    assert HexOnly(s) == HexOnly(TrimSpace(s));
  }

  /** Upper-cased digits are still digits, and stay as they are when upper-cased again. */
  lemma UpperDigits(s: string)
    ensures All(IsHexDigit, Upper(HexOnly(s)))
    ensures Upper(Upper(HexOnly(s))) == Upper(HexOnly(s))
  {
    KeepKept(IsHexDigit, IsHexDigit, s);
    var u := Upper(HexOnly(s));
    assert forall i | 0 <= i < |u| :: IsHexDigit(u[i]);
    assert forall i | 0 <= i < |u| :: Upper(u)[i] == u[i];
  }

  /** The canonical form is a fixed point: seventeen characters, unchanged when normalised again. */
  lemma MacIdempotent(s: string)
    requires CanonicalMac(s).Some?
    ensures CanonicalMac(CanonicalMac(s).value) == CanonicalMac(s)
    ensures |CanonicalMac(s).value| == 17
  {
    MacAccepted(s);
    UpperDigits(s);
    GroupedDigits(Upper(HexOnly(s)));
    GroupedEnds(Upper(HexOnly(s)));
    MacAccepted(CanonicalMac(s).value);
  }

  /** Two accepted addresses share a canonical form exactly when their digits agree up to case. */
  lemma MacCanonical(a: string, b: string)
    requires CanonicalMac(a).Some? && CanonicalMac(b).Some?
    ensures CanonicalMac(a) == CanonicalMac(b) <==> Upper(HexOnly(a)) == Upper(HexOnly(b))
  {
    MacAccepted(a);
    MacAccepted(b);
    UpperDigits(a);
    UpperDigits(b);
    GroupedDigits(Upper(HexOnly(a)));
    GroupedDigits(Upper(HexOnly(b)));
  }

  predicate NotBlank(c: char) { c != ' ' }

  predicate Solid(c: char) { !IsSpace(c) }

  predicate IsUpper(c: char) { UpperChar(c) == c }

  function NormalizeCode(code: string): string {
    Keep(NotBlank, TrimSpace(Upper(code)))
  }

  /** The key under which a voucher is stored; `digest` stands for hex-encoded SHA-256. */
  function HashCode(digest: string -> string, code: string): string {
    digest(NormalizeCode(code))
  }

  lemma KeepTrimmed(s: string)
    requires Trimmed(s)
    ensures Trimmed(Keep(NotBlank, s))
  {
    if s != "" {
      var front, last := s[..|s| - 1], s[|s| - 1..];
      assert s == front + last;
      KeepConcat(NotBlank, front, last);
      KeepAll(NotBlank, last);
    }
  }

  /** Normalising a code twice is the same as normalising it once. */
  lemma CodeIdempotent(code: string)
    ensures NormalizeCode(NormalizeCode(code)) == NormalizeCode(code)
  {
    var up := Upper(code);
    var trimmed, n := TrimSpace(up), NormalizeCode(code);
    var lead, trail := TrimSpaceParts(up);
    KeepTrimmed(trimmed);
    assert All(IsUpper, trimmed) by {
      forall i | 0 <= i < |trimmed|
        ensures IsUpper(trimmed[i])
      {
        assert trimmed[i] == up[|lead| + i];
      }
    }
    KeepKept(NotBlank, IsUpper, trimmed);
    assert Upper(n) == n;
    TrimIdentity(n);
    KeepAll(NotBlank, n);
  }

  lemma {:induction false} KeepSolid(s: string)
    requires All(Solid, Keep(NotBlank, s))
    ensures Keep(NotBlank, s) == Keep(Solid, s)
  {
    if s == [] {
    } else {
      var kept, rest := Keep(NotBlank, s), Keep(NotBlank, s[1..]);
      if s[0] != ' ' {
        assert kept == [s[0]] + rest;
        assert Solid(kept[0]);
      } else {
        assert kept == rest;
      }
      assert All(Solid, rest) by {
        assert forall i | 0 <= i < |rest| :: rest[i] == kept[|kept| - |rest| + i];
      }
      KeepSolid(s[1..]);
    }
  }

  /** Every character of the trimmed text stands between two solid ones, hence inside `mid`. */
  lemma CoreInside(lead: string, mid: string, trail: string, cutL: string, core: string, cutR: string)
    requires All(IsSpace, lead) && All(IsSpace, trail)
    requires lead + mid + trail == cutL + core + cutR
    requires Trimmed(core)
    ensures core != "" ==> |lead| <= |cutL| && |cutR| >= |trail|
    ensures core != "" ==> mid == mid[..|cutL| - |lead|] + core + mid[|cutL| - |lead| + |core|..]
  {
    if core != "" {
      var whole := lead + mid + trail;
      assert whole[|cutL|] == core[0] && whole[|cutL| + |core| - 1] == core[|core| - 1];
      if |cutL| < |lead| {
        assert false;
      }
      if |trail| > |cutR| {
        assert false;
      }
      var k := |cutL| - |lead|;
      assert mid == whole[|lead|..|lead| + |mid|];
      assert core == whole[|cutL|..|cutL| + |core|];
      assert mid[k..k + |core|] == core;
      assert mid == mid[..k] + mid[k..k + |core|] + mid[k + |core|..];
    }
  }

  /** Letter case, blanks between the characters and white space around them do not matter. */
  lemma CodeInsensitive(lead: string, typed: string, trail: string, code: string)
    requires All(IsSpace, lead) && All(IsSpace, trail)
    requires Keep(NotBlank, Upper(typed)) == code && All(Solid, code)
    ensures NormalizeCode(lead + typed + trail) == code
  {
    var all, mid := Upper(lead + typed + trail), Upper(typed);
    UpperPadded(lead, typed, trail);
    var cutL, cutR := TrimSpaceParts(all);
    var core := TrimSpace(all);
    CoreInside(lead, mid, trail, cutL, core, cutR);
    SolidParts(lead, mid, trail);
    SolidParts(cutL, core, cutR);
    KeepSolid(mid);
    if core != "" {
      var k := |cutL| - |lead|;
      KeepInside(mid[..k], core, mid[k + |core|..]);
      KeepSolid(core);
    }
  }

  lemma UpperPadded(lead: string, typed: string, trail: string)
    requires All(IsSpace, lead) && All(IsSpace, trail)
    ensures Upper(lead + typed + trail) == lead + Upper(typed) + trail
  {
    var all := Upper(lead + typed + trail);
    assert forall i | 0 <= i < |all| :: all[i] == (lead + Upper(typed) + trail)[i];
  }

  lemma KeepInside(a: string, core: string, b: string)
    requires All(Solid, Keep(NotBlank, a + core + b))
    ensures All(Solid, Keep(NotBlank, core))
  {
    KeepConcat(NotBlank, a + core, b);
    KeepConcat(NotBlank, a, core);
    var kept, code := Keep(NotBlank, core), Keep(NotBlank, a + core + b);
    assert forall i | 0 <= i < |kept| :: kept[i] == code[|Keep(NotBlank, a)| + i];
  }

  lemma SolidParts(a: string, b: string, c: string)
    requires All(IsSpace, a) && All(IsSpace, c)
    ensures Keep(Solid, a + b + c) == Keep(Solid, b)
  {
    KeepConcat(Solid, a + b, c);
    KeepConcat(Solid, a, b);
    KeepNone(Solid, a);
    KeepNone(Solid, c);
  }
}
