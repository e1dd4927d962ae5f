/** Base64 with the URL-safe alphabet and without padding, as in section 5 of RFC 4648. */
module Base64Url {
  import opened Common

  type byte = n: int | 0 <= n < 256
  type sextet = n: int | 0 <= n < 64

  const PAD: char := '='

  function Symbol(n: sextet): (c: char)
    ensures c != PAD && Value(c) == Some(n)
  {
    if n < 26 then (65 + n) as char
    else if n < 52 then (71 + n) as char
    else if n < 62 then (n - 4) as char
    else if n == 62 then '-'
    else '_'
  }

  function Value(c: char): Option<sextet> {
    var n := c as int;
    if 65 <= n <= 90 then Some(n - 65)
    else if 97 <= n <= 122 then Some(n - 71)
    else if 48 <= n <= 57 then Some(n + 4)
    else if c == '-' then Some(62)
    else if c == '_' then Some(63)
    else None
  }

  /** `urlsafe_b64encode`, padded to a multiple of four characters. */
  function Encode(b: seq<byte>): string {
    if |b| == 0 then ""
    else if |b| == 1 then [Symbol(b[0] / 4), Symbol(b[0] % 4 * 16), PAD, PAD]
    else if |b| == 2 then [Symbol(b[0] / 4), Symbol(b[0] % 4 * 16 + b[1] / 16), Symbol(b[1] % 16 * 4), PAD]
    else
      [Symbol(b[0] / 4), Symbol(b[0] % 4 * 16 + b[1] / 16), Symbol(b[1] % 16 * 4 + b[2] / 64), Symbol(b[2] % 64)] +
      Encode(b[3..])
  }

  /** Decoding of padded text. Text outside the alphabet is refused. */
  function Decode(s: string): Option<seq<byte>> {
    if s == "" then Some([])
    else if |s| < 4 || Value(s[0]).None? || Value(s[1]).None? then None
    else
      var v0, v1 := Value(s[0]).value, Value(s[1]).value;
      var b0: byte := v0 * 4 + v1 / 16;
      if s[2] == PAD && s[3] == PAD && |s| == 4 then Some([b0])
      else if Value(s[2]).None? then None
      else
        var v2 := Value(s[2]).value;
        var b1: byte := v1 % 16 * 16 + v2 / 4;
        if s[3] == PAD && |s| == 4 then Some([b0, b1])
        else if Value(s[3]).None? then None
        else
          var rest := Decode(s[4..]);
          if rest.None? then None else Some([b0, b1, v2 % 4 * 64 + Value(s[3]).value] + rest.value)
  }

  /** The bits of a group of bytes can be read back from its sextets. */
  lemma GroupBits(x: byte, y: byte, z: byte)
    ensures 0 <= x / 4 < 64 && 0 <= x % 4 * 16 + y / 16 < 64 && 0 <= y % 16 * 4 + z / 64 < 64
    ensures x / 4 * 4 + (x % 4 * 16 + y / 16) / 16 == x
    ensures (x % 4 * 16 + y / 16) % 16 * 16 + (y % 16 * 4 + z / 64) / 4 == y
    ensures (y % 16 * 4 + z / 64) % 4 * 64 + z % 64 == z
  {
    assert (x % 4 * 16 + y / 16) / 16 == x % 4 && (x % 4 * 16 + y / 16) % 16 == y / 16;
    assert (y % 16 * 4 + z / 64) / 4 == y % 16 && (y % 16 * 4 + z / 64) % 4 == z / 64;
  }

  lemma {:induction false} PaddedRoundTrip(b: seq<byte>)
    ensures Decode(Encode(b)) == Some(b)
  {
    if |b| >= 3 {
      PaddedRoundTrip(b[3..]);
      FullGroup(b[0], b[1], b[2], Encode(b[3..]), b[3..]);
      assert b == [b[0], b[1], b[2]] + b[3..];
    } else if |b| == 2 {
      LastTwo(b[0], b[1]);
      assert b == [b[0], b[1]];
    } else if |b| == 1 {
      LastOne(b[0]);
      assert b == [b[0]];
    }
  }

  /** Four sextets decode to three bytes. */
  lemma DecodeFull(
    a: sextet, b: sextet, c: sextet, d: sextet, x: byte, y: byte, z: byte, text: string, rest: seq<byte>)
    requires Decode(text) == Some(rest)
    requires a * 4 + b / 16 == x && b % 16 * 16 + c / 4 == y && c % 4 * 64 + d == z
    ensures Decode([Symbol(a), Symbol(b), Symbol(c), Symbol(d)] + text) == Some([x, y, z] + rest)
  {
    var s := [Symbol(a), Symbol(b), Symbol(c), Symbol(d)] + text;
    assert s[4..] == text;
    assert Value(s[0]) == Some(a) && Value(s[1]) == Some(b) && Value(s[2]) == Some(c) && Value(s[3]) == Some(d);
  }

  lemma FullGroup(x: byte, y: byte, z: byte, text: string, rest: seq<byte>)
    requires Decode(text) == Some(rest)
    ensures 0 <= x % 4 * 16 + y / 16 < 64 && 0 <= y % 16 * 4 + z / 64 < 64
    ensures Decode([Symbol(x / 4), Symbol(x % 4 * 16 + y / 16), Symbol(y % 16 * 4 + z / 64), Symbol(z % 64)] + text) ==
            Some([x, y, z] + rest)
  {
    GroupBits(x, y, z);
    DecodeFull(x / 4, x % 4 * 16 + y / 16, y % 16 * 4 + z / 64, z % 64, x, y, z, text, rest);
  }

  // ---------- Without padding ----------

  /** `rstrip("=")`. */
  function Strip(s: string): string {
    if s != "" && s[|s| - 1] == PAD then Strip(s[..|s| - 1]) else s
  }

  function Pads(n: nat): (r: string)
    ensures |r| == n && forall i :: 0 <= i < n ==> r[i] == PAD
  {
    seq(n, _ => PAD)
  }

  /** The padding that decoding restores: `"=" * (-len(s) % 4)`. */
  function Restore(s: string): string {
    s + Pads((4 - |s| % 4) % 4)
  }

  function PadCount(n: nat): nat {
    (3 - n % 3) % 3
  }

  lemma PadsRepeat(n: nat)
    requires n >= 3
    ensures PadCount(n) == PadCount(n - 3)
  {
  }

  lemma {:induction false} EncodeShape(b: seq<byte>)
    ensures |Encode(b)| % 4 == 0 && |Encode(b)| >= PadCount(|b|)
    ensures forall i :: 0 <= i < |Encode(b)| - PadCount(|b|) ==> Encode(b)[i] != PAD
    ensures forall i :: |Encode(b)| - PadCount(|b|) <= i < |Encode(b)| ==> Encode(b)[i] == PAD
  {
    if |b| >= 3 {
      EncodeShape(b[3..]);
      PadsRepeat(|b|);
      assert forall i :: 4 <= i < |Encode(b)| ==> Encode(b)[i] == Encode(b[3..])[i - 4];
    }
  }

  lemma {:induction false} StripDropsPads(s: string, p: nat)
    requires p <= |s|
    requires forall i :: |s| - p <= i < |s| ==> s[i] == PAD
    requires |s| == p || s[|s| - p - 1] != PAD
    ensures Strip(s) == s[..|s| - p]
    decreases p
  {
    if p == 0 {
      assert s[..|s|] == s;
    } else {
      var t := s[..|s| - 1];
      StripDropsPads(t, p - 1);
      assert t[..|t| - (p - 1)] == s[..|s| - p];
    }
  }

  lemma LastOne(x: byte)
    ensures 0 <= x % 4 * 16 < 64
    ensures Decode([Symbol(x / 4), Symbol(x % 4 * 16), PAD, PAD]) == Some([x])
  {
    GroupBits(x, 0, 0);
  }

  lemma LastTwo(x: byte, y: byte)
    ensures 0 <= x % 4 * 16 + y / 16 < 64 && 0 <= y % 16 * 4 < 64
    ensures Decode([Symbol(x / 4), Symbol(x % 4 * 16 + y / 16), Symbol(y % 16 * 4), PAD]) == Some([x, y])
  {
    GroupBits(x, y, 0);
  }

  /** Restoring the padding of a stripped text. */
  lemma RestoreAfterStrip(s: string, p: nat)
    requires |s| % 4 == 0 && p <= |s| && p <= 2
    requires forall i :: |s| - p <= i < |s| ==> s[i] == PAD
    requires forall i :: 0 <= i < |s| - p ==> s[i] != PAD
    ensures Restore(Strip(s)) == s && PAD !in Strip(s)
  {
    StripDropsPads(s, p);
    PadLength(|s|, p);
    assert s == s[..|s| - p] + Pads(p);
  }

  lemma PadLength(n: nat, p: nat)
    requires n % 4 == 0 && p <= n && p <= 2
    ensures (4 - (n - p) % 4) % 4 == p
  {
    var q := n / 4;
    assert n == 4 * q;
  }

  /** Stripping the padding loses nothing, for every sequence of bytes. */
  lemma RoundTrip(b: seq<byte>)
    ensures Decode(Restore(Strip(Encode(b)))) == Some(b)
    ensures PAD !in Strip(Encode(b))
  {
    EncodeShape(b);
    RestoreAfterStrip(Encode(b), PadCount(|b|));
    PaddedRoundTrip(b);
  }

  /** Test vectors of section 10 of RFC 4648. */
  lemma KnownVectors()
    ensures Encode([102]) == "Zg==" && Encode([102, 111]) == "Zm8=" && Encode([102, 111, 111]) == "Zm9v"
  {
  }

  /** The two symbols in which the URL-safe alphabet differs. */
  lemma UrlSafeSymbols()
    ensures Encode([251, 239, 190]) == "----" && Encode([255, 255, 255]) == "____"
  {
  }
}
