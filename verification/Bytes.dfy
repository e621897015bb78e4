/** Byte strings, the bytes the scanner tells apart, and the relation "s occurs in b at offset i". */
module Bytes {

  datatype Option<+T> = None | Some(value: T)

  type byte = c: int | 0 <= c < 256
  type bytes = seq<byte>

  const QUOTE: byte := 0x22
  const BACKSLASH: byte := 0x5C
  const COMMA: byte := 0x2C
  const COLON: byte := 0x3A
  const LBRACE: byte := 0x7B
  const RBRACE: byte := 0x7D
  const LBRACKET: byte := 0x5B
  const RBRACKET: byte := 0x5D
  const LOWER_E: byte := 0x65
  const UPPER_E: byte := 0x45
  const LOWER_F: byte := 0x66
  const LOWER_N: byte := 0x6E
  const LOWER_T: byte := 0x74
  const LOWER_U: byte := 0x75
  const DOT: byte := 0x2E
  const MINUS: byte := 0x2D
  const PLUS: byte := 0x2B
  const ZERO: byte := 0x30
  const ONE: byte := 0x31
  const NINE: byte := 0x39

  predicate IsSpace(c: byte) { c == 0x20 || c == 0x09 || c == 0x0D || c == 0x0A }

  predicate IsDigit(c: byte) { ZERO <= c <= NINE }

  predicate IsHex(c: byte) { IsDigit(c) || 0x61 <= c <= 0x66 || 0x41 <= c <= 0x46 }

  predicate AllSpace(s: bytes) { forall k :: 0 <= k < |s| ==> IsSpace(s[k]) }

  predicate AllDigits(s: bytes) { forall k :: 0 <= k < |s| ==> IsDigit(s[k]) }

  predicate AllHex(s: bytes) { forall k :: 0 <= k < |s| ==> IsHex(s[k]) }

  /** `s` occurs in `b` at offset `i`. */
  predicate At(b: bytes, i: int, s: bytes) { 0 <= i && i + |s| <= |b| && b[i..i + |s|] == s }

  lemma AtConcat(b: bytes, i: int, s: bytes, t: bytes)
    ensures At(b, i, s + t) <==> At(b, i, s) && At(b, i + |s|, t)
  {
    if 0 <= i && i + |s| + |t| <= |b| {
      assert b[i..i + |s + t|] == b[i..i + |s|] + b[i + |s|..i + |s| + |t|];
      assert (s + t)[..|s|] == s && (s + t)[|s|..] == t;
    }
  }

  lemma AtHead(b: bytes, i: int, s: bytes)
    requires At(b, i, s)
    ensures 0 <= i && i + |s| <= |b| && (s != [] ==> b[i] == s[0])
  {
    if s != [] {
      assert b[i..i + |s|][0] == b[i];
    }
  }

  lemma AtNil(b: bytes, i: nat)
    requires i <= |b|
    ensures At(b, i, [])
  {
  }

  lemma AtOne(b: bytes, i: nat)
    requires i < |b|
    ensures At(b, i, [b[i]])
  {
    assert b[i..i + 1] == [b[i]];
  }

  lemma AtDrop(b: bytes, i: int, s: bytes, n: nat)
    requires At(b, i, s) && n <= |s|
    ensures At(b, i + n, s[n..]) && At(b, i, s[..n])
  {
    assert s == s[..n] + s[n..];
    AtConcat(b, i, s[..n], s[n..]);
  }

  lemma Slices(b: bytes, i: nat, j: nat, k: nat)
    requires i <= j <= k <= |b|
    ensures b[i..k] == b[i..j] + b[j..k]
  {
  }

  lemma AtSlice(b: bytes, i: nat, j: nat)
    requires i <= j <= |b|
    ensures At(b, i, b[i..j])
  {
  }

  lemma Associative<T>(s: seq<T>, t: seq<T>, u: seq<T>)
    ensures (s + t) + u == s + (t + u)
  {
  }

  lemma AppendNothing<T>(s: seq<T>)
    ensures s + [] == s
  {
  }
}
