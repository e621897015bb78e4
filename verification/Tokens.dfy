/** Lexical level of the routing scanner: whitespace, strings, numbers, literals and bracketed values.
    Each scan loop is proved equal to a recursive function, and each function is proved sound and
    complete against a grammar given as syntax trees. */
module Tokens {
  import opened Bytes

  // ---------------------------------------------------------------- whitespace

  function SpaceEnd(b: bytes, i: nat): (r: nat)
    requires i <= |b|
    ensures i <= r <= |b| && AllSpace(b[i..r])
    ensures r == |b| || !IsSpace(b[r])
    decreases |b| - i
  {
    if i < |b| && IsSpace(b[i]) then
      var r := SpaceEnd(b, i + 1);
      assert b[i..r] == [b[i]] + b[i + 1..r];
      r
    else i
  }

  /** Any stretch of blanks that a non-blank ends is exactly what the scan skips. */
  lemma {:induction false} SpaceEndComplete(b: bytes, i: nat, w: bytes)
    requires AllSpace(w) && At(b, i, w)
    requires i + |w| == |b| || !IsSpace(b[i + |w|])
    ensures SpaceEnd(b, i) == i + |w|
    decreases |w|
  {
    if w != [] {
      assert b[i] == w[0];
      assert b[i + 1..i + |w|] == w[1..];
      SpaceEndComplete(b, i + 1, w[1..]);
    }
  }

  method ScanSpace(b: bytes, start: nat) returns (i: nat)
    requires start <= |b|
    ensures i == SpaceEnd(b, start)
  {
    i := start;
    while i < |b|
      invariant start <= i <= |b|
      invariant SpaceEnd(b, i) == SpaceEnd(b, start)
    {
      if !IsSpace(b[i]) {
        return;
      }
      i := i + 1;
    }
  }

  // ---------------------------------------------------------------- strings

  /** What may stand between two quotes for the scanner: plain bytes from 0x20 up, a backslash with
      any single byte but `u`, or a backslash, `u` and four hex digits. */
  predicate StringBody(s: bytes) {
    s == [] ||
    if s[0] == BACKSLASH then
      |s| >= 2 &&
      if s[1] == LOWER_U then |s| >= 6 && AllHex(s[2..6]) && StringBody(s[6..])
      else StringBody(s[2..])
    else s[0] != QUOTE && s[0] >= 0x20 && StringBody(s[1..])
  }

  function StringEnd(b: bytes, i: nat): (r: Option<nat>)
    requires i <= |b|
    ensures r.Some? ==> i <= r.value < |b| && b[r.value] == QUOTE
    decreases |b| - i
  {
    if i == |b| then None
    else if b[i] == QUOTE then Some(i)
    else if b[i] == BACKSLASH then
      if i + 1 >= |b| then None
      else if b[i + 1] == LOWER_U then
        if i + 6 <= |b| && AllHex(b[i + 2..i + 6]) then StringEnd(b, i + 6) else None
      else StringEnd(b, i + 2)
    else if b[i] < 0x20 then None
    else StringEnd(b, i + 1)
  }

  lemma {:induction false} StringEndSound(b: bytes, i: nat)
    requires i <= |b| && StringEnd(b, i).Some?
    ensures StringBody(b[i..StringEnd(b, i).value])
    decreases |b| - i
  {
    var e := StringEnd(b, i).value;
    if b[i] != QUOTE {
      var n := if b[i] != BACKSLASH then 1 else if b[i + 1] == LOWER_U then 6 else 2;
      StringEndSound(b, i + n);
      assert b[i..e][n..] == b[i + n..e];
      assert n == 6 ==> b[i..e][2..6] == b[i + 2..i + 6];
    }
  }

  lemma {:induction false} StringEndComplete(b: bytes, i: nat, s: bytes)
    requires StringBody(s) && At(b, i, s + [QUOTE])
    ensures StringEnd(b, i) == Some(i + |s|)
    decreases |s|
  {
    AtConcat(b, i, s, [QUOTE]);
    assert b[i + |s|..i + |s| + 1][0] == QUOTE;
    if s != [] {
      assert b[i] == s[0] && (|s| > 1 ==> b[i + 1] == s[1]);
      var n := if s[0] != BACKSLASH then 1 else if s[1] == LOWER_U then 6 else 2;
      assert s + [QUOTE] == s[..n] + (s[n..] + [QUOTE]);
      if n == 6 {
        AtDrop(b, i, s[..6], 2);
        assert s[..6][2..] == s[2..6];
      }
      AtConcat(b, i, s[..n], s[n..] + [QUOTE]);
      StringEndComplete(b, i + n, s[n..]);
    }
  }

  method ScanStringBody(b: bytes, start: nat) returns (r: Option<nat>)
    requires start <= |b|
    ensures r == StringEnd(b, start)
  {
    var i := start;
    while i < |b|
      invariant start <= i <= |b|
      invariant StringEnd(b, i) == StringEnd(b, start)
    {
      var c := b[i];
      if c == QUOTE {
        return Some(i);
      }
      if c == BACKSLASH {
        if i + 1 >= |b| {
          return None;
        }
        if b[i + 1] == LOWER_U {
          if i + 6 > |b| {
            return None;
          }
          var k := i + 2;
          while k < i + 6
            invariant i + 2 <= k <= i + 6
            invariant AllHex(b[i + 2..k])
          {
            if !IsHex(b[k]) {
              assert !IsHex(b[i + 2..i + 6][k - i - 2]);
              return None;
            }
            assert b[i + 2..k + 1] == b[i + 2..k] + [b[k]];
            k := k + 1;
          }
          i := i + 6;
        } else {
          i := i + 2;
        }
      } else if c < 0x20 {
        return None;
      } else {
        i := i + 1;
      }
    }
    return None;
  }

  // ---------------------------------------------------------------- numbers

  /** RFC 8259 section 6: an optional minus, an integer part, an optional fraction, an optional exponent. */
  datatype Number = Number(sign: bytes, whole: bytes, frac: bytes, exp: bytes) {
    ghost predicate Valid() {
      && (sign == [] || sign == [MINUS])
      && (whole == [ZERO] || (whole != [] && AllDigits(whole) && whole[0] != ZERO))
      && (frac == [] || (|frac| > 1 && frac[0] == DOT && AllDigits(frac[1..])))
      && (exp == [] || ExpValid())
    }

    ghost predicate ExpValid() {
      && |exp| > 1 && (exp[0] == LOWER_E || exp[0] == UPPER_E)
      && var n := if exp[1] == PLUS || exp[1] == MINUS then 2 else 1;
      |exp| > n && AllDigits(exp[n..])
    }

    function Text(): bytes { sign + whole + frac + exp }
  }

  function DigitsEnd(b: bytes, i: nat): (r: nat)
    requires i <= |b|
    ensures i <= r <= |b| && AllDigits(b[i..r])
    ensures r == |b| || !IsDigit(b[r])
    ensures i < |b| && IsDigit(b[i]) ==> i < r
    decreases |b| - i
  {
    if i < |b| && IsDigit(b[i]) then
      var r := DigitsEnd(b, i + 1);
      assert b[i..r] == [b[i]] + b[i + 1..r];
      r
    else i
  }

  lemma {:induction false} DigitsEndComplete(b: bytes, i: nat, s: bytes)
    requires AllDigits(s) && At(b, i, s)
    requires i + |s| == |b| || !IsDigit(b[i + |s|])
    ensures DigitsEnd(b, i) == i + |s|
    decreases |s|
  {
    if s != [] {
      assert b[i] == s[0];
      assert b[i + 1..i + |s|] == s[1..];
      DigitsEndComplete(b, i + 1, s[1..]);
    }
  }

  predicate DigitAt(b: bytes, i: nat) { i < |b| && IsDigit(b[i]) }

  function WholeEnd(b: bytes, i: nat): (r: Option<nat>)
    requires i <= |b|
    ensures r.Some? ==> i < r.value <= |b|
  {
    if i >= |b| then None
    else if b[i] == ZERO then Some(i + 1)
    else if ONE <= b[i] <= NINE then Some(DigitsEnd(b, i))
    else None
  }

  function FracEnd(b: bytes, i: nat): (r: Option<nat>)
    requires i <= |b|
    ensures r.Some? ==> i <= r.value <= |b|
  {
    if i < |b| && b[i] == DOT then
      if DigitAt(b, i + 1) then Some(DigitsEnd(b, i + 1)) else None
    else Some(i)
  }

  function ExpEnd(b: bytes, i: nat): (r: Option<nat>)
    requires i <= |b|
    ensures r.Some? ==> i <= r.value <= |b|
  {
    if i < |b| && (b[i] == LOWER_E || b[i] == UPPER_E) then
      var d := if i + 1 < |b| && (b[i + 1] == PLUS || b[i + 1] == MINUS) then i + 2 else i + 1;
      if DigitAt(b, d) then Some(DigitsEnd(b, d)) else None
    else Some(i)
  }

  function SignEnd(b: bytes, i: nat): (r: nat)
    requires i <= |b|
    ensures i <= r <= |b| && (r == i || At(b, i, [MINUS]))
  {
    if i < |b| && b[i] == MINUS then i + 1 else i
  }

  function NumberEnd(b: bytes, i: nat): (r: Option<nat>)
    requires i <= |b|
    ensures r.Some? ==> i < r.value <= |b|
  {
    match WholeEnd(b, SignEnd(b, i))
    case None => None
    case Some(w) =>
      match FracEnd(b, w)
      case None => None
      case Some(f) => ExpEnd(b, f)
  }

  lemma NumberEndSound(b: bytes, i: nat) returns (n: Number)
    requires i <= |b| && NumberEnd(b, i).Some?
    ensures n.Valid() && n.Text() == b[i..NumberEnd(b, i).value]
  {
    var s := SignEnd(b, i);
    var w := WholeEnd(b, s).value;
    var f := FracEnd(b, w).value;
    var e := ExpEnd(b, f).value;
    n := Number(b[i..s], b[s..w], b[w..f], b[f..e]);
    FracEndSound(b, w);
    ExpEndSound(b, f, n);
    WholeEndSound(b, s);
    Slices(b, i, s, w);
    Slices(b, i, w, f);
    Slices(b, i, f, e);
  }

  lemma WholeEndSound(b: bytes, i: nat)
    requires i <= |b| && WholeEnd(b, i).Some?
    ensures var s := b[i..WholeEnd(b, i).value];
            s == [ZERO] || (s != [] && AllDigits(s) && s[0] != ZERO)
  {
    assert b[i] == ZERO ==> b[i..i + 1] == [ZERO];
  }

  lemma FracEndSound(b: bytes, i: nat)
    requires i <= |b| && FracEnd(b, i).Some?
    ensures var s := b[i..FracEnd(b, i).value];
            s == [] || (|s| > 1 && s[0] == DOT && AllDigits(s[1..]))
  {
    var e := FracEnd(b, i).value;
    if e > i {
      assert b[i..e][1..] == b[i + 1..e];
    }
  }

  lemma ExpEndSound(b: bytes, i: nat, n: Number)
    requires i <= |b| && ExpEnd(b, i).Some? && n.exp == b[i..ExpEnd(b, i).value]
    ensures n.exp == [] || n.ExpValid()
  {
    var e := ExpEnd(b, i).value;
    if e > i {
      var k := if b[i + 1] == PLUS || b[i + 1] == MINUS then 2 else 1;
      assert b[i..e][k..] == b[i + k..e];
    }
  }

  /** Bytes that would let a number go on. */
  predicate Continues(c: byte) { IsDigit(c) || c == DOT || c == LOWER_E || c == UPPER_E }

  predicate Delimited(b: bytes, e: nat) { e < |b| ==> !Continues(b[e]) }

  lemma FracEndComplete(b: bytes, i: nat, s: bytes)
    requires At(b, i, s) && (s == [] || (|s| > 1 && s[0] == DOT && AllDigits(s[1..])))
    requires i + |s| < |b| ==> b[i + |s|] != DOT && !IsDigit(b[i + |s|])
    ensures FracEnd(b, i) == Some(i + |s|)
  {
    if s != [] {
      assert b[i] == s[0] && b[i + 1] == s[1] && s[1..][0] == s[1];
      assert b[i + 1..i + |s|] == s[1..];
      DigitsEndComplete(b, i + 1, s[1..]);
    }
  }

  lemma ExpEndComplete(b: bytes, i: nat, n: Number)
    requires At(b, i, n.exp) && (n.exp == [] || n.ExpValid()) && Delimited(b, i + |n.exp|)
    ensures ExpEnd(b, i) == Some(i + |n.exp|)
  {
    var s := n.exp;
    if s != [] {
      assert b[i] == s[0] && b[i + 1] == s[1];
      var k := if s[1] == PLUS || s[1] == MINUS then 2 else 1;
      ExpDigits(b, i, s, k);
      hide DigitsEnd, At, AllDigits;
    }
  }

  lemma ExpDigits(b: bytes, i: nat, s: bytes, k: nat)
    requires At(b, i, s) && k < |s| && AllDigits(s[k..]) && (i + |s| < |b| ==> !IsDigit(b[i + |s|]))
    ensures i + k < |b| && IsDigit(b[i + k]) && DigitsEnd(b, i + k) == i + |s|
  {
    AtDrop(b, i, s, k);
    AtHead(b, i + k, s[k..]);
    DigitsEndComplete(b, i + k, s[k..]);
  }

  lemma NumberEndComplete(b: bytes, i: nat, n: Number)
    requires n.Valid() && At(b, i, n.Text()) && Delimited(b, i + |n.Text()|)
    ensures NumberEnd(b, i) == Some(i + |n.Text()|)
  {
    hide At, AllDigits;
    AtConcat(b, i, n.sign + n.whole + n.frac, n.exp);
    AtConcat(b, i, n.sign + n.whole, n.frac);
    AtConcat(b, i, n.sign, n.whole);
    var s := i + |n.sign|;
    var w := s + |n.whole|;
    var f := w + |n.frac|;
    AtHead(b, i, n.sign);
    AtHead(b, s, n.whole);
    AtHead(b, w, n.frac);
    AtHead(b, f, n.exp);
    WholeEndComplete(b, s, n.whole);
    FracEndComplete(b, w, n.frac);
    ExpEndComplete(b, f, n);
  }

  lemma WholeEndComplete(b: bytes, i: nat, s: bytes)
    requires At(b, i, s) && (s == [ZERO] || (s != [] && AllDigits(s) && s[0] != ZERO))
    requires i + |s| < |b| ==> !IsDigit(b[i + |s|])
    ensures WholeEnd(b, i) == Some(i + |s|)
  {
    AtHead(b, i, s);
    if s != [ZERO] {
      DigitsEndComplete(b, i, s);
    }
  }

  method ScanDigits(b: bytes, start: nat) returns (i: nat)
    requires start <= |b|
    ensures i == DigitsEnd(b, start)
  {
    i := start;
    while i < |b| && IsDigit(b[i])
      invariant start <= i <= |b|
      invariant DigitsEnd(b, i) == DigitsEnd(b, start)
    {
      i := i + 1;
    }
  }

  lemma NumberParts(b: bytes, i: nat)
    requires i <= |b|
    ensures var w := WholeEnd(b, SignEnd(b, i));
            && (w == None ==> NumberEnd(b, i) == None)
            && (w.Some? && FracEnd(b, w.value) == None ==> NumberEnd(b, i) == None)
            && (w.Some? && FracEnd(b, w.value).Some? ==> NumberEnd(b, i) == ExpEnd(b, FracEnd(b, w.value).value))
  {
    hide SignEnd, WholeEnd, FracEnd, ExpEnd;
  }

  lemma FracPart(b: bytes, i: nat)
    requires i <= |b|
    ensures !(i < |b| && b[i] == DOT) ==> FracEnd(b, i) == Some(i)
    ensures i < |b| && b[i] == DOT ==> FracEnd(b, i) == if DigitAt(b, i + 1) then Some(DigitsEnd(b, i + 1)) else None
  {
    hide DigitAt, DigitsEnd;
  }

  lemma ExpPart(b: bytes, i: nat)
    requires i <= |b|
    ensures !(i < |b| && (b[i] == LOWER_E || b[i] == UPPER_E)) ==> ExpEnd(b, i) == Some(i)
    ensures i < |b| && (b[i] == LOWER_E || b[i] == UPPER_E) ==>
              var d := if i + 1 < |b| && (b[i + 1] == PLUS || b[i + 1] == MINUS) then i + 2 else i + 1;
              ExpEnd(b, i) == if DigitAt(b, d) then Some(DigitsEnd(b, d)) else None
  {
    hide DigitAt, DigitsEnd;
  }

  method ScanNumber(b: bytes, start: nat) returns (r: Option<nat>)
    requires start <= |b|
    ensures r == NumberEnd(b, start)
  {
    hide DigitsEnd, At, AllDigits, NumberEnd, FracEnd, ExpEnd;
    NumberParts(b, start);
    var i := start;
    if i < |b| && b[i] == MINUS {
      i := i + 1;
    }
    ghost var sign := i;
    assert sign == SignEnd(b, start);
    hide SignEnd;
    if i >= |b| {
      return None;
    }
    if b[i] == ZERO {
      i := i + 1;
    } else if ONE <= b[i] <= NINE {
      i := ScanDigits(b, i);
    } else {
      return None;
    }
    assert WholeEnd(b, sign) == Some(i);
    hide WholeEnd;
    FracPart(b, i);
    if i < |b| && b[i] == DOT {
      i := i + 1;
      if !DigitAt(b, i) {
        return None;
      }
      i := ScanDigits(b, i);
    }
    ExpPart(b, i);
    if i < |b| && (b[i] == LOWER_E || b[i] == UPPER_E) {
      i := i + 1;
      if i < |b| && (b[i] == PLUS || b[i] == MINUS) {
        i := i + 1;
      }
      if !DigitAt(b, i) {
        return None;
      }
      i := ScanDigits(b, i);
    }
    return Some(i);
  }

  // ---------------------------------------------------------------- brackets

  predicate IsOpen(c: byte) { c == LBRACE || c == LBRACKET }

  predicate IsClose(c: byte) { c == RBRACE || c == RBRACKET }

  predicate IsPlain(c: byte) { c != QUOTE && !IsOpen(c) && !IsClose(c) }

  function Close(open: byte): byte { if open == LBRACKET then RBRACKET else RBRACE }

  /** What may stand inside a pair of brackets: plain bytes, whole strings, and properly paired groups. */
  datatype Items =
    | Nil
    | Plain(c: byte, rest: Items)
    | Str(body: bytes, rest: Items)
    | Group(open: byte, inner: Items, rest: Items)
  {
    ghost predicate Valid() {
      match this
      case Nil => true
      case Plain(c, rest) => IsPlain(c) && rest.Valid()
      case Str(body, rest) => StringBody(body) && rest.Valid()
      case Group(open, inner, rest) => IsOpen(open) && inner.Valid() && rest.Valid()
    }

    function Text(): bytes {
      match this
      case Nil => []
      case Plain(c, rest) => [c] + rest.Text()
      case Str(body, rest) => [QUOTE] + (body + [QUOTE]) + rest.Text()
      case Group(open, inner, rest) => [open] + inner.Text() + [Close(open)] + rest.Text()
    }

    function Depth(): nat {
      match this
      case Nil => 0
      case Plain(_, rest) => rest.Depth()
      case Str(_, rest) => rest.Depth()
      case Group(_, inner, rest) =>
        var d := 1 + inner.Depth();
        if d < rest.Depth() then rest.Depth() else d
    }
  }

  /** Offset just past the bracket that closes the oldest open bracket of `stack` (youngest last),
      reading from `i` with at most `cap` brackets open at a time. */
  function GroupEnd(b: bytes, i: nat, stack: bytes, cap: nat): (r: Option<nat>)
    requires i <= |b|
    ensures r.Some? ==> i <= r.value <= |b|
    decreases |b| - i
  {
    if stack == [] then Some(i)
    else if i == |b| then None
    else if b[i] == QUOTE then
      match StringEnd(b, i + 1)
      case None => None
      case Some(e) => GroupEnd(b, e + 1, stack, cap)
    else if IsOpen(b[i]) then
      if |stack| >= cap then None else GroupEnd(b, i + 1, stack + [b[i]], cap)
    else if IsClose(b[i]) then
      if Close(stack[|stack| - 1]) != b[i] then None
      else GroupEnd(b, i + 1, stack[..|stack| - 1], cap)
    else GroupEnd(b, i + 1, stack, cap)
  }

  /** If the stack empties, the bytes up to the bracket that closes the youngest group are items of
      that group, and the walk goes on behind it with the youngest group popped. */
  lemma {:induction false} GroupEndSound(b: bytes, i: nat, stack: bytes, cap: nat) returns (t: Items, k: nat)
    requires i <= |b| && stack != [] && |stack| <= cap && GroupEnd(b, i, stack, cap).Some?
    ensures t.Valid() && |stack| + t.Depth() <= cap
    ensures At(b, i, t.Text()) && k == i + |t.Text()| < |b| && b[k] == Close(stack[|stack| - 1])
    ensures GroupEnd(b, k + 1, stack[..|stack| - 1], cap) == GroupEnd(b, i, stack, cap)
    decreases |b| - i, 1
  {
    hide At, StringBody, AllHex, StringEnd;
    var c := b[i];
    if c == QUOTE {
      var e := StringEnd(b, i + 1).value;
      StringEndSound(b, i + 1);
      var rest;
      rest, k := GroupEndSound(b, e + 1, stack, cap);
      t := Str(b[i + 1..e], rest);
      QuotedAt(b, i, e);
      AtConcat(b, i, [QUOTE] + (b[i + 1..e] + [QUOTE]), rest.Text());
    } else if IsOpen(c) {
      t, k := NestedSound(b, i, stack, cap);
    } else if IsClose(c) {
      t, k := Nil, i;
      AtNil(b, i);
    } else {
      var rest;
      rest, k := GroupEndSound(b, i + 1, stack, cap);
      t := Plain(c, rest);
      AtOne(b, i);
      AtConcat(b, i, [c], rest.Text());
    }
  }

  lemma GroupAt(b: bytes, i: nat, open: byte, inner: Items, rest: Items)
    requires i < |b| && b[i] == open && At(b, i + 1, inner.Text())
    requires var m := i + 1 + |inner.Text()|; m < |b| && b[m] == Close(open) && At(b, m + 1, rest.Text())
    ensures var s := Group(open, inner, rest).Text();
            At(b, i, s) && |s| == |inner.Text()| + 2 + |rest.Text()|
  {
    BracketedAt(b, i, open, inner.Text());
    AtConcat(b, i, [open] + inner.Text() + [Close(open)], rest.Text());
  }

  lemma GroupEndPush(b: bytes, i: nat, stack: bytes, cap: nat)
    requires i < |b| && IsOpen(b[i]) && stack != [] && GroupEnd(b, i, stack, cap).Some?
    ensures |stack| < cap && GroupEnd(b, i, stack, cap) == GroupEnd(b, i + 1, stack + [b[i]], cap)
  {
  }

  lemma {:induction false} NestedSound(b: bytes, i: nat, stack: bytes, cap: nat) returns (t: Items, k: nat)
    requires i < |b| && IsOpen(b[i]) && stack != [] && |stack| <= cap && GroupEnd(b, i, stack, cap).Some?
    ensures t.Valid() && |stack| + t.Depth() <= cap
    ensures At(b, i, t.Text()) && k == i + |t.Text()| < |b| && b[k] == Close(stack[|stack| - 1])
    ensures GroupEnd(b, k + 1, stack[..|stack| - 1], cap) == GroupEnd(b, i, stack, cap)
    decreases |b| - i, 0
  {
    hide At, GroupEnd, Items.Text, Close;
    var c := b[i];
    GroupEndPush(b, i, stack, cap);
    var inner, m := GroupEndSound(b, i + 1, stack + [c], cap);
    assert (stack + [c])[..|stack|] == stack;
    var rest;
    rest, k := GroupEndSound(b, m + 1, stack, cap);
    t := Group(c, inner, rest);
    GroupAt(b, i, c, inner, rest);
  }

  lemma QuotedAt(b: bytes, i: nat, e: nat)
    requires i < e < |b| && b[i] == QUOTE && b[e] == QUOTE
    ensures At(b, i, [QUOTE] + (b[i + 1..e] + [QUOTE]))
  {
    assert b[i..e + 1] == [QUOTE] + (b[i + 1..e] + [QUOTE]);
  }

  lemma BracketedAt(b: bytes, i: nat, open: byte, s: bytes)
    requires i < |b| && b[i] == open && At(b, i + 1, s) && i + 1 + |s| < |b| && b[i + 1 + |s|] == Close(open)
    ensures At(b, i, [open] + s + [Close(open)])
  {
    var m := i + 1 + |s|;
    assert b[i..m + 1] == [b[i]] + b[i + 1..m] + [b[m]];
  }

  lemma PlainStep(b: bytes, i: nat, c: byte, tail: bytes, stack: bytes, cap: nat)
    requires IsPlain(c) && stack != [] && At(b, i, [c] + tail)
    ensures i < |b| && At(b, i + 1, tail) && GroupEnd(b, i, stack, cap) == GroupEnd(b, i + 1, stack, cap)
  {
    hide At;
    AtConcat(b, i, [c], tail);
    AtHead(b, i, [c]);
  }

  lemma StringStep(b: bytes, i: nat, body: bytes, tail: bytes, stack: bytes, cap: nat)
    requires StringBody(body) && stack != [] && At(b, i, [QUOTE] + (body + [QUOTE]) + tail)
    ensures var e := i + |body| + 2;
            e <= |b| && At(b, e, tail) && GroupEnd(b, i, stack, cap) == GroupEnd(b, e, stack, cap)
  {
    hide At, StringBody, StringEnd;
    AtConcat(b, i, [QUOTE] + (body + [QUOTE]), tail);
    AtConcat(b, i, [QUOTE], body + [QUOTE]);
    AtHead(b, i, [QUOTE]);
    AtHead(b, i + |body| + 2, tail);
    StringEndComplete(b, i + 1, body);
  }

  lemma OpenStep(b: bytes, i: nat, stack: bytes, cap: nat)
    requires i < |b| && IsOpen(b[i]) && stack != []
    ensures GroupEnd(b, i, stack, cap) == if |stack| >= cap then None else GroupEnd(b, i + 1, stack + [b[i]], cap)
  {
  }

  lemma CloseStep(b: bytes, i: nat, open: byte, stack: bytes, cap: nat)
    requires i < |b| && IsOpen(open) && b[i] == Close(open)
    ensures GroupEnd(b, i, stack + [open], cap) == GroupEnd(b, i + 1, stack, cap)
  {
    assert (stack + [open])[..|stack|] == stack;
  }

  lemma BracketParts(b: bytes, i: nat, open: byte, s: bytes, tail: bytes)
    requires At(b, i, [open] + s + [Close(open)] + tail)
    ensures var m := i + 1 + |s|;
            m < |b| && b[i] == open && At(b, i + 1, s) && b[m] == Close(open) && At(b, m + 1, tail)
  {
    hide At, Close;
    AtConcat(b, i, [open] + s + [Close(open)], tail);
    AtHead(b, i + |s| + 2, tail);
    AtBracketed(b, i, open, s);
  }

  /** The walk passes over any valid items that fit under the cap and leaves the stack as it was. */
  lemma {:induction false} GroupEndSkips(b: bytes, i: nat, t: Items, stack: bytes, cap: nat)
    requires t.Valid() && stack != [] && |stack| + t.Depth() <= cap
    requires At(b, i, t.Text())
    ensures i + |t.Text()| <= |b| && GroupEnd(b, i, stack, cap) == GroupEnd(b, i + |t.Text()|, stack, cap)
    decreases t
  {
    hide At, StringBody, GroupEnd, Close, IsOpen, IsPlain;
    match t
    case Nil =>
      AtHead(b, i, []);
    case Plain(c, rest) =>
      PlainStep(b, i, c, rest.Text(), stack, cap);
      GroupEndSkips(b, i + 1, rest, stack, cap);
    case Str(body, rest) =>
      StringStep(b, i, body, rest.Text(), stack, cap);
      GroupEndSkips(b, i + |body| + 2, rest, stack, cap);
    case Group(open, inner, rest) =>
      var m := i + 1 + |inner.Text()|;
      BracketParts(b, i, open, inner.Text(), rest.Text());
      OpenStep(b, i, stack, cap);
      GroupEndSkips(b, i + 1, inner, stack + [open], cap);
      CloseStep(b, m, open, stack, cap);
      GroupEndSkips(b, m + 1, rest, stack, cap);
  }

  /** Items that nest deeper than the cap allows make the walk fail. */
  lemma {:induction false} GroupEndOverflows(b: bytes, i: nat, t: Items, stack: bytes, cap: nat)
    requires t.Valid() && stack != [] && |stack| <= cap < |stack| + t.Depth()
    requires At(b, i, t.Text())
    ensures i <= |b| && GroupEnd(b, i, stack, cap) == None
    decreases t
  {
    hide At, StringBody, GroupEnd, Close, IsOpen, IsPlain;
    match t
    case Plain(c, rest) =>
      PlainStep(b, i, c, rest.Text(), stack, cap);
      GroupEndOverflows(b, i + 1, rest, stack, cap);
    case Str(body, rest) =>
      StringStep(b, i, body, rest.Text(), stack, cap);
      GroupEndOverflows(b, i + |body| + 2, rest, stack, cap);
    case Group(open, inner, rest) =>
      var m := i + 1 + |inner.Text()|;
      BracketParts(b, i, open, inner.Text(), rest.Text());
      OpenStep(b, i, stack, cap);
      if |stack| + 1 + inner.Depth() <= cap {
        GroupEndSkips(b, i + 1, inner, stack + [open], cap);
        CloseStep(b, m, open, stack, cap);
        GroupEndOverflows(b, m + 1, rest, stack, cap);
      } else if |stack| < cap {
        GroupEndOverflows(b, i + 1, inner, stack + [open], cap);
      }
  }

  lemma AtBracketed(b: bytes, i: nat, open: byte, s: bytes)
    requires At(b, i, [open] + s + [Close(open)])
    ensures b[i] == open && At(b, i + 1, s) && b[i + 1 + |s|] == Close(open)
  {
    AtConcat(b, i, [open] + s, [Close(open)]);
    AtConcat(b, i, [open], s);
    AtHead(b, i, [open]);
    AtHead(b, i + 1 + |s|, [Close(open)]);
  }

  const MAX_SCAN_DEPTH := 256

  /** `scanContainer`: the fixed array holds the open brackets, `depth` says how many are in use. */
  method ScanContainer(b: bytes, start: nat) returns (r: Option<nat>)
    requires start < |b|
    ensures r == GroupEnd(b, start + 1, [b[start]], MAX_SCAN_DEPTH)
  {
    var stack := new byte[MAX_SCAN_DEPTH];
    stack[0] := b[start];
    var depth := 1;
    var i := start + 1;
    assert stack[..depth] == [b[start]];
    while i < |b| && depth > 0
      invariant start < i <= |b| && 0 <= depth <= MAX_SCAN_DEPTH
      invariant GroupEnd(b, i, stack[..depth], MAX_SCAN_DEPTH) == GroupEnd(b, start + 1, [b[start]], MAX_SCAN_DEPTH)
      decreases |b| - i
    {
      var c := b[i];
      ghost var was := stack[..depth];
      if c == QUOTE {
        var e := ScanStringBody(b, i + 1);
        if e.None? {
          return None;
        }
        i := e.value + 1;
      } else if IsOpen(c) {
        if depth >= MAX_SCAN_DEPTH {
          return None;
        }
        stack[depth] := c;
        depth := depth + 1;
        i := i + 1;
        assert stack[..depth] == was + [c];
      } else if IsClose(c) {
        depth := depth - 1;
        if Close(stack[depth]) != c {
          return None;
        }
        i := i + 1;
        assert stack[..depth] == was[..|was| - 1];
      } else {
        i := i + 1;
      }
    }
    if depth != 0 {
      return None;
    }
    return Some(i);
  }

  // ---------------------------------------------------------------- values

  datatype Kind = KString | KNumber | KObject | KArray | KTrue | KFalse | KNull

  const TRUE: bytes := [0x74, 0x72, 0x75, 0x65]
  const FALSE: bytes := [0x66, 0x61, 0x6C, 0x73, 0x65]
  const NULL: bytes := [0x6E, 0x75, 0x6C, 0x6C]

  /** The values the scanner recognises. */
  datatype Value =
    | StringValue(body: bytes)
    | NumberValue(n: Number)
    | TrueValue
    | FalseValue
    | NullValue
    | ContainerValue(open: byte, items: Items)
  {
    /** Well formed, with at most `cap` brackets open at a time. */
    ghost predicate Valid(cap: nat) {
      match this
      case StringValue(body) => StringBody(body)
      case NumberValue(n) => n.Valid()
      case ContainerValue(open, items) => IsOpen(open) && items.Valid() && 1 + items.Depth() <= cap
      case _ => true
    }

    function Text(): bytes {
      match this
      case StringValue(body) => [QUOTE] + (body + [QUOTE])
      case NumberValue(n) => n.Text()
      case TrueValue => TRUE
      case FalseValue => FALSE
      case NullValue => NULL
      case ContainerValue(open, items) => [open] + items.Text() + [Close(open)]
    }

    function Kind(): Kind {
      match this
      case StringValue(_) => KString
      case NumberValue(_) => KNumber
      case TrueValue => KTrue
      case FalseValue => KFalse
      case NullValue => KNull
      case ContainerValue(open, _) => if open == LBRACKET then KArray else KObject
    }
  }

  function ValueEnd(b: bytes, i: nat, cap: nat): (r: Option<(nat, Kind)>)
    requires i <= |b|
    ensures r.Some? ==> i < r.value.0 <= |b|
  {
    if i == |b| then None
    else if b[i] == QUOTE then
      match StringEnd(b, i + 1) case None => None case Some(e) => Some((e + 1, KString))
    else if IsOpen(b[i]) then
      if cap == 0 then None else
      match GroupEnd(b, i + 1, [b[i]], cap)
      case None => None
      case Some(e) => Some((e, if b[i] == LBRACKET then KArray else KObject))
    else if b[i] == LOWER_T then if At(b, i, TRUE) then Some((i + 4, KTrue)) else None
    else if b[i] == LOWER_F then if At(b, i, FALSE) then Some((i + 5, KFalse)) else None
    else if b[i] == LOWER_N then if At(b, i, NULL) then Some((i + 4, KNull)) else None
    else match NumberEnd(b, i) case None => None case Some(e) => Some((e, KNumber))
  }

  /** The matched bracket word, when `ValueEnd` stops behind a container. */
  lemma ContainerSound(b: bytes, i: nat, cap: nat) returns (t: Items)
    requires i < |b| && IsOpen(b[i]) && cap > 0 && GroupEnd(b, i + 1, [b[i]], cap).Some?
    ensures t.Valid() && 1 + t.Depth() <= cap
    ensures At(b, i, [b[i]] + t.Text() + [Close(b[i])])
    ensures GroupEnd(b, i + 1, [b[i]], cap) == Some(i + 2 + |t.Text()|)
  {
    var k;
    t, k := GroupEndSound(b, i + 1, [b[i]], cap);
    assert [b[i]][..0] == [];
    BracketedAt(b, i, b[i], t.Text());
  }

  lemma ContainerComplete(b: bytes, i: nat, open: byte, t: Items, cap: nat)
    requires IsOpen(open) && t.Valid() && 1 + t.Depth() <= cap
    requires At(b, i, [open] + t.Text() + [Close(open)])
    ensures b[i] == open && GroupEnd(b, i + 1, [open], cap) == Some(i + 2 + |t.Text()|)
  {
    AtBracketed(b, i, open, t.Text());
    GroupEndSkips(b, i + 1, t, [open], cap);
    assert [open][..0] == [];
  }

  lemma ContainerOverflow(b: bytes, i: nat, open: byte, t: Items, cap: nat)
    requires IsOpen(open) && t.Valid() && 1 + t.Depth() > cap
    requires At(b, i, [open] + t.Text() + [Close(open)])
    ensures i < |b| && ValueEnd(b, i, cap) == None
  {
    AtBracketed(b, i, open, t.Text());
    if cap > 0 {
      GroupEndOverflows(b, i + 1, t, [open], cap);
    }
  }

  /** `scanContainer` succeeds at an open bracket exactly when a paired bracket word of depth at most
      256 starts there, and it returns the end of that word, which is the only such end. */
  lemma ContainerExact(b: bytes, i: nat, e: nat)
    requires i < |b| && IsOpen(b[i])
    ensures GroupEnd(b, i + 1, [b[i]], MAX_SCAN_DEPTH) == Some(e) <==>
            exists t: Items :: t.Valid() && 1 + t.Depth() <= MAX_SCAN_DEPTH && i < e <= |b|
                               && b[i..e] == [b[i]] + t.Text() + [Close(b[i])]
  {
    hide GroupEnd, Items.Valid, Items.Text, Items.Depth, Close;
    if GroupEnd(b, i + 1, [b[i]], MAX_SCAN_DEPTH) == Some(e) {
      var t := ContainerSound(b, i, MAX_SCAN_DEPTH);
    }
    forall t: Items | t.Valid() && 1 + t.Depth() <= MAX_SCAN_DEPTH && i < e <= |b|
                      && b[i..e] == [b[i]] + t.Text() + [Close(b[i])]
      ensures GroupEnd(b, i + 1, [b[i]], MAX_SCAN_DEPTH) == Some(e)
    {
      ContainerComplete(b, i, b[i], t, MAX_SCAN_DEPTH);
    }
  }

  lemma ValueEndSound(b: bytes, i: nat, cap: nat) returns (v: Value)
    requires i <= |b| && ValueEnd(b, i, cap).Some?
    ensures v.Valid(cap) && v.Text() == b[i..ValueEnd(b, i, cap).value.0] && v.Kind() == ValueEnd(b, i, cap).value.1
  {
    var e := ValueEnd(b, i, cap).value.0;
    if b[i] == QUOTE {
      StringEndSound(b, i + 1);
      v := StringValue(b[i + 1..e - 1]);
      QuotedAt(b, i, e - 1);
    } else if IsOpen(b[i]) {
      var t := ContainerSound(b, i, cap);
      v := ContainerValue(b[i], t);
    } else if b[i] == LOWER_T {
      v := TrueValue;
    } else if b[i] == LOWER_F {
      v := FalseValue;
    } else if b[i] == LOWER_N {
      v := NullValue;
    } else {
      var n := NumberEndSound(b, i);
      v := NumberValue(n);
    }
  }

  lemma NumberFirstByte(n: Number)
    requires n.Valid()
    ensures n.Text() != [] && (n.Text()[0] == MINUS || IsDigit(n.Text()[0]))
  {
    assert n.Text()[0] == (if n.sign == [] then n.whole[0] else n.sign[0]);
  }

  lemma ValueEndComplete(b: bytes, i: nat, v: Value, cap: nat)
    requires v.Valid(cap) && At(b, i, v.Text()) && Delimited(b, i + |v.Text()|)
    ensures i < |b| && ValueEnd(b, i, cap) == Some((i + |v.Text()|, v.Kind()))
  {
    hide StringBody, StringEnd, NumberEnd;
    match v
    case StringValue(body) =>
      AtConcat(b, i, [QUOTE], body + [QUOTE]);
      AtHead(b, i, [QUOTE]);
      StringEndComplete(b, i + 1, body);
    case ContainerValue(open, items) =>
      ContainerComplete(b, i, open, items, cap);
    case NumberValue(n) =>
      NumberFirstByte(n);
      assert b[i] == n.Text()[0];
      NumberEndComplete(b, i, n);
    case _ =>
      assert b[i] == v.Text()[0];
  }

  method ScanValue(b: bytes, i: nat) returns (r: Option<(nat, Kind)>)
    requires i <= |b|
    ensures r == ValueEnd(b, i, MAX_SCAN_DEPTH)
  {
    if i >= |b| {
      return None;
    }
    if b[i] == QUOTE {
      var q := ScanStringBody(b, i + 1);
      return match q case None => None case Some(e) => Some((e + 1, KString));
    } else if IsOpen(b[i]) {
      var q := ScanContainer(b, i);
      var kind := if b[i] == LBRACKET then KArray else KObject;
      return match q case None => None case Some(e) => Some((e, kind));
    } else if b[i] == LOWER_T {
      return if At(b, i, TRUE) then Some((i + 4, KTrue)) else None;
    } else if b[i] == LOWER_F {
      return if At(b, i, FALSE) then Some((i + 5, KFalse)) else None;
    } else if b[i] == LOWER_N {
      return if At(b, i, NULL) then Some((i + 4, KNull)) else None;
    } else {
      var q := ScanNumber(b, i);
      return match q case None => None case Some(e) => Some((e, KNumber));
    }
  }

  /** `s` is the text of one scannable value with at most `cap` brackets open at a time. */
  ghost predicate ValueText(s: bytes, cap: nat) {
    exists v: Value :: v.Valid(cap) && v.Text() == s
  }
}
