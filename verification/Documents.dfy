/** The top-level walk over one JSON object, as a parse into members that keep every byte of the layout. */
module Documents {
  import opened Bytes
  import opened Tokens

  /** One member with the blanks around it; `key` is the raw text between the quotes. */
  datatype Field = Field(before: bytes, key: bytes, afterKey: bytes, afterColon: bytes, value: bytes, after: bytes) {
    ghost predicate Valid(cap: nat) {
      && AllSpace(before) && AllSpace(afterKey) && AllSpace(afterColon) && AllSpace(after)
      && StringBody(key) && ValueText(value, cap)
    }

    /** From the opening quote of the key to the end of the value. */
    function Core(): bytes {
      [QUOTE] + (key + [QUOTE]) + (afterKey + ([COLON] + (afterColon + value)))
    }

    function Text(): bytes { before + (Core() + after) }

    function Pair(): (bytes, bytes) { (key, value) }
  }

  function Pairs(fields: seq<Field>): (r: seq<(bytes, bytes)>)
    ensures |r| == |fields| && forall k :: 0 <= k < |r| ==> r[k] == fields[k].Pair()
  {
    seq(|fields|, k requires 0 <= k < |fields| => fields[k].Pair())
  }

  ghost predicate AllValid(fields: seq<Field>, cap: nat) {
    forall k :: 0 <= k < |fields| ==> fields[k].Valid(cap)
  }

  /** The members with a comma between neighbours. */
  function Join(fields: seq<Field>): bytes {
    if fields == [] then []
    else if |fields| == 1 then fields[0].Text()
    else Join(fields[..|fields| - 1]) + ([COMMA] + fields[|fields| - 1].Text())
  }

  lemma JoinOne(f: Field)
    ensures Join([f]) == f.Text()
  {
  }

  lemma {:induction false} JoinCons(f: Field, rest: seq<Field>)
    requires rest != []
    ensures Join([f] + rest) == f.Text() + ([COMMA] + Join(rest))
  {
    var all, n := [f] + rest, |rest|;
    assert all[n] == rest[n - 1];
    if n == 1 {
      assert all[..n] == [f];
    } else {
      assert all[..n] == [f] + rest[..n - 1];
      JoinCons(f, rest[..n - 1]);
    }
  }

  // ---------------------------------------------------------------- one member

  /** The member that starts at `i` and the offset of the byte behind its trailing blanks. */
  function FieldAt(b: bytes, i: nat, cap: nat): (r: Option<(Field, nat)>)
    requires i <= |b|
    ensures r.Some? ==> i < r.value.1 < |b|
  {
    var k := SpaceEnd(b, i);
    if k == |b| || b[k] != QUOTE then None else
    match StringEnd(b, k + 1)
    case None => None
    case Some(e) =>
      var c := SpaceEnd(b, e + 1);
      if c == |b| || b[c] != COLON then None else
      var v := SpaceEnd(b, c + 1);
      match ValueEnd(b, v, cap)
      case None => None
      case Some((ve, _)) =>
        var n := SpaceEnd(b, ve);
        if n == |b| then None
        else Some((Field(b[i..k], b[k + 1..e], b[e + 1..c], b[c + 1..v], b[v..ve], b[ve..n]), n))
  }

  lemma FieldAtSound(b: bytes, i: nat, cap: nat)
    requires i <= |b| && FieldAt(b, i, cap).Some?
    ensures var (f, n) := FieldAt(b, i, cap).value;
            f.Valid(cap) && At(b, i, f.Text()) && n == i + |f.Text()|
  {
    hide At, StringBody, StringEnd, ValueEnd, AllSpace, ValueText, Field.Core;
    var (f, n) := FieldAt(b, i, cap).value;
    var k := SpaceEnd(b, i);
    var e := StringEnd(b, k + 1).value;
    var c := SpaceEnd(b, e + 1);
    var v := SpaceEnd(b, c + 1);
    var ve := ValueEnd(b, v, cap).value.0;
    StringEndSound(b, k + 1);
    ValueTextAt(b, v, cap);
    CoreIs(b, f, k, e, c, v, ve);
    AtSlice(b, ve, n);
    AtConcat(b, k, f.Core(), f.after);
    AtSlice(b, i, k);
    AtConcat(b, i, f.before, f.Core() + f.after);
  }

  lemma ValueTextAt(b: bytes, v: nat, cap: nat)
    requires v <= |b| && ValueEnd(b, v, cap).Some?
    ensures v <= ValueEnd(b, v, cap).value.0 <= |b| && ValueText(b[v..ValueEnd(b, v, cap).value.0], cap)
  {
    hide ValueEnd;
    var tok := ValueEndSound(b, v, cap);
  }

  lemma CoreIs(b: bytes, f: Field, k: nat, e: nat, c: nat, v: nat, ve: nat)
    requires k < e < c < v <= ve <= |b| && b[k] == QUOTE && b[e] == QUOTE && b[c] == COLON
    requires f.key == b[k + 1..e] && f.afterKey == b[e + 1..c] && f.afterColon == b[c + 1..v] && f.value == b[v..ve]
    ensures At(b, k, f.Core()) && |f.Core()| == ve - k
  {
    hide At;
    CoreAt(b, k, e, c, v, ve);
  }

  lemma CoreAt(b: bytes, k: nat, e: nat, c: nat, v: nat, ve: nat)
    requires k < e < c < v <= ve <= |b| && b[k] == QUOTE && b[e] == QUOTE && b[c] == COLON
    ensures At(b, k, [QUOTE] + (b[k + 1..e] + [QUOTE]) + (b[e + 1..c] + ([COLON] + (b[c + 1..v] + b[v..ve]))))
  {
    hide At;
    QuotedAt(b, k, e);
    AtSlice(b, v, ve);
    AtSlice(b, c + 1, v);
    AtConcat(b, c + 1, b[c + 1..v], b[v..ve]);
    AtOne(b, c);
    AtConcat(b, c, [COLON], b[c + 1..v] + b[v..ve]);
    AtSlice(b, e + 1, c);
    AtConcat(b, e + 1, b[e + 1..c], [COLON] + (b[c + 1..v] + b[v..ve]));
    AtConcat(b, k, [QUOTE] + (b[k + 1..e] + [QUOTE]), b[e + 1..c] + ([COLON] + (b[c + 1..v] + b[v..ve])));
  }

  lemma ValueTextHead(s: bytes, cap: nat)
    requires ValueText(s, cap)
    ensures s != [] && !IsSpace(s[0])
  {
    var v: Value :| v.Valid(cap) && v.Text() == s;
    match v
    case NumberValue(n) => NumberFirstByte(n);
    case StringValue(body) => assert s[0] == QUOTE;
    case ContainerValue(open, items) => assert s[0] == open;
    case _ =>
  }

  lemma SpaceThen(b: bytes, i: nat, w: bytes, s: bytes)
    requires AllSpace(w) && At(b, i, w + s) && s != [] && !IsSpace(s[0])
    ensures i <= |b| && SpaceEnd(b, i) == i + |w| < |b| && At(b, i + |w|, s) && b[i..i + |w|] == w && b[i + |w|] == s[0]
  {
    AtConcat(b, i, w, s);
    AtHead(b, i + |w|, s);
    SpaceEndComplete(b, i, w);
  }

  lemma FieldAtComplete(b: bytes, i: nat, f: Field, sep: byte, cap: nat)
    requires f.Valid(cap) && At(b, i, f.Text() + [sep]) && (sep == COMMA || sep == RBRACE)
    ensures i <= |b| && FieldAt(b, i, cap) == Some((f, i + |f.Text()|))
  {
    hide At, AllSpace, StringBody, ValueText, SpaceEnd, StringEnd, ValueEnd, Field.Text, Field.Core, FieldAt;
    TextRightNested(f, sep);
    var rest := f.afterColon + (f.value + (f.after + [sep]));
    KeyPart(b, i, f.before, f.key, f.afterKey, rest);
    ValuePart(b, i + |f.before| + |f.key| + |f.afterKey| + 3, f.afterColon, f.value, f.after, sep, cap);
    var k := i + |f.before|;
    var e := k + 1 + |f.key|;
    var c := e + 1 + |f.afterKey|;
    FieldAtIs(b, i, cap, k, e, c, c + 1 + |f.afterColon|);
  }

  lemma FieldAtIs(b: bytes, i: nat, cap: nat, k: nat, e: nat, c: nat, v: nat)
    requires i <= k < e < c < v <= |b| && SpaceEnd(b, i) == k && b[k] == QUOTE && StringEnd(b, k + 1) == Some(e)
    requires SpaceEnd(b, e + 1) == c && b[c] == COLON && SpaceEnd(b, c + 1) == v
    requires ValueEnd(b, v, cap).Some? && SpaceEnd(b, ValueEnd(b, v, cap).value.0) < |b|
    ensures var ve := ValueEnd(b, v, cap).value.0; var n := SpaceEnd(b, ve);
            FieldAt(b, i, cap) == Some((Field(b[i..k], b[k + 1..e], b[e + 1..c], b[c + 1..v], b[v..ve], b[ve..n]), n))
  {
    hide SpaceEnd, StringEnd, ValueEnd;
  }

  lemma KeyPart(b: bytes, i: nat, before: bytes, key: bytes, afterKey: bytes, rest: bytes)
    requires AllSpace(before) && StringBody(key) && AllSpace(afterKey)
    requires At(b, i, before + ([QUOTE] + (key + ([QUOTE] + (afterKey + ([COLON] + rest))))))
    ensures var k := i + |before|; var e := k + 1 + |key|; var c := e + 1 + |afterKey|;
            && c < |b| && SpaceEnd(b, i) == k && b[k] == QUOTE && b[i..k] == before
            && StringEnd(b, k + 1) == Some(e) && b[k + 1..e] == key
            && SpaceEnd(b, e + 1) == c && b[c] == COLON && b[e + 1..c] == afterKey
            && At(b, c + 1, rest)
  {
    hide At, AllSpace, StringBody, SpaceEnd, StringEnd;
    var s2 := afterKey + ([COLON] + rest);
    var k := i + |before|;
    var e := k + 1 + |key|;
    SpaceThen(b, i, before, [QUOTE] + (key + ([QUOTE] + s2)));
    KeyThen(b, k, key, s2);
    SpaceThen(b, e + 1, afterKey, [COLON] + rest);
    AtConcat(b, e + 1 + |afterKey|, [COLON], rest);
  }

  lemma ValuePart(b: bytes, i: nat, afterColon: bytes, value: bytes, after: bytes, sep: byte, cap: nat)
    requires AllSpace(afterColon) && ValueText(value, cap) && AllSpace(after) && (sep == COMMA || sep == RBRACE)
    requires At(b, i, afterColon + (value + (after + [sep])))
    ensures var v := i + |afterColon|; var ve := v + |value|; var n := ve + |after|;
            && n < |b| && SpaceEnd(b, i) == v && b[i..v] == afterColon
            && ValueEnd(b, v, cap).Some? && ValueEnd(b, v, cap).value.0 == ve && b[v..ve] == value
            && SpaceEnd(b, ve) == n && b[ve..n] == after
  {
    hide At, AllSpace, ValueText, SpaceEnd, ValueEnd;
    ValueTextHead(value, cap);
    var v := i + |afterColon|;
    SpaceThen(b, i, afterColon, value + (after + [sep]));
    ValueThen(b, v, value, after, sep, cap);
    SpaceThen(b, v + |value|, after, [sep]);
  }

  lemma TextRightNested(f: Field, sep: byte)
    ensures f.Text() + [sep] ==
            f.before + ([QUOTE] + (f.key + ([QUOTE]
              + (f.afterKey + ([COLON] + (f.afterColon + (f.value + (f.after + [sep]))))))))
    ensures |f.Text()| == |f.before| + |f.key| + |f.afterKey| + |f.afterColon| + |f.value| + |f.after| + 3
  {
    var v := f.afterColon + f.value;
    assert v + (f.after + [sep]) == f.afterColon + (f.value + (f.after + [sep]));
    var c := f.afterKey + ([COLON] + v);
    assert c + (f.after + [sep]) == f.afterKey + ([COLON] + (v + (f.after + [sep])));
    assert f.Core() + (f.after + [sep]) == [QUOTE] + (f.key + ([QUOTE] + (c + (f.after + [sep]))));
    assert f.Text() + [sep] == f.before + (f.Core() + (f.after + [sep]));
  }

  lemma KeyThen(b: bytes, k: nat, key: bytes, s: bytes)
    requires StringBody(key) && At(b, k, [QUOTE] + (key + ([QUOTE] + s)))
    ensures var e := k + 1 + |key|;
            k + 1 <= |b| && StringEnd(b, k + 1) == Some(e) && e < |b| && b[k + 1..e] == key && At(b, e + 1, s)
  {
    AtConcat(b, k, [QUOTE], key + ([QUOTE] + s));
    assert key + ([QUOTE] + s) == (key + [QUOTE]) + s;
    AtConcat(b, k + 1, key + [QUOTE], s);
    AtConcat(b, k + 1, key, [QUOTE]);
    StringEndComplete(b, k + 1, key);
  }

  lemma ValueThen(b: bytes, v: nat, value: bytes, w: bytes, c: byte, cap: nat)
    requires ValueText(value, cap) && AllSpace(w) && (c == COMMA || c == RBRACE)
    requires At(b, v, value + (w + [c]))
    ensures var e := v + |value|;
            e <= |b| && ValueEnd(b, v, cap).Some? && ValueEnd(b, v, cap).value.0 == e && b[v..e] == value
              && At(b, e, w + [c])
  {
    var tok: Value :| tok.Valid(cap) && tok.Text() == value;
    AtConcat(b, v, value, w + [c]);
    AtHead(b, v + |value|, w + [c]);
    hide ValueEnd, Value.Valid, Value.Text;
    ValueEndComplete(b, v, tok, cap);
  }

  // ---------------------------------------------------------------- all members

  /** The members from `i` on and the offset of the closing brace. */
  function FieldsFrom(b: bytes, i: nat, cap: nat): (r: Option<(seq<Field>, nat)>)
    requires i <= |b|
    ensures r.Some? ==> r.value.0 != [] && i < r.value.1 < |b| && b[r.value.1] == RBRACE
    decreases |b| - i
  {
    match FieldAt(b, i, cap)
    case None => None
    case Some((f, n)) =>
      if b[n] == COMMA then
        match FieldsFrom(b, n + 1, cap)
        case None => None
        case Some((fs, e)) => Some(([f] + fs, e))
      else if b[n] == RBRACE then Some(([f], n))
      else None
  }

  lemma {:induction false} FieldsFromSound(b: bytes, i: nat, cap: nat)
    requires i <= |b| && FieldsFrom(b, i, cap).Some?
    ensures var (fs, e) := FieldsFrom(b, i, cap).value;
            AllValid(fs, cap) && At(b, i, Join(fs)) && e == i + |Join(fs)|
    decreases |b| - i
  {
    hide At, Field.Text, FieldAt, Field.Valid;
    var (f, n) := FieldAt(b, i, cap).value;
    FieldAtSound(b, i, cap);
    if b[n] == COMMA {
      var (fs, e) := FieldsFrom(b, n + 1, cap).value;
      FieldsFromSound(b, n + 1, cap);
      JoinCons(f, fs);
      AtOne(b, n);
      AtConcat(b, n, [COMMA], Join(fs));
      AtConcat(b, i, f.Text(), [COMMA] + Join(fs));
    }
  }

  lemma {:induction false} FieldsFromComplete(b: bytes, i: nat, fs: seq<Field>, cap: nat)
    requires fs != [] && AllValid(fs, cap) && At(b, i, Join(fs) + [RBRACE])
    ensures i <= |b| && FieldsFrom(b, i, cap) == Some((fs, i + |Join(fs)|))
    decreases |fs|
  {
    hide At, Field.Text, FieldAt, Field.Valid, Join, AllValid;
    RestValid(fs, cap);
    var f, rest := fs[0], fs[1..];
    var n := i + |f.Text()|;
    AtHead(b, i, Join(fs) + [RBRACE]);
    if rest == [] {
      assert fs == [f];
      assert Join(fs) == f.Text() by { JoinOne(f); }
      AtConcat(b, i, f.Text(), [RBRACE]);
      AtHead(b, n, [RBRACE]);
      FieldAtComplete(b, i, f, RBRACE, cap);
    } else {
      assert fs == [f] + rest;
      JoinCons(f, rest);
      assert Join(fs) + [RBRACE] == (f.Text() + [COMMA]) + (Join(rest) + [RBRACE]);
      AtConcat(b, i, f.Text() + [COMMA], Join(rest) + [RBRACE]);
      AtConcat(b, i, f.Text(), [COMMA]);
      AtHead(b, n, [COMMA]);
      FieldAtComplete(b, i, f, COMMA, cap);
      FieldsFromComplete(b, n + 1, rest, cap);
    }
  }

  // ---------------------------------------------------------------- the whole datagram

  /** A non-empty object with what stands before and behind it; nothing is asked of `tail`. */
  datatype Doc = Doc(before: bytes, fields: seq<Field>, tail: bytes) {
    ghost predicate Valid(cap: nat) { AllSpace(before) && fields != [] && AllValid(fields, cap) }

    function Text(): bytes { before + ([LBRACE] + ((Join(fields) + [RBRACE]) + tail)) }
  }

  datatype Scan =
    | Malformed
    | NotObject
    | EmptyObject(before: bytes, inner: bytes, tail: bytes)
    | Members(doc: Doc)

  function ScanObject(b: bytes, cap: nat): (r: Scan) {
    var i := SpaceEnd(b, 0);
    if i == |b| then Malformed
    else if b[i] != LBRACE then NotObject
    else
      var j := SpaceEnd(b, i + 1);
      if j == |b| then Malformed
      else if b[j] == RBRACE then EmptyObject(b[..i], b[i + 1..j], b[j + 1..])
      else
        match FieldsFrom(b, i + 1, cap)
        case None => Malformed
        case Some((fs, e)) => Members(Doc(b[..i], fs, b[e + 1..]))
  }

  lemma FieldHead(f: Field, cap: nat, b: bytes, i: nat)
    requires f.Valid(cap) && At(b, i, f.Text())
    ensures i <= |b| && SpaceEnd(b, i) < |b| && b[SpaceEnd(b, i)] == QUOTE
  {
    SpaceThen(b, i, f.before, f.Core() + f.after);
  }

  lemma JoinHead(fs: seq<Field>, b: bytes, i: nat)
    requires fs != [] && At(b, i, Join(fs))
    ensures At(b, i, fs[0].Text())
    decreases |fs|
  {
    hide At, Field.Text;
    if |fs| > 1 {
      assert fs == [fs[0]] + fs[1..];
      JoinCons(fs[0], fs[1..]);
      AtConcat(b, i, fs[0].Text(), [COMMA] + Join(fs[1..]));
    }
  }

  /** The scan yields a document exactly when that document is well formed and prints to the input:
      nothing else is accepted, nothing well formed is refused, and the reading is unique. */
  lemma ScanObjectExact(b: bytes, cap: nat, doc: Doc)
    ensures ScanObject(b, cap) == Members(doc) <==> doc.Valid(cap) && doc.Text() == b
  {
    if ScanObject(b, cap) == Members(doc) {
      ScanObjectSound(b, cap);
    }
    if doc.Valid(cap) && doc.Text() == b {
      ScanObjectComplete(doc, cap);
    }
  }

  lemma ScanObjectSound(b: bytes, cap: nat)
    requires ScanObject(b, cap).Members?
    ensures var doc := ScanObject(b, cap).doc; doc.Valid(cap) && doc.Text() == b
  {
    hide FieldsFrom, SpaceEnd, AllValid, Join;
    var i := SpaceEnd(b, 0);
    FieldsFromSound(b, i + 1, cap);
    var (fs, e) := FieldsFrom(b, i + 1, cap).value;
    assert b[..i] == b[0..i];
    BracesSplit(b, i, e);
  }

  lemma BracesSplit(b: bytes, i: nat, e: nat)
    requires i < e < |b|
    ensures b == b[..i] + ([b[i]] + ((b[i + 1..e] + [b[e]]) + b[e + 1..]))
  {
    assert b[i + 1..] == (b[i + 1..e] + [b[e]]) + b[e + 1..];
    assert b[i..] == [b[i]] + b[i + 1..];
    assert b == b[..i] + b[i..];
  }

  lemma ScanObjectComplete(doc: Doc, cap: nat)
    requires doc.Valid(cap)
    ensures ScanObject(doc.Text(), cap) == Members(doc)
  {
    hide FieldsFrom, SpaceEnd, AllValid, Join, At, AllSpace, Field.Text;
    var b := doc.Text();
    var body := Join(doc.fields) + [RBRACE];
    var i := |doc.before|;
    AtAll(b);
    SpaceThen(b, 0, doc.before, [LBRACE] + (body + doc.tail));
    AtConcat(b, i, [LBRACE], body + doc.tail);
    AtConcat(b, i + 1, body, doc.tail);
    AtConcat(b, i + 1, Join(doc.fields), [RBRACE]);
    FieldsFromComplete(b, i + 1, doc.fields, cap);
    JoinHead(doc.fields, b, i + 1);
    assert doc.fields[0].Valid(cap) by { RestValid(doc.fields, cap); }
    FieldHead(doc.fields[0], cap, b, i + 1);
    assert b[i + 1 + |body|..] == doc.tail by { AtTail(b, i + 1 + |body|, doc.tail); }
    assert b[..i] == b[0..i];
  }

  lemma RestValid(fs: seq<Field>, cap: nat)
    requires fs != [] && AllValid(fs, cap)
    ensures fs[0].Valid(cap) && AllValid(fs[1..], cap)
  {
    assert forall k :: 0 <= k < |fs[1..]| ==> fs[1..][k] == fs[k + 1];
  }

  lemma AtAll(b: bytes)
    ensures At(b, 0, b)
  {
  }

  lemma AtTail(b: bytes, i: nat, s: bytes)
    requires At(b, i, s) && i + |s| == |b|
    ensures b[i..] == s
  {
  }
}
