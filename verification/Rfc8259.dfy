/** The JSON grammar of RFC 8259 with every byte of layout, and the proof that the routing scanner
    never calls a JSON object malformed unless a member value nests deeper than its cap. */
module Rfc8259 {
  import opened Bytes
  import opened Tokens
  import opened Documents
  import opened Laws

  /** Section 7. Bytes from 0x80 up stand for themselves: UTF-8 validity is not asked for. */
  predicate JsonString(s: bytes) {
    s == [] ||
    if s[0] == BACKSLASH then
      |s| >= 2 &&
      if s[1] == LOWER_U then |s| >= 6 && AllHex(s[2..6]) && JsonString(s[6..])
      else s[1] in {QUOTE, BACKSLASH, 0x2F, 0x62, LOWER_F, LOWER_N, 0x72, LOWER_T} && JsonString(s[2..])
    else s[0] != QUOTE && s[0] >= 0x20 && JsonString(s[1..])
  }

  datatype Json =
    | JString(body: bytes)
    | JNumber(n: Number)
    | JTrue
    | JFalse
    | JNull
    | JEmptyArray(blank: bytes)
    | JArray(elems: Elements)
    | JEmptyObject(blank: bytes)
    | JObject(members: Entries)

  datatype Elements =
    | LastElement(before: bytes, v: Json, after: bytes)
    | Element(before: bytes, v: Json, after: bytes, rest: Elements)

  datatype Entries =
    | LastEntry(before: bytes, key: bytes, afterKey: bytes, afterColon: bytes, v: Json, after: bytes)
    | Entry(before: bytes, key: bytes, afterKey: bytes, afterColon: bytes, v: Json, after: bytes, rest: Entries)

  ghost predicate JsonOk(j: Json) {
    match j
    case JString(body) => JsonString(body)
    case JNumber(n) => n.Valid()
    case JEmptyArray(blank) => AllSpace(blank)
    case JArray(elems) => ElementsOk(elems)
    case JEmptyObject(blank) => AllSpace(blank)
    case JObject(members) => EntriesOk(members)
    case _ => true
  }

  ghost predicate ElementsOk(es: Elements) {
    AllSpace(es.before) && AllSpace(es.after) && JsonOk(es.v) && (es.Element? ==> ElementsOk(es.rest))
  }

  ghost predicate EntriesOk(es: Entries) {
    && AllSpace(es.before) && AllSpace(es.afterKey) && AllSpace(es.afterColon) && AllSpace(es.after)
    && JsonString(es.key) && JsonOk(es.v) && (es.Entry? ==> EntriesOk(es.rest))
  }

  function JsonText(j: Json): bytes {
    match j
    case JString(body) => [QUOTE] + (body + [QUOTE])
    case JNumber(n) => n.Text()
    case JTrue => TRUE
    case JFalse => FALSE
    case JNull => NULL
    case JEmptyArray(blank) => [LBRACKET] + blank + [RBRACKET]
    case JArray(elems) => [LBRACKET] + ElementsText(elems) + [RBRACKET]
    case JEmptyObject(blank) => [LBRACE] + blank + [RBRACE]
    case JObject(members) => [LBRACE] + EntriesText(members) + [RBRACE]
  }

  function ElementsText(es: Elements): bytes {
    es.before + (JsonText(es.v) + (es.after + if es.Element? then [COMMA] + ElementsText(es.rest) else []))
  }

  function EntriesText(es: Entries): bytes {
    es.before + (([QUOTE] + (es.key + [QUOTE])) + (es.afterKey + ([COLON] + (es.afterColon + (JsonText(es.v) +
      (es.after + if es.Entry? then [COMMA] + EntriesText(es.rest) else []))))))
  }

  function Max(a: nat, b: nat): nat { if a < b then b else a }

  /** Containers nested inside each other. */
  function Depth(j: Json): nat {
    match j
    case JEmptyArray(_) => 1
    case JEmptyObject(_) => 1
    case JArray(elems) => 1 + ElementsDepth(elems)
    case JObject(members) => 1 + EntriesDepth(members)
    case _ => 0
  }

  function ElementsDepth(es: Elements): nat {
    Max(Depth(es.v), if es.Element? then ElementsDepth(es.rest) else 0)
  }

  function EntriesDepth(es: Entries): nat {
    Max(Depth(es.v), if es.Entry? then EntriesDepth(es.rest) else 0)
  }

  // ---------------------------------------------------------------- JSON inside brackets

  lemma {:induction false} JsonStringIsBody(s: bytes)
    requires JsonString(s)
    ensures StringBody(s)
    decreases |s|
  {
    if s != [] {
      JsonStringIsBody(s[if s[0] != BACKSLASH then 1 else if s[1] == LOWER_U then 6 else 2..]);
    }
  }

  predicate AllPlain(s: bytes) { forall k :: 0 <= k < |s| ==> IsPlain(s[k]) }

  function Plains(s: bytes, rest: Items): Items
    decreases |s|
  {
    if s == [] then rest else Plain(s[0], Plains(s[1..], rest))
  }

  lemma {:induction false} PlainsFacts(s: bytes, rest: Items)
    requires AllPlain(s) && rest.Valid()
    ensures var t := Plains(s, rest); t.Valid() && t.Text() == s + rest.Text() && t.Depth() == rest.Depth()
    decreases |s|
  {
    if s == [] {
      assert [] + rest.Text() == rest.Text();
    } else {
      PlainsFacts(s[1..], rest);
      assert s + rest.Text() == [s[0]] + (s[1..] + rest.Text());
    }
  }

  lemma NumberPlain(n: Number)
    requires n.Valid()
    ensures AllPlain(n.Text())
  {
    assert AllPlain(n.sign) && AllPlain(n.whole);
    assert AllPlain(n.frac) by {
      assert forall k :: 1 <= k < |n.frac| ==> n.frac[k] == n.frac[1..][k - 1];
    }
    assert AllPlain(n.exp) by {
      if n.exp != [] {
        var d := if n.exp[1] == PLUS || n.exp[1] == MINUS then 2 else 1;
        assert forall k :: d <= k < |n.exp| ==> n.exp[k] == n.exp[d..][k - d];
      }
    }
    AllPlainConcat(n.sign, n.whole);
    AllPlainConcat(n.sign + n.whole, n.frac);
    AllPlainConcat(n.sign + n.whole + n.frac, n.exp);
  }

  lemma AllPlainConcat(s: bytes, t: bytes)
    requires AllPlain(s) && AllPlain(t)
    ensures AllPlain(s + t)
  {
  }

  function Embed(j: Json, rest: Items): Items
    decreases j
  {
    match j
    case JString(body) => Str(body, rest)
    case JNumber(n) => Plains(n.Text(), rest)
    case JTrue => Plains(TRUE, rest)
    case JFalse => Plains(FALSE, rest)
    case JNull => Plains(NULL, rest)
    case JEmptyArray(blank) => Group(LBRACKET, Plains(blank, Nil), rest)
    case JArray(elems) => Group(LBRACKET, EmbedElements(elems), rest)
    case JEmptyObject(blank) => Group(LBRACE, Plains(blank, Nil), rest)
    case JObject(members) => Group(LBRACE, EmbedEntries(members), rest)
  }

  function EmbedElements(es: Elements): Items
    decreases es
  {
    Plains(es.before, Embed(es.v, Plains(es.after, if es.Element? then Plain(COMMA, EmbedElements(es.rest)) else Nil)))
  }

  function EmbedEntries(es: Entries): Items
    decreases es
  {
    Plains(es.before, Str(es.key, Plains(es.afterKey, Plain(COLON, Plains(es.afterColon, Embed(es.v,
      Plains(es.after, if es.Entry? then Plain(COMMA, EmbedEntries(es.rest)) else Nil)))))))
  }

  /** Every JSON value reads as bracket items with the same text and the same nesting. */
  lemma {:induction false} EmbedFacts(j: Json, rest: Items)
    requires JsonOk(j) && rest.Valid()
    ensures var t := Embed(j, rest);
            t.Valid() && t.Text() == JsonText(j) + rest.Text() && t.Depth() == Max(Depth(j), rest.Depth())
    decreases j
  {
    hide StringBody, JsonString, AllPlain, Number.Valid, Number.Text, Plains, EmbedElements, EmbedEntries;
    match j
    case JString(body) =>
      JsonStringIsBody(body);
    case JNumber(n) =>
      NumberPlain(n);
      PlainsFacts(n.Text(), rest);
    case JEmptyArray(blank) =>
      BlankPlain(blank);
      PlainsFacts(blank, Nil);
      assert blank + [] == blank;
    case JEmptyObject(blank) =>
      BlankPlain(blank);
      PlainsFacts(blank, Nil);
      assert blank + [] == blank;
    case JArray(elems) =>
      EmbedElementsFacts(elems);
    case JObject(members) =>
      EmbedEntriesFacts(members);
    case _ =>
      WordPlain(j);
      PlainsFacts(JsonText(j), rest);
  }

  lemma WordPlain(j: Json)
    requires j.JTrue? || j.JFalse? || j.JNull?
    ensures AllPlain(JsonText(j))
  {
  }

  lemma BlankPlain(s: bytes)
    requires AllSpace(s)
    ensures AllPlain(s)
  {
  }

  lemma {:induction false} EmbedElementsFacts(es: Elements)
    requires ElementsOk(es)
    ensures var t := EmbedElements(es); t.Valid() && t.Text() == ElementsText(es) && t.Depth() == ElementsDepth(es)
    decreases es
  {
    hide AllSpace, AllPlain, Plains, Embed, JsonText, Depth, JsonOk;
    BlankPlain(es.before);
    BlankPlain(es.after);
    var tail := Nil;
    if es.Element? {
      EmbedElementsFacts(es.rest);
      tail := Plain(COMMA, EmbedElements(es.rest));
    }
    PlainsFacts(es.after, tail);
    EmbedFacts(es.v, Plains(es.after, tail));
    PlainsFacts(es.before, Embed(es.v, Plains(es.after, tail)));
  }

  lemma {:induction false} EmbedEntriesFacts(es: Entries)
    requires EntriesOk(es)
    ensures var t := EmbedEntries(es); t.Valid() && t.Text() == EntriesText(es) && t.Depth() == EntriesDepth(es)
    decreases es
  {
    hide AllSpace, AllPlain, Plains, Embed, JsonText, Depth, JsonOk, StringBody, JsonString;
    BlankPlain(es.before);
    BlankPlain(es.afterKey);
    BlankPlain(es.afterColon);
    BlankPlain(es.after);
    JsonStringIsBody(es.key);
    var tail := Nil;
    if es.Entry? {
      EmbedEntriesFacts(es.rest);
      tail := Plain(COMMA, EmbedEntries(es.rest));
    }
    PlainsFacts(es.after, tail);
    var v := Embed(es.v, Plains(es.after, tail));
    EmbedFacts(es.v, Plains(es.after, tail));
    PlainsFacts(es.afterColon, v);
    PlainsFacts(es.afterKey, Plain(COLON, Plains(es.afterColon, v)));
    PlainsFacts(es.before, Str(es.key, Plains(es.afterKey, Plain(COLON, Plains(es.afterColon, v)))));
  }

  // ---------------------------------------------------------------- scanning a JSON value

  function AsValue(j: Json): Value {
    match j
    case JString(body) => StringValue(body)
    case JNumber(n) => NumberValue(n)
    case JTrue => TrueValue
    case JFalse => FalseValue
    case JNull => NullValue
    case JEmptyArray(blank) => ContainerValue(LBRACKET, Plains(blank, Nil))
    case JArray(elems) => ContainerValue(LBRACKET, EmbedElements(elems))
    case JEmptyObject(blank) => ContainerValue(LBRACE, Plains(blank, Nil))
    case JObject(members) => ContainerValue(LBRACE, EmbedEntries(members))
  }

  lemma AsValueFacts(j: Json, cap: nat)
    requires JsonOk(j) && Depth(j) <= cap
    ensures AsValue(j).Valid(cap) && AsValue(j).Text() == JsonText(j)
  {
    hide Plains, EmbedElements, EmbedEntries, StringBody, JsonString, AllSpace;
    match j
    case JString(body) => JsonStringIsBody(body);
    case JEmptyArray(blank) => BlankPlain(blank); PlainsFacts(blank, Nil); assert blank + [] == blank;
    case JEmptyObject(blank) => BlankPlain(blank); PlainsFacts(blank, Nil); assert blank + [] == blank;
    case JArray(elems) => EmbedElementsFacts(elems);
    case JObject(members) => EmbedEntriesFacts(members);
    case _ =>
  }

  function KindOf(j: Json): Kind {
    match j
    case JString(_) => KString
    case JNumber(_) => KNumber
    case JTrue => KTrue
    case JFalse => KFalse
    case JNull => KNull
    case JEmptyArray(_) => KArray
    case JArray(_) => KArray
    case JEmptyObject(_) => KObject
    case JObject(_) => KObject
  }

  /** Completeness of `scanValue`: a JSON value of nesting at most 256, anywhere in a datagram and
      followed by anything that cannot continue a number, is read to its exact end with its kind. */
  lemma ScanValueComplete(b: bytes, i: nat, j: Json)
    requires JsonOk(j) && Depth(j) <= MAX_SCAN_DEPTH
    requires At(b, i, JsonText(j)) && Delimited(b, i + |JsonText(j)|)
    ensures i < |b| && ValueEnd(b, i, MAX_SCAN_DEPTH) == Some((i + |JsonText(j)|, KindOf(j)))
  {
    hide At, ValueEnd;
    AsValueFacts(j, MAX_SCAN_DEPTH);
    ValueEndComplete(b, i, AsValue(j), MAX_SCAN_DEPTH);
  }

  // ---------------------------------------------------------------- scanning a JSON object

  function FieldsOf(es: Entries): (r: seq<Field>)
    ensures r != []
  {
    [Field(es.before, es.key, es.afterKey, es.afterColon, JsonText(es.v), es.after)] +
    if es.Entry? then FieldsOf(es.rest) else []
  }

  /** Raw key and value text of every member, in order. */
  function EntryPairs(es: Entries): seq<(bytes, bytes)> {
    [(es.key, JsonText(es.v))] + if es.Entry? then EntryPairs(es.rest) else []
  }

  lemma {:induction false} FieldsOfFacts(es: Entries, cap: nat)
    requires EntriesOk(es) && EntriesDepth(es) <= cap
    ensures AllValid(FieldsOf(es), cap) && Join(FieldsOf(es)) == EntriesText(es)
            && Pairs(FieldsOf(es)) == EntryPairs(es)
    decreases es
  {
    hide AllSpace, StringBody, JsonString, JsonText, Depth, JsonOk, Join, Field.Text, ValueText;
    var f := Field(es.before, es.key, es.afterKey, es.afterColon, JsonText(es.v), es.after);
    JsonStringIsBody(es.key);
    AsValueFacts(es.v, cap);
    ValueTextOf(AsValue(es.v), cap);
    if es.Entry? {
      FieldsOfFacts(es.rest, cap);
      JoinCons(f, FieldsOf(es.rest));
      EntryText(es, f, [COMMA] + EntriesText(es.rest));
    } else {
      assert [f] + [] == [f];
      JoinOne(f);
      EntryText(es, f, []);
      assert f.Text() + [] == f.Text();
    }
  }

  lemma ValueTextOf(v: Value, cap: nat)
    requires v.Valid(cap)
    ensures ValueText(v.Text(), cap)
  {
  }

  lemma EntryText(es: Entries, f: Field, tail: bytes)
    requires f == Field(es.before, es.key, es.afterKey, es.afterColon, JsonText(es.v), es.after)
    ensures f.Text() + tail == es.before + (([QUOTE] + (es.key + [QUOTE])) + (es.afterKey + ([COLON] + (es.afterColon +
              (JsonText(es.v) + (es.after + tail))))))
  {
    hide JsonText;
    var v := JsonText(es.v);
    var r := es.after + tail;
    assert (es.afterColon + v) + r == es.afterColon + (v + r);
    var c := [COLON] + (es.afterColon + v);
    assert c + r == [COLON] + (es.afterColon + (v + r));
    assert (es.afterKey + c) + r == es.afterKey + (c + r);
    assert f.Core() + r == ([QUOTE] + (es.key + [QUOTE])) + ((es.afterKey + c) + r);
    assert f.Text() + tail == es.before + (f.Core() + r);
  }

  /** The object as the top-level walk sees it. */
  function ObjectScan(before: bytes, j: Json, after: bytes): Scan
    requires j.JObject? || j.JEmptyObject?
  {
    if j.JEmptyObject? then EmptyObject(before, j.blank, after) else Members(Doc(before, FieldsOf(j.members), after))
  }

  /** Nesting below the top-level braces. */
  function InnerDepth(j: Json): nat { if j.JObject? then EntriesDepth(j.members) else 0 }

  /** A JSON object whose member values nest at most `cap` deep, with any blanks before and any bytes
      behind it, is never malformed: the walk finds its members, in order, as written. */
  lemma ScanObjectOfJson(before: bytes, j: Json, after: bytes, cap: nat)
    requires AllSpace(before) && JsonOk(j) && (j.JObject? || j.JEmptyObject?) && InnerDepth(j) <= cap
    ensures ScanObject(before + (JsonText(j) + after), cap) == ObjectScan(before, j, after)
  {
    hide AllSpace, Join, ScanObject, At;
    var b := before + (JsonText(j) + after);
    if j.JObject? {
      FieldsOfFacts(j.members, cap);
      var doc := Doc(before, FieldsOf(j.members), after);
      assert JsonText(j) + after == [LBRACE] + ((EntriesText(j.members) + [RBRACE]) + after);
      ScanObjectExact(b, cap, doc);
    } else {
      ScanEmptyObject(before, j.blank, after, cap);
      assert JsonText(j) + after == [LBRACE] + (j.blank + ([RBRACE] + after));
    }
  }

  lemma ScanEmptyObject(before: bytes, blank: bytes, after: bytes, cap: nat)
    requires AllSpace(before) && AllSpace(blank)
    ensures ScanObject(before + ([LBRACE] + (blank + ([RBRACE] + after))), cap) == EmptyObject(before, blank, after)
  {
    hide AllSpace, At, SpaceEnd, FieldsFrom, ScanObject;
    var b := before + ([LBRACE] + (blank + ([RBRACE] + after)));
    var i := |before|;
    AtAll(b);
    SpaceThen(b, 0, before, [LBRACE] + (blank + ([RBRACE] + after)));
    AtConcat(b, i, [LBRACE], blank + ([RBRACE] + after));
    SpaceThen(b, i + 1, blank, [RBRACE] + after);
    AtConcat(b, i + 1 + |blank|, [RBRACE], after);
    AtTail(b, i + 2 + |blank|, after);
    assert b[..i] == b[0..i];
    EmptyObjectIs(b, i, i + 1 + |blank|, cap);
  }

  lemma EmptyObjectIs(b: bytes, i: nat, j: nat, cap: nat)
    requires SpaceEnd(b, 0) == i < j < |b| && b[i] == LBRACE && SpaceEnd(b, i + 1) == j && b[j] == RBRACE
    ensures ScanObject(b, cap) == EmptyObject(b[..i], b[i + 1..j], b[j + 1..])
  {
    hide SpaceEnd, FieldsFrom;
  }

  // ---------------------------------------------------------------- JSON texts

  /** `b` is one JSON object with nothing around it. */
  ghost predicate ObjectText(b: bytes, j: Json) { JsonOk(j) && (j.JObject? || j.JEmptyObject?) && JsonText(j) == b }

  /** `b` is a JSON text in the sense of RFC 8259 section 2. */
  ghost predicate JsonDocument(b: bytes) {
    exists before: bytes, j: Json, after: bytes ::
      AllSpace(before) && AllSpace(after) && JsonOk(j) && b == before + (JsonText(j) + after)
  }

  lemma {:induction false} DepthBound(j: Json)
    ensures Depth(j) <= |JsonText(j)|
    decreases j
  {
    match j
    case JArray(elems) => ElementsDepthBound(elems);
    case JObject(members) => EntriesDepthBound(members);
    case _ =>
  }

  lemma {:induction false} ElementsDepthBound(es: Elements)
    ensures ElementsDepth(es) <= |ElementsText(es)|
    decreases es
  {
    DepthBound(es.v);
    if es.Element? {
      ElementsDepthBound(es.rest);
    }
  }

  lemma {:induction false} EntriesDepthBound(es: Entries)
    ensures EntriesDepth(es) <= |EntriesText(es)|
    decreases es
  {
    DepthBound(es.v);
    if es.Entry? {
      EntriesDepthBound(es.rest);
    }
  }

  /** The raw members of a JSON object are what the walk finds at a large enough cap. */
  lemma MembersOfObject(b: bytes, j: Json)
    requires ObjectText(b, j)
    ensures MembersOf(b) == Some(if j.JObject? then EntryPairs(j.members) else [])
  {
    hide ScanObject, JsonText, AllSpace;
    DepthBound(j);
    JsonObjectDepth(j);
    AllSpaceNil();
    ScanObjectOfJson([], j, [], |b| + MAX_SCAN_DEPTH);
    assert [] + (JsonText(j) + []) == b;
    if j.JObject? {
      FieldsOfFacts(j.members, |b| + MAX_SCAN_DEPTH);
    }
  }

  lemma AllSpaceNil()
    ensures AllSpace([])
  {
  }

  lemma JsonObjectDepth(j: Json)
    ensures j.JObject? ==> EntriesDepth(j.members) < Depth(j)
  {
  }

  lemma JsonHead(j: Json)
    requires JsonOk(j)
    ensures JsonText(j) != [] && !IsSpace(JsonText(j)[0])
    ensures JsonText(j)[0] == LBRACE <==> j.JObject? || j.JEmptyObject?
  {
    if j.JNumber? {
      NumberFirstByte(j.n);
    }
  }

  /** A JSON text that starts with a brace and does not end in a blank is one object, bare. */
  lemma BareObject(b: bytes) returns (j: Json)
    requires JsonDocument(b) && |b| > 0 && b[0] == LBRACE && !IsSpace(b[|b| - 1])
    ensures ObjectText(b, j)
  {
    hide JsonText, JsonOk;
    var before, v, after :|
      AllSpace(before) && AllSpace(after) && JsonOk(v) && b == before + (JsonText(v) + after);
    j := v;
    JsonHead(j);
    NoBlankEdges(b, before, JsonText(j), after);
    assert b == JsonText(j);
  }

  lemma NoBlankEdges(b: bytes, before: bytes, mid: bytes, after: bytes)
    requires AllSpace(before) && AllSpace(after) && mid != [] && b == before + (mid + after)
    requires !IsSpace(b[0]) && !IsSpace(b[|b| - 1])
    ensures before == [] && after == []
  {
    Edges(before, mid + after);
    Edges(before + mid, after);
    assert (before + mid) + after == b;
  }

  lemma Edges(s: bytes, t: bytes)
    ensures s != [] ==> (s + t)[0] == s[0]
    ensures t != [] ==> (s + t)[|s + t| - 1] == t[|t| - 1]
  {
  }

  // ---------------------------------------------------------------- nesting beyond the cap

  lemma {:induction false} DeepEntry(es: Entries, cap: nat) returns (k: nat, v: Json)
    requires EntriesOk(es) && EntriesDepth(es) > cap
    ensures k < |FieldsOf(es)| && FieldsOf(es)[k].value == JsonText(v) && JsonOk(v) && Depth(v) > cap
    decreases es
  {
    if Depth(es.v) > cap {
      k, v := 0, es.v;
    } else {
      k, v := DeepEntry(es.rest, cap);
      k := k + 1;
    }
  }

  lemma DeepValueRefused(j: Json, cap: nat)
    requires JsonOk(j) && Depth(j) > cap
    ensures !ValueText(JsonText(j), cap)
  {
    var s := JsonText(j);
    AsValueFacts(j, Depth(j));
    AsValueDepth(j);
    var t := AsValue(j);
    AtAll(s);
    forall v: Value | v.Valid(cap) && v.Text() == s
      ensures false
    {
      ValueEndComplete(s, 0, v, cap);
      ContainerOverflow(s, 0, t.open, t.items, cap);
    }
  }

  lemma AsValueDepth(j: Json)
    requires JsonOk(j) && Depth(j) > 0
    ensures AsValue(j).ContainerValue? && 1 + AsValue(j).items.Depth() == Depth(j)
  {
    hide AllSpace, Plains, EmbedElements, EmbedEntries;
    match j
    case JEmptyArray(blank) => BlankPlain(blank); PlainsFacts(blank, Nil);
    case JEmptyObject(blank) => BlankPlain(blank); PlainsFacts(blank, Nil);
    case JArray(elems) => EmbedElementsFacts(elems);
    case JObject(members) => EmbedEntriesFacts(members);
  }

  /** A JSON object is called malformed exactly when some member value nests more than 256 deep,
      whatever blanks stand before it and whatever bytes behind it. */
  lemma MalformedExactly(before: bytes, j: Json, after: bytes)
    requires AllSpace(before) && JsonOk(j) && (j.JObject? || j.JEmptyObject?)
    ensures ScanObject(before + (JsonText(j) + after), MAX_SCAN_DEPTH) == Malformed <==> InnerDepth(j) > MAX_SCAN_DEPTH
  {
    hide AllSpace, ScanObject, JsonText;
    var b := before + (JsonText(j) + after);
    if InnerDepth(j) <= MAX_SCAN_DEPTH {
      ScanObjectOfJson(before, j, after, MAX_SCAN_DEPTH);
    } else {
      ScanObjectOfJson(before, j, after, InnerDepth(j));
      ScanWiden(b, MAX_SCAN_DEPTH, InnerDepth(j));
      if ScanObject(b, MAX_SCAN_DEPTH).Members? {
        var doc := ScanObject(b, MAX_SCAN_DEPTH).doc;
        ScanObjectExact(b, MAX_SCAN_DEPTH, doc);
        var k, v := DeepEntry(j.members, MAX_SCAN_DEPTH);
        DeepValueRefused(v, MAX_SCAN_DEPTH);
        assert false;
      }
      if ScanObject(b, MAX_SCAN_DEPTH) == NotObject {
        NotObjectAtAnyCap(b, MAX_SCAN_DEPTH, InnerDepth(j));
      }
    }
  }
}
