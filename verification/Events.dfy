/** Validation, timestamping and batch encoding of events. */
module Events {
  import opened Bytes
  import opened Tokens
  import opened Documents
  import opened Laws
  import opened Rfc8259

  /** The standard library's part: the JSON validity check and the decoding of a raw object key. */
  datatype Std = Std(valid: bytes -> bool, decodeKey: bytes -> Option<bytes>) {
    /** Whatever the validity check accepts is a JSON text (it may refuse some, such as very deep ones). */
    ghost predicate Sound() { forall b :: valid(b) ==> JsonDocument(b) }
  }

  datatype Verdict = Oversize | ParseError | Accepted(event: bytes)

  /** The nine letters `timestamp`. */
  const TIMESTAMP: bytes := [0x74, 0x69, 0x6D, 0x65, 0x73, 0x74, 0x61, 0x6D, 0x70]

  // ---------------------------------------------------------------- trimming

  /** End of `b[start..end]` without its trailing blanks. */
  function TrimEnd(b: bytes, start: nat, end: nat): (r: nat)
    requires start <= end <= |b|
    ensures start <= r <= end && AllSpace(b[r..end]) && (r > start ==> !IsSpace(b[r - 1]))
    decreases end
  {
    if end > start && IsSpace(b[end - 1]) then
      var r := TrimEnd(b, start, end - 1);
      assert b[r..end] == b[r..end - 1] + [b[end - 1]];
      r
    else end
  }

  predicate IsGoSpace(c: byte) { IsSpace(c) || c == 0x0B || c == 0x0C }

  function DropSpaces(s: bytes): bytes
    decreases |s|
  {
    if s != [] && IsGoSpace(s[0]) then DropSpaces(s[1..]) else s
  }

  function TakeSpaces(s: bytes): bytes
    decreases |s|
  {
    if s != [] && IsGoSpace(s[|s| - 1]) then TakeSpaces(s[..|s| - 1]) else s
  }

  /** `bytes.TrimSpace` on text that neither starts nor ends with a byte from 0x80 up. */
  function TrimSpace(s: bytes): bytes { TakeSpaces(DropSpaces(s)) }

  lemma {:induction false} DropSpacesOf(w: bytes, s: bytes)
    requires AllSpace(w) && (s == [] || !IsGoSpace(s[0]))
    ensures DropSpaces(w + s) == s
    decreases |w|
  {
    if w == [] {
      assert w + s == s;
    } else {
      assert (w + s)[1..] == w[1..] + s;
      DropSpacesOf(w[1..], s);
    }
  }

  lemma {:induction false} TakeSpacesOf(s: bytes, w: bytes)
    requires AllSpace(w) && (s == [] || !IsGoSpace(s[|s| - 1]))
    ensures TakeSpaces(s + w) == s
    decreases |w|
  {
    if w == [] {
      assert s + w == s;
    } else {
      assert (s + w)[..|s + w| - 1] == s + w[..|w| - 1];
      TakeSpacesOf(s, w[..|w| - 1]);
    }
  }

  lemma TrimSpaceOf(w: bytes, s: bytes, w': bytes)
    requires AllSpace(w) && AllSpace(w') && s != [] && !IsGoSpace(s[0]) && !IsGoSpace(s[|s| - 1])
    ensures TrimSpace(w + (s + w')) == s
  {
    DropSpacesOf(w, s + w');
    TakeSpacesOf(s, w');
  }

  lemma TrimSpaceBlank(w: bytes)
    requires AllSpace(w)
    ensures TrimSpace(w) == []
  {
    DropSpacesOf(w, []);
    assert w + [] == w;
  }

  // ---------------------------------------------------------------- injecting the timestamp

  /** The key with its quotes and colon. */
  const TIMESTAMP_FIELD: bytes := ([QUOTE] + (TIMESTAMP + [QUOTE])) + [COLON]

  function Inject(obj: bytes, value: bytes): bytes
    requires |obj| >= 2
  {
    var inner := TrimSpace(obj[1..|obj| - 1]);
    [LBRACE] + TIMESTAMP_FIELD + value + (if inner == [] then [] else [COMMA] + inner) + [RBRACE]
  }

  method InjectTopLevelField(obj: bytes, keyColon: bytes, value: bytes) returns (out: bytes)
    requires |obj| >= 2 && keyColon == TIMESTAMP_FIELD
    ensures out == Inject(obj, value)
  {
    out := [];
    out := out + [LBRACE];
    out := out + keyColon;
    out := out + value;
    var inner := TrimSpace(obj[1..|obj| - 1]);
    if |inner| > 0 {
      out := out + [COMMA];
      out := out + inner;
    }
    out := out + [RBRACE];
    assert out == Inject(obj, value) by {
      if inner != [] {
        assert out == ((([LBRACE] + TIMESTAMP_FIELD + value) + [COMMA]) + inner) + [RBRACE];
      }
    }
  }

  /** The members without the blanks before the first key and behind the last value. */
  function TrimLast(es: Entries): Entries {
    match es
    case LastEntry(_, _, _, _, _, _) => es.(after := [])
    case Entry(_, _, _, _, _, _, rest) => es.(rest := TrimLast(rest))
  }

  function LastAfter(es: Entries): bytes { if es.LastEntry? then es.after else LastAfter(es.rest) }

  lemma JsonTail(j: Json)
    requires JsonOk(j)
    ensures JsonText(j) != [] && !IsGoSpace(JsonText(j)[|JsonText(j)| - 1])
  {
    match j
    case JNumber(n) =>
      NumberTail(n);
    case _ =>
  }

  lemma NumberTail(n: Number)
    requires n.Valid()
    ensures n.Text() != [] && IsDigit(n.Text()[|n.Text()| - 1])
  {
    var t := n.Text();
    var last := if n.exp != [] then n.exp else if n.frac != [] then n.frac else n.whole;
    assert t[|t| - 1] == last[|last| - 1];
    if n.exp != [] {
      var k := if n.exp[1] == PLUS || n.exp[1] == MINUS then 2 else 1;
      assert last[|last| - 1] == n.exp[k..][|n.exp| - k - 1];
    } else if n.frac != [] {
      assert last[|last| - 1] == n.frac[1..][|n.frac| - 2];
    }
  }

  lemma {:induction false} TrimLastFacts(es: Entries)
    requires EntriesOk(es)
    ensures EntriesOk(TrimLast(es)) && EntryPairs(TrimLast(es)) == EntryPairs(es) && TrimLast(es).before == es.before
    ensures AllSpace(LastAfter(es))
    ensures EntriesText(es) == EntriesText(TrimLast(es)) + LastAfter(es)
    ensures var t := EntriesText(TrimLast(es)); t != [] && !IsGoSpace(t[|t| - 1])
    decreases es
  {
    hide JsonText, JsonOk, JsonString, AllSpace;
    var f := Field(es.before, es.key, es.afterKey, es.afterColon, JsonText(es.v), es.after);
    var g := Field(es.before, es.key, es.afterKey, es.afterColon, JsonText(es.v), []);
    if es.Entry? {
      TrimLastFacts(es.rest);
      var r := EntriesText(TrimLast(es.rest));
      EntryText(es, f, [COMMA] + EntriesText(es.rest));
      EntryText(TrimLast(es), f, [COMMA] + r);
      assert f.Text() + ([COMMA] + (r + LastAfter(es))) == (f.Text() + ([COMMA] + r)) + LastAfter(es);
      LastOfConcat(f.Text(), [COMMA] + r);
      LastOfConcat([COMMA], r);
    } else {
      AllSpaceNil();
      JsonTail(es.v);
      EntryText(es, f, []);
      EntryText(TrimLast(es), g, []);
      GapText(f, g);
      assert f.Text() + [] == f.Text() && g.Text() + [] == g.Text();
    }
  }

  lemma LastOfConcat(s: bytes, t: bytes)
    requires t != []
    ensures (s + t)[|s + t| - 1] == t[|t| - 1]
  {
  }

  /** Dropping the trailing blanks of a member drops them from its text. */
  lemma GapText(f: Field, g: Field)
    requires g == f.(after := []) && f.value != []
    ensures f.Text() == g.Text() + f.after && g.Text() != [] && g.Text()[|g.Text()| - 1] == f.value[|f.value| - 1]
  {
    assert g.Core() == f.Core();
    assert f.Core() + [] == f.Core();
    assert f.Core() == (([QUOTE] + (f.key + [QUOTE])) + (f.afterKey + ([COLON] + f.afterColon))) + f.value;
    assert f.before + (f.Core() + f.after) == (f.before + f.Core()) + f.after;
    LastOfConcat(([QUOTE] + (f.key + [QUOTE])) + (f.afterKey + ([COLON] + f.afterColon)), f.value);
    LastOfConcat(f.before, f.Core());
  }

  /** The injected object in syntax trees. */
  function InjectedEntries(j: Json, stamp: bytes): Entries {
    if j.JObject? then Entry([], TIMESTAMP, [], [], JString(stamp), [], TrimLast(j.members.(before := [])))
    else LastEntry([], TIMESTAMP, [], [], JString(stamp), [])
  }

  lemma TrimmedMembers(es: Entries)
    requires EntriesOk(es)
    ensures TrimSpace(EntriesText(es)) == EntriesText(TrimLast(es.(before := [])))
    ensures EntriesText(TrimLast(es.(before := []))) != []
  {
    hide JsonText, JsonOk, JsonString, AllSpace, EntriesOk;
    var bare := es.(before := []);
    EntriesOkBare(es);
    TrimLastFacts(bare);
    EntriesTextBefore(es);
    EntriesHead(TrimLast(bare));
    TrimSpaceOf(es.before, EntriesText(TrimLast(bare)), LastAfter(bare));
  }

  lemma EntriesOkBare(es: Entries)
    requires EntriesOk(es)
    ensures AllSpace(es.before) && EntriesOk(es.(before := []))
  {
  }

  lemma EntriesTextBefore(es: Entries)
    ensures EntriesText(es) == es.before + EntriesText(es.(before := []))
  {
    hide JsonText;
  }

  lemma EntriesHead(es: Entries)
    requires es.before == []
    ensures EntriesText(es) != [] && EntriesText(es)[0] == QUOTE
  {
    hide JsonText;
  }

  lemma InjectedEntriesOk(j: Json, stamp: bytes)
    requires JsonOk(j) && (j.JObject? || j.JEmptyObject?) && JsonString(stamp)
    ensures EntriesOk(InjectedEntries(j, stamp))
    ensures EntryPairs(InjectedEntries(j, stamp)) ==
            [(TIMESTAMP, [QUOTE] + (stamp + [QUOTE]))] + (if j.JObject? then EntryPairs(j.members) else [])
  {
    hide JsonString, AllSpace, EntriesText;
    TimestampKey();
    AllSpaceNil();
    if j.JObject? {
      EntriesOkBare(j.members);
      TrimLastFacts(j.members.(before := []));
      assert EntryPairs(j.members.(before := [])) == EntryPairs(j.members);
    }
  }

  lemma InjectedIsObject(j: Json, stamp: bytes)
    requires JsonOk(j) && (j.JObject? || j.JEmptyObject?) && |JsonText(j)| >= 2
    ensures Inject(JsonText(j), [QUOTE] + (stamp + [QUOTE])) == JsonText(JObject(InjectedEntries(j, stamp)))
  {
    hide JsonString, AllSpace, EntriesText, TrimSpace;
    var value, obj := [QUOTE] + (stamp + [QUOTE]), JsonText(j);
    var es := InjectedEntries(j, stamp);
    if j.JObject? {
      assert obj[1..|obj| - 1] == EntriesText(j.members);
      TrimmedMembers(j.members);
      InjectedText(es, EntriesText(es.rest), value);
    } else {
      assert obj[1..|obj| - 1] == j.blank;
      TrimSpaceBlank(j.blank);
      InjectedText(es, [], value);
    }
  }

  /** Injection turns a JSON object into a JSON object whose members are the timestamp followed by the
      old members, unchanged and in order. */
  lemma InjectCorrect(obj: bytes, j: Json, stamp: bytes, members: seq<(bytes, bytes)>)
    requires |obj| >= 2 && ObjectText(obj, j) && JsonString(stamp) && MembersOf(obj) == Some(members)
    ensures var value := [QUOTE] + (stamp + [QUOTE]);
            && ObjectText(Inject(obj, value), JObject(InjectedEntries(j, stamp)))
            && MembersOf(Inject(obj, value)) == Some([(TIMESTAMP, value)] + members)
  {
    hide JsonString, MembersOf, Inject, EntriesOk, JsonText, InjectedEntries, EntryPairs;
    var es := InjectedEntries(j, stamp);
    MembersOfObject(obj, j);
    InjectedIsObject(j, stamp);
    InjectedEntriesOk(j, stamp);
    MembersOfObject(Inject(obj, [QUOTE] + (stamp + [QUOTE])), JObject(es));
  }

  lemma TimestampKey()
    ensures JsonString(TIMESTAMP)
  {
    JsonPlain(TIMESTAMP);
  }

  lemma {:induction false} JsonPlain(s: bytes)
    requires forall k :: 0 <= k < |s| ==> s[k] >= 0x20 && s[k] != QUOTE && s[k] != BACKSLASH
    ensures JsonString(s)
    decreases |s|
  {
    if s != [] {
      JsonPlain(s[1..]);
    }
  }

  lemma InjectedText(es: Entries, rest: bytes, value: bytes)
    requires es.before == [] && es.key == TIMESTAMP && es.afterKey == [] && es.afterColon == [] && es.after == []
    requires value == JsonText(es.v) && (es.Entry? ==> rest == EntriesText(es.rest))
    ensures [LBRACE] + EntriesText(es) + [RBRACE] ==
            [LBRACE] + TIMESTAMP_FIELD + value + (if es.Entry? then [COMMA] + rest else []) + [RBRACE]
  {
    hide JsonText;
    var tail := if es.Entry? then [COMMA] + rest else [];
    var t := value + tail;
    var k := [QUOTE] + (TIMESTAMP + [QUOTE]);
    assert [] + tail == tail && [] + t == t && [] + ([COLON] + t) == [COLON] + t;
    assert [] + (k + ([COLON] + t)) == (k + [COLON]) + t;
    LeftNested(TIMESTAMP_FIELD, value, tail);
  }

  lemma LeftNested(field: bytes, value: bytes, tail: bytes)
    ensures [LBRACE] + (field + (value + tail)) == [LBRACE] + field + value + tail
  {
  }

  lemma TrimSpaceShrinks(s: bytes)
    ensures |TrimSpace(s)| <= |s|
  {
    DropShrinks(s);
    TakeShrinks(DropSpaces(s));
  }

  lemma {:induction false} DropShrinks(s: bytes)
    ensures |DropSpaces(s)| <= |s|
    decreases |s|
  {
    if s != [] {
      DropShrinks(s[1..]);
    }
  }

  lemma {:induction false} TakeShrinks(s: bytes)
    ensures |TakeSpaces(s)| <= |s|
    decreases |s|
  {
    if s != [] {
      TakeShrinks(s[..|s| - 1]);
    }
  }

  lemma InjectSize(obj: bytes, value: bytes)
    requires |obj| >= 2
    ensures |Inject(obj, value)| <= |obj| + 13 + |value|
  {
    TrimSpaceShrinks(obj[1..|obj| - 1]);
  }

  // ---------------------------------------------------------------- validation

  predicate HasKey(std: Std, members: seq<(bytes, bytes)>, key: bytes) {
    exists k :: 0 <= k < |members| && std.decodeKey(members[k].0) == Some(key)
  }

  function TopLevelHasKey(std: Std, obj: bytes, key: bytes): bool {
    match MembersOf(obj) case None => false case Some(ms) => HasKey(std, ms, key)
  }

  /** `validateEvent`, with the clock's rendering as a parameter. */
  function Validate(std: Std, b: bytes, maxBytes: nat, stamp: bytes): Verdict {
    if |b| > maxBytes then Oversize
    else
      var start := SpaceEnd(b, 0);
      var end := TrimEnd(b, start, |b|);
      if end - start < 2 || b[start] != LBRACE || b[end - 1] != RBRACE || !std.valid(b[start..end]) then ParseError
      else if TopLevelHasKey(std, b[start..end], TIMESTAMP) then Accepted(b[start..end])
      else Accepted(Inject(b[start..end], [QUOTE] + (stamp + [QUOTE])))
  }

  method ValidateEvent(std: Std, b: bytes, maxBytes: nat, stamp: bytes) returns (v: Verdict)
    ensures v == Validate(std, b, maxBytes, stamp)
  {
    hide TopLevelHasKey, Inject;
    if |b| > maxBytes {
      return Oversize;
    }
    if |b| == 0 {
      return ParseError;
    }
    var start := 0;
    while start < |b| && IsSpace(b[start])
      invariant start <= |b| && SpaceEnd(b, start) == SpaceEnd(b, 0)
    {
      start := start + 1;
    }
    var end := |b|;
    while end > start && IsSpace(b[end - 1])
      invariant start <= end <= |b| && TrimEnd(b, start, end) == TrimEnd(b, start, |b|)
    {
      end := end - 1;
    }
    assert start == SpaceEnd(b, 0) && end == TrimEnd(b, start, |b|);
    hide SpaceEnd, TrimEnd;
    if end - start < 2 || b[start] != LBRACE || b[end - 1] != RBRACE {
      return ParseError;
    }
    var trimmed := b[start..end];
    if !std.valid(trimmed) {
      return ParseError;
    }
    if !TopLevelHasKey(std, trimmed, TIMESTAMP) {
      trimmed := InjectTopLevelField(trimmed, TIMESTAMP_FIELD, [QUOTE] + (stamp + [QUOTE]));
    }
    return Accepted(trimmed);
  }

  /** The members an accepted event must have: the old ones, and a timestamp in front exactly when no
      key of the old ones decodes to `timestamp`. */
  function Stamped(std: Std, members: seq<(bytes, bytes)>, stamp: bytes): seq<(bytes, bytes)> {
    if exists k :: 0 <= k < |members| && std.decodeKey(members[k].0) == Some(TIMESTAMP) then members
    else [(TIMESTAMP, [QUOTE] + (stamp + [QUOTE]))] + members
  }

  lemma StampedIs(std: Std, members: seq<(bytes, bytes)>, stamp: bytes)
    ensures Stamped(std, members, stamp) ==
            if HasKey(std, members, TIMESTAMP) then members else [(TIMESTAMP, [QUOTE] + (stamp + [QUOTE]))] + members
  {
  }

  lemma ThreeParts(b: bytes, i: nat, j: nat)
    requires i <= j <= |b|
    ensures b == b[0..i] + (b[i..j] + b[j..|b|])
  {
  }

  /** Blanks before an object and bytes behind it do not change its members. */
  lemma PaddedMembers(b: bytes, before: bytes, j: Json, after: bytes)
    requires AllSpace(before) && JsonOk(j) && (j.JObject? || j.JEmptyObject?)
    requires b == before + (JsonText(j) + after)
    ensures MembersOf(b) == Some(if j.JObject? then EntryPairs(j.members) else [])
  {
    hide ScanObject, JsonText, AllSpace, JsonOk, EntriesOk, EntryPairs, FieldsOf;
    JsonObjectDepth(j);
    DepthBound(j);
    ScanObjectOfJson(before, j, after, |b| + MAX_SCAN_DEPTH);
    if j.JObject? {
      EntriesOkOf(j);
      FieldsOfFacts(j.members, |b| + MAX_SCAN_DEPTH);
    }
  }

  lemma EntriesOkOf(j: Json)
    requires j.JObject? && JsonOk(j)
    ensures EntriesOk(j.members)
  {
  }

  /** An accepted event is one JSON object with the datagram's members, stamped. */
  lemma ValidateCorrect(std: Std, b: bytes, maxBytes: nat, stamp: bytes) returns (j: Json)
    requires std.Sound() && JsonString(stamp) && Validate(std, b, maxBytes, stamp).Accepted?
    ensures var ev := Validate(std, b, maxBytes, stamp).event;
            && ObjectText(ev, j) && MembersOf(b).Some?
            && MembersOf(ev) == Some(Stamped(std, MembersOf(b).value, stamp))
            && |ev| <= maxBytes + 15 + |stamp|
  {
    hide Inject, MembersOf, HasKey, JsonText, JsonOk, AllSpace, JsonString, EntryPairs, JsonDocument;
    var start := SpaceEnd(b, 0);
    var obj := b[start..TrimEnd(b, start, |b|)];
    assert std.valid(obj);
    j := BareObject(obj);
    MembersOfObject(obj, j);
    ThreeParts(b, start, TrimEnd(b, start, |b|));
    PaddedMembers(b, b[0..start], j, b[TrimEnd(b, start, |b|)..|b|]);
    StampedIs(std, MembersOf(b).value, stamp);
    hide Stamped;
    if !TopLevelHasKey(std, obj, TIMESTAMP) {
      InjectSize(obj, [QUOTE] + (stamp + [QUOTE]));
      InjectCorrect(obj, j, stamp, MembersOf(obj).value);
      j := JObject(InjectedEntries(j, stamp));
    }
  }

  // ---------------------------------------------------------------- which verdict

  /** The datagram is this object with blanks around it: it starts and ends with braces, and is valid JSON. */
  ghost predicate Wraps(std: Std, b: bytes, w: bytes, obj: bytes, w': bytes) {
    && AllSpace(w) && AllSpace(w') && b == w + (obj + w')
    && |obj| >= 2 && obj[0] == LBRACE && obj[|obj| - 1] == RBRACE && std.valid(obj)
  }

  lemma {:induction false} TrimEndComplete(b: bytes, start: nat, mid: nat, end: nat)
    requires start < mid <= end <= |b| && !IsSpace(b[mid - 1]) && AllSpace(b[mid..end])
    ensures TrimEnd(b, start, end) == mid
    decreases end
  {
    if mid < end {
      assert b[end - 1] == b[mid..end][end - 1 - mid];
      assert b[mid..end - 1] == b[mid..end][..end - 1 - mid];
      TrimEndComplete(b, start, mid, end - 1);
    }
  }

  lemma Slices3(b: bytes, w: bytes, obj: bytes, w': bytes)
    requires b == w + (obj + w')
    ensures var i, j := |w|, |w| + |obj|; b[0..i] == w && b[i..j] == obj && b[j..|b|] == w'
  {
  }

  lemma Corners(b: bytes, i: nat, j: nat, obj: bytes)
    requires i < j <= |b| && b[i..j] == obj
    ensures b[i] == obj[0] && b[j - 1] == obj[|obj| - 1]
  {
  }

  lemma WrapEnds(std: Std, b: bytes, w: bytes, obj: bytes, w': bytes)
    requires Wraps(std, b, w, obj, w')
    ensures SpaceEnd(b, 0) == |w| && TrimEnd(b, |w|, |b|) == |w| + |obj| && b[|w|..|w| + |obj|] == obj
    ensures b[|w|] == obj[0] && b[|w| + |obj| - 1] == obj[|obj| - 1]
  {
    hide SpaceEnd, TrimEnd, AllSpace;
    var i, j := |w|, |w| + |obj|;
    Slices3(b, w, obj, w');
    Corners(b, i, j, obj);
    SpaceEndComplete(b, 0, w);
    TrimEndComplete(b, i, j, |b|);
  }

  /** The object as it stands when a member's key decodes to `timestamp`, and with the stamp injected when none does. */
  function Completed(std: Std, obj: bytes, stamp: bytes): bytes
    requires |obj| >= 2
  {
    if MembersOf(obj).Some? && exists m <- MembersOf(obj).value :: std.decodeKey(m.0) == Some(TIMESTAMP) then obj
    else Inject(obj, [QUOTE] + (stamp + [QUOTE]))
  }

  lemma WrapVerdict(std: Std, b: bytes, maxBytes: nat, stamp: bytes, w: bytes, obj: bytes, w': bytes)
    requires |b| <= maxBytes && Wraps(std, b, w, obj, w')
    ensures Validate(std, b, maxBytes, stamp) == Accepted(Completed(std, obj, stamp))
  {
    hide Inject, MembersOf;
    WrapEnds(std, b, w, obj, w');
    if MembersOf(obj).Some? {
      KeyAmong(std, MembersOf(obj).value, TIMESTAMP);
    }
  }

  lemma AcceptedWraps(std: Std, b: bytes, maxBytes: nat, stamp: bytes)
    ensures Validate(std, b, maxBytes, stamp) == Oversize <==> |b| > maxBytes
    ensures Validate(std, b, maxBytes, stamp).Accepted? ==> exists w, obj, w' :: Wraps(std, b, w, obj, w')
  {
    hide Inject, TopLevelHasKey;
    if Validate(std, b, maxBytes, stamp).Accepted? {
      var start := SpaceEnd(b, 0);
      var end := TrimEnd(b, start, |b|);
      ThreeParts(b, start, end);
      assert Wraps(std, b, b[0..start], b[start..end], b[end..|b|]);
    }
  }

  /** Too long is oversize; of the others, a valid object with blanks around it is accepted, completed by a
      timestamp where it has none; everything else is a parse error. */
  lemma VerdictExact(std: Std, b: bytes, maxBytes: nat, stamp: bytes)
    ensures Validate(std, b, maxBytes, stamp) == Oversize <==> |b| > maxBytes
    ensures Validate(std, b, maxBytes, stamp).Accepted? <==>
            |b| <= maxBytes && exists w, obj, w' :: Wraps(std, b, w, obj, w')
    ensures forall w, obj, w' :: |b| <= maxBytes && Wraps(std, b, w, obj, w') ==>
              Validate(std, b, maxBytes, stamp) == Accepted(Completed(std, obj, stamp))
  {
    WrapsLong();
    hide Validate, Wraps, Completed;
    AcceptedWraps(std, b, maxBytes, stamp);
    forall w, obj, w' | |b| <= maxBytes && Wraps(std, b, w, obj, w')
      ensures Validate(std, b, maxBytes, stamp) == Accepted(Completed(std, obj, stamp))
    {
      WrapVerdict(std, b, maxBytes, stamp, w, obj, w');
    }
  }

  lemma WrapsLong()
    ensures forall std: Std, b, w, obj, w' :: Wraps(std, b, w, obj, w') ==> |obj| >= 2
  {
  }

  lemma KeyAmong(std: Std, members: seq<(bytes, bytes)>, key: bytes)
    ensures HasKey(std, members, key) <==> exists m <- members :: std.decodeKey(m.0) == Some(key)
  {
    if exists m <- members :: std.decodeKey(m.0) == Some(key) {
      var m :| m in members && std.decodeKey(m.0) == Some(key);
      var k :| 0 <= k < |members| && members[k] == m;
    }
  }

  // ---------------------------------------------------------------- encoding a batch

  /** `{"events":[` and `]}`. */
  const EVENTS_KEY: bytes := [0x65, 0x76, 0x65, 0x6E, 0x74, 0x73]
  const EVENTS_PREFIX: bytes := [LBRACE] + ([QUOTE] + (EVENTS_KEY + [QUOTE])) + [COLON] + [LBRACKET]
  const EVENTS_SUFFIX: bytes := [RBRACKET, RBRACE]

  function Listed(events: seq<bytes>): bytes {
    if events == [] then []
    else if |events| == 1 then events[0]
    else Listed(events[..|events| - 1]) + [COMMA] + events[|events| - 1]
  }

  function Encode(events: seq<bytes>): bytes { EVENTS_PREFIX + Listed(events) + EVENTS_SUFFIX }

  method EncodeEventBatch(events: seq<bytes>) returns (buf: bytes)
    ensures buf == Encode(events)
  {
    buf := EVENTS_PREFIX;
    for i := 0 to |events|
      invariant buf == EVENTS_PREFIX + Listed(events[..i])
    {
      assert events[..i + 1][..i] == events[..i];
      ghost var was := Listed(events[..i]);
      if i > 0 {
        buf := buf + [COMMA];
      }
      buf := buf + events[i];
      assert buf == EVENTS_PREFIX + if i > 0 then was + [COMMA] + events[i] else events[i];
    }
    assert events[..|events|] == events;
    buf := buf + EVENTS_SUFFIX;
  }

  /** What the batcher counts while it fills a batch: every event with one separator. */
  function Weight(events: seq<bytes>): nat {
    if events == [] then 0 else Weight(events[..|events| - 1]) + |events[|events| - 1]| + 1
  }

  lemma {:induction false} ListedSize(events: seq<bytes>)
    requires events != []
    ensures |Listed(events)| + 1 == Weight(events)
    decreases |events|
  {
    if |events| > 1 {
      ListedSize(events[..|events| - 1]);
    } else {
      assert Weight(events[..0]) == 0;
    }
  }

  lemma EncodeSize(events: seq<bytes>)
    requires events != []
    ensures |Encode(events)| == Weight(events) + 12
  {
    ListedSize(events);
  }

  lemma {:induction false} ListedCons(e: bytes, rest: seq<bytes>)
    requires rest != []
    ensures Listed([e] + rest) == e + ([COMMA] + Listed(rest))
    decreases |rest|
  {
    var all, n := [e] + rest, |rest|;
    if n == 1 {
      assert all[..1] == [e];
    } else {
      assert all[..n] == [e] + rest[..n - 1];
      ListedCons(e, rest[..n - 1]);
      assert e + ([COMMA] + Listed(rest[..n - 1])) + [COMMA] + rest[n - 1] == e + ([COMMA] + Listed(rest));
    }
  }

  /** Reads the elements of an encoded array from `i`: each runs to the next comma or bracket that is
      outside every string and every nested container. */
  function SplitFrom(b: bytes, i: nat): Option<seq<bytes>>
    requires i <= |b|
    decreases |b| - i
  {
    match ValueEnd(b, i, |b|)
    case None => None
    case Some((e, _)) =>
      if e == |b| then None
      else if b[e] == COMMA then
        match SplitFrom(b, e + 1) case None => None case Some(rest) => Some([b[i..e]] + rest)
      else if b[e] == RBRACKET then Some([b[i..e]])
      else None
  }

  ghost predicate IsObject(b: bytes) { exists j: Json :: ObjectText(b, j) }

  /** Every element is one JSON object. */
  ghost predicate AllObjects(events: seq<bytes>) { forall k :: 0 <= k < |events| ==> IsObject(events[k]) }

  lemma ObjectEnd(b: bytes, i: nat, ev: bytes, c: byte)
    requires IsObject(ev) && At(b, i, ev + [c]) && (c == COMMA || c == RBRACKET)
    ensures i <= |b| && ValueEnd(b, i, |b|).Some? && ValueEnd(b, i, |b|).value.0 == i + |ev| < |b|
    ensures b[i..i + |ev|] == ev && b[i + |ev|] == c
  {
    hide JsonText, JsonOk, ValueEnd;
    var j: Json :| ObjectText(ev, j);
    AtConcat(b, i, ev, [c]);
    AtHead(b, i + |ev|, [c]);
    DepthBound(j);
    AsValueFacts(j, |b|);
    ValueEndComplete(b, i, AsValue(j), |b|);
  }

  lemma {:induction false} SplitListed(b: bytes, i: nat, events: seq<bytes>)
    requires events != [] && AllObjects(events) && At(b, i, Listed(events) + [RBRACKET])
    ensures i <= |b| && SplitFrom(b, i) == Some(events)
    decreases |events|
  {
    hide At, ValueEnd, IsObject, Listed, AllObjects;
    RestObjects(events);
    var e, rest := events[0], events[1..];
    if rest == [] {
      assert events == [e];
      ListedOne(e);
      ObjectEnd(b, i, e, RBRACKET);
    } else {
      assert events == [e] + rest;
      ListedCons(e, rest);
      assert Listed(events) + [RBRACKET] == (e + [COMMA]) + (Listed(rest) + [RBRACKET]);
      AtConcat(b, i, e + [COMMA], Listed(rest) + [RBRACKET]);
      ObjectEnd(b, i, e, COMMA);
      SplitListed(b, i + |e| + 1, rest);
    }
  }

  lemma RestObjects(events: seq<bytes>)
    requires events != [] && AllObjects(events)
    ensures IsObject(events[0]) && AllObjects(events[1..])
  {
    hide IsObject;
    assert forall k :: 0 <= k < |events[1..]| ==> events[1..][k] == events[k + 1];
  }

  lemma ListedOne(e: bytes)
    ensures Listed([e]) == e
  {
  }

  /** Splitting an encoded body at the commas of its array gives back exactly the batch's events. */
  lemma EncodeRoundTrip(events: seq<bytes>)
    requires events != [] && AllObjects(events)
    ensures SplitFrom(Encode(events), |EVENTS_PREFIX|) == Some(events)
  {
    hide Listed, IsObject, At;
    var b := Encode(events);
    assert b == EVENTS_PREFIX + ((Listed(events) + [RBRACKET]) + [RBRACE]);
    AtAll(b);
    AtConcat(b, 0, EVENTS_PREFIX, (Listed(events) + [RBRACKET]) + [RBRACE]);
    AtConcat(b, |EVENTS_PREFIX|, Listed(events) + [RBRACKET], [RBRACE]);
    SplitListed(b, |EVENTS_PREFIX|, events);
  }

  lemma {:induction false} ListedElements(events: seq<bytes>) returns (es: Elements)
    requires events != [] && AllObjects(events)
    ensures ElementsOk(es) && ElementsText(es) == Listed(events)
    decreases |events|
  {
    hide Listed, AllObjects, JsonText, JsonOk;
    RestObjects(events);
    AllSpaceNil();
    var e, rest := events[0], events[1..];
    var j: Json :| ObjectText(e, j);
    if rest == [] {
      assert events == [e];
      ListedOne(e);
      es := LastElement([], j, []);
      assert [] + (e + ([] + [])) == e;
    } else {
      assert events == [e] + rest;
      ListedCons(e, rest);
      var more := ListedElements(rest);
      es := Element([], j, [], more);
      var tail := [COMMA] + Listed(rest);
      assert [] + (e + ([] + tail)) == e + tail;
    }
  }

  /** The body that is posted is one JSON object. */
  lemma EncodedIsObject(events: seq<bytes>)
    requires events != [] && AllObjects(events)
    ensures IsObject(Encode(events))
  {
    hide Listed, AllObjects, ElementsOk, ElementsText;
    var es := ListedElements(events);
    JsonPlain(EVENTS_KEY);
    AllSpaceNil();
    var v := JArray(es);
    WrapText(v);
    EncodeText(events, JsonText(v));
    var m := LastEntry([], EVENTS_KEY, [], [], v, []);
    assert JsonOk(v) && EntriesOk(m);
    assert JsonText(JObject(m)) == [LBRACE] + EntriesText(m) + [RBRACE];
    assert ObjectText(Encode(events), JObject(m));
  }

  lemma WrapText(v: Json)
    ensures EntriesText(LastEntry([], EVENTS_KEY, [], [], v, [])) ==
            ([QUOTE] + (EVENTS_KEY + [QUOTE])) + ([COLON] + JsonText(v))
  {
    hide JsonText;
    var s := JsonText(v);
    assert s + ([] + []) == s && [] + s == s;
    assert [] + ([COLON] + s) == [COLON] + s;
  }

  lemma EncodeText(events: seq<bytes>, s: bytes)
    requires s == [LBRACKET] + Listed(events) + [RBRACKET]
    ensures [LBRACE] + (([QUOTE] + (EVENTS_KEY + [QUOTE])) + ([COLON] + s)) + [RBRACE] == Encode(events)
  {
    hide Listed;
  }
}
