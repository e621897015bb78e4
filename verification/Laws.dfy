/** What the extraction promises: the rewritten datagram scans to exactly the surviving members, the
    prefilter changes no answer but the malformed verdict, and stripping twice is stripping once. */
module Laws {
  import opened Bytes
  import opened Tokens
  import opened Documents
  import opened Stripping

  // ---------------------------------------------------------------- nesting caps

  lemma ValueTextWiden(s: bytes, cap: nat, cap': nat)
    requires cap <= cap' && ValueText(s, cap)
    ensures ValueText(s, cap')
  {
    var v: Value :| v.Valid(cap) && v.Text() == s;
    assert v.Valid(cap');
  }

  lemma DocWiden(doc: Doc, cap: nat, cap': nat)
    requires cap <= cap' && doc.Valid(cap)
    ensures doc.Valid(cap')
  {
    forall k | 0 <= k < |doc.fields| ensures doc.fields[k].Valid(cap') {
      assert doc.fields[k].Valid(cap);
      ValueTextWiden(doc.fields[k].value, cap, cap');
    }
  }

  /** What is accepted under one nesting cap is read the same under every larger cap. */
  lemma ScanWiden(b: bytes, cap: nat, cap': nat)
    requires cap <= cap'
    ensures ScanObject(b, cap).Members? ==> ScanObject(b, cap') == ScanObject(b, cap)
    ensures ScanObject(b, cap).EmptyObject? ==> ScanObject(b, cap') == ScanObject(b, cap)
  {
    if ScanObject(b, cap).Members? {
      var doc := ScanObject(b, cap).doc;
      ScanObjectExact(b, cap, doc);
      DocWiden(doc, cap, cap');
      ScanObjectExact(b, cap', doc);
    }
  }

  /** The members of the object a datagram starts with, whatever their nesting. */
  function MembersOf(b: bytes): Option<seq<(bytes, bytes)>> {
    match ScanObject(b, |b| + MAX_SCAN_DEPTH)
    case EmptyObject(_, _, _) => Some([])
    case Members(doc) => Some(Pairs(doc.fields))
    case _ => None
  }

  lemma MembersAtCap(b: bytes, cap: nat)
    requires cap <= |b| + MAX_SCAN_DEPTH
    ensures ScanObject(b, cap).Members? ==> MembersOf(b) == Some(Pairs(ScanObject(b, cap).doc.fields))
    ensures ScanObject(b, cap).EmptyObject? ==> MembersOf(b) == Some([])
  {
    ScanWiden(b, cap, |b| + MAX_SCAN_DEPTH);
  }

  // ---------------------------------------------------------------- hits and markers

  lemma MarkerInField(f: Field, b: bytes, s: nat)
    requires At(b, s, f.Text())
    ensures At(b, s + |f.before|, [QUOTE] + (f.key + [QUOTE]))
  {
    hide At;
    AtConcat(b, s, f.before, f.Core() + f.after);
    AtConcat(b, s + |f.before|, f.Core(), f.after);
    AtConcat(b, s + |f.before|, [QUOTE] + (f.key + [QUOTE]), f.afterKey + ([COLON] + (f.afterColon + f.value)));
  }

  lemma HitIsMarked(b: bytes, doc: Doc, withToken: bool)
    requires b == doc.Text() && !NoHits(doc.fields, withToken)
    ensures Marked(b, withToken)
  {
    hide At, Field.Text, Join;
    var j :| 0 <= j < |doc.fields| && Hit(doc.fields[j], withToken);
    DocParts(b, doc);
    var base := |doc.before| + 1;
    FieldPlace(b, base, doc.fields, j);
    var f, s := doc.fields[j], base + Width(doc.fields[..j]);
    MarkerInField(f, b, s);
    AtHead(b, s + |f.before|, [QUOTE] + (f.key + [QUOTE]));
  }

  /** The prefilter costs exactly the malformed verdict: with and without it the answers agree if and
      only if some marker occurs or the scan would not have called the datagram malformed. */
  lemma PrefilterExact(codec: Codec, b: bytes, withToken: bool)
    ensures Extract(codec, b, withToken) == ExtractByScan(codec, b, withToken, MAX_SCAN_DEPTH) <==>
            Marked(b, withToken) || ScanObject(b, MAX_SCAN_DEPTH) != Malformed
  {
    match ScanObject(b, MAX_SCAN_DEPTH)
    case Members(doc) =>
      ScanObjectExact(b, MAX_SCAN_DEPTH, doc);
      if !NoHits(doc.fields, withToken) {
        HitIsMarked(b, doc, withToken);
      }
    case _ =>
  }

  // ---------------------------------------------------------------- the malformed verdict

  /** Blanks, then an opening brace. */
  ghost predicate OpensObject(b: bytes) { exists w, rest :: AllSpace(w) && b == w + ([LBRACE] + rest) }

  /** An object without members, whatever follows it. */
  ghost predicate EmptyObjectText(b: bytes) {
    exists w, inner, tail :: AllSpace(w) && AllSpace(inner) && b == w + ([LBRACE] + (inner + ([RBRACE] + tail)))
  }

  /** An object with members nested within the cap, whatever follows it. */
  ghost predicate MembersText(b: bytes) { exists doc: Doc :: doc.Valid(MAX_SCAN_DEPTH) && doc.Text() == b }

  lemma BlankThen(w: bytes, rest: bytes)
    requires AllSpace(w) && rest != [] && !IsSpace(rest[0])
    ensures SpaceEnd(w + rest, 0) == |w| < |w + rest| && (w + rest)[|w|] == rest[0]
  {
    AtAll(w + rest);
    SpaceThen(w + rest, 0, w, rest);
  }

  lemma SplitAt(b: bytes, i: nat)
    requires i < |b|
    ensures b == b[..i] + ([b[i]] + b[i + 1..])
  {
  }

  lemma LeadingBlanks(b: bytes)
    ensures AllSpace(b[..SpaceEnd(b, 0)])
  {
    assert b[..SpaceEnd(b, 0)] == b[0..SpaceEnd(b, 0)];
  }

  lemma OpensAt(b: bytes)
    ensures OpensObject(b) <==> SpaceEnd(b, 0) < |b| && b[SpaceEnd(b, 0)] == LBRACE
  {
    var i := SpaceEnd(b, 0);
    LeadingBlanks(b);
    hide SpaceEnd, AllSpace;
    if i < |b| && b[i] == LBRACE {
      SplitAt(b, i);
    }
    if OpensObject(b) {
      var w, rest :| AllSpace(w) && b == w + ([LBRACE] + rest);
      BlankThen(w, [LBRACE] + rest);
    }
  }

  /** The offsets at which the scan of an empty object stops. */
  predicate EmptyBraces(b: bytes) {
    var i := SpaceEnd(b, 0);
    i < |b| && b[i] == LBRACE && SpaceEnd(b, i + 1) < |b| && b[SpaceEnd(b, i + 1)] == RBRACE
  }

  lemma EmptyTextOf(b: bytes, w: bytes, inner: bytes, tail: bytes)
    requires AllSpace(w) && AllSpace(inner) && b == w + ([LBRACE] + (inner + ([RBRACE] + tail)))
    ensures EmptyObjectText(b)
  {
    hide AllSpace;
  }

  lemma EmptySplits(b: bytes)
    requires EmptyBraces(b)
    ensures EmptyObjectText(b)
  {
    hide SpaceEnd, AllSpace, EmptyObjectText;
    var i := SpaceEnd(b, 0);
    var j := SpaceEnd(b, i + 1);
    LeadingBlanks(b);
    BracesSplit(b, i, j);
    EmptyTextOf(b, b[..i], b[i + 1..j], b[j + 1..]);
  }

  lemma BracesSplit(b: bytes, i: nat, j: nat)
    requires i < j < |b|
    ensures b == b[..i] + ([b[i]] + (b[i + 1..j] + ([b[j]] + b[j + 1..])))
  {
    var rest := b[i + 1..];
    SplitAt(b, i);
    SplitAt(rest, j - i - 1);
    assert rest[..j - i - 1] == b[i + 1..j] && rest[j - i..] == b[j + 1..];
  }

  lemma EmptyStops(b: bytes, w: bytes, inner: bytes, tail: bytes)
    requires AllSpace(w) && AllSpace(inner) && b == w + ([LBRACE] + (inner + ([RBRACE] + tail)))
    ensures EmptyBraces(b)
  {
    hide SpaceEnd, AllSpace, At;
    BlankThen(w, [LBRACE] + (inner + ([RBRACE] + tail)));
    AtAll(b);
    AtConcat(b, 0, w, [LBRACE] + (inner + ([RBRACE] + tail)));
    AtConcat(b, |w|, [LBRACE], inner + ([RBRACE] + tail));
    SpaceThen(b, |w| + 1, inner, [RBRACE] + tail);
  }

  lemma EmptyAt(b: bytes, cap: nat)
    ensures EmptyObjectText(b) <==> ScanObject(b, cap).EmptyObject?
  {
    hide SpaceEnd, FieldsFrom, EmptyObjectText, AllSpace;
    if ScanObject(b, cap).EmptyObject? {
      EmptySplits(b);
    }
    if EmptyObjectText(b) {
      EmptyWitness(b);
    }
  }

  lemma EmptyWitness(b: bytes)
    requires EmptyObjectText(b)
    ensures EmptyBraces(b)
  {
    hide EmptyBraces, AllSpace;
    var w, inner, tail :| AllSpace(w) && AllSpace(inner) && b == w + ([LBRACE] + (inner + ([RBRACE] + tail)));
    EmptyStops(b, w, inner, tail);
  }

  lemma MembersAt(b: bytes)
    ensures MembersText(b) <==> ScanObject(b, MAX_SCAN_DEPTH).Members?
  {
    hide ScanObject, Doc.Valid, Doc.Text;
    if ScanObject(b, MAX_SCAN_DEPTH).Members? {
      ScanObjectExact(b, MAX_SCAN_DEPTH, ScanObject(b, MAX_SCAN_DEPTH).doc);
    }
    if MembersText(b) {
      var doc: Doc :| doc.Valid(MAX_SCAN_DEPTH) && doc.Text() == b;
      ScanObjectExact(b, MAX_SCAN_DEPTH, doc);
    }
  }

  lemma MarkedNotBlank(b: bytes, withToken: bool)
    requires Marked(b, withToken)
    ensures !AllSpace(b) && SpaceEnd(b, 0) < |b|
  {
    var i :| At(b, i, PROJECT_MARKER) || At(b, i, TOKEN_MARKER);
    AtHead(b, i, if At(b, i, PROJECT_MARKER) then PROJECT_MARKER else TOKEN_MARKER);
    assert b[i] == QUOTE;
  }

  /** Exactly what is called malformed: a datagram with a marker that begins as an object and is neither
      an empty one nor one with well-formed members within the nesting cap. */
  lemma MalformedVerdict(codec: Codec, b: bytes, withToken: bool)
    ensures Extract(codec, b, withToken).malformed <==>
            Marked(b, withToken) && OpensObject(b) && !EmptyObjectText(b) && !MembersText(b)
  {
    hide SpaceEnd, FieldsFrom, OpensObject, EmptyObjectText, MembersText, Marked;
    OpensAt(b);
    EmptyAt(b, MAX_SCAN_DEPTH);
    MembersAt(b);
    if Marked(b, withToken) {
      MarkedNotBlank(b, withToken);
    }
  }

  /** The bare string `"_project"` carries the marker and is no object, and is not called malformed. */
  lemma BareStringPasses(codec: Codec, withToken: bool)
    ensures Marked(PROJECT_MARKER, withToken) && !OpensObject(PROJECT_MARKER)
    ensures Extract(codec, PROJECT_MARKER, withToken) == Miss(PROJECT_MARKER)
  {
    hide ScanObject, OpensObject, Extract;
    AtAll(PROJECT_MARKER);
    assert PROJECT_MARKER[0] == QUOTE && SpaceEnd(PROJECT_MARKER, 0) == 0;
    OpensAt(PROJECT_MARKER);
    BareStringScan(codec, withToken);
  }

  lemma BareStringScan(codec: Codec, withToken: bool)
    requires Marked(PROJECT_MARKER, withToken)
    ensures Extract(codec, PROJECT_MARKER, withToken) == Miss(PROJECT_MARKER)
  {
    hide FieldsFrom, Marked;
    assert PROJECT_MARKER[0] == QUOTE && SpaceEnd(PROJECT_MARKER, 0) == 0;
  }

  // ---------------------------------------------------------------- the rewritten datagram

  lemma StripDocValid(doc: Doc, withToken: bool, cap: nat)
    requires doc.Valid(cap) && !AllHits(doc.fields, withToken)
    ensures StripDoc(doc, withToken).Valid(cap) && NoHits(Kept(doc.fields, withToken), withToken)
  {
    KeptValid(doc.fields, withToken, cap);
  }

  lemma EmptyObjectScan(cap: nat)
    ensures ScanObject(EMPTY_OBJECT, cap) == EmptyObject([], [], [])
  {
    assert !IsSpace(EMPTY_OBJECT[0]) && !IsSpace(EMPTY_OBJECT[1]);
    assert SpaceEnd(EMPTY_OBJECT, 0) == 0;
    assert SpaceEnd(EMPTY_OBJECT, 1) == 1;
  }

  lemma PayloadEmpty(members: seq<(bytes, bytes)>, withToken: bool)
    requires forall k :: 0 <= k < |members| ==> RoutingKey(members[k].0, withToken)
    ensures Payload(members, withToken) == []
  {
  }

  /** For every datagram the scan accepts with at least one hit, rescanning the rewritten bytes
      succeeds and finds exactly the other members, in order, with the same key and value bytes. */
  lemma SpliceRoundTrip(codec: Codec, b: bytes, doc: Doc, withToken: bool)
    requires ScanObject(b, MAX_SCAN_DEPTH) == Members(doc) && !NoHits(doc.fields, withToken)
    ensures var r := Extract(codec, b, withToken);
            && r.removed && !r.malformed
            && if AllHits(doc.fields, withToken) then r.stripped == EMPTY_OBJECT
               else && ScanObject(r.stripped, MAX_SCAN_DEPTH) == Members(StripDoc(doc, withToken))
                    && Pairs(StripDoc(doc, withToken).fields) == Payload(Pairs(doc.fields), withToken)
                    && NoHits(StripDoc(doc, withToken).fields, withToken)
  {
    hide ScanObject, Marked, NoHits, Kept, LastOf, Pairs, Payload, Doc.Valid;
    ScanObjectExact(b, MAX_SCAN_DEPTH, doc);
    HitIsMarked(b, doc, withToken);
    if !AllHits(doc.fields, withToken) {
      hide AllHits, Doc.Text;
      StripDocValid(doc, withToken, MAX_SCAN_DEPTH);
      ScanObjectExact(StripDoc(doc, withToken).Text(), MAX_SCAN_DEPTH, StripDoc(doc, withToken));
      KeptPairs(doc.fields, withToken);
    }
  }

  lemma {:induction false} PayloadIdentity(members: seq<(bytes, bytes)>, withToken: bool)
    requires forall k :: 0 <= k < |members| ==> !RoutingKey(members[k].0, withToken)
    ensures Payload(members, withToken) == members
    decreases |members|
  {
    if members != [] {
      var n := |members| - 1;
      PayloadIdentity(members[..n], withToken);
      assert members == members[..n] + [members[n]];
    }
  }

  /** Whatever the datagram: unless it is dropped as malformed, the members after the extraction are
      the members before it without the routing fields. */
  lemma StrippedMembers(codec: Codec, b: bytes, withToken: bool)
    requires !Extract(codec, b, withToken).malformed && MembersOf(b).Some?
    ensures MembersOf(Extract(codec, b, withToken).stripped) == Some(Payload(MembersOf(b).value, withToken))
  {
    hide ScanObject, Kept;
    var wide := |b| + MAX_SCAN_DEPTH;
    var scan := ScanObject(b, if Marked(b, withToken) then MAX_SCAN_DEPTH else wide);
    MembersAtCap(b, if Marked(b, withToken) then MAX_SCAN_DEPTH else wide);
    ScanWiden(b, MAX_SCAN_DEPTH, wide);
    match scan
    case Members(doc) =>
      ScanObjectExact(b, if Marked(b, withToken) then MAX_SCAN_DEPTH else wide, doc);
      if NoHits(doc.fields, withToken) {
        PayloadIdentity(Pairs(doc.fields), withToken);
      } else {
        HitIsMarked(b, doc, withToken);
        SpliceRoundTrip(codec, b, doc, withToken);
        MembersAtCap(Extract(codec, b, withToken).stripped, MAX_SCAN_DEPTH);
        if AllHits(doc.fields, withToken) {
          EmptyObjectScan(|EMPTY_OBJECT| + MAX_SCAN_DEPTH);
          PayloadEmpty(Pairs(doc.fields), withToken);
        }
      }
    case EmptyObject(_, _, _) =>
    case NotObject => NotObjectAtAnyCap(b, MAX_SCAN_DEPTH, wide);
    case Malformed =>
  }

  lemma NotObjectAtAnyCap(b: bytes, cap: nat, cap': nat)
    requires ScanObject(b, cap) == NotObject
    ensures ScanObject(b, cap') == NotObject
  {
  }

  /** No member with a routing key survives in a datagram that is forwarded. */
  lemma NothingLeaks(codec: Codec, b: bytes, withToken: bool)
    requires !Extract(codec, b, withToken).malformed
    requires MembersOf(b).Some?
    ensures var r := MembersOf(Extract(codec, b, withToken).stripped);
            r.Some? && forall k :: 0 <= k < |r.value| ==> !RoutingKey(r.value[k].0, withToken)
  {
    StrippedMembers(codec, b, withToken);
    PayloadClean(MembersOf(b).value, withToken);
  }

  lemma {:induction false} PayloadClean(members: seq<(bytes, bytes)>, withToken: bool)
    ensures var r := Payload(members, withToken);
            forall k :: 0 <= k < |r| ==> !RoutingKey(r[k].0, withToken)
    decreases |members|
  {
    hide RoutingKey;
    if members != [] {
      var init, m := members[..|members| - 1], members[|members| - 1];
      PayloadClean(init, withToken);
      assert Payload(members, withToken) ==
             if RoutingKey(m.0, withToken) then Payload(init, withToken) else Payload(init, withToken) + [m];
    }
  }

  /** A second extraction finds nothing: the stripped bytes come back as they are. */
  lemma ExtractIdempotent(codec: Codec, b: bytes, withToken: bool)
    requires Extract(codec, b, withToken).removed
    ensures var once := Extract(codec, b, withToken).stripped; Extract(codec, once, withToken) == Miss(once)
  {
    hide ScanObject, Kept;
    var doc := ScanObject(b, MAX_SCAN_DEPTH).doc;
    SpliceRoundTrip(codec, b, doc, withToken);
    EmptyObjectScan(MAX_SCAN_DEPTH);
  }

  // ---------------------------------------------------------------- the survivors, one by one

  /** `after` consists of the members of `before` at the given places, in order. */
  ghost predicate Picks(before: seq<(bytes, bytes)>, after: seq<(bytes, bytes)>, idx: seq<nat>) {
    && |idx| == |after| && (forall i, j :: 0 <= i < j < |idx| ==> idx[i] < idx[j])
    && (forall j :: 0 <= j < |idx| ==> idx[j] < |before| && after[j] == before[idx[j]])
  }

  lemma {:induction false} PayloadPicks(members: seq<(bytes, bytes)>, withToken: bool) returns (idx: seq<nat>)
    ensures Picks(members, Payload(members, withToken), idx)
    ensures forall k: nat | k < |members| ::
              k in idx <==> members[k].0 != PROJECT_KEY && !(withToken && members[k].0 == TOKEN_KEY)
    decreases |members|
  {
    hide PROJECT_KEY, TOKEN_KEY;
    idx := [];
    if members != [] {
      var n := |members| - 1;
      idx := PayloadPicks(members[..n], withToken);
      if members[n].0 != PROJECT_KEY && !(withToken && members[n].0 == TOKEN_KEY) {
        idx := idx + [n];
      }
    }
  }

  /** The members of what is forwarded are those of the datagram whose key is neither `_project` nor, where
      tokens are looked for, `_token`: all of them, in order, and no others. */
  lemma SurvivorsInOrder(codec: Codec, b: bytes, withToken: bool) returns (idx: seq<nat>)
    requires !Extract(codec, b, withToken).malformed && MembersOf(b).Some?
    ensures var before := MembersOf(b).value; var after := MembersOf(Extract(codec, b, withToken).stripped);
            && after.Some? && Picks(before, after.value, idx)
            && forall k: nat | k < |before| ::
                 k in idx <==> before[k].0 != PROJECT_KEY && !(withToken && before[k].0 == TOKEN_KEY)
  {
    hide Extract, MembersOf, PROJECT_KEY, TOKEN_KEY;
    StrippedMembers(codec, b, withToken);
    idx := PayloadPicks(MembersOf(b).value, withToken);
  }

  // ---------------------------------------------------------------- the routing answers

  /** What a routing member's value stands for: nothing usable when it is no string; the text between the
      quotes when that has no escapes and is valid UTF-8; else whatever the library decodes it to, if it does. */
  predicate Answer(codec: Codec, value: bytes, text: bytes, bad: bool) {
    if value == [] || value[0] != QUOTE then text == [] && bad
    else
      && |value| >= 2 && value[|value| - 1] == QUOTE
      && var s := value[1..|value| - 1];
         if BACKSLASH !in s && codec.utf8Valid(s) then text == s && !bad
         else if codec.unmarshal(value).Some? then text == codec.unmarshal(value).value && !bad
         else text == [] && bad
  }

  lemma JudgeAnswers(codec: Codec, value: bytes)
    requires ValueText(value, MAX_SCAN_DEPTH)
    ensures Answer(codec, value, Judge(codec, value).Text(), Judge(codec, value).Unusable?)
  {
    var v: Value :| v.Valid(MAX_SCAN_DEPTH) && v.Text() == value;
    ValueTextHead(value, MAX_SCAN_DEPTH);
    match v
    case StringValue(body) =>
      assert value == [QUOTE] + (body + [QUOTE]);
    case NumberValue(n) => NumberFirstByte(n);
    case ContainerValue(open, items) => assert value[0] == open;
    case _ =>
  }

  lemma {:induction false} LastOfAt(codec: Codec, fields: seq<Field>, key: bytes, j: nat)
    requires j < |fields| && fields[j].key == key && forall i :: j < i < |fields| ==> fields[i].key != key
    ensures LastOf(codec, fields, key) == Judge(codec, fields[j].value)
    decreases |fields|
  {
    hide Judge;
    if j < |fields| - 1 {
      LastOfAt(codec, fields[..|fields| - 1], key, j);
    }
  }

  /** The field with this key behind which there is no other. */
  predicate LastWith(fields: seq<Field>, key: bytes, j: nat) {
    j < |fields| && fields[j].key == key && forall i :: j < i < |fields| ==> fields[i].key != key
  }

  lemma LastOfAnswers(codec: Codec, doc: Doc, key: bytes)
    requires doc.Valid(MAX_SCAN_DEPTH)
    ensures var v := LastOf(codec, doc.fields, key);
            && (forall j: nat | LastWith(doc.fields, key, j) ::
                  Answer(codec, doc.fields[j].value, v.Text(), v.Unusable?))
            && ((forall j :: 0 <= j < |doc.fields| ==> doc.fields[j].key != key) ==> v == Absent)
  {
    hide Judge, LastOf, ValueText, Answer;
    forall j: nat | LastWith(doc.fields, key, j)
      ensures Answer(codec, doc.fields[j].value, LastOf(codec, doc.fields, key).Text(),
                     LastOf(codec, doc.fields, key).Unusable?)
    {
      assert doc.fields[j].Valid(MAX_SCAN_DEPTH);
      LastOfAt(codec, doc.fields, key, j);
      JudgeAnswers(codec, doc.fields[j].value);
    }
    if forall j :: 0 <= j < |doc.fields| ==> doc.fields[j].key != key {
      AbsentWithoutKey(codec, doc.fields, key);
    }
  }

  /** For every datagram the scan accepts: project and token, and whether they are usable, are what the value
      of the last `_project` and of the last `_token` member stands for, and empty where there is none. */
  lemma RoutingAnswers(codec: Codec, b: bytes, doc: Doc, withToken: bool)
    requires ScanObject(b, MAX_SCAN_DEPTH) == Members(doc)
    ensures var r := Extract(codec, b, withToken);
            && !r.malformed
            && (forall j: nat | LastWith(doc.fields, PROJECT_KEY, j) ::
                  Answer(codec, doc.fields[j].value, r.project, r.badProject))
            && ((forall j :: 0 <= j < |doc.fields| ==> doc.fields[j].key != PROJECT_KEY) ==>
                  r.project == [] && !r.badProject)
            && (withToken ==> forall j: nat | LastWith(doc.fields, TOKEN_KEY, j) ::
                  Answer(codec, doc.fields[j].value, r.token, r.badToken))
            && (!withToken || (forall j :: 0 <= j < |doc.fields| ==> doc.fields[j].key != TOKEN_KEY) ==>
                  r.token == [] && !r.badToken)
            && (r.removed <==>
                exists f <- doc.fields :: f.key == PROJECT_KEY || (withToken && f.key == TOKEN_KEY))
  {
    ScanObjectExact(b, MAX_SCAN_DEPTH, doc);
    PrefilterExact(codec, b, withToken);
    LastOfAnswers(codec, doc, PROJECT_KEY);
    LastOfAnswers(codec, doc, TOKEN_KEY);
    hide ScanObject, Marked, LastOf, Answer, StrippedText, PROJECT_KEY, TOKEN_KEY, Doc.Valid, Doc.Text;
    if NoHits(doc.fields, withToken) {
      forall j: nat | j < |doc.fields|
        ensures doc.fields[j].key != PROJECT_KEY && !(withToken && doc.fields[j].key == TOKEN_KEY)
      {
        assert !Hit(doc.fields[j], withToken);
      }
    }
  }

  // ---------------------------------------------------------------- the two entry points

  lemma {:induction false} PayloadTwice(members: seq<(bytes, bytes)>)
    ensures Payload(Payload(members, false), true) == Payload(members, true)
    decreases |members|
  {
    if members != [] {
      var init, m := members[..|members| - 1], members[|members| - 1];
      PayloadTwice(init);
      var one := Payload(init, false);
      assert one + [] == one && Payload(init, true) + [] == Payload(init, true);
      if !RoutingKey(m.0, false) {
        assert (one + [m])[..|one|] == one;
      }
    }
  }

  lemma {:induction false} AbsentWithoutKey(codec: Codec, fields: seq<Field>, key: bytes)
    requires forall k :: 0 <= k < |fields| ==> fields[k].key != key
    ensures LastOf(codec, fields, key) == Absent
    decreases |fields|
  {
    if fields != [] {
      AbsentWithoutKey(codec, fields[..|fields| - 1], key);
    }
  }

  lemma SameVerdict(codec: Codec, b: bytes)
    requires ScanObject(b, MAX_SCAN_DEPTH).Members?
    ensures var one := Extract(codec, b, false); var two := Extract(codec, b, true);
            && one.project == two.project && one.badProject == two.badProject && !one.malformed && !two.malformed
  {
    hide ScanObject, Kept, Marked, StrippedText, LastOf;
    var doc := ScanObject(b, MAX_SCAN_DEPTH).doc;
    PrefilterExact(codec, b, false);
    PrefilterExact(codec, b, true);
    if NoHits(doc.fields, false) {
      assert forall k :: 0 <= k < |doc.fields| ==> !Hit(doc.fields[k], false);
      AbsentWithoutKey(codec, doc.fields, PROJECT_KEY);
    }
  }

  /** On every datagram the scan accepts, the project-only and the two-field extraction name the same
      project with the same usability, and stripping the project-only result again for both fields
      leaves the members of the two-field result: they differ in surviving `_token` members only. */
  lemma EntryPointsAgree(codec: Codec, b: bytes)
    requires ScanObject(b, MAX_SCAN_DEPTH).Members?
    ensures var one := Extract(codec, b, false); var two := Extract(codec, b, true);
            && one.project == two.project && one.badProject == two.badProject
            && MembersOf(one.stripped).Some? && MembersOf(two.stripped).Some?
            && MembersOf(two.stripped).value == Payload(MembersOf(one.stripped).value, true)
  {
    SameVerdict(codec, b);
    MembersAtCap(b, MAX_SCAN_DEPTH);
    hide ScanObject, Kept, Extract, MembersOf, Payload;
    StrippedMembers(codec, b, false);
    StrippedMembers(codec, b, true);
    PayloadTwice(MembersOf(b).value);
  }

  // ---------------------------------------------------------------- size

  lemma {:induction false} KeptTextWidth(fields: seq<Field>, withToken: bool)
    ensures |KeptText(fields, withToken)| <= Width(fields)
    ensures !AllHits(fields, withToken) ==> |KeptText(fields, withToken)| + 1 <= Width(fields)
    decreases |fields|
  {
    hide Hit, Field.Core;
    if fields != [] {
      KeptTextWidth(fields[..|fields| - 1], withToken);
    }
  }

  /** Stripping never lengthens a datagram. */
  lemma ExtractShrinks(codec: Codec, b: bytes, withToken: bool)
    ensures |Extract(codec, b, withToken).stripped| <= |b|
  {
    hide StrippedText, Marked, ScanObject, Doc.Text;
    match ScanObject(b, MAX_SCAN_DEPTH)
    case Members(doc) =>
      ScanObjectExact(b, MAX_SCAN_DEPTH, doc);
      StrippedTextShrinks(doc, withToken);
    case _ =>
  }

  lemma StrippedTextShrinks(doc: Doc, withToken: bool)
    requires doc.fields != []
    ensures |StrippedText(doc, withToken)| <= |doc.Text()|
  {
    hide Kept, KeptText, Join, Width;
    if !AllHits(doc.fields, withToken) {
      KeptTextWidth(doc.fields, withToken);
      KeptTextIsJoin(doc.fields, withToken);
      JoinWidth(doc.fields);
    }
  }
}
