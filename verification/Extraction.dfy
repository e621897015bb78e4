/** The loops of `extractAndStripFields` against its specification, and what the extraction guarantees. */
module Extraction {
  import opened Bytes
  import opened Tokens
  import opened Documents
  import opened Stripping

  // ---------------------------------------------------------------- the walk

  function Prepend(done: seq<Field>, r: Option<(seq<Field>, nat)>): Option<(seq<Field>, nat)> {
    match r case None => None case Some((fs, e)) => Some((done + fs, e))
  }

  lemma PrependOne(done: seq<Field>, f: Field, r: Option<(seq<Field>, nat)>)
    ensures Prepend(done, Prepend([f], r)) == Prepend(done + [f], r)
  {
    if r.Some? {
      assert done + ([f] + r.value.0) == (done + [f]) + r.value.0;
    }
  }

  lemma PrependEnds(done: seq<Field>, f: Field, sep: nat)
    ensures Prepend(done, None) == None && Prepend(done, Some(([f], sep))) == Some((done + [f], sep))
  {
  }

  /** Offsets of one member as the walk meets them: opening quote, closing quote, value, end of value,
      and the separator behind the trailing blanks. */
  datatype Step = Step(keyStart: nat, keyEnd: nat, valStart: nat, valEnd: nat, kind: Kind, sep: nat)

  /** The offsets delimit the member `f` that starts at `i`. */
  ghost predicate Delimits(b: bytes, i: nat, st: Step, f: Field) {
    && i <= st.keyStart < st.keyEnd < st.valStart < st.valEnd <= st.sep < |b|
    && FieldAt(b, i, MAX_SCAN_DEPTH) == Some((f, st.sep))
    && f.key == b[st.keyStart + 1..st.keyEnd] && f.value == b[st.valStart..st.valEnd]
    && st.keyStart == i + |f.before| && st.valEnd == i + |f.before| + |f.Core()|
    && st.sep == i + |f.Text()|
    && (st.kind.KString? <==> f.value != [] && f.value[0] == QUOTE)
  }

  lemma FieldLengths(b: bytes, i: nat, st: Step)
    requires i <= |b| && FieldAt(b, i, MAX_SCAN_DEPTH).Some?
    requires var (f, n) := FieldAt(b, i, MAX_SCAN_DEPTH).value;
             && i <= st.keyStart <= st.valEnd <= st.sep <= |b|
             && f.before == b[i..st.keyStart] && f.after == b[st.valEnd..st.sep] && n == st.sep
    ensures var f := FieldAt(b, i, MAX_SCAN_DEPTH).value.0;
            st.keyStart == i + |f.before| && st.valEnd == i + |f.before| + |f.Core()| && st.sep == i + |f.Text()|
  {
    hide FieldAt, Field.Core;
    FieldAtSound(b, i, MAX_SCAN_DEPTH);
  }

  method ScanMember(b: bytes, start: nat) returns (r: Option<Step>, ghost f: Field)
    requires start <= |b|
    ensures r.None? <==> FieldAt(b, start, MAX_SCAN_DEPTH).None?
    ensures r.Some? ==> Delimits(b, start, r.value, f)
  {
    hide SpaceEnd, StringEnd, ValueEnd, Field.Core, Field.Text;
    f := Field([], [], [], [], [], []);
    var i := ScanSpace(b, start);
    if i >= |b| || b[i] != QUOTE {
      return None, f;
    }
    var keyStart := i;
    var q := ScanStringBody(b, keyStart + 1);
    if q.None? {
      return None, f;
    }
    var keyEnd := q.value;
    i := ScanSpace(b, keyEnd + 1);
    if i >= |b| || b[i] != COLON {
      return None, f;
    }
    var valStart := ScanSpace(b, i + 1);
    var v := ScanValue(b, valStart);
    if v.None? {
      return None, f;
    }
    var (valEnd, kind) := v.value;
    var sep := ScanSpace(b, valEnd);
    if sep >= |b| {
      return None, f;
    }
    var st := Step(keyStart, keyEnd, valStart, valEnd, kind, sep);
    f := FieldAt(b, start, MAX_SCAN_DEPTH).value.0;
    FieldLengths(b, start, st);
    KindIsFirstByte(b, valStart);
    return Some(st), f;
  }

  lemma KindIsFirstByte(b: bytes, i: nat)
    requires i <= |b| && ValueEnd(b, i, MAX_SCAN_DEPTH).Some?
    ensures ValueEnd(b, i, MAX_SCAN_DEPTH).value.1 == KString <==> b[i] == QUOTE
  {
  }

  // ---------------------------------------------------------------- cuts and splice

  /** Everything the cut loop needs to know about the bytes around the k-th hit: only blanks lie
      between the hit and the comma that its cut takes. */
  lemma HitPlace(b: bytes, doc: Doc, withToken: bool, k: nat)
    requires b == doc.Text() && AllValid(doc.fields, MAX_SCAN_DEPTH) && !AllHits(doc.fields, withToken)
    requires k < |Spans(doc.fields, |doc.before| + 1, withToken)|
    ensures var base := |doc.before| + 1;
            var h := Spans(doc.fields, base, withToken)[k]; var c := Cuts(doc.fields, base, withToken)[k];
            && 0 < h.keyStart < h.valEnd < |b| && 0 < c.start <= c.end <= |b|
            && if h.idx == k
               then && c.start == h.keyStart && h.valEnd <= c.end - 1 && b[c.end - 1] == COMMA
                    && (forall p :: h.valEnd <= p < c.end - 1 ==> IsSpace(b[p]))
               else && c.end == h.valEnd && c.start + 1 <= h.keyStart && b[c.start] == COMMA
                    && (forall p :: c.start + 1 <= p < h.keyStart ==> IsSpace(b[p]))
  {
    hide Spans, Cuts, Join, Field.Text, Field.Core, StringBody, ValueText, Hit, Width, At;
    var base, fs := |doc.before| + 1, doc.fields;
    SpanAndCut(fs, base, withToken, k);
    DocParts(b, doc);
    var j := Spans(fs, base, withToken)[k].idx;
    var f, s := fs[j], base + Width(fs[..j]);
    FieldPlace(b, base, fs, j);
    AtHead(b, s, f.Text());
    TextParts(b, s, f);
    CoreNotEmpty(f);
    SpaceAt(b, s, f.before);
    SpaceAt(b, s + |f.before| + |f.Core()|, f.after);
    if j == k && j + 1 == |fs| {
      AllHitsSnoc(fs, withToken);
      assert false;
    }
    StartBound(b, base, fs, j + 1);
  }

  lemma SpaceAt(b: bytes, i: nat, w: bytes)
    requires At(b, i, w) && AllSpace(w)
    ensures i + |w| <= |b| && forall p :: i <= p < i + |w| ==> IsSpace(b[p])
  {
    assert forall p :: i <= p < i + |w| ==> b[p] == b[i..i + |w|][p - i];
  }

  lemma CoreNotEmpty(f: Field)
    ensures |f.Core()| >= 3
  {
  }

  lemma AllHitsSnoc(fs: seq<Field>, withToken: bool)
    requires fs != [] && AllHits(fs[..|fs| - 1], withToken) && Hit(fs[|fs| - 1], withToken)
    ensures AllHits(fs, withToken)
  {
    forall k | 0 <= k < |fs| ensures Hit(fs[k], withToken) {
      if k < |fs| - 1 {
        assert fs[..|fs| - 1][k] == fs[k];
      }
    }
  }

  method BuildCuts(b: bytes, hits: seq<Span>, ghost doc: Doc, withToken: bool) returns (cuts: seq<Cut>)
    requires b == doc.Text() && AllValid(doc.fields, MAX_SCAN_DEPTH) && !AllHits(doc.fields, withToken)
    requires hits == Spans(doc.fields, |doc.before| + 1, withToken)
    ensures cuts == Cuts(doc.fields, |doc.before| + 1, withToken)
  {
    hide Spans, Cuts, AllValid, AllHits, Doc.Text;
    ghost var planned := Cuts(doc.fields, |doc.before| + 1, withToken);
    cuts := [];
    for k := 0 to |hits|
      invariant |cuts| == k && cuts == planned[..k]
    {
      var h := hits[k];
      HitPlace(b, doc, withToken, k);
      ghost var c := planned[k];
      if h.idx == k {
        var end := h.valEnd;
        while end < |b| && IsSpace(b[end])
          invariant h.valEnd <= end <= c.end - 1
        {
          end := end + 1;
        }
        if end < |b| && b[end] == COMMA {
          end := end + 1;
        }
        cuts := cuts + [Cut(h.keyStart, end)];
      } else {
        var start := h.keyStart;
        while start > 0 && IsSpace(b[start - 1])
          invariant c.start + 1 <= start <= h.keyStart
        {
          start := start - 1;
        }
        if start > 0 && b[start - 1] == COMMA {
          start := start - 1;
        }
        cuts := cuts + [Cut(start, h.valEnd)];
      }
    }
    assert planned[..|hits|] == planned;
  }

  lemma InOrderPrefix(b: bytes, cuts: seq<Cut>, k: nat)
    requires InOrder(b, cuts) && k <= |cuts|
    ensures InOrder(b, cuts[..k])
    decreases |cuts| - k
  {
    if k < |cuts| {
      InOrderPrefix(b, cuts, k + 1);
      assert cuts[..k + 1][..k] == cuts[..k];
    } else {
      assert cuts[..k] == cuts;
    }
  }

  method SpliceOut(b: bytes, cuts: seq<Cut>) returns (out: bytes)
    requires InOrder(b, cuts) && EndOf(cuts) <= |b|
    ensures out == Spliced(b, cuts) + b[EndOf(cuts)..]
  {
    out := [];
    var pos := 0;
    for k := 0 to |cuts|
      invariant InOrder(b, cuts[..k])
      invariant pos == EndOf(cuts[..k]) <= |b| && out == Spliced(b, cuts[..k])
    {
      var c := cuts[k];
      InOrderPrefix(b, cuts, k + 1);
      assert cuts[..k + 1][..k] == cuts[..k];
      if c.start > pos {
        out := out + b[pos..c.start];
      }
      pos := c.end;
    }
    assert cuts[..|cuts|] == cuts;
    out := out + b[pos..];
  }

  // ---------------------------------------------------------------- the whole function

  lemma WalkSnoc(codec: Codec, base: nat, done: seq<Field>, f: Field, withToken: bool)
    ensures Width(done + [f]) == Width(done) + |f.Text()| + 1
    ensures Spans(done + [f], base, withToken) == Spans(done, base, withToken) +
              if Hit(f, withToken) then [SpanOf(f, base + Width(done), |done|)] else []
    ensures LastOf(codec, done + [f], PROJECT_KEY) ==
              if f.key == PROJECT_KEY then Judge(codec, f.value) else LastOf(codec, done, PROJECT_KEY)
    ensures LastOf(codec, done + [f], TOKEN_KEY) ==
              if f.key == TOKEN_KEY then Judge(codec, f.value) else LastOf(codec, done, TOKEN_KEY)
  {
    hide Hit, Field.Text, SpanOf, Judge;
    assert (done + [f])[..|done|] == done;
  }

  /** The rewriting of a datagram with hits: `{}` when every member is one, else the splice. */
  method StripHits(b: bytes, hits: seq<Span>, idx: nat, ghost doc: Doc, withToken: bool) returns (stripped: bytes)
    requires b == doc.Text() && doc.Valid(MAX_SCAN_DEPTH) && idx == |doc.fields|
    requires hits == Spans(doc.fields, |doc.before| + 1, withToken)
    ensures stripped == StrippedText(doc, withToken)
  {
    hide Join, Kept, AllValid, Cuts, InOrder, Spliced, Doc.Text, Hit;
    if |hits| == idx {
      return EMPTY_OBJECT;
    }
    var cuts := BuildCuts(b, hits, doc, withToken);
    SpliceCorrect(b, doc, withToken);
    stripped := SpliceOut(b, cuts);
  }

  method ExtractAndStripFields(codec: Codec, b: bytes, withToken: bool) returns (r: RoutingFields)
    ensures r == Extract(codec, b, withToken)
  {
    hide Judge, FieldsFrom, Join, Spans, LastOf, AllValid, SpaceEnd, Contains, StrippedText, PROJECT_MARKER,
      TOKEN_MARKER, PROJECT_KEY, TOKEN_KEY, Hit, Doc.Text, Doc.Valid;
    if !Contains(b, PROJECT_MARKER) && !(withToken && Contains(b, TOKEN_MARKER)) {
      return Miss(b);
    }
    var i := ScanSpace(b, 0);
    if i >= |b| {
      return Broken(b);
    }
    if b[i] != LBRACE {
      return Miss(b);
    }
    var j := ScanSpace(b, i + 1);
    if j >= |b| {
      return Broken(b);
    }
    if b[j] == RBRACE {
      return Miss(b);
    }
    var end, hits, idx, project, token, badProject, badToken := WalkMembers(codec, b, i + 1, withToken);
    if end.None? {
      return Broken(b);
    }
    ghost var (fields, e) := FieldsFrom(b, i + 1, MAX_SCAN_DEPTH).value;
    ghost var doc := Doc(b[..i], fields, b[e + 1..]);
    ScanObjectExact(b, MAX_SCAN_DEPTH, doc);
    if |hits| == 0 {
      return Miss(b);
    }
    var stripped := StripHits(b, hits, idx, doc, withToken);
    return RoutingFields(project, token, stripped, true, false, badProject, badToken);
  }

  lemma WalkStart(codec: Codec, b: bytes, base: nat, withToken: bool)
    requires base <= |b|
    ensures Width([]) == 0 && Spans([], base, withToken) == []
    ensures LastOf(codec, [], PROJECT_KEY) == Absent && LastOf(codec, [], TOKEN_KEY) == Absent
    ensures FieldsFrom(b, base, MAX_SCAN_DEPTH) == Prepend([], FieldsFrom(b, base, MAX_SCAN_DEPTH))
  {
    var r := FieldsFrom(b, base, MAX_SCAN_DEPTH);
    if r.Some? {
      assert [] + r.value.0 == r.value.0;
    }
  }

  lemma KeysApart()
    ensures PROJECT_KEY != TOKEN_KEY
  {
    assert |PROJECT_KEY| == 8 && |TOKEN_KEY| == 6;
  }

  lemma WalkOn(b: bytes, i: nat, f: Field, sep: nat)
    requires i <= |b| && sep < |b| && FieldAt(b, i, MAX_SCAN_DEPTH) == Some((f, sep))
    ensures FieldsFrom(b, i, MAX_SCAN_DEPTH) ==
            if b[sep] == COMMA then Prepend([f], FieldsFrom(b, sep + 1, MAX_SCAN_DEPTH))
            else if b[sep] == RBRACE then Some(([f], sep))
            else None
  {
    hide FieldAt;
  }

  lemma WalkStop(b: bytes, i: nat)
    requires i <= |b| && FieldAt(b, i, MAX_SCAN_DEPTH) == None
    ensures FieldsFrom(b, i, MAX_SCAN_DEPTH) == None
  {
  }

  /** What a routing member's value says; the kind is the scanner's. */
  method ReadIntent(codec: Codec, value: bytes, kind: Kind) returns (text: bytes, bad: bool)
    requires value != [] && (kind == KString <==> value[0] == QUOTE)
    ensures var v := Judge(codec, value); text == v.Text() && bad == v.Unusable?
  {
    hide Unquote;
    text, bad := [], true;
    if kind == KString {
      var u := Unquote(codec, value);
      if u.Some? {
        text, bad := u.value, false;
      }
    }
  }

  /** The member loop: every hit with its span, the last-wins verdicts and the closing brace. */
  method WalkMembers(codec: Codec, b: bytes, base: nat, withToken: bool)
    returns (end: Option<nat>, hits: seq<Span>, idx: nat, project: bytes, token: bytes, badProject: bool,
      badToken: bool)
    requires base <= |b|
    ensures end.None? <==> FieldsFrom(b, base, MAX_SCAN_DEPTH).None?
    ensures end.Some? ==>
      var (fields, e) := FieldsFrom(b, base, MAX_SCAN_DEPTH).value;
      var p := LastOf(codec, fields, PROJECT_KEY);
      var t := if withToken then LastOf(codec, fields, TOKEN_KEY) else Absent;
      && end.value == e && idx == |fields| && hits == Spans(fields, base, withToken)
      && project == p.Text() && badProject == p.Unusable? && token == t.Text() && badToken == t.Unusable?
  {
    hide FieldAt, FieldsFrom, Field.Text, Field.Core, Width, Spans, LastOf, Judge, PROJECT_KEY, TOKEN_KEY, Field.Valid,
      Prepend, AllSpace, At, SpaceEnd, StringEnd, ValueEnd;
    var i := base;
    KeysApart();
    WalkStart(codec, b, base, withToken);
    hits, idx, project, token, badProject, badToken := [], 0, [], [], false, false;
    ghost var done: seq<Field> := [];
    while true
      invariant base <= i <= |b| && i == base + Width(done)
      invariant FieldsFrom(b, base, MAX_SCAN_DEPTH) == Prepend(done, FieldsFrom(b, i, MAX_SCAN_DEPTH))
      invariant idx == |done| && hits == Spans(done, base, withToken)
      invariant var p := LastOf(codec, done, PROJECT_KEY); project == p.Text() && badProject == p.Unusable?
      invariant var t := if withToken then LastOf(codec, done, TOKEN_KEY) else Absent;
                token == t.Text() && badToken == t.Unusable?
      decreases |b| - i
    {
      var m, f := ScanMember(b, i);
      PrependEnds(done, f, if m.None? then i else m.value.sep);
      if m.None? {
        WalkStop(b, i);
        end := None;
        return;
      }
      var st := m.value;
      var key := b[st.keyStart + 1..st.keyEnd];
      if key == PROJECT_KEY {
        hits := hits + [Span(st.keyStart, st.valEnd, idx)];
        project, badProject := ReadIntent(codec, b[st.valStart..st.valEnd], st.kind);
      } else if withToken && key == TOKEN_KEY {
        hits := hits + [Span(st.keyStart, st.valEnd, idx)];
        token, badToken := ReadIntent(codec, b[st.valStart..st.valEnd], st.kind);
      }
      idx := idx + 1;
      WalkSnoc(codec, base, done, f, withToken);
      WalkOn(b, i, f, st.sep);
      PrependOne(done, f, FieldsFrom(b, st.sep + 1, MAX_SCAN_DEPTH));
      done := done + [f];
      if b[st.sep] == COMMA {
        i := st.sep + 1;
        continue;
      }
      if b[st.sep] == RBRACE {
        end := Some(st.sep);
        return;
      }
      end := None;
      return;
    }
  }
}
