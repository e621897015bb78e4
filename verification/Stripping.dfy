/** `extractAndStripFields`: recover `_project` and `_token` from a datagram and cut both out of the bytes. */
module Stripping {
  import opened Bytes
  import opened Tokens
  import opened Documents

  const PROJECT_KEY: bytes := [0x5F, 0x70, 0x72, 0x6F, 0x6A, 0x65, 0x63, 0x74]
  const TOKEN_KEY: bytes := [0x5F, 0x74, 0x6F, 0x6B, 0x65, 0x6E]
  const PROJECT_MARKER: bytes := [QUOTE] + (PROJECT_KEY + [QUOTE])
  const TOKEN_MARKER: bytes := [QUOTE] + (TOKEN_KEY + [QUOTE])

  /** What the standard library decides: UTF-8 validity, and decoding of a quoted JSON string. */
  datatype Codec = Codec(utf8Valid: bytes -> bool, unmarshal: bytes -> Option<bytes>)

  datatype RoutingFields = RoutingFields(
    project: bytes, token: bytes, stripped: bytes,
    removed: bool, malformed: bool, badProject: bool, badToken: bool)

  function Miss(b: bytes): RoutingFields { RoutingFields([], [], b, false, false, false, false) }

  function Broken(b: bytes): RoutingFields { RoutingFields([], [], b, false, true, false, false) }

  predicate Contains(b: bytes, m: bytes) { exists i :: 0 <= i <= |b| && At(b, i, m) }

  // ---------------------------------------------------------------- decoding the routing values

  function Unquote(codec: Codec, raw: bytes): Option<bytes> {
    if |raw| < 2 || raw[0] != QUOTE || raw[|raw| - 1] != QUOTE then None
    else
      var inner := raw[1..|raw| - 1];
      if BACKSLASH !in inner && codec.utf8Valid(inner) then Some(inner) else codec.unmarshal(raw)
  }

  /** A routing value counts only when it is a string that decodes. */
  function Intent(codec: Codec, value: bytes): Option<bytes> {
    if value != [] && value[0] == QUOTE then Unquote(codec, value) else None
  }

  /** Last occurrence wins: absent, present but unusable, or present with a decoded string. */
  datatype Reading = Absent | Unusable | Usable(text: bytes) {
    function Text(): bytes { if Usable? then text else [] }
  }

  function Judge(codec: Codec, value: bytes): Reading {
    match Intent(codec, value) case None => Unusable case Some(t) => Usable(t)
  }

  function LastOf(codec: Codec, fields: seq<Field>, key: bytes): Reading {
    if fields == [] then Absent
    else
      var f := fields[|fields| - 1];
      if f.key == key then Judge(codec, f.value) else LastOf(codec, fields[..|fields| - 1], key)
  }

  // ---------------------------------------------------------------- what is left of the object

  predicate RoutingKey(key: bytes, withToken: bool) { key == PROJECT_KEY || (withToken && key == TOKEN_KEY) }

  predicate Hit(f: Field, withToken: bool) { RoutingKey(f.key, withToken) }

  predicate AllHits(fields: seq<Field>, withToken: bool) {
    forall k :: 0 <= k < |fields| ==> Hit(fields[k], withToken)
  }

  predicate NoHits(fields: seq<Field>, withToken: bool) {
    forall k :: 0 <= k < |fields| ==> !Hit(fields[k], withToken)
  }

  function Lead(fields: seq<Field>): bytes {
    if fields == [] then [] else Lead(fields[..|fields| - 1]) + fields[|fields| - 1].before
  }

  /** The surviving members. Blanks before removed leading members move to the front of the first
      survivor, blanks behind any other removed member move behind the survivor before it. */
  function Kept(fields: seq<Field>, withToken: bool): (r: seq<Field>)
    ensures r == [] <==> AllHits(fields, withToken)
  {
    if fields == [] then []
    else
      var init, f := fields[..|fields| - 1], fields[|fields| - 1];
      var r := Kept(init, withToken);
      if r == [] then
        if Hit(f, withToken) then [] else [f.(before := Lead(init) + f.before)]
      else if Hit(f, withToken) then
        r[|r| - 1 := r[|r| - 1].(after := r[|r| - 1].after + f.after)]
      else r + [f]
  }

  /** The members that are not routing fields, in order. */
  function Payload(members: seq<(bytes, bytes)>, withToken: bool): seq<(bytes, bytes)> {
    if members == [] then []
    else
      var init, m := members[..|members| - 1], members[|members| - 1];
      Payload(init, withToken) + (if RoutingKey(m.0, withToken) then [] else [m])
  }

  function StripDoc(doc: Doc, withToken: bool): Doc { doc.(fields := Kept(doc.fields, withToken)) }

  const EMPTY_OBJECT: bytes := [LBRACE, RBRACE]

  function StrippedText(doc: Doc, withToken: bool): bytes {
    if AllHits(doc.fields, withToken) then EMPTY_OBJECT else StripDoc(doc, withToken).Text()
  }

  /** What a completed walk over `b` reports. */
  function Outcome(codec: Codec, b: bytes, doc: Doc, withToken: bool): RoutingFields {
    if NoHits(doc.fields, withToken) then Miss(b)
    else
      var p := LastOf(codec, doc.fields, PROJECT_KEY);
      var t := if withToken then LastOf(codec, doc.fields, TOKEN_KEY) else Absent;
      RoutingFields(p.Text(), t.Text(), StrippedText(doc, withToken), true, false, p.Unusable?, t.Unusable?)
  }

  /** The verdict without the substring prefilter. */
  function ExtractByScan(codec: Codec, b: bytes, withToken: bool, cap: nat): RoutingFields {
    match ScanObject(b, cap)
    case Malformed => Broken(b)
    case NotObject => Miss(b)
    case EmptyObject(_, _, _) => Miss(b)
    case Members(doc) => Outcome(codec, b, doc, withToken)
  }

  predicate Marked(b: bytes, withToken: bool) {
    Contains(b, PROJECT_MARKER) || (withToken && Contains(b, TOKEN_MARKER))
  }

  function Extract(codec: Codec, b: bytes, withToken: bool): RoutingFields {
    if !Marked(b, withToken) then Miss(b) else ExtractByScan(codec, b, withToken, MAX_SCAN_DEPTH)
  }

  // ---------------------------------------------------------------- facts about the survivors

  lemma {:induction false} KeptPairs(fields: seq<Field>, withToken: bool)
    ensures Pairs(Kept(fields, withToken)) == Payload(Pairs(fields), withToken)
    decreases |fields|
  {
    if fields != [] {
      var n := |fields| - 1;
      assert Pairs(fields)[..n] == Pairs(fields[..n]);
      KeptPairs(fields[..n], withToken);
    }
  }

  lemma {:induction false} LeadSpace(fields: seq<Field>, cap: nat)
    requires AllValid(fields, cap)
    ensures AllSpace(Lead(fields))
    decreases |fields|
  {
    if fields != [] {
      LeadSpace(fields[..|fields| - 1], cap);
    }
  }

  /** Surviving members are written well and none of them is a routing field. */
  ghost predicate Surviving(fields: seq<Field>, withToken: bool, cap: nat) {
    AllValid(fields, cap) && NoHits(fields, withToken)
  }

  lemma SurvivingSnoc(fields: seq<Field>, f: Field, withToken: bool, cap: nat)
    requires Surviving(fields, withToken, cap) && f.Valid(cap) && !Hit(f, withToken)
    ensures Surviving(fields + [f], withToken, cap)
  {
    hide Field.Valid, Hit;
  }

  lemma SurvivingFirst(f: Field, lead: bytes, withToken: bool, cap: nat)
    requires f.Valid(cap) && AllSpace(lead)
    ensures Surviving([], withToken, cap)
    ensures !Hit(f, withToken) ==> Surviving([f.(before := lead + f.before)], withToken, cap)
  {
    hide StringBody, ValueText;
  }

  lemma SurvivingTrail(fields: seq<Field>, w: bytes, withToken: bool, cap: nat)
    requires fields != [] && Surviving(fields, withToken, cap) && AllSpace(w)
    ensures var last := fields[|fields| - 1]; Surviving(fields[|fields| - 1 := last.(after := last.after + w)],
            withToken, cap)
  {
    hide StringBody, ValueText;
    assert fields[|fields| - 1].Valid(cap) && !Hit(fields[|fields| - 1], withToken);
  }

  lemma {:induction false} KeptValid(fields: seq<Field>, withToken: bool, cap: nat)
    requires AllValid(fields, cap)
    ensures Surviving(Kept(fields, withToken), withToken, cap)
    decreases |fields|
  {
    hide StringBody, ValueText;
    if fields != [] {
      var init, f := fields[..|fields| - 1], fields[|fields| - 1];
      assert AllValid(init, cap) && f.Valid(cap);
      KeptValid(init, withToken, cap);
      LeadSpace(init, cap);
      hide AllValid, NoHits, Surviving, Hit;
      var r := Kept(init, withToken);
      if r == [] {
        SurvivingFirst(f, Lead(init), withToken, cap);
      } else if Hit(f, withToken) {
        SurvivingTrail(r, f.after, withToken, cap);
      } else {
        SurvivingSnoc(r, f, withToken, cap);
      }
    }
  }

  lemma {:induction false} KeptIdentity(fields: seq<Field>, withToken: bool)
    requires NoHits(fields, withToken)
    ensures Kept(fields, withToken) == fields
    decreases |fields|
  {
    if fields != [] {
      var init := fields[..|fields| - 1];
      KeptIdentity(init, withToken);
      assert fields == init + [fields[|fields| - 1]];
      if init == [] {
        assert Lead(init) + fields[0].before == fields[0].before;
      }
    }
  }

  // ---------------------------------------------------------------- the text of the survivors

  function KeptText(fields: seq<Field>, withToken: bool): bytes {
    if fields == [] then []
    else
      var init, f := fields[..|fields| - 1], fields[|fields| - 1];
      KeptText(init, withToken) +
      if AllHits(init, withToken) then (if Hit(f, withToken) then f.before else f.Text())
      else if Hit(f, withToken) then f.after
      else [COMMA] + f.Text()
  }

  lemma {:induction false} KeptTextLead(fields: seq<Field>, withToken: bool)
    requires AllHits(fields, withToken)
    ensures KeptText(fields, withToken) == Lead(fields)
    decreases |fields|
  {
    if fields != [] {
      KeptTextLead(fields[..|fields| - 1], withToken);
    }
  }

  lemma TextLead(f: Field, w: bytes)
    ensures f.(before := w + f.before).Text() == w + f.Text()
  {
  }

  lemma TextTrail(f: Field, w: bytes)
    ensures f.(after := f.after + w).Text() == f.Text() + w
  {
    assert f.(after := f.after + w).Core() == f.Core();
  }

  lemma JoinTrail(fs: seq<Field>, w: bytes)
    requires fs != []
    ensures var last := fs[|fs| - 1];
            Join(fs[|fs| - 1 := last.(after := last.after + w)]) == Join(fs) + w
  {
    hide Field.Text;
    var last := fs[|fs| - 1];
    TextTrail(last, w);
    var init := fs[..|fs| - 1];
    var fs' := fs[|fs| - 1 := last.(after := last.after + w)];
    assert fs'[..|fs'| - 1] == init;
    if init != [] {
      assert Join(fs') == Join(init) + ([COMMA] + (last.Text() + w));
      assert Join(fs) == Join(init) + ([COMMA] + last.Text());
    }
  }

  lemma JoinSnoc(fs: seq<Field>, f: Field)
    requires fs != []
    ensures Join(fs + [f]) == Join(fs) + ([COMMA] + f.Text())
  {
    assert (fs + [f])[..|fs|] == fs;
  }

  lemma {:induction false} KeptTextIsJoin(fields: seq<Field>, withToken: bool)
    requires !AllHits(fields, withToken)
    ensures KeptText(fields, withToken) == Join(Kept(fields, withToken))
    decreases |fields|
  {
    hide Field.Text, Join;
    var init, f := fields[..|fields| - 1], fields[|fields| - 1];
    if AllHits(init, withToken) {
      KeptTextLead(init, withToken);
      TextLead(f, Lead(init));
      JoinOne(f.(before := Lead(init) + f.before));
    } else {
      KeptTextIsJoin(init, withToken);
      var r := Kept(init, withToken);
      if Hit(f, withToken) {
        JoinTrail(r, f.after);
      } else {
        JoinSnoc(r, f);
      }
    }
  }

  // ---------------------------------------------------------------- where the members and the cuts lie

  /** Bytes taken by the members together with one separator each. */
  function Width(fields: seq<Field>): nat {
    if fields == [] then 0 else Width(fields[..|fields| - 1]) + |fields[|fields| - 1].Text()| + 1
  }

  lemma {:induction false} JoinWidth(fields: seq<Field>)
    requires fields != []
    ensures |Join(fields)| + 1 == Width(fields)
    decreases |fields|
  {
    if |fields| > 1 {
      JoinWidth(fields[..|fields| - 1]);
    } else {
      assert fields[..0] == [];
    }
  }

  /** Each member lies at its width offset, with a comma on every side that has a neighbour. */
  lemma {:induction false} FieldPlace(b: bytes, base: nat, fields: seq<Field>, j: nat)
    requires j < |fields| && At(b, base, Join(fields))
    ensures var s := base + Width(fields[..j]);
            && At(b, s, fields[j].Text())
            && (j > 0 ==> 0 < s <= |b| && b[s - 1] == COMMA)
            && (j + 1 < |fields| ==> s + |fields[j].Text()| < |b| && b[s + |fields[j].Text()|] == COMMA)
    decreases |fields|
  {
    hide At, Field.Text;
    var n := |fields| - 1;
    var init, f := fields[..n], fields[n];
    if n == 0 {
      assert fields[..0] == [];
    } else {
      AtConcat(b, base, Join(init), [COMMA] + f.Text());
      var c := base + |Join(init)|;
      AtConcat(b, c, [COMMA], f.Text());
      AtHead(b, c, [COMMA]);
      JoinWidth(init);
      if j < n {
        assert init[..j] == fields[..j];
        FieldPlace(b, base, init, j);
        if j == n - 1 {
          assert init == init[..j] + [init[j]];
        }
      }
    }
  }

  datatype Span = Span(keyStart: nat, valEnd: nat, idx: nat)

  datatype Cut = Cut(start: nat, end: nat)

  function SpanOf(f: Field, s: nat, idx: nat): Span {
    Span(s + |f.before|, s + |f.before| + |f.Core()|, idx)
  }

  /** A hit inside the leading run of hits takes the comma behind it, any other the comma before it. */
  function CutOf(f: Field, s: nat, leading: bool): Cut
    requires !leading ==> s > 0
  {
    if leading then Cut(s + |f.before|, s + |f.Text()| + 1)
    else Cut(s - 1, s + |f.before| + |f.Core()|)
  }

  function Spans(fields: seq<Field>, base: nat, withToken: bool): (r: seq<Span>)
    ensures |r| <= |fields| && (|r| == |fields| <==> AllHits(fields, withToken))
    ensures |r| == 0 <==> NoHits(fields, withToken)
  {
    if fields == [] then []
    else
      var init, f := fields[..|fields| - 1], fields[|fields| - 1];
      Spans(init, base, withToken) +
      if Hit(f, withToken) then [SpanOf(f, base + Width(init), |init|)] else []
  }

  function Cuts(fields: seq<Field>, base: nat, withToken: bool): (r: seq<Cut>)
    requires base > 0
    ensures |r| == |Spans(fields, base, withToken)|
  {
    if fields == [] then []
    else
      var init, f := fields[..|fields| - 1], fields[|fields| - 1];
      Cuts(init, base, withToken) +
      if Hit(f, withToken) then [CutOf(f, base + Width(init), AllHits(init, withToken))] else []
  }

  /** The k-th hit is in the leading run exactly when its member index is k. */
  lemma {:induction false} SpanAndCut(fields: seq<Field>, base: nat, withToken: bool, k: nat)
    requires base > 0 && k < |Spans(fields, base, withToken)|
    ensures var h := Spans(fields, base, withToken)[k];
            && h.idx < |fields| && Hit(fields[h.idx], withToken)
            && h == SpanOf(fields[h.idx], base + Width(fields[..h.idx]), h.idx)
            && Cuts(fields, base, withToken)[k] == CutOf(fields[h.idx], base + Width(fields[..h.idx]), h.idx == k)
            && (h.idx == k <==> AllHits(fields[..h.idx], withToken))
    decreases |fields|
  {
    hide Field.Text, Field.Core, Hit, CutOf, Width;
    var n := |fields| - 1;
    var init := fields[..n];
    var before := Spans(init, base, withToken);
    if k < |before| {
      SpanAndCut(init, base, withToken, k);
      var j := before[k].idx;
      assert init[..j] == fields[..j];
    }
  }

  // ---------------------------------------------------------------- splicing

  function EndOf(cuts: seq<Cut>): nat { if cuts == [] then 0 else cuts[|cuts| - 1].end }

  predicate InOrder(b: bytes, cuts: seq<Cut>) {
    cuts == [] ||
    var init, c := cuts[..|cuts| - 1], cuts[|cuts| - 1];
    InOrder(b, init) && EndOf(init) <= c.start <= c.end <= |b|
  }

  /** What stays of `b` up to the end of the last cut. */
  function Spliced(b: bytes, cuts: seq<Cut>): bytes
    requires InOrder(b, cuts)
  {
    if cuts == [] then []
    else
      var init, c := cuts[..|cuts| - 1], cuts[|cuts| - 1];
      Spliced(b, init) + b[EndOf(init)..c.start]
  }

  /** What stays of `b` up to `stop`. */
  function Applied(b: bytes, cuts: seq<Cut>, stop: nat): bytes
    requires InOrder(b, cuts) && EndOf(cuts) <= stop <= |b|
  {
    Spliced(b, cuts) + b[EndOf(cuts)..stop]
  }

  lemma AppliedExtend(b: bytes, cuts: seq<Cut>, from: nat, s: bytes)
    requires InOrder(b, cuts) && EndOf(cuts) <= from && At(b, from, s)
    ensures Applied(b, cuts, from + |s|) == Applied(b, cuts, from) + s
  {
    hide InOrder, EndOf, Spliced;
    var e := EndOf(cuts);
    assert b[e..from + |s|] == b[e..from] + b[from..from + |s|];
  }

  lemma AppliedCut(b: bytes, cuts: seq<Cut>, c: Cut)
    requires InOrder(b, cuts) && EndOf(cuts) <= c.start <= c.end <= |b|
    ensures var cuts' := cuts + [c];
            InOrder(b, cuts') && EndOf(cuts') == c.end && Applied(b, cuts', c.end) == Applied(b, cuts, c.start)
  {
    assert (cuts + [c])[..|cuts|] == cuts;
    assert b[c.end..c.end] == [];
  }

  /** Up to `stop` the spliced bytes are the first `base` bytes and then `kept`. */
  ghost predicate Leaves(b: bytes, base: nat, cuts: seq<Cut>, stop: int, kept: bytes) {
    && base <= |b| && InOrder(b, cuts) && EndOf(cuts) <= stop <= |b|
    && Applied(b, cuts, stop) == b[..base] + kept
  }

  /** Up to the start of the next member (inside the leading run) or up to the separator before it
      (behind a survivor), the spliced bytes are the head of the object and the text of the survivors. */
  ghost predicate SplicesTo(b: bytes, base: nat, fs: seq<Field>, withToken: bool)
    requires base > 0
  {
    Leaves(b, base, Cuts(fs, base, withToken), base + Width(fs) - (if AllHits(fs, withToken) then 0 else 1),
      KeptText(fs, withToken))
  }

  lemma {:induction false} SplicePrefix(b: bytes, base: nat, all: seq<Field>, m: nat, withToken: bool)
    requires 0 < base && m <= |all| && At(b, base, Join(all)) && all != []
    requires base + |Join(all)| < |b|
    ensures SplicesTo(b, base, all[..m], withToken)
    decreases m
  {
    hide SplicesTo, Join, Width, At, Field.Text, Hit;
    if m == 0 {
      SplicesToStart(b, base, withToken);
    } else {
      SplicePrefix(b, base, all, m - 1, withToken);
      var fs, f := all[..m - 1], all[m - 1];
      assert all[..m] == fs + [f];
      FieldPlace(b, base, all, m - 1);
      StartBound(b, base, all, m);
      if AllHits(fs, withToken) {
        SpliceLeading(b, base, fs, f, withToken);
      } else {
        SpliceFollowing(b, base, fs, f, withToken);
      }
    }
  }

  lemma SplicesToStart(b: bytes, base: nat, withToken: bool)
    requires 0 < base <= |b|
    ensures SplicesTo(b, base, [], withToken)
  {
    assert b[0..base] == b[..base] + [];
  }

  lemma StartBound(b: bytes, base: nat, all: seq<Field>, m: nat)
    requires 0 < m <= |all| && At(b, base, Join(all)) && base + |Join(all)| < |b|
    ensures base + Width(all[..m - 1]) + |all[m - 1].Text()| < |b|
  {
    FieldPlace(b, base, all, m - 1);
    if m == |all| {
      JoinWidth(all);
    }
  }

  lemma SnocFacts(base: nat, fs: seq<Field>, f: Field, withToken: bool)
    requires base > 0
    ensures AllHits(fs + [f], withToken) <==> AllHits(fs, withToken) && Hit(f, withToken)
    ensures Width(fs + [f]) == Width(fs) + |f.Text()| + 1
    ensures Cuts(fs + [f], base, withToken) == Cuts(fs, base, withToken) +
              if Hit(f, withToken) then [CutOf(f, base + Width(fs), AllHits(fs, withToken))] else []
    ensures KeptText(fs + [f], withToken) == KeptText(fs, withToken) +
              if AllHits(fs, withToken) then (if Hit(f, withToken) then f.before else f.Text())
              else if Hit(f, withToken) then f.after
              else [COMMA] + f.Text()
  {
    hide Hit, Field.Text, Field.Core;
    assert (fs + [f])[..|fs|] == fs && (fs + [f])[|fs|] == f;
    if AllHits(fs + [f], withToken) {
      assert forall k :: 0 <= k < |fs| ==> (fs + [f])[k] == fs[k];
    }
  }

  lemma LeavesMore(b: bytes, base: nat, cuts: seq<Cut>, stop: nat, kept: bytes, s: bytes)
    requires Leaves(b, base, cuts, stop, kept) && At(b, stop, s)
    ensures Leaves(b, base, cuts, stop + |s|, kept + s)
  {
    hide InOrder, EndOf, Applied;
    AppliedExtend(b, cuts, stop, s);
    Associative(b[..base], kept, s);
  }

  lemma LeavesCut(b: bytes, base: nat, cuts: seq<Cut>, kept: bytes, c: Cut)
    requires Leaves(b, base, cuts, c.start, kept) && c.start <= c.end <= |b|
    ensures Leaves(b, base, cuts + [c], c.end, kept)
  {
    hide InOrder, EndOf, Applied;
    AppliedCut(b, cuts, c);
  }

  lemma SpliceLeadingHit(b: bytes, base: nat, fs: seq<Field>, f: Field, withToken: bool)
    requires base > 0 && AllHits(fs, withToken) && Hit(f, withToken) && SplicesTo(b, base, fs, withToken)
    requires var s := base + Width(fs); At(b, s, f.Text()) && s + |f.Text()| < |b|
    ensures SplicesTo(b, base, fs + [f], withToken)
  {
    hide CutOf, Leaves, Cuts, KeptText, AllHits, Hit, Width, At, Field.Core, Field.Text;
    var s, cuts, kept := base + Width(fs), Cuts(fs, base, withToken), KeptText(fs, withToken);
    SnocFacts(base, fs, f, withToken);
    TextParts(b, s, f);
    LeavesMore(b, base, cuts, s, kept, f.before);
    LeadingCutEnd(f, s);
    LeavesCut(b, base, cuts, kept + f.before, CutOf(f, s, true));
  }

  lemma LeadingCutEnd(f: Field, s: nat)
    ensures var c := CutOf(f, s, true); c.start == s + |f.before| && c.end == s + |f.Text()| + 1
  {
  }

  lemma SpliceLeadingKept(b: bytes, base: nat, fs: seq<Field>, f: Field, withToken: bool)
    requires base > 0 && AllHits(fs, withToken) && !Hit(f, withToken) && SplicesTo(b, base, fs, withToken)
    requires var s := base + Width(fs); At(b, s, f.Text()) && s + |f.Text()| < |b|
    ensures SplicesTo(b, base, fs + [f], withToken)
  {
    hide Leaves, Cuts, KeptText, AllHits, Hit, Width, At, Field.Core, Field.Text;
    var s, cuts, kept := base + Width(fs), Cuts(fs, base, withToken), KeptText(fs, withToken);
    SnocFacts(base, fs, f, withToken);
    LeavesMore(b, base, cuts, s, kept, f.Text());
    AppendNothing(cuts);
  }

  lemma SpliceLeading(b: bytes, base: nat, fs: seq<Field>, f: Field, withToken: bool)
    requires base > 0 && AllHits(fs, withToken) && SplicesTo(b, base, fs, withToken)
    requires var s := base + Width(fs); At(b, s, f.Text()) && s + |f.Text()| < |b|
    ensures SplicesTo(b, base, fs + [f], withToken)
  {
    hide SplicesTo, AllHits, Hit, Width, At, Field.Core, Field.Text;
    if Hit(f, withToken) {
      SpliceLeadingHit(b, base, fs, f, withToken);
    } else {
      SpliceLeadingKept(b, base, fs, f, withToken);
    }
  }

  lemma TextParts(b: bytes, s: nat, f: Field)
    requires At(b, s, f.Text())
    ensures At(b, s, f.before) && At(b, s + |f.before| + |f.Core()|, f.after)
    ensures |f.Text()| == |f.before| + |f.Core()| + |f.after|
  {
    AtConcat(b, s, f.before, f.Core() + f.after);
    AtConcat(b, s + |f.before|, f.Core(), f.after);
  }

  lemma SpliceFollowingHit(b: bytes, base: nat, fs: seq<Field>, f: Field, withToken: bool)
    requires base > 0 && !AllHits(fs, withToken) && Hit(f, withToken) && SplicesTo(b, base, fs, withToken)
    requires var s := base + Width(fs); At(b, s, f.Text()) && s + |f.Text()| < |b| && b[s - 1] == COMMA
    ensures SplicesTo(b, base, fs + [f], withToken)
  {
    hide Leaves, Cuts, KeptText, AllHits, Hit, Width, At, Field.Core, Field.Text;
    var s, cuts, kept := base + Width(fs), Cuts(fs, base, withToken), KeptText(fs, withToken);
    SnocFacts(base, fs, f, withToken);
    TextParts(b, s, f);
    LeavesCut(b, base, cuts, kept, CutOf(f, s, false));
    LeavesMore(b, base, cuts + [CutOf(f, s, false)], s + |f.before| + |f.Core()|, kept, f.after);
  }

  lemma SpliceFollowingKept(b: bytes, base: nat, fs: seq<Field>, f: Field, withToken: bool)
    requires base > 0 && !AllHits(fs, withToken) && !Hit(f, withToken) && SplicesTo(b, base, fs, withToken)
    requires var s := base + Width(fs); At(b, s, f.Text()) && s + |f.Text()| < |b| && b[s - 1] == COMMA
    ensures SplicesTo(b, base, fs + [f], withToken)
  {
    hide Leaves, Cuts, KeptText, AllHits, Hit, Width, At, Field.Core, Field.Text;
    var s, cuts, kept := base + Width(fs), Cuts(fs, base, withToken), KeptText(fs, withToken);
    SnocFacts(base, fs, f, withToken);
    AtOne(b, s - 1);
    AppendNothing(cuts);
    AtConcat(b, s - 1, [COMMA], f.Text());
    LeavesMore(b, base, cuts, s - 1, kept, [COMMA] + f.Text());
  }

  lemma SpliceFollowing(b: bytes, base: nat, fs: seq<Field>, f: Field, withToken: bool)
    requires base > 0 && !AllHits(fs, withToken) && SplicesTo(b, base, fs, withToken)
    requires var s := base + Width(fs); At(b, s, f.Text()) && s + |f.Text()| < |b| && b[s - 1] == COMMA
    ensures SplicesTo(b, base, fs + [f], withToken)
  {
    hide SplicesTo, AllHits, Hit, Width, At, Field.Core, Field.Text;
    if Hit(f, withToken) {
      SpliceFollowingHit(b, base, fs, f, withToken);
    } else {
      SpliceFollowingKept(b, base, fs, f, withToken);
    }
  }

  lemma SpliceRest(b: bytes, base: nat, fs: seq<Field>, rest: bytes, withToken: bool)
    requires base > 0 && fs != [] && !AllHits(fs, withToken) && SplicesTo(b, base, fs, withToken)
    requires At(b, base + |Join(fs)|, rest) && base + |Join(fs)| + |rest| == |b|
    ensures var cuts := Cuts(fs, base, withToken);
            && InOrder(b, cuts) && EndOf(cuts) <= |b|
            && Spliced(b, cuts) + b[EndOf(cuts)..] == (b[..base] + Join(Kept(fs, withToken))) + rest
  {
    hide Cuts, InOrder, EndOf, Applied, KeptText, Join, Kept, AllHits, At, Width, SplicesTo;
    var cuts := Cuts(fs, base, withToken);
    JoinWidth(fs);
    KeptTextIsJoin(fs, withToken);
    SplicesToSurvivors(b, base, fs, withToken);
    AppliedExtend(b, cuts, base + |Join(fs)|, rest);
    AppliedAll(b, cuts);
  }

  /** Cutting the planned ranges out of the datagram leaves exactly the printed surviving object. */
  lemma SpliceCorrect(b: bytes, doc: Doc, withToken: bool)
    requires b == doc.Text() && doc.fields != [] && !AllHits(doc.fields, withToken)
    ensures var cuts := Cuts(doc.fields, |doc.before| + 1, withToken);
            && InOrder(b, cuts) && EndOf(cuts) <= |b|
            && Spliced(b, cuts) + b[EndOf(cuts)..] == StripDoc(doc, withToken).Text()
  {
    hide Cuts, InOrder, Spliced, EndOf, Join, Kept, AllHits, At, SplicesTo;
    var base, all := |doc.before| + 1, doc.fields;
    DocParts(b, doc);
    SplicePrefix(b, base, all, |all|, withToken);
    assert all[..|all|] == all;
    SpliceRest(b, base, all, [RBRACE] + doc.tail, withToken);
    Reassociate(doc.before, Join(Kept(all, withToken)), doc.tail);
  }

  lemma Reassociate(before: bytes, kept: bytes, tail: bytes)
    ensures ((before + [LBRACE]) + kept) + ([RBRACE] + tail) == before + ([LBRACE] + ((kept + [RBRACE]) + tail))
  {
  }

  lemma SplicesToSurvivors(b: bytes, base: nat, fs: seq<Field>, withToken: bool)
    requires base > 0 && !AllHits(fs, withToken) && SplicesTo(b, base, fs, withToken)
    ensures var cuts := Cuts(fs, base, withToken); var stop := base + Width(fs) - 1;
            && InOrder(b, cuts) && EndOf(cuts) <= stop <= |b|
            && Applied(b, cuts, stop) == b[..base] + KeptText(fs, withToken)
  {
    hide Cuts, InOrder, EndOf, Applied, KeptText, AllHits, Width;
  }

  lemma AppliedAll(b: bytes, cuts: seq<Cut>)
    requires InOrder(b, cuts) && EndOf(cuts) <= |b|
    ensures Applied(b, cuts, |b|) == Spliced(b, cuts) + b[EndOf(cuts)..]
  {
    assert b[EndOf(cuts)..|b|] == b[EndOf(cuts)..];
  }

  lemma DocParts(b: bytes, doc: Doc)
    requires b == doc.Text()
    ensures var base := |doc.before| + 1; var stop := base + |Join(doc.fields)|;
            && base <= stop < |b| && b[..base] == doc.before + [LBRACE]
            && At(b, base, Join(doc.fields)) && At(b, stop, [RBRACE] + doc.tail)
            && stop + |[RBRACE] + doc.tail| == |b|
  {
    hide Join;
    var base := |doc.before| + 1;
    var rest := [RBRACE] + doc.tail;
    assert b == (doc.before + [LBRACE]) + (Join(doc.fields) + rest);
    AtAll(b);
    AtConcat(b, 0, doc.before + [LBRACE], Join(doc.fields) + rest);
    AtConcat(b, base, Join(doc.fields), rest);
  }
}
