/** Concrete datagrams: what the extraction and the validation make of them in every deployment. */
module Witnesses {
  import opened Bytes
  import opened Tokens
  import opened Documents
  import opened Stripping
  import opened Laws
  import opened Rfc8259
  import opened Events
  import opened Protocol
  import opened EndToEnd
  import opened Hazards

  /** The libraries take ASCII for valid UTF-8, and accept JSON objects nested no deeper than the scanner does. */
  ghost predicate Ordinary(codec: Codec, std: Std) {
    && (forall s: bytes :: (forall k :: 0 <= k < |s| ==> s[k] < 0x80) ==> codec.utf8Valid(s))
    && (forall b, j :: ObjectText(b, j) && Depth(j) <= MAX_SCAN_DEPTH ==> std.valid(b))
  }

  /** A configuration that the agent accepts, running with the modelled extraction and validation. */
  ghost predicate Deployed(cfg: Config, codec: Codec, std: Std) {
    && Wired(cfg, codec, std) && Ordinary(codec, std)
    && cfg.queueSize > 0 && cfg.maxBatch > 0 && cfg.maxEventBytes >= 1024 && exists stamp :: cfg.clock(stamp)
  }

  /** `a`, `b`, `t`, `x`. */
  const NAME_A: bytes := [0x61]
  const NAME_B: bytes := [0x62]
  const TOKEN_T: bytes := [0x74]
  const KEY_X: bytes := [0x78]

  /** One letter. */
  predicate Letter(s: bytes) { |s| == 1 && 0x61 <= s[0] <= 0x7A }

  function Quoted(s: bytes): bytes { [QUOTE] + (s + [QUOTE]) }

  function Member(key: bytes, value: bytes): Field { Field([], key, [], [], value, []) }

  const ONE_X: Field := Member(KEY_X, [ONE])

  /** `{"_project":"a","_token":"t"}`, for any letter in place of the `a`. */
  function Tokened(name: bytes): Doc {
    Doc([], [Member(PROJECT_KEY, Quoted(name)), Member(TOKEN_KEY, Quoted(TOKEN_T))], [])
  }

  /** `{"_project":"a","x":1}`. */
  const PLAIN: Doc := Doc([], [Member(PROJECT_KEY, Quoted(NAME_A)), ONE_X], [])

  /** `{"x":1}`. */
  const BARE: Doc := Doc([], [ONE_X], [])

  lemma LetterOk(s: bytes, codec: Codec, std: Std)
    requires Letter(s) && Ordinary(codec, std)
    ensures JsonString(s) && StringBody(s) && BACKSLASH !in s && codec.utf8Valid(s)
            && ValueText(Quoted(s), MAX_SCAN_DEPTH)
    ensures Intent(codec, Quoted(s)) == Some(s)
  {
    JsonPlain(s);
    JsonStringIsBody(s);
    assert Quoted(s)[1..|Quoted(s)| - 1] == s;
    QuotedValue(s);
  }

  lemma QuotedValue(s: bytes)
    requires JsonString(s)
    ensures ValueText(Quoted(s), MAX_SCAN_DEPTH)
  {
    AsValueFacts(JString(s), MAX_SCAN_DEPTH);
    ValueTextOf(AsValue(JString(s)), MAX_SCAN_DEPTH);
  }

  const NUMBER_ONE: Number := Number([], [ONE], [], [])

  lemma OneValue()
    ensures JsonOk(JNumber(NUMBER_ONE)) && JsonText(JNumber(NUMBER_ONE)) == [ONE] && ValueText([ONE], MAX_SCAN_DEPTH)
  {
    var j := JNumber(NUMBER_ONE);
    assert [ONE] == [] + [ONE] + [] + [];
    AsValueFacts(j, MAX_SCAN_DEPTH);
    ValueTextOf(AsValue(j), MAX_SCAN_DEPTH);
  }

  lemma KeysOkay()
    ensures StringBody(PROJECT_KEY) && StringBody(TOKEN_KEY) && StringBody(KEY_X) && AllSpace([])
  {
    JsonPlain(PROJECT_KEY);
    JsonPlain(TOKEN_KEY);
    JsonPlain(KEY_X);
    JsonStringIsBody(PROJECT_KEY);
    JsonStringIsBody(TOKEN_KEY);
    JsonStringIsBody(KEY_X);
  }

  lemma MemberValid(key: bytes, value: bytes)
    requires StringBody(key) && ValueText(value, MAX_SCAN_DEPTH)
    ensures Member(key, value).Valid(MAX_SCAN_DEPTH)
  {
    hide StringBody, ValueText;
  }

  /** A text made of two well-formed members scans to them. */
  lemma TwoScan(f: Field, g: Field)
    requires f.Valid(MAX_SCAN_DEPTH) && g.Valid(MAX_SCAN_DEPTH)
    ensures var doc := Doc([], [f, g], []);
            doc.Valid(MAX_SCAN_DEPTH) && ScanObject(doc.Text(), MAX_SCAN_DEPTH) == Members(doc)
  {
    hide Field.Valid, ScanObject, Doc.Text;
    var doc := Doc([], [f, g], []);
    ScanObjectExact(doc.Text(), MAX_SCAN_DEPTH, doc);
  }

  lemma TokenedIsDoc(name: bytes, codec: Codec, std: Std)
    requires Letter(name) && Ordinary(codec, std)
    ensures Tokened(name).Valid(MAX_SCAN_DEPTH)
    ensures ScanObject(Tokened(name).Text(), MAX_SCAN_DEPTH) == Members(Tokened(name))
  {
    hide JsonString, StringBody, ValueText, Ordinary, ScanObject, Intent, PROJECT_KEY, TOKEN_KEY, Quoted, Member,
      Doc.Text, Doc.Valid;
    LetterOk(name, codec, std);
    LetterOk(TOKEN_T, codec, std);
    KeysOkay();
    MemberValid(PROJECT_KEY, Quoted(name));
    MemberValid(TOKEN_KEY, Quoted(TOKEN_T));
    TwoScan(Member(PROJECT_KEY, Quoted(name)), Member(TOKEN_KEY, Quoted(TOKEN_T)));
  }

  lemma PlainIsDoc(codec: Codec, std: Std)
    requires Ordinary(codec, std)
    ensures PLAIN.Valid(MAX_SCAN_DEPTH) && ScanObject(PLAIN.Text(), MAX_SCAN_DEPTH) == Members(PLAIN)
  {
    hide JsonString, StringBody, ValueText, Ordinary, ScanObject, Intent, PROJECT_KEY, KEY_X, Quoted, Member, Doc.Text,
      Doc.Valid, NUMBER_ONE, JsonText, JsonOk;
    LetterOk(NAME_A, codec, std);
    OneValue();
    KeysOkay();
    MemberValid(PROJECT_KEY, Quoted(NAME_A));
    MemberValid(KEY_X, [ONE]);
    TwoScan(Member(PROJECT_KEY, Quoted(NAME_A)), ONE_X);
  }

  lemma LastOfTwo(codec: Codec, f: Field, g: Field, key: bytes)
    ensures LastOf(codec, [f, g], key) ==
            if g.key == key then Judge(codec, g.value) else if f.key == key then Judge(codec, f.value) else Absent
  {
    hide Judge;
    assert [f, g][..1] == [f] && [f][..0] == [];
    assert LastOf(codec, [], key) == Absent;
    assert LastOf(codec, [f], key) == if f.key == key then Judge(codec, f.value) else LastOf(codec, [f][..0], key);
    assert LastOf(codec, [f, g], key) == if g.key == key then Judge(codec, g.value)
      else LastOf(codec, [f, g][..1], key);
  }

  lemma KeysDiffer()
    ensures PROJECT_KEY != TOKEN_KEY && KEY_X != PROJECT_KEY && KEY_X != TOKEN_KEY
  {
    assert |PROJECT_KEY| == 8 && |TOKEN_KEY| == 6 && |KEY_X| == 1;
  }

  /** Two members, the first of them the project: what the extraction reports. */
  lemma TwoMembers(codec: Codec, doc: Doc, name: bytes)
    requires ScanObject(doc.Text(), MAX_SCAN_DEPTH) == Members(doc) && doc.Valid(MAX_SCAN_DEPTH)
    requires |doc.fields| == 2 && doc.fields[0].key == PROJECT_KEY && doc.fields[1].key != PROJECT_KEY
    requires Intent(codec, doc.fields[0].value) == Some(name)
    ensures var f := Extract(codec, doc.Text(), true);
            && f.removed && !f.malformed && !f.badProject && f.project == name && f.stripped == StrippedText(doc, true)
            && if doc.fields[1].key == TOKEN_KEY
               then f.token == Judge(codec, doc.fields[1].value).Text()
                 && f.badToken == Judge(codec, doc.fields[1].value).Unusable?
               else f.token == [] && !f.badToken
  {
    hide ScanObject, Intent, StrippedText, Doc.Text, Doc.Valid;
    KeysDiffer();
    var f, g := doc.fields[0], doc.fields[1];
    assert doc.fields == [f, g];
    LastOfTwo(codec, f, g, PROJECT_KEY);
    LastOfTwo(codec, f, g, TOKEN_KEY);
    assert Hit(f, true);
    HitIsMarked(doc.Text(), doc, true);
  }

  /** The datagram with a token: a project, a token, and an empty object left. */
  lemma TokenedRoutes(codec: Codec, std: Std, name: bytes)
    requires Letter(name) && Ordinary(codec, std)
    ensures var f := Extract(codec, Tokened(name).Text(), true);
            && f.removed && !f.malformed && !f.badProject && !f.badToken
            && f.project == name && f.token == TOKEN_T && f.stripped == EMPTY_OBJECT
  {
    hide ScanObject, Intent, Ordinary, JsonString, StringBody, ValueText, Extract, Quoted, Doc.Text, Doc.Valid,
      PROJECT_KEY, TOKEN_KEY;
    TokenedIsDoc(name, codec, std);
    LetterOk(name, codec, std);
    LetterOk(TOKEN_T, codec, std);
    KeysDiffer();
    TwoMembers(codec, Tokened(name), name);
    assert AllHits(Tokened(name).fields, true);
  }

  /** The survivor of a leading hit keeps its own text. */
  lemma KeptSecond(f: Field, g: Field)
    requires Hit(f, true) && !Hit(g, true) && f.before == []
    ensures Kept([f, g], true) == [g] && !AllHits([f, g], true)
  {
    hide Hit;
    assert [f, g][..1] == [f] && [f][..0] == [];
    assert Lead([f]) + g.before == g.before;
    assert [f, g][1] == g;
  }

  /** The datagram without a token: a project, no token, and the other member left. */
  lemma PlainRoutes(codec: Codec, std: Std)
    requires Ordinary(codec, std)
    ensures var f := Extract(codec, PLAIN.Text(), true);
            && f.removed && !f.malformed && !f.badProject && !f.badToken
            && f.project == NAME_A && f.token == [] && f.stripped == BARE.Text()
  {
    PlainIsDoc(codec, std);
    LetterOk(NAME_A, codec, std);
    KeysDiffer();
    hide ScanObject, Intent, Ordinary, JsonString, StringBody, ValueText, Extract, Kept, AllHits;
    TwoMembers(codec, PLAIN, NAME_A);
    KeptSecond(PLAIN.fields[0], PLAIN.fields[1]);
    assert PLAIN.fields == [PLAIN.fields[0], PLAIN.fields[1]];
  }

  /** The seven bytes of `{"x":1}`. */
  lemma BareText()
    ensures BARE.Text() == [LBRACE, QUOTE, KEY_X[0], QUOTE, COLON, ONE, RBRACE]
  {
    assert Join([ONE_X]) == ONE_X.Text();
  }

  const BARE_OBJECT: Json := JObject(LastEntry([], KEY_X, [], [], JNumber(NUMBER_ONE), []))

  lemma BareIsObject()
    ensures ObjectText(BARE.Text(), BARE_OBJECT) && Depth(BARE_OBJECT) == 1
  {
    OneValue();
    JsonPlain(KEY_X);
    BareText();
    EntriesOkBareX();
    var es := LastEntry([], KEY_X, [], [], JNumber(NUMBER_ONE), []);
    assert JsonText(JObject(es)) == [LBRACE] + EntriesText(es) + [RBRACE];
    BareDepth();
    hide JsonString, EntriesText, Depth;
  }

  lemma BareDepth()
    ensures Depth(BARE_OBJECT) == 1
  {
    assert Depth(JNumber(NUMBER_ONE)) == 0;
    assert EntriesDepth(LastEntry([], KEY_X, [], [], JNumber(NUMBER_ONE), [])) == 0;
  }

  lemma EntriesOkBareX()
    ensures var es := LastEntry([], KEY_X, [], [], JNumber(NUMBER_ONE), []);
            EntriesOk(es) && EntriesText(es) == [QUOTE, KEY_X[0], QUOTE, COLON, ONE]
  {
    OneValue();
    JsonPlain(KEY_X);
    AllSpaceNil();
    hide JsonText, JsonOk, JsonString;
  }

  /** Every validation with room for seven bytes accepts what is left of the datagram. */
  lemma BareAccepted(codec: Codec, std: Std, maxBytes: nat, stamp: bytes)
    requires Ordinary(codec, std) && maxBytes >= 7
    ensures Validate(std, BARE.Text(), maxBytes, stamp).Accepted?
  {
    BareText();
    BareIsObject();
    var b := BARE.Text();
    hide ObjectText, Inject, TopLevelHasKey, JsonText, BARE, Depth, BARE_OBJECT;
    assert SpaceEnd(b, 0) == 0 && TrimEnd(b, 0, 7) == 7;
    assert b[0..7] == b;
  }

  lemma Sizes(name: bytes)
    requires Letter(name)
    ensures |Tokened(name).Text()| <= 1024 && |PLAIN.Text()| <= 1024
  {
    assert Tokened(name).fields[..1] == [Tokened(name).fields[0]] && PLAIN.fields[..1] == [PLAIN.fields[0]];
    JoinOne(Tokened(name).fields[0]);
    JoinOne(PLAIN.fields[0]);
  }

  // ---------------------------------------------------------------- in every deployment

  lemma TokenedNames(cfg: Config, codec: Codec, std: Std, name: bytes)
    requires Deployed(cfg, codec, std) && Letter(name)
    ensures Names(cfg, Tokened(name).Text(), name, TOKEN_T)
  {
    TokenedRoutes(codec, std, name);
    Sizes(name);
    hide Extract, Ordinary, Tokened, Doc.Text, Validate;
  }

  lemma PlainNames(cfg: Config, codec: Codec, std: Std, stamp: bytes)
    requires Deployed(cfg, codec, std)
    ensures Names(cfg, PLAIN.Text(), NAME_A, [])
    ensures cfg.validate(BodyOf(cfg, PLAIN.Text()), stamp).Accepted?
  {
    PlainRoutes(codec, std);
    Sizes(NAME_A);
    BareAccepted(codec, std, cfg.maxEventBytes, stamp);
    hide Extract, Ordinary, Doc.Text, Validate;
  }

  /** The empty datagram carries no marker, is routed to the default project, and is refused there. */
  lemma EmptyNames(cfg: Config, codec: Codec, std: Std, stamp: bytes)
    requires Wired(cfg, codec, std)
    ensures Names(cfg, [], [], []) && BodyOf(cfg, []) == [] && cfg.validate([], stamp) == ParseError
  {
    NoMarker();
    hide ExtractByScan;
    assert Extract(codec, [], true) == Miss([]);
  }

  lemma NoMarker()
    ensures !Marked([], true)
  {
  }
}
