/** From the socket to the POST: what every posted body says about the datagrams it came from. */
module EndToEnd {
  import opened Bytes
  import opened Tokens
  import opened Documents
  import opened Stripping
  import opened Laws
  import opened Rfc8259
  import opened Events
  import opened Batching
  import opened Registry
  import opened Protocol
  import opened FlowLaws
  import opened Provenance

  /** The protocol runs with the modelled extraction and validation, and a clock that renders JSON strings. */
  ghost predicate Wired(cfg: Config, codec: Codec, std: Std) {
    && (forall b :: cfg.route(b) == Extract(codec, b, true))
    && (forall b, stamp :: cfg.validate(b, stamp) == Validate(std, b, cfg.maxEventBytes, stamp))
    && (forall stamp :: cfg.clock(stamp) ==> JsonString(stamp))
    && std.Sound()
  }

  /** Stripping never lengthens, so the wired agent keeps its queue memory bound. */
  lemma WiredIsValid(cfg: Config, codec: Codec, std: Std)
    requires Wired(cfg, codec, std) && cfg.queueSize > 0 && cfg.maxBatch > 0
    ensures cfg.Valid()
  {
    hide Extract, Validate, JsonString;
    forall b ensures |cfg.route(b).stripped| <= |b| {
      ExtractShrinks(codec, b, true);
    }
  }

  /** The body that travels on is always the stripped one: unchanged when nothing was removed. */
  lemma UnremovedIsWhole(codec: Codec, b: bytes)
    ensures var f := Extract(codec, b, true); !f.removed ==> f.stripped == b
    ensures var f := Extract(codec, b, true); f.removed ==> MembersOf(b).Some?
  {
    hide ScanObject, StrippedText, Marked, MembersOf;
    MembersAtCap(b, MAX_SCAN_DEPTH);
  }

  predicate Clean(members: seq<(bytes, bytes)>) { forall k :: 0 <= k < |members| ==> !RoutingKey(members[k].0, true) }

  /** The event is one JSON object whose members are the datagram's, in order and byte for byte, without
      the routing fields, preceded by a timestamp exactly when none of them is one. */
  ghost predicate Delivers(cfg: Config, std: Std, it: Item, stamp: bytes) {
    && cfg.clock(stamp) && IsObject(it.event) && MembersOf(it.dg.raw).Some?
    && MembersOf(it.event) == Some(Stamped(std, Payload(MembersOf(it.dg.raw).value, true), stamp))
    && Clean(MembersOf(it.event).value)
    && |it.event| <= cfg.maxEventBytes + 15 + |stamp|
  }

  lemma GenuineBody(cfg: Config, codec: Codec, std: Std, dg: Datagram)
    requires Wired(cfg, codec, std) && Genuine(cfg, dg) && MembersOf(dg.body).Some?
    ensures MembersOf(dg.raw).Some? && MembersOf(dg.body).value == Payload(MembersOf(dg.raw).value, true)
  {
    hide Extract, Validate, JsonString, MembersOf;
    UnremovedIsWhole(codec, dg.raw);
    StrippedMembers(codec, dg.raw, true);
  }

  lemma StampIsNotRouting()
    ensures !RoutingKey(TIMESTAMP, true)
  {
    assert TIMESTAMP[0] != PROJECT_KEY[0] && TIMESTAMP[0] != TOKEN_KEY[0];
  }

  lemma StampedClean(std: Std, members: seq<(bytes, bytes)>, stamp: bytes)
    requires Clean(members)
    ensures Clean(Stamped(std, members, stamp))
  {
    hide HasKey, RoutingKey;
    StampIsNotRouting();
    var value: bytes := [QUOTE] + (stamp + [QUOTE]);
    var longer := [(TIMESTAMP, value)] + members;
    forall k | 0 <= k < |longer| ensures !RoutingKey(longer[k].0, true) {
      if k > 0 {
        assert longer[k] == members[k - 1];
      }
    }
  }

  lemma PayloadIsClean(members: seq<(bytes, bytes)>)
    ensures Clean(Payload(members, true))
  {
    PayloadClean(members, true);
  }

  lemma ItemDelivers(cfg: Config, codec: Codec, std: Std, it: Item) returns (stamp: bytes)
    requires Wired(cfg, codec, std) && Genuine(cfg, it.dg) && Validated(cfg, it)
    ensures Delivers(cfg, std, it, stamp)
  {
    stamp :| cfg.clock(stamp) && cfg.validate(it.dg.body, stamp) == Accepted(it.event);
    hide Extract, Validate, JsonString, MembersOf, Genuine, ObjectText, Clean, Payload, Stamped;
    var j := ValidateCorrect(std, it.dg.body, cfg.maxEventBytes, stamp);
    GenuineBody(cfg, codec, std, it.dg);
    PayloadIsClean(MembersOf(it.dg.raw).value);
    StampedClean(std, Payload(MembersOf(it.dg.raw).value, true), stamp);
  }

  // ---------------------------------------------------------------- the posted body

  function PostBody(post: Posted): bytes { Encode(EventsOf(post.batch.items)) }

  /** The body is one JSON object, its array splits into exactly the batch's events, and its size is the
      events' plus one byte each plus the wrapper, within the byte cap unless it is a single event. */
  ghost predicate WellPosted(cfg: Config, post: Posted) {
    var events := EventsOf(post.batch.items);
    && 0 < |events| <= cfg.maxBatch
    && IsObject(PostBody(post)) && SplitFrom(PostBody(post), |EVENTS_PREFIX|) == Some(events)
    && |PostBody(post)| == Weight(events) + 12
    && (|events| > 1 ==> |PostBody(post)| <= MAX_BATCH_BYTES + 12)
  }

  lemma BatchWellPosted(cfg: Config, std: Std, post: Posted)
    requires Sealed(post.batch, cfg.maxBatch)
    requires forall it <- post.batch.items :: exists stamp :: Delivers(cfg, std, it, stamp)
    ensures WellPosted(cfg, post)
  {
    hide Encode, SplitFrom, IsObject, ItemsWeight, Weight, EVENTS_PREFIX, LastToken;
    var events := EventsOf(post.batch.items);
    forall k | 0 <= k < |events| ensures IsObject(events[k]) {
      assert post.batch.items[k] in post.batch.items;
    }
    EncodeRoundTrip(events);
    EncodedIsObject(events);
    SealedSize(post.batch, cfg.maxBatch);
  }

  lemma SealedSize(batch: Batch, maxBatch: nat)
    requires Sealed(batch, maxBatch)
    ensures var body := Encode(EventsOf(batch.items));
            |body| == Weight(EventsOf(batch.items)) + 12 && (|batch.items| > 1 ==> |body| <= MAX_BATCH_BYTES + 12)
  {
    hide Encode, Weight;
    BodySize(batch, maxBatch);
  }

  /** Every POST of every run: its events are its pipeline's datagrams, each faithfully delivered, under a
      credential of theirs or the pipeline's key, in a body that is well formed and splits back into them. */
  lemma EveryPostFaithful(cfg: Config, codec: Codec, std: Std, states: seq<State>, steps: seq<Step>, k: nat, j: nat)
    requires Wired(cfg, codec, std) && Run(cfg, states, steps) && k < |states| && j < |states[k].posts|
    ensures var post := states[k].posts[j];
            && post.pipe < |states[k].pipes| && Entitled(cfg, states[k].pipes[post.pipe], post) && WellPosted(cfg, post)
            && forall it <- post.batch.items :: exists stamp :: Delivers(cfg, std, it, stamp)
  {
    EveryPostEntitled(cfg, states, steps, k, j);
    hide Run;
    PostFaithful(cfg, codec, std, states[k].pipes[states[k].posts[j].pipe], states[k].posts[j]);
  }

  lemma PostFaithful(cfg: Config, codec: Codec, std: Std, p: Pipe, post: Posted)
    requires Wired(cfg, codec, std) && Entitled(cfg, p, post)
    ensures WellPosted(cfg, post) && forall it <- post.batch.items :: exists stamp :: Delivers(cfg, std, it, stamp)
  {
    hide Wired, Delivers, Sealed, Validated, Genuine, WellPosted;
    forall it <- post.batch.items ensures exists stamp :: Delivers(cfg, std, it, stamp) {
      var stamp := ItemDelivers(cfg, codec, std, it);
    }
    BatchWellPosted(cfg, std, post);
  }
}
