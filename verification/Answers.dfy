/**
 What the handlers answer: each decision as an if-and-only-if on the state before and the input, what it
 carries, and what is remembered of it over whole runs.
 */
module Answers {
  import opened Options
  import opened Text
  import opened Config
  import opened Event
  import opened World
  import opened Topics
  import opened Dedupe
  import opened Sync
  import opened Effects
  import opened Laws
  import opened Policy

  /** The answer is the one line the log grows by. */
  ghost predicate Recorded(s: State, o: Outcome) {
    o.state.log == s.log + [o.decision]
  }

  predicate Failure(a: Action) {
    a == ValidationFailed || a == TransportFailed || a == ClipboardWriteFailed || a == TransferUnsupported
  }

  /** Logged, and an error exactly when the action is a failure. */
  ghost predicate Answered(s: State, o: Outcome) {
    Recorded(s, o) && (o.ok <==> !Failure(o.decision.action))
  }

  predicate About(d: Decision, eventID: string, topic: string, size: int, sha256: string, text: string) {
    d.eventID == eventID && d.topic == topic && d.size == size && d.sha256 == sha256 && d.text == text
  }

  // ---------------------------------------------------------------- remote messages

  /** The message gets past the switch and its route. */
  predicate Reaches(s: State, topic: string) {
    && s.cfg.enabled && RouteFor(s.cfg.Routes(), topic).Some?
    && RouteFor(s.cfg.Routes(), topic).value.syncToLocal
  }

  predicate OffersManifest(s: State, topic: string, name: string, payload: Payload, m: Manifest) {
    Reaches(s, topic) && name == TRANSFER_EVENT_NAME && ParseManifest(payload) == Some(m)
  }

  lemma ManifestAnswers(p: Params, s: State, topic: string, payload: Payload)
    ensures var o := HandleTransferManifest(p, s, topic, payload);
            var parsed := ParseManifest(payload);
            && Answered(s, o)
            && (o.decision.action == ValidationFailed <==> parsed.None?)
            && (o.decision.action == IgnoredLocalOrigin <==>
                  parsed.Some? && parsed.value.IsLocalOrigin(p.nodeID, p.instanceID))
            && (o.decision.action == IgnoredDuplicate <==>
                  && parsed.Some? && !parsed.value.IsLocalOrigin(p.nodeID, p.instanceID)
                  && parsed.value.eventID in s.recent.members)
            && (o.decision.action == TransferPending <==>
                  && parsed.Some? && !parsed.value.IsLocalOrigin(p.nodeID, p.instanceID)
                  && parsed.value.eventID !in s.recent.members)
            && (parsed.None? ==> About(o.decision, "", topic, 0, "", ""))
            && (parsed.Some? ==>
                  About(o.decision, parsed.value.eventID, topic, parsed.value.size, parsed.value.sha256, ""))
            && (o.decision.action == TransferPending ==> o.state.recent == Added(s.recent, parsed.value.eventID))
            && (o.decision.action != TransferPending ==> o.state.recent == s.recent)
            && o.state == s.(recent := o.state.recent, log := o.state.log)
  {
    hide ParseManifest, Added, TrimSpace;
  }

  lemma TextAnswers(p: Params, s: State, topic: string, e: TextEvent)
    requires e.eventID != ""
    ensures var o := HandleTextEvent(p, s, topic, e);
            var local := e.IsLocalOrigin(p.nodeID, p.instanceID);
            var written := p.hasClipboard && |s.world.calls| !in p.env.write;
            && Answered(s, o)
            && (o.decision.action == IgnoredLocalOrigin <==> local)
            && (o.decision.action == IgnoredDuplicate <==> !local && !Fresh(s, e))
            && (o.decision.action == RemotePending <==> !local && Fresh(s, e) && !s.cfg.autoApply)
            && (o.decision.action == RemoteApplied <==> !local && Fresh(s, e) && s.cfg.autoApply && written)
            && (o.decision.action == ClipboardWriteFailed <==> !local && Fresh(s, e) && s.cfg.autoApply && !written)
            && About(o.decision, e.eventID, topic, e.size, e.sha256,
                     if o.decision.action == RemotePending || o.decision.action == RemoteApplied then e.text else "")
  {
    hide Added, TrimSpace, AddPending;
    AddPendingKeepsLog(s, Pending(e, topic));
  }

  lemma TextKeeps(p: Params, s: State, topic: string, e: TextEvent)
    requires e.eventID != "" && BoxOk(s.inbox) && s.recent.Fifo()
    ensures var o := HandleTextEvent(p, s, topic, e);
            && o.state.cfg == s.cfg && o.state.session == s.session && o.state.lastLocalHash == s.lastLocalHash
            && (o.decision.action == RemoteApplied ==> o.state.world == Written(p.env, s.world, e.text))
            && (o.decision.action != RemoteApplied && o.decision.action != ClipboardWriteFailed ==>
                  o.state.world == s.world)
            && (o.decision.action == RemotePending ==>
                  && e.eventID in o.state.inbox.entries && o.state.inbox.entries[e.eventID] == Pending(e, topic)
                  && o.state.suppress == s.suppress && o.state.world == s.world)
            && (o.decision.action == RemoteApplied ==>
                  && o.state.recent == Added(s.recent, e.eventID) && o.state.suppress == Added(s.suppress, e.sha256)
                  && o.state.inbox == s.inbox)
            && (o.decision.action != RemotePending && o.decision.action != RemoteApplied ==>
                  o.state.recent == s.recent && o.state.suppress == s.suppress && o.state.inbox == s.inbox)
  {
    hide Added, TrimSpace, AddPending, BoxOk;
    if !e.IsLocalOrigin(p.nodeID, p.instanceID) && Fresh(s, e) {
      QueuedEntry(s, Pending(e, topic));
    }
  }

  lemma QueuedEntry(s: State, entry: Pending)
    requires BoxOk(s.inbox) && s.recent.Fifo() && Fresh(s, entry.event)
    ensures var t := AddPending(s, entry);
            && entry.event.eventID in t.inbox.entries && t.inbox.entries[entry.event.eventID] == entry
            && t.suppress == s.suppress
  {
    hide AddPending, Added;
    AddPendingEffect(s, entry);
  }

  /** An answer with an action and a topic, and nothing else. */
  function Bare(s: State, action: Action, topic: string): Outcome {
    var d := Plain(action).(topic := topic);
    if Failure(action) then Fail(s, d) else Decide(s, d)
  }

  lemma BareAnswers(s: State, action: Action, topic: string)
    ensures var o := Bare(s, action, topic);
            && Answered(s, o) && o.state == s.(log := o.state.log)
            && About(o.decision, "", topic, 0, "", "") && o.decision.action == action
  {
  }

  /** Why a message is not looked at. */
  function Refusal(s: State, topic: string, name: string): Action {
    if !s.cfg.enabled then Disabled
    else if RouteFor(s.cfg.Routes(), topic).None? then IgnoredTopic
    else if !RouteFor(s.cfg.Routes(), topic).value.syncToLocal then IgnoredTopicPolicy
    else if name == TEXT_EVENT_NAME then ValidationFailed
    else IgnoredName
  }

  lemma GateIs(hash: HashFn, p: Params, s: State, topic: string, name: string, payload: Payload)
    requires !Reaches(s, topic) || (name != TEXT_EVENT_NAME && name != TRANSFER_EVENT_NAME)
             || (name == TEXT_EVENT_NAME && Parse(hash, payload, s.cfg.maxInlineBytes).None?)
    ensures HandleTopicBusMessage(hash, p, s, topic, name, payload) ==
            Bare(s, Refusal(s, topic, name), if s.cfg.enabled then topic else "")
  {
    hide Parse, RouteFor, HandleTextEvent, HandleTransferManifest, Decide, Fail;
    NamesDiffer();
  }

  /** Refused before its event is looked at: the answer names the topic and nothing else, and nothing is kept. */
  lemma GateAnswers(hash: HashFn, p: Params, s: State, topic: string, name: string, payload: Payload)
    requires !Reaches(s, topic) || (name != TEXT_EVENT_NAME && name != TRANSFER_EVENT_NAME)
             || (name == TEXT_EVENT_NAME && Parse(hash, payload, s.cfg.maxInlineBytes).None?)
    ensures var o := HandleTopicBusMessage(hash, p, s, topic, name, payload);
            && Answered(s, o) && o.state == s.(log := o.state.log)
            && About(o.decision, "", if s.cfg.enabled then topic else "", 0, "", "")
            && o.decision.action == Refusal(s, topic, name)
  {
    hide Parse, RouteFor, HandleTopicBusMessage, Bare, Answered, About, Refusal, Reaches;
    GateIs(hash, p, s, topic, name, payload);
    BareAnswers(s, Refusal(s, topic, name), if s.cfg.enabled then topic else "");
  }

  lemma ManifestReached(hash: HashFn, p: Params, s: State, topic: string, payload: Payload)
    requires Reaches(s, topic)
    ensures HandleTopicBusMessage(hash, p, s, topic, TRANSFER_EVENT_NAME, payload) ==
            HandleTransferManifest(p, s, topic, payload)
  {
    hide Parse, RouteFor, HandleTextEvent, HandleTransferManifest;
  }

  /** Every refusal of a message, exactly. */
  lemma RefusalsExactly(hash: HashFn, p: Params, s: State, topic: string, name: string, payload: Payload)
    ensures var o := HandleTopicBusMessage(hash, p, s, topic, name, payload);
            var action, route := o.decision.action, RouteFor(s.cfg.Routes(), topic);
            && Answered(s, o)
            && (action == Disabled <==> !s.cfg.enabled)
            && (action == IgnoredTopic <==> s.cfg.enabled && route.None?)
            && (action == IgnoredTopicPolicy <==> s.cfg.enabled && route.Some? && !route.value.syncToLocal)
            && (action == IgnoredName <==>
                  Reaches(s, topic) && name != TEXT_EVENT_NAME && name != TRANSFER_EVENT_NAME)
            && (action == ValidationFailed <==>
                  && Reaches(s, topic)
                  && ((name == TEXT_EVENT_NAME && Parse(hash, payload, s.cfg.maxInlineBytes).None?)
                      || (name == TRANSFER_EVENT_NAME && ParseManifest(payload).None?)))
            && (Refuses(action) ==>
                  && o.state == s.(log := o.state.log)
                  && About(o.decision, "", if s.cfg.enabled then topic else "", 0, "", ""))
  {
    hide Parse, RouteFor, HandleTopicBusMessage, ParseManifest, Answered;
    NamesDiffer();
    var parsed := Parse(hash, payload, s.cfg.maxInlineBytes);
    if Reaches(s, topic) && name == TRANSFER_EVENT_NAME {
      ManifestReached(hash, p, s, topic, payload);
      ManifestAnswers(p, s, topic, payload);
    } else if Reaches(s, topic) && name == TEXT_EVENT_NAME && parsed.Some? {
      ParsedHasID(hash, payload, s.cfg.maxInlineBytes);
      TextDispatch(hash, p, s, topic, payload, parsed.value);
      TextAnswers(p, s, topic, parsed.value);
    } else {
      GateAnswers(hash, p, s, topic, name, payload);
    }
  }

  /** The answers to a message whose event is not looked at. */
  predicate Refuses(a: Action) {
    a == Disabled || a == IgnoredTopic || a == IgnoredTopicPolicy || a == IgnoredName || a == ValidationFailed
  }

  /** A manifest, exactly: announced once, and otherwise why not; it is remembered from then on. */
  lemma TransferAnswersExactly(hash: HashFn, p: Params, s: State, topic: string, payload: Payload, m: Manifest)
    requires OffersManifest(s, topic, TRANSFER_EVENT_NAME, payload, m) && s.recent.Fifo()
    ensures var o := HandleTopicBusMessage(hash, p, s, topic, TRANSFER_EVENT_NAME, payload);
            var action, local := o.decision.action, m.IsLocalOrigin(p.nodeID, p.instanceID);
            && (action == IgnoredLocalOrigin <==> local)
            && (action == IgnoredDuplicate <==> !local && m.eventID in s.recent.members)
            && (action == TransferPending <==> !local && m.eventID !in s.recent.members)
            && About(o.decision, m.eventID, topic, m.size, m.sha256, "")
            && (m.eventID in o.state.recent.members <==> m.eventID in s.recent.members || !local)
            && o.state == s.(recent := o.state.recent, log := o.state.log)
  {
    hide RouteFor, HandleTopicBusMessage, HandleTransferManifest, ParseManifest, Added, TrimSpace;
    ManifestReached(hash, p, s, topic, payload);
    ManifestAnswers(p, s, topic, payload);
    ManifestHasID(payload);
    RecentAdded(s.recent, m.eventID);
  }

  lemma ManifestHasID(payload: Payload)
    requires ParseManifest(payload).Some?
    ensures ParseManifest(payload).value.eventID != ""
  {
    hide Utf8Len, UsableReference, IsDigest, IsUtf8Label;
    assert TrimSpace("") == "";
  }

  /** A text event, exactly. */
  lemma TextAnswersExactly(hash: HashFn, p: Params, s: State, topic: string, payload: Payload, e: TextEvent)
    requires Offers(hash, s, topic, TEXT_EVENT_NAME, payload, e) && Inv(s)
    ensures var o := HandleTopicBusMessage(hash, p, s, topic, TEXT_EVENT_NAME, payload);
            var action, local := o.decision.action, e.IsLocalOrigin(p.nodeID, p.instanceID);
            var written := p.hasClipboard && |s.world.calls| !in p.env.write;
            && (action == IgnoredLocalOrigin <==> local)
            && (action == IgnoredDuplicate <==> !local && !Fresh(s, e))
            && (action == RemotePending <==> !local && Fresh(s, e) && !s.cfg.autoApply)
            && (action == RemoteApplied <==> !local && Fresh(s, e) && s.cfg.autoApply && written)
            && (action == ClipboardWriteFailed <==> !local && Fresh(s, e) && s.cfg.autoApply && !written)
            && About(o.decision, e.eventID, topic, e.size, e.sha256,
                     if action == RemotePending || action == RemoteApplied then e.text else "")
            && (action == RemoteApplied ==> o.state.world.calls == s.world.calls + [WriteText(e.text, true)])
            && (action != RemoteApplied && action != ClipboardWriteFailed ==> o.state.world == s.world)
            && (action == RemotePending ==>
                  e.eventID in o.state.inbox.entries && o.state.inbox.entries[e.eventID] == Pending(e, topic))
            && (action == RemoteApplied ==>
                  o.state.recent == Added(s.recent, e.eventID) && o.state.suppress == Added(s.suppress, e.sha256)
                  && o.state.inbox == s.inbox)
            && (action != RemotePending && action != RemoteApplied ==>
                  o.state.recent == s.recent && o.state.suppress == s.suppress && o.state.inbox == s.inbox)
  {
    hide Parse, RouteFor, HandleTextEvent, HandleTopicBusMessage, Fresh, TrimSpace, Conserved, BoxOk, Added;
    ParsedHasID(hash, payload, s.cfg.maxInlineBytes);
    TextDispatch(hash, p, s, topic, payload, e);
    TextAnswers(p, s, topic, e);
    TextKeeps(p, s, topic, e);
  }

  // ---------------------------------------------------------------- local text

  /** The first of `count` publishes from call n on that is refused is number k. */
  predicate RefusedFirst(env: Environment, n: nat, count: nat, k: nat) {
    k < count && n + k in env.publish && forall i :: n <= i < n + k ==> i !in env.publish
  }

  predicate AllPublished(env: Environment, n: nat, count: nat) {
    forall i :: n <= i < n + count ==> i !in env.publish
  }

  lemma {:induction false} PublishStops(env: Environment, w: World, topics: seq<string>, name: string, body: Body,
                                        k: nat)
    ensures var taken := PublishAll(env, w, topics, name, body, k).1;
            && k <= taken <= k + |topics|
            && (taken == k + |topics| <==> AllPublished(env, |w.calls|, |topics|))
            && (taken < k + |topics| ==> RefusedFirst(env, |w.calls|, |topics|, taken - k))
    decreases |topics|
  {
    if topics != [] {
      if |w.calls| in env.publish {
        assert RefusedFirst(env, |w.calls|, |topics|, 0);
      } else {
        PublishStops(env, Published(env, w, topics[0], name, body), topics[1..], name, body, k + 1);
      }
    }
  }

  /** What only a complete fan-out changes: the last local digest and the recent window. */
  ghost predicate RemembersOnly(s: State, o: Outcome, published: Action) {
    && o.state.cfg == s.cfg && o.state.suppress == s.suppress && o.state.inbox == s.inbox
    && o.state.session == s.session && o.state.ledger == s.ledger
    && o.state.lastLocalHash == (if o.decision.action == published then o.decision.sha256 else s.lastLocalHash)
    && o.state.recent == (if o.decision.action == published then Added(s.recent, o.decision.eventID) else s.recent)
  }

  /** The topic an answer to a fan-out names: all of them, or the one that was refused. */
  ghost predicate NamesTopics(d: Decision, published: Action, env: Environment, n: nat, topics: seq<string>) {
    && (d.action == published ==> d.topic == Join(topics))
    && (d.action == TransportFailed ==> exists k: nat :: RefusedFirst(env, n, |topics|, k) && d.topic == topics[k])
    && (d.action != published && d.action != TransportFailed ==> d.topic == "")
  }

  lemma TextOutAnswers(p: Params, s: State, text: string, digest: Digest, built: Built)
    ensures var o := PublishText(p, s, text, digest, built);
            var action, topics, n := o.decision.action, PublishTopics(s.cfg.Routes()), |s.world.calls|;
            && Answered(s, o) && RemembersOnly(s, o, LocalPublished)
            && (action == IgnoredLocalPolicy <==> topics == [])
            && (action == ValidationFailed <==> topics != [] && built.Rejected?)
            && (action == TransportFailed <==> topics != [] && built.Built? && !AllPublished(p.env, n, |topics|))
            && (action == LocalPublished <==> topics != [] && built.Built? && AllPublished(p.env, n, |topics|))
            && NamesTopics(o.decision, LocalPublished, p.env, n, topics)
            && o.decision.size == digest.size && o.decision.sha256 == digest.sha256
            && o.decision.eventID == (if topics == [] then "" else built.eventID)
            && o.decision.text == if action == LocalPublished then text else ""
  {
    hide PublishAll, PublishTopics, Join, Added, AllPublished, RefusedFirst;
    var topics := PublishTopics(s.cfg.Routes());
    if topics != [] && built.Built? {
      PublishStops(p.env, s.world, topics, TEXT_EVENT_NAME, TextBody(built.wire), 0);
    }
  }

  predicate Transfers(cfg: Config) {
    cfg.transferProvider != "" && cfg.transferRef != ""
  }

  lemma ManifestNotMade(p: Params, s: State, digest: Digest, newID: Option<string>, nowMillis: int)
    requires p.hasBus
    requires !Transfers(s.cfg) || PublishTopics(s.cfg.Routes()) == []
             || ManifestOf(p, s.cfg, digest, newID, nowMillis).None?
    ensures var o := PublishTransferManifest(p, s, digest, newID, nowMillis);
            && Answered(s, o) && RemembersOnly(s, o, TransferPublished)
            && About(o.decision, "", "", digest.size, digest.sha256, "")
            && o.decision.action == if !Transfers(s.cfg) then TransferUnsupported
                                    else if PublishTopics(s.cfg.Routes()) == [] then IgnoredLocalPolicy
                                    else ValidationFailed
  {
    hide PublishAll, PublishTopics, Join, Added, NewManifest;
  }

  lemma ManifestIsOf(p: Params, cfg: Config, digest: Digest, newID: Option<string>, nowMillis: int)
    ensures NewManifest(digest, cfg.transferProvider, cfg.transferRef, p.nodeID, p.instanceID, cfg.deviceLabel,
                        nowMillis, newID) == ManifestOf(p, cfg, digest, newID, nowMillis)
  {
    hide NewManifest;
  }

  lemma ManifestFansOut(p: Params, s: State, digest: Digest, newID: Option<string>, nowMillis: int)
    requires p.hasBus && Transfers(s.cfg) && PublishTopics(s.cfg.Routes()) != []
    requires ManifestOf(p, s.cfg, digest, newID, nowMillis).Some?
    ensures var o := PublishTransferManifest(p, s, digest, newID, nowMillis);
            var topics, n := PublishTopics(s.cfg.Routes()), |s.world.calls|;
            && Answered(s, o) && RemembersOnly(s, o, TransferPublished)
            && o.decision.action == (if AllPublished(p.env, n, |topics|) then TransferPublished else TransportFailed)
            && NamesTopics(o.decision, TransferPublished, p.env, n, topics)
            && o.decision.size == digest.size && o.decision.sha256 == digest.sha256 && o.decision.text == ""
            && o.decision.eventID == ManifestOf(p, s.cfg, digest, newID, nowMillis).value.eventID
  {
    hide PublishAll, PublishTopics, Join, Added, AllPublished, RefusedFirst, ManifestOf;
    ManifestIsOf(p, s.cfg, digest, newID, nowMillis);
    var made := ManifestOf(p, s.cfg, digest, newID, nowMillis);
    PublishStops(p.env, s.world, PublishTopics(s.cfg.Routes()), TRANSFER_EVENT_NAME, ManifestBody(made.value), 0);
  }

  lemma ManifestOutAnswers(p: Params, s: State, digest: Digest, newID: Option<string>, nowMillis: int)
    requires p.hasBus
    ensures var o := PublishTransferManifest(p, s, digest, newID, nowMillis);
            var action, topics, n := o.decision.action, PublishTopics(s.cfg.Routes()), |s.world.calls|;
            var made := ManifestOf(p, s.cfg, digest, newID, nowMillis);
            && Answered(s, o) && RemembersOnly(s, o, TransferPublished)
            && (action == TransferUnsupported <==> !Transfers(s.cfg))
            && (action == IgnoredLocalPolicy <==> Transfers(s.cfg) && topics == [])
            && (action == ValidationFailed <==> Transfers(s.cfg) && topics != [] && made.None?)
            && (action == TransportFailed <==>
                  Transfers(s.cfg) && topics != [] && made.Some? && !AllPublished(p.env, n, |topics|))
            && (action == TransferPublished <==>
                  Transfers(s.cfg) && topics != [] && made.Some? && AllPublished(p.env, n, |topics|))
            && NamesTopics(o.decision, TransferPublished, p.env, n, topics)
            && o.decision.size == digest.size && o.decision.sha256 == digest.sha256 && o.decision.text == ""
            && o.decision.eventID ==
               if Transfers(s.cfg) && topics != [] && made.Some? then made.value.eventID else ""
  {
    hide PublishTransferManifest, PublishTopics, Join, AllPublished, RefusedFirst, ManifestOf, Answered, RemembersOnly;
    if Transfers(s.cfg) && PublishTopics(s.cfg.Routes()) != [] && ManifestOf(p, s.cfg, digest, newID, nowMillis).Some? {
      ManifestFansOut(p, s, digest, newID, nowMillis);
    } else {
      ManifestNotMade(p, s, digest, newID, nowMillis);
    }
  }

  // The three ways a local text goes once it is past the switch and there is a bus.

  /** It is inspected inline. */
  ghost predicate Inline(hash: HashFn, p: Params, s: State, raw: RawText) {
    s.cfg.enabled && p.hasBus && InspectText(hash, raw, s.cfg.maxInlineBytes).Some?
  }

  /** It is too long for that, and a manifest may stand for it. */
  ghost predicate TooLong(hash: HashFn, p: Params, s: State, raw: RawText) {
    && s.cfg.enabled && p.hasBus && InspectText(hash, raw, s.cfg.maxInlineBytes).None?
    && InspectTextContent(hash, raw).Some?
  }

  /** It is inspected inline, is no expected echo, and is not the text that went out last. */
  ghost predicate GoesOn(hash: HashFn, p: Params, s: State, raw: RawText) {
    && Inline(hash, p, s, raw)
    && hash(raw.text) !in s.suppress.members && hash(raw.text) != s.lastLocalHash
  }

  lemma InlineAnswers(p: Params, s: State, text: string, digest: Digest, built: Built)
    ensures var o := HandleInlineText(p, s, text, digest, built);
            var expected, last := digest.sha256 in s.suppress.members, digest.sha256 == s.lastLocalHash;
            && Answered(s, o)
            && (o.decision.action == IgnoredLoop <==> expected)
            && (o.decision.action == IgnoredUnchanged <==> !expected && last)
            && (expected || last ==>
                  && About(o.decision, "", "", digest.size, digest.sha256, "")
                  && o.state == s.(suppress := o.state.suppress, log := o.state.log)
                  && o.state.suppress == if expected then Consumed(s.suppress, digest.sha256) else s.suppress)
            && (!expected && !last ==> o == PublishText(p, s, text, digest, built))
  {
    hide PublishText, Consumed;
    TextOutAnswers(p, s, text, digest, built);
  }

  lemma InlineIs(hash: HashFn, p: Params, s: State, raw: RawText, newID: Option<string>, nowMillis: int)
    requires Inline(hash, p, s, raw)
    ensures raw.Utf8?
    ensures var digest := Digest(Utf8Len(raw.text), hash(raw.text));
            HandleLocalText(hash, p, s, raw, newID, nowMillis) ==
            HandleInlineText(p, s, raw.text, digest, BuildTextEvent(hash, p, s.cfg, raw.text, digest, newID))
  {
    hide HandleInlineText, BuildTextEvent, PublishTransferManifest, Utf8Len;
  }

  lemma TooLongIs(hash: HashFn, p: Params, s: State, raw: RawText, newID: Option<string>, nowMillis: int)
    requires TooLong(hash, p, s, raw)
    ensures raw.Utf8?
    ensures HandleLocalText(hash, p, s, raw, newID, nowMillis) ==
            PublishTransferManifest(p, s, Digest(Utf8Len(raw.text), hash(raw.text)), newID, nowMillis)
  {
    hide HandleInlineText, BuildTextEvent, PublishTransferManifest, Utf8Len, InspectText;
  }

  /** What becomes of a text that is inspected inline, exactly. */
  lemma InlineAnswersExactly(hash: HashFn, p: Params, s: State, raw: RawText, newID: Option<string>, nowMillis: int)
    requires Inline(hash, p, s, raw)
    ensures raw.Utf8?
    ensures var o := HandleLocalText(hash, p, s, raw, newID, nowMillis);
            var action, topics, n := o.decision.action, PublishTopics(s.cfg.Routes()), |s.world.calls|;
            var digest := Digest(Utf8Len(raw.text), hash(raw.text));
            var expected, last := hash(raw.text) in s.suppress.members, hash(raw.text) == s.lastLocalHash;
            var goes, built := !expected && !last && topics != [],
                               BuildTextEvent(hash, p, s.cfg, raw.text, digest, newID).Built?;
            && Answered(s, o)
            && (action == IgnoredLoop <==> expected)
            && (action == IgnoredUnchanged <==> !expected && last)
            && (action == IgnoredLocalPolicy <==> !expected && !last && topics == [])
            && (action == ValidationFailed <==> goes && !built)
            && (action == TransportFailed <==> goes && built && !AllPublished(p.env, n, |topics|))
            && (action == LocalPublished <==> goes && built && AllPublished(p.env, n, |topics|))
            && (goes ==> NamesTopics(o.decision, LocalPublished, p.env, n, topics))
            && o.decision.eventID ==
               (if goes then BuildTextEvent(hash, p, s.cfg, raw.text, digest, newID).eventID else "")
            && o.decision.size == Utf8Len(raw.text) && o.decision.sha256 == hash(raw.text)
            && (o.decision.text == if action == LocalPublished then raw.text else "")
            && o.state.lastLocalHash == (if action == LocalPublished then hash(raw.text) else s.lastLocalHash)
            && o.state.recent ==
               (if action == LocalPublished then Added(s.recent, o.decision.eventID) else s.recent)
            && o.state.suppress == (if expected then Consumed(s.suppress, hash(raw.text)) else s.suppress)
            && o.state.inbox == s.inbox && o.state.session == s.session && o.state.cfg == s.cfg
  {
    hide HandleInlineText, HandleLocalText, BuildTextEvent, Inline, PublishTopics, PublishText, AllPublished, Answered,
         NamesTopics, Consumed, Added, Utf8Len;
    InlineIs(hash, p, s, raw, newID, nowMillis);
    var digest := Digest(Utf8Len(raw.text), hash(raw.text));
    var built := BuildTextEvent(hash, p, s.cfg, raw.text, digest, newID);
    InlineAnswers(p, s, raw.text, digest, built);
    TextOutAnswers(p, s, raw.text, digest, built);
  }

  /** What becomes of a text that is too long for that, exactly. */
  lemma TooLongAnswersExactly(hash: HashFn, p: Params, s: State, raw: RawText, newID: Option<string>, nowMillis: int)
    requires TooLong(hash, p, s, raw)
    ensures raw.Utf8?
    ensures var o := HandleLocalText(hash, p, s, raw, newID, nowMillis);
            var action, topics, n := o.decision.action, PublishTopics(s.cfg.Routes()), |s.world.calls|;
            var digest := Digest(Utf8Len(raw.text), hash(raw.text));
            var made := ManifestOf(p, s.cfg, digest, newID, nowMillis);
            var goes := Transfers(s.cfg) && topics != [];
            && Answered(s, o) && RemembersOnly(s, o, TransferPublished)
            && (action == TransferUnsupported <==> !Transfers(s.cfg))
            && (action == IgnoredLocalPolicy <==> Transfers(s.cfg) && topics == [])
            && (action == ValidationFailed <==> goes && made.None?)
            && (action == TransportFailed <==> goes && made.Some? && !AllPublished(p.env, n, |topics|))
            && (action == TransferPublished <==> goes && made.Some? && AllPublished(p.env, n, |topics|))
            && NamesTopics(o.decision, TransferPublished, p.env, n, topics)
            && o.decision.size == Utf8Len(raw.text) && o.decision.sha256 == hash(raw.text) && o.decision.text == ""
            && o.decision.eventID == (if goes && made.Some? then made.value.eventID else "")
  {
    hide HandleLocalText, PublishTransferManifest, ManifestOf, PublishTopics, AllPublished, Answered, NamesTopics,
         RemembersOnly, Utf8Len, InspectText, InspectTextContent;
    TooLongIs(hash, p, s, raw, newID, nowMillis);
    ManifestOutAnswers(p, s, Digest(Utf8Len(raw.text), hash(raw.text)), newID, nowMillis);
  }

  /** Why a local text is not looked at. */
  function NoText(p: Params, s: State): Action {
    if !s.cfg.enabled then Disabled else if !p.hasBus then TransportFailed else ValidationFailed
  }

  lemma NoTextIs(hash: HashFn, p: Params, s: State, raw: RawText, newID: Option<string>, nowMillis: int)
    requires !Inline(hash, p, s, raw) && !TooLong(hash, p, s, raw)
    ensures HandleLocalText(hash, p, s, raw, newID, nowMillis) == Bare(s, NoText(p, s), "")
  {
    hide HandleInlineText, BuildTextEvent, PublishTransferManifest, InspectText, InspectTextContent, Decide, Fail;
  }

  /** Anything else changes nothing: switched off, without a bus, or no text. */
  lemma NoTextAnswers(hash: HashFn, p: Params, s: State, raw: RawText, newID: Option<string>, nowMillis: int)
    requires !Inline(hash, p, s, raw) && !TooLong(hash, p, s, raw)
    ensures var o := HandleLocalText(hash, p, s, raw, newID, nowMillis);
            && Answered(s, o) && o.state == s.(log := o.state.log) && About(o.decision, "", "", 0, "", "")
            && o.decision.action == NoText(p, s)
  {
    hide HandleLocalText, Inline, TooLong, Bare, Answered, About, NoText;
    NoTextIs(hash, p, s, raw, newID, nowMillis);
    BareAnswers(s, NoText(p, s), "");
  }

  /** A text that could not be published is not taken for sent: copied again, it goes out if the bus works. */
  lemma FailedCopyIsRetried(hash: HashFn, p: Params, s: State, raw: RawText, newID: Option<string>,
                            again: Option<string>, nowMillis: int)
    requires Inline(hash, p, s, raw)
    ensures var o := HandleLocalText(hash, p, s, raw, newID, nowMillis);
            var topics := PublishTopics(s.cfg.Routes());
            var digest := Digest(Utf8Len(raw.text), hash(raw.text));
            o.decision.action == TransportFailed && AllPublished(p.env, |o.state.world.calls|, |topics|)
            && BuildTextEvent(hash, p, s.cfg, raw.text, digest, again).Built? ==>
              HandleLocalText(hash, p, o.state, raw, again, nowMillis).decision.action == LocalPublished
  {
    hide HandleLocalText, BuildTextEvent, PublishTopics, AllPublished, Answered, NamesTopics, Consumed, Added, Utf8Len,
         InspectText;
    var o := HandleLocalText(hash, p, s, raw, newID, nowMillis);
    InlineAnswersExactly(hash, p, s, raw, newID, nowMillis);
    InlineAnswersExactly(hash, p, o.state, raw, again, nowMillis);
  }

  // ---------------------------------------------------------------- what goes out

  predicate UsableID(newID: Option<string>) {
    newID.Some? && TrimSpace(newID.value) != "" && Utf8Len(TrimSpace(newID.value)) <= MAX_EVENT_ID_BYTES
  }

  predicate Identified(p: Params) {
    p.nodeID != 0 && TrimSpace(p.instanceID) != ""
  }

  /** An event is made of an inspected text exactly with a usable identity and identifier, and carries these. */
  lemma BuiltExactly(hash: HashFn, p: Params, cfg: Config, text: string, digest: Digest, newID: Option<string>)
    requires InspectText(hash, Utf8(text), cfg.maxInlineBytes) == Some(digest)
    ensures var built := BuildTextEvent(hash, p, cfg, text, digest, newID);
            && (built.Built? <==> Identified(p) && UsableID(newID))
            && (built.Built? ==>
                  var e := TextEvent(EVENT_VERSION, TrimSpace(newID.value), p.nodeID, TrimSpace(p.instanceID),
                                     TrimSpace(cfg.deviceLabel), text, digest.size, digest.sha256);
                  built.eventID == TrimSpace(newID.value) && built.wire == Encode(e))
            && (built.Rejected? ==> built.eventID == "")
  {
    hide Encode, InspectText, TrimSpace, Utf8Len;
    NewEventExactly(hash, text, digest, p.nodeID, p.instanceID, cfg.deviceLabel, cfg.maxInlineBytes, newID);
    if Identified(p) && UsableID(newID) {
      var raw := TextEvent(EVENT_VERSION, TrimSpace(newID.value), p.nodeID, TrimSpace(p.instanceID),
                           TrimSpace(cfg.deviceLabel), text, digest.size, digest.sha256);
      Event.NormalizeIdempotent(hash, raw, cfg.maxInlineBytes);
    }
  }

  lemma NewEventExactly(hash: HashFn, text: string, digest: Digest, nodeID: nat, instanceID: string, device: string,
                        maxInlineBytes: int, newID: Option<string>)
    requires InspectText(hash, Utf8(text), maxInlineBytes) == Some(digest)
    ensures NewTextEvent(hash, text, digest, nodeID, instanceID, device, maxInlineBytes, newID) ==
            if nodeID != 0 && TrimSpace(instanceID) != "" && UsableID(newID) then
              Some(TextEvent(EVENT_VERSION, TrimSpace(newID.value), nodeID, TrimSpace(instanceID), TrimSpace(device),
                             text, digest.size, digest.sha256))
            else None
  {
  }

  /**
   What arrives of a node's event names the node that sent it: another node takes it for its own exactly if
   they share the node number or the instance.
   */
  lemma OriginSurvivesWire(hash: HashFn, p: Params, cfg: Config, text: string, digest: Digest, newID: Option<string>,
                           theirMax: int, e: TextEvent, q: Params)
    requires InspectText(hash, Utf8(text), cfg.maxInlineBytes) == Some(digest)
    requires BuildTextEvent(hash, p, cfg, text, digest, newID).Built?
    requires Parse(hash, Received(BuildTextEvent(hash, p, cfg, text, digest, newID).wire), theirMax) == Some(e)
    ensures e.originNode == p.nodeID && e.originInstanceID == TrimSpace(p.instanceID)
    ensures e.originDevice == TrimSpace(cfg.deviceLabel) && e.text == text && e.eventID == TrimSpace(newID.value)
    ensures e.IsLocalOrigin(q.nodeID, q.instanceID) <==>
            q.nodeID == p.nodeID || TrimSpace(q.instanceID) == TrimSpace(p.instanceID)
  {
    hide Encode, Decode, InspectText, TrimSpace, Utf8Len, BuildTextEvent;
    BuiltExactly(hash, p, cfg, text, digest, newID);
    WireRoundTrip(TextEvent(EVENT_VERSION, TrimSpace(newID.value), p.nodeID, TrimSpace(p.instanceID),
                            TrimSpace(cfg.deviceLabel), text, digest.size, digest.sha256));
  }

  /** A manifest is made exactly with a usable identity, identifier, reference and time, and carries these. */
  lemma MadeExactly(p: Params, cfg: Config, digest: Digest, newID: Option<string>, nowMillis: int)
    requires 0 < digest.size && IsDigest(digest.sha256)
    ensures var made := ManifestOf(p, cfg, digest, newID, nowMillis);
            && (made.Some? <==>
                  && Identified(p) && UsableID(newID) && 0 < nowMillis
                  && TrimSpace(cfg.transferProvider) != "" && TrimSpace(cfg.transferRef) != "")
            && (made.Some? ==>
                  made.value ==
                  Manifest(EVENT_VERSION, TrimSpace(newID.value), p.nodeID, TrimSpace(p.instanceID),
                           TrimSpace(cfg.deviceLabel), "text/plain", "utf-8", digest.size, digest.sha256,
                           [TransferReference(cfg.transferProvider, cfg.transferRef, "")], nowMillis))
  {
    hide TrimSpace, Utf8Len, IsDigest;
    assert IsUtf8Label("utf-8");
    var r := TransferReference(cfg.transferProvider, cfg.transferRef, "");
    assert [r] != [] && [r][0] == r;
    assert TrimSpace("") == "" by { EmptyTrims(); }
    if newID.Some? { TrimTwice(newID.value); }
    TrimTwice(p.instanceID);
  }

  lemma EmptyTrims()
    ensures TrimSpace("") == ""
  {
  }

  lemma TrimTwice(s: string)
    ensures TrimSpace(TrimSpace(s)) == TrimSpace(s)
  {
  }

  // ---------------------------------------------------------------- the user's releases

  /** A waiting text is applied or kept, and what is not waiting is refused without a trace. */
  lemma ApplyAnswersExactly(p: Params, s: State, eventID: string)
    requires BoxOk(s.inbox)
    ensures var o := ApplyPending(p, s, eventID);
            var id := TrimSpace(eventID);
            var written := p.hasClipboard && |s.world.calls| !in p.env.write;
            if id !in s.inbox.entries then !o.ok && o.state == s && o.decision == Plain(NoAction)
            else
              var entry := s.inbox.entries[id];
              var e := entry.event;
              && Answered(s, o)
              && o.decision.action == (if written then RemoteApplied else ClipboardWriteFailed)
              && About(o.decision, e.eventID, entry.topic, e.size, e.sha256, if written then e.text else "")
              && o.state.world.calls ==
                 s.world.calls + (if p.hasClipboard then [WriteText(e.text, written)] else [])
              && o.state.inbox.entries == (if written then s.inbox.entries - {id} else s.inbox.entries)
              && o.state.recent == (if written then Added(s.recent, id) else s.recent)
              && o.state.suppress == (if written then Added(s.suppress, e.sha256) else s.suppress)
              && o.state.cfg == s.cfg && o.state.session == s.session && o.state.lastLocalHash == s.lastLocalHash
  {
    hide Added, TrimSpace, RemoveFirst;
  }

  // ---------------------------------------------------------------- over whole runs

  /** A lifecycle call logs a failure of the bus or the watcher, or nothing, and leaves what texts left behind. */
  ghost predicate LifecycleLog(s: State, o: Outcome) {
    && o.state.lastLocalHash == s.lastLocalHash && o.state.recent == s.recent && o.state.suppress == s.suppress
    && (o.state.log == s.log || (Answered(s, o) && o.decision == Plain(TransportFailed)))
  }

  lemma StartLogs(p: Params, s: State)
    ensures LifecycleLog(s, Start(p, s))
  {
    hide SubscribeAll, UnsubscribeAll, SubscriptionTopics;
  }

  lemma StopLogs(p: Params, s: State, closed: bool)
    ensures LifecycleLog(s, Stop(p, s, closed))
  {
    hide UnsubscribeAll, SubscriptionTopics;
  }

  lemma ChangeLogs(p: Params, s: State, next: Config)
    ensures LifecycleLog(s, Change(p, s, next))
  {
    hide SubscribeAll, UnsubscribeAll, TopicsToSubscribe, DropTopics, StartsWatcher, StopsWatcher;
  }

  lemma UpdateLogs(p: Params, s: State, c: Config)
    ensures LifecycleLog(s, UpdateConfig(p, s, c))
  {
    hide Normalized, Change, UnsubscribeAll, SubscriptionTopics;
    if Normalized(c).Some? { ChangeLogs(p, s, Normalized(c).value); }
  }

  lemma RestoreLogs(p: Params, s: State)
    ensures LifecycleLog(s, OnConnectivityRestored(p, s))
  {
    hide SubscribeAll, UnsubscribeAll, SubscriptionTopics;
  }

  lemma LocalAnswers(hash: HashFn, p: Params, s: State, raw: RawText, newID: Option<string>, nowMillis: int)
    ensures var o := HandleLocalText(hash, p, s, raw, newID, nowMillis);
            && Answered(s, o) && o.decision.action != TransferPending
            && o.state.lastLocalHash == if Publishes(o.decision) then o.decision.sha256 else s.lastLocalHash
  {
    hide HandleLocalText, InspectText, InspectTextContent, PublishTopics, BuildTextEvent, ManifestOf, AllPublished,
         NamesTopics, Answered, Utf8Len, Inline, TooLong, Added, Consumed;
    if Inline(hash, p, s, raw) {
      InlineAnswersExactly(hash, p, s, raw, newID, nowMillis);
    } else if TooLong(hash, p, s, raw) {
      TooLongAnswersExactly(hash, p, s, raw, newID, nowMillis);
    } else {
      NoTextAnswers(hash, p, s, raw, newID, nowMillis);
    }
  }

  /** A decision that a text went out, as its event or as its manifest. */
  predicate Publishes(d: Decision) {
    d.action == LocalPublished || d.action == TransferPublished
  }

  /** An announced manifest came the whole way: enabled, on its route, valid, from elsewhere and not remembered. */
  ghost predicate Announces(p: Params, s: State, topic: string, name: string, payload: Payload, o: Outcome) {
    && Reaches(s, topic) && name == TRANSFER_EVENT_NAME && ParseManifest(payload).Some?
    && var m := ParseManifest(payload).value;
       && !m.IsLocalOrigin(p.nodeID, p.instanceID) && m.eventID !in s.recent.members
       && o.decision.eventID == m.eventID && o.state.recent == Added(s.recent, m.eventID)
  }

  lemma ManifestMessage(hash: HashFn, p: Params, s: State, topic: string, payload: Payload)
    requires Reaches(s, topic)
    ensures var o := HandleTopicBusMessage(hash, p, s, topic, TRANSFER_EVENT_NAME, payload);
            && Answered(s, o) && !Publishes(o.decision) && o.state.lastLocalHash == s.lastLocalHash
            && (o.decision.action == TransferPending ==> Announces(p, s, topic, TRANSFER_EVENT_NAME, payload, o))
  {
    hide HandleTopicBusMessage, HandleTransferManifest, ParseManifest, Answered, RouteFor, Added, TrimSpace;
    ManifestReached(hash, p, s, topic, payload);
    ManifestAnswers(p, s, topic, payload);
  }

  lemma TextReached(hash: HashFn, p: Params, s: State, topic: string, payload: Payload, e: TextEvent)
    requires Offers(hash, s, topic, TEXT_EVENT_NAME, payload, e)
    ensures e.eventID != ""
    ensures HandleTopicBusMessage(hash, p, s, topic, TEXT_EVENT_NAME, payload) == HandleTextEvent(p, s, topic, e)
  {
    hide Parse, HandleTopicBusMessage, HandleTextEvent, RouteFor;
    ParsedHasID(hash, payload, s.cfg.maxInlineBytes);
    TextDispatch(hash, p, s, topic, payload, e);
  }

  lemma TextMessage(hash: HashFn, p: Params, s: State, topic: string, payload: Payload, e: TextEvent)
    requires Offers(hash, s, topic, TEXT_EVENT_NAME, payload, e)
    ensures var o := HandleTopicBusMessage(hash, p, s, topic, TEXT_EVENT_NAME, payload);
            && Answered(s, o) && !Publishes(o.decision) && o.state.lastLocalHash == s.lastLocalHash
            && o.decision.action != TransferPending
  {
    hide Offers, HandleTopicBusMessage, HandleTextEvent, Answered, Fresh, TrimSpace, About;
    TextReached(hash, p, s, topic, payload, e);
    TextAnswers(p, s, topic, e);
    TextKeepsLast(p, s, topic, e);
  }

  lemma MessageAnswers(hash: HashFn, p: Params, s: State, topic: string, name: string, payload: Payload)
    ensures var o := HandleTopicBusMessage(hash, p, s, topic, name, payload);
            && Answered(s, o) && !Publishes(o.decision) && o.state.lastLocalHash == s.lastLocalHash
            && (o.decision.action == TransferPending ==> Announces(p, s, topic, name, payload, o))
  {
    hide Parse, HandleTopicBusMessage, Announces, Answered, RouteFor;
    NamesDiffer();
    var parsed := Parse(hash, payload, s.cfg.maxInlineBytes);
    if Reaches(s, topic) && name == TRANSFER_EVENT_NAME {
      ManifestMessage(hash, p, s, topic, payload);
    } else if Reaches(s, topic) && name == TEXT_EVENT_NAME && parsed.Some? {
      TextMessage(hash, p, s, topic, payload, parsed.value);
    } else {
      GateAnswers(hash, p, s, topic, name, payload);
    }
  }

  lemma TextKeepsLast(p: Params, s: State, topic: string, e: TextEvent)
    ensures HandleTextEvent(p, s, topic, e).state.lastLocalHash == s.lastLocalHash
  {
    hide AddPending, Added, TrimSpace;
    AddPendingKeepsLast(s, Pending(e, topic));
  }

  lemma AddPendingKeepsLast(s: State, entry: Pending)
    ensures AddPending(s, entry).lastLocalHash == s.lastLocalHash
  {
    hide EvictPending, CompactPending;
  }

  lemma ApplyAnswers(p: Params, s: State, eventID: string)
    requires Inv(s)
    ensures var o := ApplyPending(p, s, eventID);
            && (o.state == s || Answered(s, o)) && !Publishes(o.decision) && o.decision.action != TransferPending
            && o.state.lastLocalHash == s.lastLocalHash
  {
    hide ApplyPending, TrimSpace, Added, BoxOk, Conserved;
    ApplyAnswersExactly(p, s, eventID);
  }

  /** What a step adds to the log, and what becomes of the last local digest. */
  ghost predicate Grows(s: State, t: State) {
    || (t.log == s.log && t.lastLocalHash == s.lastLocalHash)
    || (exists d :: t.log == s.log + [d] && t.lastLocalHash == if Publishes(d) then d.sha256 else s.lastLocalHash)
  }

  lemma AnswerGrows(s: State, o: Outcome)
    requires Answered(s, o)
    requires o.state.lastLocalHash == if Publishes(o.decision) then o.decision.sha256 else s.lastLocalHash
    ensures Grows(s, o.state)
  {
  }

  lemma LifecycleGrows(s: State, o: Outcome)
    requires LifecycleLog(s, o)
    ensures Grows(s, o.state)
  {
  }

  /** Every step logs its answer, if it has one, and moves the last local digest only with a publication. */
  lemma StepGrows(hash: HashFn, p: Params, s: State, input: Input)
    requires Inv(s)
    ensures Grows(s, Step(hash, p, s, input).state)
  {
    hide Step, Start, Stop, UpdateConfig, OnConnectivityRestored, HandleLocalText, HandleTopicBusMessage, ApplyPending,
         Inv, LifecycleLog, Answered, Grows, Reaches;
    var o := Step(hash, p, s, input);
    match input
    case StartInput =>
      StepIsStart(hash, p, s);
      StartLogs(p, s);
      LifecycleGrows(s, o);
    case StopInput(closed) =>
      StepIsStop(hash, p, s, closed);
      StopLogs(p, s, closed);
      LifecycleGrows(s, o);
    case UpdateInput(c) =>
      StepIsUpdate(hash, p, s, c);
      UpdateLogs(p, s, c);
      LifecycleGrows(s, o);
    case RestoreInput =>
      StepIsRestore(hash, p, s);
      RestoreLogs(p, s);
      LifecycleGrows(s, o);
    case LocalInput(raw, newID, nowMillis) =>
      StepIsLocal(hash, p, s, raw, newID, nowMillis);
      LocalAnswers(hash, p, s, raw, newID, nowMillis);
      AnswerGrows(s, o);
    case MessageInput(topic, name, payload) =>
      StepIsMessage(hash, p, s, topic, name, payload);
      MessageAnswers(hash, p, s, topic, name, payload);
      AnswerGrows(s, o);
    case ApplyInput(eventID) =>
      StepIsApply(hash, p, s, eventID);
      ApplyAnswers(p, s, eventID);
      if o.state == s { SameGrows(s); } else { AnswerGrows(s, o); }
    case ConnectionLost =>
      StepIsLost(hash, p, s);
      LostGrows(s);
  }

  lemma SameGrows(s: State)
    ensures Grows(s, s)
  {
  }

  lemma LostGrows(s: State)
    ensures Grows(s, s.(world := s.world.(topics := {})))
  {
  }

  /** The digest of the text that went out last, by the log. */
  function LastPublished(log: seq<Decision>): string {
    if log == [] then ""
    else if Publishes(log[|log| - 1]) then log[|log| - 1].sha256
    else LastPublished(log[..|log| - 1])
  }

  lemma GrowsLast(s: State, t: State)
    requires Grows(s, t) && s.lastLocalHash == LastPublished(s.log)
    ensures t.lastLocalHash == LastPublished(t.log)
  {
    if d :| t.log == s.log + [d] && t.lastLocalHash == if Publishes(d) then d.sha256 else s.lastLocalHash {
      assert t.log[..|t.log| - 1] == s.log;
    }
  }

  /** In every run the last local digest is that of the latest text that went out to every topic, by either way. */
  lemma {:induction false} LastHashIsLatest(hash: HashFn, p: Params, s0: State, inputs: seq<Input>)
    requires Inv(s0) && s0.lastLocalHash == LastPublished(s0.log)
    ensures var s := Run(hash, p, s0, inputs); s.lastLocalHash == LastPublished(s.log)
  {
    hide Step, Inv, Grows, LastPublished;
    if inputs != [] {
      var before := inputs[..|inputs| - 1];
      LastHashIsLatest(hash, p, s0, before);
      RunInv(hash, p, s0, before);
      StepGrows(hash, p, Run(hash, p, s0, before), inputs[|inputs| - 1]);
      GrowsLast(Run(hash, p, s0, before), Run(hash, p, s0, inputs));
    }
  }

  /**
   From a new runtime on, a text is ignored as unchanged if and only if it is inspected inline, is no expected
   echo, and is the very text that went out last; a copy that could not be published is not.
   */
  lemma UnchangedExactly(hash: HashFn, p: Params, c: Config, recentLimit: nat, suppressLimit: nat, inputs: seq<Input>,
                         raw: RawText, newID: Option<string>, nowMillis: int)
    requires Created(p, c, recentLimit, suppressLimit).Some?
    ensures var s := Run(hash, p, Created(p, c, recentLimit, suppressLimit).value, inputs);
            var action := HandleLocalText(hash, p, s, raw, newID, nowMillis).decision.action;
            action == IgnoredUnchanged <==>
            Inline(hash, p, s, raw) && hash(raw.text) !in s.suppress.members && hash(raw.text) == LastPublished(s.log)
  {
    hide Run, HandleLocalText, LastPublished, Inline, Inv, Created;
    var s0 := Created(p, c, recentLimit, suppressLimit).value;
    CreatedInv(p, c, recentLimit, suppressLimit);
    CreatedBlank(p, c, recentLimit, suppressLimit);
    LastHashIsLatest(hash, p, s0, inputs);
    UnchangedNow(hash, p, Run(hash, p, s0, inputs), raw, newID, nowMillis);
  }

  lemma UnchangedNow(hash: HashFn, p: Params, s: State, raw: RawText, newID: Option<string>, nowMillis: int)
    ensures HandleLocalText(hash, p, s, raw, newID, nowMillis).decision.action == IgnoredUnchanged <==>
            Inline(hash, p, s, raw) && hash(raw.text) !in s.suppress.members && hash(raw.text) == s.lastLocalHash
  {
    hide HandleLocalText, Inline, TooLong, Answered, RemembersOnly, PublishTopics, BuildTextEvent, ManifestOf,
         AllPublished, NamesTopics, Utf8Len, Added, Consumed, About;
    if Inline(hash, p, s, raw) {
      InlineAnswersExactly(hash, p, s, raw, newID, nowMillis);
    } else if TooLong(hash, p, s, raw) {
      TooLongAnswersExactly(hash, p, s, raw, newID, nowMillis);
    } else {
      NoTextAnswers(hash, p, s, raw, newID, nowMillis);
    }
  }

  /** A new runtime: nothing remembered, sent, waiting, running or called, and the limits where they belong. */
  lemma CreatedBlank(p: Params, c: Config, recentLimit: nat, suppressLimit: nat)
    requires Created(p, c, recentLimit, suppressLimit).Some?
    ensures var s := Created(p, c, recentLimit, suppressLimit).value;
            && s.log == [] && s.lastLocalHash == "" && s.lastLocalHash == LastPublished(s.log)
            && s.recent.members == {} && s.suppress.members == {} && s.inbox.entries == map[]
            && !s.session.started && !s.session.subscribed && !s.session.watching && s.world == World([], {}, {})
            && (0 < recentLimit ==> s.recent.limit == s.inbox.limit == recentLimit)
            && (recentLimit == 0 ==> s.recent.limit == s.inbox.limit == 128)
            && (0 < suppressLimit ==> s.suppress.limit == suppressLimit)
            && (suppressLimit == 0 ==> s.suppress.limit == 32)
            && Normalized(c) == Some(s.cfg)
  {
    hide Normalized;
  }

  /** Input k of the run announced a transfer under this identifier. */
  ghost predicate AnnouncedBy(hash: HashFn, p: Params, s0: State, inputs: seq<Input>, k: nat, id: string) {
    k < |inputs| && Logs(Run(hash, p, s0, inputs[..k]), Run(hash, p, s0, inputs[..k + 1]), TransferPending, id)
  }

  /** Only a manifest that was not remembered is announced, and it is remembered from then on. */
  lemma AnnouncedMeans(hash: HashFn, p: Params, s: State, input: Input, id: string)
    requires Inv(s) && Logs(s, Step(hash, p, s, input).state, TransferPending, id)
    ensures input.MessageInput? && ParseManifest(input.payload).Some?
    ensures OffersManifest(s, input.topic, input.name, input.payload, ParseManifest(input.payload).value)
    ensures ParseManifest(input.payload).value.eventID == id != "" && id !in s.recent.members
    ensures Step(hash, p, s, input).state.recent == Added(s.recent, id)
  {
    hide Step, Start, Stop, UpdateConfig, OnConnectivityRestored, HandleLocalText, HandleTopicBusMessage, ApplyPending,
         Inv, Added, ParseManifest, RouteFor;
    match input
    case StartInput =>
      StepIsStart(hash, p, s);
      StartLogs(p, s);
    case StopInput(closed) =>
      StepIsStop(hash, p, s, closed);
      StopLogs(p, s, closed);
    case UpdateInput(c) =>
      StepIsUpdate(hash, p, s, c);
      UpdateLogs(p, s, c);
    case RestoreInput =>
      StepIsRestore(hash, p, s);
      RestoreLogs(p, s);
    case LocalInput(raw, newID, nowMillis) =>
      StepIsLocal(hash, p, s, raw, newID, nowMillis);
      LocalAnswers(hash, p, s, raw, newID, nowMillis);
    case MessageInput(topic, name, payload) =>
      StepIsMessage(hash, p, s, topic, name, payload);
      MessageAnswers(hash, p, s, topic, name, payload);
      ManifestHasID(payload);
    case ApplyInput(eventID) =>
      StepIsApply(hash, p, s, eventID);
      ApplyAnswers(p, s, eventID);
    case ConnectionLost => StepIsLost(hash, p, s);
  }

  lemma InsertedStays(ss: seq<State>, id: string, i: nat, j: nat)
    requires Trace(ss) && i < j < |ss| && id != "" && id !in ss[i].recent.members
    requires ss[i + 1].recent == Added(ss[i].recent, id) && id !in ss[j].recent.members
    ensures id in ss[i + 1].recent.members && InsertionsIn(ss, i + 1, j) >= ss[i].recent.limit
  {
    hide Inv, Follows, Newest, Added, InsertionsIn;
    InvFifo(ss[i]);
    InsertedNewest(ss[i].recent, id);
    RecentAdded(ss[i].recent, id);
    if InsertionsIn(ss, i + 1, j) < ss[i].recent.limit {
      StaysNewest(ss, id, i + 1, j);
      InvFifo(ss[j]);
      NewestIsMember(ss[j].recent, id, 1 + InsertionsIn(ss, i + 1, j));
    }
  }

  lemma AnnouncedAt(hash: HashFn, p: Params, s0: State, inputs: seq<Input>, k: nat, id: string)
    requires Inv(s0) && AnnouncedBy(hash, p, s0, inputs, k, id)
    ensures id != "" && id !in Run(hash, p, s0, inputs[..k]).recent.members
    ensures Run(hash, p, s0, inputs[..k + 1]).recent == Added(Run(hash, p, s0, inputs[..k]).recent, id)
  {
    hide Step, Inv, Run, Added, OffersManifest, ParseManifest;
    RunInv(hash, p, s0, inputs[..k]);
    NextState(hash, p, s0, inputs, k);
    AnnouncedMeans(hash, p, Run(hash, p, s0, inputs[..k]), inputs[k], id);
  }

  /**
   A transfer is announced once per window: between two announcements under one identifier, at least as many
   new identifiers went into the recent window as it holds, and the identifier left it.
   */
  lemma AnnouncedOncePerWindow(hash: HashFn, p: Params, s0: State, inputs: seq<Input>, id: string, i: nat, j: nat)
    requires Inv(s0) && i < j <= |inputs|
    requires AnnouncedBy(hash, p, s0, inputs, i, id) && AnnouncedBy(hash, p, s0, inputs, j, id)
    ensures id in Run(hash, p, s0, inputs[..i + 1]).recent.members
    ensures id !in Run(hash, p, s0, inputs[..j]).recent.members
    ensures Insertions(hash, p, s0, inputs, i + 1, j) >= Run(hash, p, s0, inputs[..i]).recent.limit
  {
    hide Step, Inv, Run, InsertionsIn, Insertions, Added, AnnouncedBy, Trace;
    AnnouncedAt(hash, p, s0, inputs, i, id);
    AnnouncedAt(hash, p, s0, inputs, j, id);
    RunsAreTraces(hash, p, s0, inputs);
    StatesAreRuns(hash, p, s0, inputs, i);
    StatesAreRuns(hash, p, s0, inputs, i + 1);
    StatesAreRuns(hash, p, s0, inputs, j);
    InsertionsAre(hash, p, s0, inputs, i + 1, j);
    InsertedStays(States(hash, p, s0, inputs), id, i, j);
  }

  lemma NextState(hash: HashFn, p: Params, s0: State, inputs: seq<Input>, k: nat)
    requires k < |inputs|
    ensures Run(hash, p, s0, inputs[..k + 1]) == Step(hash, p, Run(hash, p, s0, inputs[..k]), inputs[k]).state
  {
    hide Step;
    assert inputs[..k + 1][..k] == inputs[..k];
  }

  // ---------------------------------------------------------------- the waiting events, in order

  /** The place in the log where the event was last queued, or -1. */
  function QueuedAt(log: seq<Decision>, id: string): int {
    if log == [] then -1
    else if log[|log| - 1].action == RemotePending && log[|log| - 1].eventID == id then |log| - 1
    else QueuedAt(log[..|log| - 1], id)
  }

  lemma {:induction false} QueuedBefore(log: seq<Decision>, id: string)
    ensures -1 <= QueuedAt(log, id) < |log|
  {
    if log != [] { QueuedBefore(log[..|log| - 1], id); }
  }

  lemma QueuedStep(log: seq<Decision>, d: Decision, id: string)
    ensures QueuedAt(log + [d], id) ==
            if d.action == RemotePending && d.eventID == id then |log| else QueuedAt(log, id)
  {
    assert (log + [d])[..|log|] == log;
  }

  /** Listed by where they were queued: the first is the oldest. */
  ghost predicate ListedAsQueued(order: seq<string>, log: seq<Decision>) {
    && (forall i :: 0 <= i < |order| ==> 0 <= QueuedAt(log, order[i]))
    && (forall i, j :: 0 <= i < j < |order| ==> QueuedAt(log, order[i]) < QueuedAt(log, order[j]))
  }

  lemma OtherLine(order: seq<string>, log: seq<Decision>, d: Decision)
    requires ListedAsQueued(order, log) && d.action != RemotePending
    ensures ListedAsQueued(order, log + [d])
  {
    forall i | 0 <= i < |order| ensures QueuedAt(log + [d], order[i]) == QueuedAt(log, order[i]) {
      QueuedStep(log, d, order[i]);
    }
  }

  lemma NewLine(order: seq<string>, log: seq<Decision>, d: Decision)
    requires ListedAsQueued(order, log) && d.action == RemotePending && d.eventID !in order
    ensures ListedAsQueued(order + [d.eventID], log + [d])
  {
    var longer := order + [d.eventID];
    forall i | 0 <= i < |order| ensures QueuedAt(log + [d], longer[i]) == QueuedAt(log, order[i]) < |log| {
      QueuedStep(log, d, order[i]);
      QueuedBefore(log, order[i]);
      assert order[i] in order;
    }
    QueuedStep(log, d, d.eventID);
  }

  lemma ConsListed(x: string, rest: seq<string>, log: seq<Decision>)
    requires ListedAsQueued(rest, log) && 0 <= QueuedAt(log, x)
    requires forall y :: y in rest ==> QueuedAt(log, x) < QueuedAt(log, y)
    ensures ListedAsQueued([x] + rest, log)
  {
    hide QueuedAt;
    assert forall i :: 0 <= i < |rest| ==> rest[i] in rest;
  }

  lemma HeadListed(order: seq<string>, log: seq<Decision>, y: string)
    requires ListedAsQueued(order, log) && order != [] && y in order[1..]
    ensures QueuedAt(log, order[0]) < QueuedAt(log, y)
  {
    hide QueuedAt;
    var k :| 0 <= k < |order[1..]| && order[1..][k] == y;
    assert order[k + 1] == y;
  }

  lemma {:induction false} RemovedListed(order: seq<string>, id: string, log: seq<Decision>)
    requires ListedAsQueued(order, log)
    ensures ListedAsQueued(RemoveFirst(order, id), log)
    ensures forall x :: x in RemoveFirst(order, id) ==> x in order
  {
    if order != [] {
      TailListed(order, log);
      FirstQueued(order, log);
      hide ListedAsQueued, QueuedAt;
      if order[0] != id {
        RemovedListed(order[1..], id, log);
        var rest := RemoveFirst(order[1..], id);
        forall y | y in rest ensures QueuedAt(log, order[0]) < QueuedAt(log, y) {
          HeadListed(order, log, y);
        }
        ConsListed(order[0], rest, log);
      }
    }
  }

  lemma FirstQueued(order: seq<string>, log: seq<Decision>)
    requires ListedAsQueued(order, log) && order != []
    ensures 0 <= QueuedAt(log, order[0])
  {
    hide QueuedAt;
  }

  lemma TailListed(order: seq<string>, log: seq<Decision>)
    requires ListedAsQueued(order, log) && order != []
    ensures ListedAsQueued(order[1..], log)
  {
    hide QueuedAt;
    assert forall i :: 0 <= i < |order| - 1 ==> order[1..][i] == order[i + 1];
  }

  lemma LogIsOneLonger(s: State, t: State)
    requires |t.log| == |s.log| + 1 && t.log[..|s.log|] == s.log
    ensures t.log == s.log + [t.log[|s.log|]]
  {
  }

  lemma EffectListed(f: Effect, s: State, t: State)
    requires Inv(s) && Explains(f, s, t) && ListedAsQueued(s.inbox.order, s.log)
    ensures ListedAsQueued(t.inbox.order, t.log)
  {
    hide Conserved, ListedAsQueued, Added, BoxOk;
    if |t.log| == |s.log| + 1 { LogIsOneLonger(s, t); }
    match f
    case Queue(entry) => QueueListed(s, t, entry);
    case Release(id) =>
      RemovedListed(s.inbox.order, id, s.log);
      OtherLine(RemoveFirst(s.inbox.order, id), s.log, t.log[|s.log|]);
    case DropAll => NoneListed(t.log);
    case _ => if t.log != s.log { OtherLine(s.inbox.order, s.log, t.log[|s.log|]); }
  }

  lemma NoneListed(log: seq<Decision>)
    ensures ListedAsQueued([], log)
  {
  }

  lemma QueueListed(s: State, t: State, entry: Pending)
    requires Inv(s) && Explains(Queue(entry), s, t) && ListedAsQueued(s.inbox.order, s.log)
    ensures ListedAsQueued(t.inbox.order, t.log)
  {
    hide Conserved, ListedAsQueued, AddPending, Added;
    AddPendingEffect(s, entry);
    LogIsOneLonger(s, t);
    var kept := if |s.inbox.entries| == s.inbox.limit then s.inbox.order[1..] else s.inbox.order;
    if |s.inbox.entries| == s.inbox.limit { TailListed(s.inbox.order, s.log); }
    assert entry.event.eventID !in kept;
    NewLine(kept, s.log, t.log[|s.log|]);
  }

  /**
   In every run the waiting events are listed in the order they were queued, so that a full inbox evicts the
   one that has waited longest.
   */
  lemma {:induction false} WaitingInOrder(hash: HashFn, p: Params, s0: State, inputs: seq<Input>)
    requires Inv(s0) && ListedAsQueued(s0.inbox.order, s0.log)
    ensures var s := Run(hash, p, s0, inputs); ListedAsQueued(s.inbox.order, s.log)
  {
    hide Step, Inv, Explains, ListedAsQueued;
    if inputs != [] {
      var before := inputs[..|inputs| - 1];
      WaitingInOrder(hash, p, s0, before);
      RunInv(hash, p, s0, before);
      var s := Run(hash, p, s0, before);
      var f := StepEffect(hash, p, s, inputs[|inputs| - 1]);
      EffectListed(f, s, Run(hash, p, s0, inputs));
    }
  }
}
