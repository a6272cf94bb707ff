/**
 The counted case of the no-storm law is real: a run of two nodes in which an apply drives out the
 token of an echo still to come, and the nodes publish more than the users copied.
 */
module Storms {
  import opened Options
  import opened Text
  import opened Config
  import opened Event
  import opened World
  import opened Topics
  import opened Dedupe
  import opened Sync
  import opened Effects
  import opened Laws
  import opened Policy
  import opened Network
  import ConfigStore
  import Json
  import W = Witnesses

  // ---------------------------------------------------------------- the two nodes and what they send

  /** One topic open both ways, remote texts applied on arrival. */
  function Eager(topic: string): Config {
    W.Sharing([topic], true, false).(autoApply := true)
  }

  function Machine(id: nat, instance: string): Params {
    Params(id, instance, true, true, W.NO_FAILURES)
  }

  /** A short text whatever its characters are. */
  predicate Shareable(text: string) {
    text != "" && (0 as char) !in text && 6 * Utf8Len(text) <= DEFAULT_MAX_INLINE_BYTES
  }

  /** An identity with short names. */
  predicate Small(p: Params, id: string) {
    && 0 < p.nodeID < 0x1_0000_0000 && p.hasBus && p.hasClipboard && p.env == W.NO_FAILURES
    && p.instanceID != "" && Trimmed(p.instanceID) && |p.instanceID| <= 5
    && |id| == 1 && Trimmed(id)
  }

  function EventOf(hash: HashFn, p: Params, text: string, id: string): TextEvent {
    TextEvent(EVENT_VERSION, id, p.nodeID, p.instanceID, DEFAULT_DEVICE_ID, text, Utf8Len(text), hash(text))
  }

  lemma EagerNormal(topic: string)
    requires W.GoodTopics([topic])
    ensures var c := Eager(topic);
            && Normalized(c) == Some(c) && c.enabled && c.autoApply && c.Routes() == W.RoutesOf([topic])
            && c.deviceLabel == DEFAULT_DEVICE_ID && c.maxInlineBytes == DEFAULT_MAX_INLINE_BYTES
  {
    hide Normalized, SubscriptionTopics, NormalizedRoutes;
    W.SharingNormal([topic], true, false);
    NormalizeFixedPoints(Eager(topic));
  }

  lemma SentIsNormal(hash: HashFn, p: Params, text: string, id: string)
    requires Shareable(text) && Small(p, id)
    ensures var e := EventOf(hash, p, text, id); Event.Normalize(hash, e, DEFAULT_MAX_INLINE_BYTES) == Some(e)
  {
    assert Trimmed(DEFAULT_DEVICE_ID);
  }

  lemma Inspects(hash: HashFn, text: string)
    requires Shareable(text)
    ensures InspectText(hash, Utf8(text), DEFAULT_MAX_INLINE_BYTES) == Some(Digest(Utf8Len(text), hash(text)))
  {
    hide Utf8Len;
  }

  /** The event a node with that configuration makes of a text. */
  lemma Builds(hash: HashFn, p: Params, topic: string, text: string, id: string)
    requires Shareable(text) && Small(p, id) && W.GoodTopics([topic])
    ensures BuildTextEvent(hash, p, Eager(topic), text, Digest(Utf8Len(text), hash(text)), Some(id)) ==
            Built(id, Encode(EventOf(hash, p, text, id)))
  {
    hide Encode, Eager, Event.Normalize, Utf8Len, TrimSpace, W.GoodTopics, Shareable;
    EagerNormal(topic);
    SentIsNormal(hash, p, text, id);
    TrimmedStay(p, id);
  }

  lemma TrimmedStay(p: Params, id: string)
    requires Small(p, id)
    ensures TrimSpace(id) == id && TrimSpace(p.instanceID) == p.instanceID && p.instanceID != ""
    ensures TrimSpace(DEFAULT_DEVICE_ID) == DEFAULT_DEVICE_ID
  {
    assert Trimmed(DEFAULT_DEVICE_ID);
  }

  /** It reaches the others as it was sent. */
  lemma Arrives(hash: HashFn, p: Params, text: string, id: string)
    requires Shareable(text) && Small(p, id)
    ensures var e := EventOf(hash, p, text, id);
            Parse(hash, Received(Encode(e)), DEFAULT_MAX_INLINE_BYTES) == Some(e)
  {
    hide Encode, Json.EscapeAll;
    SentIsNormal(hash, p, text, id);
    Json.EscapedLenBounds(text);
    Json.EscapedLenBounds(id);
    Json.EscapedLenBounds(p.instanceID);
    Json.EscapedLenBounds(DEFAULT_DEVICE_ID);
    ShortFieldsFit(hash, EventOf(hash, p, text, id), DEFAULT_MAX_INLINE_BYTES);
  }

  // ---------------------------------------------------------------- one step of a node

  function Sending(hash: HashFn, p: Params, topic: string, text: string, id: string): Call {
    Publish(topic, TEXT_EVENT_NAME, TextBody(Encode(EventOf(hash, p, text, id))), true)
  }

  lemma OneTopic(env: Environment, w: World, topic: string, body: Body)
    requires env.publish == {} && W.GoodTopics([topic])
    ensures PublishTopics(W.RoutesOf([topic])) == [topic]
    ensures PublishAll(env, w, [topic], TEXT_EVENT_NAME, body, 0) ==
            (w.(calls := w.calls + [Publish(topic, TEXT_EVENT_NAME, body, true)]), 1)
  {
    assert W.RoutesOf([topic])[..0] == [];
    assert [topic][1..] == [];
  }

  lemma InlineGoesOut(p: Params, s: State, topic: string, text: string, digest: Digest, built: Built)
    requires W.GoodTopics([topic]) && s.cfg.Routes() == W.RoutesOf([topic]) && p.env.publish == {} && built.Built?
    requires digest.sha256 !in s.suppress.members && digest.sha256 != s.lastLocalHash
    ensures var t := HandleInlineText(p, s, text, digest, built).state;
            && t.world.calls == s.world.calls + [Publish(topic, TEXT_EVENT_NAME, TextBody(built.wire), true)]
            && t.cfg == s.cfg && t.suppress == s.suppress && t.lastLocalHash == digest.sha256
            && |t.log| == |s.log| + 1 && t.log[|s.log|].action == LocalPublished
  {
    hide PublishAll, PublishTopics, Added, W.GoodTopics, W.RoutesOf, Join;
    OneTopic(p.env, s.world, topic, TextBody(built.wire));
  }

  /** A text the node neither expects nor sent last goes out. */
  lemma Publishes(hash: HashFn, p: Params, s: State, topic: string, text: string, id: string)
    requires Shareable(text) && Small(p, id) && W.GoodTopics([topic]) && s.cfg == Eager(topic)
    requires hash(text) !in s.suppress.members && hash(text) != s.lastLocalHash
    ensures var t := Step(hash, p, s, LocalInput(Utf8(text), Some(id), 0)).state;
            && t.world.calls == s.world.calls + [Sending(hash, p, topic, text, id)]
            && t.cfg == s.cfg && t.suppress == s.suppress && t.lastLocalHash == hash(text)
            && |t.log| == |s.log| + 1 && t.log[|s.log|].action == LocalPublished
  {
    hide Step, Encode, Eager, InspectText, InspectTextContent, BuildTextEvent, HandleInlineText, EventOf, W.GoodTopics,
         Shareable, PublishTransferManifest;
    var digest := Digest(Utf8Len(text), hash(text));
    StepIsLocal(hash, p, s, Utf8(text), Some(id), 0);
    EagerNormal(topic);
    Inspects(hash, text);
    Builds(hash, p, topic, text, id);
    InlineGoesOut(p, s, topic, text, digest, BuildTextEvent(hash, p, s.cfg, text, digest, Some(id)));
  }

  /** A new event from elsewhere is written on arrival. */
  lemma Applies(hash: HashFn, p: Params, s: State, topic: string, q: Params, text: string, id: string)
    requires Shareable(text) && Small(q, id) && Small(p, id) && W.GoodTopics([topic]) && s.cfg == Eager(topic)
    requires p.nodeID != q.nodeID && p.instanceID != q.instanceID && id !in s.recent.members && id !in s.inbox.entries
    ensures var payload := Received(Encode(EventOf(hash, q, text, id)));
            var t := Step(hash, p, s, MessageInput(topic, TEXT_EVENT_NAME, payload)).state;
            && t.world.calls == s.world.calls + [WriteText(text, true)]
            && t.cfg == s.cfg && t.suppress == Added(s.suppress, hash(text)) && t.recent == Added(s.recent, id)
            && t.inbox == s.inbox && t.lastLocalHash == s.lastLocalHash
            && |t.log| == |s.log| + 1 && t.log[|s.log|].action == RemoteApplied
            && t.log[|s.log|].sha256 == hash(text) && t.log[|s.log|].text == text
  {
    hide Step, Encode, Eager, Parse, RouteFor, Added, HandleTopicBusMessage;
    var payload, e := Received(Encode(EventOf(hash, q, text, id))), EventOf(hash, q, text, id);
    EagerNormal(topic);
    Arrives(hash, q, text, id);
    W.RouteOfTopic(topic);
    StepIsMessage(hash, p, s, topic, TEXT_EVENT_NAME, payload);
    TextDispatch(hash, p, s, topic, payload, e);
    assert e.IsLocalOrigin(p.nodeID, p.instanceID) == false;
  }

  lemma AfterPublish(s: State, t: State, c: Call, echoes: multiset<string>)
    requires TextPublish(c) && t.world.calls == s.world.calls + [c]
    requires |t.log| == |s.log| + 1 && t.log[|s.log|].action == LocalPublished
    ensures PublishesText(s, t) && !AppliedLast(s, t) && !Overflows(s, t, echoes)
  {
    assert t.world.calls[|s.world.calls|] == c;
  }

  lemma AfterWrite(s: State, t: State, text: string, h: string, echoes: multiset<string>)
    requires t.world.calls == s.world.calls + [WriteText(text, true)]
    requires |t.log| == |s.log| + 1 && t.log[|s.log|].action == RemoteApplied && t.log[|s.log|].sha256 == h
    ensures !PublishesText(s, t) && AppliedLast(s, t) && (Overflows(s, t, echoes) <==> LosesEcho(s.suppress, h, echoes))
  {
    hide LosesEcho;
    assert forall k :: |s.world.calls| <= k < |t.world.calls| ==> t.world.calls[k] == WriteText(text, true);
  }

  lemma GoesOut(hash: HashFn, n: Node, topic: string, text: string, id: string)
    requires Shareable(text) && Small(n.p, id) && W.GoodTopics([topic]) && n.s.cfg == Eager(topic)
    requires hash(text) !in n.s.suppress.members && hash(text) != n.s.lastLocalHash
    ensures var m := Moved(hash, n, LocalInput(Utf8(text), Some(id), 0));
            && m.p == n.p && m.s.cfg == n.s.cfg && m.s.suppress == n.s.suppress && m.s.lastLocalHash == hash(text)
            && Sending(hash, n.p, topic, text, id) in m.s.world.calls
            && m.echoes == n.echoes && m.wrote == n.wrote
            && m.copies == n.copies && m.published == n.published + 1 && m.overflows == n.overflows
  {
    hide Moved, Step, Eager, Encode, EventOf, Overflows, PublishesText, AppliedLast, Small, W.GoodTopics, Shareable;
    var input := LocalInput(Utf8(text), Some(id), 0);
    var m := Moved(hash, n, input);
    MovedShape(hash, n, input);
    Publishes(hash, n.p, n.s, topic, text, id);
    AfterPublish(n.s, m.s, Sending(hash, n.p, topic, text, id), n.echoes);
    assert m.s.world.calls[|n.s.world.calls|] == Sending(hash, n.p, topic, text, id);
  }

  lemma ComesIn(hash: HashFn, n: Node, topic: string, q: Params, text: string, id: string)
    requires Shareable(text) && Small(q, id) && Small(n.p, id) && W.GoodTopics([topic]) && n.s.cfg == Eager(topic)
    requires n.p.nodeID != q.nodeID && n.p.instanceID != q.instanceID
    requires id !in n.s.recent.members && id !in n.s.inbox.entries
    ensures var input := MessageInput(topic, TEXT_EVENT_NAME, Received(Encode(EventOf(hash, q, text, id))));
            var m := Moved(hash, n, input);
            && m.p == n.p && m.s.cfg == n.s.cfg && m.s.suppress == Added(n.s.suppress, hash(text))
            && m.s.recent == Added(n.s.recent, id) && m.s.inbox == n.s.inbox && m.s.lastLocalHash == n.s.lastLocalHash
            && m.echoes == n.echoes + multiset{hash(text)} && m.wrote == n.wrote + {text}
            && m.copies == n.copies && m.published == n.published
            && m.overflows == n.overflows + if LosesEcho(n.s.suppress, hash(text), n.echoes) then 1 else 0
  {
    hide Moved, Step, Eager, Encode, LosesEcho, EventOf, Added, Overflows, PublishesText, AppliedLast, Small,
         W.GoodTopics, Shareable;
    var input := MessageInput(topic, TEXT_EVENT_NAME, Received(Encode(EventOf(hash, q, text, id))));
    var m := Moved(hash, n, input);
    MovedShape(hash, n, input);
    Applies(hash, n.p, n.s, topic, q, text, id);
    AfterWrite(n.s, m.s, text, hash(text), n.echoes);
  }

  // ---------------------------------------------------------------- the run

  /** A node made with room for one token. */
  function Fresh(id: nat, instance: string, topic: string): Option<Node> {
    match Created(Machine(id, instance), Eager(topic), 0, 1)
    case None => None
    case Some(s) => Some(Node(Machine(id, instance), s, multiset{}, {}, 0, 0, 0))
  }

  lemma FreshIs(id: nat, instance: string, topic: string)
    requires 0 < id && instance != "" && W.GoodTopics([topic])
    ensures Fresh(id, instance, topic).Some?
    ensures var n := Fresh(id, instance, topic).value;
            && Booted(n) && n.p == Machine(id, instance) && n.s.cfg == Eager(topic) && n.s.lastLocalHash == ""
            && n.s.suppress == Window(1, {}, []) && n.s.recent == New(DEFAULT_RECENT_LIMIT)
            && n.s.inbox.entries == map[]
  {
    hide Eager, Normalized;
    EagerNormal(topic);
    assert Created(Machine(id, instance), Eager(topic), 0, 1).Some?;
  }

  lemma OneToken(h: string, k: string)
    requires h != "" && k != "" && h != k
    ensures Added(Window(1, {}, []), h) == Window(1, {h}, [h])
    ensures Added(Window(1, {h}, [h]), k) == Window(1, {k}, [k])
    ensures !LosesEcho(Window(1, {}, []), h, multiset{}) && LosesEcho(Window(1, {h}, [h]), k, multiset{h})
  {
    assert |{h} + {k}| == 2 && [h] + [k] == [h, k] && [h, k][1..] == [k] && {h} + {k} - {h} == {k};
    assert Evict(1, {k}, [k]) == ({k}, [k]);
    assert Evict(1, {h} + {k}, [h] + [k]) == Evict(1, {h} + {k} - {h}, [k]);
    assert Added(Window(1, {h}, [h]), k) == Window(1, {k}, [k]);
    assert h in {h} + {k} - {k};
  }

  function Arrival(hash: HashFn, topic: string, text: string, id: string): Input {
    MessageInput(topic, TEXT_EVENT_NAME, Received(Encode(EventOf(hash, Machine(2, "there"), text, id))))
  }

  /** The first user copies two texts; the second node writes both and then reports the first. */
  function Script(hash: HashFn, topic: string, first: string, second: string): seq<NetStep> {
    var there := Machine(2, "there");
    [Copy(0, first, Some("1"), 0), Deliver(1, Sending(hash, there, topic, first, "1"), ""),
     Copy(0, second, Some("2"), 0), Deliver(1, Sending(hash, there, topic, second, "2"), ""),
     Echo(1, first, Some("3"), 0)]
  }

  lemma OneMore(hash: HashFn, net: Net, steps: seq<NetStep>, step: NetStep, mid: Net)
    requires NetRun(hash, net, steps) == Some(mid) && Possible(hash, mid, step)
    ensures NetRun(hash, net, steps + [step]) == Some(NetAfter(hash, mid, step))
  {
    hide Possible, NetAfter;
    assert (steps + [step])[..|steps|] == steps;
  }

  lemma SmallOnes()
    ensures Small(Machine(2, "there"), "1") && Small(Machine(2, "there"), "2")
    ensures Small(Machine(1, "here"), "1") && Small(Machine(1, "here"), "2") && Small(Machine(1, "here"), "3")
    ensures Machine(2, "there").nodeID != Machine(1, "here").nodeID && "1" != "2"
    ensures Machine(2, "there").instanceID != Machine(1, "here").instanceID
  {
    assert "there"[0] == 't' && "here"[0] == 'h' && "1"[0] == '1' && "2"[0] == '2';
  }

  lemma SenderRuns(hash: HashFn, topic: string, first: string, second: string) returns (a: Node, b: Node, c: Node)
    requires W.GoodTopics([topic]) && Shareable(first) && Shareable(second) && hash(first) != hash(second)
    ensures Fresh(2, "there", topic) == Some(a) && Booted(a)
    ensures b == Moved(hash, a.(copies := a.copies + 1), LocalInput(Utf8(first), Some("1"), 0))
    ensures Sending(hash, Machine(2, "there"), topic, first, "1") in b.s.world.calls
    ensures c == Moved(hash, b.(copies := b.copies + 1), LocalInput(Utf8(second), Some("2"), 0))
    ensures Sending(hash, Machine(2, "there"), topic, second, "2") in c.s.world.calls
    ensures c.published == 2 && c.copies == 2 && c.overflows == 0
  {
    hide Moved, Eager, Sending, Small, Machine, Booted, W.GoodTopics, Shareable, Fresh;
    SmallOnes();
    FreshIs(2, "there", topic);
    a := Fresh(2, "there", topic).value;
    BootedCounts(a);
    var p := Machine(2, "there");
    GoesOut(hash, a.(copies := a.copies + 1), topic, first, "1");
    b := Moved(hash, a.(copies := a.copies + 1), LocalInput(Utf8(first), Some("1"), 0));
    GoesOut(hash, b.(copies := b.copies + 1), topic, second, "2");
    c := Moved(hash, b.(copies := b.copies + 1), LocalInput(Utf8(second), Some("2"), 0));
  }

  lemma BootedCounts(n: Node)
    requires Booted(n)
    ensures n.echoes == multiset{} && n.wrote == {} && n.copies == 0 && n.published == 0 && n.overflows == 0
  {
    hide Created;
  }

  lemma RecentHolds(id: string, other: string)
    requires id != other
    ensures other !in Added(New(DEFAULT_RECENT_LIMIT), id).members
  {
    hide Added;
    RecentAdded(New(DEFAULT_RECENT_LIMIT), id);
  }

  lemma DigestSome(hash: HashFn, text: string)
    ensures hash(text) != ""
  {
    assert IsDigest(hash(text));
  }

  lemma NothingRecent()
    ensures New(DEFAULT_RECENT_LIMIT).members == {}
  {
  }

  /** A node made with room for one token, before anything happened to it. */
  ghost predicate Untouched(n: Node, topic: string) {
    && n.p == Machine(1, "here") && n.s.cfg == Eager(topic) && n.s.lastLocalHash == ""
    && n.s.suppress == Window(1, {}, []) && n.s.recent == New(DEFAULT_RECENT_LIMIT) && n.s.inbox.entries == map[]
    && n.echoes == multiset{} && n.wrote == {} && n.copies == 0 && n.published == 0 && n.overflows == 0
  }

  lemma FreshUntouched(topic: string)
    requires W.GoodTopics([topic])
    ensures Fresh(1, "here", topic).Some? && Booted(Fresh(1, "here", topic).value)
    ensures Untouched(Fresh(1, "here", topic).value, topic)
  {
    hide Fresh, Booted, Eager, Machine, New;
    FreshIs(1, "here", topic);
    BootedCounts(Fresh(1, "here", topic).value);
  }

  lemma FirstArrives(hash: HashFn, a: Node, topic: string, first: string)
    requires W.GoodTopics([topic]) && Shareable(first) && Untouched(a, topic)
    ensures var b := Moved(hash, a, Arrival(hash, topic, first, "1"));
            && b.p == Machine(1, "here") && b.s.cfg == Eager(topic) && b.s.lastLocalHash == ""
            && b.s.suppress == Added(Window(1, {}, []), hash(first))
            && b.s.recent == Added(New(DEFAULT_RECENT_LIMIT), "1")
            && b.s.inbox.entries == map[] && b.echoes == multiset{hash(first)} && b.wrote == {first}
            && b.published == 0 && b.copies == 0
            && b.overflows == if LosesEcho(Window(1, {}, []), hash(first), multiset{}) then 1 else 0
  {
    hide Moved, Eager, Small, W.GoodTopics, Shareable, Encode, EventOf, Added, LosesEcho, New, Machine;
    SmallOnes();
    assert "1" !in New(DEFAULT_RECENT_LIMIT).members by { NothingRecent(); }
    ComesIn(hash, a, topic, Machine(2, "there"), first, "1");
    assert multiset{} + multiset{hash(first)} == multiset{hash(first)};
    assert {} + {first} == {first};
  }

  lemma TwoArrive(hash: HashFn, topic: string, first: string, second: string) returns (a: Node, b: Node, c: Node)
    requires W.GoodTopics([topic]) && Shareable(first) && Shareable(second) && hash(first) != hash(second)
    ensures Fresh(1, "here", topic) == Some(a) && Booted(a)
    ensures b == Moved(hash, a, Arrival(hash, topic, first, "1"))
    ensures c == Moved(hash, b, Arrival(hash, topic, second, "2"))
    ensures c.p == Machine(1, "here") && c.s.cfg == Eager(topic) && c.s.lastLocalHash == ""
    ensures c.s.suppress.members == {hash(second)} && Due(hash, c, first)
    ensures c.published == 0 && c.copies == 0 && c.overflows == 1
  {
    hide Moved, Eager, Small, Booted, W.GoodTopics, Shareable, Fresh, Encode, EventOf, Added, LosesEcho, New, Machine,
         Untouched;
    SmallOnes();
    DigestSome(hash, first);
    DigestSome(hash, second);
    OneToken(hash(first), hash(second));
    RecentHolds("1", "2");
    FreshUntouched(topic);
    a := Fresh(1, "here", topic).value;
    FirstArrives(hash, a, topic, first);
    b := Moved(hash, a, Arrival(hash, topic, first, "1"));
    ComesIn(hash, b, topic, Machine(2, "there"), second, "2");
    c := Moved(hash, b, Arrival(hash, topic, second, "2"));
  }

  lemma ReceiverRuns(hash: HashFn, topic: string, first: string, second: string)
    returns (a: Node, b: Node, c: Node, d: Node)
    requires W.GoodTopics([topic]) && Shareable(first) && Shareable(second) && hash(first) != hash(second)
    ensures Fresh(1, "here", topic) == Some(a) && Booted(a)
    ensures b == Moved(hash, a, Arrival(hash, topic, first, "1"))
    ensures c == Moved(hash, b, Arrival(hash, topic, second, "2"))
    ensures Due(hash, c, first) && d == Moved(hash, Heard(c, hash(first)), LocalInput(Utf8(first), Some("3"), 0))
    ensures d.published == 1 && d.copies == 0 && d.overflows == 1
  {
    hide Moved, Eager, Sending, Small, Booted, W.GoodTopics, Shareable, Fresh, Arrival, Due, Machine;
    SmallOnes();
    a, b, c := TwoArrive(hash, topic, first, second);
    DigestSome(hash, first);
    GoesOut(hash, Heard(c, hash(first)), topic, first, "3");
    d := Moved(hash, Heard(c, hash(first)), LocalInput(Utf8(first), Some("3"), 0));
  }

  /**
   The no-storm law cannot do without its count: two nodes, two texts copied, and three published. With
   room for one token, the second apply drives out the token of the first, whose echo then goes out.
   */
  lemma StormHappens(hash: HashFn, topic: string, first: string, second: string)
    requires W.GoodTopics([topic]) && Shareable(first) && Shareable(second) && hash(first) != hash(second)
    ensures var sender, receiver := Fresh(2, "there", topic), Fresh(1, "here", topic);
            && sender.Some? && receiver.Some? && Booted(sender.value) && Booted(receiver.value)
            && var run := NetRun(hash, Net([sender.value, receiver.value], {}), Script(hash, topic, first, second));
               && run.Some?
               && Totals(run.value.nodes).published == 3 && Totals(run.value.nodes).copies == 2
               && Totals(run.value.nodes).overflows == 1
  {
    hide Moved, Eager, Machine, Booted, W.GoodTopics, Shareable, Fresh, Encode, EventOf, NetRun, NetAfter,
         Possible, Due, Totals, Heard, Arrival, Sending;
    var a0, a1, a2 := SenderRuns(hash, topic, first, second);
    var b0, b1, b2, b3 := ReceiverRuns(hash, topic, first, second);
    var steps := Script(hash, topic, first, second);
    var net := Net([a0, b0], {});
    RunsNothing(hash, net);
    var n1, n2 := Net([a1, b0], {first}), Net([a1, b1], {first});
    var n3, n4 := Net([a2, b1], {first, second}), Net([a2, b2], {first, second});
    CopyStep(hash, net, first, "1");
    CanDeliver(hash, n1, topic, first, "1");
    DeliverStep(hash, n1, topic, first, "1");
    CopyStep(hash, n2, second, "2");
    CanDeliver(hash, n3, topic, second, "2");
    DeliverStep(hash, n3, topic, second, "2");
    EchoStep(hash, n4, first, "3");
    assert {} + {first} == {first} && {first} + {second} == {first, second};
    OneMore(hash, net, [], steps[0], net);
    OneMore(hash, net, [] + [steps[0]], steps[1], n1);
    OneMore(hash, net, [] + [steps[0]] + [steps[1]], steps[2], n2);
    OneMore(hash, net, [] + [steps[0]] + [steps[1]] + [steps[2]], steps[3], n3);
    OneMore(hash, net, [] + [steps[0]] + [steps[1]] + [steps[2]] + [steps[3]], steps[4], n4);
    assert [] + [steps[0]] + [steps[1]] + [steps[2]] + [steps[3]] + [steps[4]] == steps;
    TwoNodes(a2, b3);
  }

  lemma CopyStep(hash: HashFn, net: Net, text: string, id: string)
    requires |net.nodes| == 2
    ensures var step, n := Copy(0, text, Some(id), 0), net.nodes[0];
            && Possible(hash, net, step)
            && NetAfter(hash, net, step) ==
               Net([Moved(hash, n.(copies := n.copies + 1), LocalInput(Utf8(text), Some(id), 0)), net.nodes[1]],
                   net.copied + {text})
  {
    hide Moved;
  }

  lemma CanDeliver(hash: HashFn, net: Net, topic: string, text: string, id: string)
    requires |net.nodes| == 2
    requires Sending(hash, Machine(2, "there"), topic, text, id) in net.nodes[0].s.world.calls
    ensures Possible(hash, net, Deliver(1, Sending(hash, Machine(2, "there"), topic, text, id), ""))
  {
    hide Encode, EventOf, Machine;
  }

  lemma DeliverStep(hash: HashFn, net: Net, topic: string, text: string, id: string)
    requires |net.nodes| == 2
    requires Possible(hash, net, Deliver(1, Sending(hash, Machine(2, "there"), topic, text, id), ""))
    ensures NetAfter(hash, net, Deliver(1, Sending(hash, Machine(2, "there"), topic, text, id), "")) ==
            Net([net.nodes[0], Moved(hash, net.nodes[1], Arrival(hash, topic, text, id))], net.copied)
  {
    hide Moved, Encode, EventOf, Machine;
  }

  lemma EchoStep(hash: HashFn, net: Net, text: string, id: string)
    requires |net.nodes| == 2 && Due(hash, net.nodes[1], text)
    ensures var step := Echo(1, text, Some(id), 0);
            && Possible(hash, net, step)
            && NetAfter(hash, net, step) ==
               Net([net.nodes[0], Moved(hash, Heard(net.nodes[1], hash(text)), LocalInput(Utf8(text), Some(id), 0))],
                   net.copied)
  {
    hide Moved, Due, Heard;
  }

  lemma RunsNothing(hash: HashFn, net: Net)
    ensures NetRun(hash, net, []) == Some(net)
  {
  }

  lemma TwoNodes(a: Node, b: Node)
    ensures var t := Totals([a, b]);
            && t.published == a.published + b.published && t.copies == a.copies + b.copies
            && t.overflows == a.overflows + b.overflows
  {
    hide Unprotected;
    assert [a, b][1..] == [b] && [b][1..] == [];
    assert Totals([b]).published == b.published && Totals([b]).copies == b.copies;
    assert Totals([b]).overflows == b.overflows;
  }
}
