/** Where texts may go: what is written to the clipboard, what is published, and what a disable stops. */
module Policy {
  import opened Options
  import opened Text
  import opened Config
  import opened Event
  import opened World
  import opened Topics
  import opened Dedupe
  import opened Sync
  import opened Effects
  import opened Laws

  predicate Lifecycle(c: Call) {
    c.Subscribe? || c.Unsubscribe? || c.WatchText?
  }

  /** Calls are only ever appended; these are the new ones. */
  ghost predicate Extends(w: World, v: World) {
    |w.calls| <= |v.calls| && v.calls[..|w.calls|] == w.calls
  }

  function NewCalls(w: World, v: World): seq<Call>
    requires Extends(w, v)
  {
    v.calls[|w.calls|..]
  }

  ghost predicate OnlyLifecycle(w: World, v: World) {
    Extends(w, v) && forall c :: c in NewCalls(w, v) ==> Lifecycle(c)
  }

  lemma Chain(u: World, v: World, w: World)
    requires Extends(u, v) && Extends(v, w)
    ensures Extends(u, w) && NewCalls(u, w) == NewCalls(u, v) + NewCalls(v, w)
  {
    assert w.calls[..|v.calls|][..|u.calls|] == w.calls[..|u.calls|];
    assert w.calls == v.calls + NewCalls(v, w);
  }

  lemma LifecycleChain(u: World, v: World, w: World)
    requires OnlyLifecycle(u, v) && OnlyLifecycle(v, w)
    ensures OnlyLifecycle(u, w)
  {
    Chain(u, v, w);
  }

  lemma {:induction false} SubscribeAllCalls(env: Environment, w: World, topics: seq<string>, done: seq<string>)
    ensures OnlyLifecycle(w, SubscribeAll(env, w, topics, done).0)
    decreases |topics|
  {
    if topics != [] {
      var next := Subscribed(env, w, topics[0]);
      assert OnlyLifecycle(w, next);
      if |w.calls| !in env.subscribe {
        SubscribeAllCalls(env, next, topics[1..], done + [topics[0]]);
        LifecycleChain(w, next, SubscribeAll(env, next, topics[1..], done + [topics[0]]).0);
      }
    }
  }

  lemma {:induction false} UnsubscribeAllCalls(env: Environment, w: World, topics: seq<string>, ok: bool)
    ensures OnlyLifecycle(w, UnsubscribeAll(env, w, topics, ok).0)
    decreases |topics|
  {
    if topics != [] {
      var next := Unsubscribed(env, w, topics[0]);
      var ok' := ok && |w.calls| !in env.unsubscribe;
      assert OnlyLifecycle(w, next);
      UnsubscribeAllCalls(env, next, topics[1..], ok');
      LifecycleChain(w, next, UnsubscribeAll(env, next, topics[1..], ok').0);
    }
  }

  /** The calls of a fan-out: one per topic in order, stopping at the first refusal. */
  function FanOut(topics: seq<string>, name: string, body: Body, taken: nat): seq<Call> {
    seq(if taken < |topics| then taken + 1 else |topics|, i requires 0 <= i < |topics| =>
      Publish(topics[i], name, body, i < taken))
  }

  /** The calls of a fan-out, to however many topics. */
  ghost predicate IsFanOut(calls: seq<Call>, topics: seq<string>, name: string, body: Body) {
    exists taken: nat :: calls == FanOut(topics, name, body, taken)
  }

  lemma {:induction false} PublishAllCalls(env: Environment, w: World, topics: seq<string>, name: string, body: Body,
                                           k: nat)
    ensures var (v, taken) := PublishAll(env, w, topics, name, body, k);
            && k <= taken <= k + |topics|
            && Extends(w, v)
            && NewCalls(w, v) == FanOut(topics, name, body, taken - k)
            && IsFanOut(NewCalls(w, v), topics, name, body)
            && v.topics == w.topics && v.watchers == w.watchers
    decreases |topics|
  {
    var (v, taken) := PublishAll(env, w, topics, name, body, k);
    if topics != [] {
      var next := Published(env, w, topics[0], name, body);
      assert NewCalls(w, next) == [Publish(topics[0], name, body, |w.calls| !in env.publish)];
      if |w.calls| !in env.publish {
        PublishAllCalls(env, next, topics[1..], name, body, k + 1);
        Chain(w, next, v);
        assert FanOut(topics, name, body, taken - k) ==
               [Publish(topics[0], name, body, true)] + FanOut(topics[1..], name, body, taken - k - 1);
      }
    }
  }

  // ---------------------------------------------------------------- what each handler calls

  lemma StartCalls(p: Params, s: State)
    ensures OnlyLifecycle(s.world, Start(p, s).state.world)
  {
    hide UnsubscribeAll, SubscribeAll, SubscriptionTopics;
    var (world, done, ok) := SubscribeAll(p.env, s.world, SubscriptionTopics(s.cfg.Routes()), []);
    SubscribeAllCalls(p.env, s.world, SubscriptionTopics(s.cfg.Routes()), []);
    var watched := Watching(p.env, world);
    assert OnlyLifecycle(world, watched);
    LifecycleChain(s.world, world, watched);
    UnsubscribeAllCalls(p.env, world, done, true);
    LifecycleChain(s.world, world, UnsubscribeAll(p.env, world, done, true).0);
    UnsubscribeAllCalls(p.env, watched, done, true);
    LifecycleChain(s.world, watched, UnsubscribeAll(p.env, watched, done, true).0);
  }

  lemma StopCalls(p: Params, s: State, closed: bool)
    ensures OnlyLifecycle(s.world, Stop(p, s, closed).state.world)
  {
    hide UnsubscribeAll, SubscriptionTopics;
    var world := if s.session.started then s.world.(watchers := {}) else s.world;
    UnsubscribeAllCalls(p.env, world, SubscriptionTopics(s.cfg.Routes()), true);
  }

  lemma DisableCalls(p: Params, s: State, next: Config)
    ensures OnlyLifecycle(s.world, Disable(p, s, next).state.world)
  {
    hide UnsubscribeAll, SubscriptionTopics;
    UnsubscribeAllCalls(p.env, Cancelled(s.world, s.session.watcher), SubscriptionTopics(s.cfg.Routes()), true);
  }

  lemma DropTopicsCalls(p: Params, previous: Config, next: Config, w: World)
    ensures OnlyLifecycle(w, DropTopics(p, previous, next, w).0)
  {
    hide UnsubscribeAll, TopicsToSubscribe, TopicsToUnsubscribe;
    var dropped := UnsubscribeAll(p.env, w, TopicsToUnsubscribe(previous, next), true).0;
    UnsubscribeAllCalls(p.env, w, TopicsToUnsubscribe(previous, next), true);
    UnsubscribeAllCalls(p.env, dropped, TopicsToSubscribe(previous, next), true);
    LifecycleChain(w, dropped, UnsubscribeAll(p.env, dropped, TopicsToSubscribe(previous, next), true).0);
  }

  lemma ChangeCalls(p: Params, s: State, next: Config)
    ensures OnlyLifecycle(s.world, Change(p, s, next).state.world)
  {
    hide SubscribeAll, UnsubscribeAll, TopicsToSubscribe, TopicsToUnsubscribe, DropTopics;
    var adding := TopicsToSubscribe(s.cfg, next);
    var (world, done, ok) := SubscribeAll(p.env, s.world, adding, []);
    SubscribeAllCalls(p.env, s.world, adding, []);
    if !ok {
      UnsubscribeAllCalls(p.env, world, done, true);
      LifecycleChain(s.world, world, UnsubscribeAll(p.env, world, done, true).0);
    } else {
      var quiet := if StopsWatcher(s, next) then Cancelled(world, s.session.watcher) else world;
      assert quiet.calls == world.calls;
      var watched := Watching(p.env, quiet);
      assert OnlyLifecycle(quiet, watched);
      LifecycleChain(s.world, quiet, watched);
      UnsubscribeAllCalls(p.env, watched, adding, true);
      LifecycleChain(s.world, watched, UnsubscribeAll(p.env, watched, adding, true).0);
      DropTopicsCalls(p, s.cfg, next, watched);
      LifecycleChain(s.world, watched, DropTopics(p, s.cfg, next, watched).0);
      DropTopicsCalls(p, s.cfg, next, quiet);
      LifecycleChain(s.world, quiet, DropTopics(p, s.cfg, next, quiet).0);
    }
  }

  lemma UpdateCalls(p: Params, s: State, c: Config)
    ensures OnlyLifecycle(s.world, UpdateConfig(p, s, c).state.world)
  {
    hide Normalized, Disable, Change;
    if Normalized(c).Some? {
      DisableCalls(p, s, Normalized(c).value);
      ChangeCalls(p, s, Normalized(c).value);
    }
  }

  lemma RestoreCalls(p: Params, s: State)
    ensures OnlyLifecycle(s.world, OnConnectivityRestored(p, s).state.world)
  {
    hide SubscribeAll, UnsubscribeAll, SubscriptionTopics;
    var (world, done, ok) := SubscribeAll(p.env, s.world, SubscriptionTopics(s.cfg.Routes()), []);
    SubscribeAllCalls(p.env, s.world, SubscriptionTopics(s.cfg.Routes()), []);
    UnsubscribeAllCalls(p.env, world, done, true);
    LifecycleChain(s.world, world, UnsubscribeAll(p.env, world, done, true).0);
  }

  lemma PublishTextCalls(p: Params, s: State, text: string, digest: Digest, built: Built)
    ensures var o := PublishText(p, s, text, digest, built);
            && Extends(s.world, o.state.world)
            && (NewCalls(s.world, o.state.world) == []
                || (built.Built? && IsFanOut(NewCalls(s.world, o.state.world), PublishTopics(s.cfg.Routes()),
                                             TEXT_EVENT_NAME, TextBody(built.wire))))
            && (o.decision.action == LocalPublished ==>
                && built.Built? && PublishTopics(s.cfg.Routes()) != []
                && NewCalls(s.world, o.state.world) ==
                   FanOut(PublishTopics(s.cfg.Routes()), TEXT_EVENT_NAME, TextBody(built.wire),
                       |PublishTopics(s.cfg.Routes())|))
  {
    hide PublishAll, PublishTopics, Join, Added, FanOut, IsFanOut;
    var topics := PublishTopics(s.cfg.Routes());
    if topics != [] && built.Built? {
      PublishAllCalls(p.env, s.world, topics, TEXT_EVENT_NAME, TextBody(built.wire), 0);
    }
  }

  /** The manifest that stands for a text, if one can be made. */
  function ManifestOf(p: Params, cfg: Config, digest: Digest, newID: Option<string>, nowMillis: int): Option<Manifest> {
    NewManifest(digest, cfg.transferProvider, cfg.transferRef, p.nodeID, p.instanceID, cfg.deviceLabel, nowMillis,
                newID)
  }

  lemma PublishManifestCalls(p: Params, s: State, digest: Digest, newID: Option<string>, nowMillis: int)
    ensures var o := PublishTransferManifest(p, s, digest, newID, nowMillis);
            var built := ManifestOf(p, s.cfg, digest, newID, nowMillis);
            && Extends(s.world, o.state.world)
            && (NewCalls(s.world, o.state.world) == []
                || (s.cfg.transferProvider != "" && s.cfg.transferRef != "" && built.Some?
                    && IsFanOut(NewCalls(s.world, o.state.world), PublishTopics(s.cfg.Routes()),
                                TRANSFER_EVENT_NAME, ManifestBody(built.value))))
            && (o.decision.action == TransferPublished ==>
                && built.Some? && PublishTopics(s.cfg.Routes()) != []
                && NewCalls(s.world, o.state.world) ==
                   FanOut(PublishTopics(s.cfg.Routes()), TRANSFER_EVENT_NAME, ManifestBody(built.value),
                       |PublishTopics(s.cfg.Routes())|))
  {
    hide PublishAll, PublishTopics, Join, Added, FanOut, IsFanOut, NewManifest;
    var topics := PublishTopics(s.cfg.Routes());
    var built := ManifestOf(p, s.cfg, digest, newID, nowMillis);
    if topics != [] && built.Some? {
      PublishAllCalls(p.env, s.world, topics, TRANSFER_EVENT_NAME, ManifestBody(built.value), 0);
    }
  }

  // ---------------------------------------------------------------- publishing

  /**
   This call carries the local text of the input: the event built from it, or, when the text is refused
   inline, the manifest that stands for it.
   */
  ghost predicate CarriesText(hash: HashFn, p: Params, cfg: Config, input: Input, c: Call)
    requires input.LocalInput? && c.Publish?
  {
    var inspected := InspectText(hash, input.raw, cfg.maxInlineBytes);
    if inspected.Some? then
      var built := BuildTextEvent(hash, p, cfg, input.raw.text, inspected.value, input.newID);
      c.name == TEXT_EVENT_NAME && built.Built? && c.body == TextBody(built.wire)
    else
      var content := InspectTextContent(hash, input.raw);
      && content.Some? && cfg.transferProvider != "" && cfg.transferRef != ""
      && var m := ManifestOf(p, cfg, content.value, input.newID, input.nowMillis);
         c.name == TRANSFER_EVENT_NAME && m.Some? && c.body == ManifestBody(m.value)
  }

  /** A publish this input may cause: of its own text, while enabled, to a topic that takes local text. */
  ghost predicate AllowedPublish(hash: HashFn, p: Params, s: State, input: Input, c: Call) {
    && input.LocalInput? && c.Publish?
    && s.cfg.enabled && c.topic in PublishTopics(s.cfg.Routes())
    && CarriesText(hash, p, s.cfg, input, c)
  }

  lemma FanOutAllowed(hash: HashFn, p: Params, s: State, input: Input, calls: seq<Call>, name: string, body: Body)
    requires s.cfg.enabled && input.LocalInput? && IsFanOut(calls, PublishTopics(s.cfg.Routes()), name, body)
    requires forall topic, ok :: CarriesText(hash, p, s.cfg, input, Publish(topic, name, body, ok))
    ensures forall c :: c in calls ==> AllowedPublish(hash, p, s, input, c)
  {
    hide CarriesText, PublishTopics;
    forall c | c in calls ensures AllowedPublish(hash, p, s, input, c) {
      assert c == Publish(c.topic, name, body, c.ok);
    }
  }

  lemma InlineCarries(hash: HashFn, p: Params, cfg: Config, input: Input, digest: Digest)
    requires input.LocalInput? && InspectText(hash, input.raw, cfg.maxInlineBytes) == Some(digest)
    requires BuildTextEvent(hash, p, cfg, input.raw.text, digest, input.newID).Built?
    ensures var wire := BuildTextEvent(hash, p, cfg, input.raw.text, digest, input.newID).wire;
            forall topic, ok :: CarriesText(hash, p, cfg, input, Publish(topic, TEXT_EVENT_NAME, TextBody(wire), ok))
  {
    hide BuildTextEvent, InspectText, InspectTextContent, ManifestOf;
  }

  lemma ManifestCarries(hash: HashFn, p: Params, cfg: Config, input: Input, digest: Digest)
    requires input.LocalInput? && InspectText(hash, input.raw, cfg.maxInlineBytes).None?
    requires InspectTextContent(hash, input.raw) == Some(digest) && cfg.transferProvider != "" && cfg.transferRef != ""
    requires ManifestOf(p, cfg, digest, input.newID, input.nowMillis).Some?
    ensures var m := ManifestOf(p, cfg, digest, input.newID, input.nowMillis).value;
            forall topic, ok ::
              CarriesText(hash, p, cfg, input, Publish(topic, TRANSFER_EVENT_NAME, ManifestBody(m), ok))
  {
    hide BuildTextEvent, InspectText, InspectTextContent, ManifestOf;
  }

  /** The step appended calls, and all of them are publishes this input may cause. */
  ghost predicate PublishesOnly(hash: HashFn, p: Params, s: State, input: Input, w: World) {
    Extends(s.world, w) && forall c :: c in NewCalls(s.world, w) ==> AllowedPublish(hash, p, s, input, c)
  }

  lemma NothingCalled(hash: HashFn, p: Params, s: State, input: Input, w: World)
    requires w.calls == s.world.calls
    ensures PublishesOnly(hash, p, s, input, w)
  {
    hide AllowedPublish;
  }

  lemma InlineCalls(hash: HashFn, p: Params, s: State, input: Input, digest: Digest)
    requires s.cfg.enabled && input.LocalInput? && InspectText(hash, input.raw, s.cfg.maxInlineBytes) == Some(digest)
    ensures var built := BuildTextEvent(hash, p, s.cfg, input.raw.text, digest, input.newID);
            PublishesOnly(hash, p, s, input, HandleInlineText(p, s, input.raw.text, digest, built).state.world)
  {
    hide PublishText, BuildTextEvent, InspectText, IsFanOut, AllowedPublish, CarriesText, PublishTopics, PublishesOnly;
    var built := BuildTextEvent(hash, p, s.cfg, input.raw.text, digest, input.newID);
    if digest.sha256 in s.suppress.members || digest.sha256 == s.lastLocalHash {
      NothingCalled(hash, p, s, input, HandleInlineText(p, s, input.raw.text, digest, built).state.world);
    } else {
      PublishTextCalls(p, s, input.raw.text, digest, built);
      var w := PublishText(p, s, input.raw.text, digest, built).state.world;
      if NewCalls(s.world, w) != [] {
        InlineCarries(hash, p, s.cfg, input, digest);
        FanOutAllowed(hash, p, s, input, NewCalls(s.world, w), TEXT_EVENT_NAME, TextBody(built.wire));
      }
      AreOnly(hash, p, s, input, w);
    }
  }

  lemma AreOnly(hash: HashFn, p: Params, s: State, input: Input, w: World)
    requires Extends(s.world, w) && forall c :: c in NewCalls(s.world, w) ==> AllowedPublish(hash, p, s, input, c)
    ensures PublishesOnly(hash, p, s, input, w)
  {
    hide AllowedPublish;
  }

  lemma ManifestCalls(hash: HashFn, p: Params, s: State, input: Input, digest: Digest)
    requires s.cfg.enabled && input.LocalInput? && InspectText(hash, input.raw, s.cfg.maxInlineBytes).None?
    requires InspectTextContent(hash, input.raw) == Some(digest)
    ensures PublishesOnly(hash, p, s, input,
                          PublishTransferManifest(p, s, digest, input.newID, input.nowMillis).state.world)
  {
    hide PublishTransferManifest, InspectText, InspectTextContent, IsFanOut, AllowedPublish, CarriesText, PublishTopics,
         ManifestOf, PublishesOnly;
    PublishManifestCalls(p, s, digest, input.newID, input.nowMillis);
    var w := PublishTransferManifest(p, s, digest, input.newID, input.nowMillis).state.world;
    if NewCalls(s.world, w) != [] {
      ManifestCarries(hash, p, s.cfg, input, digest);
      var m := ManifestOf(p, s.cfg, digest, input.newID, input.nowMillis).value;
      FanOutAllowed(hash, p, s, input, NewCalls(s.world, w), TRANSFER_EVENT_NAME, ManifestBody(m));
    }
    AreOnly(hash, p, s, input, w);
  }

  /** Local text only ever publishes itself, and only while enabled, to topics with sync-from-local on. */
  lemma LocalCalls(hash: HashFn, p: Params, s: State, raw: RawText, newID: Option<string>, nowMillis: int)
    ensures PublishesOnly(hash, p, s, LocalInput(raw, newID, nowMillis),
                          HandleLocalText(hash, p, s, raw, newID, nowMillis).state.world)
  {
    hide HandleInlineText, PublishTransferManifest, BuildTextEvent, InspectText, InspectTextContent, PublishesOnly;
    var input := LocalInput(raw, newID, nowMillis);
    var inspected := InspectText(hash, raw, s.cfg.maxInlineBytes);
    if s.cfg.enabled && p.hasBus && inspected.Some? {
      InlineCalls(hash, p, s, input, inspected.value);
    } else if s.cfg.enabled && p.hasBus && InspectTextContent(hash, raw).Some? {
      ManifestCalls(hash, p, s, input, InspectTextContent(hash, raw).value);
    } else {
      NothingCalled(hash, p, s, input, HandleLocalText(hash, p, s, raw, newID, nowMillis).state.world);
    }
  }

  lemma {:induction false} AllTakenExactly(env: Environment, w: World, topics: seq<string>, name: string, body: Body,
                                           k: nat)
    ensures PublishAll(env, w, topics, name, body, k).1 == k + |topics| <==>
            forall i :: |w.calls| <= i < |w.calls| + |topics| ==> i !in env.publish
    decreases |topics|
  {
    if topics != [] {
      if |w.calls| in env.publish {
        assert PublishAll(env, w, topics, name, body, k).1 == k;
      } else {
        AllTakenExactly(env, Published(env, w, topics[0], name, body), topics[1..], name, body, k + 1);
      }
    }
  }

  lemma TextOutExactly(p: Params, s: State, text: string, digest: Digest, built: Built)
    ensures PublishText(p, s, text, digest, built).decision.action == LocalPublished <==>
            && PublishTopics(s.cfg.Routes()) != [] && built.Built?
            && (forall i :: |s.world.calls| <= i < |s.world.calls| + |PublishTopics(s.cfg.Routes())| ==>
                 i !in p.env.publish)
  {
    hide PublishAll, PublishTopics, Join, Added;
    var topics := PublishTopics(s.cfg.Routes());
    if built.Built? {
      AllTakenExactly(p.env, s.world, topics, TEXT_EVENT_NAME, TextBody(built.wire), 0);
      PublishAllCalls(p.env, s.world, topics, TEXT_EVENT_NAME, TextBody(built.wire), 0);
    }
  }

  /** Exactly when a manifest goes out for a text: nothing here asks how long its encoding is. */
  lemma ManifestOutExactly(p: Params, s: State, digest: Digest, newID: Option<string>, nowMillis: int)
    ensures PublishTransferManifest(p, s, digest, newID, nowMillis).decision.action == TransferPublished <==>
            && s.cfg.transferProvider != "" && s.cfg.transferRef != "" && p.hasBus
            && PublishTopics(s.cfg.Routes()) != [] && ManifestOf(p, s.cfg, digest, newID, nowMillis).Some?
            && (forall i :: |s.world.calls| <= i < |s.world.calls| + |PublishTopics(s.cfg.Routes())| ==>
                 i !in p.env.publish)
  {
    hide PublishAll, PublishTopics, Join, Added, NewManifest;
    var topics, built := PublishTopics(s.cfg.Routes()), ManifestOf(p, s.cfg, digest, newID, nowMillis);
    if built.Some? {
      AllTakenExactly(p.env, s.world, topics, TRANSFER_EVENT_NAME, ManifestBody(built.value), 0);
      PublishAllCalls(p.env, s.world, topics, TRANSFER_EVENT_NAME, ManifestBody(built.value), 0);
    }
  }

  lemma NotLocalPublished(p: Params, s: State, digest: Digest, newID: Option<string>, nowMillis: int)
    ensures PublishTransferManifest(p, s, digest, newID, nowMillis).decision.action != LocalPublished
    ensures PublishTransferManifest(p, s, digest, newID, nowMillis).decision.action != IgnoredLoop
  {
    hide PublishAll, PublishTopics, Join, Added, NewManifest;
  }

  /**
   Exactly when a local text is published everywhere it may go, and exactly when it is swallowed as
   the echo of a remote apply.
   */
  lemma PublishedExactly(hash: HashFn, p: Params, s: State, raw: RawText, newID: Option<string>, nowMillis: int)
    ensures var inspected := InspectText(hash, raw, s.cfg.maxInlineBytes);
            var o := HandleLocalText(hash, p, s, raw, newID, nowMillis);
            var topics := PublishTopics(s.cfg.Routes());
            && (o.decision.action == IgnoredLoop <==>
                  s.cfg.enabled && p.hasBus && inspected.Some? && inspected.value.sha256 in s.suppress.members)
            && (o.decision.action == LocalPublished <==>
                  && s.cfg.enabled && p.hasBus && inspected.Some?
                  && inspected.value.sha256 !in s.suppress.members && inspected.value.sha256 != s.lastLocalHash
                  && topics != []
                  && BuildTextEvent(hash, p, s.cfg, raw.text, inspected.value, newID).Built?
                  && (forall i :: |s.world.calls| <= i < |s.world.calls| + |topics| ==> i !in p.env.publish))
  {
    hide PublishText, PublishTransferManifest, BuildTextEvent, InspectText, InspectTextContent, PublishTopics, Consumed;
    var inspected := InspectText(hash, raw, s.cfg.maxInlineBytes);
    if inspected.Some? {
      var built := BuildTextEvent(hash, p, s.cfg, raw.text, inspected.value, newID);
      TextOutExactly(p, s, raw.text, inspected.value, built);
      TextOutIsNoLoop(p, s, raw.text, inspected.value, built);
    } else if InspectTextContent(hash, raw).Some? {
      NotLocalPublished(p, s, InspectTextContent(hash, raw).value, newID, nowMillis);
    }
  }

  lemma TextOutIsNoLoop(p: Params, s: State, text: string, digest: Digest, built: Built)
    ensures PublishText(p, s, text, digest, built).decision.action != IgnoredLoop
  {
    hide PublishAll, PublishTopics, Join, Added;
  }

  // ---------------------------------------------------------------- writing

  /** The text of a write: an accepted message's, or a waiting event's that the user released. */
  ghost predicate AllowedWrite(hash: HashFn, p: Params, s: State, input: Input, text: string) {
    || (exists e :: Accepts(hash, p, s, input, e) && s.cfg.autoApply && e.text == text)
    || (input.ApplyInput? && TrimSpace(input.eventID) in s.inbox.entries
        && s.inbox.entries[TrimSpace(input.eventID)].event.text == text)
  }

  /** Every call of every step, by its input. */
  ghost predicate Allowed(hash: HashFn, p: Params, s: State, input: Input, c: Call) {
    || Lifecycle(c)
    || AllowedPublish(hash, p, s, input, c)
    || (c.WriteText? && AllowedWrite(hash, p, s, input, c.text))
  }

  lemma TextInCalls(p: Params, s: State, topic: string, e: TextEvent)
    ensures var t := HandleTextEvent(p, s, topic, e).state;
            && Extends(s.world, t.world)
            && (NewCalls(s.world, t.world) == []
                || (!e.IsLocalOrigin(p.nodeID, p.instanceID) && s.cfg.autoApply
                    && NewCalls(s.world, t.world) == [WriteText(e.text, |s.world.calls| !in p.env.write)]))
  {
    hide Added, TrimSpace;
  }

  lemma MessageCalls(hash: HashFn, p: Params, s: State, topic: string, name: string, payload: Payload)
    ensures var t := HandleTopicBusMessage(hash, p, s, topic, name, payload).state;
            && Extends(s.world, t.world)
            && (NewCalls(s.world, t.world) == []
                || (exists e :: Accepts(hash, p, s, MessageInput(topic, name, payload), e) && s.cfg.autoApply
                      && NewCalls(s.world, t.world) == [WriteText(e.text, |s.world.calls| !in p.env.write)]))
  {
    hide Parse, RouteFor, HandleTextEvent, HandleTransferManifest;
    var parsed, route := Parse(hash, payload, s.cfg.maxInlineBytes), RouteFor(s.cfg.Routes(), topic);
    if s.cfg.enabled && route.Some? && route.value.syncToLocal {
      if name == TRANSFER_EVENT_NAME {
        ManifestInCalls(p, s, topic, payload);
      } else if name == TEXT_EVENT_NAME && parsed.Some? {
        NamesDiffer();
        TextInCalls(p, s, topic, parsed.value);
      }
    }
  }

  lemma ManifestInCalls(p: Params, s: State, topic: string, payload: Payload)
    ensures HandleTransferManifest(p, s, topic, payload).state.world == s.world
  {
    hide ParseManifest, Added, TrimSpace;
  }

  lemma ApplyCalls(p: Params, s: State, eventID: string)
    ensures var t := ApplyPending(p, s, eventID).state;
            && Extends(s.world, t.world)
            && (NewCalls(s.world, t.world) == []
                || (TrimSpace(eventID) in s.inbox.entries
                    && NewCalls(s.world, t.world) ==
                       [WriteText(s.inbox.entries[TrimSpace(eventID)].event.text, |s.world.calls| !in p.env.write)]))
  {
    hide TrimSpace, Added, RemoveFirst;
  }

  lemma StepCalls(hash: HashFn, p: Params, s: State, input: Input)
    ensures var t := Step(hash, p, s, input).state;
            Extends(s.world, t.world) && forall c :: c in NewCalls(s.world, t.world) ==> Allowed(hash, p, s, input, c)
  {
    hide Step, Start, Stop, UpdateConfig, OnConnectivityRestored, HandleLocalText, HandleTopicBusMessage, ApplyPending,
         AllowedPublish, Accepts, TrimSpace;
    match input
    case StartInput =>
      StepIsStart(hash, p, s);
      StartCalls(p, s);
    case StopInput(closed) =>
      StepIsStop(hash, p, s, closed);
      StopCalls(p, s, closed);
    case UpdateInput(c) =>
      StepIsUpdate(hash, p, s, c);
      UpdateCalls(p, s, c);
    case RestoreInput =>
      StepIsRestore(hash, p, s);
      RestoreCalls(p, s);
    case LocalInput(raw, newID, nowMillis) =>
      StepIsLocal(hash, p, s, raw, newID, nowMillis);
      LocalCalls(hash, p, s, raw, newID, nowMillis);
    case MessageInput(topic, name, payload) =>
      StepIsMessage(hash, p, s, topic, name, payload);
      MessageCalls(hash, p, s, topic, name, payload);
    case ApplyInput(eventID) =>
      StepIsApply(hash, p, s, eventID);
      ApplyCalls(p, s, eventID);
    case ConnectionLost => StepIsLost(hash, p, s);
  }

  // ---------------------------------------------------------------- when a remote text is taken

  lemma TextInExactly(p: Params, s: State, topic: string, e: TextEvent)
    requires e.eventID != ""
    ensures var action := HandleTextEvent(p, s, topic, e).decision.action;
            var wanted := !e.IsLocalOrigin(p.nodeID, p.instanceID) && Fresh(s, e);
            && (action == RemotePending <==> wanted && !s.cfg.autoApply)
            && (action == RemoteApplied <==>
                  wanted && s.cfg.autoApply && p.hasClipboard && |s.world.calls| !in p.env.write)
  {
    hide Added, TrimSpace, AddPending;
  }

  /** A message's event, whatever becomes of it: enabled, on a route to local, and it parses. */
  ghost predicate Offers(hash: HashFn, s: State, topic: string, name: string, payload: Payload, e: TextEvent) {
    && s.cfg.enabled && name == TEXT_EVENT_NAME
    && RouteFor(s.cfg.Routes(), topic).Some? && RouteFor(s.cfg.Routes(), topic).value.syncToLocal
    && Parse(hash, payload, s.cfg.maxInlineBytes) == Some(e)
  }

  /** Refused before its event is looked at, a message is neither queued nor applied. */
  lemma RefusedMessage(hash: HashFn, p: Params, s: State, topic: string, name: string, payload: Payload)
    requires forall e :: !Offers(hash, s, topic, name, payload, e)
    ensures var action := HandleTopicBusMessage(hash, p, s, topic, name, payload).decision.action;
            action != RemotePending && action != RemoteApplied
  {
    hide Parse, RouteFor, HandleTextEvent, HandleTransferManifest, Record, Offers;
    var parsed, route := Parse(hash, payload, s.cfg.maxInlineBytes), RouteFor(s.cfg.Routes(), topic);
    if s.cfg.enabled && route.Some? && route.value.syncToLocal {
      if name == TRANSFER_EVENT_NAME {
        ManifestInIsNoText(p, s, topic, payload);
      } else if name == TEXT_EVENT_NAME && parsed.Some? {
        OffersIs(hash, s, topic, payload, parsed.value);
      }
    }
  }

  lemma OffersIs(hash: HashFn, s: State, topic: string, payload: Payload, e: TextEvent)
    requires s.cfg.enabled && Parse(hash, payload, s.cfg.maxInlineBytes) == Some(e)
    requires RouteFor(s.cfg.Routes(), topic).Some? && RouteFor(s.cfg.Routes(), topic).value.syncToLocal
    ensures Offers(hash, s, topic, TEXT_EVENT_NAME, payload, e)
  {
    hide Parse, RouteFor;
  }

  lemma ManifestInIsNoText(p: Params, s: State, topic: string, payload: Payload)
    ensures var action := HandleTransferManifest(p, s, topic, payload).decision.action;
            action != RemotePending && action != RemoteApplied
  {
    hide ParseManifest, Added, TrimSpace;
  }

  lemma TextDispatch(hash: HashFn, p: Params, s: State, topic: string, payload: Payload, e: TextEvent)
    requires s.cfg.enabled && Parse(hash, payload, s.cfg.maxInlineBytes) == Some(e)
    requires RouteFor(s.cfg.Routes(), topic).Some? && RouteFor(s.cfg.Routes(), topic).value.syncToLocal
    ensures HandleTopicBusMessage(hash, p, s, topic, TEXT_EVENT_NAME, payload) == HandleTextEvent(p, s, topic, e)
  {
    hide Parse, RouteFor, HandleTextEvent, HandleTransferManifest;
    NamesDiffer();
  }

  /**
   Exactly when a message is queued and exactly when it is applied on arrival: its event is accepted,
   is neither remembered nor waiting, and sync waits for the user, or does not and the write succeeds.
   */
  lemma TakenExactly(hash: HashFn, p: Params, s: State, topic: string, name: string, payload: Payload)
    ensures var action := HandleTopicBusMessage(hash, p, s, topic, name, payload).decision.action;
            && (action == RemotePending <==>
                  (exists e :: Accepts(hash, p, s, MessageInput(topic, name, payload), e) && Fresh(s, e) &&
                      !s.cfg.autoApply))
            && (action == RemoteApplied <==>
                  (exists e :: Accepts(hash, p, s, MessageInput(topic, name, payload), e) && Fresh(s, e) &&
                      s.cfg.autoApply
                     && p.hasClipboard && |s.world.calls| !in p.env.write))
  {
    hide Parse, RouteFor, HandleTextEvent, HandleTopicBusMessage, Fresh, TrimSpace;
    var parsed := Parse(hash, payload, s.cfg.maxInlineBytes);
    if parsed.Some? && Offers(hash, s, topic, name, payload, parsed.value) {
      var e := parsed.value;
      ParsedHasID(hash, payload, s.cfg.maxInlineBytes);
      TextDispatch(hash, p, s, topic, payload, e);
      TextInExactly(p, s, topic, e);
      assert Accepts(hash, p, s, MessageInput(topic, name, payload), e) <==> !e.IsLocalOrigin(p.nodeID, p.instanceID);
    } else {
      RefusedMessage(hash, p, s, topic, name, payload);
    }
  }

  // ---------------------------------------------------------------- every write was accepted

  /** Some input of the run was a message accepted with this event, in the state it met. */
  ghost predicate WasAccepted(hash: HashFn, p: Params, s0: State, inputs: seq<Input>, e: TextEvent) {
    exists j :: 0 <= j < |inputs| && Accepts(hash, p, Run(hash, p, s0, inputs[..j]), inputs[j], e)
  }

  lemma AcceptedLater(hash: HashFn, p: Params, s0: State, inputs: seq<Input>, e: TextEvent)
    requires inputs != [] && WasAccepted(hash, p, s0, inputs[..|inputs| - 1], e)
    ensures WasAccepted(hash, p, s0, inputs, e)
  {
    hide Run, Accepts;
    var before := inputs[..|inputs| - 1];
    var j :| 0 <= j < |before| && Accepts(hash, p, Run(hash, p, s0, before[..j]), before[j], e);
    assert before[..j] == inputs[..j] && before[j] == inputs[j];
  }

  lemma AcceptedNow(hash: HashFn, p: Params, s0: State, inputs: seq<Input>, e: TextEvent)
    requires inputs != []
    requires Accepts(hash, p, Run(hash, p, s0, inputs[..|inputs| - 1]), inputs[|inputs| - 1], e)
    ensures WasAccepted(hash, p, s0, inputs, e)
  {
    hide Run, Accepts;
  }

  ghost predicate Traced(hash: HashFn, p: Params, s0: State, inputs: seq<Input>, s: State) {
    && (forall id :: id in s.inbox.entries ==> WasAccepted(hash, p, s0, inputs, s.inbox.entries[id].event))
    && (forall c :: c in NewCalls'(s0.world, s.world) && c.WriteText? ==>
          exists e :: WasAccepted(hash, p, s0, inputs, e) && e.text == c.text)
  }

  /** The new calls, or none if the log was not extended. */
  ghost function NewCalls'(w: World, v: World): seq<Call> {
    if Extends(w, v) then NewCalls(w, v) else []
  }

  lemma EffectInbox(f: Effect, s: State, t: State, id: string)
    requires Inv(s) && Explains(f, s, t) && id in t.inbox.entries
    ensures (id in s.inbox.entries && t.inbox.entries[id] == s.inbox.entries[id])
            || (f.Queue? && t.inbox.entries[id] == f.entry)
  {
    hide Conserved;
    match f
    case Queue(entry) => hide AddPending; AddPendingEffect(s, entry);
    case Release(r) => hide Added; DeletePendingOk(s, r);
    case _ =>
  }

  /**
   Every write to the clipboard in every run is the text of an event that arrived in that run while
   sync was enabled, on a route that syncs to local, and not from this node; so is every waiting text.
   */
  lemma {:induction false} WritesWereAccepted(hash: HashFn, p: Params, s0: State, inputs: seq<Input>)
    requires Inv(s0) && s0.inbox.entries == map[]
    ensures Extends(s0.world, Run(hash, p, s0, inputs).world)
    ensures Traced(hash, p, s0, inputs, Run(hash, p, s0, inputs))
  {
    hide Step, Inv, WasAccepted, Accepts, Explains;
    if inputs != [] {
      var before, input := inputs[..|inputs| - 1], inputs[|inputs| - 1];
      var s, t := Run(hash, p, s0, before), Run(hash, p, s0, inputs);
      WritesWereAccepted(hash, p, s0, before);
      RunInv(hash, p, s0, before);
      StepCalls(hash, p, s, input);
      Chain(s0.world, s.world, t.world);
      var f := StepEffect(hash, p, s, input);
      forall id | id in t.inbox.entries ensures WasAccepted(hash, p, s0, inputs, t.inbox.entries[id].event) {
        EffectInbox(f, s, t, id);
        if id in s.inbox.entries && t.inbox.entries[id] == s.inbox.entries[id] {
          AcceptedLater(hash, p, s0, inputs, t.inbox.entries[id].event);
        } else {
          AcceptedNow(hash, p, s0, inputs, f.entry.event);
        }
      }
      forall c | c in NewCalls(s0.world, t.world) && c.WriteText?
        ensures exists e :: WasAccepted(hash, p, s0, inputs, e) && e.text == c.text
      {
        if c in NewCalls(s0.world, s.world) {
          var e :| WasAccepted(hash, p, s0, before, e) && e.text == c.text;
          AcceptedLater(hash, p, s0, inputs, e);
        } else {
          NewWriteAccepted(hash, p, s0, inputs, s, input, c);
        }
      }
    }
  }

  lemma NewWriteAccepted(hash: HashFn, p: Params, s0: State, inputs: seq<Input>, s: State, input: Input, c: Call)
    requires inputs != [] && s == Run(hash, p, s0, inputs[..|inputs| - 1]) && input == inputs[|inputs| - 1]
    requires c.WriteText? && Allowed(hash, p, s, input, c)
    requires forall id :: id in s.inbox.entries ==> WasAccepted(hash, p, s0, inputs[..|inputs| - 1],
               s.inbox.entries[id].event)
    ensures exists e :: WasAccepted(hash, p, s0, inputs, e) && e.text == c.text
  {
    hide Run, Accepts, WasAccepted, TrimSpace, AllowedPublish;
    if e :| Accepts(hash, p, s, input, e) && s.cfg.autoApply && e.text == c.text {
      AcceptedNow(hash, p, s0, inputs, e);
    } else {
      assert !AllowedPublish(hash, p, s, input, c) by { WriteIsNotPublish(hash, p, s, input, c); }
      AcceptedLater(hash, p, s0, inputs, s.inbox.entries[TrimSpace(input.eventID)].event);
    }
  }

  lemma WriteIsNotPublish(hash: HashFn, p: Params, s: State, input: Input, c: Call)
    requires c.WriteText?
    ensures !AllowedPublish(hash, p, s, input, c)
  {
  }

  /**
   Call number n of the run was made by input k: a local text, met while enabled, with this topic open to
   local text in the very state it met, and the call carries that text.
   */
  ghost predicate CausedBy(hash: HashFn, p: Params, s0: State, inputs: seq<Input>, n: nat, k: nat) {
    && k < |inputs|
    && |Run(hash, p, s0, inputs[..k]).world.calls| <= n < |Run(hash, p, s0, inputs[..k + 1]).world.calls|
    && AllowedPublish(hash, p, Run(hash, p, s0, inputs[..k]), inputs[k],
                      Run(hash, p, s0, inputs[..k + 1]).world.calls[n])
  }

  lemma CausedEarlier(hash: HashFn, p: Params, s0: State, inputs: seq<Input>, n: nat, k: nat)
    requires inputs != [] && CausedBy(hash, p, s0, inputs[..|inputs| - 1], n, k)
    ensures CausedBy(hash, p, s0, inputs, n, k)
  {
    hide Run, AllowedPublish;
    var before := inputs[..|inputs| - 1];
    assert before[..k] == inputs[..k] && before[..k + 1] == inputs[..k + 1] && before[k] == inputs[k];
  }

  lemma CausedNow(hash: HashFn, p: Params, s0: State, inputs: seq<Input>, n: nat)
    requires inputs != []
    requires var s, t := Run(hash, p, s0, inputs[..|inputs| - 1]), Run(hash, p, s0, inputs);
             |s.world.calls| <= n < |t.world.calls|
             && AllowedPublish(hash, p, s, inputs[|inputs| - 1], t.world.calls[n])
    ensures CausedBy(hash, p, s0, inputs, n, |inputs| - 1)
  {
    hide Run, AllowedPublish;
    assert inputs[..|inputs| - 1 + 1] == inputs;
  }

  lemma NewPublish(hash: HashFn, p: Params, s: State, input: Input, c: Call)
    requires Allowed(hash, p, s, input, c) && c.Publish?
    ensures AllowedPublish(hash, p, s, input, c)
  {
    hide AllowedPublish, AllowedWrite;
  }

  /**
   Every publish of every run, by the number of its call: it was made by an input that was local text,
   carries that very text, and goes to a topic open to local text in the state the input met.
   */
  lemma {:induction false} PublishesWereLocal(hash: HashFn, p: Params, s0: State, inputs: seq<Input>)
    ensures Extends(s0.world, Run(hash, p, s0, inputs).world)
    ensures var calls := Run(hash, p, s0, inputs).world.calls;
            forall n: nat :: |s0.world.calls| <= n < |calls| && calls[n].Publish? ==>
              exists k: nat :: CausedBy(hash, p, s0, inputs, n, k)
  {
    hide Step, CausedBy, Allowed, AllowedPublish;
    if inputs != [] {
      var before, input := inputs[..|inputs| - 1], inputs[|inputs| - 1];
      var s, t := Run(hash, p, s0, before), Run(hash, p, s0, inputs);
      PublishesWereLocal(hash, p, s0, before);
      StepCalls(hash, p, s, input);
      Chain(s0.world, s.world, t.world);
      forall n: nat | |s0.world.calls| <= n < |t.world.calls| && t.world.calls[n].Publish?
        ensures exists k: nat :: CausedBy(hash, p, s0, inputs, n, k)
      {
        if n < |s.world.calls| {
          assert s.world.calls[n] == t.world.calls[n];
          var k: nat :| CausedBy(hash, p, s0, before, n, k);
          CausedEarlier(hash, p, s0, inputs, n, k);
        } else {
          assert t.world.calls[n] == NewCalls(s.world, t.world)[n - |s.world.calls|];
          NewPublish(hash, p, s, input, t.world.calls[n]);
          CausedNow(hash, p, s0, inputs, n);
        }
      }
    }
  }

  // ---------------------------------------------------------------- what a disable stops

  /** Turning sync off clears the waiting texts exactly when the runtime is started (or none are waiting). */
  lemma DisableClearsExactly(p: Params, s: State, c: Config)
    requires s.cfg.enabled && Normalized(c).Some? && !Normalized(c).value.enabled
    ensures var t := UpdateConfig(p, s, c).state;
            && t.cfg == Normalized(c).value
            && (t.inbox.entries == map[] <==> s.session.started || s.inbox.entries == map[])
  {
    hide Normalized, UnsubscribeAll, SubscriptionTopics;
  }

  lemma StoppedUpdate(p: Params, s: State, c: Config)
    requires !s.session.started && Normalized(c).Some?
    ensures UpdateConfig(p, s, c).state == s.(cfg := Normalized(c).value)
  {
    hide Normalized, Disable, Change;
  }

  lemma ReleaseWrites(p: Params, s: State, id: string)
    requires BoxOk(s.inbox) && id in s.inbox.entries && Trimmed(id)
    requires p.hasClipboard && |s.world.calls| !in p.env.write
    ensures ApplyPending(p, s, id).state.world.calls ==
            s.world.calls + [WriteText(s.inbox.entries[id].event.text, true)]
    ensures ApplyPending(p, s, id).state.cfg == s.cfg
  {
    hide Added, RemoveFirst;
  }

  /** The loophole: switched off while stopped, a waiting text can still reach the clipboard. */
  lemma StoppedDisableStillWrites(p: Params, s: State, c: Config, id: string)
    requires Inv(s) && !s.session.started
    requires Normalized(c).Some? && !Normalized(c).value.enabled
    requires id in s.inbox.entries && Trimmed(id)
    requires p.hasClipboard && |s.world.calls| !in p.env.write
    ensures var off := UpdateConfig(p, s, c).state;
            var t := ApplyPending(p, off, id).state;
            !t.cfg.enabled && t.world.calls == s.world.calls + [WriteText(s.inbox.entries[id].event.text, true)]
  {
    hide Normalized, UpdateConfig, ApplyPending, Conserved, BoxOk;
    StoppedUpdate(p, s, c);
    ReleaseWrites(p, s.(cfg := Normalized(c).value), id);
  }

  /** Off, with nothing waiting. */
  ghost predicate Off(s: State) {
    !s.cfg.enabled && s.inbox.entries == map[]
  }

  predicate Enables(input: Input) {
    input.UpdateInput? && Normalized(input.cfg).Some? && Normalized(input.cfg).value.enabled
  }

  lemma UpdateStaysOff(p: Params, s: State, c: Config)
    requires Off(s) && !Enables(UpdateInput(c))
    ensures Off(UpdateConfig(p, s, c).state)
  {
    hide Normalized, SubscribeAll, UnsubscribeAll, TopicsToSubscribe, TopicsToUnsubscribe;
  }

  lemma StepStaysOff(hash: HashFn, p: Params, s: State, input: Input)
    requires Inv(s) && Off(s) && !Enables(input)
    ensures Off(Step(hash, p, s, input).state)
    ensures OnlyLifecycle(s.world, Step(hash, p, s, input).state.world)
  {
    hide Step, UpdateConfig, Enables, Explains, Inv, Accepts, Allowed;
    var t := Step(hash, p, s, input).state;
    if input.UpdateInput? {
      StepIsUpdate(hash, p, s, input.cfg);
      UpdateStaysOff(p, s, input.cfg);
    } else {
      ConfigUntouched(hash, p, s, input);
      var f := StepEffect(hash, p, s, input);
      OffEffect(hash, p, f, s, t, input);
    }
    StepCalls(hash, p, s, input);
    OffCalls(hash, p, s, t, input);
  }

  /** Only an update changes the configuration. */
  lemma ConfigUntouched(hash: HashFn, p: Params, s: State, input: Input)
    requires !input.UpdateInput?
    ensures Step(hash, p, s, input).state.cfg == s.cfg
  {
    hide Step, HandleLocalText, HandleTopicBusMessage, ApplyPending, Start, Stop, OnConnectivityRestored;
    match input
    case StartInput => StepIsStart(hash, p, s);
    case StopInput(closed) => StepIsStop(hash, p, s, closed);
    case RestoreInput => StepIsRestore(hash, p, s);
    case LocalInput(raw, newID, nowMillis) => StepIsLocal(hash, p, s, raw, newID, nowMillis);
    case MessageInput(topic, name, payload) => StepIsMessage(hash, p, s, topic, name, payload);
    case ApplyInput(eventID) => StepIsApply(hash, p, s, eventID);
    case ConnectionLost => StepIsLost(hash, p, s);
  }

  lemma OffEffect(hash: HashFn, p: Params, f: Effect, s: State, t: State, input: Input)
    requires Inv(s) && Off(s) && Explains(f, s, t)
    requires f.Queue? ==> Accepts(hash, p, s, input, f.entry.event)
    ensures t.inbox.entries == map[]
  {
    hide Added, Conserved, BoxOk, AddPending;
  }

  lemma OffCalls(hash: HashFn, p: Params, s: State, t: State, input: Input)
    requires Off(s) && Extends(s.world, t.world)
    requires forall c :: c in NewCalls(s.world, t.world) ==> Allowed(hash, p, s, input, c)
    ensures OnlyLifecycle(s.world, t.world)
  {
    hide TrimSpace, Parse, RouteFor;
  }

  /**
   Once off with nothing waiting, and until an input enables it again, the runtime publishes nothing
   and writes nothing, whatever arrives.
   */
  lemma {:induction false} DisabledIsSilent(hash: HashFn, p: Params, s0: State, inputs: seq<Input>)
    requires Inv(s0) && Off(s0) && forall k :: 0 <= k < |inputs| ==> !Enables(inputs[k])
    ensures Off(Run(hash, p, s0, inputs)) && OnlyLifecycle(s0.world, Run(hash, p, s0, inputs).world)
  {
    hide Step, Inv, Enables, Off;
    if inputs != [] {
      var before := inputs[..|inputs| - 1];
      DisabledIsSilent(hash, p, s0, before);
      RunInv(hash, p, s0, before);
      var s := Run(hash, p, s0, before);
      StepStaysOff(hash, p, s, inputs[|inputs| - 1]);
      LifecycleChain(s0.world, s.world, Run(hash, p, s0, inputs).world);
    }
  }

  ghost predicate EmptyWhenOff(s: State) {
    !s.cfg.enabled ==> s.inbox.entries == map[]
  }

  lemma UpdateEmptyWhenOff(p: Params, s: State, c: Config)
    requires EmptyWhenOff(s) && s.session.started
    ensures EmptyWhenOff(UpdateConfig(p, s, c).state)
  {
    hide Normalized, SubscribeAll, UnsubscribeAll, TopicsToSubscribe, TopicsToUnsubscribe, SubscriptionTopics;
  }

  /** As long as the configuration is changed only while started, nothing waits while sync is off. */
  lemma {:induction false} NothingWaitsWhileOff(hash: HashFn, p: Params, s0: State, inputs: seq<Input>)
    requires Inv(s0) && EmptyWhenOff(s0)
    requires forall k :: 0 <= k < |inputs| && inputs[k].UpdateInput? ==> Run(hash, p, s0, inputs[..k]).session.started
    ensures EmptyWhenOff(Run(hash, p, s0, inputs))
  {
    hide Step, Inv;
    if inputs != [] {
      var before, input := inputs[..|inputs| - 1], inputs[|inputs| - 1];
      forall k | 0 <= k < |before| && before[k].UpdateInput? ensures Run(hash, p, s0, before[..k]).session.started {
        assert before[..k] == inputs[..k];
      }
      NothingWaitsWhileOff(hash, p, s0, before);
      RunInv(hash, p, s0, before);
      var s := Run(hash, p, s0, before);
      StepEmptyWhenOff(hash, p, s, input);
    }
  }

  lemma StepEmptyWhenOff(hash: HashFn, p: Params, s: State, input: Input)
    requires Inv(s) && EmptyWhenOff(s) && (input.UpdateInput? ==> s.session.started)
    ensures EmptyWhenOff(Step(hash, p, s, input).state)
  {
    hide Step, Inv, UpdateConfig, Normalized;
    if input.UpdateInput? {
      StepIsUpdate(hash, p, s, input.cfg);
      UpdateEmptyWhenOff(p, s, input.cfg);
    } else {
      ConfigUntouched(hash, p, s, input);
      if !s.cfg.enabled {
        StepStaysOff(hash, p, s, input);
      }
    }
  }
}
