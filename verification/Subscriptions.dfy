/** What the hub holds for this node, against what the configuration asks for. */
module Subscriptions {
  import opened Options
  import opened Text
  import opened Config
  import opened World
  import opened Topics
  import opened Sync
  import opened Policy
  import opened Event

  // ---------------------------------------------------------------- the loops, as sets

  lemma {:induction false} SubscribeAllTopics(env: Environment, w: World, topics: seq<string>, done: seq<string>)
    ensures var (v, d, ok) := SubscribeAll(env, w, topics, done);
            && |done| <= |d| <= |done| + |topics|
            && d == done + topics[..|d| - |done|]
            && (ok ==> d == done + topics)
            && v.topics == w.topics + TopicSet(topics[..|d| - |done|])
            && v.watchers == w.watchers
    decreases |topics|
  {
    if topics == [] {
      assert TopicSet([]) == {};
    } else if |w.calls| !in env.subscribe {
      var next := Subscribed(env, w, topics[0]);
      SubscribeAllTopics(env, next, topics[1..], done + [topics[0]]);
      var (v, d, ok) := SubscribeAll(env, next, topics[1..], done + [topics[0]]);
      var n := |d| - |done|;
      assert topics[..n] == [topics[0]] + topics[1..][..n - 1];
      assert TopicSet(topics[..n]) == {topics[0]} + TopicSet(topics[1..][..n - 1]);
      assert [topics[0]] + topics[1..] == topics;
    } else {
      assert TopicSet(topics[..0]) == {};
    }
  }

  /** How many of the next Subscribe calls are taken before the first refusal, the first call being number n. */
  function TakenCount(env: Environment, n: nat, count: nat): (k: nat)
    ensures k <= count
    ensures forall i: nat :: n <= i < n + k ==> i !in env.subscribe
    ensures k < count ==> n + k in env.subscribe
    decreases count
  {
    if count == 0 || n in env.subscribe then 0 else 1 + TakenCount(env, n + 1, count - 1)
  }

  lemma {:induction false} SubscribeAllLength(env: Environment, w: World, topics: seq<string>, done: seq<string>)
    ensures var (v, d, ok) := SubscribeAll(env, w, topics, done);
            var k := TakenCount(env, |w.calls|, |topics|);
            && |d| == |done| + k && (ok <==> k == |topics|)
            && |v.calls| == |w.calls| + k + if ok then 0 else 1
    decreases |topics|
  {
    if topics != [] && |w.calls| !in env.subscribe {
      SubscribeAllLength(env, Subscribed(env, w, topics[0]), topics[1..], done + [topics[0]]);
    }
  }

  /** A subscription loop from nothing done, by the numbers of the calls that fail. */
  lemma SubscribeAllCount(env: Environment, w: World, topics: seq<string>)
    ensures var (v, d, ok) := SubscribeAll(env, w, topics, []);
            var k := TakenCount(env, |w.calls|, |topics|);
            && d == topics[..k]
            && v.topics == w.topics + TopicSet(topics[..k]) && v.watchers == w.watchers
            && (ok <==> k == |topics|)
            && |v.calls| == |w.calls| + k + if ok then 0 else 1
  {
    hide SubscribeAll, TopicSet, TakenCount;
    SubscribeAllTopics(env, w, topics, []);
    SubscribeAllLength(env, w, topics, []);
    var k := TakenCount(env, |w.calls|, |topics|);
    assert [] + topics[..k] == topics[..k];
  }

  /** The topics whose Unsubscribe succeeds, the first call being number n. */
  function Dropped(env: Environment, n: nat, topics: seq<string>): set<string> {
    set k: nat | n <= k < n + |topics| && k !in env.unsubscribe :: topics[k - n]
  }

  predicate AllTaken(env: Environment, n: nat, count: nat) {
    forall k: nat :: n <= k < n + count ==> k !in env.unsubscribe
  }

  predicate NoneTaken(env: Environment, n: nat, count: nat) {
    forall k: nat :: n <= k < n + count ==> k in env.unsubscribe
  }

  lemma DroppedStep(env: Environment, n: nat, topics: seq<string>)
    requires topics != []
    ensures Dropped(env, n, topics) ==
            Dropped(env, n + 1, topics[1..]) + if n !in env.unsubscribe then {topics[0]} else {}
  {
    forall t ensures t in Dropped(env, n, topics) <==>
                     t in Dropped(env, n + 1, topics[1..]) || (n !in env.unsubscribe && t == topics[0]) {
      if t in Dropped(env, n, topics) {
        var k: nat :| n <= k < n + |topics| && k !in env.unsubscribe && topics[k - n] == t;
        if k > n { assert topics[1..][k - (n + 1)] == t; }
      }
      if t in Dropped(env, n + 1, topics[1..]) {
        var k: nat :| n + 1 <= k < n + 1 + |topics[1..]| && k !in env.unsubscribe && topics[1..][k - (n + 1)] == t;
        assert topics[k - n] == t;
      }
      if n !in env.unsubscribe && t == topics[0] { assert topics[n - n] == t; }
    }
  }

  lemma {:induction false} UnsubscribeAllTopics(env: Environment, w: World, topics: seq<string>, ok: bool)
    ensures var (v, all) := UnsubscribeAll(env, w, topics, ok);
            && v.topics == w.topics - Dropped(env, |w.calls|, topics)
            && v.watchers == w.watchers
            && |v.calls| == |w.calls| + |topics|
            && (all <==> ok && AllTaken(env, |w.calls|, |topics|))
    decreases |topics|
  {
    if topics != [] {
      var n := |w.calls|;
      DroppedStep(env, n, topics);
      UnsubscribeAllTopics(env, Unsubscribed(env, w, topics[0]), topics[1..], ok && n !in env.unsubscribe);
    }
  }

  predicate Reliable(env: Environment) {
    env.unsubscribe == {}
  }

  lemma ReliableDrop(env: Environment, w: World, topics: seq<string>)
    requires Reliable(env)
    ensures UnsubscribeAll(env, w, topics, true).0.topics == w.topics - TopicSet(topics)
    ensures UnsubscribeAll(env, w, topics, true).1
    ensures UnsubscribeAll(env, w, topics, true).0.watchers == w.watchers
  {
    UnsubscribeAllTopics(env, w, topics, true);
    forall t ensures t in Dropped(env, |w.calls|, topics) <==> t in TopicSet(topics) {
      if t in topics {
        var i :| 0 <= i < |topics| && topics[i] == t;
        assert topics[|w.calls| + i - |w.calls|] == t && |w.calls| + i !in env.unsubscribe;
      }
    }
  }

  // ---------------------------------------------------------------- what should be subscribed

  function ConfigTopics(c: Config): set<string> {
    TopicSet(SubscriptionTopics(c.Routes()))
  }

  predicate Active(s: State) {
    s.session.started && s.cfg.enabled
  }

  function Wanted(s: State): set<string> {
    if Active(s) then ConfigTopics(s.cfg) else {}
  }

  /** The session fields and the running watchers follow the configuration. */
  ghost predicate SessionOk(p: Params, s: State) {
    && (Active(s) ==> p.hasBus)
    && (s.session.subscribed <==> Active(s))
    && (s.session.watching <==> Active(s) && s.cfg.autoWatch)
    && (s.session.watching <==> s.session.watcher.Some?)
    && s.world.watchers == if s.session.watcher.Some? then {s.session.watcher.value} else {}
  }

  /** Never more than wanted, whatever was lost. */
  ghost predicate Bounded(p: Params, s: State) {
    SessionOk(p, s) && s.world.topics <= Wanted(s)
  }

  ghost predicate Exact(p: Params, s: State) {
    SessionOk(p, s) && s.world.topics == Wanted(s)
  }

  lemma StartKeeps(p: Params, s: State)
    requires Reliable(p.env) && Bounded(p, s)
    ensures Bounded(p, Start(p, s).state)
    ensures Exact(p, s) ==> Exact(p, Start(p, s).state)
  {
    hide SubscribeAll, UnsubscribeAll, SubscriptionTopics, Reliable;
    var topics := SubscriptionTopics(s.cfg.Routes());
    var (world, done, ok) := SubscribeAll(p.env, s.world, topics, []);
    SubscribeAllTopics(p.env, s.world, topics, []);
    assert [] + topics == topics && topics[..|topics|] == topics && [] + topics[..|done|] == topics[..|done|];
    ReliableDrop(p.env, world, done);
    ReliableDrop(p.env, Watching(p.env, world), done);
  }

  lemma StopKeeps(p: Params, s: State, closed: bool)
    requires Reliable(p.env) && Bounded(p, s)
    ensures Exact(p, Stop(p, s, closed).state)
  {
    hide UnsubscribeAll, SubscriptionTopics, Reliable;
    var world := if s.session.started then s.world.(watchers := {}) else s.world;
    ReliableDrop(p.env, world, SubscriptionTopics(s.cfg.Routes()));
  }

  lemma DisableKeeps(p: Params, s: State, next: Config)
    requires Reliable(p.env) && Bounded(p, s) && Active(s) && !next.enabled
    ensures Exact(p, Disable(p, s, next).state)
  {
    hide UnsubscribeAll, SubscriptionTopics, Reliable;
    ReliableDrop(p.env, Cancelled(s.world, s.session.watcher), SubscriptionTopics(s.cfg.Routes()));
  }

  /** What a change adds and drops, as sets. */
  lemma ChangeSets(previous: Config, next: Config)
    requires !(previous.enabled && !next.enabled)
    ensures TopicSet(TopicsToSubscribe(previous, next)) ==
            if !next.enabled then {} else if previous.enabled then ConfigTopics(next) - ConfigTopics(previous)
                else ConfigTopics(next)
    ensures TopicSet(TopicsToUnsubscribe(previous, next)) ==
            if previous.enabled then ConfigTopics(previous) - ConfigTopics(next) else {}
  {
    if previous.enabled {
      TopicDifferences(previous, next);
    } else {
      assert TopicSet([]) == {};
    }
  }

  lemma FinishKeeps(p: Params, s: State, next: Config, world: World, watcher: Option<nat>)
    requires Reliable(p.env) && SessionOk(p, s) && s.session.started && !(s.cfg.enabled && !next.enabled)
    requires next.enabled ==> p.hasBus
    requires world.topics <= Wanted(s) + TopicSet(TopicsToSubscribe(s.cfg, next))
    requires watcher.Some? <==> StartsWatcher(s, next)
    requires world.watchers == if watcher.Some? then {watcher.value} else if StopsWatcher(s, next) then {}
               else s.world.watchers
    ensures Bounded(p, FinishChange(p, s, next, world, watcher).state)
    ensures world.topics == Wanted(s) + TopicSet(TopicsToSubscribe(s.cfg, next)) ==>
            Exact(p, FinishChange(p, s, next, world, watcher).state)
  {
    hide UnsubscribeAll, TopicsToSubscribe, TopicsToUnsubscribe, SubscriptionTopics, Reliable;
    ChangeSets(s.cfg, next);
    ReliableDrop(p.env, world, TopicsToUnsubscribe(s.cfg, next));
  }

  lemma ChangeKeeps(p: Params, s: State, next: Config)
    requires Reliable(p.env) && Bounded(p, s) && s.session.started && !(s.cfg.enabled && !next.enabled)
    requires next.enabled ==> p.hasBus
    ensures Bounded(p, Change(p, s, next).state)
    ensures Exact(p, s) ==> Exact(p, Change(p, s, next).state)
  {
    hide SubscribeAll, UnsubscribeAll, TopicsToSubscribe, TopicsToUnsubscribe, SubscriptionTopics, FinishChange,
        Reliable;
    var adding := TopicsToSubscribe(s.cfg, next);
    var (world, done, ok) := SubscribeAll(p.env, s.world, adding, []);
    SubscribeAllTopics(p.env, s.world, adding, []);
    assert [] + adding == adding && adding[..|adding|] == adding && [] + adding[..|done|] == adding[..|done|];
    ChangeSets(s.cfg, next);
    assert TopicSet(adding) !! Wanted(s);
    assert TopicSet(done) <= TopicSet(adding);
    if !ok {
      ReliableDrop(p.env, world, done);
    } else {
      var quiet := if StopsWatcher(s, next) then Cancelled(world, s.session.watcher) else world;
      if !StartsWatcher(s, next) {
        FinishKeeps(p, s, next, quiet, None);
      } else {
        var watched := Watching(p.env, quiet);
        ReliableDrop(p.env, watched, adding);
        if |quiet.calls| !in p.env.watch {
          FinishKeeps(p, s, next, watched, Some(|quiet.calls|));
        }
      }
    }
  }

  lemma UpdateKeeps(p: Params, s: State, c: Config)
    requires Reliable(p.env) && Bounded(p, s)
    ensures Bounded(p, UpdateConfig(p, s, c).state)
    ensures Exact(p, s) ==> Exact(p, UpdateConfig(p, s, c).state)
  {
    hide Normalized, Disable, Change, SubscriptionTopics, Reliable;
    if Normalized(c).Some? {
      var next := Normalized(c).value;
      if s.session.started {
        if s.cfg.enabled && !next.enabled {
          DisableKeeps(p, s, next);
        } else if next.enabled ==> p.hasBus {
          ChangeKeeps(p, s, next);
        }
      }
    }
  }

  lemma RestoreKeeps(p: Params, s: State)
    requires Reliable(p.env) && Bounded(p, s)
    ensures Bounded(p, OnConnectivityRestored(p, s).state)
    ensures Active(s) && OnConnectivityRestored(p, s).ok ==> Exact(p, OnConnectivityRestored(p, s).state)
    ensures Exact(p, s) && OnConnectivityRestored(p, s).ok ==> Exact(p, OnConnectivityRestored(p, s).state)
  {
    hide SubscribeAll, UnsubscribeAll, SubscriptionTopics, Reliable;
    var topics := SubscriptionTopics(s.cfg.Routes());
    var (world, done, ok) := SubscribeAll(p.env, s.world, topics, []);
    SubscribeAllTopics(p.env, s.world, topics, []);
    assert [] + topics == topics && topics[..|topics|] == topics && [] + topics[..|done|] == topics[..|done|];
    ReliableDrop(p.env, world, done);
  }

  /** Local text, messages and user applies leave the lifecycle alone. */
  lemma HandlersKeep(hash: HashFn, p: Params, s: State, input: Input)
    requires input.LocalInput? || input.MessageInput? || input.ApplyInput?
    ensures var t := Step(hash, p, s, input).state;
            t.session == s.session && t.world.topics == s.world.topics && t.world.watchers == s.world.watchers &&
                t.cfg == s.cfg
  {
    hide Step, HandleLocalText, HandleTopicBusMessage, ApplyPending;
    match input
    case LocalInput(raw, newID, nowMillis) =>
      StepIsLocal(hash, p, s, raw, newID, nowMillis);
      LocalKeeps(hash, p, s, raw, newID, nowMillis);
    case MessageInput(topic, name, payload) =>
      StepIsMessage(hash, p, s, topic, name, payload);
      MessageKeeps(hash, p, s, topic, name, payload);
    case ApplyInput(eventID) =>
      StepIsApply(hash, p, s, eventID);
      ApplyKeeps(p, s, eventID);
  }

  ghost predicate SameLifecycle(s: State, t: State) {
    t.session == s.session && t.world.topics == s.world.topics && t.world.watchers == s.world.watchers
  }

  lemma PublishKeeps(p: Params, s: State, text: string, digest: Digest, built: Built)
    ensures SameLifecycle(s, PublishText(p, s, text, digest, built).state)
  {
    hide PublishAll, PublishTopics, Join;
    if built.Built? {
      PublishAllCalls(p.env, s.world, PublishTopics(s.cfg.Routes()), TEXT_EVENT_NAME, TextBody(built.wire), 0);
    }
  }

  lemma ManifestKeeps(p: Params, s: State, digest: Digest, newID: Option<string>, nowMillis: int)
    ensures SameLifecycle(s, PublishTransferManifest(p, s, digest, newID, nowMillis).state)
  {
    hide PublishAll, PublishTopics, Join, NewManifest;
    var m := NewManifest(digest, s.cfg.transferProvider, s.cfg.transferRef, p.nodeID, p.instanceID,
                         s.cfg.deviceLabel, nowMillis, newID);
    if m.Some? {
      PublishAllCalls(p.env, s.world, PublishTopics(s.cfg.Routes()), TRANSFER_EVENT_NAME, ManifestBody(m.value), 0);
    }
  }

  lemma LocalKeeps(hash: HashFn, p: Params, s: State, raw: RawText, newID: Option<string>, nowMillis: int)
    ensures SameLifecycle(s, HandleLocalText(hash, p, s, raw, newID, nowMillis).state)
  {
    hide InspectText, InspectTextContent, BuildTextEvent, PublishText, PublishTransferManifest;
    var inspected := InspectText(hash, raw, s.cfg.maxInlineBytes);
    if inspected.Some? {
      PublishKeeps(p, s, raw.text, inspected.value, BuildTextEvent(hash, p, s.cfg, raw.text, inspected.value, newID));
    } else if InspectTextContent(hash, raw).Some? {
      ManifestKeeps(p, s, InspectTextContent(hash, raw).value, newID, nowMillis);
    }
  }

  lemma MessageKeeps(hash: HashFn, p: Params, s: State, topic: string, name: string, payload: Payload)
    ensures SameLifecycle(s, HandleTopicBusMessage(hash, p, s, topic, name, payload).state)
  {
    hide Parse, RouteFor, HandleTextEvent, HandleTransferManifest;
    if Parse(hash, payload, s.cfg.maxInlineBytes).Some? {
      TextInKeeps(p, s, topic, Parse(hash, payload, s.cfg.maxInlineBytes).value);
    }
    ManifestInKeeps(p, s, topic, payload);
  }

  lemma TextInKeeps(p: Params, s: State, topic: string, e: TextEvent)
    ensures SameLifecycle(s, HandleTextEvent(p, s, topic, e).state)
  {
    hide TrimSpace, AddPending;
  }

  lemma ManifestInKeeps(p: Params, s: State, topic: string, payload: Payload)
    ensures SameLifecycle(s, HandleTransferManifest(p, s, topic, payload).state)
  {
    hide ParseManifest, TrimSpace;
  }

  lemma ApplyKeeps(p: Params, s: State, eventID: string)
    ensures SameLifecycle(s, ApplyPending(p, s, eventID).state)
  {
    hide TrimSpace, DeletePending;
  }

  /** All the configured topics are taken when they are subscribed again, or the very first is refused. */
  predicate RestoresAllOrNone(p: Params, s: State) {
    var n, a := |s.world.calls|, |SubscriptionTopics(s.cfg.Routes())|;
    TakenCount(p.env, n, a) == a || n in p.env.subscribe
  }

  /**
   A restore that fails half way takes back topics that were never lost: on a live connection the hub
   still holds what it should if and only if every Subscribe is taken or the very first is refused.
   */
  lemma RestoreExactly(p: Params, s: State)
    requires Reliable(p.env) && Exact(p, s) && Active(s)
    ensures Exact(p, OnConnectivityRestored(p, s).state) <==> RestoresAllOrNone(p, s)
    ensures OnConnectivityRestored(p, s).ok <==>
            TakenCount(p.env, |s.world.calls|, |SubscriptionTopics(s.cfg.Routes())|) ==
                |SubscriptionTopics(s.cfg.Routes())|
  {
    hide SubscribeAll, UnsubscribeAll, SubscriptionTopics, Reliable, TakenCount;
    var topics := SubscriptionTopics(s.cfg.Routes());
    var k := TakenCount(p.env, |s.world.calls|, |topics|);
    SubscribeAllCount(p.env, s.world, topics);
    ReliableDrop(p.env, SubscribeAll(p.env, s.world, topics, []).0, topics[..k]);
    if k > 0 {
      assert topics[0] in topics[..k] by { assert topics[..k][0] == topics[0]; }
      assert topics[0] in Wanted(s);
    } else {
      assert TopicSet(topics[..k]) == {};
    }
  }

  /** A step that does not lose the connection, nor restores it half way. */
  predicate Smooth(p: Params, s: State, input: Input) {
    input != ConnectionLost && (input.RestoreInput? && Active(s) ==> RestoresAllOrNone(p, s))
  }

  lemma LostKeeps(p: Params, s: State)
    requires Bounded(p, s)
    ensures Bounded(p, s.(world := s.world.(topics := {})))
  {
    hide SubscriptionTopics;
  }

  lemma SameKeeps(p: Params, s: State, t: State)
    requires t.session == s.session && t.world.topics == s.world.topics && t.world.watchers == s.world.watchers &&
               t.cfg == s.cfg
    ensures (Bounded(p, s) ==> Bounded(p, t)) && (Exact(p, s) ==> Exact(p, t))
  {
    hide SubscriptionTopics;
  }

  lemma RestoreSmooth(p: Params, s: State)
    requires Reliable(p.env) && Exact(p, s) && (Active(s) ==> RestoresAllOrNone(p, s))
    ensures Exact(p, OnConnectivityRestored(p, s).state)
  {
    hide RestoresAllOrNone, SubscriptionTopics, Reliable, SubscribeAll, UnsubscribeAll;
    if Active(s) { RestoreExactly(p, s); }
  }

  lemma StepKeeps(hash: HashFn, p: Params, s: State, input: Input)
    requires Reliable(p.env) && Bounded(p, s)
    ensures Bounded(p, Step(hash, p, s, input).state)
    ensures Exact(p, s) && Smooth(p, s, input) ==> Exact(p, Step(hash, p, s, input).state)
  {
    hide Step, Start, Stop, UpdateConfig, OnConnectivityRestored, SubscriptionTopics, Reliable, Exact, Bounded,
        Active, RestoresAllOrNone;
    match input
    case StartInput =>
      StepIsStart(hash, p, s);
      StartKeeps(p, s);
    case StopInput(closed) =>
      StepIsStop(hash, p, s, closed);
      StopKeeps(p, s, closed);
      ExactIsBounded(p, Stop(p, s, closed).state);
    case UpdateInput(c) =>
      StepIsUpdate(hash, p, s, c);
      UpdateKeeps(p, s, c);
    case RestoreInput =>
      StepIsRestore(hash, p, s);
      RestoreKeeps(p, s);
      if Exact(p, s) && Smooth(p, s, input) { RestoreSmooth(p, s); }
    case ConnectionLost =>
      StepIsLost(hash, p, s);
      LostKeeps(p, s);
    case _ =>
      HandlersKeep(hash, p, s, input);
      SameKeeps(p, s, Step(hash, p, s, input).state);
  }

  /**
   With a bus whose Unsubscribe works, and Subscribe and WatchText failing anywhere, in every run: the
   hub never holds a topic the configuration does not ask for, and the one running clipboard watcher is
   there exactly when the configuration asks for it.
   */
  lemma {:induction false} SubscriptionsBounded(hash: HashFn, p: Params, s0: State, inputs: seq<Input>)
    requires Reliable(p.env) && Bounded(p, s0)
    ensures Bounded(p, Run(hash, p, s0, inputs))
  {
    hide Step, Bounded, Reliable;
    if inputs != [] {
      var before := inputs[..|inputs| - 1];
      SubscriptionsBounded(hash, p, s0, before);
      StepKeeps(hash, p, Run(hash, p, s0, before), inputs[|inputs| - 1]);
    }
  }

  /**
   ... and as long as no connection is lost and no restore of a live one stops half way, the hub holds
   exactly the configured topics.
   */
  lemma {:induction false} SubscriptionsExact(hash: HashFn, p: Params, s0: State, inputs: seq<Input>)
    requires Reliable(p.env) && Exact(p, s0)
    requires forall k :: 0 <= k < |inputs| ==> Smooth(p, Run(hash, p, s0, inputs[..k]), inputs[k])
    ensures Exact(p, Run(hash, p, s0, inputs))
  {
    hide Step, Exact, Reliable, Smooth;
    if inputs != [] {
      var before := inputs[..|inputs| - 1];
      forall k | 0 <= k < |before| ensures Smooth(p, Run(hash, p, s0, before[..k]), before[k]) {
        assert before[..k] == inputs[..k] && before[k] == inputs[k];
      }
      SubscriptionsExact(hash, p, s0, before);
      ExactIsBounded(p, Run(hash, p, s0, before));
      StepKeeps(hash, p, Run(hash, p, s0, before), inputs[|inputs| - 1]);
    }
  }

  lemma ExactIsBounded(p: Params, s: State)
    requires Exact(p, s)
    ensures Bounded(p, s)
  {
  }

  /** A new runtime starts exact. */
  lemma CreatedExact(p: Params, c: Config, recentLimit: nat, suppressLimit: nat)
    requires Created(p, c, recentLimit, suppressLimit).Some?
    ensures Exact(p, Created(p, c, recentLimit, suppressLimit).value)
  {
    hide Normalized;
  }

  // ---------------------------------------------------------------- topics kept across a change

  predicate Names(c: Call, t: string) {
    (c.Subscribe? || c.Unsubscribe?) && c.topic == t
  }

  /** From w to v nothing happened to topic t: no call names it and the hub's answer is the same. */
  ghost predicate Untouched(w: World, v: World, t: string) {
    Extends(w, v) && (t in v.topics <==> t in w.topics) && forall c :: c in NewCalls(w, v) ==> !Names(c, t)
  }

  lemma UntouchedChain(u: World, v: World, w: World, t: string)
    requires Untouched(u, v, t) && Untouched(v, w, t)
    ensures Untouched(u, w, t)
  {
    Chain(u, v, w);
  }

  lemma {:induction false} SubscribeAllUntouched(env: Environment, w: World, topics: seq<string>, done: seq<string>,
                                                 t: string)
    requires t !in topics
    ensures Untouched(w, SubscribeAll(env, w, topics, done).0, t)
    decreases |topics|
  {
    if topics != [] {
      var next := Subscribed(env, w, topics[0]);
      assert NewCalls(w, next) == [Subscribe(topics[0], |w.calls| !in env.subscribe)];
      if |w.calls| !in env.subscribe {
        SubscribeAllUntouched(env, next, topics[1..], done + [topics[0]], t);
        UntouchedChain(w, next, SubscribeAll(env, next, topics[1..], done + [topics[0]]).0, t);
      }
    }
  }

  lemma {:induction false} UnsubscribeAllUntouched(env: Environment, w: World, topics: seq<string>, ok: bool, t: string)
    requires t !in topics
    ensures Untouched(w, UnsubscribeAll(env, w, topics, ok).0, t)
    decreases |topics|
  {
    if topics != [] {
      var next := Unsubscribed(env, w, topics[0]);
      var ok' := ok && |w.calls| !in env.unsubscribe;
      assert NewCalls(w, next) == [Unsubscribe(topics[0], |w.calls| !in env.unsubscribe)];
      UnsubscribeAllUntouched(env, next, topics[1..], ok', t);
      UntouchedChain(w, next, UnsubscribeAll(env, next, topics[1..], ok').0, t);
    }
  }

  lemma DropTopicsUntouched(p: Params, previous: Config, next: Config, w: World, t: string)
    requires t !in TopicsToSubscribe(previous, next) && t !in TopicsToUnsubscribe(previous, next)
    ensures Untouched(w, DropTopics(p, previous, next, w).0, t)
  {
    hide UnsubscribeAll, TopicsToSubscribe, TopicsToUnsubscribe;
    var dropped := UnsubscribeAll(p.env, w, TopicsToUnsubscribe(previous, next), true).0;
    UnsubscribeAllUntouched(p.env, w, TopicsToUnsubscribe(previous, next), true, t);
    UnsubscribeAllUntouched(p.env, dropped, TopicsToSubscribe(previous, next), true, t);
    UntouchedChain(w, dropped, UnsubscribeAll(p.env, dropped, TopicsToSubscribe(previous, next), true).0, t);
  }

  lemma ChangeUntouched(p: Params, s: State, next: Config, t: string)
    requires t !in TopicsToSubscribe(s.cfg, next) && t !in TopicsToUnsubscribe(s.cfg, next)
    ensures Untouched(s.world, Change(p, s, next).state.world, t)
  {
    hide SubscribeAll, UnsubscribeAll, TopicsToSubscribe, TopicsToUnsubscribe, DropTopics;
    var adding := TopicsToSubscribe(s.cfg, next);
    var (world, done, ok) := SubscribeAll(p.env, s.world, adding, []);
    SubscribeAllUntouched(p.env, s.world, adding, [], t);
    SubscribeAllTopics(p.env, s.world, adding, []);
    assert t !in done;
    if !ok {
      UnsubscribeAllUntouched(p.env, world, done, true, t);
      UntouchedChain(s.world, world, UnsubscribeAll(p.env, world, done, true).0, t);
    } else {
      var quiet := if StopsWatcher(s, next) then Cancelled(world, s.session.watcher) else world;
      assert Untouched(s.world, quiet, t);
      var watched := Watching(p.env, quiet);
      assert Untouched(quiet, watched, t);
      UntouchedChain(s.world, quiet, watched, t);
      UnsubscribeAllUntouched(p.env, watched, adding, true, t);
      UntouchedChain(s.world, watched, UnsubscribeAll(p.env, watched, adding, true).0, t);
      DropTopicsUntouched(p, s.cfg, next, watched, t);
      UntouchedChain(s.world, watched, DropTopics(p, s.cfg, next, watched).0, t);
      DropTopicsUntouched(p, s.cfg, next, quiet, t);
      UntouchedChain(s.world, quiet, DropTopics(p, s.cfg, next, quiet).0, t);
    }
  }

  /**
   A topic in both configurations is never interrupted by a change between two enabled ones, and a topic
   in neither never appears, whatever fails.
   */
  lemma UninterruptedTopics(p: Params, s: State, c: Config, t: string)
    requires s.cfg.enabled && Normalized(c).Some? && Normalized(c).value.enabled
    requires t in ConfigTopics(s.cfg) <==> t in ConfigTopics(Normalized(c).value)
    ensures Untouched(s.world, UpdateConfig(p, s, c).state.world, t)
  {
    hide Normalized, Change, SubscriptionTopics, TopicsToSubscribe, TopicsToUnsubscribe;
    var next := Normalized(c).value;
    ChangeSets(s.cfg, next);
    assert t !in TopicSet(TopicsToSubscribe(s.cfg, next)) && t !in TopicSet(TopicsToUnsubscribe(s.cfg, next));
    ChangeUntouched(p, s, next, t);
  }
}
