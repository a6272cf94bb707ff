/** Runs from a new runtime into each of the situations the exact conditions elsewhere speak of. */
module Witnesses {
  import opened Options
  import opened Text
  import opened Config
  import opened Event
  import opened World
  import opened Topics
  import opened Sync
  import opened Effects
  import opened Laws
  import opened Policy
  import opened Subscriptions
  import opened HubFailures
  import ConfigStore

  // ---------------------------------------------------------------- configurations and nodes

  predicate GoodTopics(topics: seq<string>) {
    && 1 <= |topics| <= MAX_TOPIC_ROUTES
    && (forall i :: 0 <= i < |topics| ==> Trimmed(topics[i]) && topics[i] != "")
    && (forall i, j :: 0 <= i < j < |topics| ==> topics[i] != topics[j])
  }

  function RoutesOf(topics: seq<string>): seq<TopicRoute> {
    seq(|topics|, i requires 0 <= i < |topics| => TopicRoute(topics[i], true, true))
  }

  /** The default configuration, switched on or off, with these topics open both ways. */
  function Sharing(topics: seq<string>, enabled: bool, watch: bool): Config
    requires topics != []
  {
    DefaultConfig().(enabled := enabled, topic := topics[0], topics := Some(RoutesOf(topics)), autoWatch := watch)
  }

  lemma {:induction false} RoutesOfTopics(topics: seq<string>)
    requires forall i :: 0 <= i < |topics| ==> topics[i] != ""
    ensures SubscriptionTopics(RoutesOf(topics)) == topics
  {
    if topics != [] {
      var n := |topics| - 1;
      RoutesOfTopics(topics[..n]);
      assert RoutesOf(topics)[..n] == RoutesOf(topics[..n]);
      assert topics == topics[..n] + [topics[n]];
    }
  }

  lemma SharingNormal(topics: seq<string>, enabled: bool, watch: bool)
    requires GoodTopics(topics)
    ensures var c := Sharing(topics, enabled, watch);
            && Normal(c) && Normalized(c) == Some(c) && c.Routes() == RoutesOf(topics)
            && SubscriptionTopics(c.Routes()) == topics
            && c.enabled == enabled && c.autoWatch == watch && !c.autoApply && c.maxInlineBytes ==
                 DEFAULT_MAX_INLINE_BYTES
  {
    hide Normalized, SubscriptionTopics, NormalizedRoutes;
    ConfigStore.DefaultIsNormal();
    RoutesOfTopics(topics);
    var c := Sharing(topics, enabled, watch);
    assert Normal(c) by {
      assert forall i :: 0 <= i < |topics| ==> TrimSpace(topics[i]) == topics[i];
    }
    NormalizeFixedPoints(c);
  }

  function Node(env: Environment): Params {
    Params(1, "here", true, true, env)
  }

  /** A runtime with these topics, just made. */
  function Made(env: Environment, topics: seq<string>, watch: bool): Option<State>
    requires topics != []
  {
    Created(Node(env), Sharing(topics, true, watch), 0, 0)
  }

  lemma OneMoreInput(hash: HashFn, p: Params, s0: State, inputs: seq<Input>, input: Input)
    ensures Run(hash, p, s0, inputs + [input]) == Step(hash, p, Run(hash, p, s0, inputs), input).state
  {
    hide Step;
    assert (inputs + [input])[..|inputs|] == inputs;
  }

  lemma MadeIs(env: Environment, topics: seq<string>, watch: bool)
    requires GoodTopics(topics)
    ensures Made(env, topics, watch).Some?
    ensures var s, c := Made(env, topics, watch).value, Sharing(topics, true, watch);
            && Exact(Node(env), s) && Inv(s) && s.cfg == c && Normal(c) && SubscriptionTopics(c.Routes()) == topics
            && !s.session.started && s.world == World([], {}, {}) && Orderly(s)
            && s.inbox.entries == map[] && s.recent.members == {}
  {
    hide Normalized, Inv, Normal, SubscriptionTopics, Sharing, Exact;
    var p, c := Node(env), Sharing(topics, true, watch);
    SharingNormal(topics, true, watch);
    assert Created(p, c, 0, 0).Some?;
    CreatedExact(p, c, 0, 0);
    CreatedInv(p, c, 0, 0);
  }

  lemma StartTakes(p: Params, s: State)
    requires !s.session.started && s.cfg.enabled && p.hasBus && p.hasClipboard
    requires var a := |SubscriptionTopics(s.cfg.Routes())|;
             TakenCount(p.env, |s.world.calls|, a) == a && (s.cfg.autoWatch ==> |s.world.calls| + a !in p.env.watch)
    ensures var t := Start(p, s).state;
            && t.session.started && t.session.watching == s.cfg.autoWatch && t.cfg == s.cfg && t.inbox == s.inbox &&
                 t.recent == s.recent
            && |t.world.calls| ==
               |s.world.calls| + |SubscriptionTopics(s.cfg.Routes())| + if s.cfg.autoWatch then 1 else 0
  {
    hide SubscriptionTopics, TakenCount, SubscribeAll, UnsubscribeAll;
    SubscribeAllCount(p.env, s.world, SubscriptionTopics(s.cfg.Routes()));
  }

  lemma StartSettled(p: Params, s: State, a: nat)
    requires |SubscriptionTopics(s.cfg.Routes())| == a && TakenCount(p.env, |s.world.calls|, a) == a
    requires s.cfg.autoWatch ==> |s.world.calls| + a !in p.env.watch
    ensures StartSettles(p, s)
  {
  }

  /** The first start, when its calls are taken: everything in order, and this many calls made. */
  lemma Starts(env: Environment, topics: seq<string>, watch: bool) returns (s: State)
    requires GoodTopics(topics) && Made(env, topics, watch).Some?
    requires TakenCount(env, 0, |topics|) == |topics| && (watch ==> |topics| !in env.watch)
    ensures s == Start(Node(env), Made(env, topics, watch).value).state
    ensures Exact(Node(env), s) && Inv(s) && Orderly(s)
    ensures s.session.started && s.session.watching == watch && s.cfg == Sharing(topics, true, watch) && Normal(s.cfg)
    ensures |s.world.calls| == |topics| + if watch then 1 else 0
    ensures s.inbox.entries == map[] && s.recent.members == {}
  {
    hide Inv, Normal, SubscriptionTopics, Made, TakenCount, Start, StartSettles, Exact, Sharing, SessionOk, Orderly,
        Explains;
    var p := Node(env);
    MadeIs(env, topics, watch);
    SharingNormal(topics, true, watch);
    var s0 := Made(env, topics, watch).value;
    s := Start(p, s0).state;
    StartEffect(p, s0);
    EffectInv(Quiet, s0, s);
    StartTakes(p, s0);
    StartSettled(p, s0, |topics|);
    StartExactly(p, s0);
    ExactIs(p, s);
  }

  /** A start and one more input. */
  lemma AfterStart(hash: HashFn, p: Params, s0: State, input: Input)
    ensures Run(hash, p, s0, [StartInput, input]) == Step(hash, p, Start(p, s0).state, input).state
  {
    hide Step, Start, Run;
    RunNothing(hash, p, s0);
    OneMoreInput(hash, p, s0, [], StartInput);
    OneMoreInput(hash, p, s0, [StartInput], input);
    StepIsStart(hash, p, s0);
    assert [] + [StartInput] == [StartInput] && [StartInput] + [input] == [StartInput, input];
  }

  lemma JustStart(hash: HashFn, p: Params, s0: State)
    ensures Run(hash, p, s0, [StartInput]) == Start(p, s0).state
  {
    hide Step, Start, Run;
    RunNothing(hash, p, s0);
    OneMoreInput(hash, p, s0, [], StartInput);
    StepIsStart(hash, p, s0);
    assert [] + [StartInput] == [StartInput];
  }

  /** A start and two configuration changes. */
  lemma AfterStartTwice(hash: HashFn, p: Params, s0: State, c: Config, d: Config)
    ensures Run(hash, p, s0, [StartInput, UpdateInput(c), UpdateInput(d)]) ==
            UpdateConfig(p, UpdateConfig(p, Start(p, s0).state, c).state, d).state
  {
    hide Step, Start, Run, UpdateConfig;
    AfterStart(hash, p, s0, UpdateInput(c));
    StepIsUpdate(hash, p, Start(p, s0).state, c);
    OneMoreInput(hash, p, s0, [StartInput, UpdateInput(c)], UpdateInput(d));
    StepIsUpdate(hash, p, UpdateConfig(p, Start(p, s0).state, c).state, d);
    assert [StartInput, UpdateInput(c)] + [UpdateInput(d)] == [StartInput, UpdateInput(c), UpdateInput(d)];
  }

  lemma RunNothing(hash: HashFn, p: Params, s0: State)
    ensures Run(hash, p, s0, []) == s0
  {
    hide Step;
  }

  lemma ExactIs(p: Params, s: State)
    requires SessionOk(p, s) && HubMatches(s)
    ensures Exact(p, s) && Orderly(s)
  {
  }

  // ---------------------------------------------------------------- a hub left with the wrong topics

  /** Only these Unsubscribe calls fail. */
  function Stuck(unsubscribe: set<nat>): Environment {
    Environment({}, unsubscribe, {}, {}, {})
  }

  /** The topic lists of a change between two configurations without a topic in common. */
  lemma Exchange(first: seq<string>, second: seq<string>, watch: bool, watches: bool)
    requires GoodTopics(first) && GoodTopics(second) && forall t :: t in first ==> t !in second
    ensures var before, after := Sharing(first, true, watch), Sharing(second, true, watches);
            TopicsToSubscribe(before, after) == second && TopicsToUnsubscribe(before, after) == first
  {
    hide SubscriptionTopics, Sharing;
    SharingNormal(first, true, watch);
    SharingNormal(second, true, watches);
    WithoutNone(first, TopicSet(second));
    WithoutNone(second, TopicSet(first));
  }

  lemma {:induction false} WithoutNone(s: seq<string>, other: set<string>)
    requires forall t :: t in s ==> t !in other
    ensures Without(s, other) == s
  {
    if s != [] {
      assert s == s[..|s| - 1] + [s[|s| - 1]];
      WithoutNone(s[..|s| - 1], other);
    }
  }

  lemma OneTopicLoops(env: Environment, w: World, a: string)
    ensures SubscribeAll(env, w, [a], []) ==
            if |w.calls| !in env.subscribe then (Subscribed(env, w, a), [a], true)
            else (Subscribed(env, w, a), [], false)
    ensures UnsubscribeAll(env, w, [a], true) == (Unsubscribed(env, w, a), |w.calls| !in env.unsubscribe)
  {
    assert [a][1..] == [] && [] + [a] == [a];
  }

  /** The hub takes the first topic and refuses the second. */
  lemma SecondRefused(env: Environment, w: World, a: string, b: string)
    requires |w.calls| !in env.subscribe && |w.calls| + 1 in env.subscribe
    ensures SubscribeAll(env, w, [a, b], []) == (Subscribed(env, Subscribed(env, w, a), b), [a], false)
  {
    assert [a, b][1..] == [b] && [] + [a] == [a];
  }

  lemma SharingTopics(topics: seq<string>, watch: bool)
    requires GoodTopics(topics)
    ensures ConfigTopics(Sharing(topics, true, watch)) == TopicSet(topics)
    ensures Sharing(topics, true, watch).enabled
  {
    hide Sharing, SubscriptionTopics;
    SharingNormal(topics, true, watch);
  }

  /** Subscribed to b, and then neither a nor b could be dropped. */
  lemma ChangeLeavesBoth(s: State, a: string, b: string)
    requires GoodTopics([a]) && GoodTopics([b]) && a != b && Exact(Node(Stuck({2, 3})), s)
    requires s.session.started && s.cfg == Sharing([a], true, false) && |s.world.calls| == 1
    ensures var t := UpdateConfig(Node(Stuck({2, 3})), s, Sharing([b], true, false)).state;
            t.world.topics == {a, b} && t.cfg == s.cfg && t.session == s.session
  {
    hide Sharing, Normalized, Normal, TopicsToSubscribe, TopicsToUnsubscribe, SubscriptionTopics, SubscribeAll,
         UnsubscribeAll, Disable;
    var env, next := Stuck({2, 3}), Sharing([b], true, false);
    SharingNormal([a], true, false);
    SharingNormal([b], true, false);
    SharingTopics([a], false);
    Exchange([a], [b], false, false);
    OneTopicLoops(env, s.world, b);
    var w := Subscribed(env, s.world, b);
    OneTopicLoops(env, w, a);
    OneTopicLoops(env, Unsubscribed(env, w, a), b);
    assert TopicSet([a]) == {a};
  }

  /** A change whose Unsubscribe of the old topic fails, and then that of the new one: the hub keeps both. */
  lemma ChangeGoesWrong(hash: HashFn, a: string, b: string)
    requires GoodTopics([a]) && GoodTopics([b]) && a != b
    ensures var env := Stuck({2, 3});
            && Made(env, [a], false).Some?
            && var t := Run(hash, Node(env), Made(env, [a], false).value,
                            [StartInput, UpdateInput(Sharing([b], true, false))]);
               t.cfg == Sharing([a], true, false) && t.world.topics == {a, b} && Wanted(t) == {a}
  {
    hide Run, Step, Made, Sharing, Normal, Inv, Exact, Orderly, HubMatches, UpdateSettles, UpdateConfig, Start;
    var env, next := Stuck({2, 3}), Sharing([b], true, false);
    MadeIs(env, [a], false);
    assert TakenCount(env, 0, 1) == 1;
    var s := Starts(env, [a], false);
    AfterStart(hash, Node(env), Made(env, [a], false).value, UpdateInput(next));
    StepIsUpdate(hash, Node(env), s, next);
    ChangeLeavesBoth(s, a, b);
    SharingTopics([a], false);
    assert TopicSet([a]) == {a};
  }

  lemma StopLeavesTopic(s: State, a: string)
    requires GoodTopics([a]) && s.session.started && s.cfg == Sharing([a], true, false) && |s.world.calls| == 1
    requires Exact(Node(Stuck({1})), s)
    ensures var t := Stop(Node(Stuck({1})), s, true).state; t.world.topics == {a} && !t.session.started
  {
    hide Sharing, Normal, Normalized, SubscriptionTopics, UnsubscribeAll;
    SharingNormal([a], true, false);
    SharingTopics([a], false);
    OneTopicLoops(Stuck({1}), s.world.(watchers := {}), a);
    assert TopicSet([a]) == {a};
  }

  /** A stop whose Unsubscribe fails: the hub keeps the topic. */
  lemma StopGoesWrong(hash: HashFn, a: string)
    requires GoodTopics([a])
    ensures var env := Stuck({1});
            && Made(env, [a], false).Some?
            && var t := Run(hash, Node(env), Made(env, [a], false).value, [StartInput, StopInput(true)]);
               t.world.topics == {a} && Wanted(t) == {}
  {
    hide Run, Step, Made, Sharing, Normal, Inv, Exact, Orderly, HubMatches, Start, Stop, StopSettles;
    var env := Stuck({1});
    MadeIs(env, [a], false);
    assert TakenCount(env, 0, 1) == 1;
    var s := Starts(env, [a], false);
    AfterStart(hash, Node(env), Made(env, [a], false).value, StopInput(true));
    StepIsStop(hash, Node(env), s, true);
    StopLeavesTopic(s, a);
  }

  lemma DisabledKeeps(s: State, a: string, b: string)
    requires GoodTopics([a]) && GoodTopics([b]) && a != b
    requires s.session.started && s.cfg == Sharing([a], true, false) && |s.world.calls| == 1 &&
               Exact(Node(Stuck({1})), s)
    ensures var p := Node(Stuck({1}));
            a in UpdateConfig(p, UpdateConfig(p, s, Sharing([a], false, false)).state,
                Sharing([b], true, false)).state.world.topics
  {
    hide Sharing, Normalized, Normal, SubscriptionTopics, UpdateConfig;
    SharingNormal([a], true, false);
    SharingNormal([a], false, false);
    SharingNormal([b], true, false);
    assert a in [a] && a !in [b];
    StuckKeeps(Stuck({1}), a);
    DisableLeaves(Node(Stuck({1})), s, Sharing([a], false, false), Sharing([b], true, false), a);
  }

  /** Switching off with a failing Unsubscribe: the next enable, though it succeeds, leaves the old topic on the hub. */
  lemma DisableGoesWrong(hash: HashFn, a: string, b: string)
    requires GoodTopics([a]) && GoodTopics([b]) && a != b
    ensures var env := Stuck({1});
            var off, on := UpdateInput(Sharing([a], false, false)), UpdateInput(Sharing([b], true, false));
            && Made(env, [a], false).Some?
            && a in Run(hash, Node(env), Made(env, [a], false).value, [StartInput, off, on]).world.topics
  {
    hide Run, Step, Made, Sharing, Normal, Inv, Exact, Orderly, UpdateConfig, Start;
    var env, off, on := Stuck({1}), Sharing([a], false, false), Sharing([b], true, false);
    MadeIs(env, [a], false);
    assert TakenCount(env, 0, 1) == 1;
    var s := Starts(env, [a], false);
    AfterStartTwice(hash, Node(env), Made(env, [a], false).value, off, on);
    DisabledKeeps(s, a, b);
  }

  lemma StuckKeeps(env: Environment, a: string)
    requires 1 in env.unsubscribe
    ensures Dropped(env, 1, [a]) == {}
  {
  }

  /** A start refused at its second topic, which then cannot take back the first. */
  lemma StartGoesWrong(hash: HashFn, a: string, b: string)
    requires GoodTopics([a, b])
    ensures var env := Environment({1}, {2}, {}, {}, {});
            && Made(env, [a, b], false).Some?
            && var t := Run(hash, Node(env), Made(env, [a, b], false).value, [StartInput]);
               t.world.topics == {a} && Wanted(t) == {}
  {
    hide Run, Step, Made, Sharing, Normal, Inv, Exact, Orderly, HubMatches, Start, SubscriptionTopics, StartSettles;
    var env := Environment({1}, {2}, {}, {}, {});
    MadeIs(env, [a, b], false);
    var s0 := Made(env, [a, b], false).value;
    JustStart(hash, Node(env), s0);
    StartLeavesTopic(s0, a, b);
  }

  lemma StartLeavesTopic(s: State, a: string, b: string)
    requires GoodTopics([a, b]) && !s.session.started && s.cfg == Sharing([a, b], true, false)
    requires s.world == World([], {}, {})
    ensures var t := Start(Node(Environment({1}, {2}, {}, {}, {})), s).state;
            t.world.topics == {a} && !t.session.started
  {
    hide Sharing, Normalized, Normal, SubscriptionTopics, SubscribeAll, UnsubscribeAll;
    SharingNormal([a, b], true, false);
    var env := Environment({1}, {2}, {}, {}, {});
    SecondRefused(env, s.world, a, b);
    OneTopicLoops(env, Subscribed(env, Subscribed(env, s.world, a), b), a);
  }

  /** A restore of a live connection that is refused at its second topic takes back the first. */
  lemma RestoreGoesWrong(hash: HashFn, a: string, b: string)
    requires GoodTopics([a, b])
    ensures var env := Environment({3}, {}, {}, {}, {});
            && Reliable(env) && Made(env, [a, b], false).Some?
            && var t := Run(hash, Node(env), Made(env, [a, b], false).value, [StartInput, RestoreInput]);
               t.world.topics == {b} && Wanted(t) == {a, b}
  {
    hide Run, Step, Made, Sharing, Normal, Inv, Exact, Orderly, HubMatches, Start, OnConnectivityRestored,
        RestoreSettles;
    var env := Environment({3}, {}, {}, {}, {});
    MadeIs(env, [a, b], false);
    assert TakenCount(env, 0, 2) == 1 + TakenCount(env, 1, 1);
    var s := Starts(env, [a, b], false);
    AfterStart(hash, Node(env), Made(env, [a, b], false).value, RestoreInput);
    StepIsRestore(hash, Node(env), s);
    RestoreTakesTopic(s, a, b);
  }

  lemma RestoreTakesTopic(s: State, a: string, b: string)
    requires GoodTopics([a, b]) && s.session.started && s.cfg == Sharing([a, b], true, false) && |s.world.calls| == 2
    requires Exact(Node(Environment({3}, {}, {}, {}, {})), s)
    ensures var t := OnConnectivityRestored(Node(Environment({3}, {}, {}, {}, {})), s).state;
            t.world.topics == {b} && Wanted(t) == {a, b}
  {
    hide Sharing, Normalized, Normal, SubscriptionTopics, SubscribeAll, UnsubscribeAll;
    SharingNormal([a, b], true, false);
    SharingTopics([a, b], false);
    TwoTopics(a, b);
    var env := Environment({3}, {}, {}, {}, {});
    SecondRefused(env, s.world, a, b);
    OneTopicLoops(env, Subscribed(env, Subscribed(env, s.world, a), b), a);
  }

  lemma TwoTopics(a: string, b: string)
    requires GoodTopics([a, b])
    ensures TopicSet([a, b]) == {a, b} && a != b
  {
    assert [a, b][0] != [a, b][1];
  }

  // ---------------------------------------------------------------- a watcher lost

  lemma ChangeLosesWatcher(s: State, a: string, b: string, watch: bool)
    requires GoodTopics([a]) && GoodTopics([b]) && a != b && Exact(Node(Stuck({3})), s)
    requires s.session.started && s.cfg == Sharing([a], true, watch) && s.session.watching == watch
    requires |s.world.calls| == 1 + if watch then 1 else 0
    ensures var t := Change(Node(Stuck({3})), s, Sharing([b], true, !watch)).state;
            && t.session == s.session && t.cfg == s.cfg && t.world.watchers == if watch then {} else {2}
  {
    hide Sharing, Normalized, Normal, TopicsToSubscribe, TopicsToUnsubscribe, SubscriptionTopics, SubscribeAll,
         UnsubscribeAll;
    var env := Stuck({3});
    SharingNormal([a], true, watch);
    SharingNormal([b], true, !watch);
    Exchange([a], [b], watch, !watch);
    OneTopicLoops(env, s.world, b);
    var w := Subscribed(env, s.world, b);
    var v := if watch then Cancelled(w, s.session.watcher) else Watching(env, w);
    OneTopicLoops(env, v, a);
    OneTopicLoops(env, Unsubscribed(env, v, a), b);
  }

  /** A change that starts the watcher, or stops it, and then fails to drop the old topic. */
  lemma WatcherGoesWrong(hash: HashFn, a: string, b: string, watch: bool)
    requires GoodTopics([a]) && GoodTopics([b]) && a != b
    ensures var env := Stuck({3});
            && Made(env, [a], watch).Some?
            && var t := Run(hash, Node(env), Made(env, [a], watch).value,
                            [StartInput, UpdateInput(Sharing([b], true, !watch))]);
               && t.session.watching == watch && (t.session.watcher.Some? <==> watch)
               && t.world.watchers == if watch then {} else {2}
  {
    hide Run, Step, Made, Sharing, Normal, Inv, Exact, Orderly, WatcherKnown, LosesWatcher, UpdateConfig, Start,
        Change, Normalized;
    var env, next := Stuck({3}), Sharing([b], true, !watch);
    MadeIs(env, [a], watch);
    assert TakenCount(env, 0, 1) == 1;
    var s := Starts(env, [a], watch);
    AfterStart(hash, Node(env), Made(env, [a], watch).value, UpdateInput(next));
    StepIsUpdate(hash, Node(env), s, next);
    SharingNormal([a], true, watch);
    SharingNormal([b], true, !watch);
    ChangeLosesWatcher(s, a, b, watch);
    UpdateIsChange(Node(env), s, next);
    WatcherKept(Node(env), s);
  }

  lemma WatcherKept(p: Params, s: State)
    requires Exact(p, s)
    ensures s.session.watcher.Some? <==> s.session.watching
  {
  }

  lemma UpdateIsChange(p: Params, s: State, next: Config)
    requires Normalized(next) == Some(next) && TakesUp(p, s, next) && !(s.cfg.enabled && !next.enabled)
    ensures UpdateConfig(p, s, next) == Change(p, s, next)
  {
    hide Normalized, Change, Disable;
  }

  // ---------------------------------------------------------------- texts applied against expectation

  const NO_FAILURES := Environment({}, {}, {}, {}, {})

  /** A text event from elsewhere, as a receiver with the default limit normalises it. */
  predicate Foreign(hash: HashFn, e: TextEvent) {
    && Event.Normalize(hash, e, DEFAULT_MAX_INLINE_BYTES) == Some(e)
    && !e.IsLocalOrigin(1, "here")
  }

  lemma SomeForeignEvent(hash: HashFn) returns (e: TextEvent)
    ensures Foreign(hash, e)
  {
    e := TextEvent(EVENT_VERSION, "id", 2, "there", "", "text", Utf8Len("text"), hash("text"));
    assert Trimmed("id") && Trimmed("there") && Trimmed("") && Trimmed("here");
    assert "there" != "here" by { assert "there"[0] == 't'; }
    assert InspectText(hash, Utf8("text"), DEFAULT_MAX_INLINE_BYTES) == Some(Digest(Utf8Len("text"), hash("text"))) by {
      assert Utf8Len("text") <= 16;
    }
  }

  function Arrives(topic: string, e: TextEvent): Input {
    MessageInput(topic, TEXT_EVENT_NAME, Payload("x", Some(e), None))
  }

  lemma RouteOfTopic(topic: string)
    requires GoodTopics([topic])
    ensures RouteFor(RoutesOf([topic]), topic) == Some(TopicRoute(topic, true, true))
  {
    assert RoutesOf([topic])[0].topic == topic;
  }

  /** A foreign event arrives in a started runtime that waits for the user: it waits, under its identifier. */
  lemma ForeignWaits(hash: HashFn, s: State, topic: string, e: TextEvent)
    requires GoodTopics([topic]) && Foreign(hash, e)
    requires Inv(s) && s.cfg == Sharing([topic], true, false) && s.inbox.entries == map[] && s.recent.members == {}
    ensures var o := Step(hash, Node(NO_FAILURES), s, Arrives(topic, e));
            && Inv(o.state) && e.eventID in o.state.inbox.entries && o.state.inbox.entries[e.eventID].event == e
            && o.state.recent.members == {} && o.state.cfg == s.cfg && o.state.session == s.session
            && Trimmed(e.eventID) && e.eventID != ""
  {
    hide Sharing, Normalized, Normal, SubscriptionTopics, Inv, RouteFor, Event.Normalize, HandleTextEvent,
        HandleTopicBusMessage,
         Utf8Len;
    var p := Node(NO_FAILURES);
    SharingNormal([topic], true, false);
    RouteOfTopic(topic);
    Event.NormalizeIdempotent(hash, e, DEFAULT_MAX_INLINE_BYTES);
    var payload := Payload("x", Some(e), None);
    assert Utf8Len("x") <= 4;
    assert Parse(hash, payload, DEFAULT_MAX_INLINE_BYTES) == Some(e);
    TextDispatch(hash, p, s, topic, payload, e);
    StepIsMessage(hash, p, s, topic, TEXT_EVENT_NAME, payload);
    QueuesForeign(p, s, topic, e);
    MessageKeeps(hash, p, s, topic, TEXT_EVENT_NAME, payload);
  }

  lemma QueuesForeign(p: Params, s: State, topic: string, e: TextEvent)
    requires Inv(s) && !s.cfg.autoApply && s.inbox.entries == map[] && s.recent.members == {}
    requires e.eventID != "" && !e.IsLocalOrigin(p.nodeID, p.instanceID)
    ensures var t := HandleTextEvent(p, s, topic, e).state;
            && Inv(t) && t.inbox.entries == map[e.eventID := Pending(e, topic)] && t.recent.members == {}
  {
    hide AddPending, Conserved, TrimSpace;
    var entry := Pending(e, topic);
    AddPendingEffect(s, entry);
    AddPendingKeepsLog(s, entry);
    var f := TextInEffect(p, s, topic, e);
    EffectInv(f, s, HandleTextEvent(p, s, topic, e).state);
  }

  /** A start and two more inputs. */
  lemma TwoMore(hash: HashFn, p: Params, s0: State, a: Input, b: Input)
    ensures Run(hash, p, s0, [StartInput, a, b]) == Step(hash, p, Step(hash, p, Start(p, s0).state, a).state, b).state
  {
    hide Step, Start, Run;
    AfterStart(hash, p, s0, a);
    OneMoreInput(hash, p, s0, [StartInput, a], b);
    assert [StartInput, a] + [b] == [StartInput, a, b];
  }

  /** Enabled and started; a text arrives; stop; switch off; the user releases the text. */
  function OffScript(topic: string, e: TextEvent): seq<Input> {
    [StartInput, Arrives(topic, e), StopInput(true), UpdateInput(Sharing([topic], false, false)), ApplyInput(e.eventID)]
  }

  lemma RunOffScript(hash: HashFn, p: Params, s0: State, topic: string, e: TextEvent)
    ensures var stopped := Step(hash, p, Step(hash, p, Start(p, s0).state, Arrives(topic, e)).state,
              StopInput(true)).state;
            Run(hash, p, s0, OffScript(topic, e)) ==
            Step(hash, p, Step(hash, p, stopped, UpdateInput(Sharing([topic], false, false))).state,
                ApplyInput(e.eventID)).state
  {
    hide Step, Start, Run, Arrives, Sharing;
    var off := UpdateInput(Sharing([topic], false, false));
    var three := [StartInput, Arrives(topic, e), StopInput(true)];
    TwoMore(hash, p, s0, Arrives(topic, e), StopInput(true));
    OneMoreInput(hash, p, s0, three, off);
    OneMoreInput(hash, p, s0, three + [off], ApplyInput(e.eventID));
    assert three + [off] + [ApplyInput(e.eventID)] == OffScript(topic, e);
  }

  lemma StopKeepsInbox(p: Params, s: State)
    requires Inv(s)
    ensures var t := Stop(p, s, true).state; Inv(t) && t.inbox == s.inbox && !t.session.started && t.cfg == s.cfg
  {
    hide Inv, Explains, UnsubscribeAll, SubscriptionTopics;
    StopEffect(p, s, true);
    EffectInv(Quiet, s, Stop(p, s, true).state);
  }

  /** A runtime with one topic, started without failures. */
  lemma StartsPlain(topic: string) returns (s: State)
    requires GoodTopics([topic])
    ensures Made(NO_FAILURES, [topic], false).Some?
    ensures s == Start(Node(NO_FAILURES), Made(NO_FAILURES, [topic], false).value).state
    ensures Inv(s) && s.cfg == Sharing([topic], true, false) && s.inbox.entries == map[] && s.recent.members == {}
  {
    hide Made, Sharing, Inv, Exact, Orderly, Start, Normal;
    MadeIs(NO_FAILURES, [topic], false);
    assert TakenCount(NO_FAILURES, 0, 1) == 1;
    s := Starts(NO_FAILURES, [topic], false);
  }

  /** Reachable: a text waits, the runtime is stopped and then switched off, and the user's release still writes. */
  lemma StoppedDisableWrites(hash: HashFn, topic: string, e: TextEvent)
    requires GoodTopics([topic]) && Foreign(hash, e)
    ensures Made(NO_FAILURES, [topic], false).Some?
    ensures var t := Run(hash, Node(NO_FAILURES), Made(NO_FAILURES, [topic], false).value, OffScript(topic, e));
            !t.cfg.enabled && t.world.calls != [] && t.world.calls[|t.world.calls| - 1] == WriteText(e.text, true)
  {
    hide *;
    var s := StartsPlain(topic);
    ForeignWaits(hash, s, topic, e);
    ReleasedAfterDisable(hash, Step(hash, Node(NO_FAILURES), s, Arrives(topic, e)).state, topic, e);
    RunOffScript(hash, Node(NO_FAILURES), Made(NO_FAILURES, [topic], false).value, topic, e);
  }

  lemma ReleasedAfterDisable(hash: HashFn, s: State, topic: string, e: TextEvent)
    requires GoodTopics([topic]) && Trimmed(e.eventID) && Inv(s)
    requires e.eventID in s.inbox.entries && s.inbox.entries[e.eventID].event == e
    ensures var p, off := Node(NO_FAILURES), Sharing([topic], false, false);
            var stopped := Step(hash, p, s, StopInput(true)).state;
            var t := Step(hash, p, Step(hash, p, stopped, UpdateInput(off)).state, ApplyInput(e.eventID)).state;
            !t.cfg.enabled && t.world.calls != [] && t.world.calls[|t.world.calls| - 1] == WriteText(e.text, true)
  {
    hide Step, Sharing, Normal, Inv, Stop, UpdateConfig, ApplyPending, Normalized;
    var p, off := Node(NO_FAILURES), Sharing([topic], false, false);
    StepIsStop(hash, p, s, true);
    StopKeepsInbox(p, s);
    var stopped := Stop(p, s, true).state;
    StepIsUpdate(hash, p, stopped, off);
    StepIsApply(hash, p, UpdateConfig(p, stopped, off).state, e.eventID);
    SharingNormal([topic], false, false);
    StoppedDisableStillWrites(p, stopped, off, e.eventID);
  }

  const REFERENCE := TransferReference("p", "o", "")

  lemma ReferenceUsable()
    ensures UsableReference(REFERENCE)
  {
    assert Trimmed("p") && Trimmed("o");
  }

  /** A manifest from elsewhere with this identifier. */
  function ManifestFor(hash: HashFn, eventID: string): Manifest {
    Manifest(EVENT_VERSION, eventID, 2, "t", "", "text/plain", "utf-8", 1, hash("x"), [REFERENCE], 1)
  }

  lemma ManifestForIsValid(hash: HashFn, eventID: string)
    requires eventID != "" && Trimmed(eventID) && Utf8Len(eventID) <= MAX_EVENT_ID_BYTES
    ensures ParseManifest(Payload("x", None, Some(ManifestFor(hash, eventID)))) == Some(ManifestFor(hash, eventID))
    ensures !ManifestFor(hash, eventID).IsLocalOrigin(1, "here")
  {
    hide TrimSpace, Utf8Len, UsableReference, IsDigest;
    ReferenceUsable();
    var m := ManifestFor(hash, eventID);
    assert Trimmed("t") && Trimmed("here");
    assert |"here"| == 4;
    assert IsUtf8Label("utf-8");
    assert m.references == [REFERENCE] && forall i :: 0 <= i < |m.references| ==> m.references[i] == REFERENCE;
    assert ValidManifest(m);
    ShortPayload();
  }

  lemma ShortPayload()
    ensures Utf8Len("x") <= 4
  {
  }

  /** Reachable: a text waits, a manifest with its identifier arrives, and the text is still applied. */
  lemma RememberedStillApplies(hash: HashFn, topic: string, e: TextEvent)
    requires GoodTopics([topic]) && Foreign(hash, e)
    ensures var p, payload := Node(NO_FAILURES), Payload("x", None, Some(ManifestFor(hash, e.eventID)));
            && Made(NO_FAILURES, [topic], false).Some?
            && var s0 := Made(NO_FAILURES, [topic], false).value;
               var inputs := [StartInput, Arrives(topic, e), MessageInput(topic, TRANSFER_EVENT_NAME, payload)];
               var t := Run(hash, p, s0, inputs);
               && e.eventID in t.recent.members && e.eventID in t.inbox.entries
               && AppliesID(t, Step(hash, p, t, ApplyInput(e.eventID)).state, e.eventID)
  {
    hide Run, Step, Made, Sharing, Normal, Inv, Exact, Orderly, Start, Arrives, ManifestFor, ParseManifest, AppliesID,
        RouteFor;
    var p, m := Node(NO_FAILURES), ManifestFor(hash, e.eventID);
    var payload := Payload("x", None, Some(m));
    var message := MessageInput(topic, TRANSFER_EVENT_NAME, payload);
    var s := StartsPlain(topic);
    TwoMore(hash, p, Made(NO_FAILURES, [topic], false).value, Arrives(topic, e), message);
    ForeignWaits(hash, s, topic, e);
    var waiting := Step(hash, p, s, Arrives(topic, e)).state;
    ShortID(hash, e);
    ManifestForIsValid(hash, e.eventID);
    ManifestID(hash, e.eventID);
    SharingNormal([topic], true, false);
    RouteOfTopic(topic);
    ManifestRemembersWaitingEvent(hash, p, waiting, topic, payload, m, e.eventID);
  }

  lemma ManifestID(hash: HashFn, eventID: string)
    ensures ManifestFor(hash, eventID).eventID == eventID
  {
  }

  lemma ShortID(hash: HashFn, e: TextEvent)
    requires Foreign(hash, e)
    ensures Utf8Len(e.eventID) <= MAX_EVENT_ID_BYTES
  {
  }
}
