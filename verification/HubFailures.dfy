/**
 What the hub and the watcher are left with when any call may fail, Unsubscribe included: for every
 step from a state in order, exactly which failing calls leave it out of order.
 */
module HubFailures {
  import opened Options
  import opened Text
  import opened Config
  import opened World
  import opened Topics
  import opened Sync
  import opened Subscriptions
  import Dedupe

  // ---------------------------------------------------------------- lists without duplicates

  lemma DroppedNone(env: Environment, n: nat, topics: seq<string>)
    ensures Dropped(env, n, topics) == {} <==> NoneTaken(env, n, |topics|)
  {
    if !NoneTaken(env, n, |topics|) {
      var k: nat :| n <= k < n + |topics| && k !in env.unsubscribe;
      assert topics[k - n] in Dropped(env, n, topics);
    }
  }

  lemma DroppedAll(env: Environment, n: nat, topics: seq<string>)
    requires Dedupe.Distinct(topics)
    ensures Dropped(env, n, topics) <= TopicSet(topics)
    ensures Dropped(env, n, topics) == TopicSet(topics) <==> AllTaken(env, n, |topics|)
  {
    if AllTaken(env, n, |topics|) {
      forall t | t in TopicSet(topics) ensures t in Dropped(env, n, topics) {
        var i :| 0 <= i < |topics| && topics[i] == t;
        assert topics[n + i - n] == t && n + i !in env.unsubscribe;
      }
    } else {
      var k: nat :| n <= k < n + |topics| && k in env.unsubscribe;
      assert topics[k - n] in TopicSet(topics);
      assert topics[k - n] !in Dropped(env, n, topics);
    }
  }

  lemma {:induction false} SubscriptionTopicsDistinct(routes: seq<TopicRoute>)
    requires forall i, j :: 0 <= i < j < |routes| ==> routes[i].topic != routes[j].topic
    ensures Dedupe.Distinct(SubscriptionTopics(routes))
  {
    if routes != [] {
      var n := |routes| - 1;
      SubscriptionTopicsDistinct(routes[..n]);
      SubscriptionTopicsHold(routes[..n], routes[n].topic);
    }
  }

  lemma {:induction false} WithoutDistinct(s: seq<string>, other: set<string>)
    requires Dedupe.Distinct(s)
    ensures Dedupe.Distinct(Without(s, other))
  {
    if s != [] {
      var n := |s| - 1;
      WithoutDistinct(s[..n], other);
      WithoutHolds(s[..n], other, s[n]);
    }
  }

  lemma NormalDistinct(c: Config)
    requires Normal(c)
    ensures Dedupe.Distinct(SubscriptionTopics(c.Routes()))
  {
    hide SubscriptionTopics;
    var routes := c.Routes();
    forall i, j | 0 <= i < j < |routes| ensures routes[i].topic != routes[j].topic {
      assert TrimSpace(routes[i].topic) != TrimSpace(routes[j].topic);
    }
    SubscriptionTopicsDistinct(routes);
  }

  lemma ChangeDistinct(previous: Config, next: Config)
    requires Normal(previous) && Normal(next)
    ensures Dedupe.Distinct(TopicsToSubscribe(previous, next)) && Dedupe.Distinct(TopicsToUnsubscribe(previous, next))
  {
    hide SubscriptionTopics, Without, Normal;
    NormalDistinct(previous);
    NormalDistinct(next);
    var before, after := SubscriptionTopics(previous.Routes()), SubscriptionTopics(next.Routes());
    WithoutDistinct(before, TopicSet(after));
    WithoutDistinct(after, TopicSet(before));
  }

  /** Topics just added can be taken back if and only if every one of these calls is taken. */
  lemma TakenBack(env: Environment, w: World, extra: seq<string>, wanted: set<string>)
    requires Dedupe.Distinct(extra) && TopicSet(extra) !! wanted && w.topics == wanted + TopicSet(extra)
    ensures UnsubscribeAll(env, w, extra, true).0.topics == wanted <==> AllTaken(env, |w.calls|, |extra|)
    ensures UnsubscribeAll(env, w, extra, true).0.watchers == w.watchers
  {
    hide UnsubscribeAll, AllTaken;
    UnsubscribeAllTopics(env, w, extra, true);
    DroppedAll(env, |w.calls|, extra);
  }

  lemma PrefixDistinct(s: seq<string>, k: nat)
    requires Dedupe.Distinct(s) && k <= |s|
    ensures Dedupe.Distinct(s[..k]) && TopicSet(s[..k]) <= TopicSet(s)
  {
  }

  // ---------------------------------------------------------------- which failures matter

  /** The hub holds what the configuration asks for. */
  ghost predicate HubMatches(s: State) {
    s.world.topics == Wanted(s)
  }

  /** The watchers that run are the one the session knows of. */
  ghost predicate WatcherKnown(s: State) {
    s.world.watchers == if s.session.watcher.Some? then {s.session.watcher.value} else {}
  }

  /** Going through `count` topics from call n on, and back if one is refused. */
  predicate AddsOrTakesBack(env: Environment, n: nat, count: nat) {
    var k := TakenCount(env, n, count);
    k == count || AllTaken(env, n + k + 1, k)
  }

  /** The same, when all are taken but the watcher then cannot start. */
  predicate WatchesOrTakesBack(env: Environment, n: nat, count: nat) {
    n + count in env.watch ==> AllTaken(env, n + count + 1, count)
  }

  predicate StartSettles(p: Params, s: State) {
    var n, a := |s.world.calls|, |SubscriptionTopics(s.cfg.Routes())|;
    || s.session.started || !s.cfg.enabled || !p.hasBus || ((s.cfg.autoWatch || s.cfg.autoApply) && !p.hasClipboard)
    || (&& AddsOrTakesBack(p.env, n, a)
        && (TakenCount(p.env, n, a) == a && s.cfg.autoWatch ==> WatchesOrTakesBack(p.env, n, a)))
  }

  predicate StopSettles(p: Params, s: State) {
    Active(s) ==> AllTaken(p.env, |s.world.calls|, |SubscriptionTopics(s.cfg.Routes())|)
  }

  predicate RestoreSettles(p: Params, s: State) {
    var n, a := |s.world.calls|, |SubscriptionTopics(s.cfg.Routes())|;
    var k := TakenCount(p.env, n, a);
    Active(s) ==> k == a || NoneTaken(p.env, n + k + 1, k)
  }

  predicate ChangeSettles(p: Params, s: State, next: Config) {
    var n, a, d := |s.world.calls|, |TopicsToSubscribe(s.cfg, next)|, |TopicsToUnsubscribe(s.cfg, next)|;
    if TakenCount(p.env, n, a) < a then AddsOrTakesBack(p.env, n, a)
    else if StartsWatcher(s, next) && n + a in p.env.watch then WatchesOrTakesBack(p.env, n, a)
    else
      var m := n + a + if StartsWatcher(s, next) then 1 else 0;
      AllTaken(p.env, m, d) || (NoneTaken(p.env, m, d) && AllTaken(p.env, m + d, a))
  }

  /** The update is taken up at all: accepted, running, and with the adapters it needs. */
  predicate TakesUp(p: Params, s: State, c: Config) {
    && Normalized(c).Some? && s.session.started
    && (Normalized(c).value.enabled ==>
          p.hasBus && (Normalized(c).value.autoWatch || Normalized(c).value.autoApply ==> p.hasClipboard))
  }

  predicate UpdateSettles(p: Params, s: State, c: Config) {
    TakesUp(p, s, c) ==>
      if s.cfg.enabled && !Normalized(c).value.enabled then StopSettles(p, s)
      else ChangeSettles(p, s, Normalized(c).value)
  }

  /** The failing calls leave the hub with the topics asked for. */
  predicate Settles(p: Params, s: State, input: Input) {
    match input
    case StartInput => StartSettles(p, s)
    case StopInput(_) => StopSettles(p, s)
    case UpdateInput(c) => UpdateSettles(p, s, c)
    case RestoreInput => RestoreSettles(p, s)
    case ConnectionLost => Wanted(s) == {}
    case _ => true
  }

  // ---------------------------------------------------------------- each lifecycle call, exactly

  lemma StartExactly(p: Params, s: State)
    requires Exact(p, s) && Normal(s.cfg)
    ensures HubMatches(Start(p, s).state) <==> StartSettles(p, s)
    ensures SessionOk(p, Start(p, s).state)
  {
    hide SubscribeAll, UnsubscribeAll, SubscriptionTopics, TakenCount, AllTaken, Normal;
    var topics := SubscriptionTopics(s.cfg.Routes());
    var k := TakenCount(p.env, |s.world.calls|, |topics|);
    SubscribeAllCount(p.env, s.world, topics);
    var world := SubscribeAll(p.env, s.world, topics, []).0;
    NormalDistinct(s.cfg);
    PrefixDistinct(topics, k);
    if !s.session.started && s.cfg.enabled {
      assert Wanted(s) == {};
      TakenBack(p.env, world, topics[..k], {});
      if k == |topics| {
        assert topics[..k] == topics;
        TakenBack(p.env, Watching(p.env, world), topics, {});
      }
    }
  }

  lemma StopExactly(p: Params, s: State, closed: bool)
    requires Exact(p, s) && Normal(s.cfg)
    ensures HubMatches(Stop(p, s, closed).state) <==> StopSettles(p, s)
    ensures SessionOk(p, Stop(p, s, closed).state)
  {
    hide UnsubscribeAll, SubscriptionTopics, AllTaken, Normal;
    NormalDistinct(s.cfg);
    if Active(s) {
      TakenBack(p.env, s.world.(watchers := {}), SubscriptionTopics(s.cfg.Routes()), {});
    }
  }

  lemma DisableExactly(p: Params, s: State, next: Config)
    requires Exact(p, s) && Normal(s.cfg) && Active(s) && !next.enabled
    ensures HubMatches(Disable(p, s, next).state) <==> StopSettles(p, s)
    ensures SessionOk(p, Disable(p, s, next).state) && Disable(p, s, next).state.cfg == next
  {
    hide UnsubscribeAll, SubscriptionTopics, AllTaken, Normal;
    NormalDistinct(s.cfg);
    TakenBack(p.env, Cancelled(s.world, s.session.watcher), SubscriptionTopics(s.cfg.Routes()), {});
  }

  lemma RestoredExactly(p: Params, s: State)
    requires Exact(p, s) && Normal(s.cfg)
    ensures HubMatches(OnConnectivityRestored(p, s).state) <==> RestoreSettles(p, s)
    ensures SessionOk(p, OnConnectivityRestored(p, s).state)
  {
    hide SubscribeAll, UnsubscribeAll, SubscriptionTopics, TakenCount, NoneTaken, Normal;
    if Active(s) {
      var topics := SubscriptionTopics(s.cfg.Routes());
      var k := TakenCount(p.env, |s.world.calls|, |topics|);
      SubscribeAllCount(p.env, s.world, topics);
      var world := SubscribeAll(p.env, s.world, topics, []).0;
      NormalDistinct(s.cfg);
      PrefixDistinct(topics, k);
      UnsubscribeAllTopics(p.env, world, topics[..k], true);
      DroppedNone(p.env, |world.calls|, topics[..k]);
      DroppedAll(p.env, |world.calls|, topics[..k]);
    }
  }

  /** The last part of a change, from a hub that holds the old and the new topics. */
  lemma DropTopicsExactly(p: Params, previous: Config, next: Config, w: World, wanted: set<string>)
    requires !(previous.enabled && !next.enabled) && Normal(previous) && Normal(next)
    requires wanted == if previous.enabled then ConfigTopics(previous) else {}
    requires w.topics == wanted + TopicSet(TopicsToSubscribe(previous, next))
    ensures var a, d := |TopicsToSubscribe(previous, next)|, |TopicsToUnsubscribe(previous, next)|;
            var (v, ok) := DropTopics(p, previous, next, w);
            && v.watchers == w.watchers && (ok <==> AllTaken(p.env, |w.calls|, d))
            && (v.topics == (if !ok then wanted else if next.enabled then ConfigTopics(next) else {}) <==>
                AllTaken(p.env, |w.calls|, d) || (NoneTaken(p.env, |w.calls|, d) && AllTaken(p.env, |w.calls| + d, a)))
  {
    hide UnsubscribeAll, TopicsToSubscribe, TopicsToUnsubscribe, SubscriptionTopics, AllTaken, NoneTaken, Normal;
    var adding, dropping := TopicsToSubscribe(previous, next), TopicsToUnsubscribe(previous, next);
    ChangeSets(previous, next);
    ChangeDistinct(previous, next);
    var n := |w.calls|;
    UnsubscribeAllTopics(p.env, w, dropping, true);
    var mid := UnsubscribeAll(p.env, w, dropping, true).0;
    UnsubscribeAllTopics(p.env, mid, adding, true);
    DroppedNone(p.env, n, dropping);
    DroppedAll(p.env, n, dropping);
    DroppedAll(p.env, n + |dropping|, adding);
  }

  /** A change was to start or stop a watcher, got that far, and then an old topic could not be dropped. */
  predicate LosesWatcher(p: Params, s: State, next: Config) {
    var n, a, d := |s.world.calls|, |TopicsToSubscribe(s.cfg, next)|, |TopicsToUnsubscribe(s.cfg, next)|;
    var starts := StartsWatcher(s, next);
    && (starts || StopsWatcher(s, next))
    && TakenCount(p.env, n, a) == a
    && (starts ==> n + a !in p.env.watch)
    && !AllTaken(p.env, n + a + (if starts then 1 else 0), d)
  }

  /** What is known of the world when a change comes to drop the old topics. */
  lemma FinishExactly(p: Params, s: State, next: Config, world: World, watcher: Option<nat>)
    requires Exact(p, s) && s.session.started && !(s.cfg.enabled && !next.enabled) && Normal(s.cfg) && Normal(next)
    requires next.enabled ==> p.hasBus
    requires world.topics == Wanted(s) + TopicSet(TopicsToSubscribe(s.cfg, next))
    requires watcher.Some? <==> StartsWatcher(s, next)
    requires world.watchers == if watcher.Some? then {watcher.value} else if StopsWatcher(s, next) then {}
               else s.world.watchers
    ensures var n, a, d := |world.calls|, |TopicsToSubscribe(s.cfg, next)|, |TopicsToUnsubscribe(s.cfg, next)|;
            var t := FinishChange(p, s, next, world, watcher).state;
            && (HubMatches(t) <==> AllTaken(p.env, n, d) || (NoneTaken(p.env, n, d) && AllTaken(p.env, n + d, a)))
            && (WatcherKnown(t) <==> !((StartsWatcher(s, next) || StopsWatcher(s, next)) && !AllTaken(p.env, n, d)))
            && (WatcherKnown(t) ==> SessionOk(p, t))
  {
    hide DropTopics, TopicsToSubscribe, TopicsToUnsubscribe, SubscriptionTopics, AllTaken, NoneTaken, Normal;
    DropTopicsExactly(p, s.cfg, next, world, Wanted(s));
  }

  /** A change, exactly: which failing calls leave the hub wrong, and which lose the watcher. */
  lemma ChangeExactly(p: Params, s: State, next: Config)
    requires Exact(p, s) && s.session.started && !(s.cfg.enabled && !next.enabled) && Normal(s.cfg) && Normal(next)
    requires next.enabled ==> p.hasBus
    ensures var t := Change(p, s, next).state;
            && (HubMatches(t) <==> ChangeSettles(p, s, next))
            && (WatcherKnown(t) <==> !LosesWatcher(p, s, next))
            && (WatcherKnown(t) ==> SessionOk(p, t))
  {
    hide SubscribeAll, UnsubscribeAll, TopicsToSubscribe, TopicsToUnsubscribe, SubscriptionTopics, FinishChange,
        TakenCount,
         AllTaken, NoneTaken, Normal;
    var adding := TopicsToSubscribe(s.cfg, next);
    var k := TakenCount(p.env, |s.world.calls|, |adding|);
    SubscribeAllCount(p.env, s.world, adding);
    var world := SubscribeAll(p.env, s.world, adding, []).0;
    ChangeSets(s.cfg, next);
    ChangeDistinct(s.cfg, next);
    PrefixDistinct(adding, k);
    assert TopicSet(adding) !! Wanted(s);
    if k < |adding| {
      TakenBack(p.env, world, adding[..k], Wanted(s));
    } else {
      assert adding[..k] == adding;
      var quiet := if StopsWatcher(s, next) then Cancelled(world, s.session.watcher) else world;
      if !StartsWatcher(s, next) {
        FinishExactly(p, s, next, quiet, None);
      } else {
        var watched := Watching(p.env, quiet);
        TakenBack(p.env, watched, adding, Wanted(s));
        if |quiet.calls| !in p.env.watch {
          FinishExactly(p, s, next, watched, Some(|quiet.calls|));
        }
      }
    }
  }

  lemma UpdateExactly(p: Params, s: State, c: Config)
    requires Exact(p, s) && Normal(s.cfg)
    ensures var t := UpdateConfig(p, s, c).state;
            && (HubMatches(t) <==> UpdateSettles(p, s, c))
            && (Exact(p, t) <==> UpdateSettles(p, s, c) && KeepsWatcher(p, s, UpdateInput(c)))
            && Normal(t.cfg)
  {
    hide Normalized, Change, Disable, SubscriptionTopics, ChangeSettles, StopSettles, LosesWatcher, Normal;
    if Normalized(c).Some? {
      var next := Normalized(c).value;
      NormalizedIsNormal(c);
      if TakesUp(p, s, c) {
        if s.cfg.enabled && !next.enabled {
          DisableExactly(p, s, next);
        } else {
          ChangeExactly(p, s, next);
          ChangeConfig(p, s, next);
        }
      }
    }
  }

  lemma ChangeConfig(p: Params, s: State, next: Config)
    ensures Change(p, s, next).state.cfg == s.cfg || Change(p, s, next).state.cfg == next
  {
    hide SubscribeAll, UnsubscribeAll, TopicsToSubscribe, TopicsToUnsubscribe, DropTopics;
  }

  /** No failing call makes the session lose track of the clipboard watcher. */
  predicate KeepsWatcher(p: Params, s: State, input: Input) {
    input.UpdateInput? && TakesUp(p, s, input.cfg) && !(s.cfg.enabled && !Normalized(input.cfg).value.enabled) ==>
      !LosesWatcher(p, s, Normalized(input.cfg).value)
  }

  /**
   One step from a state in order, whatever fails: the hub ends with the topics asked for exactly when
   the failing calls settle, and everything is in order exactly when the watcher is kept as well.
   */
  lemma StepExactly(hash: HashFn, p: Params, s: State, input: Input)
    requires Exact(p, s) && Normal(s.cfg)
    ensures var t := Step(hash, p, s, input).state;
            && (HubMatches(t) <==> Settles(p, s, input))
            && (Exact(p, t) <==> Settles(p, s, input) && KeepsWatcher(p, s, input))
            && Normal(t.cfg)
  {
    hide Step, Start, Stop, UpdateConfig, OnConnectivityRestored, SubscriptionTopics, Normal, StartSettles, StopSettles,
         RestoreSettles, UpdateSettles, LosesWatcher, TakesUp;
    match input
    case StartInput =>
      StepIsStart(hash, p, s);
      StartExactly(p, s);
    case StopInput(closed) =>
      StepIsStop(hash, p, s, closed);
      StopExactly(p, s, closed);
    case UpdateInput(c) =>
      StepIsUpdate(hash, p, s, c);
      UpdateExactly(p, s, c);
    case RestoreInput =>
      StepIsRestore(hash, p, s);
      RestoredExactly(p, s);
    case ConnectionLost => StepIsLost(hash, p, s);
    case _ => HandlersKeep(hash, p, s, input);
  }

  /** The steps of a run all settle and keep the watcher. */
  predicate AllSettle(hash: HashFn, p: Params, s0: State, inputs: seq<Input>) {
    forall k :: 0 <= k < |inputs| ==>
      Settles(p, Run(hash, p, s0, inputs[..k]), inputs[k]) && KeepsWatcher(p, Run(hash, p, s0, inputs[..k]), inputs[k])
  }

  /** Every state of the run is in order. */
  ghost predicate AllExact(hash: HashFn, p: Params, s0: State, inputs: seq<Input>) {
    forall k :: 0 <= k <= |inputs| ==> Exact(p, Run(hash, p, s0, inputs[..k]))
  }

  lemma AllSettleStep(hash: HashFn, p: Params, s0: State, inputs: seq<Input>)
    requires inputs != []
    ensures var n, before := |inputs| - 1, inputs[..|inputs| - 1];
            AllSettle(hash, p, s0, inputs) <==>
            && AllSettle(hash, p, s0, before)
            && Settles(p, Run(hash, p, s0, before), inputs[n]) && KeepsWatcher(p, Run(hash, p, s0, before), inputs[n])
  {
    hide Run, Settles, KeepsWatcher;
    var n, before := |inputs| - 1, inputs[..|inputs| - 1];
    assert forall k :: 0 <= k < n ==> before[..k] == inputs[..k] && before[k] == inputs[k];
  }

  lemma AllExactStep(hash: HashFn, p: Params, s0: State, inputs: seq<Input>)
    requires inputs != []
    ensures var before := inputs[..|inputs| - 1];
            AllExact(hash, p, s0, inputs) <==> AllExact(hash, p, s0, before) && Exact(p, Run(hash, p, s0, inputs))
    ensures AllExact(hash, p, s0, inputs[..|inputs| - 1]) ==> Exact(p, Run(hash, p, s0, inputs[..|inputs| - 1]))
  {
    hide Run, Exact;
    var n, before := |inputs| - 1, inputs[..|inputs| - 1];
    assert before[..n] == before && inputs[..n + 1] == inputs;
    assert forall k :: 0 <= k <= n ==> before[..k] == inputs[..k];
  }

  /**
   Over whole runs, with any call failing: hub, session and watcher follow the configuration at every
   point if and only if the failing calls of every step settle and keep the watcher.
   */
  lemma {:induction false} RunExactly(hash: HashFn, p: Params, s0: State, inputs: seq<Input>)
    requires Exact(p, s0) && Normal(s0.cfg)
    ensures AllExact(hash, p, s0, inputs) <==> AllSettle(hash, p, s0, inputs)
    ensures AllExact(hash, p, s0, inputs) ==> Normal(Run(hash, p, s0, inputs).cfg)
  {
    hide Step, Exact, Normal, Settles, KeepsWatcher;
    if inputs == [] {
      assert inputs[..0] == inputs;
    } else {
      hide AllExact, AllSettle;
      var before := inputs[..|inputs| - 1];
      RunExactly(hash, p, s0, before);
      AllSettleStep(hash, p, s0, inputs);
      AllExactStep(hash, p, s0, inputs);
      if AllExact(hash, p, s0, before) {
        StepExactly(hash, p, Run(hash, p, s0, before), inputs[|inputs| - 1]);
      }
    }
  }

  // ---------------------------------------------------------------- what a failed call leaves behind

  /** The configuration asks for the topic. */
  predicate Asks(c: Config, t: string) {
    c.enabled && t in ConfigTopics(c)
  }

  /** No configuration the input may bring into force asks for t, and the connection stays. */
  predicate Ignores(input: Input, t: string) {
    && input != ConnectionLost
    && (input.UpdateInput? && Normalized(input.cfg).Some? ==> !Asks(Normalized(input.cfg).value, t))
  }

  /** Kept by every step: subscribed only while running and enabled. */
  predicate Orderly(s: State) {
    s.session.subscribed ==> Active(s)
  }

  lemma ChangeOrderly(p: Params, s: State, next: Config)
    requires Orderly(s) && s.session.started && !(s.cfg.enabled && !next.enabled)
    ensures Orderly(Change(p, s, next).state)
  {
    hide SubscribeAll, UnsubscribeAll, TopicsToSubscribe, TopicsToUnsubscribe, DropTopics;
  }

  lemma UpdateIgnores(p: Params, s: State, c: Config, t: string)
    requires Orderly(s) && !Asks(s.cfg, t) && Ignores(UpdateInput(c), t)
    ensures var after := UpdateConfig(p, s, c).state;
            (t in after.world.topics <==> t in s.world.topics) && !Asks(after.cfg, t) && Orderly(after)
  {
    hide Normalized, Change, SubscriptionTopics, TopicsToSubscribe, TopicsToUnsubscribe, UnsubscribeAll;
    if Normalized(c).Some? {
      var next := Normalized(c).value;
      if s.cfg.enabled && !next.enabled {
        UnsubscribeAllTopics(p.env, Cancelled(s.world, s.session.watcher), SubscriptionTopics(s.cfg.Routes()), true);
      } else {
        ChangeSets(s.cfg, next);
        assert t !in TopicSet(TopicsToSubscribe(s.cfg, next)) && t !in TopicSet(TopicsToUnsubscribe(s.cfg, next));
        ChangeUntouched(p, s, next, t);
        if s.session.started {
          ChangeOrderly(p, s, next);
          ChangeConfig(p, s, next);
        }
      }
    }
  }

  lemma LoopIgnores(env: Environment, w: World, topics: seq<string>, t: string)
    requires t !in topics
    ensures var (v, done, ok) := SubscribeAll(env, w, topics, []);
            && (t in v.topics <==> t in w.topics)
            && (t in UnsubscribeAll(env, v, done, true).0.topics <==> t in w.topics)
            && (t in UnsubscribeAll(env, Watching(env, v), done, true).0.topics <==> t in w.topics)
            && (t in UnsubscribeAll(env, w, topics, true).0.topics <==> t in w.topics)
  {
    hide SubscribeAll, UnsubscribeAll;
    SubscribeAllTopics(env, w, topics, []);
    var (v, done, ok) := SubscribeAll(env, w, topics, []);
    UnsubscribeAllTopics(env, v, done, true);
    UnsubscribeAllTopics(env, Watching(env, v), done, true);
    UnsubscribeAllTopics(env, w, topics, true);
  }

  lemma StepIgnores(hash: HashFn, p: Params, s: State, input: Input, t: string)
    requires Orderly(s) && !Asks(s.cfg, t) && Ignores(input, t)
    ensures var after := Step(hash, p, s, input).state;
            (t in after.world.topics <==> t in s.world.topics) && !Asks(after.cfg, t) && Orderly(after)
  {
    hide Step, UpdateConfig, SubscriptionTopics, SubscribeAll, UnsubscribeAll, Ignores;
    var topics := SubscriptionTopics(s.cfg.Routes());
    if s.cfg.enabled {
      LoopIgnores(p.env, s.world, topics, t);
      LoopIgnores(p.env, s.world.(watchers := {}), topics, t);
    }
    match input
    case UpdateInput(c) =>
      StepIsUpdate(hash, p, s, c);
      UpdateIgnores(p, s, c, t);
    case ConnectionLost => LostIsNotIgnored(t);
    case StartInput => StepIsStart(hash, p, s);
    case StopInput(closed) => StepIsStop(hash, p, s, closed);
    case RestoreInput => StepIsRestore(hash, p, s);
    case _ => HandlersKeep(hash, p, s, input);
  }

  lemma LostIsNotIgnored(t: string)
    ensures !Ignores(ConnectionLost, t)
  {
  }

  /**
   What is left over stays: a topic the hub holds and the configuration does not ask for is still there
   after any inputs that do not ask for it, whatever fails or succeeds; no later enable, change, stop or
   restore cleans it up.
   */
  lemma {:induction false} LeftoverStays(hash: HashFn, p: Params, s0: State, inputs: seq<Input>, t: string)
    requires Orderly(s0) && t in s0.world.topics && !Asks(s0.cfg, t)
    requires forall k :: 0 <= k < |inputs| ==> Ignores(inputs[k], t)
    ensures var s := Run(hash, p, s0, inputs); t in s.world.topics && !Asks(s.cfg, t) && Orderly(s)
  {
    hide Step, Asks, Ignores, Orderly;
    if inputs != [] {
      LeftoverStays(hash, p, s0, inputs[..|inputs| - 1], t);
      StepIgnores(hash, p, Run(hash, p, s0, inputs[..|inputs| - 1]), inputs[|inputs| - 1], t);
    }
  }

  /**
   Switching sync off, from a state in order: the hub keeps exactly the topics whose Unsubscribe was
   refused, and such a topic outlives every later enable that does not ask for it, even one that succeeds.
   */
  lemma DisableLeaves(p: Params, s: State, off: Config, on: Config, t: string)
    requires Exact(p, s) && Active(s)
    requires Normalized(off).Some? && !Normalized(off).value.enabled
    requires Normalized(on).Some? && !Asks(Normalized(on).value, t)
    ensures var kept := Wanted(s) - Dropped(p.env, |s.world.calls|, SubscriptionTopics(s.cfg.Routes()));
            var idle := UpdateConfig(p, s, off).state;
            idle.world.topics == kept && (t in UpdateConfig(p, idle, on).state.world.topics <==> t in kept)
  {
    hide Normalized, SubscriptionTopics, Change, UnsubscribeAll, ConfigTopics, Dropped;
    UnsubscribeAllTopics(p.env, Cancelled(s.world, s.session.watcher), SubscriptionTopics(s.cfg.Routes()), true);
    UpdateIgnores(p, UpdateConfig(p, s, off).state, on, t);
  }
}
