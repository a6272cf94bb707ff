/**
 When the lifecycle calls take effect: which failing calls make a start, a stop, a restore or an update
 report an error, and which configuration is in force, in one call and over whole runs.
 */
module Lifecycle {
  import opened Options
  import opened Text
  import opened Config
  import opened World
  import opened Topics
  import opened Sync
  import opened Subscriptions
  import opened HubFailures
  import opened Policy

  // ---------------------------------------------------------------- what it takes

  predicate StartWorks(p: Params, s: State) {
    var n, a := |s.world.calls|, |SubscriptionTopics(s.cfg.Routes())|;
    || s.session.started || !s.cfg.enabled
    || (&& p.hasBus && (s.cfg.autoWatch || s.cfg.autoApply ==> p.hasClipboard)
        && TakenCount(p.env, n, a) == a && (s.cfg.autoWatch ==> n + a !in p.env.watch))
  }

  /** `closed`: the clipboard closed without error. */
  predicate StopWorks(p: Params, s: State, closed: bool) {
    && (s.session.subscribed && p.hasBus ==>
          AllTaken(p.env, |s.world.calls|, |SubscriptionTopics(s.cfg.Routes())|))
    && (p.hasClipboard ==> closed)
  }

  predicate RestoreWorks(p: Params, s: State) {
    var n, a := |s.world.calls|, |SubscriptionTopics(s.cfg.Routes())|;
    Active(s) ==> p.hasBus && TakenCount(p.env, n, a) == a
  }

  /** Every new topic is taken, the watcher starts if one is to start, and every old topic is dropped. */
  predicate ChangeWorks(p: Params, s: State, next: Config) {
    var n, a, d := |s.world.calls|, |TopicsToSubscribe(s.cfg, next)|, |TopicsToUnsubscribe(s.cfg, next)|;
    var starts := StartsWatcher(s, next);
    && TakenCount(p.env, n, a) == a
    && (starts ==> n + a !in p.env.watch)
    && AllTaken(p.env, n + a + (if starts then 1 else 0), d)
  }

  /** The update switches sync off while it runs. */
  predicate SwitchesOff(p: Params, s: State, c: Config) {
    TakesUp(p, s, c) && s.cfg.enabled && !Normalized(c).value.enabled
  }

  predicate UpdateWorks(p: Params, s: State, c: Config) {
    && Normalized(c).Some?
    && (s.session.started ==>
          && TakesUp(p, s, c)
          && if SwitchesOff(p, s, c) then StopSettles(p, s) else ChangeWorks(p, s, Normalized(c).value))
  }

  /** Switching off takes the new configuration whatever the hub says. */
  predicate Adopts(p: Params, s: State, c: Config) {
    UpdateWorks(p, s, c) || SwitchesOff(p, s, c)
  }

  predicate BusWhenActive(p: Params, s: State) {
    Active(s) ==> p.hasBus
  }

  // ---------------------------------------------------------------- one call

  lemma StartTakesEffectExactly(p: Params, s: State)
    ensures var o := Start(p, s); (o.ok <==> StartWorks(p, s)) && (o.state.session.started <==> o.ok)
    ensures Start(p, s).state.cfg == s.cfg
  {
    hide SubscribeAll, UnsubscribeAll, SubscriptionTopics, TakenCount;
    SubscribeAllCount(p.env, s.world, SubscriptionTopics(s.cfg.Routes()));
  }

  lemma StopTakesEffectExactly(p: Params, s: State, closed: bool)
    ensures var o := Stop(p, s, closed); (o.ok <==> StopWorks(p, s, closed)) && o.state.session == Stopped()
    ensures Stop(p, s, closed).state.cfg == s.cfg
  {
    hide UnsubscribeAll, SubscriptionTopics, AllTaken;
    var world := if s.session.started then s.world.(watchers := {}) else s.world;
    UnsubscribeAllTopics(p.env, world, SubscriptionTopics(s.cfg.Routes()), true);
  }

  lemma RestoreTakesEffectExactly(p: Params, s: State)
    ensures var o := OnConnectivityRestored(p, s);
            && (o.ok <==> RestoreWorks(p, s)) && o.state.cfg == s.cfg
            && o.state.session == if o.ok && Active(s) then s.session.(subscribed := true) else s.session
  {
    hide SubscribeAll, UnsubscribeAll, SubscriptionTopics, TakenCount;
    SubscribeAllCount(p.env, s.world, SubscriptionTopics(s.cfg.Routes()));
  }

  lemma DropTopicsAnswer(p: Params, previous: Config, next: Config, w: World)
    ensures DropTopics(p, previous, next, w).1 <==> AllTaken(p.env, |w.calls|, |TopicsToUnsubscribe(previous, next)|)
  {
    hide UnsubscribeAll, TopicsToSubscribe, TopicsToUnsubscribe, AllTaken;
    UnsubscribeAllTopics(p.env, w, TopicsToUnsubscribe(previous, next), true);
  }

  lemma ChangeTakesEffectExactly(p: Params, s: State, next: Config)
    ensures var o := Change(p, s, next);
            && (o.ok <==> ChangeWorks(p, s, next))
            && o.state.cfg == (if o.ok then next else s.cfg)
            && o.state.session.started == s.session.started
  {
    hide SubscribeAll, UnsubscribeAll, TopicsToSubscribe, TopicsToUnsubscribe, DropTopics, TakenCount, AllTaken;
    var adding := TopicsToSubscribe(s.cfg, next);
    SubscribeAllCount(p.env, s.world, adding);
    var world := SubscribeAll(p.env, s.world, adding, []).0;
    var quiet := if StopsWatcher(s, next) then Cancelled(world, s.session.watcher) else world;
    DropTopicsAnswer(p, s.cfg, next, quiet);
    DropTopicsAnswer(p, s.cfg, next, Watching(p.env, quiet));
  }

  lemma DisableTakesEffectExactly(p: Params, s: State, next: Config)
    requires Active(s) && p.hasBus
    ensures var o := Disable(p, s, next);
            (o.ok <==> StopSettles(p, s)) && o.state.cfg == next && o.state.session.started == s.session.started
  {
    hide UnsubscribeAll, SubscriptionTopics, AllTaken;
    UnsubscribeAllTopics(p.env, Cancelled(s.world, s.session.watcher), SubscriptionTopics(s.cfg.Routes()), true);
  }

  /**
   An update reports success if and only if it is accepted, has the adapters it needs, and every call it makes
   is taken; then, or when it switches sync off, the new configuration is in force, and otherwise the old one is.
   */
  lemma UpdateTakesEffectExactly(p: Params, s: State, c: Config)
    requires BusWhenActive(p, s)
    ensures var o := UpdateConfig(p, s, c);
            && (o.ok <==> UpdateWorks(p, s, c))
            && (Adopts(p, s, c) ==> Normalized(c) == Some(o.state.cfg))
            && (!Adopts(p, s, c) ==> o.state.cfg == s.cfg)
            && o.state.session.started == s.session.started
  {
    hide Normalized, Change, Disable, ChangeWorks, StopSettles;
    if TakesUp(p, s, c) {
      if SwitchesOff(p, s, c) {
        DisableTakesEffectExactly(p, s, Normalized(c).value);
      } else {
        ChangeTakesEffectExactly(p, s, Normalized(c).value);
      }
    }
  }

  /** From a state in order, an update that reports success leaves all in order with the new configuration. */
  lemma UpdateMeans(p: Params, s: State, c: Config)
    requires Exact(p, s) && Normal(s.cfg) && UpdateConfig(p, s, c).ok
    ensures Exact(p, UpdateConfig(p, s, c).state) && Normalized(c) == Some(UpdateConfig(p, s, c).state.cfg)
  {
    hide Normalized, UpdateConfig, Normal, TopicsToSubscribe, TopicsToUnsubscribe, SubscriptionTopics, TakenCount,
         AllTaken, NoneTaken;
    UpdateTakesEffectExactly(p, s, c);
    UpdateExactly(p, s, c);
  }

  // ---------------------------------------------------------------- over whole runs

  /** The configuration of the last update that took hold. */
  function Adopted(hash: HashFn, p: Params, s0: State, inputs: seq<Input>): Config {
    if inputs == [] then s0.cfg
    else
      var before, input := inputs[..|inputs| - 1], inputs[|inputs| - 1];
      if input.UpdateInput? && Normalized(input.cfg).Some? && Adopts(p, Run(hash, p, s0, before), input.cfg)
        then Normalized(input.cfg).value
      else Adopted(hash, p, s0, before)
  }

  /** Started by a start that worked, and not stopped since. */
  predicate Running(hash: HashFn, p: Params, s0: State, inputs: seq<Input>) {
    if inputs == [] then s0.session.started
    else
      var before, input := inputs[..|inputs| - 1], inputs[|inputs| - 1];
      match input
      case StartInput => StartWorks(p, Run(hash, p, s0, before))
      case StopInput(_) => false
      case _ => Running(hash, p, s0, before)
  }

  /** What a step does to the configuration in force and to whether the runtime is started. */
  ghost predicate TakesEffect(p: Params, s: State, input: Input, t: State) {
    && BusWhenActive(p, t)
    && (t.session.started <==>
          if input.StartInput? then StartWorks(p, s) else !input.StopInput? && s.session.started)
    && (input.UpdateInput? && Adopts(p, s, input.cfg) ==> Normalized(input.cfg) == Some(t.cfg))
    && (!(input.UpdateInput? && Adopts(p, s, input.cfg)) ==> t.cfg == s.cfg)
  }

  lemma StartEffective(p: Params, s: State)
    requires BusWhenActive(p, s)
    ensures TakesEffect(p, s, StartInput, Start(p, s).state)
  {
    hide Start, StartWorks, Adopts;
    StartTakesEffectExactly(p, s);
    if StartWorks(p, s) && s.cfg.enabled { StartNeedsBus(p, s); }
  }

  lemma UpdateEffective(p: Params, s: State, c: Config)
    requires BusWhenActive(p, s)
    ensures TakesEffect(p, s, UpdateInput(c), UpdateConfig(p, s, c).state)
  {
    hide UpdateConfig, Normalized, Adopts;
    UpdateTakesEffectExactly(p, s, c);
    if Adopts(p, s, c) { UpdateNeedsBus(p, s, c); }
  }

  lemma UpdateNeedsBus(p: Params, s: State, c: Config)
    requires Adopts(p, s, c)
    ensures Normalized(c).Some? && (s.session.started && Normalized(c).value.enabled ==> p.hasBus)
  {
    hide Normalized, ChangeWorks, StopSettles;
  }

  /** No other step changes the configuration or starts or stops the runtime. */
  lemma RestEffective(p: Params, s: State, input: Input, t: State)
    requires BusWhenActive(p, s) && t.cfg == s.cfg && !input.StartInput? && !input.UpdateInput?
    requires t.session.started <==> !input.StopInput? && s.session.started
    ensures TakesEffect(p, s, input, t)
  {
  }

  lemma StepTakesEffect(hash: HashFn, p: Params, s: State, input: Input)
    requires BusWhenActive(p, s)
    ensures TakesEffect(p, s, input, Step(hash, p, s, input).state)
  {
    hide Step, Start, Stop, UpdateConfig, OnConnectivityRestored, TakesEffect, BusWhenActive, StopWorks, RestoreWorks;
    var t := Step(hash, p, s, input).state;
    match input
    case StartInput =>
      StepIsStart(hash, p, s);
      StartEffective(p, s);
    case StopInput(closed) =>
      StepIsStop(hash, p, s, closed);
      StopTakesEffectExactly(p, s, closed);
      RestEffective(p, s, input, t);
    case UpdateInput(c) =>
      StepIsUpdate(hash, p, s, c);
      UpdateEffective(p, s, c);
    case RestoreInput =>
      StepIsRestore(hash, p, s);
      RestoreTakesEffectExactly(p, s);
      RestEffective(p, s, input, t);
    case ConnectionLost =>
      StepIsLost(hash, p, s);
      RestEffective(p, s, input, t);
    case _ =>
      HandlersKeep(hash, p, s, input);
      RestEffective(p, s, input, t);
  }

  lemma StartNeedsBus(p: Params, s: State)
    requires BusWhenActive(p, s) && StartWorks(p, s) && s.cfg.enabled
    ensures p.hasBus
  {
    hide SubscriptionTopics, TakenCount;
  }

  /** Over every run: the configuration in force is that of the last update that took hold, and it runs as it should. */
  lemma {:induction false} ConfigIsLastAdopted(hash: HashFn, p: Params, s0: State, inputs: seq<Input>)
    requires BusWhenActive(p, s0)
    ensures var s := Run(hash, p, s0, inputs);
            && BusWhenActive(p, s) && s.cfg == Adopted(hash, p, s0, inputs)
            && (s.session.started <==> Running(hash, p, s0, inputs))
  {
    hide Step, Normalized, Adopts, StartWorks;
    if inputs != [] {
      ConfigIsLastAdopted(hash, p, s0, inputs[..|inputs| - 1]);
      StepTakesEffect(hash, p, Run(hash, p, s0, inputs[..|inputs| - 1]), inputs[|inputs| - 1]);
      AdoptedIsValid(p, Run(hash, p, s0, inputs[..|inputs| - 1]), inputs[|inputs| - 1]);
    }
  }

  lemma AdoptedIsValid(p: Params, s: State, input: Input)
    ensures input.UpdateInput? && Adopts(p, s, input.cfg) ==> Normalized(input.cfg).Some?
  {
    hide Normalized, ChangeWorks, StopSettles;
  }
}
