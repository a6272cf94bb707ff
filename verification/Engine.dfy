/**
 The engine: one hub client and at most one runtime. What the runtime's own calls answer is an input
 here; `RuntimeAnswers` ties it to the runtime of Sync.
 */
module Engine {
  import opened Options
  import opened Text
  import opened Config
  import opened Transport
  import Sync
  import Topics
  import World

  /** The running runtime: the configuration it works with and the node it acts as. */
  datatype Running = Running(cfg: Config, nodeID: nat)

  datatype State = State(cfg: Config, started: bool, runtime: Option<Running>, hub: Hub)

  /** How the runtime takes a new configuration: a failed update may or may not have replaced the old one. */
  datatype UpdateAnswer = Updated | KeptOld | TookNew

  function NewRuntime(cfg: Config, nodeID: nat): Option<Running> {
    if nodeID == 0 || Normalized(cfg).None? then None else Some(Running(Normalized(cfg).value, nodeID))
  }

  /** After a successful connect every failure closes the client again. */
  function AfterStart(e: State, a: Attempt, runtimeStarts: bool, cleanupSaves: bool): (State, bool) {
    if e.started then (e, true)
    else
      var (linked, isLinked) := Connected(e.hub, e.cfg.parentEndpoint, a);
      if !isLinked then (e.(hub := linked), false)
      else
        var (known, isKnown) := Identified(linked, e.cfg.deviceID, a);
        var runtime := NewRuntime(e.cfg, known.auth.nodeID);
        if !isKnown || runtime.None? || !runtimeStarts then (e.(hub := Closed(known, cleanupSaves)), false)
        else (State(e.cfg, true, runtime, known), true)
  }

  function AfterStop(e: State, runtimeStops: bool, closeSaves: bool): (State, bool) {
    (State(e.cfg, false, None, Closed(e.hub, closeSaves)), (e.runtime.None? || runtimeStops) && closeSaves)
  }

  function Replaced(r: Running, next: Config, answer: UpdateAnswer): Running {
    if answer.KeptOld? then r else r.(cfg := next)
  }

  function AfterUpdate(e: State, c: Config, runtimeStops: bool, closeSaves: bool, clearSaves: bool,
                       answer: UpdateAnswer): (State, bool) {
    match Normalized(c)
    case None => (e, false)
    case Some(next) =>
      if e.cfg.deviceID != next.deviceID then
        var (stopped, ok) := AfterStop(e, runtimeStops, closeSaves);
        if !ok then (stopped, false)
        else
          var cleared := stopped.(hub := Forgotten(stopped.hub, clearSaves));
          if clearSaves then (cleared.(cfg := next), true) else (cleared, false)
      else
        match e.runtime
        case None => (e.(cfg := next), true)
        case Some(r) => (e.(cfg := next, runtime := Some(Replaced(r, next, answer))), answer.Updated?)
  }

  class Engine {
    const transport: Client
    var cfg: Config
    var started: bool
    var runtime: Option<Running>

    ghost function Model(): State
      reads this, transport
    {
      State(cfg, started, runtime, transport.Model())
    }

    constructor (cfg: Config, transport: Client)
      ensures this.transport == transport
      ensures Model() == State(cfg, false, None, transport.Model())
    {
      this.cfg, this.transport := cfg, transport;
      started, runtime := false, None;
    }

    method Start(a: Attempt, runtimeStarts: bool, cleanupSaves: bool) returns (ok: bool)
      modifies this, transport
      ensures (Model(), ok) == AfterStart(old(Model()), a, runtimeStarts, cleanupSaves)
    {
      hide Connected, Identified, Closed, Normalized;
      if started {
        return true;
      }
      var linked := transport.Connect(cfg.parentEndpoint, a);
      if !linked {
        return false;
      }
      var known := transport.EnsureIdentity(cfg.deviceID, a);
      if known {
        var rt := NewRuntime(cfg, transport.auth.nodeID);
        if rt.Some? && runtimeStarts {
          runtime := rt;
          started := true;
          return true;
        }
      }
      var _ := transport.Close(cleanupSaves);
      ok := false;
    }

    method Stop(runtimeStops: bool, closeSaves: bool) returns (ok: bool)
      modifies this, transport
      ensures (Model(), ok) == AfterStop(old(Model()), runtimeStops, closeSaves)
    {
      hide Closed;
      var hadRuntime := runtime.Some?;
      runtime, started := None, false;
      var closed := transport.Close(closeSaves);
      ok := !(hadRuntime && !runtimeStops) && closed;
    }

    method UpdateConfig(c: Config, runtimeStops: bool, closeSaves: bool, clearSaves: bool,
                        answer: UpdateAnswer) returns (ok: bool)
      modifies this, transport
      ensures (Model(), ok) == AfterUpdate(old(Model()), c, runtimeStops, closeSaves, clearSaves, answer)
    {
      hide Closed, Forgotten, Normalized;
      var next := NormalizeConfig(c);
      if next.None? {
        return false;
      }
      if cfg.deviceID != next.value.deviceID {
        var stopped := Stop(runtimeStops, closeSaves);
        if !stopped {
          return false;
        }
        var cleared := transport.ClearAuth(clearSaves);
        if !cleared {
          return false;
        }
        cfg := next.value;
        return true;
      }
      cfg := next.value;
      if runtime.Some? {
        runtime := Some(Replaced(runtime.value, next.value, answer));
        return answer.Updated?;
      }
      ok := true;
    }
  }

  // ---------------------------------------------------------------- the runtime's part

  /** The three answers are the only ones the runtime gives, and a refusal can be of both kinds. */
  lemma RuntimeAnswers(p: Sync.Params, s: Sync.State, c: Config)
    ensures var o := Sync.UpdateConfig(p, s, c);
            && (o.ok ==> Normalized(c) == Some(o.state.cfg))
            && (o.state.cfg == s.cfg || Normalized(c) == Some(o.state.cfg))
    ensures s.cfg.enabled && s.session.started && Normalized(c).Some? && !Normalized(c).value.enabled ==>
              Normalized(c) == Some(Sync.UpdateConfig(p, s, c).state.cfg)
  {
    hide Normalized, World.SubscribeAll, World.UnsubscribeAll, Topics.TopicsToSubscribe, Topics.TopicsToUnsubscribe,
         Topics.SubscriptionTopics;
  }

  // ---------------------------------------------------------------- runs

  datatype Input =
    | StartInput(attempt: Attempt, runtimeStarts: bool, cleanupSaves: bool)
    | StopInput(runtimeStops: bool, closeSaves: bool)
    | UpdateInput(cfg: Config, runtimeStops: bool, closeSaves: bool, clearSaves: bool, answer: UpdateAnswer)
    | SessionLost
    | Restarted(cfg: Config)

  /** A new process reads the configuration and the snapshot; the requests sent so far are history. */
  function Reopened(e: State, c: Config): State {
    match Normalized(c)
    case None => e
    case Some(next) => State(next, false, None, Opened(e.hub.snapshot).(requests := e.hub.requests))
  }

  function Step(e: State, input: Input): State {
    match input
    case StartInput(a, runtimeStarts, cleanupSaves) => AfterStart(e, a, runtimeStarts, cleanupSaves).0
    case StopInput(runtimeStops, closeSaves) => AfterStop(e, runtimeStops, closeSaves).0
    case UpdateInput(c, runtimeStops, closeSaves, clearSaves, answer) =>
      AfterUpdate(e, c, runtimeStops, closeSaves, clearSaves, answer).0
    case SessionLost => e.(hub := e.hub.(connected := false))
    case Restarted(c) => Reopened(e, c)
  }

  function Run(e: State, inputs: seq<Input>): State {
    if inputs == [] then e else Step(Run(e, inputs[..|inputs| - 1]), inputs[|inputs| - 1])
  }

  /** Disconnected, logged out, no runtime. */
  ghost predicate Down(e: State) {
    !e.started && e.runtime.None? && !e.hub.connected && e.hub.endpoint == "" && !e.hub.auth.loggedIn
  }

  /** The client is logged in as the configured device, and the runtime acts as the node it logged in as. */
  ghost predicate Up(e: State) {
    && e.started && e.runtime.Some? && e.hub.auth.loggedIn && e.hub.endpoint != ""
    && e.hub.auth.nodeID == e.runtime.value.nodeID != 0
    && e.hub.auth.deviceID == e.cfg.deviceID == e.runtime.value.cfg.deviceID
  }

  ghost predicate EngineOk(e: State, origin: Option<AuthState>) {
    (Down(e) || Up(e)) && Normalized(e.cfg) == Some(e.cfg) && Honest(e.hub, origin)
  }

  lemma DeviceTrimmed(c: Config)
    requires Normalized(c).Some?
    ensures var n := Normalized(c).value;
            n.deviceID != "" && Trimmed(n.deviceID) && n.parentEndpoint != "" && Trimmed(n.parentEndpoint)
            && Normalized(n) == Some(n)
  {
    NormalizedIsNormal(c);
    NormalizeIdempotent(c);
  }

  /** Connecting from nothing changes no identity. */
  lemma ConnectedFromDown(h: Hub, endpoint: string, a: Attempt)
    requires !h.connected && h.endpoint == "" && Trimmed(endpoint) && endpoint != ""
    ensures var (t, ok) := Connected(h, endpoint, a);
            && t.auth == h.auth && t.snapshot == h.snapshot && t.requests == h.requests
            && (if ok then t.endpoint == endpoint else t == h)
  {
  }

  lemma IdentifiedEndpoint(h: Hub, deviceID: string, a: Attempt)
    ensures Identified(h, deviceID, a).0.endpoint == h.endpoint
  {
    hide TrimSpace;
  }

  /**
   A start from rest either ends up, by a login of the configured device that the hub accepted during
   this very call, or is down again: disconnected and logged out, even if the snapshot could not be saved.
   */
  lemma StartEndsUpOrDown(e: State, origin: Option<AuthState>, a: Attempt, runtimeStarts: bool, cleanupSaves: bool)
    requires EngineOk(e, origin) && Down(e)
    ensures var (t, ok) := AfterStart(e, a, runtimeStarts, cleanupSaves);
            && (ok <==> Up(t)) && (!ok <==> Down(t))
            && (ok ==> JustLoggedIn(e.hub, t.hub, e.cfg.deviceID) && t.hub.endpoint == e.cfg.parentEndpoint)
            && t.cfg == e.cfg
            && Honest(t.hub, origin)
  {
    hide Connected, Identified, Normalized, Honest, JustLoggedIn;
    DeviceTrimmed(e.cfg);
    ConnectedFromDown(e.hub, e.cfg.parentEndpoint, a);
    var (linked, isLinked) := Connected(e.hub, e.cfg.parentEndpoint, a);
    SameHonest(e.hub, linked, origin);
    IdentifiedMeans(linked, e.cfg.deviceID, a);
    IdentifiedHonest(linked, origin, e.cfg.deviceID, a);
    IdentifiedEndpoint(linked, e.cfg.deviceID, a);
    var known := Identified(linked, e.cfg.deviceID, a).0;
    SameHonest(known, Closed(known, cleanupSaves), origin);
    SameRequests(e.hub, linked, known, e.cfg.deviceID);
  }

  lemma SameRequests(h: Hub, linked: Hub, t: Hub, device: string)
    requires h.requests == linked.requests
    ensures JustLoggedIn(linked, t, device) <==> JustLoggedIn(h, t, device)
  {
  }

  /** After a stop the client is down, whatever failed. */
  lemma StopEndsDown(e: State, origin: Option<AuthState>, runtimeStops: bool, closeSaves: bool)
    requires EngineOk(e, origin)
    ensures var t := AfterStop(e, runtimeStops, closeSaves).0; Down(t) && t.cfg == e.cfg && Honest(t.hub, origin)
  {
    hide Honest, Normalized;
    SameHonest(e.hub, Closed(e.hub, closeSaves), origin);
  }

  /**
   A change of device takes effect exactly when the old session could be stopped and forgotten; then
   nothing of the old identity is left. Otherwise the old device stays configured, and nothing runs.
   */
  lemma DeviceChangeExactly(e: State, origin: Option<AuthState>, c: Config, runtimeStops: bool, closeSaves: bool,
                            clearSaves: bool, answer: UpdateAnswer)
    requires EngineOk(e, origin) && Normalized(c).Some? && Normalized(c).value.deviceID != e.cfg.deviceID
    ensures var (t, ok) := AfterUpdate(e, c, runtimeStops, closeSaves, clearSaves, answer);
            && Down(t) && Honest(t.hub, origin)
            && (ok <==> (e.runtime.None? || runtimeStops) && closeSaves && clearSaves)
            && (ok <==> t.cfg.deviceID == Normalized(c).value.deviceID)
            && t.cfg == (if ok then Normalized(c).value else e.cfg)
            && (ok ==> t.hub.auth == NO_AUTH && t.hub.snapshot == Some(NO_AUTH))
  {
    hide Honest, Normalized;
    StopEndsDown(e, origin, runtimeStops, closeSaves);
    var closed := Closed(e.hub, closeSaves);
    SameHonest(closed, Forgotten(closed, clearSaves), origin);
  }

  lemma StepOk(e: State, origin: Option<AuthState>, input: Input)
    requires EngineOk(e, origin)
    ensures EngineOk(Step(e, input), origin)
  {
    hide Honest, Normalized, AfterStart, Opened;
    match input
    case StartInput(a, runtimeStarts, cleanupSaves) =>
      if e.started { StartedAlready(e, a, runtimeStarts, cleanupSaves); }
      else { StartEndsUpOrDown(e, origin, a, runtimeStarts, cleanupSaves); }
    case StopInput(runtimeStops, closeSaves) => StopEndsDown(e, origin, runtimeStops, closeSaves);
    case UpdateInput(c, runtimeStops, closeSaves, clearSaves, answer) =>
      if Normalized(c).Some? {
        DeviceTrimmed(c);
        if Normalized(c).value.deviceID != e.cfg.deviceID {
          DeviceChangeExactly(e, origin, c, runtimeStops, closeSaves, clearSaves, answer);
        }
      }
    case SessionLost => SameHonest(e.hub, e.hub.(connected := false), origin);
    case Restarted(c) => if Normalized(c).Some? { DeviceTrimmed(c); ReopenedHonest(e.hub, origin); }
  }

  lemma StartedAlready(e: State, a: Attempt, runtimeStarts: bool, cleanupSaves: bool)
    requires e.started
    ensures AfterStart(e, a, runtimeStarts, cleanupSaves) == (e, true)
  {
  }

  lemma ReopenedHonest(h: Hub, origin: Option<AuthState>)
    requires Honest(h, origin)
    ensures var t := Opened(h.snapshot).(requests := h.requests);
            Honest(t, origin) && !t.connected && t.endpoint == "" && !t.auth.loggedIn
  {
    hide TrimSpace;
  }

  /** An engine just made, with whatever snapshot was found on disk. */
  function Created(c: Config, snapshot: Option<AuthState>): Option<State> {
    match Normalized(c)
    case None => None
    case Some(cfg) => Some(State(cfg, false, None, Opened(snapshot)))
  }

  lemma HonestReplied(h: Hub, origin: Option<AuthState>)
    requires Honest(h, origin)
    ensures h.auth.loggedIn ==> Replied(h, h.auth)
  {
  }

  /**
   Every run of starts, stops, updates, lost sessions and restarts, whatever fails: the engine is up
   or down and nothing in between; while up, client, configuration and runtime agree on the device
   and the node; and every login ever sent was for a node number granted to that very device. Logged in,
   device, node, hub and role are those of one answer the hub gave.
   */
  lemma {:induction false} IdentityInvariant(c: Config, snapshot: Option<AuthState>, inputs: seq<Input>)
    requires Created(c, snapshot).Some?
    ensures EngineOk(Run(Created(c, snapshot).value, inputs), snapshot)
    ensures var hub := Run(Created(c, snapshot).value, inputs).hub; hub.auth.loggedIn ==> Replied(hub, hub.auth)
  {
    hide Step, Normalized, Honest;
    var e := Created(c, snapshot).value;
    if inputs == [] {
      DeviceTrimmed(c);
      OpenedHonest(snapshot);
    } else {
      IdentityInvariant(c, snapshot, inputs[..|inputs| - 1]);
      StepOk(Run(e, inputs[..|inputs| - 1]), snapshot, inputs[|inputs| - 1]);
    }
    HonestReplied(Run(e, inputs).hub, snapshot);
  }

  /**
   A new hub address is taken into the configuration at once, but a running engine stays where it is: it
   is still connected to the configured hub if and only if the address did not change.
   */
  lemma EndpointFollowedExactly(e: State, origin: Option<AuthState>, c: Config, runtimeStops: bool, closeSaves: bool,
                                clearSaves: bool, answer: UpdateAnswer)
    requires EngineOk(e, origin) && Up(e) && e.hub.endpoint == e.cfg.parentEndpoint
    requires Normalized(c).Some? && Normalized(c).value.deviceID == e.cfg.deviceID
    ensures var t := AfterUpdate(e, c, runtimeStops, closeSaves, clearSaves, answer).0;
            && Up(t) && t.hub == e.hub
            && (t.hub.endpoint == t.cfg.parentEndpoint <==> Normalized(c).value.parentEndpoint == e.cfg.parentEndpoint)
  {
    hide Normalized, Honest;
  }

  const GRANTED := Accepted(1, 1, "")

  /** Everything goes well. */
  const SMOOTHLY := Attempt(true, true, true, true, true, GRANTED, true, true, true, GRANTED, true)

  lemma IdentifiedSmoothly(h: Hub, device: string)
    requires h.auth == NO_AUTH && h.connected && device != "" && Trimmed(device)
    ensures Identified(h, device, SMOOTHLY).1 && Identified(h, device, SMOOTHLY).0.auth.nodeID == 1
  {
    assert TrimSpace("") == "";
    hide TrimSpace;
  }

  /** A first start that meets no failure. */
  lemma StartsSmoothly(c: Config)
    requires Normalized(c).Some?
    ensures var e := Created(c, None).value;
            var up := AfterStart(e, SMOOTHLY, true, true).0;
            && EngineOk(up, None) && Up(up) && up.cfg == e.cfg == Normalized(c).value
            && up.runtime.value.cfg == e.cfg && up.hub.endpoint == e.cfg.parentEndpoint
  {
    hide Normalized, Honest, Identified, JustLoggedIn;
    var e := Created(c, None).value;
    DeviceTrimmed(c);
    IdentityInvariant(c, None, []);
    StartEndsUpOrDown(e, None, SMOOTHLY, true, true);
    ConnectedFromDown(e.hub, e.cfg.parentEndpoint, SMOOTHLY);
    IdentifiedSmoothly(Connected(e.hub, e.cfg.parentEndpoint, SMOOTHLY).0, e.cfg.deviceID);
  }

  /** Reachable: a first start succeeds, and a new hub address then leaves the engine connected to the old one. */
  lemma EndpointGoesStale(c: Config, next: Config)
    requires Normalized(c).Some? && Normalized(next).Some?
    requires Normalized(next).value.deviceID == Normalized(c).value.deviceID
    requires Normalized(next).value.parentEndpoint != Normalized(c).value.parentEndpoint
    ensures Created(c, None).Some?
    ensures var t := Run(Created(c, None).value, [StartInput(SMOOTHLY, true, true),
              UpdateInput(next, true, true, true, Updated)]);
            Up(t) && t.hub.endpoint != t.cfg.parentEndpoint
  {
    hide Normalized, Honest, AfterStart, AfterUpdate;
    var e := Created(c, None).value;
    var start, update := StartInput(SMOOTHLY, true, true), UpdateInput(next, true, true, true, Updated);
    StartsSmoothly(c);
    var up := AfterStart(e, SMOOTHLY, true, true).0;
    assert [start, update][..1] == [start] && [start][..0] == [];
    assert Run(e, [start]) == up;
    EndpointFollowedExactly(up, None, next, true, true, true, Updated);
  }

  /**
   A start from rest succeeds if and only if the hub is reached, the device is identified there with a node
   number, and the runtime starts.
   */
  lemma StartSucceedsExactly(e: State, origin: Option<AuthState>, a: Attempt, runtimeStarts: bool, cleanupSaves: bool)
    requires EngineOk(e, origin) && Down(e)
    ensures var device := e.cfg.deviceID;
            AfterStart(e, a, runtimeStarts, cleanupSaves).1 <==>
            && a.connects && (Stale(e.hub.auth, device) ==> a.clearSaves) && runtimeStarts
            && LoginGoes(true, a) && a.login.nodeID != 0
            && (!Remembered(e.hub, device) ==>
                  a.staysForRegister && a.hasKeys && a.register.Accepted? && a.register.nodeID != 0)
  {
    hide Normalized, Honest, Identified, Stale, Connected, JustLoggedIn;
    DeviceTrimmed(e.cfg);
    ConnectedExactly(e.hub, e.cfg.parentEndpoint, a);
    var linked := Connected(e.hub, e.cfg.parentEndpoint, a).0;
    IdentifiedExactly(linked, e.cfg.deviceID, a);
    IdentifiedMeans(linked, e.cfg.deviceID, a);
    if Identified(linked, e.cfg.deviceID, a).1 {
      FreshLoginNode(linked, e.cfg.deviceID, a);
    }
  }

  /** The node number after a login just now is the one its answer gave. */
  lemma FreshLoginNode(h: Hub, device: string, a: Attempt)
    requires Identified(h, device, a).1 && !h.auth.loggedIn && Trimmed(device)
    ensures a.login.Accepted? && Identified(h, device, a).0.auth.nodeID == a.login.nodeID
  {
    hide TrimSpace;
  }

  /**
   The answer to an update, and what it leaves: a refused configuration changes nothing, one for the same device
   is in force at once whatever the runtime answers, and the runtime then has it unless it kept the old one.
   */
  lemma UpdateAnswersExactly(e: State, c: Config, runtimeStops: bool, closeSaves: bool, clearSaves: bool,
                             answer: UpdateAnswer)
    ensures var (t, ok) := AfterUpdate(e, c, runtimeStops, closeSaves, clearSaves, answer);
            && (Normalized(c).None? ==> t == e && !ok)
            && (Normalized(c).Some? && Normalized(c).value.deviceID == e.cfg.deviceID ==>
                  && t.cfg == Normalized(c).value && t.started == e.started && t.hub == e.hub
                  && (ok <==> e.runtime.None? || answer.Updated?)
                  && (t.runtime.Some? <==> e.runtime.Some?)
                  && (t.runtime.Some? ==>
                        && t.runtime.value.nodeID == e.runtime.value.nodeID
                        && t.runtime.value.cfg == if answer.KeptOld? then e.runtime.value.cfg else Normalized(c).value))
            && (Normalized(c).Some? && Normalized(c).value.deviceID != e.cfg.deviceID ==>
                  && !t.started && t.runtime.None?
                  && (ok <==> (e.runtime.None? || runtimeStops) && closeSaves && clearSaves)
                  && t.cfg == if ok then Normalized(c).value else e.cfg)
  {
    hide Normalized, Closed, Forgotten;
  }

  // ---------------------------------------------------------------- the engine's and the runtime's configuration

  /** A running runtime works with the configuration the engine shows. */
  ghost predicate InStep(e: State) {
    e.runtime.Some? ==> e.runtime.value.cfg == e.cfg
  }

  /** An update the engine takes and the running runtime, with another configuration, refuses. */
  ghost predicate Refused(e: State, input: Input) {
    && input.UpdateInput? && Normalized(input.cfg).Some? && Normalized(input.cfg).value.deviceID == e.cfg.deviceID
    && e.runtime.Some? && input.answer.KeptOld? && e.runtime.value.cfg != Normalized(input.cfg).value
  }

  /** Nothing runs afterwards, or an update took hold. */
  ghost predicate Settles(e: State, input: Input) {
    || input.StopInput?
    || ((input.UpdateInput? || input.Restarted?) && Normalized(input.cfg).Some? && !Refused(e, input))
  }

  /** One step: the two agree afterwards iff this was no refused update and they agreed before or it settled them. */
  lemma InStepExactly(e: State, origin: Option<AuthState>, input: Input)
    requires EngineOk(e, origin)
    ensures InStep(Step(e, input)) <==> !Refused(e, input) && (InStep(e) || Settles(e, input))
  {
    hide Normalized, Honest, Closed, Forgotten, Opened, AfterStart;
    if input.StartInput? {
      StartInStep(e, origin, input.attempt, input.runtimeStarts, input.cleanupSaves);
    }
  }

  lemma StartInStep(e: State, origin: Option<AuthState>, a: Attempt, runtimeStarts: bool, cleanupSaves: bool)
    requires EngineOk(e, origin)
    ensures InStep(AfterStart(e, a, runtimeStarts, cleanupSaves).0) <==> InStep(e)
  {
    hide Normalized, Honest, Closed, Connected, Identified;
  }

  /** The engine shows a configuration its runtime refused at input k, and nothing settled it since. */
  ghost predicate LeftApart(e0: State, inputs: seq<Input>, k: nat) {
    && k < |inputs| && Refused(Run(e0, inputs[..k]), inputs[k])
    && forall j :: k < j < |inputs| ==> !Settles(Run(e0, inputs[..j]), inputs[j])
  }

  /**
   Over every run: engine and runtime have the same configuration unless some update was refused by the
   runtime alone, and only then if no later stop, restart or update settled it.
   */
  lemma {:induction false} InStepOverRuns(c: Config, snapshot: Option<AuthState>, inputs: seq<Input>)
    requires Created(c, snapshot).Some?
    ensures var e0 := Created(c, snapshot).value;
            InStep(Run(e0, inputs)) <==> !exists k: nat :: LeftApart(e0, inputs, k)
  {
    hide Step, Normalized, EngineOk, Refused, Settles, LeftApart;
    var e0 := Created(c, snapshot).value;
    if inputs == [] {
      NothingApart(e0);
    } else {
      var before, input := inputs[..|inputs| - 1], inputs[|inputs| - 1];
      InStepOverRuns(c, snapshot, before);
      IdentityInvariant(c, snapshot, before);
      InStepExactly(Run(e0, before), snapshot, input);
      ApartExtends(e0, inputs);
    }
  }

  lemma NothingApart(e0: State)
    ensures forall k: nat :: !LeftApart(e0, [], k)
  {
  }

  lemma ApartExtends(e0: State, inputs: seq<Input>)
    requires inputs != []
    ensures var before, input := inputs[..|inputs| - 1], inputs[|inputs| - 1];
            var e := Run(e0, before);
            (exists k: nat :: LeftApart(e0, inputs, k)) <==>
            Refused(e, input) || ((exists k: nat :: LeftApart(e0, before, k)) && !Settles(e, input))
  {
    hide Run, Refused, Settles;
    var before := inputs[..|inputs| - 1];
    forall k: nat | k < |before| ensures inputs[..k] == before[..k] && inputs[k] == before[k] {
    }
    if k: nat :| LeftApart(e0, inputs, k) && k < |before| {
      assert LeftApart(e0, before, k);
    }
    if k: nat :| LeftApart(e0, before, k) {
      assert !Settles(Run(e0, before), inputs[|before|]) ==> LeftApart(e0, inputs, k);
    }
    if Refused(Run(e0, before), inputs[|before|]) {
      assert LeftApart(e0, inputs, |before|);
    }
  }

  /** Reachable: a first start succeeds, and the engine then shows a configuration its runtime refused. */
  lemma EngineRunsAhead(c: Config, next: Config)
    requires Normalized(c).Some? && Normalized(next).Some? && Normalized(next) != Normalized(c)
    requires Normalized(next).value.deviceID == Normalized(c).value.deviceID
    ensures Created(c, None).Some?
    ensures var t := Run(Created(c, None).value, [StartInput(SMOOTHLY, true, true),
              UpdateInput(next, true, true, true, KeptOld)]);
            Up(t) && t.cfg == Normalized(next).value && t.runtime.value.cfg == Normalized(c).value
  {
    hide Normalized, Honest, AfterStart;
    var e := Created(c, None).value;
    var start, update := StartInput(SMOOTHLY, true, true), UpdateInput(next, true, true, true, KeptOld);
    StartsSmoothly(c);
    DeviceTrimmed(c);
    assert [start, update][..1] == [start] && [start][..0] == [];
    assert Run(e, [start]) == AfterStart(e, SMOOTHLY, true, true).0;
  }
}
