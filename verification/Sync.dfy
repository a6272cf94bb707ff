/**
 The synchronisation runtime as functions on its state, one atomic step per public handler.
 The class in Runtime.dfy is proved to do exactly this.
 */
module Sync {
  import opened Options
  import opened Text
  import opened Config
  import opened Event
  import opened World
  import opened Topics
  import Dedupe

  datatype Action =
    | NoAction
    | Disabled
    | IgnoredTopic
    | IgnoredName
    | IgnoredLocalOrigin
    | IgnoredDuplicate
    | IgnoredLoop
    | IgnoredUnchanged
    | IgnoredLocalPolicy
    | IgnoredTopicPolicy
    | LocalPublished
    | TransferPublished
    | TransferPending
    | TransferUnsupported
    | RemotePending
    | RemoteApplied
    | ValidationFailed
    | TransportFailed
    | ClipboardWriteFailed

  /** A decision keeps the whole digest; the source shows its first twelve characters. */
  datatype Decision = Decision(action: Action, eventID: string, topic: string, size: int, sha256: string, text: string)

  function Plain(action: Action): Decision {
    Decision(action, "", "", 0, "", "")
  }

  datatype Pending = Pending(event: TextEvent, topic: string)

  /** The events waiting for the user, and the order they came in. */
  datatype Inbox = Inbox(limit: nat, entries: map<string, Pending>, order: seq<string>)

  datatype Session = Session(started: bool, subscribed: bool, watching: bool, watcher: Option<nat>)

  /** Where applied and removed events went; bookkeeping for the conservation law only. */
  datatype Ledger = Ledger(direct: multiset<string>, fromPending: multiset<string>,
                           evicted: multiset<string>, dropped: multiset<string>)

  /** Fixed when the runtime is made: its identity, which of the two interfaces it was given, and their failures. */
  datatype Params = Params(nodeID: nat, instanceID: string, hasBus: bool, hasClipboard: bool, env: Environment)

  datatype State = State(
    cfg: Config, recent: Dedupe.Window, suppress: Dedupe.Window, lastLocalHash: string,
    inbox: Inbox, session: Session, world: World, log: seq<Decision>, ledger: Ledger)

  datatype Outcome = Outcome(state: State, decision: Decision, ok: bool)

  const DEFAULT_RECENT_LIMIT := 128
  const DEFAULT_SUPPRESS_LIMIT := 32

  function OrDefault(limit: nat, default: nat): nat {
    if limit == 0 then default else limit
  }

  /** `New`: refused without a valid configuration, a node number or an instance. */
  function Created(p: Params, c: Config, recentLimit: nat, suppressLimit: nat): Option<State> {
    match Normalized(c)
    case None => None
    case Some(cfg) =>
      if p.nodeID == 0 || p.instanceID == "" then None
      else
        var recent := OrDefault(recentLimit, DEFAULT_RECENT_LIMIT);
        Some(State(cfg, Dedupe.New(recent), Dedupe.New(OrDefault(suppressLimit, DEFAULT_SUPPRESS_LIMIT)), "",
                   Inbox(recent, map[], []), Session(false, false, false, None),
                   World([], {}, {}), [], Ledger(multiset{}, multiset{}, multiset{}, multiset{})))
  }

  function Record(s: State, d: Decision): State {
    s.(log := s.log + [d])
  }

  function Decide(s: State, d: Decision): Outcome {
    Outcome(Record(s, d), d, true)
  }

  function Fail(s: State, d: Decision): Outcome {
    Outcome(Record(s, d), d, false)
  }

  // ---------------------------------------------------------------- the pending queue

  function EvictPending(box: Inbox, recent: Dedupe.Window, evicted: multiset<string>): (Inbox, Dedupe.Window,
      multiset<string>)
    decreases |box.order|
  {
    if |box.entries| > box.limit && box.order != [] then
      var oldest := box.order[0];
      if oldest in box.entries then
        EvictPending(Inbox(box.limit, box.entries - {oldest}, box.order[1..]), Dedupe.Added(recent, oldest),
                     evicted + multiset{oldest})
      else
        EvictPending(box.(order := box.order[1..]), recent, evicted)
    else (box, recent, evicted)
  }

  function CompactPending(box: Inbox): Inbox {
    if |box.order| > box.limit * 2 then box.(order := Dedupe.Live(box.order, box.entries.Keys)) else box
  }

  function AddPending(s: State, entry: Pending): (t: State)
    ensures t == s.(inbox := t.inbox, recent := t.recent, ledger := s.ledger.(evicted := t.ledger.evicted))
  {
    var id := entry.event.eventID;
    if id == "" then s
    else
      var order := if id in s.inbox.entries then s.inbox.order else s.inbox.order + [id];
      var (box, recent, evicted) :=
        EvictPending(Inbox(s.inbox.limit, s.inbox.entries[id := entry], order), s.recent, s.ledger.evicted);
      s.(inbox := CompactPending(box), recent := recent, ledger := s.ledger.(evicted := evicted))
  }

  /** The list without the first copy of id. */
  function RemoveFirst(order: seq<string>, id: string): seq<string> {
    if order == [] then []
    else if order[0] == id then order[1..]
    else [order[0]] + RemoveFirst(order[1..], id)
  }

  /** The first copy is cut out, and nothing else. */
  lemma {:induction false} RemoveFirstAt(order: seq<string>, id: string, i: nat)
    requires i <= |order| && (forall k :: 0 <= k < i ==> order[k] != id) && (i < |order| ==> order[i] == id)
    ensures RemoveFirst(order, id) == order[..i] + if i < |order| then order[i + 1..] else []
  {
    if i == 0 {
      assert order[..0] == [];
    } else {
      RemoveFirstAt(order[1..], id, i - 1);
      assert order[..i] == [order[0]] + order[1..][..i - 1];
      assert i < |order| ==> order[1..][i - 1 + 1..] == order[i + 1..];
    }
  }

  function DeletePending(s: State, id: string): (t: State)
    ensures t == s.(inbox := t.inbox)
  {
    s.(inbox := Inbox(s.inbox.limit, s.inbox.entries - {id}, RemoveFirst(s.inbox.order, id)))
  }

  // ---------------------------------------------------------------- local text

  function PublishTransferManifest(p: Params, s: State, digest: Digest, newID: Option<string>,
                                   nowMillis: int): (o: Outcome)
    ensures o.state.cfg == s.cfg
  {
    var shown := Decision(NoAction, "", "", digest.size, digest.sha256, "");
    var targets := PublishTopics(s.cfg.Routes());
    if s.cfg.transferProvider == "" || s.cfg.transferRef == "" then Fail(s, shown.(action := TransferUnsupported))
    else if !p.hasBus then Fail(s, shown.(action := TransportFailed))
    else if targets == [] then Decide(s, shown.(action := IgnoredLocalPolicy))
    else match NewManifest(digest, s.cfg.transferProvider, s.cfg.transferRef, p.nodeID, p.instanceID,
                           s.cfg.deviceLabel, nowMillis, newID)
      case None => Fail(s, shown.(action := ValidationFailed))
      case Some(m) =>
        var (world, taken) := PublishAll(p.env, s.world, targets, TRANSFER_EVENT_NAME, ManifestBody(m), 0);
        if taken < |targets| then
          Fail(s.(world := world), shown.(action := TransportFailed, eventID := m.eventID, topic := targets[taken]))
        else
          Decide(s.(world := world, lastLocalHash := digest.sha256, recent := Dedupe.Added(s.recent, m.eventID)),
                 shown.(action := TransferPublished, eventID := m.eventID, topic := Join(targets)))
  }

  /** An encoded event, or the identifier of the one that could not be made (empty if there is none). */
  datatype Built = Built(eventID: string, wire: string) | Rejected(eventID: string)

  function BuildTextEvent(hash: HashFn, p: Params, cfg: Config, text: string, digest: Digest,
                          newID: Option<string>): Built {
    match NewTextEvent(hash, text, digest, p.nodeID, p.instanceID, cfg.deviceLabel, cfg.maxInlineBytes, newID)
    case None => Rejected("")
    case Some(e) =>
      match Marshal(hash, e, cfg.maxInlineBytes)
      case None => Rejected(e.eventID)
      case Some(wire) => Built(e.eventID, wire)
  }

  function PublishText(p: Params, s: State, text: string, digest: Digest, built: Built): (o: Outcome)
    ensures o.state.cfg == s.cfg
  {
    var shown := Decision(NoAction, "", "", digest.size, digest.sha256, "");
    var targets := PublishTopics(s.cfg.Routes());
    if targets == [] then Decide(s, shown.(action := IgnoredLocalPolicy))
    else if built.Rejected? then Fail(s, shown.(action := ValidationFailed, eventID := built.eventID))
    else
      var (world, taken) := PublishAll(p.env, s.world, targets, TEXT_EVENT_NAME, TextBody(built.wire), 0);
      if taken < |targets| then
        Fail(s.(world := world), shown.(action := TransportFailed, eventID := built.eventID, topic := targets[taken]))
      else
        Decide(s.(world := world, lastLocalHash := digest.sha256, recent := Dedupe.Added(s.recent, built.eventID)),
               shown.(action := LocalPublished, eventID := built.eventID, topic := Join(targets), text := text))
  }

  /** The text passed inspection: an expected echo is swallowed, a repetition is skipped. */
  function HandleInlineText(p: Params, s: State, text: string, digest: Digest, built: Built): (o: Outcome)
    ensures o.state.cfg == s.cfg
  {
    var shown := Decision(NoAction, "", "", digest.size, digest.sha256, "");
    if digest.sha256 in s.suppress.members then
      Decide(s.(suppress := Dedupe.Consumed(s.suppress, digest.sha256)), shown.(action := IgnoredLoop))
    else if digest.sha256 == s.lastLocalHash then Decide(s, shown.(action := IgnoredUnchanged))
    else PublishText(p, s, text, digest, built)
  }

  function HandleLocalText(hash: HashFn, p: Params, s: State, raw: RawText, newID: Option<string>,
                           nowMillis: int): (o: Outcome)
    ensures o.state.cfg == s.cfg
  {
    if !s.cfg.enabled then Decide(s, Plain(Disabled))
    else if !p.hasBus then Fail(s, Plain(TransportFailed))
    else match InspectText(hash, raw, s.cfg.maxInlineBytes)
      case None => (
        match InspectTextContent(hash, raw)
        case None => Fail(s, Plain(ValidationFailed))
        case Some(digest) => PublishTransferManifest(p, s, digest, newID, nowMillis))
      case Some(digest) =>
        HandleInlineText(p, s, raw.text, digest, BuildTextEvent(hash, p, s.cfg, raw.text, digest, newID))
  }

  // ---------------------------------------------------------------- remote messages

  function HandleTransferManifest(p: Params, s: State, topic: string, payload: Payload): (o: Outcome)
    ensures o.state.cfg == s.cfg
  {
    match ParseManifest(payload)
    case None => Fail(s, Plain(ValidationFailed).(topic := topic))
    case Some(m) =>
      var shown := Decision(NoAction, m.eventID, topic, m.size, m.sha256, "");
      if m.IsLocalOrigin(p.nodeID, p.instanceID) then Decide(s, shown.(action := IgnoredLocalOrigin))
      else if m.eventID in s.recent.members then Decide(s, shown.(action := IgnoredDuplicate))
      else Decide(s.(recent := Dedupe.Added(s.recent, m.eventID)), shown.(action := TransferPending))
  }

  /** The clipboard took the text: remember the event and expect its echo. */
  function Applied(s: State, e: TextEvent): State {
    s.(recent := Dedupe.Added(s.recent, e.eventID), suppress := Dedupe.Added(s.suppress, e.sha256))
  }

  function HandleTextEvent(p: Params, s: State, topic: string, e: TextEvent): (o: Outcome)
    ensures o.state.cfg == s.cfg
  {
    var shown := Decision(NoAction, e.eventID, topic, e.size, e.sha256, "");
    if e.IsLocalOrigin(p.nodeID, p.instanceID) then Decide(s, shown.(action := IgnoredLocalOrigin))
    else if e.eventID in s.recent.members then Decide(s, shown.(action := IgnoredDuplicate))
    else if e.eventID in s.inbox.entries then Decide(s, shown.(action := IgnoredDuplicate))
    else if !s.cfg.autoApply then
      Decide(AddPending(s, Pending(e, topic)), shown.(action := RemotePending, text := e.text))
    else if !p.hasClipboard then Fail(s, shown.(action := ClipboardWriteFailed))
    else
      var world := Written(p.env, s.world, e.text);
      if |s.world.calls| in p.env.write then Fail(s.(world := world), shown.(action := ClipboardWriteFailed))
      else
        Decide(Applied(s.(world := world, ledger := s.ledger.(direct := s.ledger.direct + multiset{e.eventID})), e),
               shown.(action := RemoteApplied, text := e.text))
  }

  function HandleTopicBusMessage(hash: HashFn, p: Params, s: State, topic: string, name: string,
                                 payload: Payload): (o: Outcome)
    ensures o.state.cfg == s.cfg
  {
    var here := Plain(NoAction).(topic := topic);
    if !s.cfg.enabled then Decide(s, Plain(Disabled))
    else match RouteFor(s.cfg.Routes(), topic)
      case None => Decide(s, here.(action := IgnoredTopic))
      case Some(route) =>
        if !route.syncToLocal then Decide(s, here.(action := IgnoredTopicPolicy))
        else if name != TEXT_EVENT_NAME && name != TRANSFER_EVENT_NAME then Decide(s, here.(action := IgnoredName))
        else if name == TRANSFER_EVENT_NAME then HandleTransferManifest(p, s, topic, payload)
        else match Parse(hash, payload, s.cfg.maxInlineBytes)
          case None => Fail(s, here.(action := ValidationFailed))
          case Some(e) => HandleTextEvent(p, s, topic, e)
  }

  function ApplyPending(p: Params, s: State, eventID: string): (o: Outcome)
    ensures o.state.cfg == s.cfg
  {
    var id := TrimSpace(eventID);
    if id == "" || id !in s.inbox.entries then Outcome(s, Plain(NoAction), false)
    else
      var entry := s.inbox.entries[id];
      var e := entry.event;
      var shown := Decision(NoAction, e.eventID, entry.topic, e.size, e.sha256, "");
      if !p.hasClipboard then Fail(s, shown.(action := ClipboardWriteFailed))
      else
        var world := Written(p.env, s.world, e.text);
        if |s.world.calls| in p.env.write then Fail(s.(world := world), shown.(action := ClipboardWriteFailed))
        else
          var ledger := s.ledger.(fromPending := s.ledger.fromPending + multiset{e.eventID});
          Decide(Applied(DeletePending(s.(world := world, ledger := ledger), id), e),
                 shown.(action := RemoteApplied, text := e.text))
  }

  // ---------------------------------------------------------------- lifecycle

  function Stopped(): Session {
    Session(false, false, false, None)
  }

  function TransportFailure(s: State): Outcome {
    Fail(s, Plain(TransportFailed))
  }

  function Cancelled(w: World, watcher: Option<nat>): World {
    if watcher.Some? then w.(watchers := w.watchers - {watcher.value}) else w
  }

  function Start(p: Params, s: State): (o: Outcome)
    ensures o.state.cfg == s.cfg
  {
    if s.session.started then Outcome(s, Plain(NoAction), true)
    else if !s.cfg.enabled then Outcome(s.(session := s.session.(started := true)), Plain(NoAction), true)
    else if !p.hasBus then Outcome(s, Plain(NoAction), false)
    else if (s.cfg.autoWatch || s.cfg.autoApply) && !p.hasClipboard then Outcome(s, Plain(NoAction), false)
    else
      var (world, done, ok) := SubscribeAll(p.env, s.world, SubscriptionTopics(s.cfg.Routes()), []);
      if !ok then
        TransportFailure(s.(world := UnsubscribeAll(p.env, world, done, true).0, session := Stopped()))
      else if !s.cfg.autoWatch then
        Outcome(s.(world := world, session := Session(true, true, false, None)), Plain(NoAction), true)
      else
        var watched := Watching(p.env, world);
        if |world.calls| in p.env.watch then
          TransportFailure(s.(world := UnsubscribeAll(p.env, watched, done, true).0, session := Stopped()))
        else
          Outcome(s.(world := watched, session := Session(true, true, true, Some(|world.calls|))), Plain(NoAction),
              true)
  }

  /** Cancelling the run context ends every watcher started under it. `closed`: the clipboard closed without error. */
  function Stop(p: Params, s: State, closed: bool): (o: Outcome)
    ensures o.state.cfg == s.cfg
  {
    var world := if s.session.started then s.world.(watchers := {}) else s.world;
    var (after, ok) :=
      if s.session.subscribed && p.hasBus then UnsubscribeAll(p.env, world, SubscriptionTopics(s.cfg.Routes()), true)
      else (world, true);
    Outcome(s.(world := after, session := Stopped()), Plain(NoAction), ok && (closed || !p.hasClipboard))
  }

  function Disable(p: Params, s: State, next: Config): Outcome {
    var (world, ok) :=
      if p.hasBus then UnsubscribeAll(p.env, Cancelled(s.world, s.session.watcher),
          SubscriptionTopics(s.cfg.Routes()), true)
      else (Cancelled(s.world, s.session.watcher), true);
    Outcome(s.(cfg := next, world := world,
               session := Session(s.session.started, false, false, None),
               inbox := Inbox(s.inbox.limit, map[], []),
               ledger := s.ledger.(dropped := s.ledger.dropped + multiset(s.inbox.entries.Keys))),
            Plain(NoAction), ok)
  }

  predicate StopsWatcher(s: State, next: Config) {
    s.session.watching && (!next.enabled || !next.autoWatch)
  }

  predicate StartsWatcher(s: State, next: Config) {
    next.enabled && next.autoWatch && !s.session.watching
  }

  /** Drop the topics no longer wanted; if that fails, take back the topics just added. */
  function DropTopics(p: Params, previous: Config, next: Config, world: World): (World, bool) {
    var (dropped, ok) := UnsubscribeAll(p.env, world, TopicsToUnsubscribe(previous, next), true);
    (if ok then dropped else UnsubscribeAll(p.env, dropped, TopicsToSubscribe(previous, next), true).0, ok)
  }

  /** The last part of a configuration change. */
  function FinishChange(p: Params, s: State, next: Config, world: World, watcher: Option<nat>): Outcome {
    var (after, ok) := DropTopics(p, s.cfg, next, world);
    if !ok then TransportFailure(s.(world := after))
    else
      var session := s.session.(subscribed := next.enabled);
      Outcome(s.(cfg := next, world := after,
                 session := if watcher.Some? then session.(watching := true, watcher := watcher)
                            else if StopsWatcher(s, next) then session.(watching := false, watcher := None)
                            else session),
              Plain(NoAction), true)
  }

  function Change(p: Params, s: State, next: Config): Outcome {
    var adding := TopicsToSubscribe(s.cfg, next);
    var (world, done, ok) := SubscribeAll(p.env, s.world, adding, []);
    if !ok then TransportFailure(s.(world := UnsubscribeAll(p.env, world, done, true).0))
    else
      var quiet := if StopsWatcher(s, next) then Cancelled(world, s.session.watcher) else world;
      if !StartsWatcher(s, next) then FinishChange(p, s, next, quiet, None)
      else
        var watched := Watching(p.env, quiet);
        if |quiet.calls| in p.env.watch then
          TransportFailure(s.(world := UnsubscribeAll(p.env, watched, adding, true).0))
        else FinishChange(p, s, next, watched, Some(|quiet.calls|))
  }

  function UpdateConfig(p: Params, s: State, c: Config): Outcome {
    match Normalized(c)
    case None => Outcome(s, Plain(NoAction), false)
    case Some(next) =>
      if !s.session.started then Outcome(s.(cfg := next), Plain(NoAction), true)
      else if next.enabled && !p.hasBus then Outcome(s, Plain(NoAction), false)
      else if next.enabled && (next.autoWatch || next.autoApply) && !p.hasClipboard
          then Outcome(s, Plain(NoAction), false)
      else if s.cfg.enabled && !next.enabled then Disable(p, s, next)
      else Change(p, s, next)
  }

  function OnConnectivityRestored(p: Params, s: State): (o: Outcome)
    ensures o.state.cfg == s.cfg
  {
    if !s.session.started || !s.cfg.enabled then Outcome(s, Plain(NoAction), true)
    else if !p.hasBus then Outcome(s, Plain(NoAction), false)
    else
      var (world, done, ok) := SubscribeAll(p.env, s.world, SubscriptionTopics(s.cfg.Routes()), []);
      if !ok then TransportFailure(s.(world := UnsubscribeAll(p.env, world, done, true).0))
      else Outcome(s.(world := world, session := s.session.(subscribed := true)), Plain(NoAction), true)
  }

  // ---------------------------------------------------------------- runs

  datatype Input =
    | StartInput
    | StopInput(closed: bool)
    | UpdateInput(cfg: Config)
    | RestoreInput
    | LocalInput(raw: RawText, newID: Option<string>, nowMillis: int)
    | MessageInput(topic: string, name: string, payload: Payload)
    | ApplyInput(eventID: string)
    | ConnectionLost  // the hub forgets what this node subscribed to

  function Step(hash: HashFn, p: Params, s: State, input: Input): Outcome {
    match input
    case StartInput => Start(p, s)
    case StopInput(closed) => Stop(p, s, closed)
    case UpdateInput(c) => UpdateConfig(p, s, c)
    case RestoreInput => OnConnectivityRestored(p, s)
    case LocalInput(raw, newID, nowMillis) => HandleLocalText(hash, p, s, raw, newID, nowMillis)
    case MessageInput(topic, name, payload) => HandleTopicBusMessage(hash, p, s, topic, name, payload)
    case ApplyInput(eventID) => ApplyPending(p, s, eventID)
    case ConnectionLost => Outcome(s.(world := s.world.(topics := {})), Plain(NoAction), true)
  }

  function Run(hash: HashFn, p: Params, s: State, inputs: seq<Input>): State {
    if inputs == [] then s
    else Step(hash, p, Run(hash, p, s, inputs[..|inputs| - 1]), inputs[|inputs| - 1]).state
  }

  // What a step is, input by input; the laws use these and leave `Step` alone.

  lemma StepIsStart(hash: HashFn, p: Params, s: State)
    ensures Step(hash, p, s, StartInput) == Start(p, s)
  {
    hide Start;
  }

  lemma StepIsStop(hash: HashFn, p: Params, s: State, closed: bool)
    ensures Step(hash, p, s, StopInput(closed)) == Stop(p, s, closed)
  {
    hide Stop;
  }

  lemma StepIsUpdate(hash: HashFn, p: Params, s: State, c: Config)
    ensures Step(hash, p, s, UpdateInput(c)) == UpdateConfig(p, s, c)
  {
    hide UpdateConfig;
  }

  lemma StepIsRestore(hash: HashFn, p: Params, s: State)
    ensures Step(hash, p, s, RestoreInput) == OnConnectivityRestored(p, s)
  {
    hide OnConnectivityRestored;
  }

  lemma StepIsLocal(hash: HashFn, p: Params, s: State, raw: RawText, newID: Option<string>, nowMillis: int)
    ensures Step(hash, p, s, LocalInput(raw, newID, nowMillis)) == HandleLocalText(hash, p, s, raw, newID, nowMillis)
  {
    hide HandleLocalText;
  }

  lemma StepIsMessage(hash: HashFn, p: Params, s: State, topic: string, name: string, payload: Payload)
    ensures Step(hash, p, s, MessageInput(topic, name, payload)) ==
              HandleTopicBusMessage(hash, p, s, topic, name, payload)
  {
    hide HandleTopicBusMessage;
  }

  lemma StepIsApply(hash: HashFn, p: Params, s: State, eventID: string)
    ensures Step(hash, p, s, ApplyInput(eventID)) == ApplyPending(p, s, eventID)
  {
    hide ApplyPending;
  }

  lemma StepIsLost(hash: HashFn, p: Params, s: State)
    ensures Step(hash, p, s, ConnectionLost).state == s.(world := s.world.(topics := {}))
  {
  }
}
