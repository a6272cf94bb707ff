/**
 What one step of the runtime can do to its memory: the windows, the inbox and the log. Every step,
 whatever its input and whatever fails, has one of seven effects; the laws are proved over these.
 */
module Effects {
  import opened Options
  import opened Text
  import opened Config
  import opened Event
  import opened World
  import opened Topics
  import opened Dedupe
  import opened Sync

  datatype Effect =
    | Quiet                        // nothing but perhaps a line in the log
    | Remember(id: string)         // a published event or a seen manifest
    | Swallow(hash: string)        // an expected echo
    | Queue(entry: Pending)        // a remote text waits for the user
    | Direct(event: TextEvent)     // a remote text is applied on arrival
    | Release(id: string)          // a waiting text is applied
    | DropAll                      // sync is switched off

  predicate Silent(a: Action) {
    a != RemotePending && a != RemoteApplied && a != IgnoredLoop
  }

  ghost predicate SameMemory(s: State, t: State) {
    t.recent == s.recent && t.suppress == s.suppress && t.inbox == s.inbox && t.ledger == s.ledger
  }

  /** The log grew by exactly this decision. */
  ghost predicate Logged(s: State, t: State, action: Action, id: string, sha256: string, text: string) {
    && |t.log| == |s.log| + 1
    && t.log[..|s.log|] == s.log
    && t.log[|s.log|].action == action
    && t.log[|s.log|].eventID == id
    && t.log[|s.log|].sha256 == sha256
    && t.log[|s.log|].text == text
  }

  ghost predicate LoggedSilently(s: State, t: State) {
    || t.log == s.log
    || (|t.log| == |s.log| + 1 && t.log[..|s.log|] == s.log && Silent(t.log[|s.log|].action))
  }

  ghost predicate Fresh(s: State, e: TextEvent) {
    e.eventID != "" && e.eventID !in s.recent.members && e.eventID !in s.inbox.entries
  }

  ghost predicate Explains(f: Effect, s: State, t: State) {
    match f
    case Quiet => SameMemory(s, t) && LoggedSilently(s, t)
    case Remember(id) =>
      SameMemory(s.(recent := Added(s.recent, id)), t) && LoggedSilently(s, t)
    case Swallow(h) =>
      h in s.suppress.members && SameMemory(s.(suppress := Consumed(s.suppress, h)), t) &&
          Logged(s, t, IgnoredLoop, "", h, "")
    case Queue(entry) =>
      && Fresh(s, entry.event)
      && SameMemory(AddPending(s, entry), t)
      && Logged(s, t, RemotePending, entry.event.eventID, entry.event.sha256, entry.event.text)
    case Direct(e) =>
      && Fresh(s, e)
      && SameMemory(Applied(s.(ledger := s.ledger.(direct := s.ledger.direct + multiset{e.eventID})), e), t)
      && Logged(s, t, RemoteApplied, e.eventID, e.sha256, e.text)
    case Release(id) =>
      && id in s.inbox.entries
      && var e := s.inbox.entries[id].event;
         var ledger := s.ledger.(fromPending := s.ledger.fromPending + multiset{e.eventID});
         && SameMemory(Applied(DeletePending(s.(ledger := ledger), id), e), t)
         && Logged(s, t, RemoteApplied, e.eventID, e.sha256, e.text)
    case DropAll =>
      && t.recent == s.recent && t.suppress == s.suppress && t.log == s.log
      && t.inbox == Inbox(s.inbox.limit, map[], [])
      && t.ledger == s.ledger.(dropped := s.ledger.dropped + multiset(s.inbox.entries.Keys))
  }

  lemma StartEffect(p: Params, s: State)
    ensures Explains(Quiet, s, Start(p, s).state)
  {
  }

  lemma StopEffect(p: Params, s: State, closed: bool)
    ensures Explains(Quiet, s, Stop(p, s, closed).state)
  {
  }

  lemma ChangeEffect(p: Params, s: State, next: Config)
    ensures Explains(Quiet, s, Change(p, s, next).state)
  {
    hide SubscribeAll, UnsubscribeAll, TopicsToSubscribe, TopicsToUnsubscribe;
  }

  lemma UpdateEffect(p: Params, s: State, c: Config) returns (f: Effect)
    ensures Explains(f, s, UpdateConfig(p, s, c).state)
    ensures f.Quiet? || f.DropAll?
  {
    hide Normalized, Change, UnsubscribeAll, SubscriptionTopics;
    f := Quiet;
    if Normalized(c).Some? && s.session.started {
      var next := Normalized(c).value;
      ChangeEffect(p, s, next);
      if s.cfg.enabled && !next.enabled { f := DropAll; }
    }
  }

  lemma RestoreEffect(p: Params, s: State)
    ensures Explains(Quiet, s, OnConnectivityRestored(p, s).state)
  {
    hide SubscribeAll, UnsubscribeAll, SubscriptionTopics;
  }

  lemma ManifestOutEffect(p: Params, s: State, digest: Digest, newID: Option<string>,
                          nowMillis: int) returns (f: Effect)
    ensures Explains(f, s, PublishTransferManifest(p, s, digest, newID, nowMillis).state)
    ensures f.Quiet? || f.Remember?
  {
    hide NewManifest, PublishAll, PublishTopics, Join, Added;
    var t := PublishTransferManifest(p, s, digest, newID, nowMillis);
    f := if t.decision.action.TransferPublished? then Remember(t.decision.eventID) else Quiet;
  }

  lemma TextOutEffect(p: Params, s: State, text: string, digest: Digest, built: Built) returns (f: Effect)
    ensures Explains(f, s, PublishText(p, s, text, digest, built).state)
    ensures f.Quiet? || f.Remember?
  {
    hide PublishAll, PublishTopics, Join, Added;
    var t := PublishText(p, s, text, digest, built);
    f := if t.decision.action.LocalPublished? then Remember(t.decision.eventID) else Quiet;
  }

  lemma LocalEffect(hash: HashFn, p: Params, s: State, raw: RawText, newID: Option<string>,
                    nowMillis: int) returns (f: Effect)
    ensures Explains(f, s, HandleLocalText(hash, p, s, raw, newID, nowMillis).state)
    ensures f.Quiet? || f.Remember? || f.Swallow?
  {
    hide InspectText, InspectTextContent, HandleInlineText, PublishTransferManifest, BuildTextEvent, Explains, Record;
    f := Quiet;
    var inspected := InspectText(hash, raw, s.cfg.maxInlineBytes);
    if !s.cfg.enabled {
      RecordEffect(s, Plain(Disabled));
    } else if !p.hasBus {
      RecordEffect(s, Plain(TransportFailed));
    } else if inspected.Some? {
      f := InlineEffect(p, s, raw.text, inspected.value, BuildTextEvent(hash, p, s.cfg, raw.text, inspected.value,
          newID));
    } else if InspectTextContent(hash, raw).Some? {
      f := ManifestOutEffect(p, s, InspectTextContent(hash, raw).value, newID, nowMillis);
    } else {
      RecordEffect(s, Plain(ValidationFailed));
    }
  }

  lemma RecordEffect(s: State, d: Decision)
    requires Silent(d.action)
    ensures Explains(Quiet, s, Record(s, d))
  {
  }

  lemma InlineEffect(p: Params, s: State, text: string, digest: Digest, built: Built) returns (f: Effect)
    ensures Explains(f, s, HandleInlineText(p, s, text, digest, built).state)
    ensures f.Quiet? || f.Remember? || f.Swallow?
  {
    hide PublishText, Consumed;
    f := Quiet;
    if digest.sha256 in s.suppress.members {
      f := Swallow(digest.sha256);
    } else if digest.sha256 != s.lastLocalHash {
      f := TextOutEffect(p, s, text, digest, built);
    }
  }

  lemma TextInEffect(p: Params, s: State, topic: string, e: TextEvent) returns (f: Effect)
    requires e.eventID != ""
    ensures Explains(f, s, HandleTextEvent(p, s, topic, e).state)
    ensures f.Queue? || f.Direct? ==> !e.IsLocalOrigin(p.nodeID, p.instanceID)
    ensures f.Queue? ==> f.entry == Pending(e, topic)
    ensures f.Direct? ==> f.event == e
    ensures !f.Release? && !f.Swallow?
  {
    hide AddPending, Added, TrimSpace;
    var a := HandleTextEvent(p, s, topic, e).decision.action;
    f := if a.RemotePending? then Queue(Pending(e, topic)) else if a.RemoteApplied? then Direct(e) else Quiet;
    AddPendingKeepsLog(s, Pending(e, topic));
  }

  lemma AddPendingKeepsLog(s: State, entry: Pending)
    ensures AddPending(s, entry).log == s.log
  {
  }

  lemma ManifestInEffect(p: Params, s: State, topic: string, payload: Payload) returns (f: Effect)
    ensures Explains(f, s, HandleTransferManifest(p, s, topic, payload).state)
    ensures f.Quiet? || f.Remember?
  {
    hide ParseManifest, Added, TrimSpace;
    var d := HandleTransferManifest(p, s, topic, payload).decision;
    f := if d.action.TransferPending? then Remember(d.eventID) else Quiet;
  }

  /** A text message the runtime takes in: enabled, on a route that syncs to local, valid, and from elsewhere. */
  ghost predicate Accepts(hash: HashFn, p: Params, s: State, input: Input, e: TextEvent) {
    && input.MessageInput?
    && s.cfg.enabled
    && RouteFor(s.cfg.Routes(), input.topic).Some?
    && RouteFor(s.cfg.Routes(), input.topic).value.syncToLocal
    && input.name == TEXT_EVENT_NAME
    && Parse(hash, input.payload, s.cfg.maxInlineBytes) == Some(e)
    && !e.IsLocalOrigin(p.nodeID, p.instanceID)
  }

  lemma MessageEffect(hash: HashFn, p: Params, s: State, topic: string, name: string,
                      payload: Payload) returns (f: Effect)
    ensures Explains(f, s, HandleTopicBusMessage(hash, p, s, topic, name, payload).state)
    ensures f.Queue? ==> Accepts(hash, p, s, MessageInput(topic, name, payload), f.entry.event)
    ensures f.Direct? ==> Accepts(hash, p, s, MessageInput(topic, name, payload), f.event)
    ensures !f.Release? && !f.Swallow?
  {
    hide Parse, RouteFor, HandleTextEvent, HandleTransferManifest, Explains, Record;
    f := Quiet;
    var here, route := Plain(NoAction).(topic := topic), RouteFor(s.cfg.Routes(), topic);
    if !s.cfg.enabled {
      RecordEffect(s, Plain(Disabled));
    } else if route.None? {
      RecordEffect(s, here.(action := IgnoredTopic));
    } else if !route.value.syncToLocal {
      RecordEffect(s, here.(action := IgnoredTopicPolicy));
    } else if name == TRANSFER_EVENT_NAME {
      f := ManifestInEffect(p, s, topic, payload);
    } else if name != TEXT_EVENT_NAME {
      RecordEffect(s, here.(action := IgnoredName));
    } else if Parse(hash, payload, s.cfg.maxInlineBytes).None? {
      RecordEffect(s, here.(action := ValidationFailed));
    } else {
      ParsedHasID(hash, payload, s.cfg.maxInlineBytes);
      f := TextInEffect(p, s, topic, Parse(hash, payload, s.cfg.maxInlineBytes).value);
    }
  }

  lemma NamesDiffer()
    ensures TEXT_EVENT_NAME != TRANSFER_EVENT_NAME
  {
    assert TEXT_EVENT_NAME[11] == 'e' && TRANSFER_EVENT_NAME[11] == 'r';
  }

  lemma ParsedHasID(hash: HashFn, payload: Payload, maxInlineBytes: int)
    requires Parse(hash, payload, maxInlineBytes).Some?
    ensures var e := Parse(hash, payload, maxInlineBytes).value;
            e.eventID != "" && Trimmed(e.eventID) && e.sha256 == hash(e.text)
  {
    Event.NormalizeIdempotent(hash, payload.asText.value, maxInlineBytes);
  }

  lemma ApplyEffect(p: Params, s: State, eventID: string) returns (f: Effect)
    ensures Explains(f, s, ApplyPending(p, s, eventID).state)
    ensures f.Quiet? || f == Release(TrimSpace(eventID))
  {
    hide DeletePending, Added, TrimSpace;
    f := if ApplyPending(p, s, eventID).decision.action.RemoteApplied? then Release(TrimSpace(eventID)) else Quiet;
    DeletePendingKeepsRest(s, TrimSpace(eventID));
  }

  lemma DeletePendingKeepsRest(s: State, id: string)
    ensures forall w: World, l: Ledger ::
              DeletePending(s.(world := w, ledger := l), id) == DeletePending(s, id).(world := w, ledger := l)
    ensures DeletePending(s, id).log == s.log && DeletePending(s, id).ledger == s.ledger
  {
  }

  /** Every step of the runtime has one of the seven effects, and only messages and the user apply texts. */
  lemma StepEffect(hash: HashFn, p: Params, s: State, input: Input) returns (f: Effect)
    ensures Explains(f, s, Step(hash, p, s, input).state)
    ensures f.Queue? ==> Accepts(hash, p, s, input, f.entry.event)
    ensures f.Direct? ==> Accepts(hash, p, s, input, f.event)
    ensures f.Release? ==> input.ApplyInput? && f.id == TrimSpace(input.eventID)
    ensures f.Swallow? ==> input.LocalInput?
  {
    hide Step, Start, Stop, UpdateConfig, OnConnectivityRestored, HandleLocalText, HandleTopicBusMessage, ApplyPending,
         Explains, Accepts;
    f := Quiet;
    match input
    case StartInput =>
      StepIsStart(hash, p, s);
      StartEffect(p, s);
    case StopInput(closed) =>
      StepIsStop(hash, p, s, closed);
      StopEffect(p, s, closed);
    case UpdateInput(c) =>
      StepIsUpdate(hash, p, s, c);
      f := UpdateEffect(p, s, c);
    case RestoreInput =>
      StepIsRestore(hash, p, s);
      RestoreEffect(p, s);
    case LocalInput(raw, newID, nowMillis) =>
      StepIsLocal(hash, p, s, raw, newID, nowMillis);
      f := LocalEffect(hash, p, s, raw, newID, nowMillis);
    case MessageInput(topic, name, payload) =>
      StepIsMessage(hash, p, s, topic, name, payload);
      f := MessageEffect(hash, p, s, topic, name, payload);
    case ApplyInput(eventID) =>
      StepIsApply(hash, p, s, eventID);
      f := ApplyEffect(p, s, eventID);
    case ConnectionLost =>
      StepIsLost(hash, p, s);
      LostEffect(s);
  }

  lemma LostEffect(s: State)
    ensures Explains(Quiet, s, s.(world := s.world.(topics := {})))
  {
  }
}
