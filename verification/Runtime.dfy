/** The runtime object: fields updated in place, each method proved against its function in Sync. */
module Runtime {
  import opened Options
  import opened Text
  import opened Config
  import opened Event
  import opened World
  import opened Topics
  import opened Dedupe
  import opened Sync

  class Runtime {
    const p: Params
    const host: Host
    const recent: BoundedStringSet
    const suppress: BoundedStringSet
    const pendingLimit: nat

    var cfg: Config
    var lastLocalHash: string
    var pending: map<string, Pending>
    var pendingOrder: seq<string>
    var started: bool
    var subscribed: bool
    var watching: bool
    var watcher: Option<nat>
    var decisions: seq<Decision>
    ghost var ledger: Ledger

    ghost predicate Valid()
      reads this
    {
      recent != suppress
    }

    ghost function Box(): Inbox
      reads this
    {
      Inbox(pendingLimit, pending, pendingOrder)
    }

    ghost function Model(): State
      reads this, host, recent, suppress
    {
      State(cfg, recent.Model(), suppress.Model(), lastLocalHash, Box(),
            Session(started, subscribed, watching, watcher), host.Model(), decisions, ledger)
    }

    constructor (p: Params, host: Host, cfg: Config, recentLimit: nat, suppressLimit: nat)
      requires p.nodeID != 0 && p.instanceID != "" && Normalized(cfg).Some?
      requires host.Model() == World([], {}, {})
      ensures Valid() && fresh(recent) && fresh(suppress)
      ensures this.p == p && this.host == host
      ensures Created(p, cfg, recentLimit, suppressLimit) == Some(Model())
      ensures host.Model() == old(host.Model())
    {
      var normal := NormalizeConfig(cfg);
      this.p, this.host, this.cfg := p, host, normal.value;
      this.recent := new BoundedStringSet(OrDefault(recentLimit, DEFAULT_RECENT_LIMIT));
      this.suppress := new BoundedStringSet(OrDefault(suppressLimit, DEFAULT_SUPPRESS_LIMIT));
      pendingLimit := OrDefault(recentLimit, DEFAULT_RECENT_LIMIT);
      lastLocalHash, pending, pendingOrder := "", map[], [];
      started, subscribed, watching, watcher := false, false, false, None;
      decisions := [];
      ledger := Ledger(multiset{}, multiset{}, multiset{}, multiset{});
    }

    /** Null stands for the error: a configuration, node number or instance that is refused. */
    static method New(p: Params, host: Host, cfg: Config, recentLimit: nat, suppressLimit: nat) returns (rt: Runtime?)
      requires host.Model() == World([], {}, {})
      ensures rt == null <==> Created(p, cfg, recentLimit, suppressLimit).None?
      ensures rt != null ==>
                && fresh(rt) && rt.Valid() && fresh(rt.recent) && fresh(rt.suppress) && rt.p == p && rt.host == host
                && Created(p, cfg, recentLimit, suppressLimit) == Some(rt.Model())
    {
      hide Normalized;
      var normal := NormalizeConfig(cfg);
      if normal.None? || p.nodeID == 0 || p.instanceID == "" {
        return null;
      }
      rt := new Runtime(p, host, cfg, recentLimit, suppressLimit);
    }

    // -------------------------------------------------------------- recording

    method RecordDecision(d: Decision)
      modifies this`decisions
      ensures decisions == old(decisions) + [d]
    {
      decisions := decisions + [d];
    }

    // -------------------------------------------------------------- the pending queue

    method EvictOldPending()
      requires Valid()
      modifies this`pending, this`pendingOrder, this`ledger, recent
      ensures (Box(), recent.Model(), ledger.evicted) == old(EvictPending(Box(), recent.Model(), ledger.evicted))
      ensures ledger == old(ledger).(evicted := ledger.evicted)
    {
      while |pending| > pendingLimit && |pendingOrder| > 0
        invariant EvictPending(Box(), recent.Model(), ledger.evicted) ==
                  old(EvictPending(Box(), recent.Model(), ledger.evicted))
        invariant ledger == old(ledger).(evicted := ledger.evicted)
        decreases |pendingOrder|
      {
        var oldest := pendingOrder[0];
        pendingOrder := pendingOrder[1..];
        if oldest in pending {
          pending := pending - {oldest};
          recent.Add(oldest);
          ledger := ledger.(evicted := ledger.evicted + multiset{oldest});
        }
      }
    }

    method CompactPendingOrder()
      modifies this`pendingOrder
      ensures Box() == old(CompactPending(Box()))
    {
      if |pendingOrder| > pendingLimit * 2 {
        var backing := new string[|pendingOrder|](i requires 0 <= i < |pendingOrder| reads this => pendingOrder[i]);
        assert backing[..] == pendingOrder;
        var kept := CompactInPlace(backing, pending.Keys);
        pendingOrder := backing[..kept];
      }
    }

    method AddPendingLocked(entry: Pending)
      requires Valid()
      modifies this`pending, this`pendingOrder, this`ledger, recent
      ensures Model() == old(AddPending(Model(), entry))
    {
      var id := entry.event.eventID;
      if id == "" {
        return;
      }
      if id !in pending {
        pendingOrder := pendingOrder + [id];
      }
      pending := pending[id := entry];
      EvictOldPending();
      CompactPendingOrder();
    }

    method DeletePendingLocked(id: string)
      modifies this`pending, this`pendingOrder
      ensures Model() == old(DeletePending(Model(), id))
    {
      pending := pending - {id};
      for i := 0 to |pendingOrder|
        invariant pendingOrder == old(pendingOrder)
        invariant forall k :: 0 <= k < i ==> pendingOrder[k] != id
      {
        if pendingOrder[i] == id {
          RemoveFirstAt(pendingOrder, id, i);
          pendingOrder := pendingOrder[..i] + pendingOrder[i + 1..];
          return;
        }
      }
      RemoveFirstAt(pendingOrder, id, |pendingOrder|);
    }

    // -------------------------------------------------------------- local text

    method PublishManifest(digest: Digest, newID: Option<string>, nowMillis: int) returns (d: Decision, ok: bool)
      requires Valid()
      modifies this, host, recent
      ensures Outcome(Model(), d, ok) == old(PublishTransferManifest(p, Model(), digest, newID, nowMillis))
    {
      var shown := Decision(NoAction, "", "", digest.size, digest.sha256, "");
      if cfg.transferProvider == "" || cfg.transferRef == "" {
        d, ok := shown.(action := TransferUnsupported), false;
      } else if !p.hasBus {
        d, ok := shown.(action := TransportFailed), false;
      } else {
        var targets := CollectPublishTopics(cfg.Routes());
        if |targets| == 0 {
          d, ok := shown.(action := IgnoredLocalPolicy), true;
        } else {
          var manifest := NewManifest(digest, cfg.transferProvider, cfg.transferRef, p.nodeID, p.instanceID,
                                      cfg.deviceLabel, nowMillis, newID);
          if manifest.None? {
            d, ok := shown.(action := ValidationFailed), false;
          } else {
            var m := manifest.value;
            var taken := host.PublishToAll(p.env, targets, TRANSFER_EVENT_NAME, ManifestBody(m));
            if taken < |targets| {
              d, ok := shown.(action := TransportFailed, eventID := m.eventID, topic := targets[taken]), false;
            } else {
              d, ok := shown.(action := TransferPublished, eventID := m.eventID, topic := Join(targets)), true;
              lastLocalHash := digest.sha256;
              recent.Add(m.eventID);
            }
          }
        }
      }
      RecordDecision(d);
    }

    method PublishInline(text: string, digest: Digest, built: Built) returns (d: Decision, ok: bool)
      requires Valid()
      modifies this, host, recent
      ensures Outcome(Model(), d, ok) == old(PublishText(p, Model(), text, digest, built))
    {
      var shown := Decision(NoAction, "", "", digest.size, digest.sha256, "");
      var targets := CollectPublishTopics(cfg.Routes());
      if |targets| == 0 {
        d, ok := shown.(action := IgnoredLocalPolicy), true;
      } else if built.Rejected? {
        d, ok := shown.(action := ValidationFailed, eventID := built.eventID), false;
      } else {
        var taken := host.PublishToAll(p.env, targets, TEXT_EVENT_NAME, TextBody(built.wire));
        if taken < |targets| {
          d, ok := shown.(action := TransportFailed, eventID := built.eventID, topic := targets[taken]), false;
        } else {
          d, ok := shown.(action := LocalPublished, eventID := built.eventID, topic := Join(targets), text := text),
              true;
          lastLocalHash := digest.sha256;
          recent.Add(built.eventID);
        }
      }
      RecordDecision(d);
    }

    method HandleInline(text: string, digest: Digest, built: Built) returns (d: Decision, ok: bool)
      requires Valid()
      modifies this, host, recent, suppress
      ensures Outcome(Model(), d, ok) == old(HandleInlineText(p, Model(), text, digest, built))
    {
      var shown := Decision(NoAction, "", "", digest.size, digest.sha256, "");
      var echoed := suppress.Consume(digest.sha256);
      if echoed {
        d, ok := shown.(action := IgnoredLoop), true;
        RecordDecision(d);
        return;
      }
      assert suppress.Model() == old(suppress.Model());
      if digest.sha256 == lastLocalHash {
        d, ok := shown.(action := IgnoredUnchanged), true;
        RecordDecision(d);
        return;
      }
      d, ok := PublishInline(text, digest, built);
    }

    method HandleLocalText(hash: HashFn, raw: RawText, newID: Option<string>, nowMillis: int) returns (d: Decision,
        ok: bool)
      requires Valid()
      modifies this, host, recent, suppress
      ensures Outcome(Model(), d, ok) == old(Sync.HandleLocalText(hash, p, Model(), raw, newID, nowMillis))
    {
      hide InspectText, InspectTextContent, HandleInlineText, BuildTextEvent, PublishTransferManifest;
      if !cfg.enabled {
        d, ok := Plain(Disabled), true;
        RecordDecision(d);
        return;
      }
      if !p.hasBus {
        d, ok := Plain(TransportFailed), false;
        RecordDecision(d);
        return;
      }
      var inspected := InspectText(hash, raw, cfg.maxInlineBytes);
      if inspected.None? {
        var content := InspectTextContent(hash, raw);
        if content.None? {
          d, ok := Plain(ValidationFailed), false;
          RecordDecision(d);
          return;
        }
        d, ok := PublishManifest(content.value, newID, nowMillis);
        return;
      }
      var built := BuildTextEvent(hash, p, cfg, raw.text, inspected.value, newID);
      d, ok := HandleInline(raw.text, inspected.value, built);
    }

    // -------------------------------------------------------------- remote messages

    method HandleManifest(topic: string, payload: Payload) returns (d: Decision, ok: bool)
      requires Valid()
      modifies this, recent
      ensures Outcome(Model(), d, ok) == old(HandleTransferManifest(p, Model(), topic, payload))
    {
      var manifest := ParseManifest(payload);
      if manifest.None? {
        d, ok := Plain(ValidationFailed).(topic := topic), false;
      } else {
        var m := manifest.value;
        var shown := Decision(NoAction, m.eventID, topic, m.size, m.sha256, "");
        ok := true;
        var seen := recent.Contains(m.eventID);
        if m.IsLocalOrigin(p.nodeID, p.instanceID) {
          d := shown.(action := IgnoredLocalOrigin);
        } else if seen {
          d := shown.(action := IgnoredDuplicate);
        } else {
          recent.Add(m.eventID);
          d := shown.(action := TransferPending);
        }
      }
      RecordDecision(d);
    }

    method HandleText(topic: string, e: TextEvent) returns (d: Decision, ok: bool)
      requires Valid()
      modifies this, host, recent, suppress
      ensures Outcome(Model(), d, ok) == old(HandleTextEvent(p, Model(), topic, e))
    {
      var shown := Decision(NoAction, e.eventID, topic, e.size, e.sha256, "");
      ok := true;
      var seen := recent.Contains(e.eventID);
      if e.IsLocalOrigin(p.nodeID, p.instanceID) {
        d := shown.(action := IgnoredLocalOrigin);
      } else if seen {
        d := shown.(action := IgnoredDuplicate);
      } else if e.eventID in pending {
        d := shown.(action := IgnoredDuplicate);
      } else if !cfg.autoApply {
        d := shown.(action := RemotePending, text := e.text);
        AddPendingLocked(Pending(e, topic));
      } else if !p.hasClipboard {
        d, ok := shown.(action := ClipboardWriteFailed), false;
      } else {
        ok := host.Write(p.env, e.text);
        if ok {
          d := shown.(action := RemoteApplied, text := e.text);
          recent.Add(e.eventID);
          suppress.Add(e.sha256);
          ledger := ledger.(direct := ledger.direct + multiset{e.eventID});
        } else {
          d := shown.(action := ClipboardWriteFailed);
        }
      }
      RecordDecision(d);
    }

    method HandleTopicBusMessage(hash: HashFn, topic: string, name: string, payload: Payload) returns (d: Decision,
        ok: bool)
      requires Valid()
      modifies this, host, recent, suppress
      ensures Outcome(Model(), d, ok) == old(Sync.HandleTopicBusMessage(hash, p, Model(), topic, name, payload))
    {
      var here := Plain(NoAction).(topic := topic);
      if !cfg.enabled {
        d, ok := Plain(Disabled), true;
        RecordDecision(d);
        return;
      }
      var route := FindRoute(cfg.Routes(), topic);
      if route.None? {
        d, ok := here.(action := IgnoredTopic), true;
        RecordDecision(d);
        return;
      }
      if !route.value.syncToLocal {
        d, ok := here.(action := IgnoredTopicPolicy), true;
        RecordDecision(d);
        return;
      }
      if name != TEXT_EVENT_NAME && name != TRANSFER_EVENT_NAME {
        d, ok := here.(action := IgnoredName), true;
        RecordDecision(d);
        return;
      }
      if name == TRANSFER_EVENT_NAME {
        d, ok := HandleManifest(topic, payload);
        return;
      }
      var parsed := Parse(hash, payload, cfg.maxInlineBytes);
      if parsed.None? {
        d, ok := here.(action := ValidationFailed), false;
        RecordDecision(d);
        return;
      }
      d, ok := HandleText(topic, parsed.value);
    }

    method ApplyPending(eventID: string) returns (d: Decision, ok: bool)
      requires Valid()
      modifies this, host, recent, suppress
      ensures Outcome(Model(), d, ok) == old(Sync.ApplyPending(p, Model(), eventID))
    {
      var id := TrimSpace(eventID);
      if id == "" || id !in pending {
        return Plain(NoAction), false;
      }
      var entry := pending[id];
      var e := entry.event;
      var shown := Decision(NoAction, e.eventID, entry.topic, e.size, e.sha256, "");
      ok := false;
      d := shown.(action := ClipboardWriteFailed);
      if p.hasClipboard {
        ok := host.Write(p.env, e.text);
        if ok {
          d := shown.(action := RemoteApplied, text := e.text);
          DeletePendingLocked(id);
          recent.Add(e.eventID);
          suppress.Add(e.sha256);
          ledger := ledger.(fromPending := ledger.fromPending + multiset{e.eventID});
        }
      }
      RecordDecision(d);
    }

    // -------------------------------------------------------------- lifecycle

    method ClearStartState()
      modifies this`started, this`subscribed, this`watching, this`watcher
      ensures Session(started, subscribed, watching, watcher) == Stopped()
    {
      started, subscribed, watching, watcher := false, false, false, None;
    }

    method CancelWatcher()
      modifies host
      ensures host.Model() == Cancelled(old(host.Model()), watcher)
    {
      if watcher.Some? {
        host.Cancel({watcher.value});
      }
    }

    /** A start that failed: take back the topics, forget the session, and record the failure. */
    method AbandonStart(done: seq<string>)
      requires Valid()
      modifies this, host
      ensures Model() == old(TransportFailure(Model().(
                               world := UnsubscribeAll(p.env, host.Model(), done, true).0, session := Stopped())).state)
    {
      hide UnsubscribeAll;
      var _ := host.UnsubscribeTopics(p.env, done);
      ClearStartState();
      RecordDecision(Plain(TransportFailed));
    }

    method Start() returns (ok: bool)
      requires Valid()
      modifies this, host
      ensures var o := old(Sync.Start(p, Model())); Model() == o.state && ok == o.ok
    {
      hide SubscribeAll, UnsubscribeAll, SubscriptionTopics, Record;
      if started {
        return true;
      }
      if !cfg.enabled {
        started := true;
        return true;
      }
      if !p.hasBus {
        return false;
      }
      if (cfg.autoWatch || cfg.autoApply) && !p.hasClipboard {
        return false;
      }
      var topics := CollectSubscriptionTopics(cfg.Routes());
      var done;
      done, ok := host.SubscribeTopics(p.env, topics);
      if !ok {
        AbandonStart(done);
        return;
      }
      var newWatcher: Option<nat> := None;
      if cfg.autoWatch {
        var id;
        ok, id := host.Watch(p.env);
        if !ok {
          AbandonStart(done);
          return;
        }
        newWatcher := Some(id);
      }
      started, subscribed, watching, watcher := true, true, cfg.autoWatch, newWatcher;
    }

    method Stop(closed: bool) returns (ok: bool)
      requires Valid()
      modifies this, host
      ensures var o := old(Sync.Stop(p, Model(), closed)); Model() == o.state && ok == o.ok
    {
      var wasStarted, wasSubscribed := started, subscribed;
      ClearStartState();
      if wasStarted {
        var all := host.watchers;
        host.Cancel(all);
        assert all - all == {};
      }
      ok := true;
      if wasSubscribed && p.hasBus {
        var topics := CollectSubscriptionTopics(cfg.Routes());
        ok := host.UnsubscribeTopics(p.env, topics);
      }
      if p.hasClipboard {
        ok := ok && closed;
      }
    }

    /** The part of switching off that is done under the lock. */
    method ForgetSession(next: Config)
      requires Valid()
      modifies this
      ensures Model() == old(Model().(
                               cfg := next, session := Session(started, false, false, None), inbox :=
                                   Inbox(pendingLimit, map[], []),
                               ledger := ledger.(dropped := ledger.dropped + multiset(pending.Keys))))
    {
      cfg := next;
      subscribed, watching, watcher := false, false, None;
      ledger := ledger.(dropped := ledger.dropped + multiset(pending.Keys));
      pending, pendingOrder := map[], [];
    }

    method DisableSync(next: Config) returns (ok: bool)
      requires Valid()
      modifies this, host
      ensures var o := old(Disable(p, Model(), next)); Model() == o.state && ok == o.ok
    {
      hide UnsubscribeAll, SubscriptionTopics;
      var topics := CollectSubscriptionTopics(cfg.Routes());
      CancelWatcher();
      ForgetSession(next);
      ok := true;
      if p.hasBus {
        ok := host.UnsubscribeTopics(p.env, topics);
      }
    }

    method DropOldTopics(next: Config) returns (ok: bool)
      modifies host
      ensures (host.Model(), ok) == old(DropTopics(p, cfg, next, host.Model()))
    {
      hide UnsubscribeAll, TopicsToSubscribe, TopicsToUnsubscribe;
      var adding := CollectTopicsToSubscribe(cfg, next);
      var dropping := CollectTopicsToUnsubscribe(cfg, next);
      ok := host.UnsubscribeTopics(p.env, dropping);
      if !ok {
        var _ := host.UnsubscribeTopics(p.env, adding);
      }
    }

    method CommitChange(next: Config, newWatcher: Option<nat>) returns (ok: bool)
      requires Valid()
      modifies this, host
      ensures var o := old(FinishChange(p, Model(), next, host.Model(), newWatcher)); Model() == o.state && ok == o.ok
    {
      hide DropTopics;
      ok := DropOldTopics(next);
      if !ok {
        RecordDecision(Plain(TransportFailed));
        return;
      }
      cfg := next;
      subscribed := next.enabled;
      if watching && (!next.enabled || !next.autoWatch) {
        watching, watcher := false, None;
      }
      if newWatcher.Some? {
        watching, watcher := true, newWatcher;
      }
    }

    method ChangeConfig(next: Config) returns (ok: bool)
      requires Valid()
      modifies this, host
      ensures var o := old(Change(p, Model(), next)); Model() == o.state && ok == o.ok
    {
      var adding := CollectTopicsToSubscribe(cfg, next);
      var done;
      done, ok := host.SubscribeTopics(p.env, adding);
      if !ok {
        var _ := host.UnsubscribeTopics(p.env, done);
        RecordDecision(Plain(TransportFailed));
        return;
      }
      if watching && (!next.enabled || !next.autoWatch) {
        CancelWatcher();
      }
      var newWatcher: Option<nat> := None;
      if next.enabled && next.autoWatch && !watching {
        var id;
        ok, id := host.Watch(p.env);
        if !ok {
          var _ := host.UnsubscribeTopics(p.env, adding);
          RecordDecision(Plain(TransportFailed));
          return;
        }
        newWatcher := Some(id);
      }
      ok := CommitChange(next, newWatcher);
    }

    method UpdateConfig(c: Config) returns (ok: bool)
      requires Valid()
      modifies this, host
      ensures var o := old(Sync.UpdateConfig(p, Model(), c)); Model() == o.state && ok == o.ok
    {
      var normal := NormalizeConfig(c);
      if normal.None? {
        return false;
      }
      var next := normal.value;
      if !started {
        cfg := next;
        return true;
      }
      if next.enabled && !p.hasBus {
        return false;
      }
      if next.enabled && (next.autoWatch || next.autoApply) && !p.hasClipboard {
        return false;
      }
      if cfg.enabled && !next.enabled {
        ok := DisableSync(next);
      } else {
        ok := ChangeConfig(next);
      }
    }

    method OnConnectivityRestored() returns (ok: bool)
      requires Valid()
      modifies this, host
      ensures var o := old(Sync.OnConnectivityRestored(p, Model())); Model() == o.state && ok == o.ok
    {
      if !started || !cfg.enabled {
        return true;
      }
      if !p.hasBus {
        return false;
      }
      var topics := CollectSubscriptionTopics(cfg.Routes());
      var done;
      done, ok := host.SubscribeTopics(p.env, topics);
      if !ok {
        var _ := host.UnsubscribeTopics(p.env, done);
        RecordDecision(Plain(TransportFailed));
        return;
      }
      subscribed := true;
    }
  }
}
