/** What every run of the runtime keeps: bounded and consistent memory, conservation, at-most-once apply. */
module Laws {
  import opened Options
  import opened Text
  import opened Config
  import opened Event
  import opened World
  import opened Topics
  import opened Dedupe
  import opened Sync
  import opened Effects

  // ---------------------------------------------------------------- the inbox

  /** The list is a duplicate-free listing of the waiting events, and there are at most `limit`. */
  ghost predicate BoxOk(box: Inbox) {
    && 1 <= box.limit
    && |box.entries| <= box.limit
    && Distinct(box.order)
    && (forall id :: id in box.order <==> id in box.entries)
    && (forall id :: id in box.entries ==> id != "" && box.entries[id].event.eventID == id)
  }

  lemma BoxSize(box: Inbox)
    requires Distinct(box.order) && forall id :: id in box.order <==> id in box.entries
    ensures |box.order| == |box.entries|
  {
    DistinctSize(box.order);
    assert Elements(box.order) == box.entries.Keys;
  }

  /** Queueing a fresh event into a full inbox takes out the oldest one and remembers it. */
  lemma AddPendingEffect(s: State, entry: Pending)
    requires BoxOk(s.inbox) && s.recent.Fifo() && Fresh(s, entry.event)
    ensures var id, t := entry.event.eventID, AddPending(s, entry);
            var full := |s.inbox.entries| == s.inbox.limit;
            && BoxOk(t.inbox) && t.inbox.limit == s.inbox.limit
            && (full ==> s.inbox.order != [] && s.inbox.order[0] in s.inbox.entries)
            && t.inbox.order == (if full then s.inbox.order[1..] else s.inbox.order) + [id]
            && t.inbox.entries == (if full then s.inbox.entries[id := entry] - {s.inbox.order[0]}
                 else s.inbox.entries[id := entry])
            && t.recent == (if full then Added(s.recent, s.inbox.order[0]) else s.recent)
            && t.suppress == s.suppress
            && t.ledger == s.ledger.(evicted := s.ledger.evicted + if full then multiset{s.inbox.order[0]}
                 else multiset{})
  {
    var id := entry.event.eventID;
    BoxSize(s.inbox);
    CompactionNotReached(s, entry);
    OneMoreEntry(s.inbox, entry);
    if |s.inbox.entries| == s.inbox.limit {
      NextBoxFull(s.inbox, entry);
      EvictOnce(Inbox(s.inbox.limit, s.inbox.entries[id := entry], s.inbox.order + [id]), s.recent, s.ledger.evicted);
      hide EvictPending, CompactPending, BoxOk, Added;
      assert (s.inbox.order + [id])[1..] == s.inbox.order[1..] + [id];
    } else {
      NextBoxBelow(s.inbox, entry);
    }
  }

  lemma OneMoreEntry(box: Inbox, entry: Pending)
    requires BoxOk(box) && entry.event.eventID !in box.entries
    ensures |box.entries[entry.event.eventID := entry]| == |box.entries| + 1
    ensures |box.entries| == box.limit ==>
              box.order != [] && box.order[0] in box.entries && (box.order + [entry.event.eventID])[0] == box.order[0]
  {
    var id := entry.event.eventID;
    BoxSize(box);
    assert box.entries[id := entry].Keys == box.entries.Keys + {id};
    if |box.entries| == box.limit { assert box.order[0] in box.order; }
  }

  /** The list never gets long enough to be compacted, not even between the eviction and the check. */
  lemma CompactionNotReached(s: State, entry: Pending)
    requires BoxOk(s.inbox) && entry.event.eventID != ""
    ensures var id := entry.event.eventID;
            var order := if id in s.inbox.entries then s.inbox.order else s.inbox.order + [id];
            var queued := Inbox(s.inbox.limit, s.inbox.entries[id := entry], order);
            var box := EvictPending(queued, s.recent, s.ledger.evicted).0;
            |order| <= s.inbox.limit + 1 && |box.order| <= s.inbox.limit && CompactPending(box) == box
  {
    var id := entry.event.eventID;
    BoxSize(s.inbox);
    if id in s.inbox.entries {
      assert s.inbox.entries[id := entry].Keys == s.inbox.entries.Keys;
    } else {
      assert s.inbox.entries[id := entry].Keys == s.inbox.entries.Keys + {id};
      if |s.inbox.entries| == s.inbox.limit {
        var order := s.inbox.order + [id];
        assert order[0] == s.inbox.order[0] && order[0] in s.inbox.order;
        EvictOnce(Inbox(s.inbox.limit, s.inbox.entries[id := entry], order), s.recent, s.ledger.evicted);
      }
    }
  }

  lemma EvictOnce(box: Inbox, recent: Window, evicted: multiset<string>)
    requires |box.entries| == box.limit + 1 && box.order != [] && box.order[0] in box.entries
    ensures EvictPending(box, recent, evicted) ==
            (Inbox(box.limit, box.entries - {box.order[0]}, box.order[1..]), Added(recent, box.order[0]),
             evicted + multiset{box.order[0]})
  {
    var next := Inbox(box.limit, box.entries - {box.order[0]}, box.order[1..]);
    assert next.entries.Keys == box.entries.Keys - {box.order[0]};
    assert |next.entries.Keys| == box.limit;
  }

  lemma TailDistinct(s: seq<string>)
    requires Distinct(s) && s != []
    ensures Distinct(s[1..]) && s[0] !in s[1..] && forall x :: x in s[1..] <==> x in s && x != s[0]
  {
    assert s == [s[0]] + s[1..];
    forall i, j | 0 <= i < j < |s[1..]| ensures s[1..][i] != s[1..][j] {
      assert s[1..][i] == s[i + 1] && s[1..][j] == s[j + 1];
    }
    forall x | x in s[1..] ensures x != s[0] {
      var i :| 0 <= i < |s[1..]| && s[1..][i] == x;
      assert s[i + 1] == x;
    }
  }

  lemma NextBoxBelow(box: Inbox, entry: Pending)
    requires BoxOk(box) && entry.event.eventID != "" && entry.event.eventID !in box.entries
    requires |box.entries| < box.limit
    ensures var id := entry.event.eventID; BoxOk(Inbox(box.limit, box.entries[id := entry], box.order + [id]))
  {
    var id := entry.event.eventID;
    assert id !in box.order;
    AppendFresh(box.order, id);
    var next := Inbox(box.limit, box.entries[id := entry], box.order + [id]);
    assert forall x :: x in next.order <==> x in box.order || x == id;
    BoxSize(box);
    BoxSize(next);
  }

  lemma NextBoxFull(box: Inbox, entry: Pending)
    requires BoxOk(box) && entry.event.eventID != "" && entry.event.eventID !in box.entries
    requires |box.entries| == box.limit == |box.order|
    ensures var id := entry.event.eventID;
            BoxOk(Inbox(box.limit, box.entries[id := entry] - {box.order[0]}, box.order[1..] + [id]))
  {
    hide Distinct;
    var id := entry.event.eventID;
    var next := Inbox(box.limit, box.entries[id := entry] - {box.order[0]}, box.order[1..] + [id]);
    NextOrder(box, id);
    BoxSize(next);
  }

  lemma NextOrder(box: Inbox, id: string)
    requires BoxOk(box) && id !in box.entries && box.order != []
    ensures Distinct(box.order[1..] + [id])
    ensures forall x :: x in box.order[1..] + [id] <==> (x in box.entries && x != box.order[0]) || x == id
  {
    TailDistinct(box.order);
    hide Distinct;
    assert id !in box.order[1..];
    AppendFresh(box.order[1..], id);
    forall x ensures x in box.order[1..] + [id] <==> (x in box.entries && x != box.order[0]) || x == id {
      assert x in box.order[1..] + [id] <==> x in box.order[1..] || x == id;
    }
  }

  lemma {:induction false} RemoveFirstHolds(order: seq<string>, id: string)
    requires Distinct(order)
    ensures Distinct(RemoveFirst(order, id))
    ensures forall x :: x in RemoveFirst(order, id) <==> x in order && x != id
  {
    if order != [] {
      var rest := order[1..];
      assert order == [order[0]] + rest;
      assert Distinct(rest) by {
        forall i, j | 0 <= i < j < |rest| ensures rest[i] != rest[j] {
          assert rest[i] == order[i + 1] && rest[j] == order[j + 1];
        }
      }
      assert order[0] !in rest;
      if order[0] != id {
        RemoveFirstHolds(rest, id);
        var out := [order[0]] + RemoveFirst(rest, id);
        forall i, j | 0 <= i < j < |out| ensures out[i] != out[j] {
          if i == 0 { assert out[j] in RemoveFirst(rest, id); }
        }
      }
    }
  }

  lemma DeletePendingOk(s: State, id: string)
    requires BoxOk(s.inbox)
    ensures BoxOk(DeletePending(s, id).inbox)
    ensures DeletePending(s, id).inbox.entries == s.inbox.entries - {id}
  {
    RemoveFirstHolds(s.inbox.order, id);
    assert (s.inbox.entries - {id}).Keys == s.inbox.entries.Keys - {id};
    Subset(s.inbox.entries.Keys - {id}, s.inbox.entries.Keys);
  }

  // ---------------------------------------------------------------- the invariant of every run

  /** The identifiers of the decisions of one kind, with repetition. */
  function Ids(log: seq<Decision>, action: Action): multiset<string> {
    if log == [] then multiset{}
    else
      var d := log[|log| - 1];
      Ids(log[..|log| - 1], action) + if d.action == action then multiset{d.eventID} else multiset{}
  }

  /**
   Conservation: every event ever made pending is still pending, was applied from there, was
   evicted, or was dropped when sync was disabled; every apply was direct or from pending.
   */
  ghost predicate Conserved(s: State) {
    && Ids(s.log, RemotePending) ==
       multiset(s.inbox.entries.Keys) + s.ledger.fromPending + s.ledger.evicted + s.ledger.dropped
    && Ids(s.log, RemoteApplied) == s.ledger.direct + s.ledger.fromPending
  }

  ghost predicate Inv(s: State) {
    s.recent.Fifo() && s.suppress.Valid() && BoxOk(s.inbox) && Conserved(s)
  }

  lemma CreatedInv(p: Params, c: Config, recentLimit: nat, suppressLimit: nat)
    requires Created(p, c, recentLimit, suppressLimit).Some?
    ensures Inv(Created(p, c, recentLimit, suppressLimit).value)
  {
    hide Normalized;
    var s := Created(p, c, recentLimit, suppressLimit).value;
    assert s.inbox.entries.Keys == {};
  }

  lemma IdsStep(s: State, t: State, action: Action)
    requires |t.log| == |s.log| + 1 && t.log[..|s.log|] == s.log
    ensures Ids(t.log, action) ==
            Ids(s.log, action) + if t.log[|s.log|].action == action then multiset{t.log[|s.log|].eventID}
                else multiset{}
  {
  }

  lemma SilentIds(s: State, t: State)
    requires LoggedSilently(s, t)
    ensures Ids(t.log, RemotePending) == Ids(s.log, RemotePending)
    ensures Ids(t.log, RemoteApplied) == Ids(s.log, RemoteApplied)
  {
    if t.log != s.log {
      IdsStep(s, t, RemotePending);
      IdsStep(s, t, RemoteApplied);
    }
  }

  lemma KeysInsert(m: map<string, Pending>, id: string, entry: Pending)
    requires id !in m
    ensures multiset(m[id := entry].Keys) == multiset(m.Keys) + multiset{id}
  {
    assert m[id := entry].Keys == m.Keys + {id};
  }

  lemma KeysRemove(m: map<string, Pending>, id: string)
    requires id in m
    ensures multiset((m - {id}).Keys) + multiset{id} == multiset(m.Keys)
  {
    assert (m - {id}).Keys == m.Keys - {id};
  }

  lemma RecentAdded(w: Window, id: string)
    requires w.Fifo()
    ensures Added(w, id).Fifo() && Added(w, id).limit == w.limit
    ensures id != "" ==> id in Added(w, id).members
    ensures Added(w, id).members <= w.members + {id}
  {
    if id != "" && id !in w.members { AddFifo(w, id); }
  }

  lemma QueueConserved(s: State, t: State, entry: Pending)
    requires Inv(s) && Explains(Queue(entry), s, t)
    ensures Conserved(t)
  {
    hide AddPending, BoxOk, Added, Ids;
    AddPendingEffect(s, entry);
    IdsStep(s, t, RemotePending);
    IdsStep(s, t, RemoteApplied);
    var id := entry.event.eventID;
    KeysInsert(s.inbox.entries, id, entry);
    if |s.inbox.entries| == s.inbox.limit {
      KeysRemove(s.inbox.entries[id := entry], s.inbox.order[0]);
    }
  }

  lemma QueueInv(s: State, t: State, entry: Pending)
    requires Inv(s) && Explains(Queue(entry), s, t)
    ensures Inv(t)
  {
    hide AddPending, Conserved, BoxOk, Added;
    QueueConserved(s, t, entry);
    AddPendingEffect(s, entry);
    if |s.inbox.entries| == s.inbox.limit {
      RecentAdded(s.recent, s.inbox.order[0]);
    }
  }

  lemma DirectInv(s: State, t: State, e: TextEvent)
    requires Inv(s) && Explains(Direct(e), s, t)
    ensures Inv(t)
  {
    hide Added;
    IdsStep(s, t, RemotePending);
    IdsStep(s, t, RemoteApplied);
    RecentAdded(s.recent, e.eventID);
    AddValid(s.suppress, e.sha256);
  }

  lemma ReleaseConserved(s: State, t: State, id: string)
    requires Inv(s) && Explains(Release(id), s, t)
    ensures Conserved(t)
  {
    hide Added;
    IdsStep(s, t, RemotePending);
    IdsStep(s, t, RemoteApplied);
    KeysRemove(s.inbox.entries, id);
  }

  lemma ReleaseInv(s: State, t: State, id: string)
    requires Inv(s) && Explains(Release(id), s, t)
    ensures Inv(t)
  {
    hide Added, Conserved, BoxOk;
    ReleaseConserved(s, t, id);
    var e := s.inbox.entries[id].event;
    RecentAdded(s.recent, e.eventID);
    AddValid(s.suppress, e.sha256);
    DeletePendingOk(s, id);
  }

  lemma EffectInv(f: Effect, s: State, t: State)
    requires Inv(s) && Explains(f, s, t)
    ensures Inv(t)
  {
    match f
    case Quiet => SilentIds(s, t);
    case Remember(id) => SilentIds(s, t); RecentAdded(s.recent, id);
    case Swallow(h) =>
      ConsumeValid(s.suppress, h);
      IdsStep(s, t, RemotePending);
      IdsStep(s, t, RemoteApplied);
    case Queue(entry) => QueueInv(s, t, entry);
    case Direct(e) => DirectInv(s, t, e);
    case Release(id) => ReleaseInv(s, t, id);
    case DropAll => assert t.inbox.entries.Keys == {};
  }

  /** Every reachable state: bounded windows and inbox, no duplicates, and every pending event accounted for. */
  lemma {:induction false} RunInv(hash: HashFn, p: Params, s0: State, inputs: seq<Input>)
    requires Inv(s0)
    ensures Inv(Run(hash, p, s0, inputs))
  {
    hide Step, Inv;
    if inputs != [] {
      var before := inputs[..|inputs| - 1];
      RunInv(hash, p, s0, before);
      var s := Run(hash, p, s0, before);
      var f := StepEffect(hash, p, s, inputs[|inputs| - 1]);
      EffectInv(f, s, Run(hash, p, s0, inputs));
    }
  }

  /** The count of pending events, in numbers. */
  lemma PendingConservation(hash: HashFn, p: Params, s0: State, inputs: seq<Input>)
    requires Inv(s0)
    ensures var s := Run(hash, p, s0, inputs);
            && |Ids(s.log, RemotePending)| ==
               |s.inbox.entries| + |s.ledger.fromPending| + |s.ledger.evicted| + |s.ledger.dropped|
            && |Ids(s.log, RemoteApplied)| == |s.ledger.direct| + |s.ledger.fromPending|
            && |s.inbox.entries| <= s.inbox.limit && |s.inbox.order| == |s.inbox.entries|
  {
    hide Run;
    RunInv(hash, p, s0, inputs);
    var s := Run(hash, p, s0, inputs);
    BoxSize(s.inbox);
    assert |multiset(s.inbox.entries.Keys)| == |s.inbox.entries|;
  }

  // ---------------------------------------------------------------- suppression

  function Count(log: seq<Decision>, action: Action, hash: string): nat {
    if log == [] then 0
    else
      var d := log[|log| - 1];
      Count(log[..|log| - 1], action, hash) + if d.action == action && d.sha256 == hash then 1 else 0
  }

  /** No local copy of h is swallowed without a remote apply of h to pay for it. */
  ghost predicate Paid(s: State, h: string) {
    Count(s.log, IgnoredLoop, h) + (if h in s.suppress.members then 1 else 0) <= Count(s.log, RemoteApplied, h)
  }

  lemma CountStep(s: State, t: State, action: Action, h: string)
    requires |t.log| == |s.log| + 1 && t.log[..|s.log|] == s.log
    ensures Count(t.log, action, h) ==
            Count(s.log, action, h) + if t.log[|s.log|].action == action && t.log[|s.log|].sha256 == h then 1 else 0
  {
  }

  lemma EffectPaid(f: Effect, s: State, t: State, h: string)
    requires Inv(s) && Explains(f, s, t) && Paid(s, h)
    ensures Paid(t, h)
  {
    hide AddPending, Conserved, BoxOk;
    if t.log != s.log {
      CountStep(s, t, IgnoredLoop, h);
      CountStep(s, t, RemoteApplied, h);
    }
    match f
    case Direct(e) => hide Added; AddValid(s.suppress, e.sha256);
    case Release(id) => hide Added; AddValid(s.suppress, s.inbox.entries[id].event.sha256);
    case Queue(entry) => QueueKeepsSuppress(s, entry);
    case _ =>
  }

  lemma QueueKeepsSuppress(s: State, entry: Pending)
    ensures AddPending(s, entry).suppress == s.suppress
  {
  }

  /** For every digest, in every run: swallowed copies never outnumber remote applies. */
  lemma {:induction false} SuppressionConservation(hash: HashFn, p: Params, s0: State, inputs: seq<Input>, h: string)
    requires Inv(s0) && Paid(s0, h)
    ensures Paid(Run(hash, p, s0, inputs), h)
  {
    hide Step, Inv, Paid;
    if inputs != [] {
      var before := inputs[..|inputs| - 1];
      SuppressionConservation(hash, p, s0, before, h);
      RunInv(hash, p, s0, before);
      var s := Run(hash, p, s0, before);
      var f := StepEffect(hash, p, s, inputs[|inputs| - 1]);
      EffectPaid(f, s, Run(hash, p, s0, inputs), h);
    }
  }

  // ---------------------------------------------------------------- at most once

  ghost predicate Remembered(s: State, id: string) {
    id in s.recent.members && id !in s.inbox.entries
  }

  /** The step logged this decision, for this event. */
  ghost predicate Logs(s: State, t: State, action: Action, id: string) {
    && |t.log| == |s.log| + 1 && t.log[..|s.log|] == s.log
    && t.log[|s.log|].action == action && t.log[|s.log|].eventID == id
  }

  ghost predicate AppliesID(s: State, t: State, id: string) {
    Logs(s, t, RemoteApplied, id)
  }

  ghost predicate QueuesID(s: State, t: State, id: string) {
    Logs(s, t, RemotePending, id)
  }

  lemma EffectApplies(f: Effect, s: State, t: State, id: string)
    requires Inv(s) && Explains(f, s, t)
    ensures AppliesID(s, t, id) ==> Remembered(t, id) && (id !in s.recent.members || f == Release(id))
    ensures QueuesID(s, t, id) ==> !Remembered(s, id) && id !in s.recent.members
    ensures Remembered(s, id) ==> !AppliesID(s, t, id) && id !in t.inbox.entries
  {
    hide Conserved;
    match f
    case Queue(entry) => hide AddPending; AddPendingEffect(s, entry);
    case Direct(e) => hide Added; RecentAdded(s.recent, e.eventID);
    case Release(r) =>
      hide Added, DeletePending;
      var e := s.inbox.entries[r].event;
      RecentAdded(s.recent, e.eventID);
      DeletePendingOk(s, r);
      DeletePendingKeepsRest(s, r);
    case _ =>
  }

  /** The states of a run: one before each input and one at the end. */
  function States(hash: HashFn, p: Params, s0: State, inputs: seq<Input>): (ss: seq<State>)
    ensures |ss| == |inputs| + 1
  {
    if inputs == [] then [s0]
    else
      var before := States(hash, p, s0, inputs[..|inputs| - 1]);
      before + [Step(hash, p, before[|inputs| - 1], inputs[|inputs| - 1]).state]
  }

  ghost predicate Follows(s: State, t: State) {
    exists f: Effect :: Explains(f, s, t)
  }

  /** Good states, each reached from the one before by one of the seven effects. */
  ghost predicate Trace(ss: seq<State>) {
    && (forall k :: 0 <= k < |ss| ==> Inv(ss[k]))
    && (forall k :: 0 <= k < |ss| - 1 ==> Follows(ss[k], ss[k + 1]))
  }

  lemma {:induction false} StatesAreRuns(hash: HashFn, p: Params, s0: State, inputs: seq<Input>, k: nat)
    requires k <= |inputs|
    ensures States(hash, p, s0, inputs)[k] == Run(hash, p, s0, inputs[..k])
  {
    hide Step;
    if inputs != [] {
      var n := |inputs| - 1;
      if k <= n {
        StatesAreRuns(hash, p, s0, inputs[..n], k);
        assert inputs[..n][..k] == inputs[..k];
      } else {
        StatesAreRuns(hash, p, s0, inputs[..n], n);
        assert inputs[..n][..n] == inputs[..n] && inputs[..k] == inputs;
      }
    }
  }

  lemma {:induction false} RunsAreTraces(hash: HashFn, p: Params, s0: State, inputs: seq<Input>)
    requires Inv(s0)
    ensures Trace(States(hash, p, s0, inputs))
  {
    hide Step, Inv, Follows;
    if inputs != [] {
      var n := |inputs| - 1;
      var ss := States(hash, p, s0, inputs);
      RunsAreTraces(hash, p, s0, inputs[..n]);
      var f := StepEffect(hash, p, ss[n], inputs[n]);
      EffectInv(f, ss[n], ss[n + 1]);
      EffectFollows(f, ss[n], ss[n + 1]);
    }
  }

  lemma EffectFollows(f: Effect, s: State, t: State)
    requires Explains(f, s, t)
    ensures Follows(s, t)
  {
  }

  ghost predicate AppliedAt(ss: seq<State>, k: int, id: string) {
    0 <= k < |ss| - 1 && AppliesID(ss[k], ss[k + 1], id)
  }

  lemma {:induction false} StaysRemembered(ss: seq<State>, id: string, i: nat, j: nat)
    requires Trace(ss) && i <= j < |ss| && Remembered(ss[i], id)
    requires forall k :: i <= k <= j ==> id in ss[k].recent.members
    ensures Remembered(ss[j], id)
    decreases j - i
  {
    hide Inv, Explains;
    if i < j {
      StaysRemembered(ss, id, i, j - 1);
      assert Follows(ss[j - 1], ss[j - 1 + 1]);
      var f :| Explains(f, ss[j - 1], ss[j]);
      RememberedKeepsOut(f, ss[j - 1], ss[j], id);
    }
  }

  lemma RememberedKeepsOut(f: Effect, s: State, t: State, id: string)
    requires Inv(s) && Explains(f, s, t) && Remembered(s, id)
    ensures id !in t.inbox.entries
  {
    hide Conserved;
    EffectApplies(f, s, t, id);
  }

  lemma AppliedIsRemembered(ss: seq<State>, id: string, i: nat)
    requires Trace(ss) && AppliedAt(ss, i, id)
    ensures Remembered(ss[i + 1], id) && !Remembered(ss[i], id)
  {
    hide Inv, Explains, AppliesID;
    assert Follows(ss[i], ss[i + 1]);
    var f :| Explains(f, ss[i], ss[i + 1]);
    EffectApplies(f, ss[i], ss[i + 1], id);
  }

  lemma AtMostOnceInTraces(ss: seq<State>, id: string, i: nat, j: nat)
    requires Trace(ss) && i < j && AppliedAt(ss, i, id) && AppliedAt(ss, j, id)
    ensures exists k :: i < k <= j && id !in ss[k].recent.members
  {
    hide Inv, Follows, AppliesID;
    AppliedIsRemembered(ss, id, i);
    AppliedIsRemembered(ss, id, j);
    if forall k :: i < k <= j ==> id in ss[k].recent.members {
      StaysRemembered(ss, id, i + 1, j);
    }
  }

  /** Input k of the run applied the event. */
  ghost predicate AppliedBy(hash: HashFn, p: Params, s0: State, inputs: seq<Input>, k: nat, id: string) {
    k < |inputs| && AppliesID(Run(hash, p, s0, inputs[..k]), Run(hash, p, s0, inputs[..k + 1]), id)
  }

  lemma AppliedByIs(hash: HashFn, p: Params, s0: State, inputs: seq<Input>, k: nat, id: string)
    requires AppliedBy(hash, p, s0, inputs, k, id)
    ensures AppliedAt(States(hash, p, s0, inputs), k, id)
  {
    hide Step, Run, AppliesID;
    StatesAreRuns(hash, p, s0, inputs, k);
    StatesAreRuns(hash, p, s0, inputs, k + 1);
  }

  /** At most once, in every run: between two applies of one event, the event left the recent window. */
  lemma AtMostOnce(hash: HashFn, p: Params, s0: State, inputs: seq<Input>, id: string, i: nat, j: nat)
    requires Inv(s0) && i < j && AppliedBy(hash, p, s0, inputs, i, id) && AppliedBy(hash, p, s0, inputs, j, id)
    ensures exists k :: i < k <= j && id !in Run(hash, p, s0, inputs[..k]).recent.members
  {
    hide Step, Inv, AppliedAt, Run;
    RunsAreTraces(hash, p, s0, inputs);
    AppliedByIs(hash, p, s0, inputs, i, id);
    AppliedByIs(hash, p, s0, inputs, j, id);
    AtMostOnceInTraces(States(hash, p, s0, inputs), id, i, j);
    var k :| i < k <= j && id !in States(hash, p, s0, inputs)[k].recent.members;
    StatesAreRuns(hash, p, s0, inputs, k);
  }

  // ---------------------------------------------------------------- how long the window lasts

  /** id is among the newest r entries of the recent window. */
  ghost predicate Newest(w: Window, id: string, r: nat) {
    exists k :: 0 <= k < |w.order| && |w.order| - r <= k && w.order[k] == id
  }

  lemma NewestAdded(w: Window, id: string, x: string, r: nat)
    requires w.Fifo() && Newest(w, id, r) && r < w.limit
    ensures Newest(Added(w, x), id, r + 1) && Added(w, x).Fifo() && Added(w, x).limit == w.limit
  {
    hide Added, Distinct;
    RecentAdded(w, x);
    var k :| 0 <= k < |w.order| && |w.order| - r <= k && w.order[k] == id;
    if x == "" || x in w.members {
      AddedSame(w, x);
    } else {
      AddFifo(w, x);
      var order := w.order + [x];
      assert order[k] == id;
      var shift := |order| - |Added(w, x).order|;
      assert Added(w, x).order[k - shift] == id;
    }
  }

  lemma AddedSame(w: Window, x: string)
    requires x == "" || x in w.members
    ensures Added(w, x) == w
  {
  }

  lemma NewestGrows(w: Window, id: string, r: nat)
    requires Newest(w, id, r)
    ensures Newest(w, id, r + 1)
  {
  }

  lemma EffectNewest(f: Effect, s: State, t: State, id: string, r: nat)
    requires Inv(s) && Explains(f, s, t) && Newest(s.recent, id, r) && r < s.recent.limit
    ensures Newest(t.recent, id, r + 1) && t.recent.limit == s.recent.limit
  {
    hide Conserved, BoxOk, Newest, Added;
    NewestGrows(s.recent, id, r);
    match f
    case Remember(x) => NewestAdded(s.recent, id, x, r);
    case Queue(entry) =>
      hide AddPending;
      AddPendingEffect(s, entry);
      if |s.inbox.entries| == s.inbox.limit {
        NewestAdded(s.recent, id, s.inbox.order[0], r);
      }
    case Direct(e) => NewestAdded(s.recent, id, e.eventID, r);
    case Release(x) => NewestAdded(s.recent, id, s.inbox.entries[x].event.eventID, r);
    case _ =>
  }

  /** The step put one identifier into the recent window that was not in it. */
  ghost predicate Inserts(s: State, t: State) {
    exists x :: x != "" && x !in s.recent.members && t.recent == Added(s.recent, x)
  }

  /** A step inserts at most one. */
  lemma EffectInserts(f: Effect, s: State, t: State)
    requires Inv(s) && Explains(f, s, t)
    ensures t.recent == s.recent || Inserts(s, t)
  {
    hide Conserved, BoxOk, Added;
    match f
    case Remember(x) => AddedInserts(s, t, x);
    case Queue(entry) =>
      hide AddPending;
      AddPendingEffect(s, entry);
      if |s.inbox.entries| == s.inbox.limit { AddedInserts(s, t, s.inbox.order[0]); }
    case Direct(e) => AddedInserts(s, t, e.eventID);
    case Release(x) => AddedInserts(s, t, s.inbox.entries[x].event.eventID);
    case _ =>
  }

  lemma AddedInserts(s: State, t: State, x: string)
    requires t.recent == Added(s.recent, x)
    ensures t.recent == s.recent || Inserts(s, t)
  {
    hide Added;
    if x == "" || x in s.recent.members { AddedSame(s.recent, x); }
  }

  /** How many of the steps from state i to state j did. */
  ghost function InsertionsIn(ss: seq<State>, i: nat, j: nat): (n: nat)
    requires j < |ss|
    ensures n <= if i < j then j - i else 0
    decreases j
  {
    if j <= i then 0 else InsertionsIn(ss, i, j - 1) + if Inserts(ss[j - 1], ss[j]) then 1 else 0
  }

  lemma {:induction false} MoreInsertions(ss: seq<State>, i: nat, k: nat, j: nat)
    requires k <= j < |ss|
    ensures InsertionsIn(ss, i, k) <= InsertionsIn(ss, i, j)
    decreases j
  {
    hide Inserts;
    if k < j { MoreInsertions(ss, i, k, j - 1); }
  }

  lemma {:induction false} StaysNewest(ss: seq<State>, id: string, i: nat, j: nat)
    requires Trace(ss) && i <= j < |ss| && Newest(ss[i].recent, id, 1) && InsertionsIn(ss, i, j) < ss[i].recent.limit
    ensures Newest(ss[j].recent, id, 1 + InsertionsIn(ss, i, j)) && ss[j].recent.limit == ss[i].recent.limit
    decreases j - i
  {
    hide Inv, Explains, Newest, Inserts;
    if i < j {
      StaysNewest(ss, id, i, j - 1);
      assert Follows(ss[j - 1], ss[j - 1 + 1]);
      var f :| Explains(f, ss[j - 1], ss[j]);
      EffectInserts(f, ss[j - 1], ss[j]);
      if Inserts(ss[j - 1], ss[j]) { EffectNewest(f, ss[j - 1], ss[j], id, 1 + InsertionsIn(ss, i, j - 1)); }
    }
  }

  lemma NewestIsMember(w: Window, id: string, r: nat)
    requires w.Fifo() && Newest(w, id, r)
    ensures id in w.members
  {
    var k :| 0 <= k < |w.order| && |w.order| - r <= k && w.order[k] == id;
    assert w.order[k] in w.order;
  }

  lemma InsertedNewest(w: Window, id: string)
    requires w.Fifo() && id != "" && id !in w.members
    ensures Newest(Added(w, id), id, 1)
  {
    hide Added;
    AddFifo(w, id);
    var order := Added(w, id).order;
    assert order[|order| - 1] == id;
  }

  lemma ApplyInsertsNewest(f: Effect, s: State, t: State, id: string)
    requires Inv(s) && Explains(f, s, t) && AppliesID(s, t, id) && id !in s.recent.members
    ensures Newest(t.recent, id, 1) && t.recent.limit == s.recent.limit
  {
    hide Conserved, Newest, Added;
    match f
    case Direct(e) => InsertedNewest(s.recent, id); RecentAdded(s.recent, id);
    case Release(x) => InsertedNewest(s.recent, id); RecentAdded(s.recent, id);
    case _ =>
  }

  lemma NoReapplyInTraces(ss: seq<State>, id: string, i: nat, j: nat)
    requires Trace(ss) && i < j && AppliedAt(ss, i, id) && AppliedAt(ss, j, id) && id !in ss[i].recent.members
    ensures InsertionsIn(ss, i + 1, j) >= ss[i].recent.limit
  {
    hide Explains, Newest, Inv, AppliesID, Inserts;
    assert Follows(ss[i], ss[i + 1]);
    var f :| Explains(f, ss[i], ss[i + 1]);
    ApplyInsertsNewest(f, ss[i], ss[i + 1], id);
    AtMostOnceInTraces(ss, id, i, j);
    var k :| i < k <= j && id !in ss[k].recent.members;
    if InsertionsIn(ss, i + 1, j) < ss[i].recent.limit {
      MoreInsertions(ss, i + 1, k, j);
      StaysNewest(ss, id, i + 1, k);
      InvFifo(ss[k]);
      NewestIsMember(ss[k].recent, id, 1 + InsertionsIn(ss, i + 1, k));
    }
  }

  lemma InvFifo(s: State)
    requires Inv(s)
    ensures s.recent.Fifo()
  {
  }

  /** How many of the inputs from i up to j put a new identifier into the recent window. */
  ghost function Insertions(hash: HashFn, p: Params, s0: State, inputs: seq<Input>, i: nat, j: nat): (n: nat)
    requires j <= |inputs|
    ensures n <= if i < j then j - i else 0
    decreases j
  {
    if j <= i then 0
    else
      Insertions(hash, p, s0, inputs, i, j - 1)
      + if Inserts(Run(hash, p, s0, inputs[..j - 1]), Run(hash, p, s0, inputs[..j])) then 1 else 0
  }

  lemma {:induction false} InsertionsAre(hash: HashFn, p: Params, s0: State, inputs: seq<Input>, i: nat, j: nat)
    requires j <= |inputs|
    ensures Insertions(hash, p, s0, inputs, i, j) == InsertionsIn(States(hash, p, s0, inputs), i, j)
    decreases j
  {
    hide Run, States, Inserts;
    if i < j {
      InsertionsAre(hash, p, s0, inputs, i, j - 1);
      StatesAreRuns(hash, p, s0, inputs, j - 1);
      StatesAreRuns(hash, p, s0, inputs, j);
    }
  }

  /**
   A whole window: an event applied while it was not remembered is applied again only after as many new
   identifiers went into the recent window as it holds.
   */
  lemma WindowBetweenApplies(hash: HashFn, p: Params, s0: State, inputs: seq<Input>, id: string, i: nat, j: nat)
    requires Inv(s0) && i < j && AppliedBy(hash, p, s0, inputs, i, id) && AppliedBy(hash, p, s0, inputs, j, id)
    requires id !in Run(hash, p, s0, inputs[..i]).recent.members
    ensures Insertions(hash, p, s0, inputs, i + 1, j) >= Run(hash, p, s0, inputs[..i]).recent.limit
  {
    hide Step, Inv, AppliedAt, Run, Insertions, InsertionsIn;
    RunsAreTraces(hash, p, s0, inputs);
    AppliedByIs(hash, p, s0, inputs, i, id);
    AppliedByIs(hash, p, s0, inputs, j, id);
    StatesAreRuns(hash, p, s0, inputs, i);
    NoReapplyInTraces(States(hash, p, s0, inputs), id, i, j);
    InsertionsAre(hash, p, s0, inputs, i + 1, j);
  }

  /** So none of the next recent.limit inputs applies it again, whatever they are. */
  lemma NoReapplyWithinWindow(hash: HashFn, p: Params, s0: State, inputs: seq<Input>, id: string, i: nat, j: nat)
    requires Inv(s0) && i < j && AppliedBy(hash, p, s0, inputs, i, id) && AppliedBy(hash, p, s0, inputs, j, id)
    requires id !in Run(hash, p, s0, inputs[..i]).recent.members
    ensures j - i > Run(hash, p, s0, inputs[..i]).recent.limit
  {
    hide Inv, AppliesID, Run;
    WindowBetweenApplies(hash, p, s0, inputs, id, i, j);
  }

  // ---------------------------------------------------------------- the loophole left by manifests

  lemma ApplyExactly(p: Params, s: State, eventID: string, id: string)
    requires BoxOk(s.inbox)
    ensures AppliesID(s, ApplyPending(p, s, eventID).state, id) <==>
            && TrimSpace(eventID) == id && id in s.inbox.entries && p.hasClipboard
            && |s.world.calls| !in p.env.write
  {
    hide TrimSpace, Added, RemoveFirst;
  }

  /** While an event is remembered it is never queued, and applied exactly when the user releases a waiting copy. */
  lemma RememberedApplyExactly(hash: HashFn, p: Params, s: State, input: Input, id: string)
    requires Inv(s) && id in s.recent.members
    ensures var t := Step(hash, p, s, input).state;
            && !QueuesID(s, t, id)
            && (AppliesID(s, t, id) <==>
                && input.ApplyInput? && TrimSpace(input.eventID) == id && id in s.inbox.entries
                && p.hasClipboard && |s.world.calls| !in p.env.write)
  {
    hide Step, Inv, AppliesID, QueuesID, Explains, TrimSpace, ApplyPending, Accepts;
    InvBox(s);
    var f := StepEffect(hash, p, s, input);
    EffectApplies(f, s, Step(hash, p, s, input).state, id);
    if input.ApplyInput? {
      StepIsApply(hash, p, s, input.eventID);
      ApplyExactly(p, s, input.eventID, id);
    }
  }

  lemma InvBox(s: State)
    requires Inv(s)
    ensures BoxOk(s.inbox)
  {
    hide Conserved;
  }

  lemma ManifestDispatch(hash: HashFn, p: Params, s: State, topic: string, payload: Payload)
    requires s.cfg.enabled
    requires RouteFor(s.cfg.Routes(), topic).Some? && RouteFor(s.cfg.Routes(), topic).value.syncToLocal
    ensures Step(hash, p, s, MessageInput(topic, TRANSFER_EVENT_NAME, payload)) ==
              HandleTransferManifest(p, s, topic, payload)
  {
    hide Step, HandleTransferManifest, HandleTextEvent, Parse, RouteFor;
    StepIsMessage(hash, p, s, topic, TRANSFER_EVENT_NAME, payload);
  }

  /**
   A waiting event can be remembered: a manifest with the identifier of a waiting text event is noted
   in the recent window, and the text can still be applied.
   */
  lemma ManifestRemembersWaitingEvent(hash: HashFn, p: Params, s: State, topic: string, payload: Payload, m: Manifest,
                                      eventID: string)
    requires Inv(s) && s.cfg.enabled
    requires RouteFor(s.cfg.Routes(), topic).Some? && RouteFor(s.cfg.Routes(), topic).value.syncToLocal
    requires ParseManifest(payload) == Some(m) && !m.IsLocalOrigin(p.nodeID, p.instanceID)
    requires m.eventID in s.inbox.entries && m.eventID !in s.recent.members
    ensures var t := Step(hash, p, s, MessageInput(topic, TRANSFER_EVENT_NAME, payload)).state;
            && m.eventID in t.recent.members && m.eventID in t.inbox.entries
            && (TrimSpace(eventID) == m.eventID && p.hasClipboard && |t.world.calls| !in p.env.write ==>
                  AppliesID(t, Step(hash, p, t, ApplyInput(eventID)).state, m.eventID))
  {
    hide Step, Conserved, Added, ParseManifest, TrimSpace, RouteFor, AppliesID;
    var t := Step(hash, p, s, MessageInput(topic, TRANSFER_EVENT_NAME, payload)).state;
    ManifestDispatch(hash, p, s, topic, payload);
    RecentAdded(s.recent, m.eventID);
    ApplyExactly(p, t, eventID, m.eventID);
    StepIsApply(hash, p, t, eventID);
  }
}
