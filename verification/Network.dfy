/**
 Several nodes on one bus. A node's clipboard watcher reports what the user copies and, some time later
 or never, what the node itself wrote: its echoes. The bus delivers any published message to any node,
 any number of times, in any order, or never.
 */
module Network {
  import opened Options
  import opened Text
  import opened Config
  import ConfigStore
  import opened Event
  import opened World
  import opened Topics
  import opened Dedupe
  import opened Sync
  import opened Effects
  import opened Laws
  import opened Policy

  /**
   `echoes`: the digests of the writes to the clipboard whose report is still to come, one for each write;
   a watcher that merges equal texts loses some of them. `wrote`: the texts written. The counters are for
   the laws below.
   */
  datatype Node = Node(p: Params, s: State, echoes: multiset<string>, wrote: set<string>,
                       copies: nat, published: nat, overflows: nat)

  /** `copied`: every text any user ever copied. */
  datatype Net = Net(nodes: seq<Node>, copied: set<string>)

  datatype NetStep =
    | Copy(node: nat, text: string, newID: Option<string>, nowMillis: int)
    | Echo(node: nat, text: string, newID: Option<string>, nowMillis: int)
    | Lose(node: nat, digest: string)
    | Deliver(node: nat, message: Call, wire: string)
    | Manage(node: nat, input: Input)

  /** The bytes a receiver sees: a text event's own, or some encoding of the manifest. */
  function Arriving(body: Body, wire: string): Payload {
    match body
    case TextBody(w) => Received(w)
    case ManifestBody(m) => Payload(wire, None, Some(m))
  }

  predicate OnBus(net: Net, message: Call) {
    message.Publish? && message.ok && exists q :: 0 <= q < |net.nodes| && message in net.nodes[q].s.world.calls
  }

  predicate Due(hash: HashFn, n: Node, text: string) {
    text in n.wrote && hash(text) in n.echoes
  }

  predicate Possible(hash: HashFn, net: Net, step: NetStep) {
    && step.node < |net.nodes|
    && match step
       case Copy(_, _, _, _) => true
       case Echo(n, text, _, _) => Due(hash, net.nodes[n], text)
       case Lose(n, h) => h in net.nodes[n].echoes
       case Deliver(_, m, _) => OnBus(net, m)
       case Manage(_, input) => !input.LocalInput? && !input.MessageInput?
  }

  predicate TextPublish(c: Call) {
    c.Publish? && c.name == TEXT_EVENT_NAME && c.ok
  }

  /** The step put at least one copy of a text event on the bus. */
  predicate PublishesText(s: State, t: State) {
    exists k :: |s.world.calls| <= k < |t.world.calls| && TextPublish(t.world.calls[k])
  }

  predicate AppliedLast(s: State, t: State) {
    |t.log| == |s.log| + 1 && t.log[|s.log|].action == RemoteApplied
  }

  /**
   Granting a token for h leaves an echo uncovered: the token is there already and an earlier echo of h
   needs it, or the grant drives out a token that an echo still to come needs, perhaps its own.
   */
  predicate LosesEcho(w: Window, h: string, echoes: multiset<string>) {
    || (h in w.members && h in echoes)
    || exists x :: x in w.members + {h} - Added(w, h).members && x in echoes + multiset{h}
  }

  /** An apply that leaves an echo uncovered. */
  predicate Overflows(s: State, t: State, echoes: multiset<string>) {
    AppliedLast(s, t) && LosesEcho(s.suppress, t.log[|s.log|].sha256, echoes)
  }

  /** The node after one input: applied texts become echoes, and the counters move. */
  function Moved(hash: HashFn, n: Node, input: Input): Node {
    var t := Step(hash, n.p, n.s, input).state;
    var applied := AppliedLast(n.s, t);
    Node(n.p, t,
         if applied then n.echoes + multiset{t.log[|n.s.log|].sha256} else n.echoes,
         if applied then n.wrote + {t.log[|n.s.log|].text} else n.wrote,
         n.copies,
         n.published + if PublishesText(n.s, t) then 1 else 0,
         n.overflows + if Overflows(n.s, t, n.echoes) then 1 else 0)
  }

  /** The node with one echo less to come. */
  function Heard(n: Node, h: string): Node {
    n.(echoes := n.echoes - multiset{h})
  }

  function NodeAfter(hash: HashFn, n: Node, step: NetStep): Node
    requires step.Deliver? ==> step.message.Publish?
  {
    match step
    case Copy(_, text, newID, nowMillis) =>
      Moved(hash, n.(copies := n.copies + 1), LocalInput(Utf8(text), newID, nowMillis))
    case Echo(_, text, newID, nowMillis) =>
      Moved(hash, Heard(n, hash(text)), LocalInput(Utf8(text), newID, nowMillis))
    case Lose(_, h) => Heard(n, h)
    case Deliver(_, m, wire) => Moved(hash, n, MessageInput(m.topic, m.name, Arriving(m.body, wire)))
    case Manage(_, input) => Moved(hash, n, input)
  }

  /** The texts any user copied, after a step. */
  function CopiedAfter(net: Net, step: NetStep): set<string> {
    if step.Copy? then net.copied + {step.text} else net.copied
  }

  function NetAfter(hash: HashFn, net: Net, step: NetStep): Net
    requires Possible(hash, net, step)
  {
    Net(net.nodes[step.node := NodeAfter(hash, net.nodes[step.node], step)],
        CopiedAfter(net, step))
  }

  /** The state after a sequence of steps, if each is possible when its turn comes. */
  function NetRun(hash: HashFn, net: Net, steps: seq<NetStep>): Option<Net> {
    if steps == [] then Some(net)
    else
      var before := NetRun(hash, net, steps[..|steps| - 1]);
      if before.Some? && Possible(hash, before.value, steps[|steps| - 1]) then
        Some(NetAfter(hash, before.value, steps[|steps| - 1]))
      else None
  }

  // ---------------------------------------------------------------- one node

  /** One token for each member. */
  function Tokens(w: Window): multiset<string> {
    multiset(w.members)
  }

  /** The echoes no token will swallow: a token is good for one echo of its digest. */
  function Unprotected(n: Node): multiset<string> {
    n.echoes - Tokens(n.s.suppress)
  }

  /** Published events and unprotected echoes are paid for by user copies and by applies that uncover an echo. */
  ghost predicate Balanced(n: Node) {
    n.published + |Unprotected(n)| <= n.copies + n.overflows
  }

  ghost predicate InboxHashed(hash: HashFn, box: Inbox) {
    forall id :: id in box.entries ==> box.entries[id].event.sha256 == hash(box.entries[id].event.text)
  }

  /** Digests are those of the texts they came with. */
  ghost predicate NodeOk(hash: HashFn, n: Node) {
    Inv(n.s) && InboxHashed(hash, n.s.inbox)
  }

  lemma FanOutName(calls: seq<Call>, topics: seq<string>, name: string, body: Body)
    requires IsFanOut(calls, topics, name, body)
    ensures forall c :: c in calls ==> c.Publish? && c.name == name && c.body == body
  {
  }

  lemma ManifestIsNoText(p: Params, s: State, digest: Digest, newID: Option<string>, nowMillis: int)
    ensures !PublishesText(s, PublishTransferManifest(p, s, digest, newID, nowMillis).state)
  {
    hide PublishTransferManifest, IsFanOut, PublishTopics;
    var t := PublishTransferManifest(p, s, digest, newID, nowMillis).state;
    PublishManifestCalls(p, s, digest, newID, nowMillis);
    NamesDiffer();
    var calls := NewCalls(s.world, t.world);
    if calls != [] {
      var m := ManifestOf(p, s.cfg, digest, newID, nowMillis).value;
      FanOutName(calls, PublishTopics(s.cfg.Routes()), TRANSFER_EVENT_NAME, ManifestBody(m));
    }
    forall k | |s.world.calls| <= k < |t.world.calls| ensures !TextPublish(t.world.calls[k]) {
      assert t.world.calls[k] == calls[k - |s.world.calls|];
    }
  }

  /** A local text publishes only if no token waits for it; otherwise at most that token goes. */
  ghost predicate Spends(s: State, t: State, h: string) {
    && !AppliedLast(s, t)
    && (t.suppress == s.suppress || (t.suppress == Consumed(s.suppress, h) && !PublishesText(s, t)))
    && (PublishesText(s, t) ==> h !in s.suppress.members)
  }

  lemma InlineSpends(p: Params, s: State, text: string, digest: Digest, built: Built)
    ensures Spends(s, HandleInlineText(p, s, text, digest, built).state, digest.sha256)
  {
    hide PublishText, TextPublish, Added, Consumed;
    var f := TextOutEffect(p, s, text, digest, built);
  }

  lemma ManifestSpends(p: Params, s: State, digest: Digest, newID: Option<string>, nowMillis: int)
    ensures Spends(s, PublishTransferManifest(p, s, digest, newID, nowMillis).state, digest.sha256)
  {
    hide PublishTransferManifest, PublishesText, Added;
    var f := ManifestOutEffect(p, s, digest, newID, nowMillis);
    ManifestIsNoText(p, s, digest, newID, nowMillis);
  }

  lemma LogSpends(s: State, d: Decision, h: string)
    requires d.action != RemoteApplied
    ensures Spends(s, Record(s, d), h)
  {
  }

  lemma LocalSpends(hash: HashFn, p: Params, s: State, text: string, newID: Option<string>, nowMillis: int)
    ensures Spends(s, HandleLocalText(hash, p, s, Utf8(text), newID, nowMillis).state, hash(text))
  {
    hide InspectText, InspectTextContent, HandleInlineText, PublishTransferManifest, BuildTextEvent, Spends, Record;
    var inspected := InspectText(hash, Utf8(text), s.cfg.maxInlineBytes);
    if !s.cfg.enabled {
      LogSpends(s, Plain(Disabled), hash(text));
    } else if !p.hasBus {
      LogSpends(s, Plain(TransportFailed), hash(text));
    } else if inspected.Some? {
      var digest := inspected.value;
      InlineSpends(p, s, text, digest, BuildTextEvent(hash, p, s.cfg, text, digest, newID));
    } else if InspectTextContent(hash, Utf8(text)).Some? {
      ManifestSpends(p, s, InspectTextContent(hash, Utf8(text)).value, newID, nowMillis);
    } else {
      LogSpends(s, Plain(ValidationFailed), hash(text));
    }
  }

  lemma {:induction false} SubBag(a: multiset<string>, b: multiset<string>)
    requires a <= b
    ensures |a| <= |b|
  {
    assert b == a + (b - a);
  }

  /** A copy may take a token from an echo, or publish, but not both. */
  lemma CopyBound(s: State, t: State, h: string, echoes: multiset<string>)
    requires Spends(s, t, h)
    ensures (if PublishesText(s, t) then 1 else 0) + |echoes - Tokens(t.suppress)| <= |echoes - Tokens(s.suppress)| + 1
  {
    hide PublishesText, AppliedLast;
    SubBag(echoes - Tokens(t.suppress), echoes - Tokens(s.suppress) + multiset{h});
  }

  /** An echo that comes in spends its token, or was unprotected. */
  lemma EchoBound(s: State, t: State, h: string, echoes: multiset<string>)
    requires Spends(s, t, h) && h in echoes
    ensures (if PublishesText(s, t) then 1 else 0) + |echoes - multiset{h} - Tokens(t.suppress)| <=
              |echoes - Tokens(s.suppress)|
  {
    hide PublishesText, AppliedLast;
    var rest := echoes - multiset{h} - Tokens(t.suppress);
    if h in s.suppress.members {
      SubBag(rest, echoes - Tokens(s.suppress));
    } else {
      assert rest + multiset{h} == echoes - Tokens(s.suppress);
    }
  }

  /** A grant, exactly: it covers the new echo, unless it uncovers one; and it uncovers one only as counted. */
  lemma GrantExactly(w: Window, h: string, echoes: multiset<string>)
    requires w.Valid() && h != ""
    ensures |echoes + multiset{h} - Tokens(Added(w, h))| ==
            |echoes - Tokens(w)| + if LosesEcho(w, h, echoes) then 1 else 0
    ensures LosesEcho(w, h, echoes) ==> (h in w.members && h in echoes) || (h !in w.members && |w.members| == w.limit)
  {
    hide Added;
    var after := Added(w, h);
    if h in w.members {
      AddedSame(w, h);
      HeldGrant(w, h, echoes);
    } else {
      AddExact(w, h);
      if |w.members| < w.limit {
        assert echoes + multiset{h} - Tokens(after) == echoes - Tokens(w);
      } else {
        var x := OldestLive(w.order + [h], w.members + {h});
        FullGrant(w, after, h, x, echoes);
      }
    }
  }

  lemma HeldGrant(w: Window, h: string, echoes: multiset<string>)
    requires h in w.members && Added(w, h) == w
    ensures LosesEcho(w, h, echoes) <==> h in echoes
    ensures echoes + multiset{h} - Tokens(w) == echoes - Tokens(w) + if h in echoes then multiset{h} else multiset{}
  {
    hide Added;
  }

  lemma FullGrant(w: Window, after: Window, h: string, x: string, echoes: multiset<string>)
    requires h !in w.members && after == Added(w, h) && x in w.members + {h} && after.members == w.members + {h} - {x}
    ensures LosesEcho(w, h, echoes) <==> x in echoes + multiset{h}
    ensures |echoes + multiset{h} - Tokens(after)| ==
            |echoes - Tokens(w)| + if x in echoes + multiset{h} then 1 else 0
  {
    hide Added;
    assert w.members + {h} - after.members == {x};
    var lost := if x in echoes + multiset{h} then multiset{x} else multiset{};
    assert echoes + multiset{h} - Tokens(after) == echoes - Tokens(w) + lost;
  }

  // ---------------------------------------------------------------- what a remote or user input costs

  /** The event applied by the step, if the effect is an apply. */
  ghost function AppliedEvent(f: Effect, s: State): Option<TextEvent> {
    match f
    case Direct(e) => Some(e)
    case Release(id) => if id in s.inbox.entries then Some(s.inbox.entries[id].event) else None
    case _ => None
  }

  /** Only an apply is logged as one, and it grants exactly its own token. */
  lemma EffectGrants(f: Effect, s: State, t: State)
    requires Explains(f, s, t)
    ensures AppliedLast(s, t) <==> AppliedEvent(f, s).Some?
    ensures AppliedLast(s, t) ==>
              var e := AppliedEvent(f, s).value;
              && t.log[|s.log|].sha256 == e.sha256 && t.log[|s.log|].text == e.text
              && t.suppress == Added(s.suppress, e.sha256)
    ensures !AppliedLast(s, t) && !f.Swallow? ==> t.suppress == s.suppress
  {
    hide Added, Consumed, Fresh, AddPending, DeletePending;
    match f
    case Queue(entry) =>
    case _ =>
  }

  /** Inputs other than local text publish no text. */
  lemma OnlyLocalPublishes(hash: HashFn, p: Params, s: State, input: Input)
    requires !input.LocalInput?
    ensures !PublishesText(s, Step(hash, p, s, input).state)
  {
    hide Step, Allowed, TextPublish;
    var t := Step(hash, p, s, input).state;
    StepCalls(hash, p, s, input);
    forall k | |s.world.calls| <= k < |t.world.calls| ensures !TextPublish(t.world.calls[k]) {
      assert t.world.calls[k] == NewCalls(s.world, t.world)[k - |s.world.calls|];
      NotAPublish(hash, p, s, input, t.world.calls[k]);
    }
  }

  lemma NotAPublish(hash: HashFn, p: Params, s: State, input: Input, c: Call)
    requires !input.LocalInput? && Allowed(hash, p, s, input, c)
    ensures !TextPublish(c)
  {
    hide CarriesText, AllowedWrite, PublishTopics;
  }

  lemma OtherBound(hash: HashFn, p: Params, s: State, input: Input, echoes: multiset<string>)
    requires Inv(s) && !input.LocalInput?
    requires forall id :: id in s.inbox.entries ==> s.inbox.entries[id].event.sha256 != ""
    ensures var t := Step(hash, p, s, input).state;
            && !PublishesText(s, t)
            && |(if AppliedLast(s, t) then echoes + multiset{t.log[|s.log|].sha256} else echoes) - Tokens(t.suppress)|
               == |echoes - Tokens(s.suppress)| + if Overflows(s, t, echoes) then 1 else 0
  {
    hide Step, Explains, Accepts, PublishesText, AppliedLast, Conserved, BoxOk, Added;
    var t := Step(hash, p, s, input).state;
    OnlyLocalPublishes(hash, p, s, input);
    var f := StepEffect(hash, p, s, input);
    EffectGrants(f, s, t);
    if AppliedLast(s, t) {
      var e := AppliedEvent(f, s).value;
      if f.Direct? { AcceptedDigest(hash, p, s, input, e); }
      GrantExactly(s.suppress, e.sha256, echoes);
    }
  }

  lemma AcceptedDigest(hash: HashFn, p: Params, s: State, input: Input, e: TextEvent)
    requires Accepts(hash, p, s, input, e)
    ensures e.sha256 == hash(e.text) && e.sha256 != ""
  {
    hide Parse, RouteFor;
    ParsedHasID(hash, input.payload, s.cfg.maxInlineBytes);
  }

  // ---------------------------------------------------------------- one step of one node

  lemma MemoryOk(hash: HashFn, p: Params, s: State, input: Input)
    requires Inv(s) && InboxHashed(hash, s.inbox)
    ensures var t := Step(hash, p, s, input).state;
            Inv(t) && InboxHashed(hash, t.inbox)
  {
    hide Step, Inv, Explains, Accepts;
    var t := Step(hash, p, s, input).state;
    var f := StepEffect(hash, p, s, input);
    EffectInv(f, s, t);
    if f.Queue? { AcceptedDigest(hash, p, s, input, f.entry.event); }
    forall id | id in t.inbox.entries ensures t.inbox.entries[id].event.sha256 == hash(t.inbox.entries[id].event.text) {
      EffectInbox(f, s, t, id);
    }
  }

  lemma MovedOk(hash: HashFn, n: Node, input: Input)
    requires NodeOk(hash, n)
    ensures NodeOk(hash, Moved(hash, n, input))
  {
    hide Step, Inv, Overflows, PublishesText, InboxHashed, AppliedLast;
    MemoryOk(hash, n.p, n.s, input);
  }

  lemma NodeStepOk(hash: HashFn, n: Node, step: NetStep)
    requires NodeOk(hash, n)
    requires step.Deliver? ==> step.message.Publish?
    ensures NodeOk(hash, NodeAfter(hash, n, step))
  {
    hide Moved, Inv;
    match step
    case Copy(_, text, newID, nowMillis) =>
      MovedOk(hash, n.(copies := n.copies + 1), LocalInput(Utf8(text), newID, nowMillis));
    case Echo(_, text, newID, nowMillis) =>
      MovedOk(hash, Heard(n, hash(text)), LocalInput(Utf8(text), newID, nowMillis));
    case Lose(_, h) =>
    case Deliver(_, m, wire) => MovedOk(hash, n, MessageInput(m.topic, m.name, Arriving(m.body, wire)));
    case Manage(_, input) => MovedOk(hash, n, input);
  }

  lemma MovedLocal(hash: HashFn, n: Node, text: string, newID: Option<string>, nowMillis: int)
    ensures var m := Moved(hash, n, LocalInput(Utf8(text), newID, nowMillis));
            && Spends(n.s, m.s, hash(text))
            && m.echoes == n.echoes && m.copies == n.copies && m.overflows == n.overflows
            && m.published == n.published + if PublishesText(n.s, m.s) then 1 else 0
  {
    hide HandleLocalText, PublishesText;
    LocalSpends(hash, n.p, n.s, text, newID, nowMillis);
  }

  lemma Rebalance(n: Node, m: Node, gain: nat, paid: nat)
    requires Balanced(n)
    requires m.published == n.published + gain && m.copies + m.overflows == n.copies + n.overflows + paid
    requires gain + |Unprotected(m)| <= |Unprotected(n)| + paid
    ensures Balanced(m)
  {
  }

  lemma MovedShape(hash: HashFn, n: Node, input: Input)
    ensures var m := Moved(hash, n, input);
            && m.p == n.p && m.s == Step(hash, n.p, n.s, input).state && m.copies == n.copies
            && m.published == n.published + (if PublishesText(n.s, m.s) then 1 else 0)
            && m.overflows == n.overflows + (if Overflows(n.s, m.s, n.echoes) then 1 else 0)
            && m.echoes ==
               if AppliedLast(n.s, m.s) then n.echoes + multiset{m.s.log[|n.s.log|].sha256} else n.echoes
    ensures var m := Moved(hash, n, input);
            m.wrote == if AppliedLast(n.s, m.s) then n.wrote + {m.s.log[|n.s.log|].text} else n.wrote
  {
    hide Step, Overflows, PublishesText;
  }

  lemma MovedOther(hash: HashFn, n: Node, input: Input)
    requires NodeOk(hash, n) && Balanced(n) && !input.LocalInput?
    ensures Balanced(Moved(hash, n, input))
  {
    hide Step, Inv, AppliedLast, Overflows, PublishesText, Moved, Balanced;
    var m := Moved(hash, n, input);
    MovedShape(hash, n, input);
    OtherBound(hash, n.p, n.s, input, n.echoes);
    Rebalance(n, m, 0, m.overflows - n.overflows);
  }

  lemma CopyBalanced(hash: HashFn, n: Node, text: string, newID: Option<string>, nowMillis: int)
    requires Balanced(n)
    ensures Balanced(Moved(hash, n.(copies := n.copies + 1), LocalInput(Utf8(text), newID, nowMillis)))
  {
    hide Moved, PublishesText, Balanced, Spends;
    var up := n.(copies := n.copies + 1);
    MovedLocal(hash, up, text, newID, nowMillis);
    var m := Moved(hash, up, LocalInput(Utf8(text), newID, nowMillis));
    CopyBound(n.s, m.s, hash(text), n.echoes);
    Rebalance(n, m, m.published - n.published, 1);
  }

  lemma EchoBalanced(hash: HashFn, n: Node, text: string, newID: Option<string>, nowMillis: int)
    requires Balanced(n) && hash(text) in n.echoes
    ensures Balanced(Moved(hash, Heard(n, hash(text)), LocalInput(Utf8(text), newID, nowMillis)))
  {
    hide Moved, PublishesText, Balanced, Spends;
    var less := Heard(n, hash(text));
    MovedLocal(hash, less, text, newID, nowMillis);
    var m := Moved(hash, less, LocalInput(Utf8(text), newID, nowMillis));
    EchoBound(n.s, m.s, hash(text), n.echoes);
    Rebalance(n, m, m.published - n.published, 0);
  }

  lemma LoseBalanced(n: Node, h: string)
    requires Balanced(n)
    ensures Balanced(Heard(n, h))
  {
    hide Balanced;
    SubBag(Unprotected(Heard(n, h)), Unprotected(n));
    Rebalance(n, Heard(n, h), 0, 0);
  }

  lemma NodeStepBalanced(hash: HashFn, n: Node, step: NetStep)
    requires NodeOk(hash, n) && Balanced(n)
    requires step.Echo? ==> Due(hash, n, step.text)
    requires step.Deliver? ==> step.message.Publish?
    requires step.Manage? ==> !step.input.LocalInput?
    ensures Balanced(NodeAfter(hash, n, step))
  {
    hide Moved, Inv, Balanced;
    match step
    case Copy(_, text, newID, nowMillis) => CopyBalanced(hash, n, text, newID, nowMillis);
    case Echo(_, text, newID, nowMillis) => EchoBalanced(hash, n, text, newID, nowMillis);
    case Lose(_, h) => LoseBalanced(n, h);
    case Deliver(_, m, wire) => MovedOther(hash, n, MessageInput(m.topic, m.name, Arriving(m.body, wire)));
    case Manage(_, input) => MovedOther(hash, n, input);
  }

  // ---------------------------------------------------------------- no storm

  datatype Tally = Tally(published: nat, strays: nat, copies: nat, overflows: nat)

  /** The sums over all nodes. */
  function Totals(nodes: seq<Node>): Tally {
    if nodes == [] then Tally(0, 0, 0, 0)
    else
      var n, rest := nodes[0], Totals(nodes[1..]);
      Tally(n.published + rest.published, |Unprotected(n)| + rest.strays, n.copies + rest.copies,
            n.overflows + rest.overflows)
  }

  ghost predicate NetOk(hash: HashFn, net: Net) {
    forall i :: 0 <= i < |net.nodes| ==> NodeOk(hash, net.nodes[i]) && Balanced(net.nodes[i])
  }

  lemma {:induction false} BalancedTotals(nodes: seq<Node>)
    requires forall i :: 0 <= i < |nodes| ==> Balanced(nodes[i])
    ensures var t := Totals(nodes); t.published + t.strays <= t.copies + t.overflows
  {
    hide Balanced, Unprotected;
    if nodes != [] {
      BalancedTotals(nodes[1..]);
      assert Balanced(nodes[0]);
      BalancedMeans(nodes[0]);
    }
  }

  lemma BalancedMeans(n: Node)
    requires Balanced(n)
    ensures n.published + |Unprotected(n)| <= n.copies + n.overflows
  {
  }

  lemma {:induction false} NetRunOk(hash: HashFn, net: Net, steps: seq<NetStep>)
    requires NetOk(hash, net) && NetRun(hash, net, steps).Some?
    ensures NetOk(hash, NetRun(hash, net, steps).value)
  {
    hide NodeOk, Balanced, NodeAfter;
    if steps != [] {
      var before, step := steps[..|steps| - 1], steps[|steps| - 1];
      NetRunOk(hash, net, before);
      var n := NetRun(hash, net, before).value.nodes[step.node];
      NodeStepOk(hash, n, step);
      NodeStepBalanced(hash, n, step);
    }
  }

  /** A node that has just been made. */
  ghost predicate Booted(n: Node) {
    && (exists c: Config, recentLimit: nat, suppressLimit: nat ::
          Created(n.p, c, recentLimit, suppressLimit) == Some(n.s))
    && n.echoes == multiset{} && n.wrote == {} && n.copies == 0 && n.published == 0 && n.overflows == 0
  }

  lemma BootedOk(hash: HashFn, n: Node)
    requires Booted(n)
    ensures NodeOk(hash, n) && Balanced(n) && n.s.inbox.entries == map[] && n.s.world.calls == [] && n.wrote == {}
  {
    hide Inv, Normalized;
    var c, recentLimit: nat, suppressLimit: nat :| Created(n.p, c, recentLimit, suppressLimit) == Some(n.s);
    CreatedInv(n.p, c, recentLimit, suppressLimit);
    assert Unprotected(n) == multiset{};
  }

  /** There are such nodes: any identity, with the default configuration and limits. */
  lemma DefaultNodeBoots(p: Params)
    requires p.nodeID != 0 && p.instanceID != ""
    ensures var made := Created(p, DefaultConfig(), 0, 0);
            made.Some? && Booted(Node(p, made.value, multiset{}, {}, 0, 0, 0))
  {
    hide Normalized, DefaultConfig;
    ConfigStore.DefaultIsNormal();
    NormalizeFixedPoints(DefaultConfig());
    assert Created(p, DefaultConfig(), 0, 0).Some?;
  }

  /**
   No storm: whatever is copied, echoed, lost, delivered, repeated, reordered or reconfigured, on any
   number of nodes, text events published and echoes still to come without a token never outnumber
   what users copied plus the applies that left an echo uncovered.
   */
  lemma NoSyncStorm(hash: HashFn, net: Net, steps: seq<NetStep>)
    requires forall i :: 0 <= i < |net.nodes| ==> Booted(net.nodes[i])
    requires NetRun(hash, net, steps).Some?
    ensures var t := Totals(NetRun(hash, net, steps).value.nodes);
            t.published + t.strays <= t.copies + t.overflows
  {
    hide NetRun, Booted, NodeOk, Balanced, Totals;
    forall i | 0 <= i < |net.nodes| ensures NodeOk(hash, net.nodes[i]) && Balanced(net.nodes[i]) {
      BootedOk(hash, net.nodes[i]);
    }
    NetRunOk(hash, net, steps);
    BalancedTotals(NetRun(hash, net, steps).value.nodes);
  }

  // ---------------------------------------------------------------- only users make texts

  /** An encoded event whose text some user copied. */
  ghost predicate Spreads(wire: string, copied: set<string>) {
    exists e: TextEvent :: Encode(e) == wire && e.text in copied
  }

  ghost predicate CleanCall(c: Call, copied: set<string>) {
    && (c.WriteText? ==> c.text in copied)
    && (c.Publish? && c.body.TextBody? ==> Spreads(c.body.wire, copied))
  }

  ghost predicate CleanCalls(w: World, copied: set<string>) {
    forall c :: c in w.calls ==> CleanCall(c, copied)
  }

  ghost predicate CleanInbox(box: Inbox, copied: set<string>) {
    forall id :: id in box.entries ==> box.entries[id].event.text in copied
  }

  /** Everything the node holds, wrote or published is a text some user copied. */
  ghost predicate Clean(n: Node, copied: set<string>) {
    CleanInbox(n.s.inbox, copied) && n.wrote <= copied && CleanCalls(n.s.world, copied)
  }

  lemma BuiltSpreads(hash: HashFn, p: Params, cfg: Config, text: string, digest: Digest, newID: Option<string>,
                     copied: set<string>)
    requires BuildTextEvent(hash, p, cfg, text, digest, newID).Built? && text in copied
    ensures Spreads(BuildTextEvent(hash, p, cfg, text, digest, newID).wire, copied)
  {
    hide Encode, TrimSpace, Utf8Len, InspectText;
    var e := NewTextEvent(hash, text, digest, p.nodeID, p.instanceID, cfg.deviceLabel, cfg.maxInlineBytes, newID).value;
    var n := Event.Normalize(hash, e, cfg.maxInlineBytes).value;
    assert n.text in copied;
  }

  lemma TextOutClean(p: Params, s: State, text: string, digest: Digest, built: Built, copied: set<string>)
    requires built.Built? ==> Spreads(built.wire, copied)
    ensures var t := PublishText(p, s, text, digest, built).state;
            Extends(s.world, t.world) && forall c :: c in NewCalls(s.world, t.world) ==> CleanCall(c, copied)
  {
    hide PublishText, IsFanOut, PublishTopics, Spreads;
    PublishTextCalls(p, s, text, digest, built);
    var calls := NewCalls(s.world, PublishText(p, s, text, digest, built).state.world);
    if calls != [] {
      FanOutName(calls, PublishTopics(s.cfg.Routes()), TEXT_EVENT_NAME, TextBody(built.wire));
    }
  }

  lemma ManifestOutClean(p: Params, s: State, digest: Digest, newID: Option<string>, nowMillis: int,
                         copied: set<string>)
    ensures var t := PublishTransferManifest(p, s, digest, newID, nowMillis).state;
            Extends(s.world, t.world) && forall c :: c in NewCalls(s.world, t.world) ==> CleanCall(c, copied)
  {
    hide PublishTransferManifest, IsFanOut, PublishTopics, Spreads;
    PublishManifestCalls(p, s, digest, newID, nowMillis);
    var calls := NewCalls(s.world, PublishTransferManifest(p, s, digest, newID, nowMillis).state.world);
    if calls != [] {
      var m := ManifestOf(p, s.cfg, digest, newID, nowMillis).value;
      FanOutName(calls, PublishTopics(s.cfg.Routes()), TRANSFER_EVENT_NAME, ManifestBody(m));
    }
  }

  lemma LocalClean(hash: HashFn, p: Params, s: State, text: string, newID: Option<string>, nowMillis: int,
                   copied: set<string>)
    requires text in copied
    ensures var t := HandleLocalText(hash, p, s, Utf8(text), newID, nowMillis).state;
            Extends(s.world, t.world) && forall c :: c in NewCalls(s.world, t.world) ==> CleanCall(c, copied)
  {
    hide InspectText, InspectTextContent, PublishText, PublishTransferManifest, BuildTextEvent, CleanCall, Spreads;
    if InspectText(hash, Utf8(text), s.cfg.maxInlineBytes).Some? {
      var digest := InspectText(hash, Utf8(text), s.cfg.maxInlineBytes).value;
      var built := BuildTextEvent(hash, p, s.cfg, text, digest, newID);
      if built.Built? { BuiltSpreads(hash, p, s.cfg, text, digest, newID, copied); }
      TextOutClean(p, s, text, digest, built, copied);
    } else if InspectTextContent(hash, Utf8(text)).Some? {
      ManifestOutClean(p, s, InspectTextContent(hash, Utf8(text)).value, newID, nowMillis, copied);
    }
  }

  lemma OtherClean(hash: HashFn, p: Params, s: State, input: Input, c: Call, copied: set<string>)
    requires !input.LocalInput? && Allowed(hash, p, s, input, c)
    requires forall e :: Accepts(hash, p, s, input, e) ==> e.text in copied
    requires CleanInbox(s.inbox, copied)
    ensures CleanCall(c, copied)
  {
    hide CarriesText, PublishTopics, Accepts, TrimSpace, Spreads;
  }

  lemma StepClean(hash: HashFn, p: Params, s: State, input: Input, copied: set<string>)
    requires input.LocalInput? ==> input.raw.Utf8? && input.raw.text in copied
    requires forall e :: Accepts(hash, p, s, input, e) ==> e.text in copied
    requires CleanInbox(s.inbox, copied)
    ensures var t := Step(hash, p, s, input).state;
            Extends(s.world, t.world) && forall c :: c in NewCalls(s.world, t.world) ==> CleanCall(c, copied)
  {
    hide Step, HandleLocalText, Allowed, Accepts, CleanCall;
    if input.LocalInput? {
      StepIsLocal(hash, p, s, input.raw, input.newID, input.nowMillis);
      LocalClean(hash, p, s, input.raw.text, input.newID, input.nowMillis, copied);
    } else {
      StepCalls(hash, p, s, input);
      forall c | c in NewCalls(s.world, Step(hash, p, s, input).state.world) ensures CleanCall(c, copied) {
        OtherClean(hash, p, s, input, c, copied);
      }
    }
  }

  /** New waiting texts were accepted, and an applied text was accepted or waiting. */
  lemma MemoryClean(hash: HashFn, p: Params, s: State, t: State, f: Effect, input: Input, copied: set<string>)
    requires Inv(s) && Explains(f, s, t)
    requires f.Queue? ==> Accepts(hash, p, s, input, f.entry.event)
    requires f.Direct? ==> Accepts(hash, p, s, input, f.event)
    requires forall e :: Accepts(hash, p, s, input, e) ==> e.text in copied
    requires CleanInbox(s.inbox, copied)
    ensures CleanInbox(t.inbox, copied)
    ensures AppliedLast(s, t) ==> t.log[|s.log|].text in copied
  {
    hide Inv, Explains, Accepts, AppliedLast;
    EffectGrants(f, s, t);
    forall id | id in t.inbox.entries ensures t.inbox.entries[id].event.text in copied {
      EffectInbox(f, s, t, id);
    }
  }

  lemma CallsClean(w: World, v: World, copied: set<string>)
    requires CleanCalls(w, copied) && Extends(w, v) && forall c :: c in NewCalls(w, v) ==> CleanCall(c, copied)
    ensures CleanCalls(v, copied)
  {
    hide CleanCall;
    assert v.calls == w.calls + NewCalls(w, v);
  }

  lemma MovedClean(hash: HashFn, n: Node, input: Input, copied: set<string>)
    requires Inv(n.s) && Clean(n, copied)
    requires input.LocalInput? ==> input.raw.Utf8? && input.raw.text in copied
    requires forall e :: Accepts(hash, n.p, n.s, input, e) ==> e.text in copied
    ensures Clean(Moved(hash, n, input), copied)
  {
    hide Step, Inv, Explains, Accepts, Moved, AppliedLast, CleanCall, CleanCalls, CleanInbox;
    var t := Step(hash, n.p, n.s, input).state;
    MovedShape(hash, n, input);
    var f := StepEffect(hash, n.p, n.s, input);
    MemoryClean(hash, n.p, n.s, t, f, input, copied);
    StepClean(hash, n.p, n.s, input, copied);
    CallsClean(n.s.world, t.world, copied);
  }

  /** What arrives and is accepted has the text that was encoded. */
  lemma DeliveredText(hash: HashFn, p: Params, s: State, m: Call, wire: string, e: TextEvent, copied: set<string>)
    requires m.Publish? && CleanCall(m, copied)
    requires Accepts(hash, p, s, MessageInput(m.topic, m.name, Arriving(m.body, wire)), e)
    ensures e.text in copied
  {
    hide RouteFor, Encode, Decode, TrimSpace, Utf8Len, InspectText;
    if m.body.TextBody? {
      var sent: TextEvent :| Encode(sent) == m.body.wire && sent.text in copied;
      WireRoundTrip(sent);
    }
  }

  lemma MoreCopied(n: Node, copied: set<string>, text: string)
    requires Clean(n, copied)
    ensures Clean(n, copied + {text})
  {
    forall c | c in n.s.world.calls ensures CleanCall(c, copied + {text}) {
      assert CleanCall(c, copied);
    }
  }

  lemma BusClean(net: Net, m: Call)
    requires NetClean(net) && OnBus(net, m)
    ensures CleanCall(m, net.copied)
  {
    hide CleanCall;
    var q :| 0 <= q < |net.nodes| && m in net.nodes[q].s.world.calls;
    assert Clean(net.nodes[q], net.copied);
  }

  lemma DeliverClean(hash: HashFn, n: Node, m: Call, wire: string, copied: set<string>)
    requires Inv(n.s) && Clean(n, copied) && m.Publish? && CleanCall(m, copied)
    ensures Clean(Moved(hash, n, MessageInput(m.topic, m.name, Arriving(m.body, wire))), copied)
  {
    hide Moved, Inv, Accepts, Clean, CleanCall;
    var input := MessageInput(m.topic, m.name, Arriving(m.body, wire));
    forall e | Accepts(hash, n.p, n.s, input, e) ensures e.text in copied {
      DeliveredText(hash, n.p, n.s, m, wire, e, copied);
    }
    MovedClean(hash, n, input, copied);
  }

  lemma LocalStepClean(hash: HashFn, n: Node, text: string, newID: Option<string>, nowMillis: int, copied: set<string>)
    requires Inv(n.s) && Clean(n, copied) && text in copied
    ensures Clean(Moved(hash, n, LocalInput(Utf8(text), newID, nowMillis)), copied)
  {
    hide Moved, Inv, Accepts, Clean;
    NoMessage(hash, n.p, n.s, LocalInput(Utf8(text), newID, nowMillis));
    MovedClean(hash, n, LocalInput(Utf8(text), newID, nowMillis), copied);
  }

  /** The counters do not matter, and fewer echoes are no worse. */
  lemma FewerClean(n: Node, h: string, copies: nat, copied: set<string>)
    requires Clean(n, copied)
    ensures Clean(Heard(n, h), copied) && Clean(n.(copies := copies), copied) && n.wrote <= copied
  {
    hide CleanCall;
  }

  lemma NodeStepClean(hash: HashFn, n: Node, step: NetStep, copied: set<string>)
    requires Inv(n.s) && Clean(n, copied)
    requires step.Copy? ==> step.text in copied
    requires step.Echo? ==> step.text in n.wrote
    requires step.Deliver? ==> step.message.Publish? && CleanCall(step.message, copied)
    requires step.Manage? ==> !step.input.LocalInput? && !step.input.MessageInput?
    ensures Clean(NodeAfter(hash, n, step), copied)
  {
    hide Moved, Inv, CleanCall, Clean;
    match step
    case Copy(_, text, newID, nowMillis) =>
      FewerClean(n, "", n.copies + 1, copied);
      LocalStepClean(hash, n.(copies := n.copies + 1), text, newID, nowMillis, copied);
    case Echo(_, text, newID, nowMillis) =>
      FewerClean(n, hash(text), n.copies, copied);
      LocalStepClean(hash, Heard(n, hash(text)), text, newID, nowMillis, copied);
    case Lose(_, h) => FewerClean(n, h, n.copies, copied);
    case Deliver(_, m, wire) => DeliverClean(hash, n, m, wire, copied);
    case Manage(_, input) =>
      NoMessage(hash, n.p, n.s, input);
      MovedClean(hash, n, input, copied);
  }

  lemma NoMessage(hash: HashFn, p: Params, s: State, input: Input)
    requires !input.MessageInput?
    ensures forall e :: !Accepts(hash, p, s, input, e)
  {
  }

  ghost predicate NetClean(net: Net) {
    forall i :: 0 <= i < |net.nodes| ==> Clean(net.nodes[i], net.copied)
  }

  lemma OkInv(hash: HashFn, net: Net, i: nat)
    requires NetOk(hash, net) && i < |net.nodes|
    ensures Inv(net.nodes[i].s)
  {
    hide Inv, Balanced;
    assert NodeOk(hash, net.nodes[i]);
  }

  lemma {:induction false} NetRunClean(hash: HashFn, net: Net, steps: seq<NetStep>)
    requires NetOk(hash, net) && NetClean(net) && NetRun(hash, net, steps).Some?
    ensures NetClean(NetRun(hash, net, steps).value)
  {
    hide NetOk, Clean, CleanCall, NodeAfter;
    if steps != [] {
      var before, step := steps[..|steps| - 1], steps[|steps| - 1];
      NetRunOk(hash, net, before);
      NetRunClean(hash, net, before);
      var mid := NetRun(hash, net, before).value;
      forall i | 0 <= i < |mid.nodes| ensures Clean(mid.nodes[i], CopiedAfter(mid, step)) {
        if step.Copy? { MoreCopied(mid.nodes[i], mid.copied, step.text); }
      }
      if step.Deliver? { BusClean(mid, step.message); }
      OkInv(hash, mid, step.node);
      NodeStepClean(hash, mid.nodes[step.node], step, CopiedAfter(mid, step));
    }
  }

  /**
   Only users make texts: on every node of every reachable network, each text waiting, written or due
   as an echo, and each text event published, has a text that some user copied.
   */
  lemma TextsComeFromUsers(hash: HashFn, net: Net, steps: seq<NetStep>)
    requires forall i :: 0 <= i < |net.nodes| ==> Booted(net.nodes[i])
    requires NetRun(hash, net, steps).Some?
    ensures NetClean(NetRun(hash, net, steps).value)
  {
    hide NetRun, Booted, NodeOk, Balanced;
    forall i | 0 <= i < |net.nodes|
      ensures NodeOk(hash, net.nodes[i]) && Balanced(net.nodes[i]) && Clean(net.nodes[i], net.copied)
    {
      BootedOk(hash, net.nodes[i]);
    }
    NetRunClean(hash, net, steps);
  }
}
