/**
 What the runtime acts on: the topic bus and the clipboard. Every call is logged with its outcome,
 and any call may fail, with no effect.
 */
module World {
  import opened Event

  /** What is published: an encoded text event, or a transfer manifest. */
  datatype Body = TextBody(wire: string) | ManifestBody(manifest: Manifest)

  datatype Call =
    | Subscribe(topic: string, ok: bool)
    | Unsubscribe(topic: string, ok: bool)
    | Publish(topic: string, name: string, body: Body, ok: bool)
    | WatchText(ok: bool)
    | WriteText(text: string, ok: bool)

  /** The numbers of the calls that fail, kind by kind: any finite pattern of failures. */
  datatype Environment = Environment(
    subscribe: set<nat>, unsubscribe: set<nat>, publish: set<nat>, watch: set<nat>, write: set<nat>)

  /** `topics`: what the hub holds for this node. `watchers`: the clipboard watchers still running. */
  datatype World = World(calls: seq<Call>, topics: set<string>, watchers: set<nat>)

  function Subscribed(env: Environment, w: World, topic: string): World {
    var ok := |w.calls| !in env.subscribe;
    World(w.calls + [Subscribe(topic, ok)], if ok then w.topics + {topic} else w.topics, w.watchers)
  }

  function Unsubscribed(env: Environment, w: World, topic: string): World {
    var ok := |w.calls| !in env.unsubscribe;
    World(w.calls + [Unsubscribe(topic, ok)], if ok then w.topics - {topic} else w.topics, w.watchers)
  }

  function Published(env: Environment, w: World, topic: string, name: string, body: Body): World {
    w.(calls := w.calls + [Publish(topic, name, body, |w.calls| !in env.publish)])
  }

  function Written(env: Environment, w: World, text: string): World {
    w.(calls := w.calls + [WriteText(text, |w.calls| !in env.write)])
  }

  /** A new watcher is known by the number of the call that started it. */
  function Watching(env: Environment, w: World): World {
    var ok := |w.calls| !in env.watch;
    World(w.calls + [WatchText(ok)], w.topics, if ok then w.watchers + {|w.calls|} else w.watchers)
  }

  // The loops over topics; the accumulators are the loops' variables.

  function SubscribeAll(env: Environment, w: World, topics: seq<string>, done: seq<string>): (World, seq<string>, bool)
    decreases |topics|
  {
    if topics == [] then (w, done, true)
    else if |w.calls| !in env.subscribe then
      SubscribeAll(env, Subscribed(env, w, topics[0]), topics[1..], done + [topics[0]])
    else (Subscribed(env, w, topics[0]), done, false)
  }

  function UnsubscribeAll(env: Environment, w: World, topics: seq<string>, ok: bool): (World, bool)
    decreases |topics|
  {
    if topics == [] then (w, ok)
    else UnsubscribeAll(env, Unsubscribed(env, w, topics[0]), topics[1..], ok && |w.calls| !in env.unsubscribe)
  }

  /** The world after publishing to the topics in turn, and how many took it. */
  function PublishAll(env: Environment, w: World, topics: seq<string>, name: string, body: Body, taken: nat): (World,
      nat)
    decreases |topics|
  {
    if topics == [] then (w, taken)
    else if |w.calls| !in env.publish then
      PublishAll(env, Published(env, w, topics[0], name, body), topics[1..], name, body, taken + 1)
    else (Published(env, w, topics[0], name, body), taken)
  }

  class Host {
    var calls: seq<Call>
    var topics: set<string>
    var watchers: set<nat>

    ghost function Model(): World
      reads this
    {
      World(calls, topics, watchers)
    }

    constructor ()
      ensures Model() == World([], {}, {})
    {
      calls, topics, watchers := [], {}, {};
    }

    method SubscribeTopic(env: Environment, topic: string) returns (ok: bool)
      modifies this
      ensures ok <==> |old(calls)| !in env.subscribe
      ensures Model() == Subscribed(env, old(Model()), topic)
    {
      ok := |calls| !in env.subscribe;
      calls := calls + [Subscribe(topic, ok)];
      if ok { topics := topics + {topic}; }
    }

    method UnsubscribeTopic(env: Environment, topic: string) returns (ok: bool)
      modifies this
      ensures ok <==> |old(calls)| !in env.unsubscribe
      ensures Model() == Unsubscribed(env, old(Model()), topic)
    {
      ok := |calls| !in env.unsubscribe;
      calls := calls + [Unsubscribe(topic, ok)];
      if ok { topics := topics - {topic}; }
    }

    method PublishTo(env: Environment, topic: string, name: string, body: Body) returns (ok: bool)
      modifies this
      ensures ok <==> |old(calls)| !in env.publish
      ensures Model() == Published(env, old(Model()), topic, name, body)
    {
      ok := |calls| !in env.publish;
      calls := calls + [Publish(topic, name, body, ok)];
    }

    method Write(env: Environment, text: string) returns (ok: bool)
      modifies this
      ensures ok <==> |old(calls)| !in env.write
      ensures Model() == Written(env, old(Model()), text)
    {
      ok := |calls| !in env.write;
      calls := calls + [WriteText(text, ok)];
    }

    method Watch(env: Environment) returns (ok: bool, watcher: nat)
      modifies this
      ensures watcher == |old(calls)|
      ensures ok <==> |old(calls)| !in env.watch
      ensures Model() == Watching(env, old(Model()))
    {
      watcher := |calls|;
      ok := watcher !in env.watch;
      calls := calls + [WatchText(ok)];
      if ok { watchers := watchers + {watcher}; }
    }

    method Cancel(cancelled: set<nat>)
      modifies this
      ensures Model() == old(Model()).(watchers := old(watchers) - cancelled)
    {
      watchers := watchers - cancelled;
    }

    method SubscribeTopics(env: Environment, all: seq<string>) returns (done: seq<string>, ok: bool)
      modifies this
      ensures (Model(), done, ok) == old(SubscribeAll(env, Model(), all, []))
    {
      done, ok := [], true;
      for i := 0 to |all|
        invariant ok
        invariant SubscribeAll(env, Model(), all[i..], done) == old(SubscribeAll(env, Model(), all, []))
      {
        ok := SubscribeTopic(env, all[i]);
        if !ok {
          return;
        }
        done := done + [all[i]];
      }
    }

    method UnsubscribeTopics(env: Environment, all: seq<string>) returns (ok: bool)
      modifies this
      ensures (Model(), ok) == old(UnsubscribeAll(env, Model(), all, true))
    {
      ok := true;
      for i := 0 to |all|
        invariant UnsubscribeAll(env, Model(), all[i..], ok) == old(UnsubscribeAll(env, Model(), all, true))
      {
        var one := UnsubscribeTopic(env, all[i]);
        ok := ok && one;
      }
    }

    method PublishToAll(env: Environment, all: seq<string>, name: string, body: Body) returns (taken: nat)
      modifies this
      ensures (Model(), taken) == old(PublishAll(env, Model(), all, name, body, 0))
      ensures taken <= |all|
    {
      taken := 0;
      for i := 0 to |all|
        invariant taken == i
        invariant PublishAll(env, Model(), all[i..], name, body, taken) ==
                  old(PublishAll(env, Model(), all, name, body, 0))
      {
        var ok := PublishTo(env, all[i], name, body);
        if !ok {
          return;
        }
        taken := taken + 1;
      }
    }
  }
}
