/** Topic lists derived from the routes of a configuration. */
module Topics {
  import opened Options
  import opened Text
  import opened Config

  /** Every topic to be subscribed, in route order. */
  function SubscriptionTopics(routes: seq<TopicRoute>): seq<string> {
    if routes == [] then []
    else
      var n := |routes| - 1;
      SubscriptionTopics(routes[..n]) + if routes[n].topic != "" then [routes[n].topic] else []
  }

  /** The topics local text goes to, in route order. */
  function PublishTopics(routes: seq<TopicRoute>): seq<string> {
    if routes == [] then []
    else
      var n := |routes| - 1;
      PublishTopics(routes[..n]) + if routes[n].syncFromLocal && routes[n].topic != "" then [routes[n].topic] else []
  }

  /** The topics of s that are not in `other`, in order. */
  function Without(s: seq<string>, other: set<string>): seq<string> {
    if s == [] then []
    else
      var n := |s| - 1;
      Without(s[..n], other) + if s[n] !in other then [s[n]] else []
  }

  function TopicSet(s: seq<string>): set<string> {
    set t | t in s
  }

  function TopicsToSubscribe(previous: Config, next: Config): seq<string> {
    var topics := SubscriptionTopics(next.Routes());
    if !next.enabled then []
    else if !previous.enabled then topics
    else Without(topics, TopicSet(SubscriptionTopics(previous.Routes())))
  }

  function TopicsToUnsubscribe(previous: Config, next: Config): seq<string> {
    var topics := SubscriptionTopics(previous.Routes());
    if !previous.enabled then []
    else if !next.enabled then topics
    else Without(topics, TopicSet(SubscriptionTopics(next.Routes())))
  }

  /** The first route whose topic is the trimmed message topic. */
  function RouteFor(routes: seq<TopicRoute>, topic: string): Option<TopicRoute> {
    if routes == [] then None
    else if routes[0].topic == TrimSpace(topic) then Some(routes[0])
    else RouteFor(routes[1..], topic)
  }

  function Join(topics: seq<string>): string {
    if topics == [] then "" else if |topics| == 1 then topics[0] else topics[0] + ", " + Join(topics[1..])
  }

  // ---------------------------------------------------------------- the loops

  method CollectSubscriptionTopics(routes: seq<TopicRoute>) returns (topics: seq<string>)
    ensures topics == SubscriptionTopics(routes)
  {
    topics := [];
    for i := 0 to |routes|
      invariant topics == SubscriptionTopics(routes[..i])
    {
      assert routes[..i + 1][..i] == routes[..i];
      if routes[i].topic != "" { topics := topics + [routes[i].topic]; }
    }
    assert routes[..|routes|] == routes;
  }

  method CollectPublishTopics(routes: seq<TopicRoute>) returns (topics: seq<string>)
    ensures topics == PublishTopics(routes)
  {
    topics := [];
    for i := 0 to |routes|
      invariant topics == PublishTopics(routes[..i])
    {
      assert routes[..i + 1][..i] == routes[..i];
      if routes[i].syncFromLocal && routes[i].topic != "" { topics := topics + [routes[i].topic]; }
    }
    assert routes[..|routes|] == routes;
  }

  method FindRoute(routes: seq<TopicRoute>, topic: string) returns (route: Option<TopicRoute>)
    ensures route == RouteFor(routes, topic)
  {
    var trimmed := TrimSpace(topic);
    for i := 0 to |routes|
      invariant RouteFor(routes[i..], topic) == RouteFor(routes, topic)
    {
      if routes[i].topic == trimmed {
        return Some(routes[i]);
      }
    }
    return None;
  }

  method CollectTopicSet(s: seq<string>) returns (topics: set<string>)
    ensures topics == TopicSet(s)
  {
    topics := {};
    for i := 0 to |s|
      invariant topics == TopicSet(s[..i])
    {
      topics := topics + {s[i]};
    }
    assert s[..|s|] == s;
  }

  method KeepOthers(s: seq<string>, other: set<string>) returns (out: seq<string>)
    ensures out == Without(s, other)
  {
    out := [];
    for i := 0 to |s|
      invariant out == Without(s[..i], other)
    {
      assert s[..i + 1][..i] == s[..i];
      if s[i] !in other { out := out + [s[i]]; }
    }
    assert s[..|s|] == s;
  }

  method CollectTopicsToSubscribe(previous: Config, next: Config) returns (out: seq<string>)
    ensures out == TopicsToSubscribe(previous, next)
  {
    if !next.enabled { return []; }
    var nextTopics := CollectSubscriptionTopics(next.Routes());
    if !previous.enabled { return nextTopics; }
    var previousTopics := CollectSubscriptionTopics(previous.Routes());
    var previousSet := CollectTopicSet(previousTopics);
    out := KeepOthers(nextTopics, previousSet);
  }

  method CollectTopicsToUnsubscribe(previous: Config, next: Config) returns (out: seq<string>)
    ensures out == TopicsToUnsubscribe(previous, next)
  {
    if !previous.enabled { return []; }
    var previousTopics := CollectSubscriptionTopics(previous.Routes());
    if !next.enabled { return previousTopics; }
    var nextTopics := CollectSubscriptionTopics(next.Routes());
    var nextSet := CollectTopicSet(nextTopics);
    out := KeepOthers(previousTopics, nextSet);
  }

  // ---------------------------------------------------------------- what the lists hold

  lemma {:induction false} SubscriptionTopicsHold(routes: seq<TopicRoute>, t: string)
    ensures t in SubscriptionTopics(routes) <==>
            t != "" && exists i :: 0 <= i < |routes| && routes[i].topic == t
  {
    if routes != [] {
      var n := |routes| - 1;
      SubscriptionTopicsHold(routes[..n], t);
      if i :| 0 <= i < |routes| && routes[i].topic == t {
        assert i < n ==> routes[..n][i].topic == t;
      }
    }
  }

  /** Local text goes to a topic exactly when some route for it says so. */
  lemma {:induction false} PublishTopicsHold(routes: seq<TopicRoute>, t: string)
    ensures t in PublishTopics(routes) <==>
            t != "" && exists i :: 0 <= i < |routes| && routes[i].topic == t && routes[i].syncFromLocal
  {
    if routes != [] {
      var n := |routes| - 1;
      PublishTopicsHold(routes[..n], t);
      if i :| 0 <= i < |routes| && routes[i].topic == t && routes[i].syncFromLocal {
        assert i < n ==> routes[..n][i].topic == t;
      }
    }
  }

  predicate FirstFor(routes: seq<TopicRoute>, topic: string, k: nat) {
    k < |routes| && routes[k].topic == topic && forall i :: 0 <= i < k ==> routes[i].topic != topic
  }

  /** The route of a message is the first one for its trimmed topic; without one there is none. */
  lemma {:induction false} RouteForIs(routes: seq<TopicRoute>, topic: string)
    ensures RouteFor(routes, topic).None? <==> forall i :: 0 <= i < |routes| ==> routes[i].topic != TrimSpace(topic)
    ensures forall k: nat :: FirstFor(routes, TrimSpace(topic), k) ==> RouteFor(routes, topic) == Some(routes[k])
  {
    if routes != [] {
      RouteForIs(routes[1..], topic);
      assert forall i :: 1 <= i < |routes| ==> routes[i] == routes[1..][i - 1];
      forall k: nat | FirstFor(routes, TrimSpace(topic), k) ensures RouteFor(routes, topic) == Some(routes[k]) {
        if k > 0 {
          assert routes[0].topic != TrimSpace(topic);
          assert FirstFor(routes[1..], TrimSpace(topic), k - 1);
        }
      }
    }
  }

  lemma {:induction false} WithoutHolds(s: seq<string>, other: set<string>, t: string)
    ensures t in Without(s, other) <==> t in s && t !in other
  {
    if s != [] {
      var n := |s| - 1;
      WithoutHolds(s[..n], other, t);
      assert s == s[..n] + [s[n]];
    }
  }

  /** What is subscribed and what is dropped, as sets. */
  lemma TopicDifferences(previous: Config, next: Config)
    requires previous.enabled && next.enabled
    ensures var before, after := TopicSet(SubscriptionTopics(previous.Routes())),
              TopicSet(SubscriptionTopics(next.Routes()));
            && TopicSet(TopicsToSubscribe(previous, next)) == after - before
            && TopicSet(TopicsToUnsubscribe(previous, next)) == before - after
  {
    var before, after := SubscriptionTopics(previous.Routes()), SubscriptionTopics(next.Routes());
    forall t ensures t in TopicsToSubscribe(previous, next) <==> t in after && t !in before {
      WithoutHolds(after, TopicSet(before), t);
    }
    forall t ensures t in TopicsToUnsubscribe(previous, next) <==> t in before && t !in after {
      WithoutHolds(before, TopicSet(after), t);
    }
  }
}
