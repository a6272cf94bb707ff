/** The runtime configuration and its normaliser. */
module Config {
  import opened Options
  import opened Text

  const DEFAULT_PARENT_ENDPOINT := "127.0.0.1:9000"
  const DEFAULT_TOPIC := "clipboard.text"
  const DEFAULT_MAX_INLINE_BYTES := 65536
  const DEFAULT_DEVICE_ID := "local-device"
  const DEFAULT_HISTORY_LIMIT := 256
  const MAX_TOPIC_ROUTES := 32
  const MAX_HISTORY_LIMIT := 5000
  const RETENTION_NONE := "none"
  const RETENTION_METADATA := "metadata"
  const RETENTION_BODY := "body"

  datatype TopicRoute = TopicRoute(topic: string, syncToLocal: bool, syncFromLocal: bool)

  /** `topics` is None for Go's nil slice, which is not the same as an empty list. */
  datatype Config = Config(
    enabled: bool, parentEndpoint: string, topic: string, topics: Option<seq<TopicRoute>>,
    maxInlineBytes: int, deviceID: string, displayName: string, deviceLabel: string,
    autoWatch: bool, autoApply: bool, historyRetention: string, historyLimit: int,
    transferProvider: string, transferRef: string)
  {
    function Routes(): seq<TopicRoute> {
      topics.GetOr([])
    }
  }

  function DefaultConfig(): Config {
    Config(false, DEFAULT_PARENT_ENDPOINT, DEFAULT_TOPIC, Some([TopicRoute(DEFAULT_TOPIC, true, true)]),
           DEFAULT_MAX_INLINE_BYTES, DEFAULT_DEVICE_ID, DEFAULT_DEVICE_ID, DEFAULT_DEVICE_ID,
           false, false, RETENTION_BODY, DEFAULT_HISTORY_LIMIT, "", "")
  }

  // ---------------------------------------------------------------- topic routes

  function TrimRoute(r: TopicRoute): TopicRoute {
    r.(topic := TrimSpace(r.topic))
  }

  /** A list of routes the normaliser takes: bounded, and topics distinct once trimmed. */
  predicate AcceptableRoutes(routes: seq<TopicRoute>) {
    && 1 <= |routes| <= MAX_TOPIC_ROUTES
    && (forall i :: 0 <= i < |routes| ==> TrimSpace(routes[i].topic) != "")
    && (forall i, j :: 0 <= i < j < |routes| ==> TrimSpace(routes[i].topic) != TrimSpace(routes[j].topic))
  }

  function NormalizedRoutes(legacyTopic: string, routes: Option<seq<TopicRoute>>): Option<seq<TopicRoute>> {
    match routes
    case None =>
      var topic := TrimSpace(legacyTopic);
      Some([TopicRoute(if topic == "" then DEFAULT_TOPIC else topic, true, true)])
    case Some(rs) =>
      if AcceptableRoutes(rs) then Some(seq(|rs|, i requires 0 <= i < |rs| => TrimRoute(rs[i]))) else None
  }

  method NormalizeTopicRoutes(legacyTopic: string, routes: Option<seq<TopicRoute>>)
    returns (r: Option<seq<TopicRoute>>)
    ensures r == NormalizedRoutes(legacyTopic, routes)
  {
    var legacy := TrimSpace(legacyTopic);
    if routes.None? {
      if legacy == "" {
        legacy := DEFAULT_TOPIC;
      }
      return Some([TopicRoute(legacy, true, true)]);
    }
    var rs := routes.value;
    if |rs| == 0 || |rs| > MAX_TOPIC_ROUTES {
      return None;
    }
    var out: seq<TopicRoute> := [];
    var seen: set<string> := {};
    for i := 0 to |rs|
      invariant |out| == i
      invariant forall k :: 0 <= k < i ==> out[k] == TrimRoute(rs[k]) && out[k].topic != ""
      invariant forall t :: t in seen <==> exists k :: 0 <= k < i && out[k].topic == t
      invariant forall k, l :: 0 <= k < l < i ==> out[k].topic != out[l].topic
    {
      var route := TrimRoute(rs[i]);
      if route.topic == "" {
        return None;
      }
      if route.topic in seen {
        var k :| 0 <= k < i && out[k].topic == route.topic;
        assert TrimSpace(rs[k].topic) == TrimSpace(rs[i].topic);
        return None;
      }
      seen := seen + {route.topic};
      out := out + [route];
    }
    forall k, l | 0 <= k < l < |rs| ensures TrimSpace(rs[k].topic) != TrimSpace(rs[l].topic) {
      assert out[k].topic != out[l].topic;
    }
    forall k | 0 <= k < |rs| ensures TrimSpace(rs[k].topic) != "" {
      assert out[k].topic != "";
    }
    assert AcceptableRoutes(rs);
    assert out == NormalizedRoutes(legacyTopic, routes).value;
    return Some(out);
  }

  // ---------------------------------------------------------------- the whole record

  function OrElse(s: string, fallback: string): string {
    if s == "" then fallback else s
  }

  /** The record the normaliser builds before its checks. */
  function Filled(c: Config, routes: seq<TopicRoute>): Config
    requires routes != []
  {
    var legacyLabel := TrimSpace(c.deviceLabel);
    var deviceID := OrElse(OrElse(TrimSpace(c.deviceID), legacyLabel), DEFAULT_DEVICE_ID);
    var displayName := OrElse(OrElse(TrimSpace(c.displayName), legacyLabel), deviceID);
    Config(c.enabled, OrElse(TrimSpace(c.parentEndpoint), DEFAULT_PARENT_ENDPOINT), routes[0].topic, Some(routes),
           if c.maxInlineBytes == 0 then DEFAULT_MAX_INLINE_BYTES else c.maxInlineBytes,
           deviceID, displayName, displayName, c.autoWatch, c.autoApply,
           OrElse(TrimSpace(c.historyRetention), RETENTION_BODY),
           if c.historyLimit == 0 then DEFAULT_HISTORY_LIMIT else c.historyLimit,
           TrimSpace(c.transferProvider), TrimSpace(c.transferRef))
  }

  predicate KnownRetention(s: string) {
    s == RETENTION_NONE || s == RETENTION_METADATA || s == RETENTION_BODY
  }

  predicate Coherent(c: Config) {
    && 0 <= c.maxInlineBytes
    && 0 <= c.historyLimit <= MAX_HISTORY_LIMIT
    && KnownRetention(c.historyRetention)
    && (c.transferProvider == "" <==> c.transferRef == "")
  }

  function Normalized(c: Config): Option<Config> {
    match NormalizedRoutes(TrimSpace(c.topic), c.topics)
    case None => None
    case Some(routes) => if Coherent(Filled(c, routes)) then Some(Filled(c, routes)) else None
  }

  method NormalizeConfig(c: Config) returns (r: Option<Config>)
    ensures r == Normalized(c)
  {
    var parentEndpoint := TrimSpace(c.parentEndpoint);
    var topic := TrimSpace(c.topic);
    var deviceID := TrimSpace(c.deviceID);
    var displayName := TrimSpace(c.displayName);
    var deviceLabel := TrimSpace(c.deviceLabel);
    var historyRetention := TrimSpace(c.historyRetention);
    var transferProvider := TrimSpace(c.transferProvider);
    var transferRef := TrimSpace(c.transferRef);
    var historyLimit, maxInlineBytes := c.historyLimit, c.maxInlineBytes;
    var routes := NormalizeTopicRoutes(topic, c.topics);
    if routes.None? {
      return None;
    }
    topic := routes.value[0].topic;
    deviceID, displayName := FillIdentity(deviceID, displayName, deviceLabel);
    deviceLabel := displayName;
    if historyRetention == "" { historyRetention := RETENTION_BODY; }
    if historyLimit == 0 { historyLimit := DEFAULT_HISTORY_LIMIT; }
    if maxInlineBytes == 0 { maxInlineBytes := DEFAULT_MAX_INLINE_BYTES; }
    if parentEndpoint == "" { parentEndpoint := DEFAULT_PARENT_ENDPOINT; }
    var filled := Config(c.enabled, parentEndpoint, topic, routes, maxInlineBytes, deviceID, displayName, deviceLabel,
                         c.autoWatch, c.autoApply, historyRetention, historyLimit, transferProvider, transferRef);
    var ok := Check(filled);
    r := if ok then Some(filled) else None;
  }

  method FillIdentity(deviceID: string, displayName: string, deviceLabel: string) returns (id: string, name: string)
    ensures id == OrElse(OrElse(deviceID, deviceLabel), DEFAULT_DEVICE_ID)
    ensures name == OrElse(OrElse(displayName, deviceLabel), id)
  {
    id, name := deviceID, displayName;
    if id == "" { id := deviceLabel; }
    if id == "" { id := DEFAULT_DEVICE_ID; }
    if name == "" { name := deviceLabel; }
    if name == "" { name := id; }
  }

  /** The checks at the end of the normaliser, one after the other. */
  method Check(c: Config) returns (ok: bool)
    ensures ok <==> Coherent(c) && !(c.enabled && c.Routes() == [])
  {
    if c.maxInlineBytes < 0 { return false; }
    if c.historyLimit < 0 { return false; }
    if c.historyLimit > MAX_HISTORY_LIMIT { return false; }
    if c.enabled && |c.Routes()| == 0 { return false; }
    if && c.historyRetention != RETENTION_NONE
       && c.historyRetention != RETENTION_METADATA
       && c.historyRetention != RETENTION_BODY {
      return false;
    }
    if c.transferProvider == "" && c.transferRef != "" { return false; }
    if c.transferProvider != "" && c.transferRef == "" { return false; }
    return true;
  }

  /** What every consumer of a normalised configuration relies on. */
  ghost predicate Normal(c: Config) {
    && c.topics.Some?
    && AcceptableRoutes(c.Routes())
    && (forall i :: 0 <= i < |c.Routes()| ==> Trimmed(c.Routes()[i].topic) && c.Routes()[i].topic != "")
    && c.topic == c.Routes()[0].topic
    && c.parentEndpoint != "" && Trimmed(c.parentEndpoint)
    && c.deviceID != "" && Trimmed(c.deviceID)
    && c.displayName != "" && Trimmed(c.displayName)
    && c.deviceLabel == c.displayName
    && 0 < c.maxInlineBytes
    && 0 < c.historyLimit <= MAX_HISTORY_LIMIT
    && KnownRetention(c.historyRetention)
    && Trimmed(c.transferProvider) && Trimmed(c.transferRef)
    && (c.transferProvider == "" <==> c.transferRef == "")
  }

  lemma ConstantsTrimmed()
    ensures Trimmed(DEFAULT_PARENT_ENDPOINT) && Trimmed(DEFAULT_TOPIC) && Trimmed(DEFAULT_DEVICE_ID)
    ensures Trimmed(RETENTION_NONE) && Trimmed(RETENTION_METADATA) && Trimmed(RETENTION_BODY)
  {
    assert DEFAULT_PARENT_ENDPOINT[|DEFAULT_PARENT_ENDPOINT| - 1] == '0';
    assert DEFAULT_TOPIC[|DEFAULT_TOPIC| - 1] == 't';
    assert DEFAULT_DEVICE_ID[|DEFAULT_DEVICE_ID| - 1] == 'e';
    assert RETENTION_NONE[|RETENTION_NONE| - 1] == 'e';
    assert RETENTION_METADATA[|RETENTION_METADATA| - 1] == 'a';
    assert RETENTION_BODY[|RETENTION_BODY| - 1] == 'y';
  }

  lemma NormalizedRoutesNormal(legacyTopic: string, routes: Option<seq<TopicRoute>>)
    requires NormalizedRoutes(legacyTopic, routes).Some?
    ensures var rs := NormalizedRoutes(legacyTopic, routes).value;
            AcceptableRoutes(rs) && forall i :: 0 <= i < |rs| ==> Trimmed(rs[i].topic) && rs[i].topic != ""
  {
    ConstantsTrimmed();
  }

  /** Acceptance produces a normal configuration ... */
  lemma NormalizedIsNormal(c: Config)
    requires Normalized(c).Some?
    ensures Normal(Normalized(c).value)
  {
    NormalizedRoutesNormal(TrimSpace(c.topic), c.topics);
    ConstantsTrimmed();
  }

  /** ... and the normal configurations are exactly the fixed points of the normaliser. */
  lemma NormalizeFixedPoints(c: Config)
    ensures Normalized(c) == Some(c) <==> Normal(c)
  {
    if Normal(c) {
      var rs := c.Routes();
      assert NormalizedRoutes(TrimSpace(c.topic), c.topics).value == rs;
      ConstantsTrimmed();
    }
    if Normalized(c) == Some(c) {
      NormalizedIsNormal(c);
    }
  }

  lemma NormalizeIdempotent(c: Config)
    requires Normalized(c).Some?
    ensures Normalized(Normalized(c).value) == Normalized(c)
  {
    NormalizedIsNormal(c);
    NormalizeFixedPoints(Normalized(c).value);
  }

  /** The one way an enabled configuration without topics could arise is already refused. */
  lemma AcceptedExactly(c: Config)
    ensures Normalized(c).Some? <==>
            && (c.topics.Some? ==> AcceptableRoutes(c.topics.value))
            && 0 <= c.maxInlineBytes
            && 0 <= c.historyLimit <= MAX_HISTORY_LIMIT
            && (TrimSpace(c.historyRetention) == "" || KnownRetention(TrimSpace(c.historyRetention)))
            && (TrimSpace(c.transferProvider) == "" <==> TrimSpace(c.transferRef) == "")
  {
  }

  // ---------------------------------------------------------------- what fills an empty field

  /** x is the first of these that is not empty, or the last. */
  predicate FirstGiven(x: string, a: string, b: string, last: string) {
    && (a != "" ==> x == a)
    && (a == "" && b != "" ==> x == b)
    && (a == "" && b == "" ==> x == last)
  }

  /** The routes as given, trimmed, or the one route that stands for the old single topic. */
  ghost predicate RoutesFrom(routes: seq<TopicRoute>, given: Option<seq<TopicRoute>>, topic: string) {
    && (given.None? ==>
          && |routes| == 1 && routes[0].syncToLocal && routes[0].syncFromLocal
          && FirstGiven(routes[0].topic, TrimSpace(topic), "", DEFAULT_TOPIC))
    && (given.Some? ==>
          && |routes| == |given.value|
          && forall i :: 0 <= i < |routes| ==>
               && routes[i].topic == TrimSpace(given.value[i].topic)
               && routes[i].syncToLocal == given.value[i].syncToLocal
               && routes[i].syncFromLocal == given.value[i].syncFromLocal)
  }

  /** Every field of an accepted configuration, from the fields as they were given. */
  lemma NormalizedFieldsExactly(c: Config)
    requires Normalized(c).Some?
    ensures var n := Normalized(c).value;
            && n.enabled == c.enabled && n.autoWatch == c.autoWatch && n.autoApply == c.autoApply
            && RoutesFrom(n.Routes(), c.topics, c.topic) && n.Routes() != [] && n.topic == n.Routes()[0].topic
            && FirstGiven(n.parentEndpoint, TrimSpace(c.parentEndpoint), "", DEFAULT_PARENT_ENDPOINT)
            && FirstGiven(n.deviceID, TrimSpace(c.deviceID), TrimSpace(c.deviceLabel), DEFAULT_DEVICE_ID)
            && FirstGiven(n.displayName, TrimSpace(c.displayName), TrimSpace(c.deviceLabel), n.deviceID)
            && n.deviceLabel == n.displayName
            && FirstGiven(n.historyRetention, TrimSpace(c.historyRetention), "", RETENTION_BODY)
            && n.historyLimit == (if c.historyLimit == 0 then DEFAULT_HISTORY_LIMIT else c.historyLimit)
            && n.maxInlineBytes == (if c.maxInlineBytes == 0 then DEFAULT_MAX_INLINE_BYTES else c.maxInlineBytes)
            && n.transferProvider == TrimSpace(c.transferProvider) && n.transferRef == TrimSpace(c.transferRef)
  {
    hide TrimSpace;
    TrimsAgain(c.topic);
  }

  lemma TrimsAgain(s: string)
    ensures TrimSpace(TrimSpace(s)) == TrimSpace(s)
  {
  }
}
