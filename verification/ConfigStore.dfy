/** The configuration file: a JSON object whose fields may be missing. */
module ConfigStore {
  import opened Options
  import opened Text
  import opened Config

  /**
   A decoded JSON object; None stands for a missing or null field. The decoder finds a field whatever the
   case of its key; `exactLimitKey` says that the limit's key is spelled `history_limit`, with a value other
   than null.
   */
  datatype Document = Document(
    enabled: Option<bool>, parentEndpoint: Option<string>, topic: Option<string>, topics: Option<seq<TopicRoute>>,
    maxInlineBytes: Option<int>, deviceID: Option<string>, displayName: Option<string>, deviceLabel: Option<string>,
    autoWatch: Option<bool>, autoApply: Option<bool>, historyRetention: Option<string>, historyLimit: Option<int>,
    exactLimitKey: bool, transferProvider: Option<string>, transferRef: Option<string>)

  datatype File = Missing | Unreadable | Undecodable | Object(doc: Document)

  function OmitEmpty(s: string): Option<string> {
    if s == "" then None else Some(s)
  }

  /** `json.Marshal` of a configuration, with the `omitempty` fields left out when zero. */
  function Encode(c: Config): Document {
    Document(Some(c.enabled), Some(c.parentEndpoint), Some(c.topic),
             if c.Routes() == [] then None else c.topics,
             Some(c.maxInlineBytes), OmitEmpty(c.deviceID), OmitEmpty(c.displayName), OmitEmpty(c.deviceLabel),
             Some(c.autoWatch), Some(c.autoApply), OmitEmpty(c.historyRetention),
             if c.historyLimit == 0 then None else Some(c.historyLimit), c.historyLimit != 0,
             OmitEmpty(c.transferProvider), OmitEmpty(c.transferRef))
  }

  function Decode(d: Document): Config {
    Config(d.enabled.GetOr(false), d.parentEndpoint.GetOr(""), d.topic.GetOr(""), d.topics,
           d.maxInlineBytes.GetOr(0), d.deviceID.GetOr(""), d.displayName.GetOr(""), d.deviceLabel.GetOr(""),
           d.autoWatch.GetOr(false), d.autoApply.GetOr(false), d.historyRetention.GetOr(""), d.historyLimit.GetOr(0),
           d.transferProvider.GetOr(""), d.transferRef.GetOr(""))
  }

  /** Old files asked for metadata-only history without a limit; they now keep bodies. */
  function MigrateLegacyHistoryDefaults(c: Config, d: Document): Config {
    if c.historyRetention != RETENTION_METADATA then c
    else if d.exactLimitKey then c
    else c.(historyRetention := RETENTION_BODY,
            historyLimit := if c.historyLimit == 0 then DEFAULT_HISTORY_LIMIT else c.historyLimit)
  }

  function Loaded(f: File): Option<Config> {
    match f
    case Missing => Some(DefaultConfig())
    case Unreadable => None
    case Undecodable => None
    case Object(d) => Normalized(MigrateLegacyHistoryDefaults(Decode(d), d))
  }

  class Store {
    var file: File

    constructor (file: File)
      ensures this.file == file
    {
      this.file := file;
    }

    method Load() returns (r: Option<Config>)
      ensures r == Loaded(file)
    {
      match file
      case Missing => r := Some(DefaultConfig());
      case Unreadable => r := None;
      case Undecodable => r := None;
      case Object(d) =>
        var c := MigrateLegacyHistoryDefaults(Decode(d), d);
        r := NormalizeConfig(c);
    }

    /** The replacement of the file is atomic: it happens or it does not. */
    method Save(c: Config, writable: bool) returns (ok: bool)
      modifies this
      ensures ok <==> Normalized(c).Some? && writable
      ensures file == if ok then Object(Encode(Normalized(c).value)) else old(file)
      ensures ok ==> Loaded(file) == Normalized(c)
    {
      var normal := NormalizeConfig(c);
      if normal.None? || !writable {
        return false;
      }
      file := Object(Encode(normal.value));
      LoadAfterSave(c);
      return true;
    }
  }

  /** Load undoes Save, for every configuration the normaliser accepts. */
  lemma LoadAfterSave(c: Config)
    requires Normalized(c).Some?
    ensures Loaded(Object(Encode(Normalized(c).value))) == Normalized(c)
  {
    var n := Normalized(c).value;
    NormalizedIsNormal(c);
    assert Decode(Encode(n)) == n;
    NormalizeFixedPoints(n);
  }

  /** Whatever was on disk, what a load yields is normal, and saving it loads as itself. */
  lemma LoadIsStable(f: File)
    requires Loaded(f).Some?
    ensures Normal(Loaded(f).value)
    ensures Loaded(Object(Encode(Loaded(f).value))) == Loaded(f)
  {
    var n := Loaded(f).value;
    if f.Missing? {
      DefaultIsNormal();
    } else {
      NormalizedIsNormal(MigrateLegacyHistoryDefaults(Decode(f.doc), f.doc));
    }
    NormalizeFixedPoints(n);
    LoadAfterSave(n);
  }

  lemma DefaultIsNormal()
    ensures Normal(DefaultConfig())
  {
    ConstantsTrimmed();
    assert DEFAULT_TOPIC != "" && DEFAULT_DEVICE_ID != "" && DEFAULT_PARENT_ENDPOINT != "";
  }

  /** The migration fires on exactly the old files, and on no file a Save wrote. */
  lemma MigrationFiresExactly(d: Document)
    ensures MigrateLegacyHistoryDefaults(Decode(d), d) != Decode(d) <==>
            d.historyRetention == Some(RETENTION_METADATA) && !d.exactLimitKey
    ensures forall c: Config :: Normal(c) && d == Encode(c) ==> MigrateLegacyHistoryDefaults(Decode(d), d) == c
  {
    assert RETENTION_METADATA[0] != RETENTION_BODY[0];
    forall c: Config | Normal(c) && d == Encode(c) ensures MigrateLegacyHistoryDefaults(Decode(d), d) == c {
      assert Decode(d) == c;
    }
  }

  /** So a limit under a differently cased key, though decoded, does not keep a file from being migrated. */
  lemma CasedLimitIsMigrated(limit: int)
    requires 1 <= limit <= MAX_HISTORY_LIMIT
    ensures var saved := DefaultConfig().(historyRetention := RETENTION_METADATA, historyLimit := limit);
            && Loaded(Object(Encode(saved))) == Some(saved)
            && Loaded(Object(Encode(saved).(exactLimitKey := false))) ==
               Some(saved.(historyRetention := RETENTION_BODY))
  {
    hide Normalized;
    var saved := DefaultConfig().(historyRetention := RETENTION_METADATA, historyLimit := limit);
    DefaultIsNormal();
    NormalizeFixedPoints(saved);
    NormalizeFixedPoints(saved.(historyRetention := RETENTION_BODY));
    LoadAfterSave(saved);
    assert Decode(Encode(saved)) == saved;
  }

  /** Every field of a loaded configuration, by the keys of the file. */
  lemma LoadedFieldsExactly(d: Document)
    requires Loaded(Object(d)).Some?
    ensures var n := Loaded(Object(d)).value;
            var legacy := TrimSpace(d.deviceLabel.GetOr(""));
            var migrates := d.historyRetention == Some(RETENTION_METADATA) && !d.exactLimitKey;
            && n.enabled == d.enabled.GetOr(false)
            && n.autoWatch == d.autoWatch.GetOr(false) && n.autoApply == d.autoApply.GetOr(false)
            && RoutesFrom(n.Routes(), d.topics, d.topic.GetOr("")) && n.topic == n.Routes()[0].topic
            && FirstGiven(n.parentEndpoint, TrimSpace(d.parentEndpoint.GetOr("")), "", DEFAULT_PARENT_ENDPOINT)
            && FirstGiven(n.deviceID, TrimSpace(d.deviceID.GetOr("")), legacy, DEFAULT_DEVICE_ID)
            && FirstGiven(n.displayName, TrimSpace(d.displayName.GetOr("")), legacy, n.deviceID)
            && n.deviceLabel == n.displayName
            && (if migrates then n.historyRetention == RETENTION_BODY
                else FirstGiven(n.historyRetention, TrimSpace(d.historyRetention.GetOr("")), "", RETENTION_BODY))
            && n.historyLimit ==
               (if d.historyLimit.GetOr(0) == 0 then DEFAULT_HISTORY_LIMIT else d.historyLimit.GetOr(0))
            && n.maxInlineBytes ==
               (if d.maxInlineBytes.GetOr(0) == 0 then DEFAULT_MAX_INLINE_BYTES else d.maxInlineBytes.GetOr(0))
            && n.transferProvider == TrimSpace(d.transferProvider.GetOr(""))
            && n.transferRef == TrimSpace(d.transferRef.GetOr(""))
  {
    hide Normalized, TrimSpace, RoutesFrom;
    NormalizedFieldsExactly(MigrateLegacyHistoryDefaults(Decode(d), d));
    ConstantsTrimmed();
    assert RETENTION_BODY[0] == 'b';
    BodyTrims();
  }

  lemma BodyTrims()
    ensures TrimSpace(RETENTION_BODY) == RETENTION_BODY
  {
    ConstantsTrimmed();
  }

  const EMPTY_FILE :=
    Document(None, None, None, None, None, None, None, None, None, None, None, None, false, None, None)

  /** A file without a single field is loaded as if there were none. */
  lemma EmptyFileIsDefault()
    ensures Loaded(Object(EMPTY_FILE)) == Loaded(Missing) == Some(DefaultConfig())
  {
    var zero := Decode(EMPTY_FILE);
    assert TrimSpace("") == "";
    assert RETENTION_METADATA != "" && KnownRetention(RETENTION_BODY);
    var filled := Filled(zero, [TopicRoute(DEFAULT_TOPIC, true, true)]);
    assert NormalizedRoutes("", None).value == [TopicRoute(DEFAULT_TOPIC, true, true)];
    assert filled == DefaultConfig();
  }
}
