/**
 The body-history store of the desktop bridge, bounded at every step. The reference is the unbounded
 log of touched texts.
 */
module History {
  import opened Options
  import opened Text
  import opened Config
  import Dedupe
  import Json
  import Topics

  /** What `time.Now` read, in the two units the code uses. */
  datatype Clock = Clock(micros: int, millis: int)

  datatype HistoryEntry = HistoryEntry(
    id: string, kind: string, text: string, topic: string, deviceLabel: string, byteSize: int,
    hashPrefix: string, timestampMS: int)

  const PUBLISHED := "published"
  const APPLIED := "applied"

  function HistoryID(now: Clock): (s: string)
    ensures s != "" && Trimmed(s)
  {
    var s := "history-" + Json.FormatInt(now.micros);
    assert s[|s| - 1] == Json.FormatInt(now.micros)[|Json.FormatInt(now.micros)| - 1];
    s
  }

  function RestoreID(now: Clock): string {
    "restore-" + Json.FormatInt(now.micros)
  }

  predicate CanPersist(kind: string) {
    kind == PUBLISHED || kind == APPLIED
  }

  function NormalizeEntry(hash: HashFn, e: HistoryEntry, now: Clock): (r: HistoryEntry)
    ensures r.text == e.text
  {
    var id, kind, prefix := TrimSpace(e.id), TrimSpace(e.kind), TrimSpace(e.hashPrefix);
    HistoryEntry(
      if id == "" then HistoryID(now) else id,
      if CanPersist(kind) then kind else PUBLISHED,
      e.text, TrimSpace(e.topic), TrimSpace(e.deviceLabel),
      if e.byteSize <= 0 then Utf8Len(e.text) else e.byteSize,
      if prefix == "" then HashPrefix(hash(e.text)) else prefix,
      if e.timestampMS <= 0 then now.millis else e.timestampMS)
  }

  ghost predicate NormalEntry(e: HistoryEntry) {
    && e.id != "" && Trimmed(e.id)
    && CanPersist(e.kind)
    && Trimmed(e.topic) && Trimmed(e.deviceLabel)
    && 0 < e.byteSize
    && e.hashPrefix != "" && Trimmed(e.hashPrefix)
    && 0 < e.timestampMS
  }

  lemma KindsTrimmed()
    ensures Trimmed(PUBLISHED) && Trimmed(APPLIED)
  {
    assert PUBLISHED[8] == 'd' && APPLIED[6] == 'd';
  }

  lemma PrefixTrimmed(hash: HashFn, text: string)
    ensures HashPrefix(hash(text)) != "" && Trimmed(HashPrefix(hash(text)))
  {
    assert IsDigest(hash(text));
  }

  /** Normalising under a positive clock yields a normal entry, and leaves a normal entry alone under any clock. */
  lemma NormalizeEntryNormal(hash: HashFn, e: HistoryEntry, now: Clock)
    requires e.text != "" && 0 < now.millis
    ensures NormalEntry(NormalizeEntry(hash, e, now))
  {
    KindsTrimmed();
    PrefixTrimmed(hash, e.text);
  }

  lemma NormalEntriesStay(hash: HashFn, e: HistoryEntry, now: Clock)
    requires NormalEntry(e)
    ensures NormalizeEntry(hash, e, now) == e
  {
    KindsTrimmed();
  }

  /** `historyLimit`. */
  function LimitFor(cfg: Config): (limit: nat)
    ensures 1 <= limit <= MAX_HISTORY_LIMIT
    ensures 1 <= cfg.historyLimit <= MAX_HISTORY_LIMIT ==> limit == cfg.historyLimit
  {
    if cfg.historyLimit <= 0 then DEFAULT_HISTORY_LIMIT
    else if cfg.historyLimit > MAX_HISTORY_LIMIT then MAX_HISTORY_LIMIT
    else cfg.historyLimit
  }

  // ---------------------------------------------------------------- lists

  function Take<T>(s: seq<T>, k: nat): seq<T> {
    if |s| <= k then s else s[..k]
  }

  function Texts(entries: seq<HistoryEntry>): (texts: seq<string>)
    ensures |texts| == |entries| && forall i :: 0 <= i < |texts| ==> texts[i] == entries[i].text
  {
    seq(|entries|, i requires 0 <= i < |entries| => entries[i].text)
  }

  /** The entries with another text, in order. */
  function Others(entries: seq<HistoryEntry>, text: string): seq<HistoryEntry> {
    if entries == [] then []
    else
      var n := |entries| - 1;
      Others(entries[..n], text) + if entries[n].text == text then [] else [entries[n]]
  }

  /** The first entry of each text, leaving out the empty text. */
  function KeepFirst(entries: seq<HistoryEntry>): seq<HistoryEntry> {
    if entries == [] then []
    else
      var n := |entries| - 1;
      var kept := KeepFirst(entries[..n]);
      kept + if entries[n].text == "" || entries[n].text in Texts(kept) then [] else [entries[n]]
  }

  function NormalizeAll(hash: HashFn, entries: seq<HistoryEntry>, now: Clock): seq<HistoryEntry> {
    seq(|entries|, i requires 0 <= i < |entries| => NormalizeEntry(hash, entries[i], now))
  }

  // ---------------------------------------------------------------- the store

  /** The entries in memory, and the list in the file (None before the first save). */
  datatype Stored = Stored(entries: seq<HistoryEntry>, file: Option<seq<HistoryEntry>>)

  datatype Activity = Activity(
    id: string, kind: string, topic: string, deviceLabel: string, byteSize: int, hashPrefix: string,
    timestampMS: int, text: string)

  /** What an operation returns. */
  datatype Answer = Unchanged | Changed | Failed

  function Visible(entries: seq<HistoryEntry>, cfg: Config): seq<HistoryEntry> {
    if cfg.historyRetention != RETENTION_BODY then [] else Take(entries, LimitFor(cfg))
  }

  /** The limit is looked at after an old entry went in, so at least one old entry stays whatever the limit. */
  function Prepended(hash: HashFn, entries: seq<HistoryEntry>, e: HistoryEntry, limit: nat,
                     now: Clock): seq<HistoryEntry> {
    [NormalizeEntry(hash, e, now)] + Take(Others(entries, e.text), if limit <= 2 then 1 else limit - 1)
  }

  function Saved(st: Stored, saves: bool): (Stored, Answer) {
    if saves then (st.(file := Some(st.entries)), Changed) else (st, Failed)
  }

  function Applied(st: Stored, cfg: Config, saves: bool): (Stored, Answer) {
    match Normalized(cfg)
    case None => (st, Failed)
    case Some(c) =>
      if c.historyRetention != RETENTION_BODY then
        if st.entries == [] then (st, Unchanged) else Saved(st.(entries := []), saves)
      else if |st.entries| <= LimitFor(c) then (st, Unchanged)
      else Saved(st.(entries := st.entries[..LimitFor(c)]), saves)
  }

  function FromActivity(a: Activity): HistoryEntry {
    HistoryEntry(a.id, a.kind, a.text, a.topic, a.deviceLabel, a.byteSize, a.hashPrefix, a.timestampMS)
  }

  function Appended(hash: HashFn, st: Stored, a: Activity, cfg: Config, now: Clock, saves: bool): (Stored, Answer) {
    match Normalized(cfg)
    case None => (st, Failed)
    case Some(c) =>
      if c.historyRetention != RETENTION_BODY || a.text == "" || !CanPersist(a.kind) then (st, Unchanged)
      else Saved(st.(entries := Prepended(hash, st.entries, FromActivity(a), LimitFor(c), now)), saves)
  }

  /** The clock is read twice: once for the restored entry, once to normalise it. */
  function Promoted(hash: HashFn, st: Stored, e: HistoryEntry, cfg: Config, now: Clock, later: Clock,
                    saves: bool): (Stored, Answer) {
    match Normalized(cfg)
    case None => (st, Failed)
    case Some(c) =>
      if c.historyRetention != RETENTION_BODY then (st, Unchanged)
      else if e.text == "" then (st, Failed)
      else
        var restored := e.(id := RestoreID(now), timestampMS := now.millis);
        Saved(st.(entries := Prepended(hash, st.entries, restored, LimitFor(c), later)), saves)
  }

  function Cleared(st: Stored, saves: bool): (Stored, Answer) {
    Saved(st.(entries := []), saves)
  }

  /** Opening the file again. */
  function Reloaded(hash: HashFn, st: Stored, now: Clock): Stored {
    match st.file
    case None => st.(entries := [])
    case Some(list) => st.(entries := NormalizeAll(hash, KeepFirst(list), now))
  }

  class HistoryStore {
    var entries: seq<HistoryEntry>
    var file: Option<seq<HistoryEntry>>

    ghost function Model(): Stored
      reads this
    {
      Stored(entries, file)
    }

    constructor (hash: HashFn, file: Option<seq<HistoryEntry>>, now: Clock)
      ensures Model() == Reloaded(hash, Stored([], file), now)
    {
      this.file := file;
      this.entries := [];
      new;
      if file.Some? {
        var list := NormalizeLoadedHistory(hash, file.value, now);
        entries := list;
      }
    }

    method Entries(cfg: Config) returns (view: seq<HistoryEntry>)
      ensures view == Visible(entries, cfg)
    {
      if cfg.historyRetention != RETENTION_BODY {
        return [];
      }
      var limit := LimitFor(cfg);
      if |entries| <= limit {
        return entries;
      }
      view := entries[..limit];
    }

    /** The replacement of the file is atomic: it happens or it does not. */
    method Save(saves: bool) returns (answer: Answer)
      modifies this
      ensures (Model(), answer) == Saved(old(Model()), saves)
    {
      if !saves {
        return Failed;
      }
      file := Some(entries);
      answer := Changed;
    }

    method ApplySettings(cfg: Config, saves: bool) returns (answer: Answer)
      modifies this
      ensures (Model(), answer) == Applied(old(Model()), cfg, saves)
    {
      var normal := NormalizeConfig(cfg);
      if normal.None? {
        return Failed;
      }
      if normal.value.historyRetention != RETENTION_BODY {
        if |entries| == 0 {
          return Unchanged;
        }
        entries := [];
        answer := Save(saves);
        return;
      }
      var limit := LimitFor(normal.value);
      if |entries| <= limit {
        return Unchanged;
      }
      entries := entries[..limit];
      answer := Save(saves);
    }

    method AppendActivity(hash: HashFn, a: Activity, cfg: Config, now: Clock, saves: bool) returns (answer: Answer)
      modifies this
      ensures (Model(), answer) == Appended(hash, old(Model()), a, cfg, now, saves)
    {
      var normal := NormalizeConfig(cfg);
      if normal.None? {
        return Failed;
      }
      if normal.value.historyRetention != RETENTION_BODY {
        return Unchanged;
      }
      if a.text == "" || !CanPersist(a.kind) {
        return Unchanged;
      }
      PrependLocked(hash, FromActivity(a), LimitFor(normal.value), now);
      answer := Save(saves);
    }

    method Promote(hash: HashFn, e: HistoryEntry, cfg: Config, now: Clock, later: Clock,
                   saves: bool) returns (answer: Answer)
      modifies this
      ensures (Model(), answer) == Promoted(hash, old(Model()), e, cfg, now, later, saves)
    {
      var normal := NormalizeConfig(cfg);
      if normal.None? {
        return Failed;
      }
      if normal.value.historyRetention != RETENTION_BODY {
        return Unchanged;
      }
      if e.text == "" {
        return Failed;
      }
      PrependLocked(hash, e.(id := RestoreID(now), timestampMS := now.millis), LimitFor(normal.value), later);
      answer := Save(saves);
    }

    method Clear(saves: bool) returns (answer: Answer)
      modifies this
      ensures (Model(), answer) == Cleared(old(Model()), saves)
    {
      entries := [];
      answer := Save(saves);
    }

    method PrependLocked(hash: HashFn, e: HistoryEntry, limit: nat, now: Clock)
      requires 1 <= limit
      modifies this
      ensures Model() == old(Model()).(entries := Prepended(hash, old(entries), e, limit, now))
    {
      var next := CopyBehind(entries, NormalizeEntry(hash, e, now), limit);
      entries := next;
    }
  }

  /** The loop of `prependLocked`: the new entry, and the old ones behind it until the limit is reached. */
  method CopyBehind(entries: seq<HistoryEntry>, entry: HistoryEntry, limit: nat) returns (next: seq<HistoryEntry>)
    requires 1 <= limit
    ensures next == [entry] + Take(Others(entries, entry.text), if limit <= 2 then 1 else limit - 1)
  {
    hide Others, Take;
    next := [entry];
    ghost var cap := if limit <= 2 then 1 else limit - 1;
    OthersNone(entries, entry.text);
    for i := 0 to |entries|
      invariant next == [entry] + Others(entries[..i], entry.text)
      invariant |Others(entries[..i], entry.text)| < cap
    {
      OthersStep(entries, i, entry.text);
      if entries[i].text == entry.text {
        continue;
      }
      next := next + [entries[i]];
      if |next| >= limit {
        CutHere(entries, i + 1, entry.text, cap);
        return;
      }
    }
    CutNowhere(entries, entry.text, cap);
  }

  method NormalizeLoadedHistory(hash: HashFn, list: seq<HistoryEntry>, now: Clock) returns (out: seq<HistoryEntry>)
    ensures out == NormalizeAll(hash, KeepFirst(list), now)
  {
    hide NormalizeEntry, KeepFirst, Texts, NormalizeAll;
    out := [];
    var seen: set<string> := {};
    KeepFirstNone(hash, list, now);
    for i := 0 to |list|
      invariant out == NormalizeAll(hash, KeepFirst(list[..i]), now)
      invariant forall t :: t in seen <==> t in Texts(KeepFirst(list[..i]))
    {
      ghost var kept := KeepFirst(list[..i]);
      KeepFirstStep(list, i);
      TextsAppend(kept, list[i]);
      NormalizeAppend(hash, kept, list[i], now);
      if list[i].text == "" {
        continue;
      }
      if list[i].text in seen {
        continue;
      }
      seen := seen + {list[i].text};
      out := out + [NormalizeEntry(hash, list[i], now)];
    }
    assert list[..|list|] == list;
  }

  lemma TextsAppend(entries: seq<HistoryEntry>, e: HistoryEntry)
    ensures Texts(entries + [e]) == Texts(entries) + [e.text]
  {
  }

  lemma TextsPrepend(e: HistoryEntry, entries: seq<HistoryEntry>)
    ensures Texts([e] + entries) == [e.text] + Texts(entries)
  {
  }

  lemma OthersNone(entries: seq<HistoryEntry>, text: string)
    ensures Others(entries[..0], text) == []
  {
  }

  lemma KeepFirstStep(list: seq<HistoryEntry>, i: nat)
    requires i < |list|
    ensures var kept := KeepFirst(list[..i]);
            KeepFirst(list[..i + 1]) ==
            if list[i].text == "" || list[i].text in Texts(kept) then kept else kept + [list[i]]
  {
    assert list[..i + 1][..i] == list[..i];
  }

  lemma KeepFirstNone(hash: HashFn, list: seq<HistoryEntry>, now: Clock)
    ensures KeepFirst(list[..0]) == [] && Texts([]) == [] && NormalizeAll(hash, [], now) == []
  {
  }

  lemma NormalizeAppend(hash: HashFn, entries: seq<HistoryEntry>, e: HistoryEntry, now: Clock)
    ensures NormalizeAll(hash, entries + [e], now) == NormalizeAll(hash, entries, now) + [NormalizeEntry(hash, e, now)]
  {
    hide NormalizeEntry;
  }

  lemma OthersStep(entries: seq<HistoryEntry>, i: nat, text: string)
    requires i < |entries|
    ensures Others(entries[..i + 1], text) ==
            if entries[i].text == text then Others(entries[..i], text) else Others(entries[..i], text) + [entries[i]]
  {
    assert entries[..i + 1][..i] == entries[..i];
  }

  lemma TakeAll<T>(s: seq<T>, k: nat)
    requires |s| <= k
    ensures Take(s, k) == s
  {
  }

  lemma TakePrefix<T>(part: seq<T>, s: seq<T>, k: nat)
    requires part <= s && |part| == k
    ensures Take(s, k) == part
  {
  }

  lemma CutHere(entries: seq<HistoryEntry>, i: nat, text: string, cap: nat)
    requires i <= |entries| && |Others(entries[..i], text)| == cap
    ensures Take(Others(entries, text), cap) == Others(entries[..i], text)
  {
    hide Others, Take;
    OthersSplit(entries, i, text);
    TakePrefix(Others(entries[..i], text), Others(entries, text), cap);
  }

  lemma CutNowhere(entries: seq<HistoryEntry>, text: string, cap: nat)
    requires |Others(entries[..|entries|], text)| <= cap
    ensures Take(Others(entries, text), cap) == Others(entries[..|entries|], text)
  {
    hide Others, Take;
    assert entries[..|entries|] == entries;
    TakeAll(Others(entries, text), cap);
  }

  lemma {:induction false} OthersSplit(entries: seq<HistoryEntry>, i: nat, text: string)
    requires i <= |entries|
    ensures Others(entries[..i], text) <= Others(entries, text)
  {
    if i == |entries| {
      assert entries[..i] == entries;
    } else {
      var n := |entries| - 1;
      OthersSplit(entries[..n], i, text);
      assert entries[..n][..i] == entries[..i];
    }
  }

  // ---------------------------------------------------------------- the reference: an unbounded touch log

  function WithoutText(s: seq<string>, x: string): seq<string> {
    Topics.Without(s, {x})
  }

  /** The distinct texts of the log, most recently touched first. */
  function Mru(log: seq<string>): seq<string> {
    if log == [] then []
    else
      var n := |log| - 1;
      [log[n]] + WithoutText(Mru(log[..n]), log[n])
  }

  /** The place of the last touch of x. */
  function LastTouch(log: seq<string>, x: string): (i: nat)
    requires x in log
    ensures i < |log| && log[i] == x
    ensures forall j :: i < j < |log| ==> log[j] != x
  {
    var n := |log| - 1;
    if log[n] == x then n
    else
      assert log == log[..n] + [log[n]];
      LastTouch(log[..n], x)
  }

  lemma LastIsNew(s: seq<string>)
    requires Dedupe.Distinct(s) && s != []
    ensures Dedupe.Distinct(s[..|s| - 1]) && s[|s| - 1] !in s[..|s| - 1]
  {
  }

  lemma {:induction false} WithoutTextHolds(s: seq<string>, x: string)
    requires Dedupe.Distinct(s)
    ensures Dedupe.Distinct(WithoutText(s, x))
    ensures forall y :: y in WithoutText(s, x) <==> y in s && y != x
    ensures |WithoutText(s, x)| == |s| - if x in s then 1 else 0
  {
    if s != [] {
      var n := |s| - 1;
      assert s == s[..n] + [s[n]];
      assert s[n] !in s[..n];
      WithoutTextHolds(s[..n], x);
      var rest := WithoutText(s[..n], x);
      assert s[n] !in rest;
      assert forall y :: y in rest + [s[n]] <==> y in rest || y == s[n];
    }
  }

  lemma {:induction false} MruHolds(log: seq<string>)
    ensures Dedupe.Distinct(Mru(log))
    ensures forall x :: x in Mru(log) <==> x in log
  {
    if log != [] {
      var n := |log| - 1;
      assert log == log[..n] + [log[n]];
      MruHolds(log[..n]);
      WithoutTextHolds(Mru(log[..n]), log[n]);
      var rest := WithoutText(Mru(log[..n]), log[n]);
      assert forall x :: x in [log[n]] + rest <==> x == log[n] || x in rest;
    }
  }

  /** The list a removal leaves keeps the order of what it came from. */
  lemma {:induction false} WithoutPlaces(s: seq<string>, x: string, i: nat, j: nat) returns (k: nat, l: nat)
    requires i < j < |WithoutText(s, x)|
    ensures k < l < |s| && s[k] == WithoutText(s, x)[i] && s[l] == WithoutText(s, x)[j]
  {
    var n := |s| - 1;
    if j < |WithoutText(s[..n], x)| {
      k, l := WithoutPlaces(s[..n], x, i, j);
    } else {
      k := WithoutPlace(s[..n], x, i);
      l := n;
    }
  }

  lemma {:induction false} WithoutPlace(s: seq<string>, x: string, i: nat) returns (k: nat)
    requires i < |WithoutText(s, x)|
    ensures k < |s| && s[k] == WithoutText(s, x)[i] && s[k] != x
  {
    var n := |s| - 1;
    if i < |WithoutText(s[..n], x)| {
      k := WithoutPlace(s[..n], x, i);
    } else {
      k := n;
    }
  }

  /** A listed text is the last touch, or stands in the earlier list and was last touched there. */
  lemma MruPlace(log: seq<string>, i: nat)
    requires i < |Mru(log)|
    ensures Mru(log)[i] in log
    ensures i == 0 ==> LastTouch(log, Mru(log)[i]) == |log| - 1
    ensures i > 0 ==> LastTouch(log, Mru(log)[i]) < |log| - 1
  {
    MruHolds(log);
    MruSplit(log);
    hide WithoutText;
    assert Mru(log)[i] in Mru(log);
    if i > 0 { var k := WithoutPlace(Mru(log[..|log| - 1]), log[|log| - 1], i - 1); }
  }

  /** A text is listed before another exactly when it was touched after it. */
  lemma {:induction false} MruOrder(log: seq<string>, i: nat, j: nat)
    requires i < j < |Mru(log)|
    ensures Mru(log)[i] in log && Mru(log)[j] in log
    ensures LastTouch(log, Mru(log)[i]) > LastTouch(log, Mru(log)[j])
  {
    hide *;
    MruPlace(log, i);
    MruPlace(log, j);
    if i > 0 {
      var n := |log| - 1;
      MruSplit(log);
      var k, l := WithoutPlaces(Mru(log[..n]), log[n], i - 1, j - 1);
      MruOrder(log[..n], k, l);
      EarlierTouch(log, Mru(log)[i]);
      EarlierTouch(log, Mru(log)[j]);
    }
  }

  lemma MruSplit(log: seq<string>)
    requires log != []
    ensures var n := |log| - 1; Mru(log) == [log[n]] + WithoutText(Mru(log[..n]), log[n])
  {
  }

  lemma EarlierTouch(log: seq<string>, x: string)
    requires log != [] && x in log[..|log| - 1] && x in log && LastTouch(log, x) < |log| - 1
    ensures LastTouch(log, x) == LastTouch(log[..|log| - 1], x)
  {
  }

  // ---------------------------------------------------------------- one prepend

  lemma {:induction false} OthersTexts(entries: seq<HistoryEntry>, text: string)
    ensures Texts(Others(entries, text)) == WithoutText(Texts(entries), text)
  {
    if entries != [] {
      var n := |entries| - 1;
      OthersTexts(entries[..n], text);
      assert Texts(entries)[..n] == Texts(entries[..n]);
      assert entries == entries[..n] + [entries[n]];
    }
  }

  lemma TakeTexts(entries: seq<HistoryEntry>, k: nat)
    ensures Texts(Take(entries, k)) == Take(Texts(entries), k)
  {
  }

  lemma PrependedTexts(hash: HashFn, entries: seq<HistoryEntry>, e: HistoryEntry, limit: nat, now: Clock)
    requires 1 <= limit
    ensures Texts(Prepended(hash, entries, e, limit, now)) ==
            [e.text] + Take(WithoutText(Texts(entries), e.text), if limit <= 2 then 1 else limit - 1)
  {
    hide NormalizeEntry, Others, Take, Texts, WithoutText;
    var cap := if limit <= 2 then 1 else limit - 1;
    OthersTexts(entries, e.text);
    TakeTexts(Others(entries, e.text), cap);
    TextsPrepend(NormalizeEntry(hash, e, now), Take(Others(entries, e.text), cap));
  }

  lemma {:induction false} WithoutPrefix(s: seq<string>, k: nat, x: string)
    requires k <= |s|
    ensures WithoutText(s[..k], x) <= WithoutText(s, x)
  {
    if k == |s| {
      assert s[..k] == s;
    } else {
      WithoutPrefix(s[..|s| - 1], k, x);
      assert s[..|s| - 1][..k] == s[..k];
    }
  }

  /** The texts of a truncated list: a prefix of the full one, cut no earlier than `low`. */
  ghost predicate Follows(texts: seq<string>, log: seq<string>, low: nat) {
    texts <= Mru(log) && (|texts| >= low || texts == Mru(log))
  }

  function Min(a: nat, b: nat): nat {
    if a < b then a else b
  }

  /** Truncating at every step loses nothing that is visible under the smallest limit so far. */
  lemma PrependFollows(texts: seq<string>, log: seq<string>, low: nat, limit: nat, x: string)
    requires Follows(texts, log, low) && 1 <= limit
    ensures Follows([x] + Take(WithoutText(texts, x), if limit <= 2 then 1 else limit - 1), log + [x], Min(low, limit))
  {
    var all, cap := Mru(log), if limit <= 2 then 1 else limit - 1;
    assert (log + [x])[..|log|] == log;
    MruHolds(log);
    assert texts == all[..|texts|];
    WithoutPrefix(all, |texts|, x);
    WithoutTextHolds(all, x);
    WithoutTextHolds(texts, x);
    var next := [x] + Take(WithoutText(texts, x), cap);
    assert next <= Mru(log + [x]);
    if |WithoutText(texts, x)| <= cap && texts == all {
      assert next == Mru(log + [x]);
    }
  }
}
