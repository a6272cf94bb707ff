/** The history list the Dart UI keeps for itself, and its agreement with the Go store. */
module DartHistory {
  import opened Options
  import opened Text
  import opened Config
  import ConfigStore
  import Dedupe
  import Json
  import H = History
  import L = HistoryLaws

  datatype ActivityKind = Published | Applied | Pending | Error | Ignored

  function ParseActivityKind(name: string): ActivityKind {
    if name == "published" then Published
    else if name == "applied" then Applied
    else if name == "pending" then Pending
    else if name == "error" then Error
    else Ignored
  }

  datatype ClipboardHistoryEntry = ClipboardHistoryEntry(
    id: string, kind: ActivityKind, text: string, topic: string, deviceLabel: string, byteSize: int,
    hashPrefix: string, timestampMS: int)

  /** What the UI made of an activity; the title and the detail play no part in the history. */
  datatype ClipboardActivity = ClipboardActivity(
    id: string, kind: ActivityKind, topic: string, deviceLabel: string, byteSize: int, hashPrefix: string,
    timestampMS: int)

  /** `historyLimit` has passed `validateHistoryLimit`, so it is positive wherever the UI lets it in. */
  datatype Settings = Settings(keepsBodies: bool, historyLimit: nat)

  function Texts(entries: seq<ClipboardHistoryEntry>): (texts: seq<string>)
    ensures |texts| == |entries| && forall i :: 0 <= i < |texts| ==> texts[i] == entries[i].text
  {
    seq(|entries|, i requires 0 <= i < |entries| => entries[i].text)
  }

  function Others(entries: seq<ClipboardHistoryEntry>, text: string): seq<ClipboardHistoryEntry> {
    if entries == [] then []
    else
      var n := |entries| - 1;
      Others(entries[..n], text) + if entries[n].text == text then [] else [entries[n]]
  }

  function TrimClipboardHistory(history: seq<ClipboardHistoryEntry>, s: Settings): seq<ClipboardHistoryEntry> {
    if !s.keepsBodies then [] else H.Take(history, s.historyLimit)
  }

  function AppendClipboardHistory(history: seq<ClipboardHistoryEntry>, s: Settings,
                                  activity: ClipboardActivity, text: string): seq<ClipboardHistoryEntry> {
    if !s.keepsBodies then history
    else if text == "" || activity.kind.Ignored? || activity.kind.Pending? || activity.kind.Error? then history
    else
      var entry := ClipboardHistoryEntry(
        activity.id, activity.kind, text, activity.topic, activity.deviceLabel, activity.byteSize, activity.hashPrefix,
        activity.timestampMS);
      H.Take([entry] + Others(history, text), s.historyLimit)
  }

  function PromoteClipboardHistoryEntry(history: seq<ClipboardHistoryEntry>, s: Settings, e: ClipboardHistoryEntry,
                                        now: H.Clock): seq<ClipboardHistoryEntry> {
    if !s.keepsBodies then history
    else H.Take([e.(id := H.RestoreID(now), timestampMS := now.millis)] + Others(history, e.text), s.historyLimit)
  }

  // ---------------------------------------------------------------- parsing what the Go side sends

  /** One element of the JSON list: None stands for a missing or null field. */
  datatype Item =
    | NotAMap
    | Item(id: Option<string>, kind: Option<string>, text: Option<string>, topic: Option<string>,
           deviceLabel: Option<string>, byteSize: Option<int>, hashPrefix: Option<string>, timestampMS: Option<int>)

  function TextOf(item: Item): string {
    if item.Item? then item.text.GetOr("") else ""
  }

  function FromItem(item: Item, now: H.Clock): ClipboardHistoryEntry {
    if item.NotAMap? then ClipboardHistoryEntry("", Ignored, "", "", "", 0, "", 0)
    else
      ClipboardHistoryEntry(
        item.id.GetOr("history-" + Json.FormatInt(now.micros)), ParseActivityKind(item.kind.GetOr("published")),
        item.text.GetOr(""), item.topic.GetOr(""), item.deviceLabel.GetOr(""),
        item.byteSize.GetOr(Utf8Len(item.text.GetOr(""))), item.hashPrefix.GetOr(""),
        if item.timestampMS.GetOr(0) <= 0 then now.millis else item.timestampMS.GetOr(0))
  }

  /** The items that are taken: maps, the first of each non-empty text, as long as there is room. */
  function Kept(items: seq<Item>, limit: nat, now: H.Clock): seq<ClipboardHistoryEntry> {
    if items == [] then []
    else
      var n := |items| - 1;
      var kept := Kept(items[..n], limit, now);
      if |kept| >= limit && kept != [] then kept
      else if TextOf(items[n]) == "" || TextOf(items[n]) in Texts(kept) then kept
      else kept + [FromItem(items[n], now)]
  }

  method ParseClipboardHistoryEntries(items: seq<Item>, s: Settings,
                                      now: H.Clock) returns (entries: seq<ClipboardHistoryEntry>)
    ensures entries == if s.keepsBodies then Kept(items, s.historyLimit, now) else []
  {
    hide FromItem, Kept, Texts;
    if !s.keepsBodies {
      return [];
    }
    var seenTexts: set<string> := {};
    entries := [];
    var i := 0;
    KeptNone(items, s.historyLimit, now);
    while i < |items|
      invariant 0 <= i <= |items|
      invariant entries == Kept(items[..i], s.historyLimit, now)
      invariant entries == [] || |entries| < s.historyLimit
      invariant forall t :: t in seenTexts <==> t in Texts(entries)
    {
      KeptStep(items, i, s.historyLimit, now);
      TextsAppend(entries, FromItem(items[i], now));
      FromItemText(items[i], now);
      var text := TextOf(items[i]);
      i := i + 1;
      if text == "" || text in seenTexts {
        continue;
      }
      seenTexts := seenTexts + {text};
      entries := entries + [FromItem(items[i - 1], now)];
      if |entries| >= s.historyLimit {
        KeptFull(items, i, s.historyLimit, now);
        return;
      }
    }
    assert items[..|items|] == items;
  }

  lemma TextsAppend(entries: seq<ClipboardHistoryEntry>, e: ClipboardHistoryEntry)
    ensures Texts(entries + [e]) == Texts(entries) + [e.text]
  {
  }

  lemma FromItemText(item: Item, now: H.Clock)
    ensures FromItem(item, now).text == TextOf(item)
  {
  }

  lemma KeptNone(items: seq<Item>, limit: nat, now: H.Clock)
    ensures Kept(items[..0], limit, now) == [] && Texts([]) == []
  {
  }

  lemma KeptStep(items: seq<Item>, i: nat, limit: nat, now: H.Clock)
    requires i < |items|
    ensures var kept := Kept(items[..i], limit, now);
            Kept(items[..i + 1], limit, now) ==
            if |kept| >= limit && kept != [] then kept
            else if TextOf(items[i]) == "" || TextOf(items[i]) in Texts(kept) then kept
            else kept + [FromItem(items[i], now)]
  {
    assert items[..i + 1][..i] == items[..i];
  }

  /** Once the list is full the rest is not looked at. */
  lemma {:induction false} KeptFull(items: seq<Item>, i: nat, limit: nat, now: H.Clock)
    requires i <= |items| && |Kept(items[..i], limit, now)| >= limit && Kept(items[..i], limit, now) != []
    ensures Kept(items, limit, now) == Kept(items[..i], limit, now)
  {
    hide FromItem;
    if i == |items| {
      assert items[..i] == items;
    } else {
      var n := |items| - 1;
      assert items[..n][..i] == items[..i];
      KeptFull(items[..n], i, limit, now);
    }
  }

  // ---------------------------------------------------------------- what the Go side sends

  function ToItem(e: H.HistoryEntry): Item {
    Item(Some(e.id), Some(e.kind), Some(e.text), ConfigStore.OmitEmpty(e.topic), ConfigStore.OmitEmpty(e.deviceLabel),
         Some(e.byteSize), ConfigStore.OmitEmpty(e.hashPrefix), Some(e.timestampMS))
  }

  function ToItems(entries: seq<H.HistoryEntry>): (items: seq<Item>)
    ensures |items| == |entries| && forall i :: 0 <= i < |items| ==> items[i] == ToItem(entries[i])
  {
    seq(|entries|, i requires 0 <= i < |entries| => ToItem(entries[i]))
  }

  lemma {:induction false} KeptAll(entries: seq<H.HistoryEntry>, limit: nat, now: H.Clock)
    requires Dedupe.Distinct(H.Texts(entries)) && "" !in H.Texts(entries) && |entries| <= limit
    ensures Texts(Kept(ToItems(entries), limit, now)) == H.Texts(entries)
    ensures |Kept(ToItems(entries), limit, now)| == |entries|
    ensures forall i :: 0 <= i < |entries| ==>
              Kept(ToItems(entries), limit, now)[i] == FromItem(ToItem(entries[i]), now)
  {
    hide FromItem;
    if entries != [] {
      var n := |entries| - 1;
      var texts := H.Texts(entries);
      assert texts == H.Texts(entries[..n]) + [entries[n].text];
      assert texts[n] == entries[n].text;
      assert Dedupe.Distinct(texts[..n]) && texts[n] !in texts[..n] by { H.LastIsNew(texts); }
      assert texts[..n] == H.Texts(entries[..n]);
      KeptAll(entries[..n], limit, now);
      assert ToItems(entries)[..n] == ToItems(entries[..n]);
      FromItemText(ToItem(entries[n]), now);
    }
  }

  /** The UI shows exactly the texts the store makes visible, in that order. */
  lemma ParseShowsView(hash: HashFn, ops: seq<L.Op>, cfg: Config, now: H.Clock)
    requires cfg.historyRetention == RETENTION_BODY
    ensures var view := H.Visible(L.RunAll(hash, L.EMPTY_RUN, ops).st.entries, cfg);
            Texts(Kept(ToItems(view), H.LimitFor(cfg), now)) == H.Texts(view)
  {
    hide L.RunAll, H.Texts, Kept, Texts, H.Follows;
    L.EmptyOk();
    L.RunAllOk(hash, L.EMPTY_RUN, ops);
    var r := L.RunAll(hash, L.EMPTY_RUN, ops);
    L.FollowsMeans(H.Texts(r.st.entries), r.now.log, r.now.low);
    H.TakeTexts(r.st.entries, H.LimitFor(cfg));
    TakeDistinct(H.Texts(r.st.entries), H.LimitFor(cfg));
    KeptAll(H.Visible(r.st.entries, cfg), H.LimitFor(cfg), now);
  }

  lemma TakeDistinct(s: seq<string>, k: nat)
    requires Dedupe.Distinct(s)
    ensures Dedupe.Distinct(H.Take(s, k)) && |H.Take(s, k)| <= k && forall x :: x in H.Take(s, k) ==> x in s
  {
  }

  // ---------------------------------------------------------------- both sides, step by step

  /** An activity as the UI reads it: without a label it is this device's, without a time it is now. */
  function ReadActivity(a: H.Activity, displayName: string, now: H.Clock): ClipboardActivity {
    ClipboardActivity(a.id, ParseActivityKind(a.kind), a.topic,
                      if a.deviceLabel == "" then displayName else a.deviceLabel, a.byteSize, a.hashPrefix,
                      if a.timestampMS <= 0 then now.millis else a.timestampMS)
  }

  /** The UI's own entry behind the one it asks the store to restore. */
  function FromGo(e: H.HistoryEntry): ClipboardHistoryEntry {
    ClipboardHistoryEntry(e.id, ParseActivityKind(e.kind), e.text, e.topic, e.deviceLabel, e.byteSize, e.hashPrefix,
        e.timestampMS)
  }

  function SettingsOf(cfg: Config): Settings
    requires Normalized(cfg).Some?
  {
    Settings(L.KeepsBodies(cfg), L.LimitOf(cfg))
  }

  /**
   What the UI does to its own list when the store performs an operation, `cfg` being in force. It cuts
   its list to new settings before the store has answered. A store that is opened again sends its view
   first, and the UI parses it.
   */
  function StepList(history: seq<ClipboardHistoryEntry>, cfg: Config, op: L.Op, view: seq<H.HistoryEntry>)
    : seq<ClipboardHistoryEntry>
    requires Normalized(cfg).Some?
  {
    match op
    case AppendOp(a, _, now, _) =>
      AppendClipboardHistory(history, SettingsOf(cfg), ReadActivity(a, Normalized(cfg).value.displayName, now), a.text)
    case PromoteOp(e, _, now, _, _) => PromoteClipboardHistoryEntry(history, SettingsOf(cfg), FromGo(e), now)
    case ApplyOp(c, _) => if Normalized(c).None? then history else TrimClipboardHistory(history, SettingsOf(c))
    case ClearOp(_) => []
    case ReopenOp(now) => if L.KeepsBodies(cfg) then Kept(ToItems(view), L.LimitOf(cfg), now) else []
  }

  /** The configuration after an operation: new settings come into force unless the store reports an error. */
  function NextConfig(hash: HashFn, cfg: Config, st: H.Stored, op: L.Op): (c: Config)
    requires Normalized(cfg).Some?
    ensures Normalized(c).Some?
  {
    if op.ApplyOp? && !L.StepStore(hash, st, op).1.Failed? then op.cfg else cfg
  }

  /** The configuration in force after the operations, starting from cfg. */
  function InForce(hash: HashFn, cfg: Config, ops: seq<L.Op>): (c: Config)
    requires Normalized(cfg).Some?
    ensures Normalized(c).Some?
  {
    if ops == [] then cfg
    else
      var before, op := ops[..|ops| - 1], ops[|ops| - 1];
      var st := L.RunAll(hash, L.EMPTY_RUN, before).st;
      NextConfig(hash, InForce(hash, cfg, before), st, op)
  }

  /** What a store makes visible under a configuration. */
  function ViewOf(st: H.Stored, cfg: Config): seq<H.HistoryEntry>
    requires Normalized(cfg).Some?
  {
    H.Visible(st.entries, Normalized(cfg).value)
  }

  /** What the store makes visible after the operations. */
  function Shown(hash: HashFn, cfg: Config, ops: seq<L.Op>): seq<H.HistoryEntry>
    requires Normalized(cfg).Some?
  {
    ViewOf(L.RunAll(hash, L.EMPTY_RUN, ops).st, InForce(hash, cfg, ops))
  }

  /** The list of the UI after the operations. */
  function ListAll(hash: HashFn, cfg: Config, ops: seq<L.Op>): seq<ClipboardHistoryEntry>
    requires Normalized(cfg).Some?
  {
    if ops == [] then []
    else
      var before := ops[..|ops| - 1];
      StepList(ListAll(hash, cfg, before), InForce(hash, cfg, before), ops[|ops| - 1], Shown(hash, cfg, ops))
  }

  /** Both sides show the same texts. */
  ghost predicate Agree(hash: HashFn, cfg: Config, ops: seq<L.Op>)
    requires Normalized(cfg).Some?
  {
    Texts(ListAll(hash, cfg, ops)) == H.Texts(Shown(hash, cfg, ops))
  }

  lemma {:induction false} OthersTexts(entries: seq<ClipboardHistoryEntry>, text: string)
    ensures Texts(Others(entries, text)) == H.WithoutText(Texts(entries), text)
  {
    if entries != [] {
      var n := |entries| - 1;
      OthersTexts(entries[..n], text);
      assert Texts(entries)[..n] == Texts(entries[..n]);
      assert entries == entries[..n] + [entries[n]];
    }
  }

  lemma TakeListTexts(entries: seq<ClipboardHistoryEntry>, k: nat)
    ensures Texts(H.Take(entries, k)) == H.Take(Texts(entries), k)
  {
  }

  lemma KindsAgree(kind: string)
    ensures var k := ParseActivityKind(kind);
            H.CanPersist(kind) <==> !(k.Ignored? || k.Pending? || k.Error?)
  {
    assert "pending"[0] == 'p' && "pending"[1] == 'e' && "error"[0] == 'e';
    assert H.PUBLISHED[1] == 'u' && H.APPLIED[0] == 'a';
  }

  /** Restoring an entry keeps two equal lists equal exactly when its text is not empty. */
  lemma PromoteAgreesExactly(hash: HashFn, history: seq<ClipboardHistoryEntry>, st: H.Stored, e: H.HistoryEntry,
                             cfg: Config,
                             now: H.Clock, later: H.Clock, saves: bool)
    requires L.KeepsBodies(cfg) && Dedupe.Distinct(H.Texts(st.entries)) && "" !in H.Texts(st.entries)
    requires Texts(history) == H.Take(H.Texts(st.entries), L.LimitOf(cfg))
    ensures var shown := H.Visible(H.Promoted(hash, st, e, cfg, now, later, saves).0.entries, Normalized(cfg).value);
            Texts(PromoteClipboardHistoryEntry(history, SettingsOf(cfg), FromGo(e), now)) ==
                H.Texts(shown)
            <==> e.text != ""
  {
    hide Normalized, Texts, H.Texts, H.Prepended, ParseActivityKind, H.Others, Others;
    var limit := L.LimitOf(cfg);
    var restored := FromGo(e).(id := H.RestoreID(now), timestampMS := now.millis);
    var after := H.Promoted(hash, st, e, cfg, now, later, saves).0;
    OthersTexts(history, e.text);
    HeadTexts(restored, Others(history, e.text), limit);
    H.TakeTexts(after.entries, limit);
    if e.text != "" {
      var go := e.(id := H.RestoreID(now), timestampMS := now.millis);
      H.PrependedTexts(hash, st.entries, go, limit, later);
      CutTwice(H.Texts(st.entries), e.text, limit);
    }
  }

  lemma HeadTexts(e: ClipboardHistoryEntry, rest: seq<ClipboardHistoryEntry>, limit: nat)
    requires 1 <= limit
    ensures Texts(H.Take([e] + rest, limit)) == H.Take([e.text] + Texts(rest), limit)
    ensures e.text in Texts(H.Take([e] + rest, limit))
  {
    TakeListTexts([e] + rest, limit);
    assert Texts([e] + rest) == [e.text] + Texts(rest);
    assert Texts(H.Take([e] + rest, limit))[0] == e.text;
  }

  lemma CutTwice(texts: seq<string>, x: string, limit: nat)
    requires 1 <= limit && Dedupe.Distinct(texts)
    ensures H.Take([x] + H.WithoutText(H.Take(texts, limit), x), limit) ==
            H.Take([x] + H.Take(H.WithoutText(texts, x), if limit <= 2 then 1 else limit - 1), limit)
  {
    var cut := H.Take(texts, limit);
    TakeDistinct(texts, limit);
    assert cut == texts[..|cut|];
    H.WithoutPrefix(texts, |cut|, x);
    H.WithoutTextHolds(cut, x);
    var short, long := H.WithoutText(cut, x), H.WithoutText(texts, x);
    assert short == long[..|short|];
  }

  // ---------------------------------------------------------------- when an operation parts them

  /** How many entries can be shown at most. */
  function Room(cfg: Config): nat
    requires Normalized(cfg).Some?
  {
    if L.KeepsBodies(cfg) then L.LimitOf(cfg) else 0
  }

  /**
   The operation parts two lists that agree: it restores an empty text, or new settings come into force
   that bring back into view a stored entry that the old ones hid.
   */
  predicate Parts(hash: HashFn, cfg: Config, st: H.Stored, op: L.Op)
    requires Normalized(cfg).Some?
  {
    || (op.PromoteOp? && L.KeepsBodies(cfg) && op.entry.text == "")
    || (op.ApplyOp? && Normalized(op.cfg).Some? && !L.StepStore(hash, st, op).1.Failed?
        && H.Min(|st.entries|, Room(cfg)) < H.Min(|st.entries|, Room(op.cfg)))
  }

  /** Entries and restores are handled under the configuration in force. */
  predicate Follows(op: L.Op, cfg: Config) {
    op.AppendOp? || op.PromoteOp? ==> op.cfg == cfg
  }

  /** A memory as every run leaves it. */
  ghost predicate Sound(st: H.Stored) {
    Dedupe.Distinct(H.Texts(st.entries)) && "" !in H.Texts(st.entries)
  }

  lemma ViewTexts(st: H.Stored, cfg: Config)
    requires Normalized(cfg).Some?
    ensures H.Texts(ViewOf(st, cfg)) == H.Take(H.Texts(st.entries), Room(cfg))
  {
    hide Normalized, H.Texts;
    H.TakeTexts(st.entries, Room(cfg));
    NoTexts(st.entries);
  }

  lemma NoTexts(entries: seq<H.HistoryEntry>)
    ensures H.Texts([]) == [] && H.Take(H.Texts(entries), 0) == [] && Texts([]) == []
  {
  }

  lemma AppendAgrees(hash: HashFn, history: seq<ClipboardHistoryEntry>, st: H.Stored, a: H.Activity, cfg: Config,
                     now: H.Clock, saves: bool)
    requires Normalized(cfg).Some? && Sound(st) && Texts(history) == H.Texts(ViewOf(st, cfg))
    ensures Texts(AppendClipboardHistory(history, SettingsOf(cfg),
                                         ReadActivity(a, Normalized(cfg).value.displayName, now), a.text)) ==
            H.Texts(ViewOf(H.Appended(hash, st, a, cfg, now, saves).0, cfg))
  {
    hide Normalized, Texts, H.Texts, H.Prepended, ParseActivityKind, H.Others, Others, H.CanPersist;
    KindsAgree(a.kind);
    if L.KeepsBodies(cfg) && a.text != "" && H.CanPersist(a.kind) {
      var limit, go := L.LimitOf(cfg), H.FromActivity(a);
      var after := H.Appended(hash, st, a, cfg, now, saves).0;
      ViewTexts(st, cfg);
      ViewTexts(after, cfg);
      OthersTexts(history, a.text);
      var read := ReadActivity(a, Normalized(cfg).value.displayName, now);
      HeadTexts(ClipboardHistoryEntry(read.id, read.kind, a.text, read.topic, read.deviceLabel, read.byteSize,
                                      read.hashPrefix, read.timestampMS), Others(history, a.text), limit);
      H.PrependedTexts(hash, st.entries, go, limit, now);
      CutTwice(H.Texts(st.entries), a.text, limit);
    }
  }

  /** Settings cut the memory to what they leave room for, saved or not. */
  lemma AppliedTexts(st: H.Stored, next: Config, saves: bool)
    requires Normalized(next).Some?
    ensures H.Texts(H.Applied(st, next, saves).0.entries) == H.Take(H.Texts(st.entries), Room(next))
  {
    hide Normalized, H.Texts;
    H.TakeTexts(st.entries, L.LimitOf(next));
    NoTexts(st.entries);
  }

  lemma TrimTexts(history: seq<ClipboardHistoryEntry>, next: Config)
    requires Normalized(next).Some?
    ensures Texts(TrimClipboardHistory(history, SettingsOf(next))) == H.Take(Texts(history), Room(next))
  {
    hide Normalized, Texts;
    TakeListTexts(history, L.LimitOf(next));
    NoListTexts(history);
  }

  lemma NoListTexts(history: seq<ClipboardHistoryEntry>)
    ensures Texts([]) == [] && H.Take(Texts(history), 0) == []
  {
  }

  lemma RefusedSettings(hash: HashFn, history: seq<ClipboardHistoryEntry>, st: H.Stored, cfg: Config, next: Config,
                        saves: bool, view: seq<H.HistoryEntry>)
    requires Normalized(cfg).Some? && Normalized(next).None?
    ensures var op := L.ApplyOp(next, saves);
            && L.StepStore(hash, st, op) == (st, H.Failed) && NextConfig(hash, cfg, st, op) == cfg
            && StepList(history, cfg, op, view) == history && !Parts(hash, cfg, st, op)
  {
    hide Normalized;
  }

  lemma ApplyAgreesExactly(hash: HashFn, history: seq<ClipboardHistoryEntry>, st: H.Stored, cfg: Config, next: Config,
                           saves: bool)
    requires Normalized(cfg).Some? && Texts(history) == H.Texts(ViewOf(st, cfg))
    ensures var op := L.ApplyOp(next, saves);
            var after := L.StepStore(hash, st, op).0;
            Texts(StepList(history, cfg, op, ViewOf(after, NextConfig(hash, cfg, st, op)))) ==
                H.Texts(ViewOf(after, NextConfig(hash, cfg, st, op)))
            <==> !Parts(hash, cfg, st, op)
  {
    hide Normalized, Texts, H.Texts, ViewOf, H.Applied, Room, TrimClipboardHistory, H.Min, H.Take;
    var op := L.ApplyOp(next, saves);
    var after := L.StepStore(hash, st, op).0;
    if Normalized(next).None? {
      RefusedSettings(hash, history, st, cfg, next, saves, ViewOf(after, NextConfig(hash, cfg, st, op)));
    } else {
      ViewTexts(st, cfg);
      ViewTexts(after, NextConfig(hash, cfg, st, op));
      AppliedTexts(st, next, saves);
      TrimTexts(history, next);
      TakeTwice(H.Texts(st.entries), Room(cfg), Room(next));
    }
  }

  /** Cutting a list twice is cutting it once; a cut list is shorter exactly when it differs. */
  lemma TakeTwice(s: seq<string>, a: nat, b: nat)
    ensures H.Take(H.Take(s, a), b) == H.Take(s, H.Min(a, b)) == H.Take(H.Take(s, b), a)
    ensures H.Take(H.Take(s, b), b) == H.Take(s, b)
    ensures H.Take(s, H.Min(a, b)) == H.Take(s, b) <==> !(H.Min(|s|, a) < H.Min(|s|, b))
  {
    assert |H.Take(s, H.Min(a, b))| == H.Min(|s|, H.Min(a, b)) && |H.Take(s, b)| == H.Min(|s|, b);
  }

  lemma PromoteStepAgrees(hash: HashFn, history: seq<ClipboardHistoryEntry>, st: H.Stored, cfg: Config, op: L.Op,
                          view: seq<H.HistoryEntry>)
    requires Normalized(cfg).Some? && Sound(st) && Texts(history) == H.Texts(ViewOf(st, cfg))
    requires op.PromoteOp? && op.cfg == cfg
    ensures Texts(StepList(history, cfg, op, view)) == H.Texts(ViewOf(L.StepStore(hash, st, op).0, cfg)) <==>
            !Parts(hash, cfg, st, op)
  {
    hide Normalized, Texts, H.Texts, H.Prepended, Others, ParseActivityKind;
    if L.KeepsBodies(cfg) {
      ViewTexts(st, cfg);
      PromoteAgreesExactly(hash, history, st, op.entry, cfg, op.now, op.later, op.saves);
    }
  }

  lemma SoundRun(hash: HashFn, ops: seq<L.Op>)
    ensures Sound(L.RunAll(hash, L.EMPTY_RUN, ops).st)
  {
    hide L.RunAll, H.Texts, H.Follows;
    L.EmptyOk();
    L.RunAllOk(hash, L.EMPTY_RUN, ops);
    var r := L.RunAll(hash, L.EMPTY_RUN, ops);
    L.FollowsMeans(H.Texts(r.st.entries), r.now.log, r.now.low);
  }

  /** Whatever happened before, a list that the UI parses from what the store sends shows what the store shows. */
  lemma RefreshAgrees(hash: HashFn, cfg: Config, ops: seq<L.Op>, history: seq<ClipboardHistoryEntry>, now: H.Clock)
    requires Normalized(cfg).Some?
    ensures Texts(StepList(history, InForce(hash, cfg, ops), L.ReopenOp(now), Shown(hash, cfg, ops))) ==
            H.Texts(Shown(hash, cfg, ops))
  {
    hide Normalized, Texts, H.Texts, L.RunAll, Kept, ToItems, InForce;
    var c := InForce(hash, cfg, ops);
    if L.KeepsBodies(c) {
      ParseShowsView(hash, ops, Normalized(c).value, now);
    } else {
      NoTexts([]);
    }
  }

  lemma RunStep(hash: HashFn, ops: seq<L.Op>)
    requires ops != []
    ensures L.RunAll(hash, L.EMPTY_RUN, ops).st ==
            L.StepStore(hash, L.RunAll(hash, L.EMPTY_RUN, ops[..|ops| - 1]).st, ops[|ops| - 1]).0
  {
    hide L.StepStore;
  }

  /** One more operation keeps an agreement exactly when it does not part the two. */
  lemma StepAgrees(hash: HashFn, cfg: Config, ops: seq<L.Op>)
    requires Normalized(cfg).Some? && ops != []
    requires Agree(hash, cfg, ops[..|ops| - 1]) && Follows(ops[|ops| - 1], InForce(hash, cfg, ops[..|ops| - 1]))
    ensures Agree(hash, cfg, ops) <==>
            !Parts(hash, InForce(hash, cfg, ops[..|ops| - 1]), L.RunAll(hash, L.EMPTY_RUN, ops[..|ops| - 1]).st,
                   ops[|ops| - 1])
  {
    hide L.RunAll, Normalized, Texts, H.Texts, H.Appended, H.Promoted, H.Applied, AppendClipboardHistory,
         PromoteClipboardHistoryEntry, TrimClipboardHistory, ViewOf, Kept, Sound;
    var before, op := ops[..|ops| - 1], ops[|ops| - 1];
    var history, c := ListAll(hash, cfg, before), InForce(hash, cfg, before);
    var st := L.RunAll(hash, L.EMPTY_RUN, before).st;
    RunStep(hash, ops);
    SoundRun(hash, before);
    match op
    case AppendOp(a, _, now, saves) => AppendAgrees(hash, history, st, a, c, now, saves);
    case PromoteOp(_, _, _, _, _) => PromoteStepAgrees(hash, history, st, c, op, Shown(hash, cfg, ops));
    case ApplyOp(next, saves) => ApplyAgreesExactly(hash, history, st, c, next, saves);
    case ClearOp(saves) => ClearAgrees(st, c, saves);
    case ReopenOp(now) => RefreshAgrees(hash, cfg, ops, history, now);
  }

  lemma ClearAgrees(st: H.Stored, cfg: Config, saves: bool)
    requires Normalized(cfg).Some?
    ensures Texts([]) == H.Texts(ViewOf(H.Cleared(st, saves).0, cfg))
  {
    hide Normalized;
  }

  // ---------------------------------------------------------------- over whole runs

  /** The operations follow the configuration in force, starting from cfg. */
  ghost predicate AllFollow(hash: HashFn, cfg: Config, ops: seq<L.Op>)
    requires Normalized(cfg).Some?
  {
    forall k :: 0 <= k < |ops| ==> Follows(ops[k], InForce(hash, cfg, ops[..k]))
  }

  /** The two show the same texts after every one of the operations. */
  ghost predicate AlwaysAgree(hash: HashFn, cfg: Config, ops: seq<L.Op>)
    requires Normalized(cfg).Some?
  {
    forall k :: 0 <= k <= |ops| ==> Agree(hash, cfg, ops[..k])
  }

  /** Operation k parts the two, if they agreed so far. */
  ghost predicate PartsAt(hash: HashFn, cfg: Config, ops: seq<L.Op>, k: nat)
    requires Normalized(cfg).Some? && k < |ops|
  {
    Parts(hash, InForce(hash, cfg, ops[..k]), L.RunAll(hash, L.EMPTY_RUN, ops[..k]).st, ops[k])
  }

  /**
   Over every run, however the settings change: the two always agree if and only if no operation restores
   an empty text and no new settings bring a hidden entry back into view.
   */
  lemma {:induction false} AgreeExactly(hash: HashFn, cfg: Config, ops: seq<L.Op>)
    requires Normalized(cfg).Some? && AllFollow(hash, cfg, ops)
    ensures AlwaysAgree(hash, cfg, ops) <==> forall k :: 0 <= k < |ops| ==> !PartsAt(hash, cfg, ops, k)
  {
    hide InForce, Agree, Normalized, Follows, Parts, L.RunAll;
    if ops == [] {
      NothingAgrees(hash, cfg);
    } else {
      var before := ops[..|ops| - 1];
      assert forall k :: 0 <= k < |ops| ==> before[..k] == ops[..k];
      assert ops[..|ops|] == ops && before[..|before|] == before;
      AgreeExactly(hash, cfg, before);
      assert AlwaysAgree(hash, cfg, ops) <==> AlwaysAgree(hash, cfg, before) && Agree(hash, cfg, ops);
      if AlwaysAgree(hash, cfg, before) {
        assert Agree(hash, cfg, before[..|before|]);
        StepAgrees(hash, cfg, ops);
        assert PartsAt(hash, cfg, ops, |before|) <==> !Agree(hash, cfg, ops);
        assert forall k :: 0 <= k < |before| ==> (PartsAt(hash, cfg, ops, k) <==> PartsAt(hash, cfg, before, k));
      } else {
        var k :| 0 <= k < |before| && PartsAt(hash, cfg, before, k);
        assert PartsAt(hash, cfg, ops, k);
      }
    }
  }

  lemma NothingAgrees(hash: HashFn, cfg: Config)
    requires Normalized(cfg).Some?
    ensures forall none: seq<L.Op> :: none == [] ==> Agree(hash, cfg, none)
  {
    hide Normalized;
  }

  // ---------------------------------------------------------------- one configuration throughout

  lemma UsesItsConfig(op: L.Op, cfg: Config)
    requires L.Uses(op, cfg)
    ensures op.AppendOp? || op.PromoteOp? || op.ApplyOp? ==> op.cfg == cfg
  {
  }

  lemma {:induction false} OneConfigInForce(hash: HashFn, cfg: Config, ops: seq<L.Op>)
    requires Normalized(cfg).Some? && forall k :: 0 <= k < |ops| ==> L.Uses(ops[k], cfg)
    ensures InForce(hash, cfg, ops) == cfg
  {
    hide Normalized, L.Uses, L.StepStore, L.RunAll;
    if ops != [] {
      OneConfigInForce(hash, cfg, ops[..|ops| - 1]);
      UsesItsConfig(ops[|ops| - 1], cfg);
    }
  }

  /** Settings that do not change bring nothing back. */
  lemma OneConfigParts(hash: HashFn, cfg: Config, st: H.Stored, op: L.Op)
    requires L.KeepsBodies(cfg) && L.Uses(op, cfg)
    ensures Parts(hash, cfg, st, op) <==> op.PromoteOp? && op.entry.text == ""
  {
    hide Normalized, L.StepStore;
  }

  /** Over whole runs of one configuration: they always agree if and only if no empty text is ever restored. */
  lemma OneConfigAgreesExactly(hash: HashFn, cfg: Config, ops: seq<L.Op>)
    requires L.KeepsBodies(cfg) && forall k :: 0 <= k < |ops| ==> L.Uses(ops[k], cfg)
    ensures AlwaysAgree(hash, cfg, ops) <==> forall k :: 0 <= k < |ops| && ops[k].PromoteOp? ==> ops[k].entry.text != ""
  {
    hide InForce, Agree, AlwaysAgree, Normalized, Parts, L.RunAll, L.Uses;
    forall k | 0 <= k < |ops|
      ensures Follows(ops[k], InForce(hash, cfg, ops[..k]))
      ensures PartsAt(hash, cfg, ops, k) <==> ops[k].PromoteOp? && ops[k].entry.text == ""
    {
      OneConfigInForce(hash, cfg, ops[..k]);
      UsesItsConfig(ops[k], cfg);
      OneConfigParts(hash, cfg, L.RunAll(hash, L.EMPTY_RUN, ops[..k]).st, ops[k]);
    }
    AgreeExactly(hash, cfg, ops);
  }

  /** The operations of one configuration; the UI does not ask for an empty text to be restored. */
  predicate Agreeable(op: L.Op, cfg: Config) {
    L.Uses(op, cfg) && (op.PromoteOp? ==> op.entry.text != "")
  }

  /**
   The two lists do not part: after any operations in which no empty text is restored, the UI's own list
   and the store show the same texts.
   */
  lemma GoAndDartAgree(hash: HashFn, ops: seq<L.Op>, cfg: Config)
    requires L.KeepsBodies(cfg)
    requires forall k :: 0 <= k < |ops| ==> Agreeable(ops[k], cfg)
    ensures Texts(ListAll(hash, cfg, ops)) == H.Texts(Shown(hash, cfg, ops))
  {
    hide ListAll, Shown, Normalized, Texts, H.Texts, L.Uses, L.RunAll, InForce;
    forall k | 0 <= k < |ops| ensures L.Uses(ops[k], cfg) && (ops[k].PromoteOp? ==> ops[k].entry.text != "") {
      assert Agreeable(ops[k], cfg);
    }
    OneConfigAgreesExactly(hash, cfg, ops);
    assert Agree(hash, cfg, ops[..|ops|]);
    assert ops[..|ops|] == ops;
  }

  /** Then it is the most-recently-used view of the touched texts, cut at the limit. */
  lemma ListIsMru(hash: HashFn, ops: seq<L.Op>, cfg: Config)
    requires L.KeepsBodies(cfg)
    requires forall k :: 0 <= k < |ops| ==> Agreeable(ops[k], cfg)
    ensures Texts(ListAll(hash, cfg, ops)) == H.Take(H.Mru(L.RunAll(hash, L.EMPTY_RUN, ops).now.log), L.LimitOf(cfg))
  {
    hide ListAll, Normalized, Texts, H.Texts, L.Uses, L.RunAll, InForce, H.Visible, H.Mru;
    forall k | 0 <= k < |ops| ensures L.Uses(ops[k], cfg) {
      assert Agreeable(ops[k], cfg);
    }
    GoAndDartAgree(hash, ops, cfg);
    OneConfigInForce(hash, cfg, ops);
    L.FixedLimitIsMru(hash, ops, cfg);
  }

  // ---------------------------------------------------------------- a limit that is raised

  /** The default configuration with another limit. */
  function Limited(limit: nat): Config {
    DefaultConfig().(historyLimit := limit)
  }

  lemma LimitedIs(limit: nat)
    requires 1 <= limit <= MAX_HISTORY_LIMIT
    ensures L.KeepsBodies(Limited(limit)) && L.LimitOf(Limited(limit)) == limit
  {
    hide Normalized, NormalizedRoutes;
    ConfigStore.DefaultIsNormal();
    NormalizeFixedPoints(Limited(limit));
  }

  /** Two texts under limit 1, then limit 2. */
  function RaisedScript(a: H.Activity, b: H.Activity, now: H.Clock): seq<L.Op> {
    [L.AppendOp(a, Limited(1), now, true), L.AppendOp(b, Limited(1), now, true), L.ApplyOp(Limited(2), true)]
  }

  lemma AppendedTexts(hash: HashFn, st: H.Stored, a: H.Activity, cfg: Config, now: H.Clock)
    requires L.KeepsBodies(cfg) && L.LimitOf(cfg) == 1 && a.text != "" && H.CanPersist(a.kind)
    ensures H.Texts(H.Appended(hash, st, a, cfg, now, true).0.entries) ==
            [a.text] + H.Take(H.WithoutText(H.Texts(st.entries), a.text), 1)
  {
    hide Normalized, H.Texts, H.Prepended, H.CanPersist;
    H.PrependedTexts(hash, st.entries, H.FromActivity(a), 1, now);
  }

  /** The texts in memory after the operations. */
  function StoredTexts(hash: HashFn, ops: seq<L.Op>): seq<string> {
    H.Texts(L.RunAll(hash, L.EMPTY_RUN, ops).st.entries)
  }

  lemma AppendStep(hash: HashFn, before: seq<L.Op>, a: H.Activity, now: H.Clock)
    requires a.text != "" && H.CanPersist(a.kind)
    ensures StoredTexts(hash, before + [L.AppendOp(a, Limited(1), now, true)]) ==
            [a.text] + H.Take(H.WithoutText(StoredTexts(hash, before), a.text), 1)
  {
    hide Limited, L.RunAll, L.StepStore, H.Appended, H.CanPersist, H.Texts, H.Take, H.WithoutText, Normalized;
    LimitedIs(1);
    var ops := before + [L.AppendOp(a, Limited(1), now, true)];
    assert ops[..|ops| - 1] == before;
    RunStep(hash, ops);
    AppendIsAppended(hash, L.RunAll(hash, L.EMPTY_RUN, before).st, a, now);
    AppendedTexts(hash, L.RunAll(hash, L.EMPTY_RUN, before).st, a, Limited(1), now);
  }

  lemma AppendIsAppended(hash: HashFn, st: H.Stored, a: H.Activity, now: H.Clock)
    ensures L.StepStore(hash, st, L.AppendOp(a, Limited(1), now, true)) ==
              H.Appended(hash, st, a, Limited(1), now, true)
  {
    hide H.Appended, Limited;
  }

  lemma NothingStored(hash: HashFn)
    ensures StoredTexts(hash, []) == []
  {
  }

  lemma BehindOne(x: string, y: string)
    requires x != y
    ensures [y] + H.Take(H.WithoutText([], y), 1) == [y]
    ensures [y] + H.Take(H.WithoutText([x], y), 1) == [y, x]
  {
    assert [x][..0] == [];
    assert H.WithoutText([x], y) == H.WithoutText([], y) + [x];
  }

  /** Under limit 1 the store keeps the text before the last as well. */
  lemma TwoStored(hash: HashFn, a: H.Activity, b: H.Activity, now: H.Clock)
    requires a.text != "" && b.text != "" && a.text != b.text && H.CanPersist(a.kind) && H.CanPersist(b.kind)
    ensures StoredTexts(hash, RaisedScript(a, b, now)[..2]) == [b.text, a.text]
  {
    hide Limited, StoredTexts, H.CanPersist, H.Take, H.WithoutText;
    var ops := RaisedScript(a, b, now);
    NothingStored(hash);
    AppendStep(hash, [], a, now);
    AppendStep(hash, [] + [ops[0]], b, now);
    assert [] + [ops[0]] + [ops[1]] == ops[..2];
    BehindOne(b.text, a.text);
    BehindOne(a.text, b.text);
  }

  lemma RaisedList(hash: HashFn, before: seq<L.Op>)
    requires Normalized(Limited(1)).Some? && Normalized(Limited(2)).Some?
    ensures Texts(ListAll(hash, Limited(1), before + [L.ApplyOp(Limited(2), true)])) ==
            H.Take(Texts(ListAll(hash, Limited(1), before)), Room(Limited(2)))
  {
    hide Limited, L.RunAll, Texts, Normalized, Room, Shown, StepList, TrimClipboardHistory, InForce, H.Take;
    var ops := before + [L.ApplyOp(Limited(2), true)];
    assert ops[..|ops| - 1] == before;
    ApplyIsTrim(ListAll(hash, Limited(1), before), InForce(hash, Limited(1), before), Limited(2),
                Shown(hash, Limited(1), ops));
    TrimTexts(ListAll(hash, Limited(1), before), Limited(2));
  }

  lemma ApplyIsTrim(list: seq<ClipboardHistoryEntry>, cfg: Config, next: Config, view: seq<H.HistoryEntry>)
    requires Normalized(cfg).Some? && Normalized(next).Some?
    ensures StepList(list, cfg, L.ApplyOp(next, true), view) == TrimClipboardHistory(list, SettingsOf(next))
  {
    hide Normalized, TrimClipboardHistory;
  }

  lemma RaisedView(hash: HashFn, before: seq<L.Op>)
    requires Normalized(Limited(1)).Some? && Normalized(Limited(2)).Some?
    ensures H.Texts(Shown(hash, Limited(1), before + [L.ApplyOp(Limited(2), true)])) ==
            H.Take(H.Take(StoredTexts(hash, before), Room(Limited(2))), Room(Limited(2)))
  {
    hide Limited, L.RunAll, H.Texts, Normalized, Room, ViewOf, L.StepStore, H.Take;
    var ops := before + [L.ApplyOp(Limited(2), true)];
    var st := L.RunAll(hash, L.EMPTY_RUN, before).st;
    assert ops[..|ops| - 1] == before;
    RunStep(hash, ops);
    ApplyStep(hash, st, Limited(2));
    AppliedTexts(st, Limited(2), true);
    ViewTexts(L.RunAll(hash, L.EMPTY_RUN, ops).st, Limited(2));
  }

  lemma ApplyStep(hash: HashFn, st: H.Stored, next: Config)
    requires Normalized(next).Some?
    ensures L.StepStore(hash, st, L.ApplyOp(next, true)) == H.Applied(st, next, true)
    ensures !L.StepStore(hash, st, L.ApplyOp(next, true)).1.Failed?
  {
    hide Normalized;
  }

  /** Reachable: a raised limit brings the hidden entry back in the store, and not in the UI's own list. */
  lemma RaisedLimitParts(hash: HashFn, a: H.Activity, b: H.Activity, now: H.Clock)
    requires a.text != "" && b.text != "" && a.text != b.text && H.CanPersist(a.kind) && H.CanPersist(b.kind)
    ensures Normalized(Limited(1)).Some?
    ensures Texts(ListAll(hash, Limited(1), RaisedScript(a, b, now))) == [b.text]
    ensures H.Texts(Shown(hash, Limited(1), RaisedScript(a, b, now))) == [b.text, a.text]
  {
    hide Normalized, Texts, H.Texts, Limited, H.CanPersist, ListAll, InForce, L.RunAll, Shown, L.KeepsBodies, Room,
         L.LimitOf, StoredTexts;
    var ops := RaisedScript(a, b, now);
    RoomOf(1);
    RoomOf(2);
    TwoStored(hash, a, b, now);
    FirstTwoAgree(hash, a, b, now);
    assert ops == ops[..2] + [ops[2]];
    RaisedList(hash, ops[..2]);
    RaisedView(hash, ops[..2]);
    assert [b.text, a.text][..1] == [b.text];
  }

  lemma RoomOf(limit: nat)
    requires 1 <= limit <= MAX_HISTORY_LIMIT
    ensures Normalized(Limited(limit)).Some? && Room(Limited(limit)) == limit
  {
    hide Normalized, Limited;
    LimitedIs(limit);
  }

  lemma AppendUses(a: H.Activity, cfg: Config, now: H.Clock)
    ensures L.Uses(L.AppendOp(a, cfg, now, true), cfg)
  {
  }

  lemma FirstTwoAgree(hash: HashFn, a: H.Activity, b: H.Activity, now: H.Clock)
    requires Normalized(Limited(1)).Some?
    requires a.text != "" && b.text != ""
    ensures var ops := RaisedScript(a, b, now)[..2];
            Texts(ListAll(hash, Limited(1), ops)) == H.Take(StoredTexts(hash, ops), Room(Limited(1)))
  {
    hide Normalized, Texts, H.Texts, Limited, ListAll, InForce, L.RunAll, Room, ViewOf, H.Take, L.Uses, L.KeepsBodies,
         L.LimitOf;
    LimitedIs(1);
    var ops := RaisedScript(a, b, now)[..2];
    forall k | 0 <= k < 2 ensures L.Uses(ops[k], Limited(1)) && !ops[k].PromoteOp? {
      AppendUses(if k == 0 then a else b, Limited(1), now);
    }
    GoAndDartAgree(hash, ops, Limited(1));
    OneConfigInForce(hash, Limited(1), ops);
    ViewTexts(L.RunAll(hash, L.EMPTY_RUN, ops).st, Limited(1));
  }
}
