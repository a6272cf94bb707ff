/** Every field of an entry in the UI's own list, and the operation it comes from. */
module DartFields {
  import opened Options
  import opened Text
  import opened Config
  import opened DartHistory
  import Json
  import ConfigStore
  import H = History
  import L = HistoryLaws
  import F = HistoryFields

  // ---------------------------------------------------------------- reading what the store sends

  /** A parsed item has the fields it was sent with, and the stated ones where they are missing. */
  lemma ParsedItemFields(item: Item, now: H.Clock)
    requires item.Item?
    ensures var x := FromItem(item, now);
            && x.id == (if item.id.Some? then item.id.value else "history-" + Json.FormatInt(now.micros))
            && x.kind == (if item.kind.Some? then ParseActivityKind(item.kind.value) else Published)
            && x.text == (if item.text.Some? then item.text.value else "")
            && x.topic == (if item.topic.Some? then item.topic.value else "")
            && x.deviceLabel == (if item.deviceLabel.Some? then item.deviceLabel.value else "")
            && x.byteSize == (if item.byteSize.Some? then item.byteSize.value else Utf8Len(x.text))
            && x.hashPrefix == (if item.hashPrefix.Some? then item.hashPrefix.value else "")
            && x.timestampMS == if item.timestampMS.Some? && 0 < item.timestampMS.value then item.timestampMS.value
                                else now.millis
  {
    hide Utf8Len;
  }

  /** The entry is what the store had, field by field; a missing time is the UI's own. */
  predicate ParsedFrom(x: ClipboardHistoryEntry, g: H.HistoryEntry) {
    && x.id == g.id && x.kind == ParseActivityKind(g.kind) && x.text == g.text && x.topic == g.topic
    && x.deviceLabel == g.deviceLabel && x.byteSize == g.byteSize && x.hashPrefix == g.hashPrefix
    && (0 < g.timestampMS ==> x.timestampMS == g.timestampMS)
  }

  lemma SentIsParsed(g: H.HistoryEntry, now: H.Clock)
    ensures ParsedFrom(FromItem(ToItem(g), now), g)
  {
    hide FromItem, ParseActivityKind, Utf8Len;
    ParsedItemFields(ToItem(g), now);
  }

  lemma {:induction false} KeptFrom(entries: seq<H.HistoryEntry>, limit: nat, now: H.Clock, i: nat)
    requires i < |Kept(ToItems(entries), limit, now)|
    ensures exists j :: 0 <= j < |entries| && Kept(ToItems(entries), limit, now)[i] == FromItem(ToItem(entries[j]), now)
  {
    hide FromItem, Texts, TextOf;
    var n := |entries| - 1;
    assert ToItems(entries)[..n] == ToItems(entries[..n]);
    if i < |Kept(ToItems(entries[..n]), limit, now)| {
      KeptFrom(entries[..n], limit, now, i);
      var j :| 0 <= j < n && Kept(ToItems(entries[..n]), limit, now)[i] == FromItem(ToItem(entries[..n][j]), now);
      assert entries[j] == entries[..n][j];
    } else {
      assert Kept(ToItems(entries), limit, now)[i] == FromItem(ToItem(entries[n]), now);
    }
  }

  // ---------------------------------------------------------------- the fields an operation gives

  /** The entry has the fields the UI gave it when it saw the operation itself. */
  predicate SeenLive(x: ClipboardHistoryEntry, op: L.Op) {
    match op
    case AppendOp(a, cfg, now, _) =>
      && Normalized(cfg).Some?
      && x.text == a.text && x.id == a.id && x.kind == ParseActivityKind(a.kind) && x.topic == a.topic
      && x.deviceLabel == (if a.deviceLabel != "" then a.deviceLabel else Normalized(cfg).value.displayName)
      && x.byteSize == a.byteSize && x.hashPrefix == a.hashPrefix
      && x.timestampMS == if 0 < a.timestampMS then a.timestampMS else now.millis
    case PromoteOp(e, _, now, _, _) =>
      && x.text == e.text && x.id == "restore-" + Json.FormatInt(now.micros) && x.kind == ParseActivityKind(e.kind)
      && x.topic == e.topic && x.deviceLabel == e.deviceLabel && x.byteSize == e.byteSize
      && x.hashPrefix == e.hashPrefix && x.timestampMS == now.millis
    case _ => false
  }

  /** Seen live, or parsed from what the store made of the operation. */
  ghost predicate ComesFrom(hash: HashFn, x: ClipboardHistoryEntry, op: L.Op) {
    SeenLive(x, op) || exists g :: F.Stamped(hash, g, op) && ParsedFrom(x, g)
  }

  /** The entry comes from the last operation on its text; the store has none for an empty one. */
  ghost predicate FromLast(hash: HashFn, x: ClipboardHistoryEntry, log: seq<L.Op>) {
    x.text != "" ==>
      var op := F.LastTouch(log, x.text);
      op.Some? && F.Touches(op.value, x.text) && ComesFrom(hash, x, op.value)
  }

  ghost predicate AllFromLast(hash: HashFn, list: seq<ClipboardHistoryEntry>, log: seq<L.Op>) {
    forall i :: 0 <= i < |list| ==> FromLast(hash, list[i], log)
  }

  lemma {:induction false} OthersStay(hash: HashFn, list: seq<ClipboardHistoryEntry>, text: string, log: seq<L.Op>)
    requires AllFromLast(hash, list, log)
    ensures AllFromLast(hash, Others(list, text), log)
    ensures forall i :: 0 <= i < |Others(list, text)| ==> Others(list, text)[i].text != text
  {
    hide FromLast;
    if list != [] { OthersStay(hash, list[..|list| - 1], text, log); }
  }

  /** One more touch of another text does not matter. */
  lemma TouchedElsewhere(hash: HashFn, list: seq<ClipboardHistoryEntry>, text: string, log: seq<L.Op>, op: L.Op)
    requires AllFromLast(hash, list, log) && F.Touches(op, text)
    requires forall i :: 0 <= i < |list| ==> list[i].text != text
    ensures AllFromLast(hash, list, log + [op])
  {
    hide ComesFrom, F.Touches;
    assert (log + [op])[..|log|] == log;
    forall i | 0 <= i < |list| ensures FromLast(hash, list[i], log + [op]) {
      OneText(op, text, list[i].text);
    }
  }

  lemma OneText(op: L.Op, text: string, other: string)
    requires F.Touches(op, text) && other != text
    ensures !F.Touches(op, other)
  {
    hide L.TouchedBy;
  }

  lemma FirstComes(hash: HashFn, x: ClipboardHistoryEntry, log: seq<L.Op>, op: L.Op)
    requires SeenLive(x, op) && F.Touches(op, x.text)
    ensures FromLast(hash, x, log + [op])
  {
    hide SeenLive, F.Touches;
  }

  lemma Joined(hash: HashFn, x: ClipboardHistoryEntry, rest: seq<ClipboardHistoryEntry>, k: nat, log: seq<L.Op>)
    requires FromLast(hash, x, log) && AllFromLast(hash, rest, log)
    ensures AllFromLast(hash, H.Take([x] + rest, k), log)
  {
    hide FromLast;
  }

  lemma AppendComes(hash: HashFn, list: seq<ClipboardHistoryEntry>, cfg: Config, op: L.Op, log: seq<L.Op>)
    requires Normalized(cfg).Some? && op.AppendOp? && op.cfg == cfg && AllFromLast(hash, list, log)
    ensures AllFromLast(hash, StepList(list, cfg, op, []), if L.TouchedBy(op).Some? then log + [op] else log)
  {
    hide Normalized, FromLast, AllFromLast, ParseActivityKind, H.CanPersist, H.Take, Others;
    var a := op.activity;
    KindsAgree(a.kind);
    if L.TouchedBy(op).Some? {
      var read := ReadActivity(a, Normalized(cfg).value.displayName, op.now);
      var x := ClipboardHistoryEntry(read.id, read.kind, a.text, read.topic, read.deviceLabel, read.byteSize,
                                     read.hashPrefix, read.timestampMS);
      OthersStay(hash, list, a.text, log);
      TouchedElsewhere(hash, Others(list, a.text), a.text, log, op);
      FirstComes(hash, x, log, op);
      Joined(hash, x, Others(list, a.text), L.LimitOf(cfg), log + [op]);
    }
  }

  lemma PromoteComes(hash: HashFn, list: seq<ClipboardHistoryEntry>, cfg: Config, op: L.Op, log: seq<L.Op>)
    requires Normalized(cfg).Some? && op.PromoteOp? && op.cfg == cfg && AllFromLast(hash, list, log)
    ensures AllFromLast(hash, StepList(list, cfg, op, []), if L.TouchedBy(op).Some? then log + [op] else log)
  {
    hide Normalized, AllFromLast, ParseActivityKind, H.Take, Others, ComesFrom;
    if L.KeepsBodies(cfg) {
      var e := op.entry;
      var x := FromGo(e).(id := H.RestoreID(op.now), timestampMS := op.now.millis);
      OthersStay(hash, list, e.text, log);
      if e.text != "" {
        TouchedElsewhere(hash, Others(list, e.text), e.text, log, op);
        FirstComes(hash, x, log, op);
        Joined(hash, x, Others(list, e.text), L.LimitOf(cfg), log + [op]);
      } else {
        Joined(hash, x, Others(list, e.text), L.LimitOf(cfg), log);
      }
    }
  }

  lemma ReopenComes(hash: HashFn, view: seq<H.HistoryEntry>, limit: nat, now: H.Clock, log: seq<L.Op>)
    requires F.AllFromLast(hash, view, log)
    ensures AllFromLast(hash, Kept(ToItems(view), limit, now), log)
  {
    hide Kept, FromItem, ToItems, ParsedFrom, F.Stamped, F.Touches, ToItem;
    var list := Kept(ToItems(view), limit, now);
    forall i | 0 <= i < |list| ensures FromLast(hash, list[i], log) {
      KeptFrom(view, limit, now, i);
      var j :| 0 <= j < |view| && list[i] == FromItem(ToItem(view[j]), now);
      SentIsParsed(view[j], now);
      ParsedText(list[i], view[j]);
      assert F.FromLast(hash, view[j], log);
    }
  }

  lemma ParsedText(x: ClipboardHistoryEntry, g: H.HistoryEntry)
    requires ParsedFrom(x, g)
    ensures x.text == g.text
  {
    hide ParseActivityKind;
  }

  lemma ViewFromLast(hash: HashFn, cfg: Config, ops: seq<L.Op>)
    requires Normalized(cfg).Some?
    ensures F.AllFromLast(hash, Shown(hash, cfg, ops), F.Journaled(hash, ops).now)
  {
    hide L.RunAll, F.FromLast, F.Journaled, InForce, H.Visible, Normalized;
    var view := Shown(hash, cfg, ops);
    forall i | 0 <= i < |view| ensures F.FromLast(hash, view[i], F.Journaled(hash, ops).now) {
      F.ShownFromLastTouch(hash, ops, Normalized(InForce(hash, cfg, ops)).value, i);
    }
  }

  lemma TrimComes(hash: HashFn, list: seq<ClipboardHistoryEntry>, cfg: Config, op: L.Op, j: F.Journal, answer: H.Answer)
    requires Normalized(cfg).Some? && (op.ApplyOp? || op.ClearOp?) && AllFromLast(hash, list, j.now)
    ensures AllFromLast(hash, StepList(list, cfg, op, []), F.StepJournal(j, op, answer).now)
  {
    hide Normalized, FromLast;
  }

  lemma StepComes(hash: HashFn, list: seq<ClipboardHistoryEntry>, cfg: Config, op: L.Op, view: seq<H.HistoryEntry>,
                  j: F.Journal, answer: H.Answer)
    requires Normalized(cfg).Some? && AllFromLast(hash, list, j.now) && Follows(op, cfg)
    requires op.ReopenOp? ==> F.AllFromLast(hash, view, j.saved)
    ensures AllFromLast(hash, StepList(list, cfg, op, view), F.StepJournal(j, op, answer).now)
  {
    hide Normalized, AllFromLast, F.AllFromLast, Kept, ToItems, L.TouchedBy, AppendClipboardHistory,
         PromoteClipboardHistoryEntry, TrimClipboardHistory;
    match op
    case AppendOp(_, _, _, _) => AppendComes(hash, list, cfg, op, j.now);
    case PromoteOp(_, _, _, _, _) => PromoteComes(hash, list, cfg, op, j.now);
    case ReopenOp(now) =>
      ReopenComes(hash, view, L.LimitOf(cfg), now, j.saved);
      NothingComes(hash, j.saved);
    case _ => TrimComes(hash, list, cfg, op, j, answer);
  }

  lemma NothingComes(hash: HashFn, log: seq<L.Op>)
    ensures AllFromLast(hash, [], log)
  {
  }

  /**
   Over every run that follows the settings in force: every entry of the UI's own list has the fields that the
   last operation on its text gave it, seen live or read back from the store.
   */
  lemma {:induction false} ListFromLastTouch(hash: HashFn, cfg: Config, ops: seq<L.Op>)
    requires Normalized(cfg).Some? && AllFollow(hash, cfg, ops)
    ensures AllFromLast(hash, ListAll(hash, cfg, ops), F.Journaled(hash, ops).now)
  {
    hide StepList, InForce, Shown, L.RunAll, Normalized, AllFromLast, F.AllFromLast, F.StepJournal, L.StepStore,
         Follows;
    if ops == [] {
      NothingComes(hash, []);
    } else {
      var before, op := ops[..|ops| - 1], ops[|ops| - 1];
      assert forall k :: 0 <= k < |before| ==> before[..k] == ops[..k];
      ListFromLastTouch(hash, cfg, before);
      ViewFromLast(hash, cfg, ops);
      var answer := L.StepStore(hash, L.RunAll(hash, L.EMPTY_RUN, before).st, op).1;
      if op.ReopenOp? { ReopenGoesBack(F.Journaled(hash, before), op, answer); }
      StepComes(hash, ListAll(hash, cfg, before), InForce(hash, cfg, before), op, Shown(hash, cfg, ops),
                F.Journaled(hash, before), answer);
    }
  }

  lemma ReopenGoesBack(j: F.Journal, op: L.Op, answer: H.Answer)
    requires op.ReopenOp?
    ensures F.StepJournal(j, op, answer).now == j.saved
  {
  }
}
