/**
 Every field of a stored entry, not its text alone: what an operation stores, what it answers, and, over whole
 runs, which operation each entry comes from.
 */
module HistoryFields {
  import opened Options
  import opened Text
  import opened Config
  import opened History
  import opened HistoryLaws
  import Json

  // ---------------------------------------------------------------- the fields an operation gives

  /** The time given, or else the clock's; a clock before the epoch leaves it open. */
  predicate Dated(x: int, given: int, clock: int) {
    (0 < given ==> x == given) && (given <= 0 && 0 < clock ==> x == clock)
  }

  /** The size and the prefix given, or else those of the text. */
  predicate Measured(hash: HashFn, x: HistoryEntry, byteSize: int, hashPrefix: string) {
    && x.byteSize == (if 0 < byteSize then byteSize else Utf8Len(x.text))
    && x.hashPrefix == if TrimSpace(hashPrefix) != "" then TrimSpace(hashPrefix) else HashPrefix(hash(x.text))
  }

  /** The entry has the fields this operation gave it. */
  predicate Stamped(hash: HashFn, x: HistoryEntry, op: Op) {
    match op
    case AppendOp(a, _, now, _) =>
      && x.text == a.text && x.kind == a.kind
      && x.topic == TrimSpace(a.topic) && x.deviceLabel == TrimSpace(a.deviceLabel)
      && x.id == (if TrimSpace(a.id) != "" then TrimSpace(a.id) else "history-" + Json.FormatInt(now.micros))
      && Measured(hash, x, a.byteSize, a.hashPrefix) && Dated(x.timestampMS, a.timestampMS, now.millis)
    case PromoteOp(e, _, now, later, _) =>
      && x.text == e.text && x.id == "restore-" + Json.FormatInt(now.micros)
      && x.kind == (if CanPersist(TrimSpace(e.kind)) then TrimSpace(e.kind) else PUBLISHED)
      && x.topic == TrimSpace(e.topic) && x.deviceLabel == TrimSpace(e.deviceLabel)
      && Measured(hash, x, e.byteSize, e.hashPrefix) && Dated(x.timestampMS, now.millis, later.millis)
    case _ => false
  }

  lemma KindTrimmed(kind: string)
    requires CanPersist(kind)
    ensures TrimSpace(kind) == kind
  {
    KindsTrimmed();
  }

  lemma RestoreIDTrimmed(now: Clock)
    ensures RestoreID(now) != "" && TrimSpace(RestoreID(now)) == RestoreID(now)
  {
    var s, digits := RestoreID(now), Json.FormatInt(now.micros);
    assert s[0] == 'r' && s[|s| - 1] == digits[|digits| - 1];
  }

  lemma RestoreIDIs(now: Clock)
    ensures RestoreID(now) == "restore-" + Json.FormatInt(now.micros)
  {
  }

  lemma AppendStamps(hash: HashFn, a: Activity, cfg: Config, now: Clock, saves: bool)
    requires CanPersist(a.kind)
    ensures Stamped(hash, NormalizeEntry(hash, FromActivity(a), now), AppendOp(a, cfg, now, saves))
  {
    hide TrimSpace, CanPersist, Utf8Len, HashPrefix;
    KindTrimmed(a.kind);
  }

  lemma PromoteStamps(hash: HashFn, e: HistoryEntry, cfg: Config, now: Clock, later: Clock, saves: bool)
    ensures Stamped(hash, NormalizeEntry(hash, e.(id := RestoreID(now), timestampMS := now.millis), later),
                    PromoteOp(e, cfg, now, later, saves))
  {
    hide TrimSpace, CanPersist, Utf8Len, HashPrefix, Json.FormatInt, RestoreID;
    RestoreIDTrimmed(now);
    RestoreIDIs(now);
  }

  /** A normal entry, whatever its time. */
  ghost predicate NormalButForTime(x: HistoryEntry) {
    NormalEntry(x.(timestampMS := 1))
  }

  lemma NormalStaysButForTime(hash: HashFn, x: HistoryEntry, now: Clock)
    requires NormalButForTime(x)
    ensures NormalizeEntry(hash, x, now) == x.(timestampMS := if x.timestampMS <= 0 then now.millis else x.timestampMS)
  {
    hide TrimSpace, Utf8Len, HashPrefix;
    KindTrimmed(x.kind);
  }

  lemma AppendIsNormal(hash: HashFn, x: HistoryEntry, op: Op)
    requires op.AppendOp? && Stamped(hash, x, op) && x.text != "" && CanPersist(op.activity.kind)
    ensures NormalButForTime(x)
  {
    hide TrimSpace, HashPrefix, CanPersist;
    PrefixTrimmed(hash, x.text);
    assert HistoryID(op.now) == "history-" + Json.FormatInt(op.now.micros);
  }

  lemma PromoteIsNormal(hash: HashFn, x: HistoryEntry, op: Op)
    requires op.PromoteOp? && Stamped(hash, x, op) && x.text != ""
    ensures NormalButForTime(x)
  {
    hide TrimSpace, HashPrefix, CanPersist;
    PrefixTrimmed(hash, x.text);
    RestoreIDTrimmed(op.now);
    assert CanPersist(PUBLISHED) by { PublishedPersists(); }
  }

  lemma PublishedPersists()
    ensures CanPersist(PUBLISHED)
  {
  }

  lemma RedatedStays(hash: HashFn, x: HistoryEntry, op: Op, millis: int)
    requires Stamped(hash, x, op) && x.timestampMS <= 0
    ensures Stamped(hash, x.(timestampMS := millis), op)
  {
    hide TrimSpace, HashPrefix, CanPersist, Utf8Len;
  }

  lemma TouchedText(op: Op)
    requires TouchedBy(op).Some?
    ensures TouchedBy(op).value != ""
    ensures op.AppendOp? ==> TouchedBy(op).value == op.activity.text && CanPersist(op.activity.kind)
    ensures op.PromoteOp? ==> TouchedBy(op).value == op.entry.text
  {
    hide KeepsBodies, CanPersist;
  }

  lemma StampedText(hash: HashFn, x: HistoryEntry, op: Op)
    requires Stamped(hash, x, op) && TouchedBy(op).Some?
    ensures x.text == TouchedBy(op).value != ""
  {
    hide TrimSpace, HashPrefix, CanPersist, KeepsBodies, Utf8Len;
    TouchedText(op);
  }

  /** Reading an entry back keeps its fields. */
  lemma StampedStays(hash: HashFn, x: HistoryEntry, op: Op, now: Clock)
    requires Stamped(hash, x, op) && TouchedBy(op).Some?
    ensures Stamped(hash, NormalizeEntry(hash, x, now), op)
  {
    hide Stamped, NormalizeEntry, NormalButForTime, TouchedBy;
    TouchedText(op);
    StampedText(hash, x, op);
    StampedKind(hash, x, op);
    if op.AppendOp? { AppendIsNormal(hash, x, op); } else { PromoteIsNormal(hash, x, op); }
    NormalStaysButForTime(hash, x, now);
    if x.timestampMS <= 0 { RedatedStays(hash, x, op, now.millis); }
  }

  lemma StampedKind(hash: HashFn, x: HistoryEntry, op: Op)
    requires Stamped(hash, x, op)
    ensures op.AppendOp? || op.PromoteOp?
  {
    hide TrimSpace, HashPrefix, CanPersist, Utf8Len;
  }

  // ---------------------------------------------------------------- one operation

  lemma AppendedFirst(hash: HashFn, st: Stored, a: Activity, cfg: Config, now: Clock, saves: bool)
    requires TouchedBy(AppendOp(a, cfg, now, saves)).Some?
    ensures var t := Appended(hash, st, a, cfg, now, saves).0.entries;
            && t != [] && Stamped(hash, t[0], AppendOp(a, cfg, now, saves))
            && t[1..] == Take(Others(st.entries, a.text), if LimitOf(cfg) <= 2 then 1 else LimitOf(cfg) - 1)
  {
    hide Normalized, NormalizeEntry, Others, LimitFor, Stamped, CanPersist, Take;
    AppendStamps(hash, a, cfg, now, saves);
  }

  lemma PromotedFirst(hash: HashFn, st: Stored, e: HistoryEntry, cfg: Config, now: Clock, later: Clock, saves: bool)
    requires TouchedBy(PromoteOp(e, cfg, now, later, saves)).Some?
    ensures var t := Promoted(hash, st, e, cfg, now, later, saves).0.entries;
            && t != [] && Stamped(hash, t[0], PromoteOp(e, cfg, now, later, saves))
            && t[1..] == Take(Others(st.entries, e.text), if LimitOf(cfg) <= 2 then 1 else LimitOf(cfg) - 1)
  {
    hide Normalized, NormalizeEntry, Others, LimitFor, Stamped, CanPersist, Take;
    PromoteStamps(hash, e, cfg, now, later, saves);
  }

  /** An operation that touches a text puts an entry with its own fields first, and keeps the others as they were. */
  lemma TouchStampsFirst(hash: HashFn, st: Stored, op: Op)
    requires TouchedBy(op).Some?
    ensures var t := StepStore(hash, st, op).0.entries;
            && t != [] && Stamped(hash, t[0], op)
            && t[1..] == Take(Others(st.entries, TouchedBy(op).value),
                              if LimitOf(op.cfg) <= 2 then 1 else LimitOf(op.cfg) - 1)
  {
    hide Normalized, Appended, Promoted, Others, LimitFor, Stamped, CanPersist, Take;
    match op
    case AppendOp(a, cfg, now, saves) => AppendedFirst(hash, st, a, cfg, now, saves);
    case PromoteOp(e, cfg, now, later, saves) => PromotedFirst(hash, st, e, cfg, now, later, saves);
  }

  /** What fits: the limit while bodies are kept, nothing otherwise. */
  function Fits(cfg: Config): nat
    requires Normalized(cfg).Some?
  {
    if KeepsBodies(cfg) then LimitOf(cfg) else 0
  }

  /** The operation changes the memory, so that there is something to save. */
  predicate Writes(st: Stored, op: Op) {
    match op
    case AppendOp(_, _, _, _) => TouchedBy(op).Some?
    case PromoteOp(_, _, _, _, _) => TouchedBy(op).Some?
    case ApplyOp(cfg, _) => Normalized(cfg).Some? && |st.entries| > Fits(cfg)
    case ClearOp(_) => true
    case ReopenOp(_) => false
  }

  /** The operation is refused outright. */
  predicate Refused(op: Op) {
    match op
    case AppendOp(_, cfg, _, _) => Normalized(cfg).None?
    case PromoteOp(e, cfg, _, _, _) => Normalized(cfg).None? || (KeepsBodies(cfg) && e.text == "")
    case ApplyOp(cfg, _) => Normalized(cfg).None?
    case _ => false
  }

  predicate Saves(op: Op) {
    match op
    case AppendOp(_, _, _, saves) => saves
    case PromoteOp(_, _, _, _, saves) => saves
    case ApplyOp(_, saves) => saves
    case ClearOp(saves) => saves
    case ReopenOp(_) => true
  }

  /**
   The answer of an operation, and the file: changed and saved, failed with the file as it was, or nothing to do.
   A failed save leaves the new memory and the old file.
   */
  lemma StoreAnswersExactly(hash: HashFn, st: Stored, op: Op)
    requires !op.ReopenOp?
    ensures var (t, answer) := StepStore(hash, st, op);
            && (answer.Changed? <==> Writes(st, op) && Saves(op))
            && (answer.Failed? <==> Refused(op) || (Writes(st, op) && !Saves(op)))
            && (answer.Changed? ==> t.file == Some(t.entries))
            && (!answer.Changed? ==> t.file == st.file)
            && (!Writes(st, op) ==> t == st)
            && (op.ApplyOp? && Writes(st, op) ==> t.entries == st.entries[..Fits(op.cfg)])
            && (op.ClearOp? ==> t.entries == [])
  {
    hide Normalized, Prepended, LimitFor, CanPersist;
  }

  // ---------------------------------------------------------------- over whole runs

  /** The operations behind the entries in memory and in the file: every touch since they were last emptied. */
  datatype Journal = Journal(now: seq<Op>, saved: seq<Op>)

  function StepJournal(j: Journal, op: Op, answer: Answer): Journal {
    var now := match op
      case AppendOp(_, _, _, _) => if TouchedBy(op).Some? then j.now + [op] else j.now
      case PromoteOp(_, _, _, _, _) => if TouchedBy(op).Some? then j.now + [op] else j.now
      case ApplyOp(cfg, _) => if Normalized(cfg).Some? && !KeepsBodies(cfg) then [] else j.now
      case ClearOp(_) => []
      case ReopenOp(_) => j.saved;
    Journal(now, if answer.Changed? then now else j.saved)
  }

  function Journaled(hash: HashFn, ops: seq<Op>): Journal {
    if ops == [] then Journal([], [])
    else
      var before, op := ops[..|ops| - 1], ops[|ops| - 1];
      StepJournal(Journaled(hash, before), op, StepStore(hash, RunAll(hash, EMPTY_RUN, before).st, op).1)
  }

  predicate Touches(op: Op, text: string) {
    TouchedBy(op) == Some(text)
  }

  /** The last operation that touched the text. */
  function LastTouch(log: seq<Op>, text: string): Option<Op> {
    if log == [] then None
    else if Touches(log[|log| - 1], text) then Some(log[|log| - 1])
    else LastTouch(log[..|log| - 1], text)
  }

  lemma {:induction false} LastTouchIs(log: seq<Op>, text: string)
    ensures LastTouch(log, text).Some? <==> exists k :: 0 <= k < |log| && Touches(log[k], text)
    ensures LastTouch(log, text).Some? ==>
              exists k :: 0 <= k < |log| && log[k] == LastTouch(log, text).value && Touches(log[k], text)
                          && forall l :: k < l < |log| ==> !Touches(log[l], text)
  {
    hide TouchedBy;
    if log != [] {
      var n := |log| - 1;
      LastTouchIs(log[..n], text);
      if Touches(log[n], text) {
        assert LastTouch(log, text) == Some(log[n]);
      } else if LastTouch(log[..n], text).Some? {
        var k :| 0 <= k < n && log[..n][k] == LastTouch(log[..n], text).value && Touches(log[..n][k], text)
                 && forall l :: k < l < n ==> !Touches(log[..n][l], text);
        assert log[k] == log[..n][k];
        assert forall l :: k < l < n ==> log[l] == log[..n][l];
      } else {
        forall k | 0 <= k < |log| ensures !Touches(log[k], text) {
          if k < n { assert log[k] == log[..n][k]; }
        }
      }
    }
  }

  /** The entry has the fields the last operation on its text gave it. */
  predicate FromLast(hash: HashFn, x: HistoryEntry, log: seq<Op>) {
    var op := LastTouch(log, x.text);
    op.Some? && Touches(op.value, x.text) && Stamped(hash, x, op.value)
  }

  ghost predicate AllFromLast(hash: HashFn, entries: seq<HistoryEntry>, log: seq<Op>) {
    forall i :: 0 <= i < |entries| ==> FromLast(hash, entries[i], log)
  }

  ghost predicate FieldsOk(hash: HashFn, st: Stored, j: Journal) {
    AllFromLast(hash, st.entries, j.now) && (st.file.Some? ==> AllFromLast(hash, st.file.value, j.saved))
  }

  lemma {:induction false} OthersFromLast(hash: HashFn, entries: seq<HistoryEntry>, text: string, log: seq<Op>, op: Op)
    requires AllFromLast(hash, entries, log) && Touches(op, text)
    ensures AllFromLast(hash, Others(entries, text), log + [op])
  {
    hide Stamped, TouchedBy;
    if entries != [] {
      var n := |entries| - 1;
      OthersFromLast(hash, entries[..n], text, log, op);
      if entries[n].text != text {
        assert (log + [op])[..|log|] == log;
        assert FromLast(hash, entries[n], log);
        assert FromLast(hash, entries[n], log + [op]);
      }
    }
  }

  lemma FirstFromLast(hash: HashFn, x: HistoryEntry, log: seq<Op>, op: Op)
    requires Stamped(hash, x, op) && TouchedBy(op).Some?
    ensures FromLast(hash, x, log + [op])
  {
    hide Stamped, TouchedBy;
    StampedText(hash, x, op);
  }

  lemma TouchKeepsPrefix(hash: HashFn, st: Stored, op: Op)
    requires TouchedBy(op).Some?
    ensures var t := StepStore(hash, st, op).0.entries;
            t != [] && Stamped(hash, t[0], op) && t[1..] <= Others(st.entries, TouchedBy(op).value)
  {
    hide Stamped, StepStore, Others, KeepsBodies, CanPersist, LimitFor;
    TouchStampsFirst(hash, st, op);
  }

  lemma TouchFields(hash: HashFn, st: Stored, j: Journal, op: Op)
    requires FieldsOk(hash, st, j) && TouchedBy(op).Some?
    ensures AllFromLast(hash, StepStore(hash, st, op).0.entries, j.now + [op])
  {
    hide Stamped, StepStore, TouchedBy, FromLast, Others, AllFromLast;
    TouchKeepsPrefix(hash, st, op);
    var t, text := StepStore(hash, st, op).0.entries, TouchedBy(op).value;
    FirstFromLast(hash, t[0], j.now, op);
    TouchesItsText(op);
    OthersFromLast(hash, st.entries, text, j.now, op);
    JoinedFromLast(hash, t, Others(st.entries, text), j.now + [op]);
  }

  lemma TouchesItsText(op: Op)
    requires TouchedBy(op).Some?
    ensures Touches(op, TouchedBy(op).value)
  {
  }

  lemma JoinedFromLast(hash: HashFn, t: seq<HistoryEntry>, rest: seq<HistoryEntry>, log: seq<Op>)
    requires t != [] && t[1..] <= rest && FromLast(hash, t[0], log) && AllFromLast(hash, rest, log)
    ensures AllFromLast(hash, t, log)
  {
    hide FromLast;
    forall i | 0 <= i < |t| ensures FromLast(hash, t[i], log) {
      if i > 0 { assert t[i] == t[1..][i - 1] == rest[i - 1]; }
    }
  }

  lemma {:induction false} KeepFirstFromLast(hash: HashFn, entries: seq<HistoryEntry>, log: seq<Op>)
    requires AllFromLast(hash, entries, log)
    ensures AllFromLast(hash, KeepFirst(entries), log)
  {
    hide FromLast, Texts;
    if entries != [] { KeepFirstFromLast(hash, entries[..|entries| - 1], log); }
  }

  lemma NormalizedFromLast(hash: HashFn, x: HistoryEntry, log: seq<Op>, now: Clock)
    requires FromLast(hash, x, log)
    ensures FromLast(hash, NormalizeEntry(hash, x, now), log)
  {
    hide Stamped, TouchedBy, NormalizeEntry;
    StampedStays(hash, x, LastTouch(log, x.text).value, now);
  }

  lemma ReopenFields(hash: HashFn, st: Stored, j: Journal, now: Clock)
    requires FieldsOk(hash, st, j)
    ensures AllFromLast(hash, Reloaded(hash, st, now).entries, j.saved) && Reloaded(hash, st, now).file == st.file
  {
    hide FromLast, KeepFirst, NormalizeEntry;
    if st.file.Some? {
      var kept := KeepFirst(st.file.value);
      KeepFirstFromLast(hash, st.file.value, j.saved);
      forall i | 0 <= i < |kept| ensures FromLast(hash, NormalizeEntry(hash, kept[i], now), j.saved) {
        NormalizedFromLast(hash, kept[i], j.saved, now);
      }
    }
  }

  lemma StepFields(hash: HashFn, st: Stored, j: Journal, op: Op)
    requires FieldsOk(hash, st, j)
    ensures FieldsOk(hash, StepStore(hash, st, op).0, StepJournal(j, op, StepStore(hash, st, op).1))
  {
    hide StepStore, TouchedBy, FromLast, Normalized, LimitOf;
    if op.ReopenOp? {
      ReopenIs(hash, st, op.now);
      ReopenFields(hash, st, j, op.now);
    } else {
      StoreAnswersExactly(hash, st, op);
      if TouchedBy(op).Some? {
        TouchKinds(op);
        TouchFields(hash, st, j, op);
      }
    }
  }

  lemma ReopenIs(hash: HashFn, st: Stored, now: Clock)
    ensures StepStore(hash, st, ReopenOp(now)) == (Reloaded(hash, st, now), Changed)
  {
    hide Reloaded;
  }

  lemma TouchKinds(op: Op)
    requires TouchedBy(op).Some?
    ensures op.AppendOp? || op.PromoteOp?
  {
    hide KeepsBodies, CanPersist;
  }

  /** In every run, saved or not, reopened or not, every entry has the fields of the last operation on its text. */
  lemma {:induction false} EntriesFromLastTouch(hash: HashFn, ops: seq<Op>)
    ensures FieldsOk(hash, RunAll(hash, EMPTY_RUN, ops).st, Journaled(hash, ops))
  {
    hide StepStore, StepJournal, FieldsOk;
    if ops == [] {
      NothingStamped(hash);
    } else {
      var before := ops[..|ops| - 1];
      EntriesFromLastTouch(hash, before);
      StepFields(hash, RunAll(hash, EMPTY_RUN, before).st, Journaled(hash, before), ops[|ops| - 1]);
    }
  }

  lemma NothingStamped(hash: HashFn)
    ensures FieldsOk(hash, EMPTY_RUN.st, Journal([], []))
  {
  }

  /** So has every entry that is shown, under any configuration. */
  lemma ShownFromLastTouch(hash: HashFn, ops: seq<Op>, cfg: Config, i: nat)
    requires i < |Visible(RunAll(hash, EMPTY_RUN, ops).st.entries, cfg)|
    ensures FromLast(hash, Visible(RunAll(hash, EMPTY_RUN, ops).st.entries, cfg)[i], Journaled(hash, ops).now)
  {
    hide RunAll, FromLast, Journaled;
    EntriesFromLastTouch(hash, ops);
  }
}
