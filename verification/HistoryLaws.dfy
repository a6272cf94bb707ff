/** Any run of the history store shows the most-recently-used view of the texts that were touched. */
module HistoryLaws {
  import opened Options
  import opened Text
  import opened Config
  import opened History
  import ConfigStore
  import Dedupe

  datatype Op =
    | AppendOp(activity: Activity, cfg: Config, now: Clock, saves: bool)
    | PromoteOp(entry: HistoryEntry, cfg: Config, now: Clock, later: Clock, saves: bool)
    | ApplyOp(cfg: Config, saves: bool)
    | ClearOp(saves: bool)
    | ReopenOp(now: Clock)

  function StepStore(hash: HashFn, st: Stored, op: Op): (Stored, Answer) {
    match op
    case AppendOp(a, cfg, now, saves) => Appended(hash, st, a, cfg, now, saves)
    case PromoteOp(e, cfg, now, later, saves) => Promoted(hash, st, e, cfg, now, later, saves)
    case ApplyOp(cfg, saves) => Applied(st, cfg, saves)
    case ClearOp(saves) => Cleared(st, saves)
    case ReopenOp(now) => (Reloaded(hash, st, now), Changed)
  }

  /** The texts touched since the history was last emptied, and the smallest limit in force since. */
  datatype Reference = Reference(log: seq<string>, low: nat)

  const NOTHING := Reference([], MAX_HISTORY_LIMIT)

  predicate KeepsBodies(cfg: Config) {
    Normalized(cfg).Some? && Normalized(cfg).value.historyRetention == RETENTION_BODY
  }

  function LimitOf(cfg: Config): nat
    requires Normalized(cfg).Some?
  {
    LimitFor(Normalized(cfg).value)
  }

  /** The text an operation touches. */
  function TouchedBy(op: Op): Option<string> {
    match op
    case AppendOp(a, cfg, _, _) => if KeepsBodies(cfg) && a.text != "" && CanPersist(a.kind) then Some(a.text) else None
    case PromoteOp(e, cfg, _, _, _) => if KeepsBodies(cfg) && e.text != "" then Some(e.text) else None
    case _ => None
  }

  /** What the operation means for the touch log; reopening goes back to the log of the last save. */
  function StepReference(r: Reference, saved: Reference, op: Op): Reference {
    match op
    case AppendOp(_, cfg, _, _) => if TouchedBy(op).Some? then Touch(r, TouchedBy(op).value, LimitOf(cfg)) else r
    case PromoteOp(_, cfg, _, _, _) => if TouchedBy(op).Some? then Touch(r, TouchedBy(op).value, LimitOf(cfg)) else r
    case ApplyOp(cfg, _) =>
      if Normalized(cfg).None? then r
      else if KeepsBodies(cfg) then r.(low := Min(r.low, LimitOf(cfg)))
      else NOTHING
    case ClearOp(_) => NOTHING
    case ReopenOp(_) => saved
  }

  function Touch(r: Reference, text: string, limit: nat): Reference {
    Reference(r.log + [text], Min(r.low, limit))
  }

  /** The store, the reference for its memory, and the reference for its file. */
  datatype Run = Run(st: Stored, now: Reference, saved: Reference)

  function StepRun(hash: HashFn, r: Run, op: Op): Run {
    var next, answer := StepStore(hash, r.st, op).0, StepStore(hash, r.st, op).1;
    var now := StepReference(r.now, r.saved, op);
    Run(next, now, if answer.Changed? then now else r.saved)
  }

  function RunAll(hash: HashFn, r: Run, ops: seq<Op>): Run {
    if ops == [] then r else StepRun(hash, RunAll(hash, r, ops[..|ops| - 1]), ops[|ops| - 1])
  }

  /** The texts in the file; a file never written reads as empty. */
  function FileTexts(st: Stored): seq<string> {
    if st.file.Some? then Texts(st.file.value) else []
  }

  ghost predicate RunOk(r: Run) {
    && Follows(Texts(r.st.entries), r.now.log, r.now.low)
    && Follows(FileTexts(r.st), r.saved.log, r.saved.low)
    && "" !in r.now.log && "" !in r.saved.log
  }

  lemma NothingFollows()
    ensures Follows([], NOTHING.log, NOTHING.low)
  {
  }

  lemma FollowsMeans(texts: seq<string>, log: seq<string>, low: nat)
    requires Follows(texts, log, low) && "" !in log
    ensures Dedupe.Distinct(texts) && "" !in texts
    ensures forall k: nat :: k <= low ==> Take(texts, k) == Take(Mru(log), k)
  {
    MruHolds(log);
    forall x | x in texts ensures x in log {
      assert x in Mru(log);
    }
  }

  lemma KeepFirstEmpty()
    ensures KeepFirst([]) == []
  {
  }

  /** Reading back a list with distinct, non-empty texts changes no text. */
  lemma {:induction false} KeepFirstAll(list: seq<HistoryEntry>)
    requires Dedupe.Distinct(Texts(list)) && "" !in Texts(list)
    ensures KeepFirst(list) == list
  {
    hide KeepFirst, Texts, Dedupe.Distinct;
    if list == [] {
      KeepFirstEmpty();
    } else {
      var n := |list| - 1;
      assert list == list[..n] + [list[n]] && list[..n + 1] == list;
      TextsAppend(list[..n], list[n]);
      assert Texts(list)[..n] == Texts(list[..n]) && Texts(list)[n] == list[n].text;
      LastIsNew(Texts(list));
      KeepFirstAll(list[..n]);
      KeepFirstStep(list, n);
    }
  }

  lemma ReloadedTexts(hash: HashFn, st: Stored, now: Clock)
    requires Dedupe.Distinct(FileTexts(st)) && "" !in FileTexts(st)
    ensures Texts(Reloaded(hash, st, now).entries) == FileTexts(st)
  {
    hide NormalizeEntry;
    if st.file.Some? { KeepFirstAll(st.file.value); }
  }

  lemma TruncateFollows(texts: seq<string>, log: seq<string>, low: nat, limit: nat)
    requires Follows(texts, log, low)
    ensures Follows(Take(texts, limit), log, Min(low, limit))
  {
  }

  lemma TouchOk(hash: HashFn, r: Run, e: HistoryEntry, limit: nat, now: Clock, saves: bool)
    requires RunOk(r) && e.text != "" && 1 <= limit
    ensures var (st, answer) := Saved(r.st.(entries := Prepended(hash, r.st.entries, e, limit, now)), saves);
            var next := Touch(r.now, e.text, limit);
            RunOk(Run(st, next, if answer.Changed? then next else r.saved))
  {
    hide Follows, Prepended, Texts;
    PrependedTexts(hash, r.st.entries, e, limit, now);
    PrependFollows(Texts(r.st.entries), r.now.log, r.now.low, limit, e.text);
  }

  lemma ApplyOk(hash: HashFn, r: Run, cfg: Config, saves: bool)
    requires RunOk(r)
    ensures RunOk(StepRun(hash, r, ApplyOp(cfg, saves)))
  {
    hide Follows, Normalized;
    if Normalized(cfg).Some? {
      NothingFollows();
      if KeepsBodies(cfg) {
        TruncateFollows(Texts(r.st.entries), r.now.log, r.now.low, LimitOf(cfg));
        TakeTexts(r.st.entries, LimitOf(cfg));
      }
    }
  }

  lemma ReopenOk(hash: HashFn, r: Run, now: Clock)
    requires RunOk(r)
    ensures RunOk(StepRun(hash, r, ReopenOp(now)))
  {
    hide Follows, Reloaded, Texts;
    FollowsMeans(FileTexts(r.st), r.saved.log, r.saved.low);
    ReloadedTexts(hash, r.st, now);
    ReloadKeepsFile(hash, r.st, now);
  }

  lemma ReloadKeepsFile(hash: HashFn, st: Stored, now: Clock)
    ensures Reloaded(hash, st, now).file == st.file
  {
    hide NormalizeAll;
  }

  lemma AppendOk(hash: HashFn, r: Run, a: Activity, cfg: Config, now: Clock, saves: bool)
    requires RunOk(r)
    ensures RunOk(StepRun(hash, r, AppendOp(a, cfg, now, saves)))
  {
    hide Follows, Normalized, Prepended, Texts, RunOk;
    if TouchedBy(AppendOp(a, cfg, now, saves)).Some? { TouchOk(hash, r, FromActivity(a), LimitOf(cfg), now, saves); }
  }

  lemma PromoteOk(hash: HashFn, r: Run, e: HistoryEntry, cfg: Config, now: Clock, later: Clock, saves: bool)
    requires RunOk(r)
    ensures RunOk(StepRun(hash, r, PromoteOp(e, cfg, now, later, saves)))
  {
    hide Follows, Normalized, Prepended, Texts, RunOk;
    if TouchedBy(PromoteOp(e, cfg, now, later, saves)).Some? {
      TouchOk(hash, r, e.(id := RestoreID(now), timestampMS := now.millis), LimitOf(cfg), later, saves);
    }
  }

  lemma StepOk(hash: HashFn, r: Run, op: Op)
    requires RunOk(r)
    ensures RunOk(StepRun(hash, r, op))
  {
    hide StepRun, RunOk;
    match op
    case AppendOp(a, cfg, now, saves) => AppendOk(hash, r, a, cfg, now, saves);
    case PromoteOp(e, cfg, now, later, saves) => PromoteOk(hash, r, e, cfg, now, later, saves);
    case ApplyOp(cfg, saves) => ApplyOk(hash, r, cfg, saves);
    case ClearOp(saves) => ClearOk(hash, r, saves);
    case ReopenOp(now) => ReopenOk(hash, r, now);
  }

  lemma ClearOk(hash: HashFn, r: Run, saves: bool)
    requires RunOk(r)
    ensures RunOk(StepRun(hash, r, ClearOp(saves)))
  {
    hide Follows;
    NothingFollows();
  }

  const EMPTY_RUN := Run(Stored([], None), NOTHING, NOTHING)

  lemma {:induction false} RunAllOk(hash: HashFn, r: Run, ops: seq<Op>)
    requires RunOk(r)
    ensures RunOk(RunAll(hash, r, ops))
  {
    hide RunOk, StepRun;
    if ops != [] {
      RunAllOk(hash, r, ops[..|ops| - 1]);
      StepOk(hash, RunAll(hash, r, ops[..|ops| - 1]), ops[|ops| - 1]);
    }
  }

  /**
   In every run, whatever is saved or not and however the settings change, what is shown is the
   most-recently-used view of the touched texts, cut at the limit, for every limit no larger than
   any limit in force since the history was last emptied.
   */
  lemma HistoryIsMru(hash: HashFn, ops: seq<Op>, cfg: Config)
    requires cfg.historyRetention == RETENTION_BODY
    requires LimitFor(cfg) <= RunAll(hash, EMPTY_RUN, ops).now.low
    ensures var r := RunAll(hash, EMPTY_RUN, ops);
            Texts(Visible(r.st.entries, cfg)) == Take(Mru(r.now.log), LimitFor(cfg))
  {
    hide RunAll, Texts;
    EmptyOk();
    RunAllOk(hash, EMPTY_RUN, ops);
    var r := RunAll(hash, EMPTY_RUN, ops);
    FollowsMeans(Texts(r.st.entries), r.now.log, r.now.low);
    TakeTexts(r.st.entries, LimitFor(cfg));
  }

  lemma EmptyOk()
    ensures RunOk(EMPTY_RUN)
  {
    NothingFollows();
  }

  // ---------------------------------------------------------------- one limit throughout

  predicate Uses(op: Op, cfg: Config) {
    || (op.AppendOp? && op.cfg == cfg)
    || (op.PromoteOp? && op.cfg == cfg)
    || (op.ApplyOp? && op.cfg == cfg)
    || op.ClearOp? || op.ReopenOp?
  }

  lemma LimitStep(hash: HashFn, r: Run, op: Op, cfg: Config)
    requires KeepsBodies(cfg) && Uses(op, cfg) && LimitOf(cfg) <= r.now.low && LimitOf(cfg) <= r.saved.low
    ensures var t := StepRun(hash, r, op); LimitOf(cfg) <= t.now.low && LimitOf(cfg) <= t.saved.low
  {
    hide StepStore, Normalized, TouchedBy;
  }

  lemma {:induction false} LimitStays(hash: HashFn, ops: seq<Op>, cfg: Config)
    requires KeepsBodies(cfg)
    requires forall k :: 0 <= k < |ops| ==> Uses(ops[k], cfg)
    ensures var r := RunAll(hash, EMPTY_RUN, ops); LimitOf(cfg) <= r.now.low && LimitOf(cfg) <= r.saved.low
  {
    hide StepRun, Normalized, Uses, KeepsBodies;
    if ops != [] {
      LimitStays(hash, ops[..|ops| - 1], cfg);
      LimitStep(hash, RunAll(hash, EMPTY_RUN, ops[..|ops| - 1]), ops[|ops| - 1], cfg);
    }
  }

  /** With one configuration throughout, truncating at every step never changes what is shown. */
  lemma FixedLimitIsMru(hash: HashFn, ops: seq<Op>, cfg: Config)
    requires KeepsBodies(cfg)
    requires forall k :: 0 <= k < |ops| ==> Uses(ops[k], cfg)
    ensures var r := RunAll(hash, EMPTY_RUN, ops);
            Texts(Visible(r.st.entries, Normalized(cfg).value)) == Take(Mru(r.now.log), LimitOf(cfg))
  {
    hide RunAll, Normalized, Visible, Texts, Mru;
    LimitStays(hash, ops, cfg);
    HistoryIsMru(hash, ops, Normalized(cfg).value);
  }

  /** With limit 1 the store keeps a second entry that is never shown under that limit. */
  lemma LimitOneStoresTwo(hash: HashFn, e: HistoryEntry, f: HistoryEntry, now: Clock)
    requires e.text != f.text
    ensures |Prepended(hash, Prepended(hash, [], e, 1, now), f, 1, now)| == 2
  {
    hide NormalizeEntry;
    var one := Prepended(hash, [], e, 1, now);
    assert one == [NormalizeEntry(hash, e, now)];
    assert Others(one, f.text) == one by {
      assert one[..0] == [];
    }
  }

  /** The store holds more entries than the limit exactly when the limit is 1 and another text was there. */
  lemma OverLimitExactly(hash: HashFn, entries: seq<HistoryEntry>, e: HistoryEntry, limit: nat, now: Clock)
    requires 1 <= limit
    ensures |Prepended(hash, entries, e, limit, now)| <= limit <==> limit >= 2 || Others(entries, e.text) == []
  {
    hide NormalizeEntry, Others;
  }

  /** What is put in is put in under a limit of at most L. */
  predicate Within(op: Op, L: nat) {
    (op.AppendOp? || op.PromoteOp?) && KeepsBodies(op.cfg) ==> LimitOf(op.cfg) <= L
  }

  function AtLeastTwo(L: nat): nat {
    if L < 2 then 2 else L
  }

  ghost predicate BothWithin(st: Stored, L: nat) {
    |st.entries| <= AtLeastTwo(L) && (st.file.Some? ==> |st.file.value| <= AtLeastTwo(L))
  }

  lemma {:induction false} KeepFirstShorter(list: seq<HistoryEntry>)
    ensures |KeepFirst(list)| <= |list|
  {
    hide Texts;
    if list != [] { KeepFirstShorter(list[..|list| - 1]); }
  }

  lemma PrependedWithin(hash: HashFn, entries: seq<HistoryEntry>, e: HistoryEntry, limit: nat, now: Clock)
    requires 1 <= limit
    ensures |Prepended(hash, entries, e, limit, now)| <= AtLeastTwo(limit)
  {
    hide NormalizeEntry, Others;
  }

  lemma SavedWithin(st: Stored, entries: seq<HistoryEntry>, saves: bool, L: nat)
    requires BothWithin(st, L) && |entries| <= AtLeastTwo(L)
    ensures BothWithin(Saved(st.(entries := entries), saves).0, L)
  {
  }

  lemma AppendWithin(hash: HashFn, st: Stored, a: Activity, cfg: Config, now: Clock, saves: bool, L: nat)
    requires BothWithin(st, L) && (KeepsBodies(cfg) ==> LimitOf(cfg) <= L)
    ensures BothWithin(Appended(hash, st, a, cfg, now, saves).0, L)
  {
    hide Normalized, Prepended, LimitFor, BothWithin, Saved, CanPersist;
    if KeepsBodies(cfg) {
      PrependedWithin(hash, st.entries, FromActivity(a), LimitOf(cfg), now);
      SavedWithin(st, Prepended(hash, st.entries, FromActivity(a), LimitOf(cfg), now), saves, L);
    }
  }

  lemma PromoteWithin(hash: HashFn, st: Stored, e: HistoryEntry, cfg: Config, now: Clock, later: Clock, saves: bool,
                      L: nat)
    requires BothWithin(st, L) && (KeepsBodies(cfg) ==> LimitOf(cfg) <= L)
    ensures BothWithin(Promoted(hash, st, e, cfg, now, later, saves).0, L)
  {
    hide Normalized, Prepended, LimitFor, BothWithin, Saved;
    if KeepsBodies(cfg) {
      var restored := e.(id := RestoreID(now), timestampMS := now.millis);
      PrependedWithin(hash, st.entries, restored, LimitOf(cfg), later);
      SavedWithin(st, Prepended(hash, st.entries, restored, LimitOf(cfg), later), saves, L);
    }
  }

  lemma StepWithin(hash: HashFn, st: Stored, op: Op, L: nat)
    requires BothWithin(st, L) && Within(op, L)
    ensures BothWithin(StepStore(hash, st, op).0, L)
  {
    hide Normalized, Appended, Promoted, KeepFirst, LimitFor;
    match op
    case AppendOp(a, cfg, now, saves) => AppendWithin(hash, st, a, cfg, now, saves, L);
    case PromoteOp(e, cfg, now, later, saves) => PromoteWithin(hash, st, e, cfg, now, later, saves, L);
    case ReopenOp(_) => if st.file.Some? { KeepFirstShorter(st.file.value); }
    case _ =>
  }

  /** In every run, memory and file hold no more than the largest limit used, or two. */
  lemma {:induction false} StoredBounded(hash: HashFn, ops: seq<Op>, L: nat)
    requires forall k :: 0 <= k < |ops| ==> Within(ops[k], L)
    ensures BothWithin(RunAll(hash, EMPTY_RUN, ops).st, L)
  {
    hide StepStore, BothWithin, Within;
    if ops == [] {
      NothingWithin(L);
    } else {
      StoredBounded(hash, ops[..|ops| - 1], L);
      StepWithin(hash, RunAll(hash, EMPTY_RUN, ops[..|ops| - 1]).st, ops[|ops| - 1], L);
    }
  }

  lemma NothingWithin(L: nat)
    ensures BothWithin(Stored([], None), L)
  {
  }

  // ---------------------------------------------------------------- turning body history off

  lemma OffStep(hash: HashFn, r: Run, cfg: Config, saves: bool)
    requires Normalized(cfg).Some? && !KeepsBodies(cfg)
    ensures var st := StepRun(hash, r, ApplyOp(cfg, saves)).st;
            && st.entries == []
            && st.file == if saves && r.st.entries != [] then Some([]) else r.st.file
  {
    hide Normalized;
  }

  /**
   Retention switched away from bodies, in any reachable state: memory is empty at once, but a reopened
   store is empty exactly when there was something to clear and the save succeeded, or the file held
   nothing. Otherwise it shows all the texts the file held.
   */
  lemma SwitchedOffExactly(hash: HashFn, ops: seq<Op>, cfg: Config, saves: bool, now: Clock)
    requires Normalized(cfg).Some? && !KeepsBodies(cfg)
    ensures var r := RunAll(hash, EMPTY_RUN, ops);
            var off := StepRun(hash, r, ApplyOp(cfg, saves));
            var again := StepRun(hash, off, ReopenOp(now)).st.entries;
            && off.st.entries == []
            && (again == [] <==> FileTexts(r.st) == [] || (saves && r.st.entries != []))
            && (again != [] ==> Texts(again) == FileTexts(r.st))
  {
    hide RunAll, StepRun, Follows, NormalizeEntry, KeepsBodies, Normalized, KeepFirst;
    EmptyOk();
    RunAllOk(hash, EMPTY_RUN, ops);
    var r := RunAll(hash, EMPTY_RUN, ops);
    OffStep(hash, r, cfg, saves);
    var off := StepRun(hash, r, ApplyOp(cfg, saves));
    StepOk(hash, r, ApplyOp(cfg, saves));
    FollowsMeans(FileTexts(off.st), off.saved.log, off.saved.low);
    ReopenStep(hash, off, now);
    ReloadedTexts(hash, off.st, now);
  }

  lemma ReopenStep(hash: HashFn, r: Run, now: Clock)
    ensures StepRun(hash, r, ReopenOp(now)).st == Reloaded(hash, r.st, now)
  {
    hide Reloaded;
  }

  lemma RetentionNone()
    ensures var off := DefaultConfig().(historyRetention := RETENTION_NONE);
            Normalized(off).Some? && !KeepsBodies(off) && KeepsBodies(DefaultConfig())
  {
    var off := DefaultConfig().(historyRetention := RETENTION_NONE);
    hide Normalized, DefaultConfig;
    ConfigStore.DefaultIsNormal();
    NormalizeFixedPoints(DefaultConfig());
    NormalizeFixedPoints(off);
    assert RETENTION_NONE[0] != RETENTION_BODY[0];
    DefaultKeepsBodies();
  }

  lemma DefaultKeepsBodies()
    ensures DefaultConfig().historyRetention == RETENTION_BODY
  {
  }

  /** Reachable: a saved text, a retention change whose save fails, a restart, and the text is back. */
  lemma ClearedTextComesBack(hash: HashFn, a: Activity, now: Clock)
    requires a.text != "" && CanPersist(a.kind)
    ensures var off := ApplyOp(DefaultConfig().(historyRetention := RETENTION_NONE), false);
            var r := RunAll(hash, EMPTY_RUN, [AppendOp(a, DefaultConfig(), now, true)]);
            && StepRun(hash, r, off).st.entries == []
            && Texts(StepRun(hash, StepRun(hash, r, off), ReopenOp(now)).st.entries) == [a.text]
  {
    hide Normalized, DefaultConfig, Texts, StepRun, RunAll, CanPersist;
    RetentionNone();
    var ops := [AppendOp(a, DefaultConfig(), now, true)];
    AppendOnce(hash, a, now);
    SwitchedOffExactly(hash, ops, DefaultConfig().(historyRetention := RETENTION_NONE), false, now);
  }

  lemma AppendOnce(hash: HashFn, a: Activity, now: Clock)
    requires a.text != "" && CanPersist(a.kind) && KeepsBodies(DefaultConfig())
    ensures FileTexts(RunAll(hash, EMPTY_RUN, [AppendOp(a, DefaultConfig(), now, true)]).st) == [a.text]
  {
    hide Normalized, DefaultConfig, Prepended, CanPersist, Texts, LimitFor;
    var ops := [AppendOp(a, DefaultConfig(), now, true)];
    assert ops[..0] == [] && RunAll(hash, EMPTY_RUN, ops[..0]) == EMPTY_RUN;
    AloneTexts(hash, FromActivity(a), LimitOf(DefaultConfig()), now);
  }

  lemma AloneTexts(hash: HashFn, e: HistoryEntry, limit: nat, now: Clock)
    ensures Texts(Prepended(hash, [], e, limit, now)) == [e.text]
  {
    hide NormalizeEntry, Others;
    NoOthers(e.text);
  }

  lemma NoOthers(text: string)
    ensures Others([], text) == []
  {
  }

  // ---------------------------------------------------------------- reading back what was saved

  ghost predicate AllNormal(entries: seq<HistoryEntry>) {
    forall i :: 0 <= i < |entries| ==> NormalEntry(entries[i])
  }

  ghost predicate StoreNormal(st: Stored) {
    AllNormal(st.entries) && (st.file.Some? ==> AllNormal(st.file.value))
  }

  predicate PositiveClock(op: Op) {
    match op
    case AppendOp(_, _, now, _) => 0 < now.millis
    case PromoteOp(_, _, _, later, _) => 0 < later.millis
    case ReopenOp(now) => 0 < now.millis
    case _ => true
  }

  lemma {:induction false} OthersNormal(entries: seq<HistoryEntry>, text: string)
    requires AllNormal(entries)
    ensures AllNormal(Others(entries, text))
  {
    hide NormalEntry;
    if entries != [] { OthersNormal(entries[..|entries| - 1], text); }
  }

  lemma PrependedNormal(hash: HashFn, entries: seq<HistoryEntry>, e: HistoryEntry, limit: nat, now: Clock)
    requires AllNormal(entries) && e.text != "" && 0 < now.millis
    ensures AllNormal(Prepended(hash, entries, e, limit, now))
  {
    hide NormalEntry, NormalizeEntry;
    OthersNormal(entries, e.text);
    NormalizeEntryNormal(hash, e, now);
  }

  lemma NormalStays(hash: HashFn, list: seq<HistoryEntry>, now: Clock)
    requires AllNormal(list)
    ensures NormalizeAll(hash, list, now) == list
  {
    hide NormalEntry, NormalizeEntry;
    forall i | 0 <= i < |list| ensures NormalizeEntry(hash, list[i], now) == list[i] {
      NormalEntriesStay(hash, list[i], now);
    }
  }

  /** Reading back a list that was saved is the identity, under any clock. */
  lemma ReloadIdentity(hash: HashFn, st: Stored, now: Clock)
    requires st.file.Some? && AllNormal(st.file.value) && Dedupe.Distinct(FileTexts(st)) && "" !in FileTexts(st)
    ensures Reloaded(hash, st, now).entries == st.file.value
  {
    hide NormalEntry, NormalizeEntry;
    KeepFirstAll(st.file.value);
    NormalStays(hash, st.file.value, now);
  }

  lemma SavedNormal(st: Stored, entries: seq<HistoryEntry>, saves: bool)
    requires StoreNormal(st) && AllNormal(entries)
    ensures StoreNormal(Saved(st.(entries := entries), saves).0)
  {
    hide NormalEntry;
  }

  lemma AppendNormal(hash: HashFn, st: Stored, a: Activity, cfg: Config, now: Clock, saves: bool)
    requires StoreNormal(st) && 0 < now.millis
    ensures StoreNormal(Appended(hash, st, a, cfg, now, saves).0)
  {
    hide StoreNormal, AllNormal, Prepended, Normalized, Saved;
    if a.text != "" && Normalized(cfg).Some? {
      var limit := LimitOf(cfg);
      NormalParts(st);
      PrependedNormal(hash, st.entries, FromActivity(a), limit, now);
      SavedNormal(st, Prepended(hash, st.entries, FromActivity(a), limit, now), saves);
    }
  }

  lemma PromoteNormal(hash: HashFn, st: Stored, e: HistoryEntry, cfg: Config, now: Clock, later: Clock, saves: bool)
    requires StoreNormal(st) && 0 < later.millis
    ensures StoreNormal(Promoted(hash, st, e, cfg, now, later, saves).0)
  {
    hide StoreNormal, AllNormal, Prepended, Normalized, Saved;
    if e.text != "" && Normalized(cfg).Some? {
      var limit, restored := LimitOf(cfg), e.(id := RestoreID(now), timestampMS := now.millis);
      NormalParts(st);
      PrependedNormal(hash, st.entries, restored, limit, later);
      SavedNormal(st, Prepended(hash, st.entries, restored, limit, later), saves);
    }
  }

  lemma NormalParts(st: Stored)
    requires StoreNormal(st)
    ensures AllNormal(st.entries)
  {
  }

  lemma StepNormal(hash: HashFn, r: Run, op: Op)
    requires RunOk(r) && StoreNormal(r.st) && PositiveClock(op)
    ensures StoreNormal(StepRun(hash, r, op).st)
  {
    hide NormalEntry, Appended, Promoted, Normalized, Follows, TouchedBy;
    match op
    case AppendOp(a, cfg, now, saves) => AppendNormal(hash, r.st, a, cfg, now, saves);
    case PromoteOp(e, cfg, now, later, saves) => PromoteNormal(hash, r.st, e, cfg, now, later, saves);
    case ReopenOp(now) =>
      FollowsMeans(FileTexts(r.st), r.saved.log, r.saved.low);
      if r.st.file.Some? { ReloadIdentity(hash, r.st, now); }
    case _ =>
  }

  lemma {:induction false} RunNormal(hash: HashFn, r: Run, ops: seq<Op>)
    requires RunOk(r) && StoreNormal(r.st) && forall k :: 0 <= k < |ops| ==> PositiveClock(ops[k])
    ensures StoreNormal(RunAll(hash, r, ops).st)
  {
    hide RunOk, StoreNormal, StepRun;
    if ops != [] {
      RunAllOk(hash, r, ops[..|ops| - 1]);
      RunNormal(hash, r, ops[..|ops| - 1]);
      StepNormal(hash, RunAll(hash, r, ops[..|ops| - 1]), ops[|ops| - 1]);
    }
  }

  /**
   In every run under positive clocks, reopening the store yields what was last saved, entry for
   entry; so after an operation that saved, a restart changes nothing.
   */
  lemma ReopenYieldsLastSave(hash: HashFn, ops: seq<Op>, now: Clock)
    requires forall k :: 0 <= k < |ops| ==> PositiveClock(ops[k])
    ensures var st := RunAll(hash, EMPTY_RUN, ops).st;
            Reloaded(hash, st, now) == st.(entries := st.file.GetOr([]))
  {
    hide RunAll, Follows, NormalEntry, Texts, NormalizeAll, KeepFirst;
    EmptyOk();
    RunAllOk(hash, EMPTY_RUN, ops);
    RunNormal(hash, EMPTY_RUN, ops);
    var r := RunAll(hash, EMPTY_RUN, ops);
    FollowsMeans(FileTexts(r.st), r.saved.log, r.saved.low);
    if r.st.file.Some? { ReloadIdentity(hash, r.st, now); }
    ReloadKeepsFile(hash, r.st, now);
  }
}
