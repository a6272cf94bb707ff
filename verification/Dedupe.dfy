/**
 The bounded string set behind event de-duplication and loop suppression: a set of live values and
 the list of insertions that decides what is evicted first. `Consume` takes a value out of the set
 only, so the list may keep stale copies of it.
 */
module Dedupe {
  datatype Window = Window(limit: nat, members: set<string>, order: seq<string>) {
    /** What every mix of Add and Consume keeps. */
    ghost predicate Valid() {
      && 1 <= limit
      && |members| <= limit
      && "" !in members
      && forall v :: v in members ==> v in order
    }

    /** What Add alone keeps: the list has no stale copy and no duplicate. */
    ghost predicate Fifo() {
      && Valid()
      && |order| <= limit
      && (forall v :: v in order ==> v in members)
      && Distinct(order)
    }
  }

  function New(limit: int): Window {
    Window(if limit <= 0 then 1 else limit, {}, [])
  }

  /** Pop the oldest insertions until the set fits. */
  function Evict(limit: nat, members: set<string>, order: seq<string>): (set<string>, seq<string>)
    decreases |order|
  {
    if |members| > limit && order != [] then
      Evict(limit, members - {order[0]}, order[1..])
    else
      (members, order)
  }

  /** The copies of live values, in order. */
  function Live(order: seq<string>, members: set<string>): seq<string> {
    if order == [] then []
    else
      var n := |order| - 1;
      Live(order[..n], members) + if order[n] in members then [order[n]] else []
  }

  function Trim(w: Window): Window {
    var (members, order) := Evict(w.limit, w.members, w.order);
    Window(w.limit, members, if |order| > w.limit * 2 then Live(order, members) else order)
  }

  function Added(w: Window, value: string): Window {
    if value == "" || value in w.members then w
    else Trim(Window(w.limit, w.members + {value}, w.order + [value]))
  }

  function Consumed(w: Window, value: string): Window {
    w.(members := w.members - {value})
  }

  // ---------------------------------------------------------------- the set in place

  class BoundedStringSet {
    const limit: nat
    var members: set<string>
    var order: seq<string>

    ghost function Model(): Window
      reads this
    {
      Window(limit, members, order)
    }

    constructor (limit: int)
      ensures Model() == New(limit)
    {
      this.limit := if limit <= 0 then 1 else limit;
      members, order := {}, [];
    }

    method Contains(value: string) returns (found: bool)
      ensures found <==> value in members
    {
      found := value in members;
    }

    method Consume(value: string) returns (found: bool)
      modifies this
      ensures found <==> value in old(members)
      ensures Model() == Consumed(old(Model()), value)
    {
      found := Contains(value);
      if found {
        members := members - {value};
      }
    }

    method Add(value: string)
      modifies this
      ensures Model() == Added(old(Model()), value)
    {
      if value == "" || value in members {
        return;
      }
      members := members + {value};
      order := order + [value];
      TrimInPlace();
    }

    method TrimInPlace()
      modifies this
      ensures Model() == Trim(old(Model()))
    {
      while |members| > limit && |order| > 0
        invariant Evict(limit, members, order) == old(Evict(limit, members, order))
        decreases |order|
      {
        var oldest := order[0];
        order := order[1..];
        members := members - {oldest};
      }
      if |order| > limit * 2 {
        var backing := new string[|order|](i requires 0 <= i < |order| reads this => order[i]);
        assert backing[..] == order;
        var kept := CompactInPlace(backing, members);
        order := backing[..kept];
      }
    }
  }

  /** The compaction writes the kept values over the very storage it is still reading. */
  method CompactInPlace(a: array<string>, members: set<string>) returns (kept: nat)
    modifies a
    ensures kept <= a.Length
    ensures a[..kept] == Live(old(a[..]), members)
  {
    kept := 0;
    for i := 0 to a.Length
      invariant kept <= i
      invariant a[..kept] == Live(old(a[..])[..i], members)
      invariant forall k :: i <= k < a.Length ==> a[k] == old(a[..])[k]
    {
      assert old(a[..])[..i + 1][..i] == old(a[..])[..i];
      if a[i] in members {
        a[kept] := a[i];
        kept := kept + 1;
      }
    }
    assert old(a[..])[..a.Length] == old(a[..]);
  }

  // ---------------------------------------------------------------- any mix of Add and Consume

  /** The first listed value that is live: the one eviction will reach. */
  function OldestLive(order: seq<string>, live: set<string>): (v: string)
    requires exists x :: x in order && x in live
    ensures v in order && v in live
  {
    if order[0] in live then order[0] else OldestLive(order[1..], live)
  }

  lemma {:induction false} LiveMembership(order: seq<string>, members: set<string>, v: string)
    ensures v in Live(order, members) <==> v in order && v in members
  {
    if order != [] {
      var n := |order| - 1;
      LiveMembership(order[..n], members, v);
      assert order == order[..n] + [order[n]];
    }
  }

  lemma {:induction false} EvictOldest(limit: nat, live: set<string>, order: seq<string>)
    requires |live| == limit + 1
    requires forall v :: v in live ==> v in order
    ensures exists x :: x in order && x in live
    ensures var (members, rest) := Evict(limit, live, order);
            && members == live - {OldestLive(order, live)}
            && (exists k :: 0 < k <= |order| && rest == order[k..])
            && (forall v :: v in members ==> v in rest)
  {
    assert live != {};
    var x :| x in live;
    assert x in order;
    assert order == [order[0]] + order[1..];
    if order[0] in live {
      assert |live - {order[0]}| == limit;
    } else {
      assert live - {order[0]} == live;
      forall v | v in live ensures v in order[1..] {
        assert v != order[0];
      }
      EvictOldest(limit, live, order[1..]);
      var k :| 0 < k <= |order[1..]| && Evict(limit, live, order[1..]).1 == order[1..][k..];
      assert order[1..][k..] == order[k + 1..];
    }
  }

  /** Add, exactly: below the limit it only inserts; at the limit it also drops the oldest live value. */
  lemma {:induction false} AddExact(w: Window, v: string)
    requires w.Valid() && v != "" && v !in w.members
    ensures Added(w, v).Valid() && Added(w, v).limit == w.limit
    ensures |w.members| < w.limit ==> Added(w, v).members == w.members + {v}
    ensures |w.members| == w.limit ==>
              exists x :: x in w.order + [v] && x in w.members + {v}
    ensures |w.members| == w.limit ==>
              Added(w, v).members == w.members + {v} - {OldestLive(w.order + [v], w.members + {v})}
  {
    var live, order := w.members + {v}, w.order + [v];
    assert v == order[|w.order|] && v in order;
    forall x | x in live ensures x in order {
      if x != v {
        var i :| 0 <= i < |w.order| && w.order[i] == x;
        assert order[i] == x;
      }
    }
    assert |live| == |w.members| + 1;
    if |w.members| == w.limit {
      EvictOldest(w.limit, live, order);
    }
    var (members, rest) := Evict(w.limit, live, order);
    forall x | x in members ensures x in Live(rest, members) {
      LiveMembership(rest, members, x);
    }
  }

  lemma {:induction false} AddValid(w: Window, v: string)
    requires w.Valid()
    ensures Added(w, v).Valid() && Added(w, v).limit == w.limit
    ensures Added(w, v).members <= w.members + {v}
    ensures |w.members - Added(w, v).members| <= 1
    ensures v != "" && |w.members| < w.limit ==> Added(w, v).members == w.members + {v}
  {
    if v != "" && v !in w.members {
      AddExact(w, v);
      if |w.members| == w.limit {
        var x := OldestLive(w.order + [v], w.members + {v});
        assert w.members - Added(w, v).members <= {x};
        Subset(w.members - Added(w, v).members, {x});
      } else {
        assert w.members - Added(w, v).members == {};
      }
    } else {
      assert w.members - Added(w, v).members == {};
    }
  }

  lemma {:induction false} Subset<T>(a: set<T>, b: set<T>)
    requires a <= b
    ensures |a| <= |b|
  {
    assert b == a + (b - a);
  }

  /** A stale copy of v stands before every live value. */
  ghost predicate StaleCopyLeads(w: Window, v: string) {
    exists i :: 0 <= i < |w.order| && w.order[i] == v && forall k :: 0 <= k < i ==> w.order[k] !in w.members
  }

  lemma {:induction false} OldestLiveIs(order: seq<string>, live: set<string>, v: string)
    requires v in order && v in live
    ensures OldestLive(order, live) == v <==>
              exists i :: 0 <= i < |order| && order[i] == v && forall k :: 0 <= k < i ==> order[k] !in live - {v}
  {
    if order[0] !in live {
      OldestLiveIs(order[1..], live, v);
      if i :| 0 <= i < |order| && order[i] == v && forall k :: 0 <= k < i ==> order[k] !in live - {v} {
        assert order[1..][i - 1] == v;
        forall k | 0 <= k < i - 1 ensures order[1..][k] !in live - {v} {
          assert order[1..][k] == order[k + 1];
        }
      }
      if j :| 0 <= j < |order[1..]| && order[1..][j] == v && forall k :: 0 <= k < j ==> order[1..][k] !in live - {v} {
        assert order[j + 1] == v;
        forall k | 0 <= k < j + 1 ensures order[k] !in live - {v} {
          if k > 0 { assert order[k] == order[1..][k - 1]; }
        }
      }
    } else if order[0] == v {
      assert order[0] == v;
    } else {
      assert order[0] in live - {v};
    }
  }

  /** Add drops the very value it was given exactly when the set is full and a stale copy leads. */
  lemma {:induction false} AddRetainsExactly(w: Window, v: string)
    requires w.Valid() && v != ""
    ensures v !in Added(w, v).members <==>
              v !in w.members && |w.members| == w.limit && StaleCopyLeads(w, v)
  {
    if v !in w.members {
      AddExact(w, v);
      if |w.members| == w.limit {
        var order := w.order + [v];
        var live := w.members + {v};
        assert v == order[|w.order|];
        OldestLiveIs(order, live, v);
        assert live - {v} == w.members;
        assert w.members != {};
        var x :| x in w.members;
        var at :| 0 <= at < |w.order| && w.order[at] == x;
        assert order[at] in live - {v};
        if i :| 0 <= i < |order| && order[i] == v && forall k :: 0 <= k < i ==> order[k] !in live - {v} {
          assert i < |w.order|;
          assert w.order[i] == v;
          assert forall k :: 0 <= k < i ==> w.order[k] == order[k];
          assert StaleCopyLeads(w, v);
        }
        if StaleCopyLeads(w, v) {
          var i :| 0 <= i < |w.order| && w.order[i] == v && forall k :: 0 <= k < i ==> w.order[k] !in w.members;
          assert order[i] == v && forall k :: 0 <= k < i ==> order[k] == w.order[k];
        }
      }
    }
  }

  datatype Op = AddOp(value: string) | ConsumeOp(value: string)

  function Apply(w: Window, op: Op): Window {
    match op
    case AddOp(v) => Added(w, v)
    case ConsumeOp(v) => Consumed(w, v)
  }

  function ApplyAll(w: Window, ops: seq<Op>): Window {
    if ops == [] then w else Apply(ApplyAll(w, ops[..|ops| - 1]), ops[|ops| - 1])
  }

  lemma ConsumeValid(w: Window, v: string)
    requires w.Valid()
    ensures Consumed(w, v).Valid()
  {
    Subset(w.members - {v}, w.members);
  }

  /** Every reachable set is bounded and fully listed. */
  lemma {:induction false} ReachableValid(limit: int, ops: seq<Op>)
    ensures ApplyAll(New(limit), ops).Valid()
    ensures ApplyAll(New(limit), ops).limit == New(limit).limit
  {
    if ops != [] {
      var w := ApplyAll(New(limit), ops[..|ops| - 1]);
      ReachableValid(limit, ops[..|ops| - 1]);
      match ops[|ops| - 1]
      case AddOp(v) => AddValid(w, v);
      case ConsumeOp(v) => ConsumeValid(w, v);
    }
  }

  /** Quirk, reachable: a full set may evict the value being added, because a stale copy leads. */
  lemma AddMayLoseItsArgument()
    ensures var w := ApplyAll(New(1), [AddOp("a"), ConsumeOp("a"), AddOp("b")]);
            "a" !in Added(w, "a").members && "b" in Added(w, "a").members
  {
    var ops := [AddOp("a"), ConsumeOp("a"), AddOp("b")];
    var w := ApplyAll(New(1), ops);
    var w1 := Window(1, {"a"}, ["a"]);
    assert ops[..2][..1] == [AddOp("a")] && ops[..2] == [AddOp("a"), ConsumeOp("a")];
    assert ApplyAll(New(1), ops[..2][..1][..0]) == New(1);
    assert ApplyAll(New(1), ops[..2][..1]) == w1;
    assert ApplyAll(New(1), ops[..2]) == Window(1, {}, ["a"]);
    assert w == Window(1, {"b"}, ["a", "b"]);
    assert w.order[0] == "a";
    assert StaleCopyLeads(w, "a");
    AddRetainsExactly(w, "a");
    AddExact(w, "a");
    assert w.members + {"a"} - {"a"} == {"b"};
  }

  function Churn(v: string, n: nat): seq<Op> {
    if n == 0 then [] else Churn(v, n - 1) + [AddOp(v), ConsumeOp(v)]
  }

  function Copies(v: string, n: nat): (s: seq<string>)
    ensures |s| == n && forall i :: 0 <= i < n ==> s[i] == v
  {
    seq(n, _ => v)
  }

  lemma {:induction false} LiveAll(order: seq<string>, members: set<string>)
    requires forall v :: v in order ==> v in members
    ensures Live(order, members) == order
  {
    if order != [] {
      var n := |order| - 1;
      LiveAll(order[..n], members);
      assert order == order[..n] + [order[n]];
    }
  }

  /** Quirk: adding and consuming one value over and over grows the list without bound. */
  lemma {:induction false} ChurnGrows(limit: int, v: string, n: nat)
    requires v != ""
    ensures ApplyAll(New(limit), Churn(v, n)) == Window(New(limit).limit, {}, Copies(v, n))
  {
    if n > 0 {
      var ops := Churn(v, n);
      var before := Churn(v, n - 1);
      ChurnGrows(limit, v, n - 1);
      assert ops[..|ops| - 1] == before + [AddOp(v)];
      assert (before + [AddOp(v)])[..|before|] == before;
      var w := ApplyAll(New(limit), before);
      var grown := Copies(v, n - 1) + [v];
      assert grown == Copies(v, n);
      LiveAll(grown, {v});
      assert w.members + {v} == {v};
      assert Added(w, v) == Window(w.limit, {v}, grown);
      assert Consumed(Added(w, v), v).members == {};
    }
  }

  // ---------------------------------------------------------------- how long the list gets

  lemma {:induction false} LiveConcat(a: seq<string>, b: seq<string>, members: set<string>)
    ensures Live(a + b, members) == Live(a, members) + Live(b, members)
  {
    if b == [] {
      assert a + b == a && Live(a, members) + [] == Live(a, members);
    } else {
      var n := |b| - 1;
      assert (a + b)[..|a + b| - 1] == a + b[..n];
      LiveConcat(a, b[..n], members);
    }
  }

  lemma {:induction false} LiveShorter(order: seq<string>, members: set<string>)
    ensures |Live(order, members)| <= |order|
  {
    if order != [] { LiveShorter(order[..|order| - 1], members); }
  }

  lemma {:induction false} EvictSuffix(limit: nat, live: set<string>, order: seq<string>) returns (k: nat)
    ensures k <= |order| && Evict(limit, live, order).1 == order[k..] && Evict(limit, live, order).0 <= live
    decreases |order|
  {
    if |live| > limit && order != [] {
      k := EvictSuffix(limit, live - {order[0]}, order[1..]);
      assert order[1..][k..] == order[k + 1..];
      k := k + 1;
    } else {
      k := 0;
    }
  }

  lemma LiveSkips(order: seq<string>, members: set<string>)
    requires order != [] && order[0] !in members
    ensures Live(order, members) == Live(order[1..], members)
  {
    assert [order[0]][..0] == [] && order == [order[0]] + order[1..];
    LiveConcat([order[0]], order[1..], members);
  }

  /** Eviction drops no copy of a value that stays. */
  lemma {:induction false} EvictKeepsLive(limit: nat, live: set<string>, order: seq<string>)
    ensures var (members, rest) := Evict(limit, live, order); Live(rest, members) == Live(order, members)
    decreases |order|
  {
    hide Live;
    if |live| > limit && order != [] {
      var k := EvictSuffix(limit, live - {order[0]}, order[1..]);
      EvictKeepsLive(limit, live - {order[0]}, order[1..]);
      LiveSkips(order, Evict(limit, live - {order[0]}, order[1..]).0);
    }
  }

  /** The members after adding a fresh value, said of the state before. */
  function Survivors(w: Window, v: string): set<string>
    requires w.Valid() && v != "" && v !in w.members
  {
    if |w.members| < w.limit then w.members + {v}
    else
      assert (w.order + [v])[|w.order|] == v;
      w.members + {v} - {OldestLive(w.order + [v], w.members + {v})}
  }

  /**
   Adding a fresh value leaves a list longer than twice the limit exactly when that many listed copies
   are of values that stay: stale copies of a value come to life when it is added again.
   */
  lemma GrowsExactly(w: Window, v: string)
    requires w.Valid() && v != "" && v !in w.members
    ensures Added(w, v).members == Survivors(w, v)
    ensures |Added(w, v).order| > 2 * w.limit <==> |Live(w.order + [v], Survivors(w, v))| > 2 * w.limit
  {
    AddExact(w, v);
    EvictKeepsLive(w.limit, w.members + {v}, w.order + [v]);
    var (members, rest) := Evict(w.limit, w.members + {v}, w.order + [v]);
    LiveShorter(rest, members);
  }

  lemma {:induction false} LiveDistinct(order: seq<string>, members: set<string>)
    requires Distinct(order)
    ensures Distinct(Live(order, members)) && |Live(order, members)| <= |members|
  {
    if order != [] {
      var n := |order| - 1;
      var last := order[n];
      LiveDistinct(order[..n], members - {last});
      LiveOthers(order[..n], members, last);
      LiveMembership(order[..n], members, last);
      assert last !in order[..n];
    }
  }

  lemma {:induction false} LiveOthers(order: seq<string>, members: set<string>, v: string)
    requires v !in order
    ensures Live(order, members) == Live(order, members - {v})
  {
    if order != [] {
      var n := |order| - 1;
      assert order == order[..n] + [order[n]];
      LiveOthers(order[..n], members, v);
    }
  }

  /** No operation adds a value that is not a member but still has a copy in the list. */
  predicate NoStaleReadd(limit: int, ops: seq<Op>) {
    forall k :: 0 <= k < |ops| && ops[k].AddOp? ==>
      var w := ApplyAll(New(limit), ops[..k]);
      ops[k].value in w.members || ops[k].value !in w.order
  }

  lemma SuffixDistinct(order: seq<string>, k: nat)
    requires Distinct(order) && k <= |order|
    ensures Distinct(order[k..])
  {
  }

  lemma AppendFresh(order: seq<string>, v: string)
    requires Distinct(order) && v !in order
    ensures Distinct(order + [v])
  {
  }

  lemma AddKeepsBound(w: Window, v: string)
    requires w.Valid() && Distinct(w.order) && |w.order| <= 2 * w.limit && (v in w.members || v !in w.order)
    ensures Distinct(Added(w, v).order) && |Added(w, v).order| <= 2 * w.limit
  {
    hide Distinct, Live, Evict;
    if v != "" && v !in w.members {
      AppendFresh(w.order, v);
      AddExact(w, v);
      var k := EvictSuffix(w.limit, w.members + {v}, w.order + [v]);
      SuffixDistinct(w.order + [v], k);
      var (members, rest) := Evict(w.limit, w.members + {v}, w.order + [v]);
      LiveDistinct(rest, members);
    }
  }

  /** Without such an operation the list never outgrows twice the limit. */
  lemma {:induction false} ListBounded(limit: int, ops: seq<Op>)
    requires NoStaleReadd(limit, ops)
    ensures var w := ApplyAll(New(limit), ops); Distinct(w.order) && |w.order| <= 2 * w.limit
  {
    if ops != [] {
      var n := |ops| - 1;
      assert forall k :: 0 <= k < n ==> ops[..n][..k] == ops[..k];
      ListBounded(limit, ops[..n]);
      ReachableValid(limit, ops[..n]);
      if ops[n].AddOp? { AddKeepsBound(ApplyAll(New(limit), ops[..n]), ops[n].value); }
    }
  }

  // ---------------------------------------------------------------- Add alone

  function Last<T>(s: seq<T>, n: nat): (r: seq<T>)
    ensures |r| == if |s| <= n then |s| else n
  {
    if |s| <= n then s else s[|s| - n..]
  }

  function Elements(s: seq<string>): set<string> {
    set v | v in s
  }

  ghost predicate Distinct(s: seq<string>) {
    forall i, j :: 0 <= i < j < |s| ==> s[i] != s[j]
  }

  lemma FifoElements(w: Window)
    requires w.Fifo()
    ensures w.members == Elements(w.order) && |w.members| == |w.order|
  {
    assert w.members == Elements(w.order);
    DistinctSize(w.order);
  }

  lemma AddFifoBelow(w: Window, v: string)
    requires w.Fifo() && v != "" && v !in w.members && |w.order| < w.limit
    ensures Added(w, v) == Window(w.limit, w.members + {v}, w.order + [v])
    ensures Added(w, v).Fifo()
  {
    FifoElements(w);
    AddExact(w, v);
    forall x | x in w.order + [v] ensures x in w.members + {v} {
      if x != v { assert x in w.order; }
    }
  }

  lemma AddFifoFull(w: Window, v: string)
    requires w.Fifo() && v != "" && v !in w.members && |w.order| == w.limit
    ensures Added(w, v) == Window(w.limit, w.members + {v} - {w.order[0]}, w.order[1..] + [v])
    ensures Added(w, v).Fifo()
  {
    FifoElements(w);
    AddExact(w, v);
    var live, order := w.members + {v}, w.order + [v];
    assert order[0] == w.order[0] && order[0] in live;
    assert |live - {order[0]}| == w.limit;
    assert Evict(w.limit, live, order) == (live - {order[0]}, order[1..]);
    assert order[1..] == w.order[1..] + [v];
    var next := Added(w, v);
    forall x | x in next.order ensures x in next.members {
      var i :| 0 <= i < |next.order| && next.order[i] == x;
      if i + 1 < |w.order| {
        assert x == w.order[i + 1] && x in w.order && x != w.order[0];
      }
    }
  }

  lemma AddFifo(w: Window, v: string)
    requires w.Fifo() && v != "" && v !in w.members
    ensures Added(w, v).Fifo() && Added(w, v).limit == w.limit
    ensures Added(w, v).order == Last(w.order + [v], w.limit)
    ensures v in Added(w, v).members
    ensures Added(w, v).members == w.members + {v} - (if |w.order| == w.limit then {w.order[0]} else {})
  {
    if |w.order| < w.limit {
      AddFifoBelow(w, v);
    } else {
      AddFifoFull(w, v);
      assert (w.order + [v])[1..] == w.order[1..] + [v];
      assert w.order[0] in w.order;
    }
  }

  lemma {:induction false} DistinctSize(s: seq<string>)
    requires Distinct(s)
    ensures |Elements(s)| == |s|
  {
    if s == [] {
      assert Elements(s) == {};
    } else {
      var n := |s| - 1;
      DistinctSize(s[..n]);
      assert s == s[..n] + [s[n]];
      assert Elements(s) == Elements(s[..n]) + {s[n]};
      assert s[n] !in s[..n];
    }
  }

  function AddAll(w: Window, values: seq<string>): Window {
    if values == [] then w else Added(AddAll(w, values[..|values| - 1]), values[|values| - 1])
  }

  /**
   The reference for de-duplication, with no set and no eviction: a value is fresh when it is not
   among the last `limit` fresh ones.
   */
  function FreshLog(limit: nat, values: seq<string>): seq<string> {
    if values == [] then []
    else
      var log := FreshLog(limit, values[..|values| - 1]);
      var v := values[|values| - 1];
      if v == "" || v in Last(log, limit) then log else log + [v]
  }

  lemma LastAppend<T>(log: seq<T>, v: T, limit: nat)
    requires 1 <= limit
    ensures Last(Last(log, limit) + [v], limit) == Last(log + [v], limit)
  {
  }

  /** The set holds exactly the last `limit` fresh insertions, listed in order. */
  lemma {:induction false} WindowExact(limit: nat, values: seq<string>)
    requires 1 <= limit
    ensures AddAll(New(limit), values).Fifo()
    ensures AddAll(New(limit), values).limit == limit
    ensures AddAll(New(limit), values).order == Last(FreshLog(limit, values), limit)
    ensures AddAll(New(limit), values).members == Elements(Last(FreshLog(limit, values), limit))
  {
    if values != [] {
      var before := values[..|values| - 1];
      var v := values[|values| - 1];
      WindowExact(limit, before);
      var w := AddAll(New(limit), before);
      var log := FreshLog(limit, before);
      assert v in w.members <==> v in Last(log, limit);
      if v != "" && v !in w.members {
        AddFifo(w, v);
        LastAppend(log, v, limit);
      }
    }
    FifoElements(AddAll(New(limit), values));
  }

  /** A fresh insertion is remembered through at least limit - 1 later fresh ones. */
  lemma {:induction false} RememberedForLimit(limit: nat, values: seq<string>, i: nat)
    requires 1 <= limit && i < |FreshLog(limit, values)|
    ensures |FreshLog(limit, values)| - limit <= i ==> FreshLog(limit, values)[i] in AddAll(New(limit), values).members
  {
    hide FreshLog, AddAll;
    WindowExact(limit, values);
    var log := FreshLog(limit, values);
    var recent := Last(log, limit);
    if |log| - limit <= i {
      assert recent[i - (|log| - |recent|)] == log[i];
    }
  }
}
