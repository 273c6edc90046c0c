/** Promote-order confluence: a volume with n snapshots, each with one clone,
    ends in the same graph whatever order its clones are promoted in. */
module Confluence {
  import opened Options
  import opened Pool
  import opened Seqs

  /** `fan` lists the n clones and then the volume; `shorts` the volume's
      snapshots, oldest first. Clone i is the only clone of snapshot i. */
  ghost predicate Fan(ds: Datasets, fan: seq<Path>, shorts: seq<Short>) {
    && |fan| == |shorts| + 1 && Distinct(fan) && Distinct(shorts)
    && (forall k :: 0 <= k < |fan| ==> fan[k] in ds)
    && (forall s :: s in ds[fan[|shorts|]].snaps <==> s in shorts)
    && (forall i, j :: 0 <= i < j < |shorts| ==>
        ds[fan[|shorts|]].snaps[shorts[i]].txg < ds[fan[|shorts|]].snaps[shorts[j]].txg)
    && (forall i :: 0 <= i < |shorts| ==>
        ds[fan[i]].snaps == map[] && ds[fan[i]].origin == Some(SnapRef(fan[|shorts|], shorts[i])))
    && (forall m :: m in ds && (m !in fan || m == fan[|shorts|]) && ds[m].origin.Some? ==>
        ds[m].origin.value.ds !in fan)
  }

  ghost function Index(shorts: seq<Short>, s: Short): int
    requires s in shorts
    ensures 0 <= Index(shorts, s) < |shorts| && shorts[Index(shorts, s)] == s
  {
    var j :| 0 <= j < |shorts| && shorts[j] == s; j
  }

  // ------------------------------------------- a promote on indices of the fan

  /** A graph over the fan in numbers: snapshot j sits on fan[hold[j]], and fan[k]
      is a clone of snapshot cloneOf[k] (-1: of what the volume was a clone of). */
  datatype Layout = Layout(hold: seq<int>, cloneOf: seq<int>)

  ghost predicate Shaped(l: Layout, n: int) {
    && |l.hold| == n && |l.cloneOf| == n + 1
    && (forall j :: 0 <= j < n ==> 0 <= l.hold[j] <= n)
    && (forall k :: 0 <= k <= n ==> -1 <= l.cloneOf[k] < n)
  }

  /** Clone i, still a clone of snapshot i, is promoted. */
  ghost function Step(l: Layout, i: int): Layout
    requires Shaped(l, |l.hold|) && 0 <= i < |l.hold|
  {
    var a := l.hold[i];
    Layout(seq(|l.hold|, j requires 0 <= j < |l.hold| => if l.hold[j] == a && j <= i then i else l.hold[j]),
           l.cloneOf[i := l.cloneOf[a]][a := i])
  }

  ghost function Held(all: map<Short, Snapshot>, shorts: seq<Short>, hold: seq<int>, k: int): map<Short, Snapshot>
    requires |hold| == |shorts| && forall s :: s in all ==> s in shorts
  {
    map s | s in all && hold[Index(shorts, s)] == k :: all[s]
  }

  ghost function Ref(top: Option<SnapRef>, fan: seq<Path>, shorts: seq<Short>, hold: seq<int>, q: int): Option<SnapRef>
    requires |hold| == |shorts| && |fan| == |shorts| + 1 && -1 <= q < |shorts|
    requires forall j :: 0 <= j < |hold| ==> 0 <= hold[j] < |fan|
  {
    if q < 0 then top else Some(SnapRef(fan[hold[q]], shorts[q]))
  }

  /** What dataset `d`, the k-th of the fan, looks like in layout `l`. */
  ghost function Placed(d: Dataset, vol: Dataset, fan: seq<Path>, shorts: seq<Short>, l: Layout, k: int): Dataset
    requires |fan| == |shorts| + 1 && Shaped(l, |shorts|) && 0 <= k < |fan|
    requires forall s :: s in vol.snaps ==> s in shorts
  {
    d.(snaps := Held(vol.snaps, shorts, l.hold, k), origin := Ref(vol.origin, fan, shorts, l.hold, l.cloneOf[k]))
  }

  ghost function Member(ds: Datasets, fan: seq<Path>, shorts: seq<Short>, l: Layout, k: int): Dataset
    requires Fan(ds, fan, shorts) && Shaped(l, |shorts|) && 0 <= k < |fan|
  {
    Placed(ds[fan[k]], ds[fan[|shorts|]], fan, shorts, l, k)
  }

  ghost predicate LaidOut(ds: Datasets, fan: seq<Path>, shorts: seq<Short>, l: Layout, ds': Datasets)
    requires Fan(ds, fan, shorts) && Shaped(l, |shorts|)
  {
    && ds'.Keys == ds.Keys
    && (forall m :: m in ds && m !in fan ==> ds'[m] == ds[m])
    && (forall k :: 0 <= k < |fan| ==> ds'[fan[k]] == Member(ds, fan, shorts, l, k))
  }

  /** Clone i has not been promoted and its snapshot is on another dataset. */
  ghost predicate Promotable(l: Layout, n: int, i: int) {
    && Shaped(l, n) && 0 <= i < n && l.cloneOf[i] == i && l.hold[i] != i
    && (forall j :: 0 <= j < n ==> l.hold[j] != i)
    && (l.cloneOf[l.hold[i]] >= 0 ==> l.hold[l.cloneOf[l.hold[i]]] != l.hold[i])
  }

  lemma OlderMeansEarlier(all: map<Short, Snapshot>, shorts: seq<Short>, i: int)
    requires (forall s :: s in all <==> s in shorts) && 0 <= i < |shorts|
    requires forall i, j :: 0 <= i < j < |shorts| ==> all[shorts[i]].txg < all[shorts[j]].txg
    ensures forall s :: s in all ==> (all[s].txg <= all[shorts[i]].txg <==> Index(shorts, s) <= i)
  {
  }

  ghost function MovedBy(all: map<Short, Snapshot>, shorts: seq<Short>, hold: seq<int>, i: int): map<Short, Snapshot>
    requires |hold| == |shorts| && 0 <= i < |hold| && forall s :: s in all ==> s in shorts
  {
    map s | s in all && hold[Index(shorts, s)] == hold[i] && Index(shorts, s) <= i :: all[s]
  }

  /** The snapshots on the holder of snapshot i that are not newer than it. */
  lemma OlderHeld(all: map<Short, Snapshot>, shorts: seq<Short>, hold: seq<int>, i: int)
    requires |hold| == |shorts| && (forall s :: s in all <==> s in shorts) && 0 <= i < |shorts| && Distinct(shorts)
    requires forall i, j :: 0 <= i < j < |shorts| ==> all[shorts[i]].txg < all[shorts[j]].txg
    ensures var p := Held(all, shorts, hold, hold[i]);
      shorts[i] in p && p[shorts[i]] == all[shorts[i]]
      && (map s | s in p && p[s].txg <= p[shorts[i]].txg :: p[s]) == MovedBy(all, shorts, hold, i)
  {
    assert Index(shorts, shorts[i]) == i;
    OlderMeansEarlier(all, shorts, i);
  }

  lemma MovedAre(ds: Datasets, fan: seq<Path>, shorts: seq<Short>, l: Layout, mid: Datasets, i: int)
    requires Fan(ds, fan, shorts) && Promotable(l, |shorts|, i) && LaidOut(ds, fan, shorts, l, mid)
    ensures mid[fan[i]].origin == Some(SnapRef(fan[l.hold[i]], shorts[i]))
    ensures mid[fan[i]].snaps == map[] && IsClone(mid, fan[i])
    ensures Moved(mid, fan[i]) == MovedBy(ds[fan[|shorts|]].snaps, shorts, l.hold, i)
  {
    var a := l.hold[i];
    assert mid[fan[i]] == Member(ds, fan, shorts, l, i);
    assert mid[fan[a]] == Member(ds, fan, shorts, l, a);
    OlderHeld(ds[fan[|shorts|]].snaps, shorts, l.hold, i);
  }

  /** The snapshots of the promoted clone, of its former parent, and of the rest. */
  lemma HeldStep(all: map<Short, Snapshot>, shorts: seq<Short>, l: Layout, i: int, k: int)
    requires Promotable(l, |shorts|, i) && forall s :: s in all ==> s in shorts
    ensures var moved := MovedBy(all, shorts, l.hold, i);
      Held(all, shorts, Step(l, i).hold, k) ==
        if k == i then moved
        else if k == l.hold[i] then Held(all, shorts, l.hold, k) - moved.Keys
        else Held(all, shorts, l.hold, k)
  {
  }

  lemma RefStep(mid: Datasets, top: Option<SnapRef>, all: map<Short, Snapshot>, fan: seq<Path>, shorts: seq<Short>,
                l: Layout, i: int, q: int)
    requires |fan| == |shorts| + 1 && Distinct(fan) && Distinct(shorts) && Promotable(l, |shorts|, i)
    requires IsClone(mid, fan[i]) && mid[fan[i]].origin.value.ds == fan[l.hold[i]]
    requires (forall s :: s in all <==> s in shorts) && Moved(mid, fan[i]) == MovedBy(all, shorts, l.hold, i)
    requires top.Some? ==> top.value.ds !in fan
    requires -1 <= q < |shorts|
    ensures var r := Ref(top, fan, shorts, l.hold, q);
      Ref(top, fan, shorts, Step(l, i).hold, q) == if r.None? then r else Some(Relocate(mid, fan[i], r.value))
  {
    if q >= 0 {
      assert Index(shorts, shorts[q]) == q;
      assert shorts[q] in all;
    }
  }

  /** `mid` is about to promote clone i: what its members look like, without the rest of the pool. */
  ghost predicate Ready(mid: Datasets, vol: Dataset, fan: seq<Path>, shorts: seq<Short>, l: Layout, i: int) {
    && |fan| == |shorts| + 1 && Distinct(fan) && Distinct(shorts) && Promotable(l, |shorts|, i)
    && (forall s :: s in vol.snaps <==> s in shorts)
    && (vol.origin.Some? ==> vol.origin.value.ds !in fan)
    && IsClone(mid, fan[i]) && mid[fan[i]].origin == Some(SnapRef(fan[l.hold[i]], shorts[i]))
    && mid[fan[i]].snaps == map[] && Moved(mid, fan[i]) == MovedBy(vol.snaps, shorts, l.hold, i)
  }

  lemma SnapsStep(mid: Datasets, vol: Dataset, fan: seq<Path>, shorts: seq<Short>, l: Layout, i: int, k: int)
    requires Ready(mid, vol, fan, shorts, l, i) && 0 <= k < |fan|
    requires fan[k] in mid && mid[fan[k]].snaps == Held(vol.snaps, shorts, l.hold, k)
    ensures PromotedAt(mid, fan[i], fan[k]).snaps == Held(vol.snaps, shorts, Step(l, i).hold, k)
  {
    HeldStep(vol.snaps, shorts, l, i, k);
  }

  lemma OriginStep(mid: Datasets, vol: Dataset, fan: seq<Path>, shorts: seq<Short>, l: Layout, i: int, k: int)
    requires Ready(mid, vol, fan, shorts, l, i) && 0 <= k < |fan|
    requires fan[k] in mid && mid[fan[k]].origin == Ref(vol.origin, fan, shorts, l.hold, l.cloneOf[k])
    requires mid[fan[l.hold[i]]].origin == Ref(vol.origin, fan, shorts, l.hold, l.cloneOf[l.hold[i]])
    ensures PromotedAt(mid, fan[i], fan[k]).origin
      == Ref(vol.origin, fan, shorts, Step(l, i).hold, Step(l, i).cloneOf[k])
  {
    var a := l.hold[i];
    RefStep(mid, vol.origin, vol.snaps, fan, shorts, l, i, Step(l, i).cloneOf[k]);
    if k == i && l.cloneOf[a] >= 0 {
      // what the promoted clone takes over from its parent is not itself moved
      assert fan[l.hold[l.cloneOf[a]]] != fan[a];
    }
  }

  lemma MemberStep(mid: Datasets, d: Dataset, vol: Dataset, fan: seq<Path>, shorts: seq<Short>, l: Layout, i: int,
                   k: int)
    requires Ready(mid, vol, fan, shorts, l, i) && 0 <= k < |fan|
    requires fan[k] in mid && mid[fan[k]] == Placed(d, vol, fan, shorts, l, k)
    requires mid[fan[l.hold[i]]].origin == Ref(vol.origin, fan, shorts, l.hold, l.cloneOf[l.hold[i]])
    ensures Shaped(Step(l, i), |shorts|)
    ensures PromotedAt(mid, fan[i], fan[k]) == Placed(d, vol, fan, shorts, Step(l, i), k)
  {
    SnapsStep(mid, vol, fan, shorts, l, i, k);
    OriginStep(mid, vol, fan, shorts, l, i, k);
    var d' := PromotedAt(mid, fan[i], fan[k]);
    assert d' == mid[fan[k]].(snaps := d'.snaps, origin := d'.origin);
  }

  lemma Outsider(ds: Datasets, fan: seq<Path>, shorts: seq<Short>, l: Layout, mid: Datasets, i: int, m: Path)
    requires Fan(ds, fan, shorts) && Promotable(l, |shorts|, i) && LaidOut(ds, fan, shorts, l, mid)
    requires IsClone(mid, fan[i]) && mid[fan[i]].origin.value.ds == fan[l.hold[i]]
    requires m in ds && m !in fan
    ensures PromotedAt(mid, fan[i], m) == ds[m]
  {
    assert mid[m] == ds[m];
  }

  lemma AllMembersStep(ds: Datasets, fan: seq<Path>, shorts: seq<Short>, l: Layout, mid: Datasets, i: int)
    requires Fan(ds, fan, shorts) && Shaped(l, |shorts|) && LaidOut(ds, fan, shorts, l, mid)
    requires Ready(mid, ds[fan[|shorts|]], fan, shorts, l, i)
    ensures Shaped(Step(l, i), |shorts|)
    ensures forall k :: 0 <= k < |fan| ==> PromotedAt(mid, fan[i], fan[k]) == Member(ds, fan, shorts, Step(l, i), k)
  {
    var vol := ds[fan[|shorts|]];
    assert mid[fan[l.hold[i]]] == Member(ds, fan, shorts, l, l.hold[i]);
    forall k | 0 <= k < |fan|
      ensures Shaped(Step(l, i), |shorts|)
      ensures PromotedAt(mid, fan[i], fan[k]) == Placed(ds[fan[k]], vol, fan, shorts, Step(l, i), k)
    {
      assert mid[fan[k]] == Member(ds, fan, shorts, l, k);
      MemberStep(mid, ds[fan[k]], vol, fan, shorts, l, i, k);
    }
  }

  lemma LayoutStep(ds: Datasets, fan: seq<Path>, shorts: seq<Short>, l: Layout, mid: Datasets, i: int)
    requires Fan(ds, fan, shorts) && Promotable(l, |shorts|, i) && LaidOut(ds, fan, shorts, l, mid)
    ensures IsClone(mid, fan[i]) && !Conflict(mid, fan[i]) && Shaped(Step(l, i), |shorts|)
    ensures LaidOut(ds, fan, shorts, Step(l, i), Promoted(mid, fan[i]))
  {
    MovedAre(ds, fan, shorts, l, mid, i);
    AllMembersStep(ds, fan, shorts, l, mid, i);
    forall m | m in ds && m !in fan ensures PromotedAt(mid, fan[i], m) == ds[m] {
      Outsider(ds, fan, shorts, l, mid, i, m);
    }
  }

  // ------------------------------------------------ the layout after some promotes

  /** The first promoted index at or after i; n, the volume, when there is none. */
  ghost function Next(done: set<int>, i: int, n: int): (k: int)
    ensures i <= n ==> i <= k <= n
    ensures k < n ==> k in done
    ensures forall j :: i <= j < k ==> j !in done
    decreases n - i
  {
    if i >= n then n else if i in done then i else Next(done, i + 1, n)
  }

  /** The last promoted index before i, or -1. */
  ghost function Prev(done: set<int>, i: int): (k: int)
    ensures 0 <= i ==> -1 <= k < i
    ensures k >= 0 ==> k in done
    ensures forall j :: k < j < i ==> j !in done
    decreases i
  {
    if i <= 0 then -1 else if i - 1 in done then i - 1 else Prev(done, i - 1)
  }

  /** The layout once exactly the clones in `done` were promoted, in whatever order:
      a snapshot is on the next promoted clone, which is a clone of the previous one. */
  ghost predicate Canonical(done: set<int>, n: int, l: Layout) {
    && Shaped(l, n)
    && (forall j :: 0 <= j < n ==> l.hold[j] == Next(done, j, n))
    && (forall k :: 0 <= k <= n ==> l.cloneOf[k] == if k < n && k !in done then k else Prev(done, k))
  }

  lemma CanonicalStart(n: nat, l: Layout)
    requires l == Layout(seq(n, _ => n), seq(n + 1, k => if k < n then k else -1))
    ensures Canonical({}, n, l)
  {
  }

  lemma CanonicalPromotable(done: set<int>, n: int, l: Layout, i: int)
    requires Canonical(done, n, l) && 0 <= i < n && i !in done
    ensures Promotable(l, n, i)
  {
    var a := l.hold[i];
    if l.cloneOf[a] >= 0 {
      assert l.hold[l.cloneOf[a]] <= a;
    }
  }

  lemma NextAdd(done: set<int>, i: int, j: int, n: int)
    requires 0 <= i < n && 0 <= j < n && i !in done
    ensures Next(done + {i}, j, n) == if Next(done, j, n) == Next(done, i, n) && j <= i then i else Next(done, j, n)
  {
  }

  lemma PrevAdd(done: set<int>, i: int, k: int, n: int)
    requires 0 <= i < n && 0 <= k <= n && i !in done
    ensures Prev(done + {i}, k) == if i < k <= Next(done, i, n) then i else Prev(done, k)
  {
  }

  lemma CanonicalStep(done: set<int>, n: int, l: Layout, i: int)
    requires Canonical(done, n, l) && 0 <= i < n && i !in done
    ensures Canonical(done + {i}, n, Step(l, i))
  {
    var a := Next(done, i, n);
    assert Prev(done, a) == Prev(done, i);
    forall j | 0 <= j < n ensures Step(l, i).hold[j] == Next(done + {i}, j, n) {
      NextAdd(done, i, j, n);
    }
    forall k | 0 <= k <= n
      ensures Step(l, i).cloneOf[k] == if k < n && k !in done + {i} then k else Prev(done + {i}, k)
    {
      PrevAdd(done, i, k, n);
    }
  }

  // ------------------------------------------------------------------- any order

  /** Promote the clones with these indices, one after the other. */
  ghost function PromoteAll(ds: Datasets, fan: seq<Path>, order: seq<int>): Datasets
    requires forall k :: 0 <= k < |order| ==> 0 <= order[k] < |fan|
  {
    if order == [] then ds
    else
      var mid := PromoteAll(ds, fan, order[..|order| - 1]);
      var c := fan[order[|order| - 1]];
      if IsClone(mid, c) && !Conflict(mid, c) then Promoted(mid, c) else mid
  }

  lemma Untouched(ds: Datasets, fan: seq<Path>, shorts: seq<Short>, l: Layout)
    requires Fan(ds, fan, shorts)
    requires l == Layout(seq(|shorts|, _ => |shorts|), seq(|shorts| + 1, k => if k < |shorts| then k else -1))
    ensures Shaped(l, |shorts|) && LaidOut(ds, fan, shorts, l, ds)
  {
    forall k | 0 <= k < |fan| ensures ds[fan[k]] == Member(ds, fan, shorts, l, k) {
      assert ds[fan[k]].snaps == Held(ds[fan[|shorts|]].snaps, shorts, l.hold, k);
    }
  }

  lemma OneMore(ds: Datasets, fan: seq<Path>, shorts: seq<Short>, l0: Layout, done0: set<int>, mid: Datasets, i: int)
    returns (l: Layout, done: set<int>)
    requires Fan(ds, fan, shorts) && Canonical(done0, |shorts|, l0) && LaidOut(ds, fan, shorts, l0, mid)
    requires 0 <= i < |shorts| && i !in done0
    ensures IsClone(mid, fan[i]) && !Conflict(mid, fan[i])
    ensures done == done0 + {i} && Canonical(done, |shorts|, l) && LaidOut(ds, fan, shorts, l, Promoted(mid, fan[i]))
  {
    CanonicalPromotable(done0, |shorts|, l0, i);
    LayoutStep(ds, fan, shorts, l0, mid, i);
    CanonicalStep(done0, |shorts|, l0, i);
    l, done := Step(l0, i), done0 + {i};
  }

  lemma Start(ds: Datasets, fan: seq<Path>, shorts: seq<Short>) returns (l: Layout)
    requires Fan(ds, fan, shorts)
    ensures Canonical({}, |shorts|, l) && LaidOut(ds, fan, shorts, l, ds)
  {
    var n := |shorts|;
    l := Layout(seq(n, _ => n), seq(n + 1, k => if k < n then k else -1));
    CanonicalStart(n, l);
    Untouched(ds, fan, shorts, l);
  }

  lemma {:induction false} AnyOrder(ds: Datasets, fan: seq<Path>, shorts: seq<Short>, order: seq<int>)
    returns (l: Layout, done: set<int>)
    requires Fan(ds, fan, shorts) && Distinct(order)
    requires forall k :: 0 <= k < |order| ==> 0 <= order[k] < |shorts|
    ensures forall i :: i in done <==> i in order
    ensures Canonical(done, |shorts|, l) && LaidOut(ds, fan, shorts, l, PromoteAll(ds, fan, order))
  {
    if order == [] {
      l := Start(ds, fan, shorts);
      done := {};
    } else {
      var rest, i := order[..|order| - 1], order[|order| - 1];
      var l0, done0 := AnyOrder(ds, fan, shorts, rest);
      ButLast(order);
      l, done := OneMore(ds, fan, shorts, l0, done0, PromoteAll(ds, fan, rest), i);
    }
  }

  /** fan[k] in the final graph. */
  ghost function Chained(ds: Datasets, fan: seq<Path>, shorts: seq<Short>, k: int): Dataset
    requires Fan(ds, fan, shorts) && 0 <= k <= |shorts|
  {
    var n := |shorts|;
    ds[fan[k]].(snaps := if k < n then map[shorts[k] := ds[fan[n]].snaps[shorts[k]]] else map[],
                origin := if k > 0 then Some(SnapRef(fan[k - 1], shorts[k - 1])) else ds[fan[n]].origin)
  }

  lemma FinalHeld(all: map<Short, Snapshot>, shorts: seq<Short>, hold: seq<int>, k: int)
    requires |hold| == |shorts| && Distinct(shorts) && (forall s :: s in all <==> s in shorts) && 0 <= k <= |shorts|
    requires forall j :: 0 <= j < |hold| ==> hold[j] == j
    ensures Held(all, shorts, hold, k) == if k < |shorts| then map[shorts[k] := all[shorts[k]]] else map[]
  {
    if k < |shorts| { assert Index(shorts, shorts[k]) == k; }
  }

  lemma FinalMember(ds: Datasets, fan: seq<Path>, shorts: seq<Short>, l: Layout, done: set<int>, k: int)
    requires Fan(ds, fan, shorts) && Canonical(done, |shorts|, l) && 0 <= k <= |shorts|
    requires forall i :: 0 <= i < |shorts| ==> i in done
    ensures Member(ds, fan, shorts, l, k) == Chained(ds, fan, shorts, k)
  {
    FinalHeld(ds[fan[|shorts|]].snaps, shorts, l.hold, k);
    assert k > 0 ==> k - 1 in done;
  }

  /** Whatever the order, clone i ends up with exactly snapshot i, chained to
      clone i-1, and the volume owns nothing and hangs off the last clone. */
  lemma PromoteOrderIsIrrelevant(ds: Datasets, fan: seq<Path>, shorts: seq<Short>, order: seq<int>)
    requires Fan(ds, fan, shorts) && Distinct(order)
    requires forall k :: 0 <= k < |order| ==> 0 <= order[k] < |shorts|
    requires forall i :: 0 <= i < |shorts| ==> i in order
    ensures var ds' := PromoteAll(ds, fan, order);
      && ds'.Keys == ds.Keys
      && (forall m :: m in ds && m !in fan ==> ds'[m] == ds[m])
      && (forall k :: 0 <= k <= |shorts| ==> ds'[fan[k]] == Chained(ds, fan, shorts, k))
  {
    var n := |shorts|;
    var l, done := AnyOrder(ds, fan, shorts, order);
    forall k | 0 <= k <= n ensures PromoteAll(ds, fan, order)[fan[k]] == Chained(ds, fan, shorts, k) {
      FinalMember(ds, fan, shorts, l, done, k);
    }
  }
}
