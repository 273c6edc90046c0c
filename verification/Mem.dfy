/** The in-memory ZFS: the state machine every command of the driver runs on,
    updated in place (internal/zpool/memzfs). */
module MemZfs {
  import opened Options
  import opened Pool
  import opened PoolInvariant
  import opened Promote
  import opened Seqs

  datatype Error =
    | NotExist | AlreadyExists | NoParent | BadSize | NoNames
    | PartiallyExist | ConflictingSnapshot | DependentClones | HasChildren | NoProgress

  datatype Outcome = Ok | Err(error: Error)

  /** `ds'` is `ds` and the dataset `n`, which is new. */
  ghost predicate Joined(ds: Datasets, n: Path, ds': Datasets) {
    n !in ds && ds'.Keys == ds.Keys + {n} && forall m :: m in ds ==> ds'[m] == ds[m]
  }

  /** `ds'` differs from `ds` in the snapshot `r` at most. */
  ghost predicate OnlySnap(ds: Datasets, r: SnapRef, ds': Datasets) {
    && ds'.Keys == ds.Keys
    && (forall n :: n in ds ==> ds'[n] == ds[n].(snaps := ds'[n].snaps))
    && (forall q :: q != r ==> (Exists(ds', q) <==> Exists(ds, q)) && (Exists(ds, q) ==> At(ds', q) == At(ds, q)))
  }

  /** `name` and what is below it is gone, and with it the marked snapshots elsewhere that had all their
      clones there. */
  ghost predicate Felled(ds: Datasets, name: Path, ds': Datasets) {
    && (forall n :: n in ds' <==> n in ds && n != name && !Below(n, name))
    && (forall n :: n in ds' ==> ds'[n] == ds[n].(snaps := ds'[n].snaps))
    && (forall q :: Exists(ds', q) <==>
          && Exists(ds, q) && q.ds != name && !Below(q.ds, name)
          && !(At(ds, q).deferred && forall c :: c in ds && ds[c].origin == Some(q) ==> c == name || Below(c, name)))
    && (forall q :: Exists(ds', q) ==> At(ds', q) == At(ds, q))
  }

  /** That is what a destroy does. */
  lemma DestroyedIsFelled(ds: Datasets, name: Path)
    requires name in ds
    ensures Felled(ds, name, Destroyed(ds, Tree(ds, name)))
  {
    var tree := Tree(ds, name);
    var rest := ds - tree;
    forall q | Exists(rest, q)
      ensures ClonesOf(rest, q) == {} <==>
        forall c :: c in ds && ds[c].origin == Some(q) ==> c == name || Below(c, name)
    {
      if ClonesOf(rest, q) == {} {
        forall c | c in ds && ds[c].origin == Some(q) ensures c == name || Below(c, name) {
          assert c in rest ==> c in ClonesOf(rest, q);
        }
      }
    }
  }

  /** `k` levels up from `n`. */
  function Up(n: Path, k: nat): Path {
    if k == 0 || n.Root? then n else Up(n.parent, k - 1)
  }

  predicate HasProp(ds: Datasets, n: Path, prop: string) {
    n in ds && prop in ds[n].props
  }

  /** A user property: the local value, else the nearest ancestor's. */
  function Inherited(ds: Datasets, n: Path, prop: string): Option<string>
  {
    if n in ds && prop in ds[n].props then Some(ds[n].props[prop])
    else if n.Root? then None
    else Inherited(ds, n.parent, prop)
  }

  lemma {:induction false} InheritedIsNearest(ds: Datasets, n: Path, prop: string, k: nat)
    requires HasProp(ds, Up(n, k), prop) && forall j: nat :: j < k ==> !HasProp(ds, Up(n, j), prop)
    ensures Inherited(ds, n, prop) == Some(ds[Up(n, k)].props[prop])
  {
    if k > 0 {
      assert !HasProp(ds, Up(n, 0), prop) && !n.Root?;
      forall j: nat | j < k - 1 ensures !HasProp(ds, Up(n.parent, j), prop) {
        assert Up(n.parent, j) == Up(n, j + 1);
      }
      InheritedIsNearest(ds, n.parent, prop, k - 1);
    }
  }

  lemma {:induction false} InheritedOfNobody(ds: Datasets, n: Path, prop: string)
    requires forall k: nat :: !HasProp(ds, Up(n, k), prop)
    ensures Inherited(ds, n, prop) == None
  {
    assert !HasProp(ds, Up(n, 0), prop);
    if n.Child? {
      forall k: nat ensures !HasProp(ds, Up(n.parent, k), prop) { assert Up(n.parent, k) == Up(n, k + 1); }
      InheritedOfNobody(ds, n.parent, prop);
    }
  }

  /** `ds` with all the snapshots `names` cut in transaction group `t`. */
  ghost predicate CutTogether(ds: Datasets, ds': Datasets, names: seq<SnapRef>, t: nat) {
    && ds'.Keys == ds.Keys
    && (forall n :: n in ds ==> ds'[n] == ds[n].(snaps := ds'[n].snaps))
    && (forall r :: r in names ==> Exists(ds', r) && At(ds', r) == Snapshot(t, false, map[]))
    && (forall r :: r !in names ==> Exists(ds', r) == Exists(ds, r))
    && (forall r :: r !in names && Exists(ds, r) ==> At(ds', r) == At(ds, r))
  }

  lemma CutAgain(ds: Datasets, r: SnapRef, t: nat)
    requires Exists(ds, r) && At(ds, r) == Snapshot(t, false, map[])
    ensures Cut(ds, r, t) == ds
  {
    assert ds[r.ds].snaps[r.short := At(ds, r)] == ds[r.ds].snaps;
  }

  lemma CutTogetherOne(ds: Datasets, mid: Datasets, names: seq<SnapRef>, r: SnapRef, t: nat)
    requires CutTogether(ds, mid, names, t) && r.ds in ds
    ensures CutTogether(ds, Cut(mid, r, t), names + [r], t)
  {
    var ds' := Cut(mid, r, t);
    assert forall q :: q != r ==> Exists(ds', q) == Exists(mid, q);
  }

  lemma CutTogetherStep(ds: Datasets, mid: Datasets, names: seq<SnapRef>, r: SnapRef, t: nat)
    requires CutTogether(ds, mid, names, t) && WF(mid, t) && r.ds in ds && !Exists(ds, r)
    requires t > 0 && Clocked(ds, t - 1) && OriginsExist(ds) && forall n :: n in names ==> !Exists(ds, n)
    ensures CutTogether(ds, Cut(mid, r, t), names + [r], t) && WF(Cut(mid, r, t), t)
  {
    CutTogetherOne(ds, mid, names, r, t);
    if r in names {
      CutAgain(mid, r, t);
    } else {
      if mid[r.ds].origin.Some? {
        var o := ds[r.ds].origin.value;
        assert Exists(ds, o) && At(mid, o) == At(ds, o);
      }
      CutKeepsWF(mid, t, r, t);
    }
  }

  /** The pool halfway through a promote: the snapshots in `gone` have moved. */
  ghost function HalfPromotedAt(ds: Datasets, name: Path, gone: set<Short>, n: Path): Dataset
    requires IsClone(ds, name) && n in ds && gone <= Moved(ds, name).Keys
  {
    var o := ds[name].origin.value;
    var origin' := if ds[n].origin.Some? && ds[n].origin.value.ds == o.ds && ds[n].origin.value.short in gone
                   then Some(SnapRef(name, ds[n].origin.value.short)) else ds[n].origin;
    if n == name then
      ds[n].(snaps := ds[n].snaps + (map s | s in gone :: ds[o.ds].snaps[s]), origin := origin')
    else if n == o.ds then
      ds[n].(snaps := ds[n].snaps - gone, origin := origin')
    else
      ds[n].(origin := origin')
  }

  ghost predicate HalfPromoted(ds: Datasets, name: Path, gone: set<Short>, ds': Datasets)
    requires IsClone(ds, name)
  {
    && ds'.Keys == ds.Keys && gone <= Moved(ds, name).Keys
    && forall n :: n in ds ==> ds'[n] == HalfPromotedAt(ds, name, gone, n)
  }

  /** One dataset after snapshot `s` moved from `p` to `name` and its clones were re-parented. */
  ghost function MovedOne(d: Dataset, n: Path, p: Path, name: Path, s: Short, snap: Snapshot): Dataset {
    var origin' := if d.origin == Some(SnapRef(p, s)) then Some(SnapRef(name, s)) else d.origin;
    if n == p then d.(snaps := d.snaps - {s}, origin := origin')
    else if n == name then d.(snaps := d.snaps[s := snap], origin := origin')
    else d.(origin := origin')
  }

  lemma HalfPromotedStep(ds: Datasets, name: Path, gone: set<Short>, s: Short, n: Path)
    requires IsClone(ds, name) && n in ds && gone <= Moved(ds, name).Keys && s in Moved(ds, name) && s !in gone
    requires ds[name].origin.value.ds != name
    ensures var p := ds[name].origin.value.ds;
      HalfPromotedAt(ds, name, gone + {s}, n)
        == MovedOne(HalfPromotedAt(ds, name, gone, n), n, p, name, s, ds[p].snaps[s])
  {
    var p := ds[name].origin.value.ds;
    var a, b := HalfPromotedAt(ds, name, gone, n), HalfPromotedAt(ds, name, gone + {s}, n);
    if n == name {
      assert b.snaps == a.snaps[s := ds[p].snaps[s]];
    } else if n == p {
      assert b.snaps == a.snaps - {s};
    }
  }

  lemma HalfPromotedMore(ds: Datasets, name: Path, gone: set<Short>, mid: Datasets, s: Short, ds': Datasets)
    requires Graph(ds) && IsClone(ds, name) && HalfPromoted(ds, name, gone, mid)
    requires s in Moved(ds, name) && s !in gone && ds'.Keys == mid.Keys
    requires var p := ds[name].origin.value.ds;
      forall n :: n in ds' ==> ds'[n] == MovedOne(mid[n], n, p, name, s, ds[p].snaps[s])
    ensures HalfPromoted(ds, name, gone + {s}, ds')
  {
    ParentIsOther(ds, name);
    forall n | n in ds ensures ds'[n] == HalfPromotedAt(ds, name, gone + {s}, n) {
      HalfPromotedStep(ds, name, gone, s, n);
    }
  }

  /** Once everything has moved, only the swap of the two origins is left. */
  lemma HalfToWhole(ds: Datasets, name: Path, n: Path)
    requires Graph(ds) && IsClone(ds, name) && n in ds
    ensures var o := ds[name].origin.value;
      var h := HalfPromotedAt(ds, name, Moved(ds, name).Keys, n);
      PromotedAt(ds, name, n) ==
        if n == name then h.(origin := HalfPromotedAt(ds, name, Moved(ds, name).Keys, o.ds).origin)
        else if n == o.ds then h.(origin := Some(SnapRef(name, o.short)))
        else h
  {
    ParentIsOther(ds, name);
    if n == name {
      var h := HalfPromotedAt(ds, name, Moved(ds, name).Keys, n);
      assert h.snaps == ds[n].snaps + Moved(ds, name);
    }
  }

  ghost predicate OldestFirst<K>(snaps: map<K, Snapshot>, out: seq<K>) {
    && (forall i :: 0 <= i < |out| ==> out[i] in snaps)
    && (forall i, j :: 0 <= i < j < |out| ==> out[i] != out[j] && snaps[out[i]].txg <= snaps[out[j]].txg)
  }

  lemma InsertedByAge<K>(snaps: map<K, Snapshot>, out: seq<K>, s: K, k: nat, r: seq<K>)
    requires OldestFirst(snaps, out) && s in snaps && s !in out && k <= |out|
    requires forall j :: 0 <= j < k ==> snaps[out[j]].txg <= snaps[s].txg
    requires forall j :: k <= j < |out| ==> snaps[s].txg < snaps[out[j]].txg
    requires r == out[..k] + [s] + out[k..]
    ensures OldestFirst(snaps, r)
    ensures forall x :: x in r <==> x == s || x in out
  {
    assert r[k] == s;
    assert forall i :: 0 <= i < k ==> r[i] == out[i];
    assert forall i :: k <= i < |out| ==> out[i] == r[i + 1];
    assert forall i :: k < i < |r| ==> r[i] == out[i - 1];
  }

  method InsertByAge<K(==)>(snaps: map<K, Snapshot>, out: seq<K>, s: K) returns (r: seq<K>)
    requires OldestFirst(snaps, out) && s in snaps && s !in out
    ensures OldestFirst(snaps, r) && |r| == |out| + 1
    ensures forall x :: x in r <==> x == s || x in out
  {
    var k := |out|;
    while k > 0 && snaps[out[k - 1]].txg > snaps[s].txg
      invariant 0 <= k <= |out|
      invariant forall j :: k <= j < |out| ==> snaps[s].txg < snaps[out[j]].txg
    {
      k := k - 1;
    }
    r := out[..k] + [s] + out[k..];
    InsertedByAge(snaps, out, s, k, r);
  }

  /** `ds` after `dropIfDone` looked at the snapshots in `seen`. */
  ghost predicate PartlySwept(ds: Datasets, seen: set<SnapRef>, ds': Datasets) {
    && ds'.Keys == ds.Keys
    && (forall n :: n in ds ==> ds'[n] == ds[n].(snaps := ds'[n].snaps))
    && (forall r :: Exists(ds', r) <==> Exists(ds, r) && !(r in seen && Done(ds, r)))
    && (forall r :: Exists(ds', r) ==> At(ds', r) == At(ds, r))
  }

  lemma SweptWhenAllSeen(ds: Datasets, seen: set<SnapRef>, ds': Datasets)
    requires PartlySwept(ds, seen, ds')
    requires forall r :: Done(ds, r) ==> r in seen
    ensures ds' == Swept(ds)
  {
    var w := Swept(ds);
    forall n | n in ds ensures ds'[n] == w[n] {
      forall s ensures s in ds'[n].snaps <==> s in w[n].snaps {
        assert Exists(ds', SnapRef(n, s)) <==> s in ds'[n].snaps;
        assert Exists(ds, SnapRef(n, s)) <==> s in ds[n].snaps;
      }
      forall s | s in ds'[n].snaps ensures ds'[n].snaps[s] == w[n].snaps[s] {
        assert Exists(ds', SnapRef(n, s));
        assert At(ds', SnapRef(n, s)) == At(ds, SnapRef(n, s));
      }
      assert ds'[n].snaps == w[n].snaps;
    }
  }

  lemma PartlySweptClones(ds: Datasets, seen: set<SnapRef>, ds': Datasets)
    requires PartlySwept(ds, seen, ds')
    ensures forall q :: ClonesOf(ds', q) == ClonesOf(ds, q)
  {
    forall q ensures ClonesOf(ds', q) == ClonesOf(ds, q) {}
  }

  lemma PartlySweptStep(ds: Datasets, seen: set<SnapRef>, mid: Datasets, o: SnapRef)
    requires PartlySwept(ds, seen, mid)
    ensures PartlySwept(ds, seen + {o}, if Done(mid, o) then WithoutSnap(mid, o) else mid)
  {
    PartlySweptClones(ds, seen, mid);
    if Done(mid, o) {
      var ds' := WithoutSnap(mid, o);
      assert forall r :: Exists(ds', r) <==> Exists(mid, r) && r != o;
    }
  }

  /** A marked snapshot left without clones was an origin inside the destroyed tree. */
  lemma DoneWereOrigins(ds: Datasets, tree: set<Path>, origins: set<SnapRef>)
    requires MarkedAreCloned(ds) && tree <= ds.Keys
    requires forall t :: t in tree && ds[t].origin.Some? ==> ds[t].origin.value in origins
    ensures forall q :: Done(ds - tree, q) ==> q in origins
  {
    forall q | Done(ds - tree, q) ensures q in origins {
      assert q.short in ds[q.ds].snaps;
      var c :| c in ClonesOf(ds, q);
      assert c !in ClonesOf(ds - tree, q);
    }
  }

  ghost predicate SomeExist(ds: Datasets, names: seq<SnapRef>) {
    exists n :: n in names && Exists(ds, n)
  }

  ghost predicate AllExist(ds: Datasets, names: seq<SnapRef>) {
    forall n :: n in names ==> Exists(ds, n)
  }

  class Mem {
    var ds: Datasets
    var txg: nat

    ghost predicate Valid()
      reads this
    {
      WF(ds, txg)
    }

    constructor (pools: seq<Name>)
      ensures Valid() && txg == 0
      ensures ds.Keys == set p | p in pools :: Root(p)
      ensures forall n :: n in ds ==> ds[n] == Dataset(Filesystem, map[], None, map[], 0)
    {
      var m: Datasets := map[];
      for i := 0 to |pools|
        invariant m.Keys == set p | p in pools[..i] :: Root(p)
        invariant forall n :: n in m ==> n.Root? && m[n] == Dataset(Filesystem, map[], None, map[], 0)
      {
        m := m[Root(pools[i]) := Dataset(Filesystem, map[], None, map[], 0)];
        TakeMore(pools, i);
      }
      assert pools[..] == pools;
      ds := m;
      txg := 0;
    }

    method Create(name: Path, kind: Kind, size: int, props: map<string, string>) returns (r: Outcome)
      requires Valid()
      modifies this
      ensures Valid() && txg == old(txg)
      ensures r == if kind.Zvol? && size <= 0 then Err(BadSize)
                   else if name in old(ds) then Err(AlreadyExists)
                   else if name.Root? || name.parent !in old(ds) then Err(NoParent) else Ok
      ensures ds == if r.Ok? then Created(old(ds), name, kind, size, props) else old(ds)
      ensures r.Ok? ==>
          && Joined(old(ds), name, ds) && ds[name].kind == kind && ds[name].volsize == size
          && ds[name].props == props && ds[name].origin == None && ds[name].snaps == map[]
    {
      if kind.Zvol? && size <= 0 { return Err(BadSize); }
      if name in ds { return Err(AlreadyExists); }
      if name.Root? || name.parent !in ds { return Err(NoParent); }
      CreatedKeepsWF(ds, txg, name, kind, size, props);
      ds := Created(ds, name, kind, size, props);
      return Ok;
    }

    /** Whether a dataset is missing, and otherwise how many of the names exist. */
    method Survey(names: seq<SnapRef>) returns (missing: bool, existing: nat)
      ensures missing <==> exists n :: n in names && n.ds !in ds
      ensures !missing ==> existing <= |names|
      ensures !missing ==> (existing == 0 <==> forall n :: n in names ==> !Exists(ds, n))
      ensures !missing ==> (existing == |names| <==> forall n :: n in names ==> Exists(ds, n))
    {
      existing := 0;
      for i := 0 to |names|
        invariant forall j :: 0 <= j < i ==> names[j].ds in ds
        invariant existing <= i
        invariant existing == 0 <==> forall j :: 0 <= j < i ==> !Exists(ds, names[j])
        invariant existing == i <==> forall j :: 0 <= j < i ==> Exists(ds, names[j])
      {
        if names[i].ds !in ds { return true, 0; }
        if Exists(ds, names[i]) { existing := existing + 1; }
      }
      missing := false;
    }

    method CutAll(names: seq<SnapRef>)
      requires Valid() && forall n :: n in names ==> n.ds in ds && !Exists(ds, n)
      modifies this
      ensures Valid() && txg == old(txg) + 1 && CutTogether(old(ds), ds, names, txg)
    {
      txg := txg + 1;
      for i := 0 to |names|
        invariant WF(ds, txg) && txg == old(txg) + 1
        invariant CutTogether(old(ds), ds, names[..i], txg)
      {
        CutTogetherStep(old(ds), ds, names[..i], names[i], txg);
        ds := Cut(ds, names[i], txg);
        TakeMore(names, i);
      }
      assert names[..] == names;
    }

    /** All names are cut in one transaction group, or none is. */
    method Snapshot(names: seq<SnapRef>) returns (r: Outcome)
      requires Valid()
      modifies this
      ensures Valid()
      ensures r == if names == [] then Err(NoNames)
                   else if exists n :: n in names && n.ds !in old(ds) then Err(NotExist)
                   else if |names| > 1 && SomeExist(old(ds), names) && !AllExist(old(ds), names)
                   then Err(PartiallyExist) else Ok
      ensures r.Ok? && (forall n :: n in names ==> !Exists(old(ds), n))
              ==> txg == old(txg) + 1 && CutTogether(old(ds), ds, names, txg)
      ensures r.Err? || (exists n :: n in names && Exists(old(ds), n)) ==> ds == old(ds) && txg == old(txg)
    {
      if |names| == 0 { return Err(NoNames); }
      var missing, existing := Survey(names);
      if missing { return Err(NotExist); }
      if existing > 0 {
        if existing == |names| || |names| == 1 { return Ok; }
        return Err(PartiallyExist);
      }
      CutAll(names);
      return Ok;
    }

    method Clone(snap: SnapRef, dest: Path, props: map<string, string>) returns (r: Outcome)
      requires Valid()
      modifies this
      ensures Valid() && txg == old(txg)
      ensures r == if !Exists(old(ds), snap) then Err(NotExist)
                   else if dest in old(ds) then Ok
                   else if dest.Root? || dest.parent !in old(ds) then Err(NoParent) else Ok
      ensures ds == if r.Ok? && dest !in old(ds) then Cloned(old(ds), snap, dest, props) else old(ds)
      ensures r.Ok? && dest !in old(ds) ==>
          && Joined(old(ds), dest, ds)
          && ds[dest].kind == old(ds)[snap.ds].kind && ds[dest].volsize == old(ds)[snap.ds].volsize
          && ds[dest].props == props && ds[dest].origin == Some(snap) && ds[dest].snaps == map[]
    {
      if !Exists(ds, snap) { return Err(NotExist); }
      if dest in ds { return Ok; }
      if dest.Root? || dest.parent !in ds { return Err(NoParent); }
      ClonedKeepsWF(ds, txg, snap, dest, props);
      ds := Cloned(ds, snap, dest, props);
      return Ok;
    }

    /** A dataset's snapshots, oldest first. */
    method SortedSnaps(n: Path) returns (out: seq<Short>)
      requires n in ds
      ensures |out| == |ds[n].snaps|
      ensures forall s :: s in out <==> s in ds[n].snaps
      ensures OldestFirst(ds[n].snaps, out)
    {
      var snaps := ds[n].snaps;
      var todo := snaps.Keys;
      out := [];
      while todo != {}
        invariant todo <= snaps.Keys
        invariant |out| + |todo| == |snaps.Keys|
        invariant forall s :: s in out <==> s in snaps && s !in todo
        invariant OldestFirst(snaps, out)
      {
        var s :| s in todo;
        out := InsertByAge(snaps, out, s);
        todo := todo - {s};
      }
    }

    /** Re-parent every clone of `from` to `to`. */
    method Repoint(from: SnapRef, to: SnapRef)
      modifies this`ds
      ensures ds.Keys == old(ds).Keys
      ensures forall n :: n in ds ==>
          ds[n] == if old(ds)[n].origin == Some(from) then old(ds)[n].(origin := Some(to)) else old(ds)[n]
    {
      var todo := ds.Keys;
      while todo != {}
        invariant ds.Keys == old(ds).Keys && todo <= ds.Keys
        invariant forall n :: n in ds ==>
            ds[n] == if n !in todo && old(ds)[n].origin == Some(from) then old(ds)[n].(origin := Some(to))
              else old(ds)[n]
      {
        var n :| n in todo;
        todo := todo - {n};
        if ds[n].origin == Some(from) {
          ds := ds[n := ds[n].(origin := Some(to))];
        }
      }
    }

    /** The origin of `name` and every older snapshot of its parent, oldest first. */
    method MovedNames(name: Path) returns (moved: seq<Short>)
      requires IsClone(ds, name)
      ensures forall s :: s in moved <==> s in Moved(ds, name)
      ensures Distinct(moved)
    {
      var o := ds[name].origin.value;
      var sorted := SortedSnaps(o.ds);
      moved := [];
      for i := 0 to |sorted|
        invariant forall s :: s in moved <==> s in sorted[..i] && ds[o.ds].snaps[s].txg <= At(ds, o).txg
        invariant Distinct(moved)
      {
        NextIsNew(sorted, i);
        TakeMore(sorted, i);
        assert sorted[i] in sorted;
        if ds[o.ds].snaps[sorted[i]].txg <= At(ds, o).txg { moved := moved + [sorted[i]]; }
      }
      assert sorted[..] == sorted;
    }

    method AnyOn(n: Path, shorts: seq<Short>) returns (found: bool)
      requires n in ds
      ensures found <==> exists s :: s in shorts && s in ds[n].snaps
    {
      for i := 0 to |shorts|
        invariant forall j :: 0 <= j < i ==> shorts[j] !in ds[n].snaps
      {
        if shorts[i] in ds[n].snaps { return true; }
      }
      return false;
    }

    /** Move one snapshot and re-parent its clones. */
    method MoveOne(p: Path, name: Path, s: Short)
      requires p in ds && name in ds && p != name && s in ds[p].snaps
      modifies this`ds
      ensures ds.Keys == old(ds).Keys
      ensures forall n :: n in ds ==> ds[n] == MovedOne(old(ds)[n], n, p, name, s, old(ds)[p].snaps[s])
    {
      var snap := ds[p].snaps[s];
      ds := ds[p := ds[p].(snaps := ds[p].snaps - {s})];
      ds := ds[name := ds[name].(snaps := ds[name].snaps[s := snap])];
      Repoint(SnapRef(p, s), SnapRef(name, s));
    }

    method MoveAll(name: Path, moved: seq<Short>)
      requires Graph(ds) && IsClone(ds, name)
      requires forall s :: s in moved <==> s in Moved(ds, name)
      requires Distinct(moved)
      modifies this`ds
      ensures HalfPromoted(old(ds), name, Moved(old(ds), name).Keys, ds)
    {
      var p := ds[name].origin.value.ds;
      ParentIsOther(ds, name);
      ghost var gone: set<Short> := {};
      for i := 0 to |moved|
        invariant forall s :: s in gone <==> s in moved[..i]
        invariant HalfPromoted(old(ds), name, gone, ds)
      {
        var s := moved[i];
        NextIsNew(moved, i);
        TakeMore(moved, i);
        assert s in moved;
        assert ds[p] == HalfPromotedAt(old(ds), name, gone, p);
        ghost var mid := ds;
        MoveOne(p, name, s);
        HalfPromotedMore(old(ds), name, gone, mid, s, ds);
        gone := gone + {s};
      }
      assert moved[..] == moved;
      assert gone == Moved(old(ds), name).Keys;
    }

    /** The last step of a promote: the two lineages trade places. */
    method SwapOrigins(name: Path, o: SnapRef)
      requires name in ds && o.ds in ds && o.ds != name
      modifies this`ds
      ensures ds.Keys == old(ds).Keys
      ensures forall n :: n in ds ==>
        ds[n] == if n == name then old(ds)[n].(origin := old(ds)[o.ds].origin)
                 else if n == o.ds then old(ds)[n].(origin := Some(SnapRef(name, o.short)))
                 else old(ds)[n]
    {
      var ofParent := ds[o.ds].origin;
      ds := ds[name := ds[name].(origin := ofParent)];
      ds := ds[o.ds := ds[o.ds].(origin := Some(SnapRef(name, o.short)))];
    }

    method MoveAndSwap(name: Path, moved: seq<Short>)
      requires Graph(ds) && IsClone(ds, name) && Distinct(moved) && forall s :: s in moved <==> s in Moved(ds, name)
      modifies this`ds
      ensures ds == Promoted(old(ds), name)
    {
      var o := ds[name].origin.value;
      ParentIsOther(ds, name);
      MoveAll(name, moved);
      SwapOrigins(name, o);
      forall n | n in old(ds) ensures ds[n] == PromotedAt(old(ds), name, n) { HalfToWhole(old(ds), name, n); }
    }

    method Promote(name: Path) returns (r: Outcome)
      requires Valid()
      modifies this
      ensures Valid() && txg == old(txg)
      ensures r == if name !in old(ds) then Err(NotExist)
                   else if old(ds)[name].origin.Some? && Conflict(old(ds), name) then Err(ConflictingSnapshot) else Ok
      ensures ds == if r.Ok? && old(ds)[name].origin.Some? then Promoted(old(ds), name) else old(ds)
    {
      if name !in ds { return Err(NotExist); }
      if ds[name].origin.None? { return Ok; }
      var moved := MovedNames(name);
      var clash := AnyOn(name, moved);
      if clash { return Err(ConflictingSnapshot); }
      PromotedKeepsWF(ds, txg, name);
      MoveAndSwap(name, moved);
      return Ok;
    }

    /** `zfs destroy dataset@short`. */
    method DestroySnapshot(snap: SnapRef) returns (r: Outcome)
      requires Valid()
      modifies this
      ensures Valid() && txg == old(txg)
      ensures r == if Exists(old(ds), snap) && ClonesOf(old(ds), snap) != {} then Err(DependentClones) else Ok
      ensures ds == if r.Ok? && Exists(old(ds), snap) then WithoutSnap(old(ds), snap) else old(ds)
      ensures OnlySnap(old(ds), snap, ds) && (r.Ok? ==> !Exists(ds, snap))
    {
      if !Exists(ds, snap) { return Ok; }
      if ClonesOf(ds, snap) != {} { return Err(DependentClones); }
      WithoutSnapKeepsWF(ds, txg, snap);
      ds := WithoutSnap(ds, snap);
      return Ok;
    }

    /** `zfs destroy -d dataset@short`. */
    method DestroySnapshotDeferred(snap: SnapRef)
      requires Valid()
      modifies this
      ensures Valid() && txg == old(txg) && ds == Deferred(old(ds), snap)
      ensures OnlySnap(old(ds), snap, ds)
      ensures Exists(ds, snap) <==> Exists(old(ds), snap) && ClonesOf(old(ds), snap) != {}
      ensures Exists(ds, snap) ==> At(ds, snap) == At(old(ds), snap).(deferred := true)
    {
      DeferredKeepsWF(ds, txg, snap);
      if !Exists(ds, snap) { return; }
      if ClonesOf(ds, snap) == {} {
        ds := WithoutSnap(ds, snap);
      } else {
        ds := WithMark(ds, snap);
      }
    }

    method DropIfDone(snap: SnapRef)
      modifies this`ds
      ensures ds == if Done(old(ds), snap) then WithoutSnap(old(ds), snap) else old(ds)
    {
      if Done(ds, snap) { ds := WithoutSnap(ds, snap); }
    }

    /** Delete the datasets of `tree`; returns their origins. */
    method Remove(tree: set<Path>) returns (origins: set<SnapRef>)
      requires tree <= ds.Keys
      modifies this`ds
      ensures ds == old(ds) - tree
      ensures forall t :: t in tree && old(ds)[t].origin.Some? ==> old(ds)[t].origin.value in origins
    {
      origins := {};
      var todo := tree;
      while todo != {}
        invariant todo <= tree && ds == old(ds) - (tree - todo)
        invariant forall t :: t in tree && t !in todo && old(ds)[t].origin.Some? ==> old(ds)[t].origin.value in origins
      {
        var t :| t in todo;
        if ds[t].origin.Some? { origins := origins + {ds[t].origin.value}; }
        ds := ds - {t};
        todo := todo - {t};
      }
    }

    method DropAll(origins: set<SnapRef>)
      modifies this`ds
      ensures PartlySwept(old(ds), origins, ds)
    {
      var todo := origins;
      while todo != {}
        invariant todo <= origins && PartlySwept(old(ds), origins - todo, ds)
      {
        var o :| o in todo;
        PartlySweptStep(old(ds), origins - todo, ds, o);
        DropIfDone(o);
        todo := todo - {o};
        assert origins - todo == origins - (todo + {o}) + {o};
      }
      assert origins - todo == origins;
    }

    /** `zfs destroy [-r] dataset`. */
    method Destroy(name: Path, recursive: bool) returns (r: Outcome)
      requires Valid()
      modifies this
      ensures Valid() && txg == old(txg)
      ensures r == if name !in old(ds) then Ok
                   else if !recursive && (Children(old(ds), name) != {} || old(ds)[name].snaps != map[])
                     then Err(HasChildren)
                   else if OutsideClone(old(ds), Tree(old(ds), name)) then Err(DependentClones) else Ok
      ensures ds == if r.Ok? && name in old(ds) then Destroyed(old(ds), Tree(old(ds), name)) else old(ds)
    {
      if name !in ds { return Ok; }
      if !recursive && (Children(ds, name) != {} || ds[name].snaps != map[]) { return Err(HasChildren); }
      var tree := Tree(ds, name);
      if OutsideClone(ds, tree) { return Err(DependentClones); }
      DestroyedKeepsWF(ds, txg, name);
      var origins := Remove(tree);
      DropAll(origins);
      DoneWereOrigins(old(ds), tree, origins);
      SweptWhenAllSeen(old(ds) - tree, origins, ds);
      return Ok;
    }
  }

  const PROMOTE_MAX_ATTEMPTS := 20

  /** `zfs promote` as the CLI drives it: retry until the origin changes. */
  method CliPromote(mem: Mem, name: Path) returns (r: Outcome, attempts: nat)
    requires mem.Valid()
    modifies mem
    ensures mem.Valid() && mem.txg == old(mem.txg)
    ensures name !in old(mem.ds) ==> r == Err(NotExist) && attempts == 0
    ensures name in old(mem.ds) && old(mem.ds)[name].origin.None? ==> r.Ok? && attempts == 0
    ensures name in old(mem.ds) && old(mem.ds)[name].origin.Some? ==>
              attempts == 1 && r == if Conflict(old(mem.ds), name) then Err(ConflictingSnapshot) else Ok
    ensures mem.ds == if r.Ok? && attempts == 1 then Promoted(old(mem.ds), name) else old(mem.ds)
  {
    attempts := 0;
    if name !in mem.ds { return Err(NotExist), 0; }
    var before := mem.ds[name].origin;
    if before.None? { return Ok, 0; }
    PromoteChangesOrigin(mem.ds, name);
    var changed := false;
    while attempts < PROMOTE_MAX_ATTEMPTS && !changed
      invariant mem.Valid() && mem.txg == old(mem.txg)
      invariant attempts == if changed then 1 else 0
      invariant changed ==> !Conflict(old(mem.ds), name)
      invariant before.Some? || changed
      invariant mem.ds == if changed then Promoted(old(mem.ds), name) else old(mem.ds)
      invariant !changed ==> before == old(mem.ds)[name].origin
    {
      attempts := attempts + 1;
      r := mem.Promote(name);
      if r.Err? { return; }
      var after := mem.ds[name].origin;
      changed := after != before;
      before := after;
    }
    r := if changed then Ok else Err(NoProgress);
  }
}
