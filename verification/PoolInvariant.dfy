/** Every command keeps the pool well formed, and well formed means no origin cycle. */
module PoolInvariant {
  import opened Options
  import opened Pool

  // ------------------------------------------------------------- origin chains

  /** How old a dataset's origin is; 0 for an independent dataset. Strictly smaller
      one hop up the origin chain. */
  ghost function Rank(ds: Datasets, n: Path): nat
    requires OriginsExist(ds) && n in ds
  {
    if ds[n].origin.None? then 0 else At(ds, ds[n].origin.value).txg + 1
  }

  lemma RankDrops(ds: Datasets, n: Path)
    requires Graph(ds) && n in ds && ds[n].origin.Some?
    ensures ds[n].origin.value.ds in ds
    ensures Rank(ds, ds[n].origin.value.ds) < Rank(ds, n)
  {
    var o := ds[n].origin.value;
    assert o.short in ds[o.ds].snaps;
  }

  /** The dataset `k` hops up the origin chain of `n`. */
  ghost function Hop(ds: Datasets, n: Path, k: nat): Option<Path>
    decreases k
  {
    if k == 0 then Some(n)
    else if n !in ds || ds[n].origin.None? then None
    else Hop(ds, ds[n].origin.value.ds, k - 1)
  }

  lemma {:induction false} HopRank(ds: Datasets, n: Path, k: nat)
    requires Graph(ds) && n in ds && Hop(ds, n, k).Some?
    ensures Hop(ds, n, k).value in ds
    ensures k > 0 ==> Rank(ds, Hop(ds, n, k).value) < Rank(ds, n)
    decreases k
  {
    if k > 0 {
      RankDrops(ds, n);
      HopRank(ds, ds[n].origin.value.ds, k - 1);
    }
  }

  /** What `Mem.Check` looks for, dataset by dataset. */
  ghost predicate CheckPasses(ds: Datasets) {
    forall n :: n in ds ==>
      && (n.Child? ==> n.parent in ds)
      && (ds[n].origin.Some? ==> Exists(ds, ds[n].origin.value))
      && (forall s :: s in ds[n].snaps && ds[n].snaps[s].deferred ==> ClonesOf(ds, SnapRef(n, s)) != {})
      && (forall k: nat :: k > 0 ==> Hop(ds, n, k) != Some(n))
  }

  lemma WellFormedPassesCheck(ds: Datasets, txg: nat)
    requires WF(ds, txg)
    ensures CheckPasses(ds)
  {
    forall n, k: nat | n in ds && k > 0 && Hop(ds, n, k).Some?
      ensures Hop(ds, n, k).value != n
    {
      HopRank(ds, n, k);
    }
  }

  // ---------------------------------------------------------- simple commands

  lemma CreatedKeepsWF(ds: Datasets, txg: nat, n: Path, kind: Kind, size: int, props: map<string, string>)
    requires WF(ds, txg) && n !in ds && n.Child? && n.parent in ds
    ensures WF(Created(ds, n, kind, size, props), txg)
    ensures forall r :: ClonesOf(Created(ds, n, kind, size, props), r) == ClonesOf(ds, r)
  {
    var ds' := Created(ds, n, kind, size, props);
    forall r ensures ClonesOf(ds', r) == ClonesOf(ds, r) {}
    forall m, s | m in ds' && s in ds'[m].snaps && ds'[m].snaps[s].deferred
      ensures ClonesOf(ds', SnapRef(m, s)) != {}
    {
      assert m in ds && s in ds[m].snaps;
    }
  }

  lemma CutClones(ds: Datasets, r: SnapRef, t: nat)
    requires r.ds in ds
    ensures forall q :: ClonesOf(Cut(ds, r, t), q) == ClonesOf(ds, q)
  {
    forall q ensures ClonesOf(Cut(ds, r, t), q) == ClonesOf(ds, q) {}
  }

  lemma CutKeepsWF(ds: Datasets, txg: nat, r: SnapRef, t: nat)
    requires WF(ds, txg) && r.ds in ds && !Exists(ds, r) && txg <= t
    requires ds[r.ds].origin.Some? ==> At(ds, ds[r.ds].origin.value).txg < t
    ensures WF(Cut(ds, r, t), t)
  {
    var ds' := Cut(ds, r, t);
    CutClones(ds, r, t);
    assert Graph(ds') by {
      assert forall q :: Exists(ds, q) ==> Exists(ds', q) && At(ds', q) == At(ds, q);
    }
  }

  lemma ClonedClones(ds: Datasets, r: SnapRef, dest: Path, props: map<string, string>)
    requires r.ds in ds && dest !in ds
    ensures forall q ::
      ClonesOf(Cloned(ds, r, dest, props), q) == if q == r then ClonesOf(ds, q) + {dest} else ClonesOf(ds, q)
  {
    forall q
      ensures ClonesOf(Cloned(ds, r, dest, props), q) == if q == r then ClonesOf(ds, q) + {dest} else ClonesOf(ds, q) {}
  }

  lemma ClonedKeepsWF(ds: Datasets, txg: nat, r: SnapRef, dest: Path, props: map<string, string>)
    requires WF(ds, txg) && Exists(ds, r) && dest !in ds && dest.Child? && dest.parent in ds
    ensures WF(Cloned(ds, r, dest, props), txg)
  {
    var ds' := Cloned(ds, r, dest, props);
    ClonedClones(ds, r, dest, props);
    assert forall q :: Exists(ds, q) ==> Exists(ds', q) && At(ds', q) == At(ds, q);
    forall m, s | m in ds' && s in ds'[m].snaps && ds'[m].snaps[s].deferred
      ensures ClonesOf(ds', SnapRef(m, s)) != {}
    {
      assert m in ds && s in ds[m].snaps;
      assert ClonesOf(ds, SnapRef(m, s)) != {};
    }
  }

  lemma DeferredClones(ds: Datasets, r: SnapRef)
    ensures forall q :: ClonesOf(Deferred(ds, r), q) == ClonesOf(ds, q)
  {
    forall q ensures ClonesOf(Deferred(ds, r), q) == ClonesOf(ds, q) {}
  }

  lemma DeferredKeepsWF(ds: Datasets, txg: nat, r: SnapRef)
    requires WF(ds, txg)
    ensures WF(Deferred(ds, r), txg)
  {
    var ds' := Deferred(ds, r);
    DeferredClones(ds, r);
    forall n | n in ds && ds[n].origin.Some?
      ensures Exists(ds', ds[n].origin.value) && At(ds', ds[n].origin.value).txg == At(ds, ds[n].origin.value).txg
    {
      assert n in ClonesOf(ds, ds[n].origin.value);
    }
  }

  lemma WithoutSnapKeepsWF(ds: Datasets, txg: nat, r: SnapRef)
    requires WF(ds, txg) && Exists(ds, r) && ClonesOf(ds, r) == {}
    ensures WF(WithoutSnap(ds, r), txg)
  {
    DeferredKeepsWF(ds, txg, r);
  }

  // ------------------------------------------------------------------ destroy

  lemma SweptClones(ds: Datasets)
    ensures forall q :: ClonesOf(Swept(ds), q) == ClonesOf(ds, q)
  {
    forall q ensures ClonesOf(Swept(ds), q) == ClonesOf(ds, q) {}
  }

  /** Destroying a subtree nothing outside clones. */
  lemma DestroyedKeepsWF(ds: Datasets, txg: nat, n: Path)
    requires WF(ds, txg) && n in ds && !OutsideClone(ds, Tree(ds, n))
    ensures WF(Destroyed(ds, Tree(ds, n)), txg)
  {
    var rest := ds - Tree(ds, n);
    var ds' := Swept(rest);
    SweptClones(rest);
    assert ds'.Keys == rest.Keys;
    forall m | m in ds' && m.Child? ensures m.parent in ds' {
      assert m.parent in ds && m.parent != n && !Below(m.parent, n);
    }
    forall m | m in ds' && ds'[m].origin.Some?
      ensures Exists(ds', ds'[m].origin.value) && At(ds', ds'[m].origin.value) == At(ds, ds[m].origin.value)
    {
      assert m in ClonesOf(rest, ds[m].origin.value);
    }
  }
}
