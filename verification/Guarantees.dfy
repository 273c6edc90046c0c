/** What the ownership invariant means for the objects: the promises the
    lifecycle tests check on samples, for every state of every run. */
module Guarantees {
  import opened Pool
  import opened PoolInvariant
  import opened Lifecycle

  /** Why a snapshot may be on the pool: it belongs to an object, or it is marked
      and still pinned by a clone, so that ZFS removes it by itself. */
  ghost predicate Accounted(w: World, r: SnapRef)
    requires Exists(w.ds, r)
  {
    || (At(w.ds, r).deferred && ClonesOf(w.ds, r) != {})
    || (r.short.Direct? && r.short.name in w.objs && w.objs[r.short.name].CsiSnapshot?)
    || (r.short.CloneOrigin? && r.short.dest in w.objs && w.objs[r.short.dest].Volume? && w.objs[r.short.dest].cloned)
  }

  /** What the lifecycle tests look at after every step. */
  ghost predicate Verified(w: World) {
    && CheckPasses(w.ds)
    && (forall x :: Live(w, x) ==> Home(w, x) in w.ds)
    && (forall x :: Live(w, x) && w.objs[x].CsiSnapshot? ==>
          Locate(w, x).Some? && Exists(w.ds, Locate(w, x).value) && !At(w.ds, Locate(w, x).value).deferred)
    && (forall n :: n in w.ds ==> n in w.floor || (n.Child? && n.parent == w.base && n.leaf in w.objs))
    && (forall r :: Exists(w.ds, r) ==> Accounted(w, r))
  }

  /** All the places a short name is found when the whole pool is scanned. */
  ghost function Scan(ds: Datasets, s: Short): set<SnapRef> {
    set n | n in ds && s in ds[n].snaps :: SnapRef(n, s)
  }

  /** For a live snapshot the constant-time lookup finds the one raw snapshot a scan
      of the pool finds: the one cut when the object was created, unmarked. */
  lemma LocateAgreesWithScan(w: World, x: Name)
    requires Inv(w) && Live(w, x) && Own(x, w.objs[x]).Some?
    ensures Locate(w, x).Some? && Scan(w.ds, Own(x, w.objs[x]).value) == {Locate(w, x).value}
    ensures Exists(w.ds, Locate(w, x).value) && Locate(w, x).value.short == Own(x, w.objs[x]).value
    ensures At(w.ds, Locate(w, x).value).txg == w.objs[x].cut && !At(w.ds, Locate(w, x).value).deferred
  {
    assert ObjectOk(w, x);
    LocateFinds(w, x);
    var r := Locate(w, x).value;
    forall q | q in Scan(w.ds, r.short) ensures q == r { assert Exists(w.ds, q); }
    assert r == SnapRef(r.ds, r.short);
  }

  lemma InvVerifies(w: World)
    requires Inv(w)
    ensures Verified(w)
  {
    WellFormedPassesCheck(w.ds, w.txg);
    forall x | Live(w, x) ensures Home(w, x) in w.ds { assert ObjectOk(w, x); }
    forall x | Live(w, x) && w.objs[x].CsiSnapshot?
      ensures Locate(w, x).Some? && Exists(w.ds, Locate(w, x).value) && !At(w.ds, Locate(w, x).value).deferred
    {
      LocateAgreesWithScan(w, x);
    }
    forall r | Exists(w.ds, r) ensures Accounted(w, r) {
      assert r.short in w.ds[r.ds].snaps && r == SnapRef(r.ds, r.short);
    }
  }

  /** In every state of every run whose marks and promotes come in time, these checks pass. */
  lemma EveryRunVerifies(run: seq<World>, acts: seq<Action>, i: nat)
    requires Run(run, acts) && AllInTime(run, acts) && i < |run|
    ensures Verified(run[i])
  {
    RunKeepsInv(run, acts, i);
    InvVerifies(run[i]);
  }

  lemma {:induction false} FloorIsFixed(run: seq<World>, acts: seq<Action>, i: nat)
    requires Run(run, acts) && i < |run|
    ensures run[i].floor == run[0].floor && run[i].base == run[0].base
  {
    if i > 0 {
      FloorIsFixed(run, acts, i - 1);
      assert StepAt(run, acts, i - 1);
    }
  }

  /** Deleting everything leaves the pool as it was found. */
  lemma DrainedLeavesTheFloor(run: seq<World>, acts: seq<Action>, i: nat)
    requires Run(run, acts) && AllInTime(run, acts) && i < |run| && run[i].objs == map[]
    ensures run[i].ds == run[0].ds
  {
    RunKeepsInv(run, acts, i);
    FloorIsFixed(run, acts, i);
  }

  lemma {:induction false} ObjectsAreUsed(run: seq<World>, acts: seq<Action>, i: nat)
    requires Run(run, acts) && i < |run|
    ensures run[i].objs.Keys <= run[i].used
  {
    if i > 0 {
      ObjectsAreUsed(run, acts, i - 1);
      assert StepAt(run, acts, i - 1);
    }
  }

  lemma InstantStep(run: seq<World>, acts: seq<Action>, x: Name, j: nat)
    requires Run(run, acts) && j < |acts| && x in run[j].objs && x in run[j + 1].objs
    ensures run[j + 1].objs[x].cut == run[j].objs[x].cut && Own(x, run[j + 1].objs[x]) == Own(x, run[j].objs[x])
  {
    ObjectsAreUsed(run, acts, j);
    assert StepAt(run, acts, j);
  }

  lemma {:induction false} UsedGrows(run: seq<World>, acts: seq<Action>, x: Name, i: nat, j: nat)
    requires Run(run, acts) && i <= j < |run| && x in run[i].objs
    ensures x in run[j].used
    decreases j - i
  {
    ObjectsAreUsed(run, acts, i);
    if i < j {
      UsedGrows(run, acts, x, i, j - 1);
      assert StepAt(run, acts, j - 1);
    }
  }

  /** Names are never given out again: an object present twice was present throughout. */
  lemma {:induction false} StaysUntilGone(run: seq<World>, acts: seq<Action>, x: Name, i: nat, j: nat)
    requires Run(run, acts) && i < j < |run| && x in run[i].objs && x in run[j].objs
    ensures x in run[j - 1].objs
  {
    UsedGrows(run, acts, x, i, j - 1);
    assert StepAt(run, acts, j - 1);
  }

  /** An object never changes the instant it stands for, in any run. */
  lemma {:induction false} InstantIsForever(run: seq<World>, acts: seq<Action>, x: Name, i: nat, j: nat)
    requires Run(run, acts) && i <= j < |run| && x in run[i].objs && x in run[j].objs
    ensures run[j].objs[x].cut == run[i].objs[x].cut && Own(x, run[j].objs[x]) == Own(x, run[i].objs[x])
    decreases j - i
  {
    if i < j {
      StaysUntilGone(run, acts, x, i, j);
      InstantIsForever(run, acts, x, i, j - 1);
      InstantStep(run, acts, x, j - 1);
    }
  }

  /** Whatever was deleted or promoted since, a restore is a clone of the snapshot
      that was cut when the ZfsSnapshot was created. */
  lemma RestoreClonesTheInstant(run: seq<World>, acts: seq<Action>, i: nat, j: nat)
    requires Run(run, acts) && AllInTime(run, acts) && i < j < |acts|
    requires acts[i].TakeSnapshot? && acts[j].Restore? && acts[j].of == acts[i].x
    ensures var w' := run[j + 1]; var d := Home(w', acts[j].x);
      && d in w'.ds && w'.ds[d].origin.Some? && Exists(w'.ds, w'.ds[d].origin.value)
      && w'.ds[d].origin.value.short == Direct(acts[i].x)
      && At(w'.ds, w'.ds[d].origin.value).txg == run[i].txg + 1
  {
    assert StepAt(run, acts, i) && StepAt(run, acts, j);
    InstantIsForever(run, acts, acts[i].x, i + 1, j);
    RunKeepsInv(run, acts, j);
    LocateAgreesWithScan(run[j], acts[i].x);
  }

  /** The snapshot of `y`, found in both worlds, is unmarked and of the same instant. */
  ghost predicate SameInstant(w: World, w': World, y: Name)
    requires y in w.objs && y in w'.objs
  {
    && Locate(w, y).Some? && Exists(w.ds, Locate(w, y).value)
    && Locate(w', y).Some? && Exists(w'.ds, Locate(w', y).value)
    && Locate(w', y).value.short == Locate(w, y).value.short
    && At(w'.ds, Locate(w', y).value).txg == At(w.ds, Locate(w, y).value).txg
    && !At(w'.ds, Locate(w', y).value).deferred
  }

  /** No command of anybody's delete touches a live object: its dataset stays where
      it is, and the snapshot it owns stays, unmarked, from the same instant. */
  lemma LiveIsUnharmed(w: World, a: Action, w': World, y: Name)
    requires Inv(w) && Staged(w) && Next(w, a, w') && InTime(w, a) && Live(w, y) && a != BeginDelete(y)
    ensures Live(w', y) && Home(w', y) in w'.ds && w'.objs[y] == w.objs[y]
    ensures Own(y, w.objs[y]).Some? ==> SameInstant(w, w', y)
  {
    NextKeepsInv(w, a, w');
    assert ObjectOk(w, y);
    assert Live(w', y) && ObjectOk(w', y);
    if Own(y, w.objs[y]).Some? {
      LocateAgreesWithScan(w, y);
      LocateAgreesWithScan(w', y);
    }
  }
}
