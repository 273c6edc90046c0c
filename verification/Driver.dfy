/** The volume and snapshot reconcilers on one pool. Everything they do is a run of
    the lifecycle; a delete may be stopped after any zfs command and re-run. */
module Driver {
  import opened Options
  import opened Pool
  import opened MemZfs
  import opened Detach
  import opened DetachLoop
  import opened Lifecycle
  import opened Shapes
  import opened Seqs

  // ----------------------------------------------------------- growing a run

  lemma MoreSteps(run: seq<World>, acts: seq<Action>, more: seq<World>, moreActs: seq<Action>)
    requires Steps(run, acts) && Steps(more, moreActs) && more[0] == run[|acts|]
    ensures Steps(run + more[1..], acts + moreActs)
  {
    var run', acts' := run + more[1..], acts + moreActs;
    forall i | 0 <= i < |acts'| ensures StepAt(run', acts', i) {
      if i < |acts| {
        assert StepAt(run, acts, i);
      } else {
        var j := i - |acts|;
        assert StepAt(more, moreActs, j);
        assert run'[i] == more[j] && run'[i + 1] == more[j + 1];
      }
    }
  }

  lemma MoreInTime(run: seq<World>, acts: seq<Action>, more: seq<World>, moreActs: seq<Action>)
    requires |run| == |acts| + 1 && |more| == |moreActs| + 1 && more[0] == run[|acts|]
    requires AllInTime(run, acts) && forall a :: a in moreActs ==> a.PromoteAway?
    ensures AllInTime(run + more[1..], acts + moreActs)
  {
    var run', acts' := run + more[1..], acts + moreActs;
    forall i | 0 <= i < |acts'| ensures InTimeAt(run', acts', i) {
      if i < |acts| { assert InTimeAt(run, acts, i); } else { assert acts'[i] in moreActs; }
    }
  }

  ghost predicate AllLabelled(acts: seq<Action>) {
    forall a :: a in acts ==> Labels(a)
  }

  /** The run goes on with the commands of a detach. */
  lemma MoreOfRun(run: seq<World>, acts: seq<Action>, more: seq<World>, moreActs: seq<Action>)
    requires Run(run, acts) && AllInTime(run, acts) && AllLabelled(acts)
    requires Steps(more, moreActs) && more[0] == run[|acts|] && forall a :: a in moreActs ==> a.PromoteAway?
    ensures var run', acts' := run + more[1..], acts + moreActs;
      Run(run', acts') && AllInTime(run', acts') && AllLabelled(acts') && run'[|acts'|] == more[|moreActs|]
  {
    MoreSteps(run, acts, more, moreActs);
    MoreInTime(run, acts, more, moreActs);
  }

  /** The next command of a detach, as an action on the world: it is never a drop. */
  lemma DetachAction(w: World, x: Name, b: Datasets) returns (c: Path)
    requires Inv(w) && Staged(w) && GoesOn(w, x) && Letting(w, x)
    requires DropStep(Home(w, x), w.ds, b) || PromoteStep(Home(w, x), w.ds, b)
    ensures var w' := w.(ds := b);
      Next(w, PromoteAway(x, c), w') && Inv(w') && Staged(w') && GoesOn(w', x) && Letting(w', x)
  {
    var full := Home(w, x);
    NothingToDrop(w, x);
    c :| Picked(w.ds, full, c) && !Conflict(w.ds, c) && b == Promoted(w.ds, c);
    PromoteKeepsInv(w, PromoteAway(x, c), w.(ds := b));
    NextKeepsStaged(w, PromoteAway(x, c), w.(ds := b));
  }

  lemma {:induction false} DetachActions(w: World, x: Name, path: seq<Datasets>)
    returns (run: seq<World>, acts: seq<Action>)
    requires Inv(w) && Staged(w) && GoesOn(w, x) && Letting(w, x) && Passes(Home(w, x), path) && path[0] == w.ds
    ensures Steps(run, acts) && run[0] == w && run[|acts|] == w.(ds := path[|path| - 1])
    ensures Inv(run[|acts|]) && Staged(run[|acts|]) && GoesOn(run[|acts|], x) && Letting(run[|acts|], x)
    ensures forall a :: a in acts ==> a.PromoteAway?
  {
    if |path| == 1 {
      run, acts := [w], [];
    } else {
      var k := |path| - 1;
      var r, done := DetachActions(w, x, path[..k]);
      var mid := w.(ds := path[k - 1]);
      var c := DetachAction(mid, x, path[k]);
      OneMoreStep(r, done, PromoteAway(x, c), w.(ds := path[k]));
      run, acts := r + [w.(ds := path[k])], done + [PromoteAway(x, c)];
    }
  }

  /** In the closed world a detach destroys no snapshot. */
  lemma DetachKeepsAll(w: World, x: Name, path: seq<Datasets>, r: SnapRef)
    requires Inv(w) && Letting(w, x) && Passes(Home(w, x), path) && path[0] == w.ds && Exists(w.ds, r)
    ensures Survives(w.ds, r, path[|path| - 1])
  {
    var f := DetachSurvival(Home(w, x), path);
    if r.ds == Home(w, x) { NothingToDrop(w, x); }
    assert r == SnapRef(r.ds, r.short);
    assert Kept(w.ds, r, path[|path| - 1], f[r]);
  }

  datatype DeleteResult =
    | Gone                       // the finalizer is released
    | Later(reason: DetachResult) // the reconcile failed and is retried

  lemma FewerOrSame<K, V>(a: map<K, V>, b: map<K, V>)
    requires a.Keys <= b.Keys
    ensures |a| <= |b|
  {
    assert |a| == |a.Keys| && |b| == |b.Keys|;
    Subset(a.Keys, b.Keys);
  }

  lemma DeferredShrinks(ds: Datasets, r: SnapRef, full: Path)
    ensures Size(Deferred(ds, r), full) <= Size(ds, full)
  {
    if full in ds { FewerOrSame(Deferred(ds, r)[full].snaps, ds[full].snaps); }
  }

  /** A mark of a name that is there, or of none because none is left. */
  lemma MarkedLets(w: World, x: Name, w': World)
    requires Inv(w) && Staged(w) && Next(w, Mark(x), w') && Timely(w, x)
    requires w.stage[x].at.Some? ==> Exists(w.ds, w.stage[x].at.value)
    requires w.stage[x].at.None? ==> Letting(w, x)
    ensures Letting(w', x)
  {
    var at := w.stage[x].at;
    if at.Some? { ReleaseFound(w, x, at.value, w.(ds := w'.ds)); }
  }

  /** In the closed world nothing on the pool is a reason to refuse a delete. */
  lemma NothingToRefuse(w: World, x: Name)
    requires Inv(w) && x in w.objs
    ensures Clear(w.ds, Home(w, x), set y | y in w.objs :: Child(w.base, y))
  {
    forall c | c in w.ds && w.ds[c].origin.Some? ensures c in set y | y in w.objs :: Child(w.base, y) {
      assert c == Child(w.base, c.leaf);
    }
    if Home(w, x) in w.ds {
      forall s | s in w.ds[Home(w, x)].snaps ensures OfDriver(Text(s)) {
        DriverShortMeans(s);
        assert Exists(w.ds, SnapRef(Home(w, x), s));
      }
    }
  }

  lemma NothingLeft(w: World)
    requires Inv(w) && w.objs == map[]
    ensures w.ds == w.floor
  {
  }

  lemma NoOutsideClones(w: World, x: Name)
    requires Inv(w) && Home(w, x) in w.ds && Size(w.ds, Home(w, x)) == 0
    ensures w.ds[Home(w, x)].snaps == map[] && !OutsideClone(w.ds, {Home(w, x)})
  {
    forall c | c in w.ds && w.ds[c].origin.Some? ensures w.ds[c].origin.value.ds != Home(w, x) {
      assert Exists(w.ds, w.ds[c].origin.value);
    }
  }

  lemma CutOne(ds: Datasets, ds': Datasets, q: SnapRef, t: nat)
    requires q.ds in ds && CutTogether(ds, ds', [q], t)
    ensures ds' == Cut(ds, q, t)
  {
    var c := Cut(ds, q, t);
    forall n | n in ds ensures ds'[n] == c[n] {
      forall s ensures s in ds'[n].snaps <==> s in c[n].snaps {
        assert Exists(ds', SnapRef(n, s)) <==> s in ds'[n].snaps;
        assert Exists(ds, SnapRef(n, s)) <==> s in ds[n].snaps;
      }
      forall s | s in ds'[n].snaps ensures ds'[n].snaps[s] == c[n].snaps[s] {
        assert ds'[n].snaps[s] == At(ds', SnapRef(n, s));
        assert SnapRef(n, s) != q ==> Exists(ds, SnapRef(n, s));
      }
      assert ds'[n].snaps == c[n].snaps;
    }
  }

  class Driver {
    const mem: Mem
    const base: Path
    ghost const floor: Datasets
    var objs: map<Name, Obj>
    var used: set<Name>
    ghost var stage: map<Name, Stage>
    ghost var run: seq<World>
    ghost var acts: seq<Action>

    ghost function W(): World
      reads this, mem
    {
      World(base, floor, mem.ds, mem.txg, objs, used, stage)
    }

    /** The world is the last state of a run of the lifecycle in which nothing comes too late. */
    ghost predicate Valid()
      reads this, mem
    {
      mem.Valid() && Run(run, acts) && AllInTime(run, acts) && run[|acts|] == W() && AllLabelled(acts)
    }

    lemma Invariant()
      requires Valid()
      ensures Inv(W()) && Staged(W())
    {
      RunKeepsInv(run, acts, |acts|);
    }

    /** A dataset is a backing clone exactly if it is a snapshot's. */
    lemma Roles(x: Name)
      requires Valid() && x in objs && Child(base, x) in mem.ds
      ensures IsBacking(mem.ds, Child(base, x)) <==> objs[x].CsiSnapshot?
    {
      BackingIsOfSnapshots(run, acts, |acts|, x);
    }

    /** The driver takes over a pool that has `base` and nothing under it. */
    constructor (mem: Mem, base: Path)
      requires mem.Valid() && base in mem.ds
      requires forall n :: n in mem.ds ==> mem.ds[n].snaps == map[] && mem.ds[n].origin.None?
      requires forall n :: n in mem.ds && n.Child? ==> n.parent != base
      ensures Valid() && this.mem == mem && this.base == base && objs == map[] && acts == []
    {
      this.mem, this.base, this.floor, objs, used, stage := mem, base, mem.ds, map[], {}, map[];
      run, acts := [World(base, mem.ds, mem.ds, mem.txg, map[], {}, map[])], [];
    }

    ghost method Record(a: Action)
      requires mem.Valid() && Run(run, acts) && AllInTime(run, acts) && Next(run[|acts|], a, W())
      requires InTime(run[|acts|], a) && AllLabelled(acts) && Labels(a)
      modifies this`run, this`acts
      ensures Valid() && run == old(run) + [W()] && acts == old(acts) + [a]
    {
      OneMoreStep(run, acts, a, W());
      OneMoreInTime(run, acts, a, W());
      run, acts := run + [W()], acts + [a];
    }

    method CreateVolume(x: Name, kind: Kind, size: int, props: map<string, string>) returns (r: Outcome)
      requires Valid() && x !in used && x.text != ""
      modifies this, mem
      ensures Valid()
      ensures r.Ok? <==> (kind.Zvol? ==> size > 0)
      ensures r.Ok? ==> acts == old(acts) + [NewVolume(x, kind, size, props[ROLE := "volume"])]
      ensures r.Err? ==> W() == old(W()) && acts == old(acts)
    {
      Invariant();
      FreshName(W(), x);
      CreatedGrows(mem.ds, Child(base, x), kind, size, props[ROLE := "volume"]);
      r := mem.Create(Child(base, x), kind, size, props[ROLE := "volume"]);
      if r.Ok? {
        objs, used := objs[x := Volume(false, 0, false)], used + {x};
        Record(NewVolume(x, kind, size, props[ROLE := "volume"]));
      }
    }

    /** Cut one snapshot of `v` and clone it as the dataset of `x`. */
    method SnapshotAndClone(v: Name, s: Short, x: Name, props: map<string, string>) returns (r: Outcome)
      requires Valid() && Child(base, v) in mem.ds && x !in used && OwnerName(s) == x
      modifies mem
      ensures mem.Valid() && r.Ok? && mem.txg == old(mem.txg) + 1
      ensures Grows(old(mem.ds), mem.ds, Child(base, x), CloneOf(old(mem.ds), SnapRef(Child(base, v), s), props),
          Some(SnapRef(Child(base, v), s)), mem.txg)
    {
      Invariant();
      FreshName(W(), x);
      var q := SnapRef(Child(base, v), s);
      assert !Exists(mem.ds, q);
      r := mem.Snapshot([q]);
      CutOne(old(mem.ds), mem.ds, q, mem.txg);
      CutGrows(old(mem.ds), q, mem.txg, Child(base, x), props);
      r := mem.Clone(q, Child(base, x), props);
    }

    method CreateSnapshot(x: Name, v: Name) returns (r: Outcome)
      requires Valid() && x !in used && "csi-snap-" < x.text
      requires v in objs && objs[v].Volume? && Child(base, v) in mem.ds
      modifies this, mem
      ensures Valid() && r.Ok? && acts == old(acts) + [TakeSnapshot(x, v, map[ROLE := BACKING])]
      ensures Child(base, x) in mem.ds && SameShape(mem.ds[Child(base, x)], old(mem.ds)[Child(base, v)])
    {
      r := SnapshotAndClone(v, Direct(x), x, map[ROLE := BACKING]);
      objs, used := objs[x := CsiSnapshot(v, mem.txg, false)], used + {x};
      Record(TakeSnapshot(x, v, map[ROLE := BACKING]));
    }

    method CreateClone(x: Name, v: Name, props: map<string, string>) returns (r: Outcome)
      requires Valid() && x !in used && x.text != "" && v in objs && objs[v].Volume? && Child(base, v) in mem.ds
      modifies this, mem
      ensures Valid() && r.Ok? && acts == old(acts) + [CloneVolume(x, v, props[ROLE := "volume"])]
      ensures Child(base, x) in mem.ds && SameShape(mem.ds[Child(base, x)], old(mem.ds)[Child(base, v)])
    {
      r := SnapshotAndClone(v, CloneOrigin(x), x, props[ROLE := "volume"]);
      objs, used := objs[x := Volume(true, mem.txg, false)], used + {x};
      Record(CloneVolume(x, v, props[ROLE := "volume"]));
    }

    /** Clone the raw snapshot of `s`, where it is found, as the dataset of `x`. */
    method CloneRaw(x: Name, s: Name, props: map<string, string>) returns (r: Outcome)
      requires Valid() && x !in used && s in objs && objs[s].CsiSnapshot? && !objs[s].dying
      modifies mem
      ensures mem.Valid() && r.Ok? && mem.txg == old(mem.txg) && old(Locate(W(), s)).Some?
      ensures Grows(old(mem.ds), mem.ds, Child(base, x), CloneOf(old(mem.ds), old(Locate(W(), s)).value, props),
          None, mem.txg)
    {
      Invariant();
      FreshName(W(), x);
      assert ObjectOk(W(), s);
      LocateFinds(W(), s);
      var raw := LocateRaw(mem.ds, Child(base, s), SnapRef(Child(base, objs[s].source), Direct(s)), Direct(s));
      assert raw == Locate(W(), s);
      ClonedGrows(mem.ds, raw.value, Child(base, x), props);
      r := mem.Clone(raw.value, Child(base, x), props);
    }

    /** The snapshot of `s` is on a dataset like its backing clone. */
    lemma Alike(s: Name)
      requires Valid() && s in objs && objs[s].CsiSnapshot? && !objs[s].dying
      ensures Child(base, s) in mem.ds && Locate(W(), s).Some? && Exists(mem.ds, Locate(W(), s).value)
      ensures SameShape(mem.ds[Locate(W(), s).value.ds], mem.ds[Child(base, s)])
    {
      Invariant();
      RunIsAlike(run, acts, |acts|);
      LocatedAlike(W(), s);
    }

    /** A volume restored from a live snapshot, wherever promotes have put its raw snapshot. */
    method CreateRestore(x: Name, s: Name, props: map<string, string>) returns (r: Outcome)
      requires Valid() && x !in used && x.text != "" && s in objs && objs[s].CsiSnapshot? && !objs[s].dying
      modifies this, mem
      ensures Valid() && r.Ok? && acts == old(acts) + [Restore(x, s, props[ROLE := "volume"])]
      ensures Child(base, s) in old(mem.ds) && Child(base, x) in mem.ds
      ensures SameShape(mem.ds[Child(base, x)], old(mem.ds)[Child(base, s)])
    {
      Alike(s);
      r := CloneRaw(x, s, props[ROLE := "volume"]);
      objs, used := objs[x := Volume(false, 0, false)], used + {x};
      Record(Restore(x, s, props[ROLE := "volume"]));
    }

    /** The deletion mark on the object; its finalizer keeps it. */
    method Delete(x: Name)
      requires Valid() && x in objs && !objs[x].dying
      modifies this
      ensures Valid() && acts == old(acts) + [BeginDelete(x)] && old(run) <= run
      ensures objs == old(objs)[x := old(objs)[x].(dying := true)]
    {
      objs := objs[x := objs[x].(dying := true)];
      Record(BeginDelete(x));
    }

    /** The lookup of the object's own snapshot. */
    method LookOwn(x: Name) returns (target: Option<SnapRef>)
      requires Valid() && x in objs && objs[x].dying
      modifies this`run, this`acts, this`stage
      ensures Valid() && old(run) <= run && x in stage && stage[x] == Looked(target) && Timely(W(), x)
      ensures if target.Some? then Exists(mem.ds, target.value) else Letting(W(), x)
    {
      Invariant();
      LocateFinds(W(), x);
      target := match objs[x]
        case Volume(cloned, _, _) => if cloned then LocateCloneOrigin(mem.ds, Child(base, x), CloneOrigin(x)) else None
        case CsiSnapshot(source, _, _) =>
          LocateRaw(mem.ds, Child(base, x), SnapRef(Child(base, source), Direct(x)), Direct(x));
      assert target == Locate(W(), x);
      stage := stage[x := Looked(target)];
      MarkAtOnceIsTimely(run[|acts|], W(), x);
      Record(Look(x, target));
    }

    /** `releaseRaw` and `releaseCloneOrigin`: give up the object's own snapshot. */
    method ReleaseOwn(x: Name, calls: nat) returns (stopped: bool, left: nat)
      requires Valid() && x in objs && objs[x].dying
      modifies this`run, this`acts, this`stage, mem
      ensures Valid() && old(run) <= run && mem.txg == old(mem.txg)
      ensures stopped ==> calls == 0
      ensures !stopped ==> Letting(W(), x) && GoesOn(W(), x) && calls <= left + 1
      ensures Size(mem.ds, Child(base, x)) <= Size(old(mem.ds), Child(base, x))
    {
      var target := LookOwn(x);
      Invariant();
      stopped, left := false, calls;
      if target.Some? {
        if calls == 0 { stopped := true; return; }
        left := calls - 1;
        DeferredShrinks(mem.ds, target.value, Child(base, x));
        mem.DestroySnapshotDeferred(target.value);
      }
      stage := stage[x := Marked];
      MarkedLets(run[|acts|], x, W());
      Record(Mark(x));
    }

    /** The commands of a detach, one by one. */
    ghost method RecordDetach(w: World, x: Name, path: seq<Datasets>)
      requires mem.Valid() && Run(run, acts) && AllInTime(run, acts) && AllLabelled(acts) && run[|acts|] == w
      requires Inv(w) && Staged(w) && GoesOn(w, x) && Letting(w, x)
      requires Passes(Home(w, x), path) && path[0] == w.ds && W() == w.(ds := path[|path| - 1])
      modifies this`run, this`acts
      ensures Valid() && old(run) <= run && GoesOn(W(), x) && Letting(W(), x)
    {
      var ws, more := DetachActions(w, x, path);
      MoreOfRun(run, acts, ws, more);
      run, acts := run + ws[1..], acts + more;
    }

    /** Empty the object's dataset; every command is a step of the run. */
    method DetachHome(x: Name, calls: nat) returns (r: DetachResult, left: nat)
      requires Valid() && GoesOn(W(), x) && Letting(W(), x)
      modifies this`run, this`acts, mem
      ensures Valid() && old(run) <= run && GoesOn(W(), x) && Letting(W(), x)
      ensures forall q :: Exists(old(mem.ds), q) ==> Survives(old(mem.ds), q, mem.ds)
      ensures left <= calls && Size(mem.ds, Child(base, x)) + (calls - left) <= Size(old(mem.ds), Child(base, x))
      ensures match r
        case Detached => Size(mem.ds, Child(base, x)) == 0
        case Stopped => left == 0 && Size(mem.ds, Child(base, x)) > 0
        case NotConverged => Size(mem.ds, Child(base, x)) + 100 <= Size(old(mem.ds), Child(base, x))
        case _ => false
    {
      Invariant();
      ghost var w := W();
      NothingToRefuse(w, x);
      var known := set y | y in objs :: Child(base, y);
      ghost var path;
      r, left, path := DetachAndClean(mem, Child(base, x), known, calls);
      forall q | Exists(w.ds, q) ensures Survives(w.ds, q, mem.ds) { DetachKeepsAll(w, x, path, q); }
      RecordDetach(w, x, path);
    }

    /** The final, non-recursive destroy meets no snapshot, child or outside clone. */
    method DestroyOwn(x: Name)
      requires Valid() && GoesOn(W(), x) && Child(base, x) in mem.ds && Size(mem.ds, Child(base, x)) == 0
      modifies this`run, this`acts, mem
      ensures Valid() && old(run) <= run && GoesOn(W(), x) && Child(base, x) !in mem.ds
    {
      Invariant();
      NoChildren(W(), x);
      NoOutsideClones(W(), x);
      var r := mem.Destroy(Child(base, x), false);
      Record(DestroyHome(x));
    }

    /** The emptied dataset goes, and then the object. */
    method Remove(x: Name, calls: nat) returns (gone: bool)
      requires Valid() && GoesOn(W(), x) && Size(mem.ds, Child(base, x)) == 0
      modifies this, mem
      ensures Valid() && old(run) <= run && used == old(used)
      ensures objs == if gone then old(objs) - {x} else old(objs)
      ensures !gone ==> calls == 0
    {
      if Child(base, x) in mem.ds {
        if calls == 0 { return false; }
        DestroyOwn(x);
      }
      objs, stage := objs - {x}, stage - {x};
      Record(Finish(x));
      return true;
    }

    /** One reconcile of a terminating object, from the top, stopped after at most
        `calls` zfs commands. It is never refused; it ends early only when it was
        stopped, or when the dataset holds 100 snapshots or more. */
    method ReconcileDelete(x: Name, calls: nat) returns (r: DeleteResult)
      requires Valid() && x in objs && objs[x].dying
      modifies this, mem
      ensures Valid() && old(run) <= run
      ensures objs == (if r.Gone? then old(objs) - {x} else old(objs)) && used == old(used)
      ensures r == Gone || r == Later(Stopped) || r == Later(NotConverged)
      ensures r == Later(Stopped) ==> calls < Size(old(mem.ds), Child(base, x)) + 2
      ensures r == Later(NotConverged) ==>
          Size(mem.ds, Child(base, x)) + 100 <= Size(old(mem.ds), Child(base, x))
    {
      var stopped, left := ReleaseOwn(x, calls);
      if stopped { return Later(Stopped); }
      var d;
      d, left := DetachHome(x, left);
      if !d.Detached? { return Later(d); }
      var gone := Remove(x, left);
      return if gone then Gone else Later(Stopped);
    }

    /** Retried without being stopped, a delete always finishes. */
    method DeleteUntilGone(x: Name)
      requires Valid() && x in objs && objs[x].dying
      modifies this, mem
      ensures Valid() && old(run) <= run && objs == old(objs) - {x}
    {
      var r := Later(NotConverged);
      while r != Gone
        invariant Valid() && old(run) <= run
        invariant objs == if r.Gone? then old(objs) - {x} else old(objs)
        decreases if r.Gone? then 0 else Size(mem.ds, Child(base, x)) + 1
      {
        r := ReconcileDelete(x, Size(mem.ds, Child(base, x)) + 2);
      }
    }

    /** Deleting every object, in any order, leaves the pool as it was found. */
    method DeleteEverything()
      requires Valid()
      modifies this, mem
      ensures Valid() && old(run) <= run && objs == map[] && mem.ds == floor
    {
      while objs != map[]
        invariant Valid() && old(run) <= run
        decreases |objs.Keys|
      {
        var x :| x in objs;
        if !objs[x].dying { Delete(x); }
        DeleteUntilGone(x);
      }
      Invariant();
      NothingLeft(W());
    }
  }
}
