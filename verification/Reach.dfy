/** Building runs step by step: which clones hang off which datasets, what each step does to
    that, and states that are reached from every empty driver world. */
module Reach {
  import opened Options
  import opened Pool
  import opened Promote
  import opened Detach
  import opened Lifecycle
  import opened Overtaken

  /** Every enabled action can be taken. */
  lemma Take(w: World, a: Action) returns (w': World)
    requires Inv(w) && Staged(w) && Enabled(w, a) && InTime(w, a)
    ensures Next(w, a, w')
  {
    match a {
      case NewVolume(x, kind, size, props) =>
        FreshName(w, x);
        CreatedGrows(w.ds, Home(w, x), kind, size, props);
        w' := w.(ds := Created(w.ds, Home(w, x), kind, size, props),
                 objs := w.objs[x := Volume(false, 0, false)], used := w.used + {x});
      case TakeSnapshot(x, v, props) =>
        var r := SnapRef(Home(w, v), Direct(x));
        FreshName(w, x);
        CutGrows(w.ds, r, w.txg + 1, Home(w, x), props);
        w' := w.(ds := Cloned(Cut(w.ds, r, w.txg + 1), r, Home(w, x), props), txg := w.txg + 1,
                 objs := w.objs[x := CsiSnapshot(v, w.txg + 1, false)], used := w.used + {x});
      case CloneVolume(x, v, props) =>
        var r := SnapRef(Home(w, v), CloneOrigin(x));
        FreshName(w, x);
        CutGrows(w.ds, r, w.txg + 1, Home(w, x), props);
        w' := w.(ds := Cloned(Cut(w.ds, r, w.txg + 1), r, Home(w, x), props), txg := w.txg + 1,
                 objs := w.objs[x := Volume(true, w.txg + 1, false)], used := w.used + {x});
      case Restore(x, s, props) =>
        FreshName(w, x);
        ClonedGrows(w.ds, Locate(w, s).value, Home(w, x), props);
        w' := w.(ds := Cloned(w.ds, Locate(w, s).value, Home(w, x), props),
                 objs := w.objs[x := Volume(false, 0, false)], used := w.used + {x});
      case BeginDelete(x) => w' := w.(objs := w.objs[x := w.objs[x].(dying := true)]);
      case Look(x, at) => w' := w.(stage := w.stage[x := Looked(at)]);
      case Mark(x) =>
        w' := w.(ds := if w.stage[x].at.Some? then Deferred(w.ds, w.stage[x].at.value) else w.ds,
                 stage := w.stage[x := Marked]);
      case Drop(x, s) => w' := w.(ds := WithoutSnap(w.ds, SnapRef(Home(w, x), s)));
      case PromoteAway(_, c) => w' := w.(ds := Promoted(w.ds, c));
      case PromoteLate(c) => w' := w.(ds := Promoted(w.ds, c));
      case DestroyHome(x) => w' := w.(ds := Destroyed(w.ds, {Home(w, x)}));
      case Finish(x) => w' := w.(objs := w.objs - {x}, stage := w.stage - {x});
    }
  }

  // -------------------------------------------------------------- what is reached

  /** Some run in time leads from `w0` to `w`. */
  ghost predicate Reached(w0: World, w: World) {
    exists run, acts :: Run(run, acts) && AllInTime(run, acts) && run[0] == w0 && run[|acts|] == w
  }

  lemma ReachedAtOnce(w0: World)
    requires Init(w0)
    ensures Reached(w0, w0)
  {
    assert Run([w0], []) && AllInTime([w0], []) && [w0][0] == w0;
  }

  lemma Go(w0: World, w: World, a: Action, w': World)
    requires Reached(w0, w) && Next(w, a, w') && InTime(w, a)
    ensures Reached(w0, w')
  {
    var run, acts :| Run(run, acts) && AllInTime(run, acts) && run[0] == w0 && run[|acts|] == w;
    OneMoreStep(run, acts, a, w');
    OneMoreInTime(run, acts, a, w');
    var run', acts' := run + [w'], acts + [a];
    assert Run(run', acts') && run'[0] == w0 && run'[|acts'|] == w';
  }

  lemma ReachedIsFine(w0: World, w: World)
    requires Reached(w0, w)
    ensures Inv(w) && Staged(w)
  {
    var run, acts :| Run(run, acts) && AllInTime(run, acts) && run[0] == w0 && run[|acts|] == w;
    RunKeepsInv(run, acts, |acts|);
  }

  lemma Act(w0: World, w: World, a: Action) returns (w': World)
    requires Reached(w0, w) && Enabled(w, a) && InTime(w, a)
    ensures Next(w, a, w') && Reached(w0, w')
  {
    ReachedIsFine(w0, w);
    w' := Take(w, a);
    Go(w0, w, a, w');
  }

  // --------------------------------------------------------------- what hangs

  /** The dataset of `a` hangs off the one of `b`. */
  ghost predicate Hangs(w: World, a: Name, b: Name) {
    Dependent(w.ds, Home(w, b), Home(w, a))
  }

  /** `p` has a snapshot of its own, and it is not on its dataset. */
  ghost predicate Bare(w: World, p: Name) {
    && Live(w, p) && Home(w, p) in w.ds && Own(p, w.objs[p]).Some?
    && Own(p, w.objs[p]).value !in w.ds[Home(w, p)].snaps
  }

  /** The delete of `x` has given up its snapshot, and goes on. */
  ghost predicate Underway(w: World, x: Name) {
    GoesOn(w, x) && Letting(w, x)
  }

  /** `c` is promoted off `e`. */
  ghost predicate Swaps(w: World, w': World, c: Name, e: Name) {
    Graph(w.ds) && Graph(w'.ds) && Hangs(w, c, e) && w' == w.(ds := Promoted(w.ds, Home(w, c)))
  }

  /** The two trade places, and `c` takes over what `e` hung off. */
  lemma SwapHangs(w: World, w': World, c: Name, e: Name, f: Name)
    requires Swaps(w, w', c, e) && Hangs(w, e, f)
    ensures Hangs(w', e, c) && Hangs(w', c, f)
  {
    ParentIsOther(w.ds, Home(w, c));
  }

  lemma SwapLeaves(w: World, w': World, c: Name, e: Name, g: Name, h: Name)
    requires Swaps(w, w', c, e) && Hangs(w, g, h) && g != c && g != e && h != e
    ensures Hangs(w', g, h)
  {
  }

  lemma SwapBare(w: World, w': World, c: Name, e: Name, p: Name)
    requires Swaps(w, w', c, e) && Bare(w, p) && p != c && p != e
    ensures Bare(w', p)
  {
  }

  lemma SwapUnderway(w0: World, w: World, w': World, c: Name, e: Name, y: Name)
    requires Reached(w0, w) && Next(w, PromoteAway(e, Home(w, c)), w') && Underway(w, y) && y != e
    ensures Underway(w', y)
  {
    ReachedIsFine(w0, w);
    LettingStays(w, PromoteAway(e, Home(w, c)), w', y);
  }

  /** The terminating `e` has `c` promoted away. */
  lemma Away(w0: World, w: World, e: Name, c: Name) returns (w': World)
    requires Reached(w0, w) && Underway(w, e) && Hangs(w, c, e)
    ensures Next(w, PromoteAway(e, Home(w, c)), w') && Reached(w0, w') && Swaps(w, w', c, e)
  {
    ReachedIsFine(w0, w);
    NothingToDrop(w, e);
    w' := Act(w0, w, PromoteAway(e, Home(w, c)));
    ReachedIsFine(w0, w');
  }

  // ---------------------------------------------------------- deletes that begin

  /** The same datasets, off the same origins, with no new snapshot and perhaps new marks. */
  ghost predicate Thins(ds: Datasets, ds': Datasets) {
    && OriginsExist(ds') && ds'.Keys == ds.Keys && Fewer(ds, ds')
    && forall n :: n in ds ==> ds'[n].origin == ds[n].origin && ds'[n].snaps.Keys <= ds[n].snaps.Keys
  }

  lemma DeferredThins(ds: Datasets, r: SnapRef)
    requires OriginsExist(Deferred(ds, r))
    ensures Thins(ds, Deferred(ds, r))
  {
  }

  /** The lookup was right, and nothing has come in between. */
  ghost predicate Sure(w: World, c: Name) {
    && Enabled(w, Mark(c)) && InTime(w, Mark(c))
    && if w.stage[c].at.Some? then Exists(w.ds, w.stage[c].at.value) else Letting(w, c)
  }

  lemma LookIsRight(w0: World, w: World, c: Name)
    requires Reached(w0, w) && c in w.objs && w.objs[c].dying
    ensures match Locate(w, c)
      case Some(r) => Exists(w.ds, r) && Own(c, w.objs[c]) == Some(r.short)
      case None => Letting(w, c)
  {
    ReachedIsFine(w0, w);
    LocateFinds(w, c);
    assert ObjectOk(w, c);
  }

  lemma LookNow(w0: World, w: World, c: Name) returns (w': World)
    requires Reached(w0, w) && c in w.objs && w.objs[c].dying
    ensures Next(w, Look(c, Locate(w, c)), w') && Reached(w0, w') && Sure(w', c)
    ensures w' == w.(stage := w.stage[c := Looked(Locate(w, c))])
  {
    LookIsRight(w0, w, c);
    w' := Act(w0, w, Look(c, Locate(w, c)));
  }

  lemma MarkNow(w0: World, w: World, c: Name) returns (w': World)
    requires Reached(w0, w) && Sure(w, c)
    ensures Next(w, Mark(c), w') && Reached(w0, w') && Underway(w', c) && Thins(w.ds, w'.ds)
    ensures w' == w.(ds := w'.ds, stage := w.stage[c := Marked])
  {
    ReachedIsFine(w0, w);
    w' := Act(w0, w, Mark(c));
    ReachedIsFine(w0, w');
    if w.stage[c].at.Some? {
      DeferredThins(w.ds, w.stage[c].at.value);
      ReleaseFound(w, c, w.stage[c].at.value, w.(ds := w'.ds));
    }
  }

  /** The delete of `c`, undisturbed, up to the mark of its own snapshot. */
  ghost predicate Deletes(w: World, c: Name, w': World) {
    exists w1, w2 :: Next(w, BeginDelete(c), w1) && Next(w1, Look(c, Locate(w1, c)), w2) && Next(w2, Mark(c), w')
  }

  /** What it changes. */
  ghost predicate Begun(w: World, c: Name, w': World) {
    && Thins(w.ds, w'.ds) && c in w.objs
    && w' == w.(ds := w'.ds, objs := w.objs[c := w.objs[c].(dying := true)], stage := w.stage[c := Marked])
  }

  lemma LetGo(w0: World, w: World, c: Name) returns (w': World)
    requires Reached(w0, w) && Live(w, c)
    ensures Deletes(w, c, w') && Reached(w0, w') && Underway(w', c) && Begun(w, c, w')
  {
    var w1 := Act(w0, w, BeginDelete(c));
    var w2 := LookNow(w0, w1, c);
    w' := MarkNow(w0, w2, c);
  }

  lemma BegunHangs(w: World, c: Name, w': World, g: Name, h: Name)
    requires Begun(w, c, w') && Hangs(w, g, h)
    ensures Hangs(w', g, h)
  {
  }

  lemma BegunBare(w: World, c: Name, w': World, p: Name)
    requires Begun(w, c, w') && Bare(w, p) && p != c
    ensures Bare(w', p)
  {
  }

  lemma BegunUnderway(w: World, c: Name, w': World, y: Name)
    requires Begun(w, c, w') && Underway(w, y) && y != c
    ensures Underway(w', y)
  {
    FewerKeepsReleased(w.ds, w'.ds, Own(y, w.objs[y]));
  }

  // --------------------------------------------------------------------- creates

  /** A new object `x`, made from `v`, leaves the others where they are. */
  ghost predicate Joins(w: World, w': World, x: Name, v: Name) {
    && x !in w.objs && w'.base == w.base && w'.used == w.used + {x} && w'.objs.Keys == w.objs.Keys + {x}
    && w'.stage == w.stage
    && (forall z :: z in w.objs ==> w'.objs[z] == w.objs[z])
    && (forall g, h :: Hangs(w, g, h) ==> Hangs(w', g, h))
    && (forall p :: Bare(w, p) ==> Bare(w', p))
    && Hangs(w', x, v) && Live(w', x)
  }

  lemma AppearsJoins(w: World, w': World, x: Name, o: Obj, d: Dataset, added: Option<SnapRef>, v: Name)
    requires OriginsExist(w'.ds) && Appears(w, w', x, o, d, added) && x !in w.objs && !o.dying
    requires added.Some? ==> OwnerName(added.value.short) == x
    requires d.origin.Some? && d.origin.value.ds == Home(w, v)
    ensures Joins(w, w', x, v)
  {
    forall p | Bare(w, p) ensures Bare(w', p) {
      assert !Exists(w'.ds, SnapRef(Home(w, p), Own(p, w.objs[p]).value));
    }
  }

  lemma First(w0: World, q: Name) returns (w: World)
    requires Init(w0) && q.text != ""
    ensures Reached(w0, w) && Live(w, q) && w.objs[q].Volume? && w.used == {q} && w.objs.Keys == {q}
    ensures Home(w, q) in w.ds && w.ds[Home(w, q)].snaps == map[]
  {
    ReachedAtOnce(w0);
    w := Act(w0, w0, NewVolume(q, Filesystem, 0, map[]));
  }

  lemma NewClone(w0: World, w: World, x: Name, v: Name) returns (w': World)
    requires Reached(w0, w) && x !in w.used && x.text != "" && Live(w, v) && w.objs[v].Volume?
    ensures Reached(w0, w') && Joins(w, w', x, v) && Bare(w', x) && w'.objs[x].Volume?
  {
    ReachedIsFine(w0, w);
    assert ObjectOk(w, v);
    w' := Act(w0, w, CloneVolume(x, v, map[]));
    var r := SnapRef(Home(w, v), CloneOrigin(x));
    ReachedIsFine(w0, w');
    AppearsJoins(w, w', x, w'.objs[x], CloneOf(w.ds, r, map[]), Some(r), v);
  }

  lemma NewSnapshot(w0: World, w: World, x: Name, v: Name) returns (w': World)
    requires Reached(w0, w) && x !in w.used && "csi-snap-" < x.text && Live(w, v) && w.objs[v].Volume?
    ensures Reached(w0, w') && Joins(w, w', x, v) && w'.objs[x].CsiSnapshot?
    ensures Exists(w'.ds, SnapRef(Home(w', v), Direct(x)))
    ensures w'.ds[Home(w', x)].origin == Some(SnapRef(Home(w', v), Direct(x)))
    ensures Home(w, v) in w.ds && w'.ds[Home(w', v)].snaps.Keys <= w.ds[Home(w, v)].snaps.Keys + {Direct(x)}
  {
    ReachedIsFine(w0, w);
    assert ObjectOk(w, v);
    w' := Act(w0, w, TakeSnapshot(x, v, map[]));
    forall s | s in w'.ds[Home(w', v)].snaps ensures s in w.ds[Home(w, v)].snaps.Keys + {Direct(x)} {
      assert Exists(w'.ds, SnapRef(Home(w, v), s));
    }
    var r := SnapRef(Home(w, v), Direct(x));
    ReachedIsFine(w0, w');
    AppearsJoins(w, w', x, w'.objs[x], CloneOf(w.ds, r, map[]), Some(r), v);
  }

  /** A restore hangs off the dataset its snapshot is on. */
  lemma NewRestore(w0: World, w: World, x: Name, y: Name, v: Name) returns (w': World)
    requires Reached(w0, w) && x !in w.used && x.text != "" && Live(w, y) && w.objs[y].CsiSnapshot?
    requires Exists(w.ds, SnapRef(Home(w, v), Direct(y)))
    ensures Reached(w0, w') && Joins(w, w', x, v) && w'.objs[x].Volume?
    ensures w'.ds[Home(w', x)].origin == Some(SnapRef(Home(w', v), Direct(y)))
    ensures Exists(w'.ds, SnapRef(Home(w', v), Direct(y)))
  {
    ReachedIsFine(w0, w);
    assert ObjectOk(w, y);
    LocateFinds(w, y);
    w' := Act(w0, w, Restore(x, y, map[]));
    ReachedIsFine(w0, w');
    AppearsJoins(w, w', x, w'.objs[x], CloneOf(w.ds, Locate(w, y).value, map[]), None, v);
  }
}
