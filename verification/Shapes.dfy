/** What kind of dataset everything is, how large, and how it is labelled: fixed when it appears, and
    passed on by every clone, whatever is promoted and deleted. */
module Shapes {
  import opened Options
  import opened Pool
  import opened Promote
  import opened Detach
  import opened Lifecycle
  import opened Guarantees

  ghost predicate SameShape(d: Dataset, d': Dataset) {
    d.kind == d'.kind && d.volsize == d'.volsize
  }

  // ----------------------------------------------------------- a dataset never changes

  /** Every dataset is of the floor, or of a name that was given out; the floor stays. */
  ghost predicate Placed(w: World) {
    && (forall n :: n in w.ds && n !in w.floor ==> n.Child? && n.parent == w.base && n.leaf in w.used)
    && (forall n :: n in w.floor ==> n in w.ds && (n.Child? ==> n.parent != w.base))
  }

  lemma PlacedStep(w: World, a: Action, w': World)
    requires Placed(w) && Next(w, a, w')
    ensures Placed(w')
  {
  }

  lemma {:induction false} RunIsPlaced(run: seq<World>, acts: seq<Action>, i: nat)
    requires Run(run, acts) && i < |run|
    ensures Placed(run[i])
  {
    if i > 0 {
      RunIsPlaced(run, acts, i - 1);
      assert StepAt(run, acts, i - 1);
      PlacedStep(run[i - 1], acts[i - 1], run[i]);
    }
  }

  lemma NatureStep(w: World, a: Action, w': World, n: Path)
    requires Next(w, a, w') && n in w.ds && n in w'.ds
    ensures SameShape(w'.ds[n], w.ds[n]) && w'.ds[n].props == w.ds[n].props
  {
  }

  /** A dataset that is there again was there all the time. */
  lemma StillThere(w: World, a: Action, w': World, n: Path)
    requires Placed(w) && Next(w, a, w') && n in w'.ds && (n.Child? && n.parent == w.base ==> n.leaf in w.used)
    ensures n in w.ds
  {
  }

  lemma NamesStay(w: World, a: Action, w': World)
    requires Next(w, a, w')
    ensures w.used <= w'.used && w'.base == w.base && w'.floor == w.floor
  {
  }

  lemma {:induction false} SoFar(run: seq<World>, acts: seq<Action>, i: nat, j: nat)
    requires Run(run, acts) && i <= j < |run|
    ensures run[i].used <= run[j].used && run[j].base == run[i].base
    decreases j - i
  {
    if i < j {
      SoFar(run, acts, i, j - 1);
      assert StepAt(run, acts, j - 1);
      NamesStay(run[j - 1], acts[j - 1], run[j]);
    }
  }

  /** In every run, as long as it exists. */
  lemma {:induction false} NatureIsForever(run: seq<World>, acts: seq<Action>, n: Path, i: nat, j: nat)
    requires Run(run, acts) && i <= j < |run| && n in run[i].ds && n in run[j].ds
    ensures SameShape(run[j].ds[n], run[i].ds[n]) && run[j].ds[n].props == run[i].ds[n].props
    decreases j - i
  {
    if i < j {
      SoFar(run, acts, i, j - 1);
      RunIsPlaced(run, acts, i);
      RunIsPlaced(run, acts, j - 1);
      assert StepAt(run, acts, j - 1);
      StillThere(run[j - 1], acts[j - 1], run[j], n);
      NatureIsForever(run, acts, n, i, j - 1);
      NatureStep(run[j - 1], acts[j - 1], run[j], n);
    }
  }

  // --------------------------------------------------------------- clones are like it

  /** Every clone is of the kind and size of the dataset its snapshot is on. */
  ghost predicate ClonesAlike(ds: Datasets) {
    forall n :: IsClone(ds, n) ==> SameShape(ds[n], ds[ds[n].origin.value.ds])
  }

  lemma PromoteKeepsAlike(ds: Datasets, c: Path)
    requires Graph(ds) && IsClone(ds, c) && ClonesAlike(ds)
    ensures ClonesAlike(Promoted(ds, c))
  {
    var ds' := Promoted(ds, c);
    ParentIsOther(ds, c);
    forall n | IsClone(ds', n) ensures SameShape(ds'[n], ds'[ds'[n].origin.value.ds]) {
      assert ds[n].origin.Some? ==> IsClone(ds, n);
      assert IsClone(ds, ds[c].origin.value.ds) || ds[ds[c].origin.value.ds].origin.None?;
    }
  }

  lemma GrowsKeepsAlike(ds: Datasets, ds': Datasets, home: Path, d: Dataset, added: Option<SnapRef>, t: nat)
    requires OriginsExist(ds) && Grows(ds, ds', home, d, added, t) && ClonesAlike(ds)
    requires d.origin.Some? ==> d.origin.value.ds in ds && SameShape(d, ds[d.origin.value.ds])
    ensures ClonesAlike(ds')
  {
    forall n | IsClone(ds', n) ensures SameShape(ds'[n], ds'[ds'[n].origin.value.ds]) {
      assert n in ds ==> IsClone(ds, n);
    }
  }

  lemma FewerKeepsAlike(ds: Datasets, ds': Datasets)
    requires Fewer(ds, ds') && ClonesAlike(ds)
    ensures ClonesAlike(ds')
  {
    forall n | IsClone(ds', n) ensures SameShape(ds'[n], ds'[ds'[n].origin.value.ds]) {
      assert IsClone(ds, n);
    }
  }

  lemma CreateKeepsAlike(w: World, a: Action, w': World)
    requires Inv(w) && Next(w, a, w') && (a.NewVolume? || a.TakeSnapshot? || a.CloneVolume? || a.Restore?)
    requires ClonesAlike(w.ds)
    ensures ClonesAlike(w'.ds)
  {
    match a
    case NewVolume(x, kind, size, props) =>
      GrowsKeepsAlike(w.ds, w'.ds, Home(w, x), Dataset(kind, props, None, map[], size), None, w.txg + 1);
    case TakeSnapshot(x, v, props) =>
      var r := SnapRef(Home(w, v), Direct(x));
      GrowsKeepsAlike(w.ds, w'.ds, Home(w, x), CloneOf(w.ds, r, props), Some(r), w.txg + 1);
    case CloneVolume(x, v, props) =>
      var r := SnapRef(Home(w, v), CloneOrigin(x));
      GrowsKeepsAlike(w.ds, w'.ds, Home(w, x), CloneOf(w.ds, r, props), Some(r), w.txg + 1);
    case Restore(x, s, props) =>
      GrowsKeepsAlike(w.ds, w'.ds, Home(w, x), CloneOf(w.ds, Locate(w, s).value, props), None, w.txg + 1);
  }

  lemma AlikeStep(w: World, a: Action, w': World)
    requires Inv(w) && Next(w, a, w') && ClonesAlike(w.ds)
    ensures ClonesAlike(w'.ds)
  {
    match a
    case BeginDelete(_) =>
    case Look(_, _) =>
    case Finish(_) =>
    case Mark(x) =>
      if w.stage[x].at.Some? {
        DeferredTakesOnly(w.ds, Home(w, x), w.stage[x].at.value);
        FewerKeepsAlike(w.ds, w'.ds);
      }
    case Drop(x, s) =>
      DropTakesOnly(w.ds, Home(w, x), s);
      FewerKeepsAlike(w.ds, w'.ds);
    case PromoteAway(_, c) => PromoteKeepsAlike(w.ds, c);
    case PromoteLate(c) => PromoteKeepsAlike(w.ds, c);
    case DestroyHome(x) =>
      DestroyTakesOnly(w.ds, Home(w, x));
      FewerKeepsAlike(w.ds, w'.ds);
    case _ => CreateKeepsAlike(w, a, w');
  }

  lemma {:induction false} RunIsAlike(run: seq<World>, acts: seq<Action>, i: nat)
    requires Run(run, acts) && AllInTime(run, acts) && i < |run|
    ensures ClonesAlike(run[i].ds)
  {
    if i > 0 {
      RunIsAlike(run, acts, i - 1);
      RunKeepsInv(run, acts, i - 1);
      assert StepAt(run, acts, i - 1);
      AlikeStep(run[i - 1], acts[i - 1], run[i]);
    }
  }

  /** The snapshot of a live object is on a dataset like the object's own. */
  lemma LocatedAlike(w: World, s: Name)
    requires Inv(w) && ClonesAlike(w.ds) && Live(w, s) && Own(s, w.objs[s]).Some?
    ensures Home(w, s) in w.ds && Locate(w, s).Some? && Exists(w.ds, Locate(w, s).value)
    ensures SameShape(w.ds[Locate(w, s).value.ds], w.ds[Home(w, s)])
  {
    assert ObjectOk(w, s);
    LocateFinds(w, s);
    var r, d := Locate(w, s).value, w.ds[Home(w, s)];
    assert r == if r.short in d.snaps then SnapRef(Home(w, s), r.short) else d.origin.value;
  }

  // ---------------------------------------------------------------------- what it means

  /** A new volume is what was asked for. */
  lemma VolumeIsAsAsked(run: seq<World>, acts: seq<Action>, i: nat, j: nat)
    requires Run(run, acts) && i < j < |run| && acts[i].NewVolume? && Home(run[j], acts[i].x) in run[j].ds
    ensures var d := run[j].ds[Home(run[j], acts[i].x)];
      d.kind == acts[i].kind && d.volsize == acts[i].size && d.props == acts[i].props
  {
    assert StepAt(run, acts, i);
    SoFar(run, acts, i + 1, j);
    NatureIsForever(run, acts, Home(run[i + 1], acts[i].x), i + 1, j);
  }

  /** A backing clone, or a directly cloned volume, is of the kind and size its source had. */
  lemma CloneIsLikeItsSource(run: seq<World>, acts: seq<Action>, i: nat, j: nat)
    requires Run(run, acts) && i < j < |run| && (acts[i].TakeSnapshot? || acts[i].CloneVolume?)
    requires Home(run[j], acts[i].x) in run[j].ds
    ensures Home(run[i], acts[i].of) in run[i].ds
    ensures SameShape(run[j].ds[Home(run[j], acts[i].x)], run[i].ds[Home(run[i], acts[i].of)])
    ensures run[j].ds[Home(run[j], acts[i].x)].props == acts[i].props
  {
    assert StepAt(run, acts, i);
    SoFar(run, acts, i + 1, j);
    NatureIsForever(run, acts, Home(run[i + 1], acts[i].x), i + 1, j);
  }

  /** When a snapshot is restored its backing clone is there. */
  lemma RestoreIsLikeTheBacking(run: seq<World>, acts: seq<Action>, k: nat)
    requires Run(run, acts) && AllInTime(run, acts) && k < |acts| && acts[k].Restore?
    ensures var w, w' := run[k], run[k + 1];
      && Home(w, acts[k].of) in w.ds && Home(w', acts[k].x) in w'.ds
      && SameShape(w'.ds[Home(w', acts[k].x)], w.ds[Home(w, acts[k].of)])
      && w'.ds[Home(w', acts[k].x)].props == acts[k].props
  {
    assert StepAt(run, acts, k);
    RunKeepsInv(run, acts, k);
    RunIsAlike(run, acts, k);
    LocatedAlike(run[k], acts[k].of);
  }

  /** Whatever was promoted and deleted since the snapshot was cut: a volume restored from it is of the
      kind and size its source had then, as long as it exists. */
  lemma RestoreIsLikeItsSource(run: seq<World>, acts: seq<Action>, i: nat, k: nat, j: nat)
    requires Run(run, acts) && AllInTime(run, acts) && i < k < j < |run|
    requires acts[i].TakeSnapshot? && acts[k].Restore? && acts[k].of == acts[i].x
    requires Home(run[j], acts[k].x) in run[j].ds
    ensures Home(run[i], acts[i].of) in run[i].ds
    ensures SameShape(run[j].ds[Home(run[j], acts[k].x)], run[i].ds[Home(run[i], acts[i].of)])
  {
    RestoreIsLikeTheBacking(run, acts, k);
    SoFar(run, acts, k + 1, j);
    NatureIsForever(run, acts, Home(run[k + 1], acts[k].x), k + 1, j);
    CloneIsLikeItsSource(run, acts, i, k);
  }

  // -------------------------------------------------------------------------- the roles

  /** The labels with which the driver creates. */
  predicate Labels(a: Action) {
    match a
    case NewVolume(_, _, _, props) => ROLE in props && props[ROLE] == "volume"
    case CloneVolume(_, _, props) => ROLE in props && props[ROLE] == "volume"
    case Restore(_, _, props) => ROLE in props && props[ROLE] == "volume"
    case TakeSnapshot(_, _, props) => ROLE in props && props[ROLE] == "backing"
    case _ => true
  }

  ghost predicate Labelled(w: World, x: Name)
    requires x in w.objs
  {
    Home(w, x) in w.ds ==>
      && ROLE in w.ds[Home(w, x)].props
      && w.ds[Home(w, x)].props[ROLE] == if w.objs[x].CsiSnapshot? then "backing" else "volume"
  }

  lemma LabelledStep(w: World, a: Action, w': World, x: Name)
    requires Placed(w) && w.objs.Keys <= w.used && Next(w, a, w') && Labels(a) && x in w'.objs
    requires x in w.objs ==> Labelled(w, x)
    ensures Labelled(w', x)
  {
    if x in w.objs && Home(w, x) in w'.ds {
      StillThere(w, a, w', Home(w, x));
      NatureStep(w, a, w', Home(w, x));
    }
  }

  lemma {:induction false} RunIsLabelled(run: seq<World>, acts: seq<Action>, i: nat, x: Name)
    requires Run(run, acts) && i < |run| && x in run[i].objs && forall a :: a in acts ==> Labels(a)
    ensures run[i].objs.Keys <= run[i].used && Labelled(run[i], x)
  {
    ObjectsAreUsed(run, acts, i);
    if i > 0 {
      RunIsPlaced(run, acts, i - 1);
      ObjectsAreUsed(run, acts, i - 1);
      if x in run[i - 1].objs { RunIsLabelled(run, acts, i - 1, x); }
      assert StepAt(run, acts, i - 1) && acts[i - 1] in acts;
      LabelledStep(run[i - 1], acts[i - 1], run[i], x);
    }
  }

  /** In every run of a driver that creates with these labels: the dataset of an object is a backing clone, to the
      detach of any other, exactly if the object is a snapshot. */
  lemma BackingIsOfSnapshots(run: seq<World>, acts: seq<Action>, i: nat, x: Name)
    requires Run(run, acts) && i < |run| && forall a :: a in acts ==> Labels(a)
    requires x in run[i].objs && Home(run[i], x) in run[i].ds
    ensures IsBacking(run[i].ds, Home(run[i], x)) <==> run[i].objs[x].CsiSnapshot?
  {
    RunIsLabelled(run, acts, i, x);
  }
}
