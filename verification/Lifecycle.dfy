/** Volumes and snapshots over their whole life on one pool: what the reconcilers
    may do, command by command, and the ownership invariant every run keeps. */
module Lifecycle {
  import opened Options
  import opened Pool
  import opened PoolInvariant
  import opened Promote
  import opened Detach
  import opened DetachLoop

  /** A ZfsDataset or ZfsSnapshot object. `cut` is the instant of its own snapshot. */
  datatype Obj =
    | Volume(cloned: bool, cut: nat, dying: bool)
    | CsiSnapshot(source: Name, cut: nat, dying: bool)

  /** How far a delete has got: it looked for the object's own snapshot and holds the name
      it found, or it has run `destroy -d` on that name, which may have been gone by then. */
  datatype Stage = Looked(at: Option<SnapRef>) | Marked

  /** The pool and the objects. `floor` is what is there before the driver, `base` the dataset
      all volumes live under, `used` every object name ever given out. */
  datatype World = World(
    base: Path, floor: Datasets, ds: Datasets, txg: nat, objs: map<Name, Obj>, used: set<Name>, stage: map<Name, Stage>)

  /** An object's dataset: the volume, or the backing clone of the snapshot. */
  function Home(w: World, x: Name): Path {
    Child(w.base, x)
  }

  /** The snapshot an object brought to the pool: a CSI snapshot its raw snapshot,
      a directly cloned volume the "clone-" snapshot it was cloned from. */
  function Own(x: Name, o: Obj): Option<Short> {
    match o
    case Volume(cloned, _, _) => if cloned then Some(CloneOrigin(x)) else None
    case CsiSnapshot(_, _, _) => Some(Direct(x))
  }

  function OwnerName(s: Short): Name {
    match s
    case Direct(n) => n
    case CloneOrigin(d) => d
  }

  // --------------------------------------------------------------- finding it

  /** `locateRawSnapshot`: the backing clone's origin, else on the backing clone, else where it was recorded. */
  function LocateRaw(ds: Datasets, backing: Path, recorded: SnapRef, s: Short): Option<SnapRef> {
    if backing in ds && ds[backing].origin.Some? && ds[backing].origin.value.short == s
      && Exists(ds, ds[backing].origin.value) then
      ds[backing].origin
    else if Exists(ds, SnapRef(backing, s)) then Some(SnapRef(backing, s))
    else if Exists(ds, recorded) then Some(recorded)
    else None
  }

  /** Something is found exactly if it is in one of the three places, and then there. */
  lemma LocateRawMeans(ds: Datasets, backing: Path, recorded: SnapRef, s: Short)
    requires recorded.short == s
    ensures var found := LocateRaw(ds, backing, recorded, s);
      && (found.Some? ==> Exists(ds, found.value) && found.value.short == s)
      && (Exists(ds, recorded) || Exists(ds, SnapRef(backing, s)) ==> found.Some?)
      && (backing in ds && ds[backing].origin == Some(recorded) && Exists(ds, recorded) ==> found == Some(recorded))
      && (backing !in ds && Exists(ds, recorded) ==> found == Some(recorded))
  {
  }

  /** `releaseCloneOrigin` looks on the volume first, then at its origin. */
  function LocateCloneOrigin(ds: Datasets, full: Path, s: Short): Option<SnapRef> {
    if Exists(ds, SnapRef(full, s)) then Some(SnapRef(full, s))
    else if full in ds && ds[full].origin.Some? && ds[full].origin.value.short == s then ds[full].origin
    else None
  }

  function Locate(w: World, x: Name): Option<SnapRef>
    requires x in w.objs
  {
    match w.objs[x]
    case Volume(cloned, _, _) => if cloned then LocateCloneOrigin(w.ds, Home(w, x), CloneOrigin(x)) else None
    case CsiSnapshot(source, _, _) => LocateRaw(w.ds, Home(w, x), SnapRef(Home(w, source), Direct(x)), Direct(x))
  }

  // ---------------------------------------------------------------- invariant

  /** The snapshot sits on the dataset, or the dataset is a clone of it. */
  ghost predicate Located(ds: Datasets, d: Path, s: Short) {
    d in ds && (s in ds[d].snaps || (ds[d].origin.Some? && ds[d].origin.value.short == s))
  }

  /** Every snapshot with this short name is unmarked and was cut at `t`. */
  ghost predicate Intact(ds: Datasets, s: Short, t: nat) {
    forall r :: Exists(ds, r) && r.short == s ==> !At(ds, r).deferred && At(ds, r).txg == t
  }

  /** No snapshot with this short name is left, except marked for destruction. */
  ghost predicate Released(ds: Datasets, s: Option<Short>) {
    s.Some? ==> forall r :: Exists(ds, r) && r.short == s.value ==> At(ds, r).deferred
  }

  ghost predicate Holds(w: World, x: Name)
    requires x in w.objs
  {
    var own := Own(x, w.objs[x]);
    own.Some? ==> Located(w.ds, Home(w, x), own.value) && Intact(w.ds, own.value, w.objs[x].cut)
  }

  /** A live object has its dataset and its own snapshot, intact; a terminating one
      still has the snapshot or has already given it up. */
  ghost predicate ObjectOk(w: World, x: Name)
    requires x in w.objs
  {
    if w.objs[x].dying then Holds(w, x) || Released(w.ds, Own(x, w.objs[x]))
    else Home(w, x) in w.ds && Holds(w, x)
  }

  ghost predicate Flat(w: World) {
    && w.base in w.floor && ParentsExist(w.floor)
    && (forall n :: n in w.floor ==>
        n in w.ds && w.ds[n] == w.floor[n] && w.floor[n].snaps == map[] && w.floor[n].origin.None?)
    && (forall n :: n in w.floor && n.Child? ==> n.parent != w.base)
    && (forall n :: n in w.ds && n !in w.floor ==> n.Child? && n.parent == w.base && n.leaf in w.objs)
  }

  ghost predicate Named(w: World) {
    && (forall x :: x in w.objs ==> x in w.used)
    && (forall r :: Exists(w.ds, r) ==> OwnerName(r.short) in w.used && IsDriverShort(r.short))
    && ShortsUnique(w.ds)
  }

  /** Every unmarked snapshot belongs to an object. */
  ghost predicate Owned(w: World) {
    forall r :: Exists(w.ds, r) && !At(w.ds, r).deferred ==>
      OwnerName(r.short) in w.objs && Own(OwnerName(r.short), w.objs[OwnerName(r.short)]) == Some(r.short)
  }

  /** No two snapshots were cut at one instant. */
  ghost predicate InstantsUnique(ds: Datasets) {
    forall q, r :: Exists(ds, q) && Exists(ds, r) && At(ds, q).txg == At(ds, r).txg ==> q == r
  }

  ghost predicate Inv(w: World) {
    && WF(w.ds, w.txg) && Flat(w) && Named(w) && Owned(w) && InstantsUnique(w.ds)
    && forall x :: x in w.objs ==> ObjectOk(w, x)
  }

  // ------------------------------------------------------------------ actions

  /** What the reconcilers do. A create is complete (the object reaches Ready); a
      delete is broken up into its single zfs commands, so it may stop anywhere and
      begin again, and more is allowed than the code does: any dependent may be
      promoted, and with PromoteLate any clone. */
  datatype Action =
    | NewVolume(x: Name, kind: Kind, size: int, props: map<string, string>)
    | TakeSnapshot(x: Name, of: Name, props: map<string, string>)
    | CloneVolume(x: Name, of: Name, props: map<string, string>)
    | Restore(x: Name, of: Name, props: map<string, string>)
    | BeginDelete(x: Name)
    | Look(x: Name, at: Option<SnapRef>) // what the reads of the lookup, one after another, came to
    | Mark(x: Name)
    | Drop(x: Name, s: Short)
    | PromoteAway(x: Name, c: Path)
    | PromoteLate(c: Path) // a dependent picked earlier, from a state other deletes have changed since
    | DestroyHome(x: Name)
    | Finish(x: Name)

  predicate Live(w: World, x: Name) {
    x in w.objs && !w.objs[x].dying
  }

  /** The delete of `x` is past its mark, and goes on to take its dataset apart. */
  predicate GoesOn(w: World, x: Name) {
    x in w.objs && w.objs[x].dying && x in w.stage && w.stage[x].Marked?
  }

  /** No unmarked snapshot with this short name has a clone. */
  ghost predicate Loose(ds: Datasets, s: Option<Short>) {
    s.Some? ==> forall r :: Exists(ds, r) && r.short == s.value && !At(ds, r).deferred ==> ClonesOf(ds, r) == {}
  }

  /** A terminating object whose own snapshot is gone, marked, or without a clone. */
  ghost predicate Parting(w: World, x: Name) {
    x in w.objs && w.objs[x].dying && Loose(w.ds, Own(x, w.objs[x]))
  }

  /** A terminating object that has given up its own snapshot. */
  ghost predicate Letting(w: World, x: Name) {
    x in w.objs && w.objs[x].dying && Released(w.ds, Own(x, w.objs[x]))
  }

  ghost predicate Spared(ds: Datasets, own: Option<Short>, o: SnapRef)
    requires Exists(ds, o)
  {
    || Released(ds, own)
    || own.value == o.short
    || (own.value in ds[o.ds].snaps && ds[o.ds].snaps[own.value].txg > At(ds, o).txg)
  }

  /** Promoting `c` does no harm: the object of the dataset it hangs off has no snapshot of its own, or gave
      it up, or that snapshot is the one `c` was cloned from, or a newer one that stays. */
  ghost predicate Tame(w: World, c: Path) {
    && IsClone(w.ds, c)
    && forall z :: z in w.objs && Home(w, z) == w.ds[c].origin.value.ds ==>
        Spared(w.ds, Own(z, w.objs[z]), w.ds[c].origin.value)
  }

  ghost predicate Enabled(w: World, a: Action) {
    match a
    case NewVolume(x, kind, size, _) => x !in w.used && x.text != "" && (kind.Zvol? ==> size > 0)
    case TakeSnapshot(x, v, _) => x !in w.used && "csi-snap-" < x.text && v in w.objs && w.objs[v].Volume?
      && Home(w, v) in w.ds
    case CloneVolume(x, v, _) => x !in w.used && x.text != "" && v in w.objs && w.objs[v].Volume? && Home(w, v) in w.ds
    case Restore(x, s, _) => x !in w.used && x.text != "" && Live(w, s) && w.objs[s].CsiSnapshot?
      && Locate(w, s).Some? && Exists(w.ds, Locate(w, s).value)
    case BeginDelete(x) => Live(w, x)
    case Look(x, at) => x in w.objs && w.objs[x].dying && (at.Some? ==> Own(x, w.objs[x]) == Some(at.value.short))
    case Mark(x) => x in w.objs && w.objs[x].dying && x in w.stage && w.stage[x].Looked?
    case Drop(x, s) => GoesOn(w, x) && Exists(w.ds, SnapRef(Home(w, x), s))
      && ClonesOf(w.ds, SnapRef(Home(w, x), s)) == {}
    case PromoteAway(x, c) => GoesOn(w, x) && Dependent(w.ds, Home(w, x), c) && AllCloned(w.ds, Home(w, x))
    case PromoteLate(c) => IsClone(w.ds, c) && !Conflict(w.ds, c)
    case DestroyHome(x) => GoesOn(w, x) && Home(w, x) in w.ds && w.ds[Home(w, x)].snaps == map[]
    case Finish(x) => GoesOn(w, x) && Home(w, x) !in w.ds
  }

  /** The mark of `x` comes in time: the name it found is still there, or no mark is needed. */
  ghost predicate Timely(w: World, x: Name)
    requires x in w.stage && w.stage[x].Looked?
  {
    (w.stage[x].at.Some? && Exists(w.ds, w.stage[x].at.value)) || Parting(w, x)
  }

  /** What was read before is still good for the command that follows from it. */
  ghost predicate InTime(w: World, a: Action) {
    match a
    case Mark(x) => Enabled(w, a) ==> Timely(w, x)
    case PromoteLate(c) => Tame(w, c)
    case _ => true
  }

  /** `ds'` is `ds`, at most one new snapshot cut at `t`, and the new dataset `home`. */
  ghost predicate Grows(ds: Datasets, ds': Datasets, home: Path, d: Dataset, added: Option<SnapRef>, t: nat) {
    && home !in ds && ds'.Keys == ds.Keys + {home} && ds'[home] == d && d.snaps == map[]
    && (forall n :: n in ds ==> ds'[n] == ds[n].(snaps := ds'[n].snaps))
    && (forall r :: Exists(ds', r) <==> Exists(ds, r) || added == Some(r))
    && (forall r :: Exists(ds, r) ==> At(ds', r) == At(ds, r))
    && (added.Some? ==>
        !Exists(ds, added.value) && added.value.ds in ds && Exists(ds', added.value)
          && At(ds', added.value) == Snapshot(t, false, map[]))
  }

  lemma CreatedGrows(ds: Datasets, home: Path, kind: Kind, size: int, props: map<string, string>)
    requires home !in ds
    ensures Grows(ds, Created(ds, home, kind, size, props), home, Dataset(kind, props, None, map[], size), None, 0)
  {
  }

  /** The dataset a clone of `r` becomes. */
  function CloneOf(ds: Datasets, r: SnapRef, props: map<string, string>): Dataset
    requires r.ds in ds
  {
    Dataset(ds[r.ds].kind, props, Some(r), map[], ds[r.ds].volsize)
  }

  lemma ClonedGrows(ds: Datasets, r: SnapRef, home: Path, props: map<string, string>)
    requires r.ds in ds && home !in ds
    ensures Grows(ds, Cloned(ds, r, home, props), home, CloneOf(ds, r, props), None, 0)
  {
  }

  lemma CutGrows(ds: Datasets, r: SnapRef, t: nat, home: Path, props: map<string, string>)
    requires r.ds in ds && !Exists(ds, r) && home !in ds
    ensures Grows(ds, Cloned(Cut(ds, r, t), r, home, props), home, CloneOf(ds, r, props), Some(r), t)
  {
    var ds' := Cloned(Cut(ds, r, t), r, home, props);
    assert forall q :: Exists(ds', q) <==> Exists(ds, q) || q == r;
  }

  /** The new object `x` appears, and its dataset with it. */
  ghost predicate Appears(w: World, w': World, x: Name, o: Obj, d: Dataset, added: Option<SnapRef>) {
    && Grows(w.ds, w'.ds, Home(w, x), d, added, w.txg + 1)
    && w' == World(w.base, w.floor, w'.ds, if added.Some? then w.txg + 1 else w.txg, w.objs[x := o], w.used + {x},
                   w.stage)
  }

  /** One action. */
  ghost predicate Next(w: World, a: Action, w': World) {
    Enabled(w, a) &&
    match a
    case NewVolume(x, kind, size, props) =>
      Appears(w, w', x, Volume(false, 0, false), Dataset(kind, props, None, map[], size), None)
    case TakeSnapshot(x, v, props) =>
      var r := SnapRef(Home(w, v), Direct(x));
      Appears(w, w', x, CsiSnapshot(v, w.txg + 1, false), CloneOf(w.ds, r, props), Some(r))
    case CloneVolume(x, v, props) =>
      var r := SnapRef(Home(w, v), CloneOrigin(x));
      Appears(w, w', x, Volume(true, w.txg + 1, false), CloneOf(w.ds, r, props), Some(r))
    case Restore(x, s, props) =>
      Appears(w, w', x, Volume(false, 0, false), CloneOf(w.ds, Locate(w, s).value, props), None)
    case BeginDelete(x) => w' == w.(objs := w.objs[x := w.objs[x].(dying := true)])
    case Look(x, at) => w' == w.(stage := w.stage[x := Looked(at)])
    case Mark(x) =>
      && w' == w.(ds := w'.ds, stage := w.stage[x := Marked])
      && w'.ds == if w.stage[x].at.Some? then Deferred(w.ds, w.stage[x].at.value) else w.ds
    case Drop(x, s) => w' == w.(ds := w'.ds) && w'.ds == WithoutSnap(w.ds, SnapRef(Home(w, x), s))
    case PromoteAway(x, c) => w' == w.(ds := w'.ds) && w'.ds == Promoted(w.ds, c)
    case PromoteLate(c) => w' == w.(ds := w'.ds) && w'.ds == Promoted(w.ds, c)
    case DestroyHome(x) => w' == w.(ds := w'.ds) && w'.ds == Destroyed(w.ds, {Home(w, x)})
    case Finish(x) => w' == w.(objs := w.objs - {x}, stage := w.stage - {x})
  }

  ghost predicate StageOk(w: World, x: Name)
    requires x in w.stage
  {
    && x in w.objs && w.objs[x].dying
    && (w.stage[x].Looked? && w.stage[x].at.Some? ==> Own(x, w.objs[x]) == Some(w.stage[x].at.value.short))
    && (w.stage[x].Marked? ==> Parting(w, x))
  }

  /** The stages are those of terminating objects, and who is past the mark has nothing left to lose. */
  ghost predicate Staged(w: World) {
    forall x :: x in w.stage ==> StageOk(w, x)
  }

  // -------------------------------------------------------------------- creates

  lemma FreshName(w: World, x: Name)
    requires Inv(w) && x !in w.used
    ensures Home(w, x) !in w.ds
    ensures forall r :: Exists(w.ds, r) ==> OwnerName(r.short) != x
  {
  }

  lemma GrowsKeepsWF(ds: Datasets, txg: nat, ds': Datasets, home: Path, d: Dataset, added: Option<SnapRef>)
    requires WF(ds, txg) && Grows(ds, ds', home, d, added, txg + 1) && home.Child? && home.parent in ds
    requires d.origin.Some? ==> Exists(ds', d.origin.value)
    ensures WF(ds', if added.Some? then txg + 1 else txg)
  {
    assert forall n, s :: n in ds' && s in ds'[n].snaps ==> Exists(ds', SnapRef(n, s));
    assert OriginsExist(ds');
    forall n, s | n in ds' && s in ds'[n].snaps
      ensures ds'[n].snaps[s].txg <= if added.Some? then txg + 1 else txg
      ensures ds'[n].origin.Some? ==> At(ds', ds'[n].origin.value).txg < ds'[n].snaps[s].txg
      ensures ds'[n].snaps[s].deferred ==> ClonesOf(ds', SnapRef(n, s)) != {}
    {
      assert At(ds', SnapRef(n, s)) == ds'[n].snaps[s];
      if ds'[n].origin.Some? {
        var o := ds[n].origin.value;
        assert Exists(ds, o) && o.short in ds[o.ds].snaps;
      }
      if ds'[n].snaps[s].deferred {
        var c :| c in ClonesOf(ds, SnapRef(n, s));
        assert c in ClonesOf(ds', SnapRef(n, s));
      }
    }
  }

  lemma GrowsKeepsObject(w: World, w': World, x: Name, o: Obj, d: Dataset, added: Option<SnapRef>, y: Name)
    requires Inv(w) && Appears(w, w', x, o, d, added) && y in w.objs && y != x
    requires added.Some? ==> OwnerName(added.value.short) == x
    ensures ObjectOk(w', y)
  {
    var own := Own(y, w.objs[y]);
    assert ObjectOk(w, y);
    if own.Some? {
      assert OwnerName(own.value) == y;
      assert forall r :: Exists(w'.ds, r) && r.short == own.value ==> Exists(w.ds, r);
      if Holds(w, y) {
        assert own.value in w.ds[Home(w, y)].snaps ==> Exists(w'.ds, SnapRef(Home(w, y), own.value));
        assert Located(w'.ds, Home(w, y), own.value);
      }
    }
  }

  lemma NewObjectOk(w: World, w': World, x: Name, o: Obj, d: Dataset, added: Option<SnapRef>)
    requires Inv(w) && Appears(w, w', x, o, d, added) && x !in w.used && !o.dying
    requires if added.Some? then Own(x, o) == Some(added.value.short) && o.cut == w.txg + 1 && d.origin == added
        else Own(x, o) == None
    ensures ObjectOk(w', x)
  {
    FreshName(w, x);
    if added.Some? {
      assert OwnerName(added.value.short) == x;
      assert forall q :: Exists(w'.ds, q) && q.short == added.value.short ==> q == added.value;
    }
  }

  lemma AppearsKeepsNamed(w: World, w': World, x: Name, o: Obj, d: Dataset, added: Option<SnapRef>)
    requires Named(w) && Appears(w, w', x, o, d, added) && x !in w.used
    requires added.Some? ==> OwnerName(added.value.short) == x && IsDriverShort(added.value.short)
    ensures Named(w')
  {
    forall q, r | Exists(w'.ds, q) && Exists(w'.ds, r) && q.short == r.short ensures q == r {
      assert Exists(w.ds, q) ==> OwnerName(q.short) in w.used;
      assert Exists(w.ds, r) ==> OwnerName(r.short) in w.used;
    }
  }

  lemma GrowsKeepsInstants(ds: Datasets, txg: nat, ds': Datasets, home: Path, d: Dataset, added: Option<SnapRef>)
    requires InstantsUnique(ds) && Clocked(ds, txg) && Grows(ds, ds', home, d, added, txg + 1)
    ensures InstantsUnique(ds')
  {
    forall r | Exists(ds, r) ensures At(ds, r).txg <= txg { assert r.short in ds[r.ds].snaps; }
  }

  lemma AppearsKeepsOwned(w: World, w': World, x: Name, o: Obj, d: Dataset, added: Option<SnapRef>)
    requires Named(w) && Owned(w) && Appears(w, w', x, o, d, added) && x !in w.used
    requires added.Some? ==> Own(x, o) == Some(added.value.short) && OwnerName(added.value.short) == x
    ensures Owned(w')
  {
    forall r | Exists(w'.ds, r) && !At(w'.ds, r).deferred
      ensures OwnerName(r.short) in w'.objs && Own(OwnerName(r.short), w'.objs[OwnerName(r.short)]) == Some(r.short)
    {
      assert Exists(w.ds, r) ==> OwnerName(r.short) in w.used;
    }
  }

  lemma AppearsKeepsFlat(w: World, w': World, x: Name, o: Obj, d: Dataset, added: Option<SnapRef>)
    requires Inv(w) && Appears(w, w', x, o, d, added)
    requires added.Some? ==> added.value.ds !in w.floor
    ensures Flat(w')
  {
    forall n | n in w.floor ensures w'.ds[n] == w.floor[n] {
      forall s ensures s !in w'.ds[n].snaps { assert !Exists(w'.ds, SnapRef(n, s)); }
      assert w'.ds[n].snaps == map[];
    }
  }

  lemma AppearsKeepsInv(w: World, w': World, x: Name, o: Obj, d: Dataset, added: Option<SnapRef>)
    requires Inv(w) && Appears(w, w', x, o, d, added) && x !in w.used && !o.dying
    requires if added.Some?
        then Own(x, o) == Some(added.value.short) && o.cut == w.txg + 1 && d.origin == added
          && IsDriverShort(added.value.short) && added.value.ds !in w.floor
             else Own(x, o) == None
    requires d.origin.Some? ==> Exists(w'.ds, d.origin.value)
    ensures Inv(w')
  {
    GrowsKeepsWF(w.ds, w.txg, w'.ds, Home(w, x), d, added);
    GrowsKeepsInstants(w.ds, w.txg, w'.ds, Home(w, x), d, added);
    AppearsKeepsFlat(w, w', x, o, d, added);
    AppearsKeepsNamed(w, w', x, o, d, added);
    AppearsKeepsOwned(w, w', x, o, d, added);
    forall y | y in w'.objs ensures ObjectOk(w', y) {
      if y == x { NewObjectOk(w, w', x, o, d, added); } else { GrowsKeepsObject(w, w', x, o, d, added, y); }
    }
  }

  lemma NotFloor(w: World, v: Name)
    requires Flat(w)
    ensures Home(w, v) !in w.floor
  {
  }

  lemma NewShorts(x: Name)
    ensures "csi-snap-" < x.text ==> IsDriverShort(Direct(x))
    ensures x.text != "" ==> IsDriverShort(CloneOrigin(x))
  {
    assert "clone-" <= "clone-" + x.text;
  }

  lemma CreateKeepsInv(w: World, a: Action, w': World)
    requires Inv(w) && Next(w, a, w') && (a.NewVolume? || a.TakeSnapshot? || a.CloneVolume? || a.Restore?)
    ensures Inv(w')
  {
    match a
    case NewVolume(x, kind, size, props) =>
      AppearsKeepsInv(w, w', x, Volume(false, 0, false), Dataset(kind, props, None, map[], size), None);
    case TakeSnapshot(x, v, props) =>
      NotFloor(w, v);
      NewShorts(x);
      var r := SnapRef(Home(w, v), Direct(x));
      AppearsKeepsInv(w, w', x, CsiSnapshot(v, w.txg + 1, false), CloneOf(w.ds, r, props), Some(r));
    case CloneVolume(x, v, props) =>
      NotFloor(w, v);
      NewShorts(x);
      var r := SnapRef(Home(w, v), CloneOrigin(x));
      AppearsKeepsInv(w, w', x, Volume(true, w.txg + 1, false), CloneOf(w.ds, r, props), Some(r));
    case Restore(x, s, props) =>
      AppearsKeepsInv(w, w', x, Volume(false, 0, false), CloneOf(w.ds, Locate(w, s).value, props), None);
  }

  // ------------------------------------------------ commands that only take away

  /** `ds'` has no snapshot `ds` does not have; it may have marked some. */
  ghost predicate Fewer(ds: Datasets, ds': Datasets) {
    && (forall n :: n in ds' ==> n in ds && ds'[n] == ds[n].(snaps := ds'[n].snaps))
    && (forall r :: Exists(ds', r) ==> Exists(ds, r) && At(ds', r).txg == At(ds, r).txg)
    && (forall r :: Exists(ds', r) && At(ds, r).deferred ==> At(ds', r).deferred)
  }

  /** What may be taken: what is marked, is named `s`, or has no clone and is on `home`. */
  ghost predicate Taken(ds: Datasets, home: Path, s: Option<Short>, r: SnapRef)
    requires Exists(ds, r)
  {
    s == Some(r.short) || At(ds, r).deferred || (r.ds == home && ClonesOf(ds, r) == {})
  }

  /** A command that takes away, or marks, snapshots without clones or named `s` only. */
  ghost predicate TakesOnly(ds: Datasets, ds': Datasets, home: Path, s: Option<Short>) {
    && Fewer(ds, ds')
    && (forall n :: n in ds && n != home ==> n in ds')
    && (forall r :: Exists(ds, r) && !Taken(ds, home, s, r) ==> Exists(ds', r) && At(ds', r) == At(ds, r))
  }

  lemma TakesOnlyKeepsObject(w: World, w': World, x: Name, s: Option<Short>, y: Name)
    requires Inv(w) && w' == w.(ds := w'.ds) && TakesOnly(w.ds, w'.ds, Home(w, x), s)
    requires y in w.objs && y != x && (s.Some? ==> OwnerName(s.value) == x)
    ensures ObjectOk(w', y)
  {
    var own := Own(y, w.objs[y]);
    assert ObjectOk(w, y);
    if own.Some? && Holds(w, y) {
      var t := own.value;
      assert OwnerName(t) == y;
      var d := w.ds[Home(w, y)];
      var r := if t in d.snaps then SnapRef(Home(w, y), t) else d.origin.value;
      assert Exists(w.ds, r) && r.short == t && !At(w.ds, r).deferred;
      assert r.ds != Home(w, x) || Home(w, y) in ClonesOf(w.ds, r);
      assert Exists(w'.ds, r);
    }
  }

  lemma FewerKeepsNamed(w: World, w': World)
    requires Named(w) && w' == w.(ds := w'.ds) && Fewer(w.ds, w'.ds)
    ensures Named(w')
  {
  }

  lemma FewerKeepsOwned(w: World, w': World)
    requires Owned(w) && w' == w.(ds := w'.ds) && Fewer(w.ds, w'.ds)
    ensures Owned(w')
  {
  }

  lemma TakesOnlyKeepsFlat(w: World, w': World, x: Name, s: Option<Short>)
    requires Flat(w) && w' == w.(ds := w'.ds) && TakesOnly(w.ds, w'.ds, Home(w, x), s)
    ensures Flat(w')
  {
    NotFloor(w, x);
    forall n | n in w.floor ensures n in w'.ds && w'.ds[n] == w.floor[n] {
      forall u ensures u !in w'.ds[n].snaps {
        assert !Exists(w.ds, SnapRef(n, u));
        assert !Exists(w'.ds, SnapRef(n, u));
      }
      assert w'.ds[n].snaps == map[];
    }
  }

  lemma TakesOnlyKeepsRest(w: World, w': World, x: Name, s: Option<Short>)
    requires Flat(w) && Named(w) && Owned(w) && w' == w.(ds := w'.ds) && TakesOnly(w.ds, w'.ds, Home(w, x), s)
    ensures Flat(w') && Named(w') && Owned(w')
  {
    TakesOnlyKeepsFlat(w, w', x, s);
    FewerKeepsNamed(w, w');
    FewerKeepsOwned(w, w');
  }

  lemma TakesOnlyKeepsInv(w: World, w': World, x: Name, s: Option<Short>)
    requires Inv(w) && w' == w.(ds := w'.ds) && TakesOnly(w.ds, w'.ds, Home(w, x), s) && WF(w'.ds, w.txg)
    requires x in w.objs && w.objs[x].dying && Released(w'.ds, Own(x, w.objs[x]))
    requires s.Some? ==> OwnerName(s.value) == x
    ensures Inv(w')
  {
    TakesOnlyKeepsRest(w, w', x, s);
    forall y | y in w'.objs ensures ObjectOk(w', y) {
      if y != x { TakesOnlyKeepsObject(w, w', x, s, y); }
    }
  }

  lemma DeferredTakesOnly(ds: Datasets, home: Path, r: SnapRef)
    ensures TakesOnly(ds, Deferred(ds, r), home, Some(r.short))
  {
  }

  lemma DropTakesOnly(ds: Datasets, home: Path, s: Short)
    requires Exists(ds, SnapRef(home, s)) && ClonesOf(ds, SnapRef(home, s)) == {}
    ensures TakesOnly(ds, WithoutSnap(ds, SnapRef(home, s)), home, None)
  {
  }

  lemma DestroyTakesOnly(ds: Datasets, home: Path)
    requires home in ds && ds[home].snaps == map[]
    ensures TakesOnly(ds, Destroyed(ds, {home}), home, None)
  {
    var rest := ds - {home};
    forall r | Exists(ds, r) ensures Exists(rest, r) && At(rest, r) == At(ds, r) {}
  }

  lemma LocateFinds(w: World, x: Name)
    requires Inv(w) && x in w.objs
    ensures Locate(w, x).Some? ==>
        Exists(w.ds, Locate(w, x).value) && Own(x, w.objs[x]) == Some(Locate(w, x).value.short)
    ensures Own(x, w.objs[x]).Some? && Holds(w, x) ==> Locate(w, x).Some?
  {
    var home := Home(w, x);
    if home in w.ds && w.ds[home].origin.Some? { assert Exists(w.ds, w.ds[home].origin.value); }
  }

  lemma DeferredReleases(ds: Datasets, r: SnapRef)
    requires ShortsUnique(ds) && Exists(ds, r)
    ensures Released(Deferred(ds, r), Some(r.short))
  {
    assert forall q :: Exists(Deferred(ds, r), q) && q.short == r.short ==> q == r;
  }

  lemma ReleaseFound(w: World, x: Name, r: SnapRef, w': World)
    requires Inv(w) && x in w.objs && w.objs[x].dying && Exists(w.ds, r) && Own(x, w.objs[x]) == Some(r.short)
    requires w' == w.(ds := w'.ds) && w'.ds == Deferred(w.ds, r)
    ensures Inv(w') && Letting(w', x)
  {
    DeferredKeepsWF(w.ds, w.txg, r);
    DeferredTakesOnly(w.ds, Home(w, x), r);
    DeferredReleases(w.ds, r);
    TakesOnlyKeepsInv(w, w', x, Some(r.short));
  }

  /** Who holds which snapshot does not depend on how far the deletes are. */
  lemma StagesAreFree(w: World, w': World)
    requires Inv(w) && w' == w.(stage := w'.stage)
    ensures Inv(w')
  {
    forall x | x in w'.objs ensures ObjectOk(w', x) { assert ObjectOk(w, x); }
  }

  /** A mark in time gives the snapshot up, or there was nothing to give up. */
  lemma MarkKeepsInv(w: World, a: Action, w': World)
    requires Inv(w) && Staged(w) && Next(w, a, w') && a.Mark?
    ensures Inv(w') && (Parting(w', a.x) <==> Timely(w, a.x))
  {
    var at := w.stage[a.x].at;
    var w1 := w.(ds := w'.ds);
    if at.Some? && Exists(w.ds, at.value) {
      ReleaseFound(w, a.x, at.value, w1);
    }
    StagesAreFree(w1, w');
  }

  /** A lookup and a mark with nothing in between. */
  lemma MarkAtOnceIsTimely(w: World, w': World, x: Name)
    requires Inv(w) && x in w.objs && Next(w, Look(x, Locate(w, x)), w')
    ensures Timely(w', x)
  {
    LocateFinds(w, x);
    assert ObjectOk(w, x);
  }

  /** An unmarked snapshot has an owner, who has it or whose dataset is a clone of it. */
  lemma UnmarkedIsHeld(w: World, r: SnapRef)
    requires Inv(w) && Exists(w.ds, r) && !At(w.ds, r).deferred
    ensures var y := OwnerName(r.short);
      y in w.objs && Own(y, w.objs[y]) == Some(r.short) && (r.ds == Home(w, y) || Home(w, y) in ClonesOf(w.ds, r))
  {
    var y := OwnerName(r.short);
    assert ObjectOk(w, y) && !Released(w.ds, Own(y, w.objs[y]));
    var d := w.ds[Home(w, y)];
    var q := if r.short in d.snaps then SnapRef(Home(w, y), r.short) else d.origin.value;
    assert Exists(w.ds, q) && q.short == r.short;
  }

  /** The only snapshot of a terminating object's dataset that can lack a clone is the object's own. */
  lemma OnlyOwnLacksAClone(w: World, x: Name, s: Short)
    requires Inv(w) && Exists(w.ds, SnapRef(Home(w, x), s)) && ClonesOf(w.ds, SnapRef(Home(w, x), s)) == {}
    ensures x in w.objs && Own(x, w.objs[x]) == Some(s) && !At(w.ds, SnapRef(Home(w, x), s)).deferred
  {
    var r := SnapRef(Home(w, x), s);
    assert At(w.ds, r) == w.ds[Home(w, x)].snaps[s];
    if !At(w.ds, r).deferred { UnmarkedIsHeld(w, r); }
  }

  /** An object that has given up its snapshot: all snapshots on its dataset have clones, so that emptying
      it destroys none. */
  lemma NothingToDrop(w: World, x: Name)
    requires Inv(w) && Letting(w, x) && Home(w, x) in w.ds
    ensures AllCloned(w.ds, Home(w, x))
  {
    forall s | s in w.ds[Home(w, x)].snaps ensures ClonesOf(w.ds, SnapRef(Home(w, x), s)) != {} {
      if ClonesOf(w.ds, SnapRef(Home(w, x), s)) == {} { OnlyOwnLacksAClone(w, x, s); }
    }
  }

  /** Conversely, once all snapshots on its dataset have clones, it has given up its own. */
  lemma PartedWithAll(w: World, x: Name)
    requires Inv(w) && Parting(w, x) && (Home(w, x) in w.ds ==> AllCloned(w.ds, Home(w, x)))
    ensures Letting(w, x)
  {
    var own := Own(x, w.objs[x]);
    if own.Some? {
      forall r | Exists(w.ds, r) && r.short == own.value ensures At(w.ds, r).deferred {
        if !At(w.ds, r).deferred {
          assert OwnerName(r.short) == x;
          UnmarkedIsHeld(w, r);
        }
      }
    }
  }

  /** The one snapshot a delete drops: its own, that its mark missed and nothing clones. */
  lemma DropKeepsInv(w: World, a: Action, w': World)
    requires Inv(w) && Staged(w) && Next(w, a, w') && a.Drop?
    ensures Inv(w') && Letting(w', a.x) && Own(a.x, w.objs[a.x]) == Some(a.s)
  {
    OnlyOwnLacksAClone(w, a.x, a.s);
    WithoutSnapKeepsWF(w.ds, w.txg, SnapRef(Home(w, a.x), a.s));
    DropTakesOnly(w.ds, Home(w, a.x), a.s);
    assert forall r :: Exists(w'.ds, r) ==> Exists(w.ds, r) && r != SnapRef(Home(w, a.x), a.s);
    TakesOnlyKeepsInv(w, w', a.x, None);
  }

  lemma {:induction false} NotBelow(floor: Datasets, n: Path, home: Path)
    requires ParentsExist(floor) && n in floor && home !in floor
    ensures n != home && !Below(n, home)
  {
    if n.Child? { NotBelow(floor, n.parent, home); }
  }

  lemma NoChildren(w: World, x: Name)
    requires Inv(w) && Home(w, x) in w.ds
    ensures Children(w.ds, Home(w, x)) == {} && Tree(w.ds, Home(w, x)) == {Home(w, x)}
  {
    NotFloor(w, x);
    NotBelow(w.floor, w.base, Home(w, x));
    forall m | m in w.ds ensures !Below(m, Home(w, x)) {
      if m in w.floor { NotBelow(w.floor, m, Home(w, x)); }
    }
  }

  lemma DestroyKeepsInv(w: World, a: Action, w': World)
    requires Inv(w) && Staged(w) && Next(w, a, w') && a.DestroyHome?
    ensures Inv(w') && Letting(w', a.x)
  {
    var home := Home(w, a.x);
    PartedWithAll(w, a.x);
    NoChildren(w, a.x);
    assert !OutsideClone(w.ds, {home}) by {
      forall c | c in w.ds && w.ds[c].origin.Some? ensures w.ds[c].origin.value.ds != home {
        assert Exists(w.ds, w.ds[c].origin.value);
      }
    }
    DestroyedKeepsWF(w.ds, w.txg, home);
    DestroyTakesOnly(w.ds, home);
    TakesOnlyKeepsInv(w, w', a.x, None);
  }

  lemma FinishKeepsInv(w: World, a: Action, w': World)
    requires Inv(w) && Staged(w) && Next(w, a, w') && a.Finish?
    ensures Inv(w')
  {
    PartedWithAll(w, a.x);
    forall y | y in w'.objs ensures ObjectOk(w', y) { assert ObjectOk(w, y); }
  }

  lemma BeginDeleteKeepsInv(w: World, a: Action, w': World)
    requires Inv(w) && Next(w, a, w') && a.BeginDelete?
    ensures Inv(w')
  {
    forall y | y in w'.objs ensures ObjectOk(w', y) { assert ObjectOk(w, y); }
  }

  // ------------------------------------------------------------------- promote

  lemma PromoteKeepsNamed(w: World, w': World, c: Path)
    requires Named(w) && Graph(w.ds) && IsClone(w.ds, c) && !Conflict(w.ds, c) && w' == w.(ds := w'.ds)
    requires w'.ds == Promoted(w.ds, c)
    ensures Named(w')
  {
    PromoteRelocates(w.ds, c);
    forall q', r' | Exists(w'.ds, q') && Exists(w'.ds, r') && q'.short == r'.short ensures q' == r' {
      var q :| Exists(w.ds, q) && Relocate(w.ds, c, q) == q';
      var r :| Exists(w.ds, r) && Relocate(w.ds, c, r) == r';
    }
  }

  lemma PromoteKeepsInstants(ds: Datasets, c: Path)
    requires InstantsUnique(ds) && Graph(ds) && IsClone(ds, c) && !Conflict(ds, c)
    ensures InstantsUnique(Promoted(ds, c))
  {
    PromoteRelocates(ds, c);
    var ds' := Promoted(ds, c);
    forall q', r' | Exists(ds', q') && Exists(ds', r') && At(ds', q').txg == At(ds', r').txg ensures q' == r' {
      var q :| Exists(ds, q) && Relocate(ds, c, q) == q';
      var r :| Exists(ds, r) && Relocate(ds, c, r) == r';
    }
  }

  lemma PromoteKeepsOwned(w: World, w': World, c: Path)
    requires Owned(w) && Graph(w.ds) && IsClone(w.ds, c) && !Conflict(w.ds, c) && w' == w.(ds := w'.ds)
    requires w'.ds == Promoted(w.ds, c)
    ensures Owned(w')
  {
    PromoteRelocates(w.ds, c);
    forall r' | Exists(w'.ds, r') && !At(w'.ds, r').deferred
      ensures OwnerName(r'.short) in w.objs && Own(OwnerName(r'.short), w.objs[OwnerName(r'.short)]) == Some(r'.short)
    {
      var r :| Exists(w.ds, r) && Relocate(w.ds, c, r) == r';
    }
  }

  /** A promote keeps what is known of the snapshots with one short name. */
  lemma PromoteKeepsMarks(ds: Datasets, c: Path, s: Short, t: nat)
    requires Graph(ds) && IsClone(ds, c) && !Conflict(ds, c)
    ensures Released(ds, Some(s)) ==> Released(Promoted(ds, c), Some(s))
    ensures Intact(ds, s, t) ==> Intact(Promoted(ds, c), s, t)
  {
    PromoteRelocates(ds, c);
    var ds' := Promoted(ds, c);
    forall r' | Exists(ds', r') && r'.short == s
      ensures Released(ds, Some(s)) ==> At(ds', r').deferred
      ensures Intact(ds, s, t) ==> !At(ds', r').deferred && At(ds', r').txg == t
    {
      var r :| Exists(ds, r) && Relocate(ds, c, r) == r';
    }
  }

  /** A snapshot found on, or as the origin of, a dataset other than the parent of the
      promoted one is still found there after the promote. */
  lemma PromoteKeepsLocated(ds: Datasets, c: Path, d: Path, s: Short)
    requires Graph(ds) && IsClone(ds, c) && Located(ds, d, s) && d != ds[c].origin.value.ds
    ensures Located(Promoted(ds, c), d, s)
  {
    ParentIsOther(ds, c);
  }

  /** On the parent it is found exactly if it is the origin of the promoted dataset, or newer. */
  lemma PromoteKeepsOnParent(ds: Datasets, c: Path, s: Short)
    requires Graph(ds) && IsClone(ds, c)
    ensures var o := ds[c].origin.value;
      Located(Promoted(ds, c), o.ds, s) <==>
        s == o.short || (s in ds[o.ds].snaps && ds[o.ds].snaps[s].txg > At(ds, o).txg)
  {
    ParentIsOther(ds, c);
  }

  lemma HeldIsNotReleased(w: World, y: Name)
    requires Inv(w) && y in w.objs && Own(y, w.objs[y]).Some? && Holds(w, y)
    ensures !Released(w.ds, Own(y, w.objs[y]))
  {
    var s, d := Own(y, w.objs[y]).value, w.ds[Home(w, y)];
    var r := if s in d.snaps then SnapRef(Home(w, y), s) else d.origin.value;
    assert Exists(w.ds, r) && r.short == s;
  }

  lemma PromoteKeepsObject(w: World, w': World, c: Path, y: Name)
    requires Inv(w) && IsClone(w.ds, c) && !Conflict(w.ds, c) && w' == w.(ds := w'.ds) && w'.ds == Promoted(w.ds, c)
    requires y in w.objs
    requires Home(w, y) == w.ds[c].origin.value.ds ==> Spared(w.ds, Own(y, w.objs[y]), w.ds[c].origin.value)
    ensures ObjectOk(w', y)
  {
    var own := Own(y, w.objs[y]);
    assert ObjectOk(w, y);
    if own.Some? {
      PromoteKeepsMarks(w.ds, c, own.value, w.objs[y].cut);
      if Holds(w, y) {
        if Home(w, y) != w.ds[c].origin.value.ds {
          PromoteKeepsLocated(w.ds, c, Home(w, y), own.value);
        } else {
          PromoteKeepsOnParent(w.ds, c, own.value);
          HeldIsNotReleased(w, y);
        }
      }
    }
  }

  lemma PromoteKeepsFlat(w: World, w': World, c: Path)
    requires Flat(w) && Graph(w.ds) && IsClone(w.ds, c) && w' == w.(ds := w'.ds) && w'.ds == Promoted(w.ds, c)
    ensures Flat(w')
  {
    var p := w.ds[c].origin.value.ds;
    assert p !in w.floor;
  }

  /** Pool-wide unique names: a promote never meets a conflict. */
  lemma NeverConflicts(w: World, c: Path)
    requires Inv(w) && IsClone(w.ds, c)
    ensures !Conflict(w.ds, c)
  {
    if Conflict(w.ds, c) { ConflictIsAmbiguous(w.ds, c); }
  }

  lemma TameKeepsInv(w: World, w': World, c: Path)
    requires Inv(w) && Tame(w, c) && w' == w.(ds := w'.ds) && w'.ds == Promoted(w.ds, c)
    ensures Inv(w')
  {
    NeverConflicts(w, c);
    PromotedKeepsWF(w.ds, w.txg, c);
    PromoteKeepsFlat(w, w', c);
    PromoteKeepsInstants(w.ds, c);
    PromoteKeepsNamed(w, w', c);
    PromoteKeepsOwned(w, w', c);
    forall y | y in w'.objs ensures ObjectOk(w', y) { PromoteKeepsObject(w, w', c, y); }
  }

  lemma PromoteKeepsInv(w: World, a: Action, w': World)
    requires Inv(w) && Staged(w) && Next(w, a, w') && a.PromoteAway?
    ensures Inv(w') && Letting(w, a.x) && Letting(w', a.x)
  {
    PartedWithAll(w, a.x);
    assert Tame(w, a.c);
    TameKeepsInv(w, w', a.c);
    NeverConflicts(w, a.c);
    var own := Own(a.x, w.objs[a.x]);
    if own.Some? { PromoteKeepsMarks(w.ds, a.c, own.value, 0); }
  }

  lemma PromoteKeepsUnreleased(ds: Datasets, c: Path, s: Short)
    requires Graph(ds) && IsClone(ds, c) && !Conflict(ds, c) && !Released(ds, Some(s))
    ensures !Released(Promoted(ds, c), Some(s))
  {
    PromoteRelocates(ds, c);
    var r :| Exists(ds, r) && r.short == s && !At(ds, r).deferred;
    assert Exists(Promoted(ds, c), Relocate(ds, c, r));
  }

  lemma UntameIsLost(w: World, c: Path, z: Name)
    requires Inv(w) && IsClone(w.ds, c) && z in w.objs && Home(w, z) == w.ds[c].origin.value.ds
    requires !Spared(w.ds, Own(z, w.objs[z]), w.ds[c].origin.value)
    ensures !ObjectOk(w.(ds := Promoted(w.ds, c)), z)
  {
    var own := Own(z, w.objs[z]).value;
    NeverConflicts(w, c);
    PromoteKeepsOnParent(w.ds, c, own);
    PromoteKeepsUnreleased(w.ds, c, own);
  }

  /** The exact condition under which a promote, of whatever clone and whenever, keeps the invariant. */
  lemma PromoteKeepsInvExactlyIfTame(w: World, c: Path)
    requires Inv(w) && IsClone(w.ds, c)
    ensures Inv(w.(ds := Promoted(w.ds, c))) <==> Tame(w, c)
  {
    var w' := w.(ds := Promoted(w.ds, c));
    if Tame(w, c) {
      TameKeepsInv(w, w', c);
    } else {
      var z :| z in w.objs && Home(w, z) == w.ds[c].origin.value.ds
        && !Spared(w.ds, Own(z, w.objs[z]), w.ds[c].origin.value);
      UntameIsLost(w, c, z);
    }
  }

  // ----------------------------------------------------------------------- runs

  /** Steps that only take away, clones included. */
  lemma FewerKeepsLoose(ds: Datasets, ds': Datasets, s: Option<Short>)
    requires Fewer(ds, ds') && Loose(ds, s)
    ensures Loose(ds', s)
  {
    forall r | s.Some? && Exists(ds', r) && r.short == s.value && !At(ds', r).deferred ensures ClonesOf(ds', r) == {} {
      assert ClonesOf(ds', r) <= ClonesOf(ds, r);
    }
  }

  lemma PromoteKeepsLoose(ds: Datasets, c: Path, s: Option<Short>)
    requires Graph(ds) && IsClone(ds, c) && !Conflict(ds, c) && Loose(ds, s)
    ensures Loose(Promoted(ds, c), s)
  {
    PromoteRelocates(ds, c);
    var ds' := Promoted(ds, c);
    forall r' | s.Some? && Exists(ds', r') && r'.short == s.value && !At(ds', r').deferred
      ensures ClonesOf(ds', r') == {}
    {
      var r :| Exists(ds, r) && Relocate(ds, c, r) == r';
      PromoteClones(ds, c, r);
    }
  }

  lemma GrowsKeepsLoose(ds: Datasets, ds': Datasets, home: Path, d: Dataset, added: Option<SnapRef>, t: nat,
                        s: Option<Short>)
    requires Grows(ds, ds', home, d, added, t) && Loose(ds, s)
    requires s.Some? ==> (d.origin.Some? ==> d.origin.value.short != s.value)
    requires s.Some? ==> (added.Some? ==> added.value.short != s.value)
    ensures Loose(ds', s)
  {
    forall r | s.Some? && Exists(ds', r) && r.short == s.value && !At(ds', r).deferred ensures ClonesOf(ds', r) == {} {
      assert ClonesOf(ds', r) <= ClonesOf(ds, r);
    }
  }

  lemma CreateKeepsLoose(w: World, a: Action, w': World, z: Name)
    requires Inv(w) && Next(w, a, w') && (a.NewVolume? || a.TakeSnapshot? || a.CloneVolume? || a.Restore?)
    requires Parting(w, z)
    ensures Parting(w', z)
  {
    var own := Own(z, w.objs[z]);
    assert own.Some? ==> OwnerName(own.value) == z;
    match a
    case NewVolume(x, kind, size, props) =>
      GrowsKeepsLoose(w.ds, w'.ds, Home(w, x), Dataset(kind, props, None, map[], size), None, w.txg + 1, own);
    case TakeSnapshot(x, v, props) =>
      var r := SnapRef(Home(w, v), Direct(x));
      GrowsKeepsLoose(w.ds, w'.ds, Home(w, x), CloneOf(w.ds, r, props), Some(r), w.txg + 1, own);
    case CloneVolume(x, v, props) =>
      var r := SnapRef(Home(w, v), CloneOrigin(x));
      GrowsKeepsLoose(w.ds, w'.ds, Home(w, x), CloneOf(w.ds, r, props), Some(r), w.txg + 1, own);
    case Restore(x, s, props) =>
      LocateFinds(w, s);
      GrowsKeepsLoose(w.ds, w'.ds, Home(w, x), CloneOf(w.ds, Locate(w, s).value, props), None, w.txg + 1, own);
  }

  /** Whoever has nothing left to lose has nothing to lose later, whatever the others do. */
  lemma PartingStays(w: World, a: Action, w': World, z: Name)
    requires Inv(w) && Next(w, a, w') && Parting(w, z) && z in w'.objs
    ensures Parting(w', z)
  {
    var own := Own(z, w.objs[z]);
    match a
    case BeginDelete(_) =>
    case Look(_, _) =>
    case Mark(x) =>
      if w.stage[x].at.Some? {
        DeferredTakesOnly(w.ds, Home(w, x), w.stage[x].at.value);
        FewerKeepsLoose(w.ds, w'.ds, own);
      }
    case Drop(x, s) =>
      DropTakesOnly(w.ds, Home(w, x), s);
      FewerKeepsLoose(w.ds, w'.ds, own);
    case PromoteAway(_, c) =>
      NeverConflicts(w, c);
      PromoteKeepsLoose(w.ds, c, own);
    case PromoteLate(c) => PromoteKeepsLoose(w.ds, c, own);
    case DestroyHome(x) =>
      DestroyTakesOnly(w.ds, Home(w, x));
      FewerKeepsLoose(w.ds, w'.ds, own);
    case Finish(_) =>
    case _ => CreateKeepsLoose(w, a, w', z);
  }

  lemma StageStays(w: World, a: Action, w': World, z: Name)
    requires Inv(w) && Next(w, a, w') && z in w'.stage && !(a.Mark? && a.x == z)
    requires z in w.stage ==> StageOk(w, z)
    ensures StageOk(w', z)
  {
    if z in w.stage && w.stage[z].Marked? && z in w'.objs { PartingStays(w, a, w', z); }
  }

  lemma NextKeepsStaged(w: World, a: Action, w': World)
    requires Inv(w) && Staged(w) && Next(w, a, w') && InTime(w, a)
    ensures Staged(w')
  {
    forall z | z in w'.stage ensures StageOk(w', z) {
      if a.Mark? && a.x == z {
        assert StageOk(w, z);
        MarkKeepsInv(w, a, w');
      } else {
        StageStays(w, a, w', z);
      }
    }
  }

  lemma NextKeepsInv(w: World, a: Action, w': World)
    requires Inv(w) && Staged(w) && Next(w, a, w') && InTime(w, a)
    ensures Inv(w')
  {
    match a
    case BeginDelete(_) => BeginDeleteKeepsInv(w, a, w');
    case Look(_, _) => StagesAreFree(w, w');
    case Mark(_) => MarkKeepsInv(w, a, w');
    case Drop(_, _) => DropKeepsInv(w, a, w');
    case PromoteAway(_, _) => PromoteKeepsInv(w, a, w');
    case PromoteLate(c) => TameKeepsInv(w, w', c);
    case DestroyHome(_) => DestroyKeepsInv(w, a, w');
    case Finish(_) => FinishKeepsInv(w, a, w');
    case _ => CreateKeepsInv(w, a, w');
  }

  /** The exact condition: a step that comes too late breaks who holds what, or lets a delete go on
      that still has something to lose. */
  lemma NextKeepsBothExactlyInTime(w: World, a: Action, w': World)
    requires Inv(w) && Staged(w) && Next(w, a, w')
    ensures Inv(w') && Staged(w') <==> InTime(w, a)
  {
    if InTime(w, a) {
      NextKeepsInv(w, a, w');
      NextKeepsStaged(w, a, w');
    } else if a.Mark? {
      MarkKeepsInv(w, a, w');
      assert !StageOk(w', a.x);
    } else {
      PromoteKeepsInvExactlyIfTame(w, a.c);
    }
  }

  /** The driver's world before it created anything. */
  ghost predicate Init(w: World) {
    && w.objs == map[] && w.used == {} && w.ds == w.floor && w.stage == map[]
    && w.base in w.floor && ParentsExist(w.floor)
    && (forall n :: n in w.floor ==> w.floor[n].snaps == map[] && w.floor[n].origin.None?)
    && (forall n :: n in w.floor && n.Child? ==> n.parent != w.base)
  }

  ghost predicate StepAt(run: seq<World>, acts: seq<Action>, i: nat)
    requires |run| == |acts| + 1 && i < |acts|
  {
    Next(run[i], acts[i], run[i + 1])
  }

  ghost predicate Steps(run: seq<World>, acts: seq<Action>) {
    && |run| == |acts| + 1
    && forall i :: 0 <= i < |acts| ==> StepAt(run, acts, i)
  }

  ghost predicate InTimeAt(run: seq<World>, acts: seq<Action>, i: nat)
    requires |run| == |acts| + 1 && i < |acts|
  {
    InTime(run[i], acts[i])
  }

  /** No mark and no promote comes too late. */
  ghost predicate AllInTime(run: seq<World>, acts: seq<Action>)
    requires |run| == |acts| + 1
  {
    forall i :: 0 <= i < |acts| ==> InTimeAt(run, acts, i)
  }

  lemma OneMoreStep(run: seq<World>, acts: seq<Action>, a: Action, w: World)
    requires Steps(run, acts) && Next(run[|acts|], a, w)
    ensures Steps(run + [w], acts + [a])
  {
    var run', acts' := run + [w], acts + [a];
    forall i | 0 <= i < |acts'| ensures StepAt(run', acts', i) {
      if i < |acts| { assert StepAt(run, acts, i); }
    }
  }

  lemma OneMoreInTime(run: seq<World>, acts: seq<Action>, a: Action, w: World)
    requires |run| == |acts| + 1 && AllInTime(run, acts) && InTime(run[|acts|], a)
    ensures AllInTime(run + [w], acts + [a])
  {
    var run', acts' := run + [w], acts + [a];
    forall i | 0 <= i < |acts'| ensures InTimeAt(run', acts', i) {
      if i < |acts| { assert InTimeAt(run, acts, i); }
    }
  }

  /** A run: any actions, in any order, from an empty driver world. */
  ghost predicate Run(run: seq<World>, acts: seq<Action>) {
    Steps(run, acts) && Init(run[0])
  }

  lemma {:induction false} RunKeepsInv(run: seq<World>, acts: seq<Action>, i: nat)
    requires Run(run, acts) && AllInTime(run, acts) && i < |run|
    ensures Inv(run[i]) && Staged(run[i])
  {
    if i > 0 {
      RunKeepsInv(run, acts, i - 1);
      assert StepAt(run, acts, i - 1) && InTimeAt(run, acts, i - 1);
      NextKeepsInv(run[i - 1], acts[i - 1], run[i]);
      NextKeepsStaged(run[i - 1], acts[i - 1], run[i]);
    }
  }
}
