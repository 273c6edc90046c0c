/** What the promote fixpoint of the delete path may do to a pool, one command at a
    time, and what survives it (internal/controller/promote.go). */
module Detach {
  import opened Options
  import opened Pool
  import opened PoolInvariant
  import opened Promote
  import opened MemZfs

  const ROLE := "simple-zfs-csi:role"
  const BACKING := "backing"

  /** `c` is a clone of one of the snapshots of `full`. */
  predicate Dependent(ds: Datasets, full: Path, c: Path) {
    IsClone(ds, c) && ds[c].origin.value.ds == full
  }

  predicate IsBacking(ds: Datasets, c: Path) {
    Inherited(ds, c, ROLE) == Some(BACKING)
  }

  /** The instant of the snapshot a dependent was cloned from. */
  function Age(ds: Datasets, c: Path): nat
    requires IsClone(ds, c)
  {
    At(ds, ds[c].origin.value).txg
  }

  /** The dependent to promote: a backing clone before any other, the oldest first. */
  ghost predicate Picked(ds: Datasets, full: Path, c: Path) {
    && Dependent(ds, full, c)
    && forall d :: Dependent(ds, full, d) ==>
         if IsBacking(ds, d) then IsBacking(ds, c) && Age(ds, c) <= Age(ds, d)
         else IsBacking(ds, c) || Age(ds, c) <= Age(ds, d)
  }

  /** `c` was cloned from the snapshot `s` of `full`. */
  ghost predicate ClonedFrom(ds: Datasets, full: Path, s: Short, c: Path) {
    full in ds && s in ds[full].snaps && c in ds && ds[c].origin == Some(SnapRef(full, s))
  }

  ghost predicate LabelledBacking(ds: Datasets, c: Path) {
    Inherited(ds, c, "simple-zfs-csi:role") == Some("backing")
  }

  /** `c` was cloned from `s`, and whoever is labelled as a backing clone when `c` is not, or was cloned from a snapshot
      older than `s` without `c` having the label before it, is not there. */
  ghost predicate FirstToGo(ds: Datasets, full: Path, s: Short, c: Path) {
    && ClonedFrom(ds, full, s, c)
    && forall t, d :: ClonedFrom(ds, full, t, d) ==>
        && (LabelledBacking(ds, d) ==> LabelledBacking(ds, c))
        && (ds[full].snaps[t].txg < ds[full].snaps[s].txg ==> LabelledBacking(ds, c) && !LabelledBacking(ds, d))
  }

  lemma PickedIsFirst(ds: Datasets, full: Path, c: Path)
    ensures Picked(ds, full, c) <==> exists s :: FirstToGo(ds, full, s, c)
  {
    if Picked(ds, full, c) {
      var s := ds[c].origin.value.short;
      forall t, d | ClonedFrom(ds, full, t, d)
        ensures LabelledBacking(ds, d) ==> LabelledBacking(ds, c)
        ensures ds[full].snaps[t].txg < ds[full].snaps[s].txg ==> LabelledBacking(ds, c) && !LabelledBacking(ds, d)
      {
        assert Dependent(ds, full, d) && Age(ds, d) == ds[full].snaps[t].txg;
      }
      assert FirstToGo(ds, full, s, c);
    }
    if s :| FirstToGo(ds, full, s, c) {
      forall d | Dependent(ds, full, d)
        ensures if IsBacking(ds, d) then IsBacking(ds, c) && Age(ds, c) <= Age(ds, d)
          else IsBacking(ds, c) || Age(ds, c) <= Age(ds, d)
      {
        assert ClonedFrom(ds, full, ds[d].origin.value.short, d);
      }
    }
  }

  ghost predicate AllCloned(ds: Datasets, full: Path)
    requires full in ds
  {
    forall s :: s in ds[full].snaps ==> ClonesOf(ds, SnapRef(full, s)) != {}
  }

  ghost predicate DropStep(full: Path, a: Datasets, b: Datasets) {
    exists s :: full in a && s in a[full].snaps && ClonesOf(a, SnapRef(full, s)) == {}
      && b == WithoutSnap(a, SnapRef(full, s))
  }

  ghost predicate PromoteStep(full: Path, a: Datasets, b: Datasets) {
    && full in a && AllCloned(a, full)
    && exists c :: Picked(a, full, c) && !Conflict(a, c) && b == Promoted(a, c)
  }

  /** Every pool the loop passes through, from the first to the last. */
  ghost predicate Passes(full: Path, path: seq<Datasets>) {
    && |path| > 0
    && forall i :: 0 <= i < |path| - 1 ==>
        DropStep(full, path[i], path[i + 1]) || PromoteStep(full, path[i], path[i + 1])
  }

  // ------------------------------------------------------------- what survives

  ghost predicate Kept(a: Datasets, r: SnapRef, b: Datasets, r': SnapRef) {
    && Exists(a, r) && Exists(b, r') && r'.short == r.short
    && At(b, r') == At(a, r) && |ClonesOf(b, r')| == |ClonesOf(a, r)|
  }

  ghost predicate Survives(a: Datasets, r: SnapRef, b: Datasets) {
    exists r' :: Kept(a, r, b, r')
  }

  /** Where each surviving snapshot of `a` is in `b`. Everything about it but its
      dataset is kept, the number of its clones included; a snapshot that is not
      on `full` does not move; only clone-less snapshots of `full` are gone. */
  ghost predicate Survival(full: Path, a: Datasets, b: Datasets, f: map<SnapRef, SnapRef>) {
    && a.Keys == b.Keys
    && (forall r :: r in f ==> Kept(a, r, b, f[r]))
    && (forall q, r :: q in f && r in f && f[q] == f[r] ==> q == r)
    && (forall r' :: Exists(b, r') ==> exists r :: r in f && f[r] == r')
    && (forall r :: Exists(a, r) && r !in f ==> r.ds == full && ClonesOf(a, r) == {})
    && (forall r :: r in f && (r.ds != full || ClonesOf(a, r) == {}) ==> f[r] == r)
  }

  ghost function Refs(ds: Datasets): set<SnapRef> {
    set n, s | n in ds && s in ds[n].snaps :: SnapRef(n, s)
  }

  lemma SurvivesNothing(full: Path, a: Datasets)
    ensures Survival(full, a, a, map r | r in Refs(a) :: r)
  {
    var f := map r | r in Refs(a) :: r;
    forall r' | Exists(a, r') ensures exists r :: r in f && f[r] == r' {
      assert r' in f && f[r'] == r';
    }
  }

  lemma DropSurvival(full: Path, a: Datasets, gone: SnapRef, b: Datasets) returns (f: map<SnapRef, SnapRef>)
    requires a.Keys == b.Keys && gone.ds == full && ClonesOf(a, gone) == {}
    requires forall r :: ClonesOf(b, r) == ClonesOf(a, r)
    requires forall r :: (Exists(b, r) <==> Exists(a, r) && r != gone) && (Exists(b, r) ==> At(b, r) == At(a, r))
    ensures Survival(full, a, b, f)
  {
    f := map r | r in Refs(b) :: r;
    forall r' | Exists(b, r') ensures exists r :: r in f && f[r] == r' {
      assert r' in f && f[r'] == r';
    }
  }

  lemma SurvivesDrop(full: Path, a: Datasets, b: Datasets) returns (f: map<SnapRef, SnapRef>)
    requires DropStep(full, a, b)
    ensures Survival(full, a, b, f)
  {
    var s :| full in a && s in a[full].snaps && ClonesOf(a, SnapRef(full, s)) == {}
      && b == WithoutSnap(a, SnapRef(full, s));
    DeferredClones(a, SnapRef(full, s));
    f := DropSurvival(full, a, SnapRef(full, s), b);
  }

  lemma RelocationSurvival(full: Path, a: Datasets, c: Path) returns (f: map<SnapRef, SnapRef>)
    requires Graph(a) && Dependent(a, full, c) && AllCloned(a, full) && !Conflict(a, c)
    ensures Survival(full, a, Promoted(a, c), f)
  {
    var b := Promoted(a, c);
    f := map r | r in Refs(a) :: Relocate(a, c, r);
    assert forall r :: r in f <==> Exists(a, r);
    PromoteRelocates(a, c);
    forall r | r in f ensures Kept(a, r, b, f[r]) {
      PromoteClones(a, c, r);
    }
    forall r' | Exists(b, r') ensures exists r :: r in f && f[r] == r' {
      var r :| Exists(a, r) && Relocate(a, c, r) == r';
      assert r in f;
    }
    forall r | r in f && ClonesOf(a, r) == {} ensures r.ds != full {
      assert r == SnapRef(r.ds, r.short);
    }
  }

  lemma SurvivesPromote(full: Path, a: Datasets, b: Datasets) returns (f: map<SnapRef, SnapRef>)
    requires Graph(a) && PromoteStep(full, a, b)
    ensures Graph(b) && Survival(full, a, b, f)
  {
    var c :| Picked(a, full, c) && !Conflict(a, c) && b == Promoted(a, c);
    PromotedKeepsGraph(a, c);
    f := RelocationSurvival(full, a, c);
  }

  lemma GoneTwice(full: Path, a: Datasets, b: Datasets, c: Datasets, f: map<SnapRef, SnapRef>, g: map<SnapRef, SnapRef>)
    requires Survival(full, a, b, f) && Survival(full, b, c, g)
    requires forall r :: r in f ==> (ClonesOf(a, r) == {} <==> ClonesOf(b, f[r]) == {})
    ensures forall r :: Exists(a, r) && !(r in f && f[r] in g) ==> r.ds == full && ClonesOf(a, r) == {}
    ensures forall r :: r in f && f[r] in g && (r.ds != full || ClonesOf(a, r) == {}) ==> g[f[r]] == r
  {
    forall r | Exists(a, r) && r in f && f[r] !in g ensures r.ds == full && ClonesOf(a, r) == {} {
      assert Kept(a, r, b, f[r]);
    }
  }

  lemma NoneLeft(s: set<Path>, t: set<Path>)
    requires |s| == |t| && t == {}
    ensures s == {}
  {
  }

  lemma Compose(full: Path, a: Datasets, b: Datasets, c: Datasets, f: map<SnapRef, SnapRef>, g: map<SnapRef, SnapRef>)
    returns (h: map<SnapRef, SnapRef>)
    requires Survival(full, a, b, f) && Survival(full, b, c, g)
    ensures Survival(full, a, c, h)
  {
    h := map r | r in f && f[r] in g :: g[f[r]];
    forall r' | Exists(c, r') ensures exists r :: r in h && h[r] == r' {
      var q :| q in g && g[q] == r';
      assert Kept(b, q, c, r');
      var r :| r in f && f[r] == q;
      assert r in h;
    }
    forall r | r in f && ClonesOf(a, r) == {} ensures ClonesOf(b, f[r]) == {} {
      NoneLeft(ClonesOf(b, f[r]), ClonesOf(a, r));
    }
    forall r | r in f && ClonesOf(b, f[r]) == {} ensures ClonesOf(a, r) == {} {
      NoneLeft(ClonesOf(a, r), ClonesOf(b, f[r]));
    }
    GoneTwice(full, a, b, c, f, g);
  }

  lemma DropKeepsGraph(full: Path, a: Datasets, b: Datasets)
    requires Graph(a) && DropStep(full, a, b)
    ensures Graph(b)
  {
    var s :| full in a && s in a[full].snaps && ClonesOf(a, SnapRef(full, s)) == {}
      && b == WithoutSnap(a, SnapRef(full, s));
    forall n | n in a && a[n].origin.Some?
      ensures Exists(b, a[n].origin.value) && At(b, a[n].origin.value) == At(a, a[n].origin.value)
    {
      assert n in ClonesOf(a, a[n].origin.value);
    }
  }

  /** However far the loop got, only clone-less snapshots of `full` are gone. */
  lemma {:induction false} DetachSurvival(full: Path, path: seq<Datasets>) returns (f: map<SnapRef, SnapRef>)
    requires Passes(full, path) && Graph(path[0])
    ensures Survival(full, path[0], path[|path| - 1], f) && Graph(path[|path| - 1])
  {
    if |path| == 1 {
      SurvivesNothing(full, path[0]);
      f := map r | r in Refs(path[0]) :: r;
    } else {
      var rest := path[..|path| - 1];
      var g := DetachSurvival(full, rest);
      var a, b := path[|path| - 2], path[|path| - 1];
      var h;
      if DropStep(full, a, b) {
        h := SurvivesDrop(full, a, b);
        DropKeepsGraph(full, a, b);
      } else {
        h := SurvivesPromote(full, a, b);
      }
      f := Compose(full, path[0], a, b, g, h);
    }
  }

  /** Only `full` becomes a clone by a detach. */
  lemma {:induction false} NoNewClones(full: Path, path: seq<Datasets>)
    requires Passes(full, path) && Graph(path[0])
    ensures path[|path| - 1].Keys == path[0].Keys && Graph(path[|path| - 1])
    ensures forall n :: n in path[0] && n != full && path[|path| - 1][n].origin.Some? ==> path[0][n].origin.Some?
  {
    if |path| > 1 {
      NoNewClones(full, path[..|path| - 1]);
      var a, b := path[|path| - 2], path[|path| - 1];
      if DropStep(full, a, b) {
        DropKeepsGraph(full, a, b);
      } else {
        var c :| Picked(a, full, c) && !Conflict(a, c) && b == Promoted(a, c);
        PromotedKeepsGraph(a, c);
      }
    }
  }

  lemma DependentBefore(full: Path, a: Datasets, b: Datasets, c: Path)
    requires Graph(a) && Dependent(b, full, c)
    requires DropStep(full, a, b) || exists e :: Dependent(a, full, e) && b == Promoted(a, e)
    ensures Dependent(a, full, c)
  {
    if !DropStep(full, a, b) {
      var e :| Dependent(a, full, e) && b == Promoted(a, e);
      ParentIsOther(a, e);
    }
    assert Exists(a, a[c].origin.value);
  }

  /** A detach gives `full` no new dependent. */
  lemma {:induction false} DependentsShrink(full: Path, path: seq<Datasets>, c: Path)
    requires Passes(full, path) && Graph(path[0]) && Dependent(path[|path| - 1], full, c)
    ensures Dependent(path[0], full, c)
  {
    if |path| > 1 {
      NoNewClones(full, path[..|path| - 1]);
      DependentBefore(full, path[|path| - 2], path[|path| - 1], c);
      DependentsShrink(full, path[..|path| - 1], c);
    }
  }

  /** A detach that emptied `full` destroyed exactly the snapshots of `full` that had no clone. */
  lemma DetachIsExact(full: Path, path: seq<Datasets>) returns (f: map<SnapRef, SnapRef>)
    requires Passes(full, path) && Graph(path[0])
    requires full in path[|path| - 1] && path[|path| - 1][full].snaps == map[]
    ensures Survival(full, path[0], path[|path| - 1], f)
    ensures forall r :: Exists(path[0], r) ==> (r !in f <==> r.ds == full && ClonesOf(path[0], r) == {})
  {
    f := DetachSurvival(full, path);
    forall r | Exists(path[0], r) && r.ds == full && ClonesOf(path[0], r) == {} ensures r !in f {
      assert !Exists(path[|path| - 1], r);
    }
  }
}
