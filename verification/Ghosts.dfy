/** A mark that comes too late: the delete of a snapshot found it by its name, the delete of its
    source moved it, and `destroy -d` of the old name does nothing. What is then left behind. */
module Ghosts {
  import opened Options
  import opened Pool
  import opened Promote
  import opened Detach
  import opened DetachLoop
  import opened Lifecycle
  import opened Guarantees
  import opened Reach

  // -------------------------------------------------- every dataset can be emptied

  /** `c` comes before `d`: a backing clone before any other, the older first. */
  ghost predicate Sooner(ds: Datasets, c: Path, d: Path)
    requires IsClone(ds, c) && IsClone(ds, d)
  {
    if IsBacking(ds, d) then IsBacking(ds, c) && Age(ds, c) <= Age(ds, d)
    else IsBacking(ds, c) || Age(ds, c) <= Age(ds, d)
  }

  lemma {:induction false} Soonest(ds: Datasets, some: set<Path>) returns (c: Path)
    requires some != {} && forall d :: d in some ==> IsClone(ds, d)
    ensures c in some && forall d :: d in some ==> Sooner(ds, c, d)
  {
    var e :| e in some;
    if some == {e} {
      c := e;
    } else {
      var b := Soonest(ds, some - {e});
      c := if Sooner(ds, e, b) then e else b;
      forall d | d in some ensures Sooner(ds, c, d) {
        if d != e { assert d in some - {e}; }
      }
    }
  }

  lemma SomePicked(ds: Datasets, full: Path) returns (c: Path)
    requires OriginsExist(ds) && full in ds && ds[full].snaps != map[] && AllCloned(ds, full)
    ensures Picked(ds, full, c)
  {
    var s :| s in ds[full].snaps;
    var d :| d in ClonesOf(ds, SnapRef(full, s));
    var some := set n | n in ds && Dependent(ds, full, n);
    assert d in some;
    c := Soonest(ds, some);
    forall n | Dependent(ds, full, n) ensures Sooner(ds, c, n) { assert n in some; }
  }

  lemma OneTakenOff(ds: Datasets, full: Path) returns (b: Datasets)
    requires Graph(ds) && ShortsUnique(ds) && full in ds && ds[full].snaps != map[]
    ensures DropStep(full, ds, b) || PromoteStep(full, ds, b)
    ensures Graph(b) && full in b && b[full].snaps.Keys < ds[full].snaps.Keys
  {
    if AllCloned(ds, full) {
      var c := SomePicked(ds, full);
      if Conflict(ds, c) { ConflictIsAmbiguous(ds, c); }
      b := Promoted(ds, c);
      PromotedKeepsGraph(ds, c);
      PromoteShrinksParent(ds, c);
    } else {
      var s :| s in ds[full].snaps && ClonesOf(ds, SnapRef(full, s)) == {};
      b := WithoutSnap(ds, SnapRef(full, s));
      DropKeepsGraph(full, ds, b);
      assert s !in b[full].snaps;
    }
  }

  lemma {:induction false} Emptied(ds: Datasets, full: Path) returns (path: seq<Datasets>)
    requires Graph(ds) && ShortsUnique(ds) && full in ds
    ensures Passes(full, path) && path[0] == ds
    ensures full in path[|path| - 1] && path[|path| - 1][full].snaps == map[]
    decreases ds[full].snaps.Keys
  {
    if ds[full].snaps == map[] {
      path := [ds];
    } else {
      var b := OneTakenOff(ds, full);
      UniqueAlong(full, [ds, b]);
      var rest := Emptied(b, full);
      path := [ds] + rest;
      forall i | 0 <= i < |path| - 1
        ensures DropStep(full, path[i], path[i + 1]) || PromoteStep(full, path[i], path[i + 1])
      {
        if i > 0 { assert path[i] == rest[i - 1] && path[i + 1] == rest[i]; }
      }
    }
  }

  // ------------------------------------------------------- a delete that goes on

  /** A command of the delete of `x`. */
  predicate OfItsOwn(a: Action, x: Name) {
    match a
    case Mark(y) => y == x
    case Drop(y, _) => y == x
    case PromoteAway(y, _) => y == x
    case DestroyHome(y) => y == x
    case Finish(y) => y == x
    case _ => false
  }

  ghost predicate Alone(ws: seq<World>, acts: seq<Action>, x: Name) {
    Steps(ws, acts) && forall a :: a in acts ==> OfItsOwn(a, x)
  }

  lemma AloneMore(ws: seq<World>, acts: seq<Action>, x: Name, a: Action, w: World)
    requires Alone(ws, acts, x) && Next(ws[|acts|], a, w) && OfItsOwn(a, x)
    ensures Alone(ws + [w], acts + [a], x)
  {
    OneMoreStep(ws, acts, a, w);
  }

  lemma NextOfDetach(w: World, x: Name, b: Datasets) returns (a: Action)
    requires GoesOn(w, x) && (DropStep(Home(w, x), w.ds, b) || PromoteStep(Home(w, x), w.ds, b))
    ensures Next(w, a, w.(ds := b)) && OfItsOwn(a, x)
  {
    var full := Home(w, x);
    if DropStep(full, w.ds, b) {
      var s :| full in w.ds && s in w.ds[full].snaps && ClonesOf(w.ds, SnapRef(full, s)) == {}
        && b == WithoutSnap(w.ds, SnapRef(full, s));
      a := Drop(x, s);
    } else {
      var c :| Picked(w.ds, full, c) && !Conflict(w.ds, c) && b == Promoted(w.ds, c);
      a := PromoteAway(x, c);
    }
  }

  lemma {:induction false} DetachAlone(w: World, x: Name, path: seq<Datasets>)
    returns (ws: seq<World>, acts: seq<Action>)
    requires GoesOn(w, x) && Passes(Home(w, x), path) && path[0] == w.ds
    ensures Alone(ws, acts, x) && ws[0] == w && ws[|acts|] == w.(ds := path[|path| - 1])
  {
    if |path| == 1 {
      ws, acts := [w], [];
    } else {
      var k := |path| - 1;
      var us, done := DetachAlone(w, x, path[..k]);
      var a := NextOfDetach(w.(ds := path[k - 1]), x, path[k]);
      AloneMore(us, done, x, a, w.(ds := path[k]));
      ws, acts := us + [w.(ds := path[k])], done + [a];
    }
  }

  /** An unmarked snapshot of nobody. */
  ghost predicate Ghost(w: World, r: SnapRef) {
    Exists(w.ds, r) && !At(w.ds, r).deferred && OwnerName(r.short) !in w.objs
  }

  lemma GhostIsSeen(w: World, r: SnapRef)
    requires Ghost(w, r)
    ensures !Verified(w)
  {
    assert !Accounted(w, r);
  }

  /** The emptied dataset and the object go, and leave what is unmarked elsewhere. */
  lemma FinishAlone(ws: seq<World>, acts: seq<Action>, x: Name, g: SnapRef)
    returns (ws': seq<World>, acts': seq<Action>)
    requires Alone(ws, acts, x)
    requires var w := ws[|acts|];
      && GoesOn(w, x) && Home(w, x) in w.ds && w.ds[Home(w, x)].snaps == map[]
      && Exists(w.ds, g) && !At(w.ds, g).deferred && OwnerName(g.short) == x
    ensures Alone(ws', acts', x) && ws'[0] == ws[0] && x !in ws'[|acts'|].objs && Ghost(ws'[|acts'|], g)
  {
    var w := ws[|acts|];
    var w1 := w.(ds := Destroyed(w.ds, {Home(w, x)}));
    DestroyTakesOnly(w.ds, Home(w, x));
    assert g.ds != Home(w, x);
    AloneMore(ws, acts, x, DestroyHome(x), w1);
    var w2 := w1.(objs := w1.objs - {x}, stage := w1.stage - {x});
    AloneMore(ws + [w1], acts + [DestroyHome(x)], x, Finish(x), w2);
    ws', acts' := ws + [w1] + [w2], acts + [DestroyHome(x)] + [Finish(x)];
  }

  /** The delete of `x` goes on alone, though it did not give up its snapshot `r`, which has a clone. */
  lemma GoesOnToAGhost(w: World, x: Name, r: SnapRef) returns (ws: seq<World>, acts: seq<Action>, g: SnapRef)
    requires Inv(w) && GoesOn(w, x) && Home(w, x) in w.ds
    requires Exists(w.ds, r) && !At(w.ds, r).deferred && OwnerName(r.short) == x && ClonesOf(w.ds, r) != {}
    ensures Alone(ws, acts, x) && ws[0] == w && x !in ws[|acts|].objs
    ensures Ghost(ws[|acts|], g) && g.short == r.short
  {
    var path := Emptied(w.ds, Home(w, x));
    var f := DetachSurvival(Home(w, x), path);
    assert r in f && Kept(w.ds, r, path[|path| - 1], f[r]);
    g := f[r];
    ws, acts := DetachAlone(w, x, path);
    ws, acts := FinishAlone(ws, acts, x, g);
  }

  /** What a late mark misses. */
  lemma Missed(w: World, x: Name) returns (r: SnapRef)
    requires Inv(w) && Staged(w) && Enabled(w, Mark(x)) && !Timely(w, x)
    ensures Exists(w.ds, r) && !At(w.ds, r).deferred && Own(x, w.objs[x]) == Some(r.short) && OwnerName(r.short) == x
    ensures ClonesOf(w.ds, r) != {} && Home(w, x) in w.ds
    ensures var w' := w.(stage := w.stage[x := Marked]); Next(w, Mark(x), w') && Inv(w') && GoesOn(w', x)
  {
    var own := Own(x, w.objs[x]);
    r :| own.Some? && Exists(w.ds, r) && r.short == own.value && !At(w.ds, r).deferred && ClonesOf(w.ds, r) != {};
    UnmarkedIsHeld(w, r);
    StagesAreFree(w, w.(stage := w.stage[x := Marked]));
  }

  lemma AloneFrom(w: World, x: Name, a: Action, us: seq<World>, more: seq<Action>)
    requires Alone(us, more, x) && Next(w, a, us[0]) && OfItsOwn(a, x)
    ensures Alone([w] + us, [a] + more, x)
  {
    var ws, acts := [w] + us, [a] + more;
    forall i | 0 <= i < |acts| ensures StepAt(ws, acts, i) {
      if i > 0 { assert StepAt(us, more, i - 1); }
    }
  }

  /** The exact condition for a mark: whenever one comes too late, its delete can go on by itself to
      the end, and leaves an unmarked snapshot behind that belongs to nobody. */
  lemma LateMarkLeavesAGhost(w: World, x: Name) returns (ws: seq<World>, acts: seq<Action>, g: SnapRef)
    requires Inv(w) && Staged(w) && Enabled(w, Mark(x)) && !Timely(w, x)
    ensures Alone(ws, acts, x) && ws[0] == w && acts != [] && acts[0] == Mark(x)
    ensures x !in ws[|acts|].objs && Ghost(ws[|acts|], g) && Own(x, w.objs[x]) == Some(g.short) && !Verified(ws[|acts|])
  {
    var r := Missed(w, x);
    var us, more;
    us, more, g := GoesOnToAGhost(w.(stage := w.stage[x := Marked]), x, r);
    AloneFrom(w, x, Mark(x), us, more);
    ws, acts := [w] + us, [Mark(x)] + more;
    GhostIsSeen(ws[|acts|], g);
  }

  // ------------------------------------------------------------- it is reachable

  /** The snapshot `s` is on the dataset of `v`, and its backing clone a clone of it. */
  ghost predicate OnSource(w: World, v: Name, s: Name) {
    && s in w.objs && w.objs[s].CsiSnapshot? && Home(w, s) in w.ds
    && w.ds[Home(w, s)].origin == Some(SnapRef(Home(w, v), Direct(s))) && Exists(w.ds, SnapRef(Home(w, v), Direct(s)))
  }

  /** Between the lookup and the mark of `s` its backing clone is promoted. */
  lemma MovedIsLate(w0: World, w: World, v: Name, s: Name, w': World)
    requires Reached(w0, w) && OnSource(w, v, s) && Enabled(w, Mark(s)) && Swaps(w, w', s, v)
    requires w.stage[s].at == Some(SnapRef(Home(w, v), Direct(s))) && !At(w.ds, w.stage[s].at.value).deferred
    ensures Enabled(w', Mark(s)) && !Timely(w', s)
  {
    ReachedIsFine(w0, w);
    var r, c := SnapRef(Home(w, v), Direct(s)), Home(w, s);
    assert c in ClonesOf(w.ds, r);
    NeverConflicts(w, c);
    ParentIsOther(w.ds, c);
    PromoteRelocates(w.ds, c);
    PromoteClones(w.ds, c, r);
    assert Relocate(w.ds, c, r) == SnapRef(c, Direct(s));
    assert !Exists(w'.ds, r);
  }

  /** The new restore leaves the backing clone where it is. */
  lemma KeepsOrigin(w0: World, w: World, c: Name, s: Name, v: Name, w': World)
    requires Reached(w0, w') && Joins(w, w', c, v) && OnSource(w, v, s) && Live(w, s)
    requires Exists(w'.ds, SnapRef(Home(w', v), Direct(s))) && Hangs(w', s, v)
    ensures OnSource(w', v, s)
  {
    ReachedIsFine(w0, w');
    assert ObjectOk(w', s);
    ParentIsOther(w'.ds, Home(w', s));
    var here, there := SnapRef(Home(w', s), Direct(s)), SnapRef(Home(w', v), Direct(s));
    assert here != there && Exists(w'.ds, there);
    assert !Exists(w'.ds, here);
  }

  /** A volume, its snapshot, a restore of that, and the delete of the volume. */
  lemma SourceDying(w0: World, v: Name, s: Name, c: Name) returns (w: World)
    requires Init(w0) && v.text != "" && "csi-snap-" < s.text && c.text != "" && v != s && v != c && s != c
    ensures Reached(w0, w) && Underway(w, v) && Live(w, s) && Live(w, c) && OnSource(w, v, s)
  {
    var u := First(w0, v);
    u := NewSnapshot(w0, u, s, v);
    var u' := NewRestore(w0, u, c, s, v);
    assert Hangs(u', s, v);
    KeepsOrigin(w0, u, c, s, v, u');
    w := LetGo(w0, u', v);
  }

  /** The snapshot is deleted too, and its name looked up. */
  lemma LookedUp(w0: World, w: World, v: Name, s: Name) returns (w1: World, w2: World)
    requires Reached(w0, w) && Underway(w, v) && Live(w, s) && OnSource(w, v, s)
    ensures Next(w, BeginDelete(s), w1) && s in w1.objs && Next(w1, Look(s, Locate(w1, s)), w2) && Reached(w0, w2)
    ensures w2.ds == w.ds && w2.base == w.base && Enabled(w2, Mark(s)) && Underway(w2, v) && OnSource(w2, v, s)
    ensures w2.stage[s].at == Some(SnapRef(Home(w, v), Direct(s))) && !At(w2.ds, w2.stage[s].at.value).deferred
    ensures forall c :: Live(w, c) && c != s ==> Live(w2, c)
  {
    ReachedIsFine(w0, w);
    assert ObjectOk(w, s);
    w1 := Act(w0, w, BeginDelete(s));
    w2 := LookNow(w0, w1, s);
  }

  /** From every empty world, with any names: a volume, its snapshot and a restore of that; volume and
      snapshot are deleted, and the mark of the snapshot comes too late. */
  lemma LateMarkIsReached(w0: World, v: Name, s: Name, c: Name) returns (w1: World, w2: World, w: World)
    requires Init(w0) && v.text != "" && "csi-snap-" < s.text && c.text != "" && v != s && v != c && s != c
    ensures s in w1.objs && Next(w1, Look(s, Locate(w1, s)), w2) && Next(w2, PromoteAway(v, Home(w2, s)), w)
    ensures Reached(w0, w2) && Reached(w0, w) && Live(w, c) && Enabled(w, Mark(s)) && !Timely(w, s)
  {
    var u := SourceDying(w0, v, s, c);
    w1, w2 := LookedUp(w0, u, v, s);
    w := Away(w0, w2, v, s);
    MovedIsLate(w0, w2, v, s, w);
  }

  // ------------------------------------------------- a late mark that does no harm

  /** Promoted, the backing clone has the snapshot, unmarked, and the source has none left. */
  lemma Moved(w0: World, w: World, v: Name, s: Name, w': World)
    requires Reached(w0, w) && OnSource(w, v, s) && Swaps(w, w', s, v)
    requires !At(w.ds, SnapRef(Home(w, v), Direct(s))).deferred && w.ds[Home(w, v)].snaps.Keys == {Direct(s)}
    ensures Exists(w'.ds, SnapRef(Home(w, s), Direct(s))) && !At(w'.ds, SnapRef(Home(w, s), Direct(s))).deferred
    ensures Home(w, v) in w'.ds && w'.ds[Home(w, v)].snaps == map[]
  {
    ReachedIsFine(w0, w);
    var r, c := SnapRef(Home(w, v), Direct(s)), Home(w, s);
    NeverConflicts(w, c);
    ParentIsOther(w.ds, c);
    PromoteRelocates(w.ds, c);
    assert Relocate(w.ds, c, r) == SnapRef(c, Direct(s));
    assert w'.ds[Home(w, v)].snaps.Keys == {};
  }

  lemma StaysPut(ds: Datasets, home: Path, r: SnapRef)
    requires home in ds && ds[home].snaps == map[] && Exists(ds, r) && !At(ds, r).deferred
    ensures Exists(Destroyed(ds, {home}), r) && home !in Destroyed(ds, {home})
  {
    DestroyTakesOnly(ds, home);
  }

  lemma NoClones(w0: World, w: World, v: Name, s: Name)
    requires Reached(w0, w) && w.objs.Keys == {v, s} && Home(w, v) !in w.ds
    ensures ClonesOf(w.ds, SnapRef(Home(w, s), Direct(s))) == {}
  {
    ReachedIsFine(w0, w);
    assert forall n :: n in w.ds && n !in w.floor ==> n == Home(w, s);
    forall c | c in w.ds && w.ds[c].origin.Some? ensures w.ds[c].origin.value.ds != c { ParentIsOther(w.ds, c); }
  }

  /** The source goes, and the snapshot is left without a clone. */
  lemma Orphaned(w0: World, w: World, v: Name, s: Name) returns (w': World)
    requires Reached(w0, w) && Underway(w, v) && v != s && w.objs.Keys == {v, s}
    requires Home(w, v) in w.ds && w.ds[Home(w, v)].snaps == map[]
    requires Exists(w.ds, SnapRef(Home(w, s), Direct(s))) && !At(w.ds, SnapRef(Home(w, s), Direct(s))).deferred
    ensures Reached(w0, w') && w' == w.(ds := w'.ds) && Exists(w'.ds, SnapRef(Home(w, s), Direct(s)))
    ensures Home(w, v) !in w'.ds && ClonesOf(w'.ds, SnapRef(Home(w, s), Direct(s))) == {}
  {
    w' := Act(w0, w, DestroyHome(v));
    StaysPut(w.ds, Home(w, v), SnapRef(Home(w, s), Direct(s)));
    NoClones(w0, w', v, s);
  }

  /** The mark that now comes finds nothing under its name, and needs to find nothing. */
  lemma MarksNothing(w0: World, w: World, s: Name) returns (w': World)
    requires Reached(w0, w) && Enabled(w, Mark(s)) && w.objs[s].CsiSnapshot?
    requires w.stage[s].at.Some? && !Exists(w.ds, w.stage[s].at.value)
    requires Exists(w.ds, SnapRef(Home(w, s), Direct(s))) && ClonesOf(w.ds, SnapRef(Home(w, s), Direct(s))) == {}
    ensures Next(w, Mark(s), w') && Reached(w0, w') && w'.ds == w.ds && Enabled(w', Drop(s, Direct(s)))
  {
    ReachedIsFine(w0, w);
    assert Parting(w, s);
    w' := Act(w0, w, Mark(s));
  }

  lemma LoneSnapshot(w0: World, v: Name, s: Name) returns (w: World)
    requires Init(w0) && v.text != "" && "csi-snap-" < s.text && v != s
    ensures Reached(w0, w) && Underway(w, v) && Live(w, s) && OnSource(w, v, s) && w.objs.Keys == {v, s}
    ensures w.ds[Home(w, v)].snaps.Keys == {Direct(s)}
  {
    var u := First(w0, v);
    u := NewSnapshot(w0, u, s, v);
    w := LetGo(w0, u, v);
  }

  lemma OnItsWay(w0: World, w: World, v: Name, s: Name, w': World)
    requires Reached(w0, w) && Underway(w, v) && Next(w, PromoteAway(v, Home(w, s)), w')
    ensures Underway(w', v)
  {
    ReachedIsFine(w0, w);
    PromoteKeepsInv(w, PromoteAway(v, Home(w, s)), w');
  }

  lemma LookedUpAndMoved(w0: World, w: World, v: Name, s: Name) returns (w': World)
    requires Reached(w0, w) && Underway(w, v) && Live(w, s) && OnSource(w, v, s) && w.objs.Keys == {v, s} && v != s
    requires w.ds[Home(w, v)].snaps.Keys == {Direct(s)}
    ensures Reached(w0, w') && Underway(w', v) && w'.objs.Keys == {v, s} && w'.base == w.base
    ensures Enabled(w', Mark(s)) && w'.objs[s].CsiSnapshot? && w'.stage[s].at == Some(SnapRef(Home(w, v), Direct(s)))
    ensures Home(w, v) in w'.ds && w'.ds[Home(w, v)].snaps == map[]
    ensures Exists(w'.ds, SnapRef(Home(w, s), Direct(s))) && !At(w'.ds, SnapRef(Home(w, s), Direct(s))).deferred
  {
    var w1, w2 := LookedUp(w0, w, v, s);
    w' := Away(w0, w2, v, s);
    Moved(w0, w2, v, s, w');
    OnItsWay(w0, w2, v, s, w');
  }

  /** A volume and its snapshot are enough for a late mark that is made good by a drop. */
  lemma DropIsReached(w0: World, v: Name, s: Name) returns (w: World, w': World)
    requires Init(w0) && v.text != "" && "csi-snap-" < s.text && v != s
    ensures Reached(w0, w) && Enabled(w, Mark(s)) && w.stage[s].at.Some? && !Exists(w.ds, w.stage[s].at.value)
    ensures Next(w, Mark(s), w') && Reached(w0, w') && Enabled(w', Drop(s, Direct(s)))
  {
    var u := LoneSnapshot(w0, v, s);
    u := LookedUpAndMoved(w0, u, v, s);
    w := Orphaned(w0, u, v, s);
    w' := MarksNothing(w0, w, s);
  }
}
