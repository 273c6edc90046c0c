/** Two controllers delete at once: a dependent that one of them picked is promoted only after
    the other has promoted, dropped and destroyed whatever it liked. It is still a harmless step. */
module Overtaken {
  import opened Options
  import opened Pool
  import opened Promote
  import opened Detach
  import opened Lifecycle

  /** One hop up the origins, from every dataset whose promote does no harm. */
  ghost function Tamed(w: World): map<Path, Path> {
    map n | n in w.ds && Tame(w, n) :: w.ds[n].origin.value.ds
  }

  /** At most `k` such hops lead from `c` to `root`. */
  ghost predicate Leads(up: map<Path, Path>, c: Path, root: Path, k: nat)
    decreases k
  {
    k > 0 && c in up && (up[c] == root || Leads(up, up[c], root, k - 1))
  }

  lemma {:induction false} LeadsLonger(up: map<Path, Path>, c: Path, root: Path, k: nat, l: nat)
    requires Leads(up, c, root, k) && k <= l
    ensures Leads(up, c, root, l)
    decreases k
  {
    if up[c] != root { LeadsLonger(up, up[c], root, k - 1, l - 1); }
  }

  /** A step of the others while the delete of `x` has a pick in hand: theirs are fresh. */
  predicate OfOthers(a: Action, x: Name) {
    match a
    case Look(y, _) => y != x
    case Mark(y) => y != x
    case Drop(y, _) => y != x
    case PromoteAway(y, _) => y != x
    case PromoteLate(_) => false
    case DestroyHome(y) => y != x
    case Finish(y) => y != x
    case _ => true
  }

  // -------------------------------------------------- steps that rewire no origin

  /** Nothing but whole datasets disappears from the chains, and what was harmless stays so. */
  ghost predicate Quiet(w: World, w': World) {
    forall n :: n in w.ds && n in w'.ds ==> w'.ds[n].origin == w.ds[n].origin && (Tame(w, n) ==> Tame(w', n))
  }

  lemma {:induction false} QuietLeads(w: World, w': World, c: Path, root: Path, k: nat)
    requires OriginsExist(w'.ds) && Quiet(w, w') && Leads(Tamed(w), c, root, k) && c in w'.ds
    ensures Leads(Tamed(w'), c, root, k)
    decreases k
  {
    assert Tame(w, c) && Tame(w', c);
    var p := w.ds[c].origin.value.ds;
    if p != root { QuietLeads(w, w', p, root, k - 1); }
  }

  lemma AppearsSpares(w: World, w': World, x: Name, o: Obj, d: Dataset, added: Option<SnapRef>, z: Name, q: SnapRef)
    requires Inv(w) && Appears(w, w', x, o, d, added) && z in w.objs && z != x && Exists(w.ds, q) && Exists(w'.ds, q)
    requires (added.Some? ==> OwnerName(added.value.short) == x) && Spared(w.ds, Own(z, w.objs[z]), q)
    ensures Spared(w'.ds, Own(z, w'.objs[z]), q)
  {
    var own := Own(z, w.objs[z]);
    if own.Some? {
      assert OwnerName(own.value) == z;
      assert own.value in w.ds[q.ds].snaps ==> Exists(w.ds, SnapRef(q.ds, own.value));
      assert own.value in w.ds[q.ds].snaps ==>
        At(w'.ds, SnapRef(q.ds, own.value)) == At(w.ds, SnapRef(q.ds, own.value));
    }
  }

  lemma AppearsIsQuiet(w: World, w': World, x: Name, o: Obj, d: Dataset, added: Option<SnapRef>)
    requires Inv(w) && Appears(w, w', x, o, d, added) && x !in w.used
    requires added.Some? ==> OwnerName(added.value.short) == x
    ensures Quiet(w, w')
  {
    forall n | n in w.ds && Tame(w, n) ensures Tame(w', n) {
      var q := w.ds[n].origin.value;
      assert Exists(w'.ds, q);
      forall z | z in w'.objs && Home(w', z) == q.ds ensures Spared(w'.ds, Own(z, w'.objs[z]), q) {
        assert z != x;
        AppearsSpares(w, w', x, o, d, added, z, q);
      }
    }
  }

  lemma FewerKeepsReleased(ds: Datasets, ds': Datasets, own: Option<Short>)
    requires Fewer(ds, ds') && Released(ds, own)
    ensures Released(ds', own)
  {
  }

  lemma TakesOnlySpares(w: World, w': World, y: Name, s: Option<Short>, z: Name, q: SnapRef)
    requires Inv(w) && w' == w.(ds := w'.ds) && TakesOnly(w.ds, w'.ds, Home(w, y), s) && Exists(w.ds, q)
    requires Exists(w'.ds, q)
    requires z in w.objs && z != y && Home(w, z) == q.ds && (s.Some? ==> OwnerName(s.value) == y)
    requires Spared(w.ds, Own(z, w.objs[z]), q)
    ensures Spared(w'.ds, Own(z, w'.objs[z]), q)
  {
    var own := Own(z, w.objs[z]);
    if Released(w.ds, own) {
      FewerKeepsReleased(w.ds, w'.ds, own);
    } else if own.value in w.ds[q.ds].snaps {
      var r := SnapRef(q.ds, own.value);
      assert Exists(w.ds, r) && OwnerName(own.value) == z;
      assert forall r' :: Exists(w.ds, r') && r'.short == own.value ==> r' == r;
    }
  }

  lemma TakesOnlyIsQuiet(w: World, w': World, y: Name, s: Option<Short>)
    requires Inv(w) && Inv(w') && w' == w.(ds := w'.ds) && TakesOnly(w.ds, w'.ds, Home(w, y), s)
    requires y in w.objs && Released(w'.ds, Own(y, w.objs[y])) && (s.Some? ==> s == Own(y, w.objs[y]))
    ensures Quiet(w, w')
  {
    forall n | n in w.ds && n in w'.ds && Tame(w, n) ensures Tame(w', n) {
      var q := w.ds[n].origin.value;
      assert Exists(w'.ds, q);
      forall z | z in w'.objs && Home(w', z) == q.ds ensures Spared(w'.ds, Own(z, w'.objs[z]), q) {
        if z != y { TakesOnlySpares(w, w', y, s, z, q); }
      }
    }
  }

  lemma ObjectsOnlyIsQuiet(w: World, a: Action, w': World)
    requires Next(w, a, w') && (a.BeginDelete? || a.Look? || a.Finish?)
    ensures Quiet(w, w')
  {
  }

  lemma MarkIsQuiet(w: World, a: Action, w': World)
    requires Inv(w) && Staged(w) && Next(w, a, w') && a.Mark?
    ensures Quiet(w, w')
  {
    var at, w1 := w.stage[a.x].at, w.(ds := w'.ds);
    if at.Some? && Exists(w.ds, at.value) {
      ReleaseFound(w, a.x, at.value, w1);
      DeferredTakesOnly(w.ds, Home(w, a.x), at.value);
      TakesOnlyIsQuiet(w, w1, a.x, Own(a.x, w.objs[a.x]));
    }
    assert Quiet(w1, w');
  }

  lemma CreateIsQuiet(w: World, a: Action, w': World)
    requires Inv(w) && Next(w, a, w') && (a.NewVolume? || a.TakeSnapshot? || a.CloneVolume? || a.Restore?)
    ensures Quiet(w, w')
  {
    match a
    case NewVolume(x, kind, size, props) =>
      AppearsIsQuiet(w, w', x, Volume(false, 0, false), Dataset(kind, props, None, map[], size), None);
    case TakeSnapshot(x, v, props) =>
      var r := SnapRef(Home(w, v), Direct(x));
      AppearsIsQuiet(w, w', x, CsiSnapshot(v, w.txg + 1, false), CloneOf(w.ds, r, props), Some(r));
    case CloneVolume(x, v, props) =>
      var r := SnapRef(Home(w, v), CloneOrigin(x));
      AppearsIsQuiet(w, w', x, Volume(true, w.txg + 1, false), CloneOf(w.ds, r, props), Some(r));
    case Restore(x, s, props) =>
      AppearsIsQuiet(w, w', x, Volume(false, 0, false), CloneOf(w.ds, Locate(w, s).value, props), None);
  }

  lemma OtherIsQuiet(w: World, a: Action, w': World)
    requires Inv(w) && Staged(w) && Next(w, a, w') && !a.PromoteAway? && !a.PromoteLate?
    ensures Quiet(w, w')
  {
    match a
    case BeginDelete(_) => ObjectsOnlyIsQuiet(w, a, w');
    case Finish(_) => ObjectsOnlyIsQuiet(w, a, w');
    case Look(_, _) => ObjectsOnlyIsQuiet(w, a, w');
    case Mark(_) => MarkIsQuiet(w, a, w');
    case Drop(y, s) =>
      DropKeepsInv(w, a, w');
      DropTakesOnly(w.ds, Home(w, y), s);
      TakesOnlyIsQuiet(w, w', y, None);
    case DestroyHome(y) =>
      DestroyKeepsInv(w, a, w');
      DestroyTakesOnly(w.ds, Home(w, y));
      TakesOnlyIsQuiet(w, w', y, None);
    case _ => CreateIsQuiet(w, a, w');
  }

  // -------------------------------------------------------------------- a promote

  /** `w'` is `w` after the clone `e` was promoted. */
  ghost predicate After(w: World, e: Path, w': World) {
    Inv(w) && Inv(w') && IsClone(w.ds, e) && !Conflict(w.ds, e) && w' == w.(ds := w'.ds) && w'.ds == Promoted(w.ds, e)
  }

  /** What keeps a snapshot of the pool spared is kept by a promote, wherever its short name is not moved from. */
  lemma StaysSpared(w: World, e: Path, w': World, own: Option<Short>, q: SnapRef)
    requires After(w, e, w') && Exists(w.ds, q) && Spared(w.ds, own, q)
    requires q.ds == w.ds[e].origin.value.ds ==> At(w.ds, q).txg > At(w.ds, w.ds[e].origin.value).txg
    ensures Exists(w'.ds, q) && Spared(w'.ds, own, q)
  {
    ParentIsOther(w.ds, e);
    PromoteRelocates(w.ds, e);
    assert Relocate(w.ds, e, q) == q;
    if own.Some? {
      PromoteKeepsMarks(w.ds, e, own.value, 0);
    }
  }

  /** On the promoted dataset its own snapshot is the former origin, or newer, or given up. */
  lemma SparedOnPromoted(w: World, e: Path, w': World, z: Name, q: SnapRef)
    requires After(w, e, w') && z in w.objs && Home(w, z) == e && Exists(w.ds, q) && q.ds == w.ds[e].origin.value.ds
    requires At(w.ds, q).txg <= At(w.ds, w.ds[e].origin.value).txg
    ensures Exists(w'.ds, SnapRef(e, q.short)) && Spared(w'.ds, Own(z, w'.objs[z]), SnapRef(e, q.short))
  {
    var o, own := w.ds[e].origin.value, Own(z, w.objs[z]);
    ParentIsOther(w.ds, e);
    PromoteRelocates(w.ds, e);
    assert Relocate(w.ds, e, q) == SnapRef(e, q.short);
    assert ObjectOk(w, z);
    if own.Some? {
      PromoteKeepsMarks(w.ds, e, own.value, 0);
      if Holds(w, z) && own.value != o.short {
        assert own.value in w.ds[e].snaps;
      }
    }
  }

  /** The former parent hangs off the promoted dataset, harmlessly. */
  lemma ParentIsTame(w: World, e: Path, w': World)
    requires After(w, e, w')
    ensures var d := w.ds[e].origin.value.ds; Tame(w', d) && w'.ds[d].origin.value.ds == e
  {
    var o := w.ds[e].origin.value;
    ParentIsOther(w.ds, e);
    forall z | z in w'.objs && Home(w', z) == e ensures Spared(w'.ds, Own(z, w'.objs[z]), SnapRef(e, o.short)) {
      SparedOnPromoted(w, e, w', z, o);
    }
  }

  /** The promoted dataset takes over its parent's place. */
  lemma PromotedIsTame(w: World, e: Path, w': World)
    requires After(w, e, w') && Tame(w, w.ds[e].origin.value.ds)
    ensures Tame(w', e) && w'.ds[e].origin == w.ds[w.ds[e].origin.value.ds].origin
  {
    var d := w.ds[e].origin.value.ds;
    var q := w.ds[d].origin.value;
    ParentIsOther(w.ds, e);
    forall z | z in w'.objs && Home(w', z) == q.ds ensures Spared(w'.ds, Own(z, w'.objs[z]), q) {
      StaysSpared(w, e, w', Own(z, w.objs[z]), q);
    }
  }

  /** A third dataset follows its origin to the promoted one, or stays. */
  lemma ThirdIsTame(w: World, e: Path, w': World, n: Path)
    requires After(w, e, w') && Tame(w, n) && n != e && n != w.ds[e].origin.value.ds
    ensures Tame(w', n) && w'.ds[n].origin.value.ds in {e, w.ds[n].origin.value.ds}
    ensures w.ds[n].origin.value.ds != w.ds[e].origin.value.ds ==> w'.ds[n].origin == w.ds[n].origin
  {
    var o, q := w.ds[e].origin.value, w.ds[n].origin.value;
    ParentIsOther(w.ds, e);
    var q' := Relocate(w.ds, e, q);
    assert w'.ds[n].origin == Some(q');
    if q.ds == o.ds && q.short in Moved(w.ds, e) {
      forall z | z in w'.objs && Home(w', z) == e ensures Spared(w'.ds, Own(z, w'.objs[z]), q') {
        SparedOnPromoted(w, e, w', z, q);
      }
      PromoteRelocates(w.ds, e);
    } else {
      StaysSpared(w, e, w', None, q);
      forall z | z in w'.objs && Home(w', z) == q.ds ensures Spared(w'.ds, Own(z, w'.objs[z]), q) {
        StaysSpared(w, e, w', Own(z, w.objs[z]), q);
      }
    }
  }

  /** A promote of `e` off `d`, hop by hop. */
  ghost predicate Rewired(up: map<Path, Path>, e: Path, d: Path, up': map<Path, Path>) {
    && (e in up ==> up[e] == d)
    && d in up' && up'[d] == e
    && (d in up ==> e in up' && up'[e] == up[d])
    && (forall n :: n in up && n != e && n != d ==> n in up' && (up'[n] == up[n] || (up[n] == d && up'[n] == e)))
  }

  lemma PromoteRewires(w: World, e: Path, w': World)
    requires After(w, e, w')
    ensures Rewired(Tamed(w), e, w.ds[e].origin.value.ds, Tamed(w'))
  {
    var d := w.ds[e].origin.value.ds;
    ParentIsTame(w, e, w');
    if Tame(w, d) { PromotedIsTame(w, e, w'); }
    forall n | n in Tamed(w) && n != e && n != d
      ensures n in Tamed(w') && (Tamed(w')[n] == Tamed(w)[n] || (Tamed(w)[n] == d && Tamed(w')[n] == e))
    {
      ThirdIsTame(w, e, w', n);
    }
  }

  lemma PassedOn(up: map<Path, Path>, e: Path, d: Path, up': map<Path, Path>, root: Path, k: nat)
    requires Rewired(up, e, d, up') && d in up && k > 1
    requires up[d] == root || (k > 2 && Leads(up', up[d], root, 2 * k - 4))
    ensures Leads(up', e, root, 2 * k - 1)
  {
    if up[d] != root { LeadsLonger(up', up[d], root, 2 * k - 4, 2 * k - 2); }
  }

  /** A promote off a dataset other than `root` breaks no chain to `root`. */
  lemma {:induction false} RewiredLeads(up: map<Path, Path>, e: Path, d: Path, up': map<Path, Path>, c: Path,
                                        root: Path, k: nat)
    requires Rewired(up, e, d, up') && d != root && Leads(up, c, root, k)
    ensures Leads(up', c, root, 2 * k)
    decreases k
  {
    if c == d {
      if up[d] != root { RewiredLeads(up, e, d, up', up[d], root, k - 1); }
    } else if up[c] == d {
      if up[d] != root { RewiredLeads(up, e, d, up', up[d], root, k - 2); }
      if c != e {
        if up'[c] == d { RewiredLeads(up, e, d, up', d, root, k - 1); LeadsLonger(up', d, root, 2 * k - 2, 2 * k - 1); }
        else if e != root { PassedOn(up, e, d, up', root, k); }
      } else if up[d] != root {
        LeadsLonger(up', up[d], root, 2 * k - 4, 2 * k - 1);
      }
    } else if up[c] != root {
      RewiredLeads(up, e, d, up', up[c], root, k - 1);
      LeadsLonger(up', up[c], root, 2 * k - 2, 2 * k - 1);
    }
  }

  // ------------------------------------------------------------- a pick that waits

  /** The delete of `x` picked `c`, and is still waiting to promote it. */
  ghost predicate Waiting(w: World, x: Name, c: Path, k: nat) {
    && Inv(w) && Staged(w) && Letting(w, x) && c.Child? && c == Home(w, c.leaf) && c.leaf in w.used
    && (c in w.ds ==> Leads(Tamed(w), c, Home(w, x), k))
  }

  lemma PickWaits(w: World, x: Name, c: Path)
    requires Inv(w) && Staged(w) && Letting(w, x) && Dependent(w.ds, Home(w, x), c)
    ensures Waiting(w, x, c, 1)
  {
    assert c !in w.floor && Tame(w, c);
  }

  lemma GrowsKeepsReleased(ds: Datasets, ds': Datasets, home: Path, d: Dataset, added: Option<SnapRef>, t: nat,
                           own: Option<Short>)
    requires Grows(ds, ds', home, d, added, t) && Released(ds, own)
    requires added.Some? && own.Some? ==> added.value.short != own.value
    ensures Released(ds', own)
  {
  }

  lemma LettingStays(w: World, a: Action, w': World, x: Name)
    requires Inv(w) && Next(w, a, w') && OfOthers(a, x) && Letting(w, x)
    ensures Letting(w', x)
  {
    var own := Own(x, w.objs[x]);
    assert own.Some? ==> OwnerName(own.value) == x;
    match a
    case NewVolume(y, kind, size, props) =>
      GrowsKeepsReleased(w.ds, w'.ds, Home(w, y), Dataset(kind, props, None, map[], size), None, w.txg + 1, own);
    case TakeSnapshot(y, v, props) =>
      var r := SnapRef(Home(w, v), Direct(y));
      GrowsKeepsReleased(w.ds, w'.ds, Home(w, y), CloneOf(w.ds, r, props), Some(r), w.txg + 1, own);
    case CloneVolume(y, v, props) =>
      var r := SnapRef(Home(w, v), CloneOrigin(y));
      GrowsKeepsReleased(w.ds, w'.ds, Home(w, y), CloneOf(w.ds, r, props), Some(r), w.txg + 1, own);
    case Restore(y, s, props) =>
      GrowsKeepsReleased(w.ds, w'.ds, Home(w, y), CloneOf(w.ds, Locate(w, s).value, props), None, w.txg + 1, own);
    case Mark(y) =>
      if w.stage[y].at.Some? {
        DeferredTakesOnly(w.ds, Home(w, y), w.stage[y].at.value);
        FewerKeepsReleased(w.ds, w'.ds, own);
      }
    case Drop(y, s) =>
      DropTakesOnly(w.ds, Home(w, y), s);
      FewerKeepsReleased(w.ds, w'.ds, own);
    case PromoteAway(y, c) =>
      NeverConflicts(w, c);
      if own.Some? { PromoteKeepsMarks(w.ds, c, own.value, 0); }
    case DestroyHome(y) =>
      DestroyTakesOnly(w.ds, Home(w, y));
      FewerKeepsReleased(w.ds, w'.ds, own);
    case _ =>
  }

  lemma ChainStays(w: World, a: Action, w': World, x: Name, c: Path, k: nat)
    requires Inv(w) && Staged(w) && Inv(w') && Next(w, a, w') && OfOthers(a, x)
    requires c in w.ds && c in w'.ds && Leads(Tamed(w), c, Home(w, x), k)
    ensures Leads(Tamed(w'), c, Home(w, x), 2 * k)
  {
    if a.PromoteAway? {
      NeverConflicts(w, a.c);
      PromoteRewires(w, a.c, w');
      RewiredLeads(Tamed(w), a.c, w.ds[a.c].origin.value.ds, Tamed(w'), c, Home(w, x), k);
    } else {
      OtherIsQuiet(w, a, w');
      QuietLeads(w, w', c, Home(w, x), k);
      LeadsLonger(Tamed(w'), c, Home(w, x), k, 2 * k);
    }
  }

  lemma WaitingStep(w: World, a: Action, w': World, x: Name, c: Path, k: nat)
    requires Waiting(w, x, c, k) && Next(w, a, w') && InTime(w, a) && OfOthers(a, x)
    ensures Waiting(w', x, c, 2 * k)
  {
    NextKeepsInv(w, a, w');
    NextKeepsStaged(w, a, w');
    LettingStays(w, a, w', x);
    if c in w'.ds {
      assert c in w.ds;
      ChainStays(w, a, w', x, c, k);
    }
  }

  ghost predicate StepsOfOthers(ws: seq<World>, acts: seq<Action>, x: Name) {
    Steps(ws, acts) && AllInTime(ws, acts) && forall i :: 0 <= i < |acts| ==> OfOthers(acts[i], x)
  }

  ghost predicate Waits(w: World, x: Name, c: Path) {
    exists k: nat :: Waiting(w, x, c, k)
  }

  lemma WaitingStepAt(ws: seq<World>, acts: seq<Action>, x: Name, c: Path, i: nat)
    requires StepsOfOthers(ws, acts, x) && 0 < i <= |acts| && Waits(ws[i - 1], x, c)
    ensures Waits(ws[i], x, c)
  {
    var k: nat :| Waiting(ws[i - 1], x, c, k);
    assert StepAt(ws, acts, i - 1) && InTimeAt(ws, acts, i - 1);
    WaitingStep(ws[i - 1], acts[i - 1], ws[i], x, c, k);
  }

  lemma WaitingAt(ws: seq<World>, acts: seq<Action>, x: Name, c: Path, n: nat)
    requires StepsOfOthers(ws, acts, x) && n <= |acts| && Waits(ws[0], x, c)
    ensures Waits(ws[n], x, c)
  {
    var i := 0;
    while i < n
      invariant i <= n && Waits(ws[i], x, c)
    {
      i := i + 1;
      WaitingStepAt(ws, acts, x, c, i);
    }
  }

  /** However the deletes of the others have changed the pool since a dependent was picked: if it is
      still there, promoting it now comes in time, and keeps the invariant. */
  lemma OvertakenPickIsHarmless(ws: seq<World>, acts: seq<Action>, x: Name, c: Path)
    requires StepsOfOthers(ws, acts, x)
    requires Inv(ws[0]) && Staged(ws[0]) && Letting(ws[0], x) && Dependent(ws[0].ds, Home(ws[0], x), c)
    ensures var w := ws[|acts|]; Inv(w) && Letting(w, x) && (c in w.ds ==> Tame(w, c))
  {
    PickWaits(ws[0], x, c);
    WaitingAt(ws, acts, x, c, |acts|);
  }
}
