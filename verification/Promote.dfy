/** `zfs promote`: it relocates snapshots one to one, keeps every clone count,
    and leaves the history of every dataset as it was. */
module Promote {
  import opened Options
  import opened Pool
  import opened PoolInvariant

  lemma ParentIsOther(ds: Datasets, name: Path)
    requires Graph(ds) && IsClone(ds, name)
    ensures ds[name].origin.value.ds != name
    ensures ds[ds[name].origin.value.ds].origin != ds[name].origin
    ensures var p := ds[ds[name].origin.value.ds]; p.origin.Some? ==>
      p.origin.value.ds != name && p.origin.value.ds != ds[name].origin.value.ds
  {
    var o := ds[name].origin.value;
    RankDrops(ds, name);
    if ds[o.ds].origin.Some? { RankDrops(ds, o.ds); }
  }

  /** One promote is a bijection between the snapshots before and after. */
  lemma PromoteRelocates(ds: Datasets, name: Path)
    requires Graph(ds) && IsClone(ds, name) && !Conflict(ds, name)
    ensures forall r :: Exists(ds, r) ==>
      var r' := Relocate(ds, name, r);
      Exists(Promoted(ds, name), r') && r'.short == r.short && At(Promoted(ds, name), r') == At(ds, r)
    ensures forall q, r :: Exists(ds, q) && Exists(ds, r) && Relocate(ds, name, q) == Relocate(ds, name, r) ==> q == r
    ensures forall r' :: Exists(Promoted(ds, name), r') ==> exists r :: Exists(ds, r) && Relocate(ds, name, r) == r'
  {
    ParentIsOther(ds, name);
    var ds' := Promoted(ds, name);
    var o := ds[name].origin.value;
    forall r' | Exists(ds', r')
      ensures exists r :: Exists(ds, r) && Relocate(ds, name, r) == r'
    {
      var r := if r'.ds == name && r'.short in Moved(ds, name) then SnapRef(o.ds, r'.short) else r';
      assert Exists(ds, r) && Relocate(ds, name, r) == r';
    }
  }

  /** The clones of a snapshot after the promote: the promoted dataset and its
      former parent trade places, nothing else changes. */
  ghost function SwappedClones(ds: Datasets, name: Path, r: SnapRef): set<Path>
    requires IsClone(ds, name)
  {
    var o := ds[name].origin.value;
    if r == o then ClonesOf(ds, r) - {name} + {o.ds}
    else if ds[o.ds].origin == Some(r) then ClonesOf(ds, r) - {o.ds} + {name}
    else ClonesOf(ds, r)
  }

  lemma PromoteClones(ds: Datasets, name: Path, r: SnapRef)
    requires Graph(ds) && IsClone(ds, name) && !Conflict(ds, name) && Exists(ds, r)
    ensures ClonesOf(Promoted(ds, name), Relocate(ds, name, r)) == SwappedClones(ds, name, r)
    ensures |ClonesOf(Promoted(ds, name), Relocate(ds, name, r))| == |ClonesOf(ds, r)|
  {
    ParentIsOther(ds, name);
    PromoteRelocates(ds, name);
    var ds' := Promoted(ds, name);
    var o := ds[name].origin.value;
    var r' := Relocate(ds, name, r);
    forall n ensures n in ClonesOf(ds', r') <==> n in SwappedClones(ds, name, r) {
      if n in ds && n != name && n != o.ds && ds[n].origin.Some? {
        assert Exists(ds, ds[n].origin.value);
      }
    }
    assert ClonesOf(ds', r') == SwappedClones(ds, name, r);
    if r == o {
      assert name in ClonesOf(ds, r) && o.ds !in ClonesOf(ds, r);
    } else if ds[o.ds].origin == Some(r) {
      assert o.ds in ClonesOf(ds, r) && name !in ClonesOf(ds, r);
    }
  }

  lemma PromotedKeepsGraph(ds: Datasets, name: Path)
    requires Graph(ds) && IsClone(ds, name) && !Conflict(ds, name)
    ensures Graph(Promoted(ds, name))
  {
    ParentIsOther(ds, name);
    PromoteRelocates(ds, name);
    var ds' := Promoted(ds, name);
    var o := ds[name].origin.value;
    assert OriginsExist(ds') by {
      forall n | n in ds' && ds'[n].origin.Some? ensures Exists(ds', ds'[n].origin.value) {
        if n == name {
          assert Exists(ds, ds[o.ds].origin.value);
        } else if n != o.ds {
          assert Exists(ds, ds[n].origin.value);
        }
      }
    }
    forall n, s | n in ds' && s in ds'[n].snaps && ds'[n].origin.Some?
      ensures At(ds', ds'[n].origin.value).txg < ds'[n].snaps[s].txg
    {
      if n == name {
        var q := ds[o.ds].origin.value;
        assert Relocate(ds, name, q) == q && Exists(ds, q);
        assert At(ds, q).txg < At(ds, o).txg;
      } else if n == o.ds {
        assert s !in Moved(ds, name) && At(ds', ds'[n].origin.value) == At(ds, o);
      } else {
        assert Exists(ds, ds[n].origin.value);
      }
    }
  }

  lemma PromotedKeepsWF(ds: Datasets, txg: nat, name: Path)
    requires WF(ds, txg) && IsClone(ds, name) && !Conflict(ds, name)
    ensures WF(Promoted(ds, name), txg)
  {
    PromotedKeepsGraph(ds, name);
    PromoteRelocates(ds, name);
    var ds' := Promoted(ds, name);
    forall n, s | n in ds' && s in ds'[n].snaps
      ensures ds'[n].snaps[s].txg <= txg
      ensures ds'[n].snaps[s].deferred ==> ClonesOf(ds', SnapRef(n, s)) != {}
    {
      assert Exists(ds', SnapRef(n, s));
      var r :| Exists(ds, r) && Relocate(ds, name, r) == SnapRef(n, s);
      assert r.short in ds[r.ds].snaps;
      PromoteClones(ds, name, r);
    }
  }

  /** The promoted dataset's origin always changes, which is what `CLI.Promote` waits for. */
  lemma PromoteChangesOrigin(ds: Datasets, name: Path)
    requires Graph(ds) && IsClone(ds, name)
    ensures Promoted(ds, name)[name].origin != ds[name].origin
  {
    ParentIsOther(ds, name);
  }

  /** A promote takes at least one snapshot off the parent and gives it none. */
  lemma PromoteShrinksParent(ds: Datasets, name: Path)
    requires Graph(ds) && IsClone(ds, name)
    ensures var p := ds[name].origin.value.ds;
      Promoted(ds, name)[p].snaps.Keys < ds[p].snaps.Keys
  {
    ParentIsOther(ds, name);
    var o := ds[name].origin.value;
    assert o.short in ds[o.ds].snaps.Keys && o.short !in Promoted(ds, name)[o.ds].snaps.Keys;
  }

  // ------------------------------------------------------------------ history

  /** The snapshots of one dataset cut no later than `cap`. */
  ghost function UpTo(snaps: map<Short, Snapshot>, cap: nat): set<(Short, Snapshot)> {
    set i | i in snaps.Items && i.1.txg <= cap
  }

  /** The snapshots in the past of dataset `n` at instant `cap`: its own, and
      those of its origin's dataset up to the origin, all the way down. */
  ghost function History(ds: Datasets, n: Path, cap: nat): set<(Short, Snapshot)>
    requires Graph(ds) && n in ds
    decreases Rank(ds, n)
  {
    UpTo(ds[n].snaps, cap) +
    if ds[n].origin.None? then {}
    else
      RankDrops(ds, n);
      History(ds, ds[n].origin.value.ds, At(ds, ds[n].origin.value).txg)
  }

  lemma PromotePreservesOwn(ds: Datasets, name: Path, cap: nat)
    requires Graph(ds) && IsClone(ds, name) && !Conflict(ds, name) && Graph(Promoted(ds, name))
    requires At(ds, ds[name].origin.value).txg <= cap
    requires History(Promoted(ds, name), name, At(ds, ds[name].origin.value).txg)
          == History(ds, ds[name].origin.value.ds, At(ds, ds[name].origin.value).txg)
    ensures History(Promoted(ds, name), name, cap) == History(ds, name, cap)
  {
    ParentIsOther(ds, name);
    var ds' := Promoted(ds, name);
    var o := ds[name].origin.value;
    var t := At(ds, o).txg;
    assert UpTo(ds'[name].snaps, cap) == UpTo(ds[name].snaps, cap) + UpTo(ds'[name].snaps, t);
  }

  lemma PromotePreservesParent(ds: Datasets, name: Path, cap: nat)
    requires Graph(ds) && IsClone(ds, name) && !Conflict(ds, name) && Graph(Promoted(ds, name))
    requires At(ds, ds[name].origin.value).txg <= cap
    requires History(Promoted(ds, name), name, At(ds, ds[name].origin.value).txg)
          == History(ds, ds[name].origin.value.ds, At(ds, ds[name].origin.value).txg)
    ensures History(Promoted(ds, name), ds[name].origin.value.ds, cap) == History(ds, ds[name].origin.value.ds, cap)
  {
    ParentIsOther(ds, name);
    PromoteRelocates(ds, name);
    var ds' := Promoted(ds, name);
    var o := ds[name].origin.value;
    var t := At(ds, o).txg;
    var p, p' := ds[o.ds].snaps, ds'[o.ds].snaps;
    assert UpTo(p, cap) == UpTo(p', cap) + UpTo(p, t);
    assert At(ds', SnapRef(name, o.short)) == At(ds, o);
  }

  /** A promote moves snapshots and rewires origins, but no dataset's past changes. */
  lemma {:induction false} PromotePreservesHistory(ds: Datasets, name: Path, n: Path, cap: nat)
    requires Graph(ds) && IsClone(ds, name) && !Conflict(ds, name) && n in ds
    requires n == name || n == ds[name].origin.value.ds ==> At(ds, ds[name].origin.value).txg <= cap
    ensures Graph(Promoted(ds, name))
    ensures History(Promoted(ds, name), n, cap) == History(ds, n, cap)
    decreases Rank(ds, n), 1
  {
    ParentIsOther(ds, name);
    PromotedKeepsGraph(ds, name);
    PromoteRelocates(ds, name);
    var ds' := Promoted(ds, name);
    var o := ds[name].origin.value;
    if n == name || n == o.ds {
      if n == name { RankDrops(ds, name); }
      PromotePreservesShared(ds, name, At(ds, o).txg);
      if n == name {
        PromotePreservesOwn(ds, name, cap);
      } else {
        PromotePreservesParent(ds, name, cap);
      }
    } else if ds[n].origin.Some? {
      RankDrops(ds, n);
      var q := ds[n].origin.value;
      assert Exists(ds, q);
      if q.ds == o.ds && q.short in Moved(ds, name) {
        PromotePreservesShared(ds, name, At(ds, q).txg);
      } else {
        PromotePreservesHistory(ds, name, q.ds, At(ds, q).txg);
      }
    }
  }

  /** The history shared by clone and parent, seen from the clone afterwards. */
  lemma {:induction false} PromotePreservesShared(ds: Datasets, name: Path, cap: nat)
    requires Graph(ds) && IsClone(ds, name) && !Conflict(ds, name)
    requires cap <= At(ds, ds[name].origin.value).txg
    ensures Graph(Promoted(ds, name))
    ensures History(Promoted(ds, name), name, cap) == History(ds, ds[name].origin.value.ds, cap)
    decreases Rank(ds, ds[name].origin.value.ds), 0
  {
    ParentIsOther(ds, name);
    PromotedKeepsGraph(ds, name);
    PromoteRelocates(ds, name);
    var ds' := Promoted(ds, name);
    var o := ds[name].origin.value;
    var p := ds[o.ds];
    if p.origin.Some? {
      RankDrops(ds, o.ds);
      PromotePreservesHistory(ds, name, p.origin.value.ds, At(ds, p.origin.value).txg);
    }
    assert UpTo(ds'[name].snaps, cap) == UpTo(p.snaps, cap);
  }
}
