/** What the audit looks for, said without its own notions of what is seen and who claims it: which object
    is to bear which labels, when a cluster is clean, and what must be resolved by hand. */
module Audit {
  import opened Options
  import opened Pool
  import opened Migrate

  // -------------------------------------------------------------------------- the labels

  /** Directories are one path each, component below component. */
  lemma {:induction false} DirIsPath(pool: Name, dir: seq<Name>, pool': Name, dir': seq<Name>)
    ensures Dir(pool, dir) == Dir(pool', dir') ==> pool == pool' && dir == dir'
    ensures dir != [] ==> Dir(pool, dir) == Child(Dir(pool, dir[..|dir| - 1]), dir[|dir| - 1])
  {
    if dir != [] && dir' != [] {
      DirIsPath(pool, dir[..|dir| - 1], pool', dir'[..|dir'| - 1]);
      assert dir == dir[..|dir| - 1] + [dir[|dir| - 1]] && dir' == dir'[..|dir'| - 1] + [dir'[|dir'| - 1]];
    }
  }

  /** The directory of a ZfsDataset, or of the source of a ZfsSnapshot. */
  ghost predicate Directory(c: Cluster, q: Path) {
    || (exists d :: d in c.datasets && c.datasets[d].pool in c.pools
          && q == Dir(c.pools[c.datasets[d].pool], c.datasets[d].dir))
    || (exists s :: s in c.snapshots && c.snapshots[s].pool in c.pools
          && q == Dir(c.pools[c.snapshots[s].pool], c.snapshots[s].dir))
  }

  /** `p` is such a directory, or right below one. */
  ghost predicate Near(c: Cluster, p: Path) {
    Directory(c, p) || (p.Child? && Directory(c, p.parent))
  }

  /** There is a snapshot of that name on a dataset there. */
  ghost predicate Snap(c: Cluster, n: Zfs, text: string) {
    n in c.objs && n.Sn? && Near(c, n.ref.ds) && Text(n.ref.short) == text
  }

  /** The dataset of the ZfsDataset `d`. */
  ghost predicate IsVolume(c: Cluster, d: Id, n: Zfs) {
    && d in c.datasets && c.datasets[d].pool in c.pools && n in c.objs
    && n == Ds(Child(Dir(c.pools[c.datasets[d].pool], c.datasets[d].dir), c.datasets[d].leaf))
  }

  /** The dataset named after the ZfsSnapshot `s`, beside its source where that is now. */
  ghost predicate IsBackingOf(c: Cluster, s: Id, n: Zfs) {
    && s in c.snapshots && c.snapshots[s].pool in c.pools && n in c.objs && n.Ds? && Near(c, n.path)
    && n.path.Child? && n.path.leaf == c.snapshots[s].snapshotName
    && (if c.snapshots[s].source.Some? && c.snapshots[s].source.value in c.datasets
        then n.path.parent == Dir(c.pools[c.snapshots[s].pool], c.datasets[c.snapshots[s].source.value].dir)
        else n.path.parent == Dir(c.pools[c.snapshots[s].pool], c.snapshots[s].dir))
  }

  /** The one snapshot that bears the name of the ZfsSnapshot `s`. */
  ghost predicate IsRawOf(c: Cluster, s: Id, n: Zfs) {
    && s in c.snapshots && c.snapshots[s].pool in c.pools && Snap(c, n, c.snapshots[s].snapshotName.text)
    && forall m :: Snap(c, m, c.snapshots[s].snapshotName.text) ==> m == n
  }

  /** `n` is to have this role and this owner. */
  ghost predicate Due(c: Cluster, n: Zfs, role: Role, owner: Uid) {
    match role
    case Volume => exists d :: IsVolume(c, d, n) && owner == c.datasets[d].uid
    case Clone => exists d, v :: IsVolume(c, d, v) && Snap(c, n, "clone-" + d.text) && owner == c.datasets[d].uid
    case Raw => exists s :: IsRawOf(c, s, n) && owner == c.snapshots[s].uid
    case Backing => exists s :: IsBackingOf(c, s, n) && owner == c.snapshots[s].uid
    case Other(_) => false
  }

  /** The snapshots the driver cuts, under the names it cuts them with, are those that are due. */
  lemma OwnSnapshotsAreDue(c: Cluster, p: Path, d: Id, v: Zfs)
    requires Near(c, p) && IsVolume(c, d, v) && Sn(SnapRef(p, CloneOrigin(Name(d.text)))) in c.objs
    ensures Due(c, Sn(SnapRef(p, CloneOrigin(Name(d.text)))), Clone, c.datasets[d].uid)
  {
    assert Snap(c, Sn(SnapRef(p, CloneOrigin(Name(d.text)))), "clone-" + d.text);
  }

  lemma RawSnapshotIsDue(c: Cluster, p: Path, s: Id)
    requires Near(c, p) && s in c.snapshots && c.snapshots[s].pool in c.pools
    requires Sn(SnapRef(p, Direct(c.snapshots[s].snapshotName))) in c.objs
    requires forall m :: Snap(c, m, c.snapshots[s].snapshotName.text) ==>
        m == Sn(SnapRef(p, Direct(c.snapshots[s].snapshotName)))
    ensures Due(c, Sn(SnapRef(p, Direct(c.snapshots[s].snapshotName))), Raw, c.snapshots[s].uid)
  {
    assert IsRawOf(c, s, Sn(SnapRef(p, Direct(c.snapshots[s].snapshotName))));
  }

  lemma NearIsSeen(c: Cluster, n: Zfs)
    requires n in c.objs
    ensures Seen(c, n) <==> Near(c, if n.Ds? then n.path else n.ref.ds)
  {
  }

  lemma SnapsAreThose(c: Cluster, n: Zfs, text: string)
    ensures n in SnapsBy(c, text) <==> Snap(c, n, text)
  {
    if n in c.objs { NearIsSeen(c, n); }
  }

  lemma VolumesAreThose(c: Cluster, d: Id, n: Zfs)
    ensures IsVolume(c, d, n) <==> HasVolume(c, d) && n == Full(c, c.datasets[d])
  {
  }

  lemma BackingsAreThose(c: Cluster, s: Id, n: Zfs)
    ensures IsBackingOf(c, s, n) <==>
      s in c.snapshots && c.snapshots[s].pool in c.pools && n == BackingOf(c, c.snapshots[s]) && Seen(c, n)
  {
    if n in c.objs { NearIsSeen(c, n); }
  }

  lemma RawsAreThose(c: Cluster, s: Id, n: Zfs)
    ensures IsRawOf(c, s, n) <==>
      s in c.snapshots && c.snapshots[s].pool in c.pools && SnapsBy(c, c.snapshots[s].snapshotName.text) == {n}
  {
    if s in c.snapshots {
      var text := c.snapshots[s].snapshotName.text;
      forall m ensures m in SnapsBy(c, text) <==> Snap(c, m, text) { SnapsAreThose(c, m, text); }
      if IsRawOf(c, s, n) { assert SnapsBy(c, text) == {n}; }
      if SnapsBy(c, text) == {n} { assert n in SnapsBy(c, text); }
    }
  }

  lemma DatasetsClaim(c: Cluster, id: Id, k: Claim)
    ensures DatasetClaims(c, id, k) <==>
        || (k.role == Volume && IsVolume(c, id, k.on) && k.owner == c.datasets[id].uid)
        || (k.role == Clone && (exists v :: IsVolume(c, id, v)) && Snap(c, k.on, "clone-" + id.text)
            && k.owner == c.datasets[id].uid)
  {
    VolumesAreThose(c, id, k.on);
    if HasVolume(c, id) { VolumesAreThose(c, id, Full(c, c.datasets[id])); }
    if v :| IsVolume(c, id, v) { VolumesAreThose(c, id, v); }
    SnapsAreThose(c, k.on, "clone-" + id.text);
  }

  lemma SnapshotsClaim(c: Cluster, id: Id, k: Claim)
    ensures SnapshotClaims(c, id, k) <==>
        || (k.role == Raw && IsRawOf(c, id, k.on) && k.owner == c.snapshots[id].uid)
        || (k.role == Backing && IsBackingOf(c, id, k.on) && k.owner == c.snapshots[id].uid)
  {
    RawsAreThose(c, id, k.on);
    BackingsAreThose(c, id, k.on);
  }

  /** What is claimed is what is due. */
  lemma ClaimedIsDue(c: Cluster, k: Claim)
    ensures Claimed(c, k) <==> Due(c, k.on, k.role, k.owner)
  {
    forall id ensures DatasetClaims(c, id, k) <==>
        || (k.role == Volume && IsVolume(c, id, k.on) && k.owner == c.datasets[id].uid)
        || (k.role == Clone && (exists v :: IsVolume(c, id, v)) && Snap(c, k.on, "clone-" + id.text)
            && k.owner == c.datasets[id].uid)
    {
      DatasetsClaim(c, id, k);
    }
    forall id ensures SnapshotClaims(c, id, k) <==>
        || (k.role == Raw && IsRawOf(c, id, k.on) && k.owner == c.snapshots[id].uid)
        || (k.role == Backing && IsBackingOf(c, id, k.on) && k.owner == c.snapshots[id].uid)
    {
      SnapshotsClaim(c, id, k);
    }
  }

  // --------------------------------------------------------------------- by hand, or clean

  /** The dataset at `p` is somebody's. */
  ghost predicate Owned(c: Cluster, p: Path) {
    (exists d :: IsVolume(c, d, Ds(p))) || (exists s :: IsBackingOf(c, s, Ds(p)))
  }

  lemma OwnedIsOwns(c: Cluster, p: Path)
    ensures OwnsDataset(c, p) <==> Owned(c, p)
  {
    if OwnsDataset(c, p) {
      var k :| Claimed(c, k) && k.on == Ds(p) && k.role in {Volume, Backing};
      ClaimedIsDue(c, k);
    }
    if d :| IsVolume(c, d, Ds(p)) {
      var k := Claim(Ds(p), Volume, c.datasets[d].uid);
      ClaimedIsDue(c, k);
      assert Claimed(c, k) && k.on == Ds(p);
    }
    if s :| IsBackingOf(c, s, Ds(p)) {
      var k := Claim(Ds(p), Backing, c.snapshots[s].uid);
      ClaimedIsDue(c, k);
      assert Claimed(c, k) && k.on == Ds(p);
    }
  }

  ghost predicate PoolsKnown(c: Cluster) {
    && (forall d :: d in c.datasets ==> c.datasets[d].pool in c.pools)
    && (forall s :: s in c.snapshots ==> c.snapshots[s].pool in c.pools)
  }

  /** No two snapshots bear the name of one ZfsSnapshot. */
  ghost predicate NamesClear(c: Cluster) {
    forall s, m, n ::
      (s in c.snapshots && Snap(c, m, c.snapshots[s].snapshotName.text) && Snap(c, n, c.snapshots[s].snapshotName.text))
      ==> m == n
  }

  /** Each source type is known, or can be found out. */
  ghost predicate TypesClear(c: Cluster) {
    forall s :: s in c.snapshots && c.snapshots[s].sourceType.None? ==>
      c.snapshots[s].source.Some? && c.snapshots[s].source.value in c.datasets
  }

  /** No two labels are due on one object, and none that contradicts what it has. */
  ghost predicate LabelsClear(c: Cluster) {
    && (forall n, role, owner, role', owner' :: Due(c, n, role, owner) && Due(c, n, role', owner') ==>
          role == role' && owner == owner')
    && (forall n, role, owner :: Due(c, n, role, owner) ==>
          n in c.objs && c.objs[n].role in {None, Some(role)} && c.objs[n].owner in {None, Some(owner)})
  }

  /** Every old self-snapshot is on a dataset of somebody. */
  ghost predicate SelvesClear(c: Cluster) {
    forall n :: Snap(c, n, "restore-source") ==> Owned(c, n.ref.ds)
  }

  lemma FewIfSame(some: set<Zfs>)
    ensures |some| <= 1 <==> forall m, n :: m in some && n in some ==> m == n
  {
    if some != {} {
      var x :| x in some;
      assert some == {x} + (some - {x});
      if m, n :| m in some && n in some && m != n {
        assert {m, n} <= some && |{m, n}| == 2;
        assert some == {m, n} + (some - {m, n});
      } else {
        assert some == {x};
      }
    }
  }

  lemma AtMostOne(c: Cluster, text: string)
    ensures |SnapsBy(c, text)| <= 1 <==> forall m, n :: Snap(c, m, text) && Snap(c, n, text) ==> m == n
  {
    forall n ensures n in SnapsBy(c, text) <==> Snap(c, n, text) { SnapsAreThose(c, n, text); }
    FewIfSame(SnapsBy(c, text));
  }

  lemma NamesAreClear(c: Cluster)
    ensures NamesClear(c) <==> Unambiguous(c)
  {
    forall s | s in c.snapshots
      ensures |SnapsBy(c, c.snapshots[s].snapshotName.text)| <= 1 <==>
        forall m, n :: Snap(c, m, c.snapshots[s].snapshotName.text) && Snap(c, n, c.snapshots[s].snapshotName.text)
          ==> m == n
    {
      AtMostOne(c, c.snapshots[s].snapshotName.text);
    }
  }

  lemma LabelsAreClear(c: Cluster)
    ensures LabelsClear(c) <==> OneClaimEach(c) && forall k :: Claimed(c, k) ==> !Mislabelled(c, k)
  {
    forall k ensures Claimed(c, k) <==> Due(c, k.on, k.role, k.owner) { ClaimedIsDue(c, k); }
    forall k | Claimed(c, k) ensures k.on in c.objs { ClaimsExist(c, k); }
    if OneClaimEach(c) && forall k :: Claimed(c, k) ==> !Mislabelled(c, k) {
      forall n, role, owner | Due(c, n, role, owner)
        ensures n in c.objs && c.objs[n].role in {None, Some(role)} && c.objs[n].owner in {None, Some(owner)}
      {
        assert Claimed(c, Claim(n, role, owner));
      }
      forall n, role, owner, role', owner' | Due(c, n, role, owner) && Due(c, n, role', owner')
        ensures role == role' && owner == owner'
      {
        assert Claimed(c, Claim(n, role, owner)) && Claimed(c, Claim(n, role', owner'));
      }
    }
  }

  lemma SelvesAreClear(c: Cluster)
    ensures SelvesClear(c) <==>
      forall r :: Seen(c, Sn(r)) && Text(r.short) == RESTORE_SOURCE ==> OwnsDataset(c, r.ds)
  {
    forall p ensures OwnsDataset(c, p) <==> Owned(c, p) { OwnedIsOwns(c, p); }
    forall r ensures Seen(c, Sn(r)) && Text(r.short) == RESTORE_SOURCE <==> Snap(c, Sn(r), "restore-source") {
      if Sn(r) in c.objs { NearIsSeen(c, Sn(r)); }
    }
    if forall r :: Seen(c, Sn(r)) && Text(r.short) == RESTORE_SOURCE ==> OwnsDataset(c, r.ds) {
      forall n | Snap(c, n, "restore-source") ensures Owned(c, n.ref.ds) { assert n == Sn(n.ref); }
    }
  }

  /** It must be resolved by hand exactly if one of these is missing. */
  lemma BlockedExactly(c: Cluster)
    ensures !Blocked(c) <==> PoolsKnown(c) && NamesClear(c) && TypesClear(c) && LabelsClear(c) && SelvesClear(c)
  {
    NamesAreClear(c);
    LabelsAreClear(c);
    SelvesAreClear(c);
  }

  /** What a migration is for, object by object. */
  ghost predicate Tidy(c: Cluster) {
    && PoolsKnown(c) && NamesClear(c)
    && (forall s :: s in c.snapshots ==> c.snapshots[s].sourceType.Some?)
    && (forall n, role, owner :: Due(c, n, role, owner) ==>
          n in c.objs && c.objs[n].role == Some(role) && c.objs[n].owner == Some(owner))
    && (forall n :: Snap(c, n, "restore-source") ==> c.objs[n].deferred && Owned(c, n.ref.ds))
    && (forall d, n :: IsVolume(c, d, n) && c.datasets[d].phase in {Ready, Lost} ==> c.datasets[d].provisioned)
    && (forall s :: s in c.snapshots && c.snapshots[s].phase in {Ready, Lost} ==> c.snapshots[s].provisioned)
  }

  /** What an audit asks for. */
  ghost predicate Asked(c: Cluster, a: Action) {
    match a
    case SetRole(n, role) => n in c.objs && c.objs[n].role.None? && exists owner :: Due(c, n, role, owner)
    case SetOwner(n, owner) => n in c.objs && c.objs[n].owner.None? && exists role :: Due(c, n, role, owner)
    case DestroyDeferred(r) => Snap(c, Sn(r), "restore-source") && Owned(c, r.ds) && !c.objs[Sn(r)].deferred
    case StampDataset(id) =>
      && (exists n :: IsVolume(c, id, n)) && !c.datasets[id].provisioned && c.datasets[id].phase in {Ready, Lost}
    case StampSnapshot(id) =>
      && id in c.snapshots && c.snapshots[id].pool in c.pools && !c.snapshots[id].provisioned
      && c.snapshots[id].phase in {Ready, Lost}
    case SetSourceType(id, kind) =>
      && id in c.snapshots && c.snapshots[id].pool in c.pools && c.snapshots[id].sourceType.None?
      && c.snapshots[id].source.Some? && c.snapshots[id].source.value in c.datasets
      && c.datasets[c.snapshots[id].source.value].kind == kind
  }

  lemma WantedExactly(c: Cluster, a: Action)
    ensures Wanted(c, a) <==> Asked(c, a)
  {
    match a
    case SetRole(n, role) =>
      if k :| Claimed(c, k) && k.on == n && k.role == role { ClaimedIsDue(c, k); }
      if owner :| Due(c, n, role, owner) { ClaimedIsDue(c, Claim(n, role, owner)); }
    case SetOwner(n, owner) =>
      if k :| Claimed(c, k) && k.on == n && k.owner == owner { ClaimedIsDue(c, k); }
      if role :| Due(c, n, role, owner) { ClaimedIsDue(c, Claim(n, role, owner)); }
    case DestroyDeferred(r) =>
      OwnedIsOwns(c, r.ds);
      if Sn(r) in c.objs { NearIsSeen(c, Sn(r)); }
    case StampDataset(id) =>
      if HasVolume(c, id) { VolumesAreThose(c, id, Full(c, c.datasets[id])); }
      if n :| IsVolume(c, id, n) { VolumesAreThose(c, id, n); }
    case _ =>
  }

  lemma CleanIsTidy(c: Cluster)
    requires Clean(c)
    ensures Tidy(c)
  {
    BlockedExactly(c);
    forall s | s in c.snapshots ensures c.snapshots[s].sourceType.Some? {
      if c.snapshots[s].sourceType.None? {
        assert Wanted(c, SetSourceType(s, c.datasets[c.snapshots[s].source.value].kind));
      }
    }
    forall n, role, owner | Due(c, n, role, owner)
      ensures n in c.objs && c.objs[n].role == Some(role) && c.objs[n].owner == Some(owner)
    {
      var k := Claim(n, role, owner);
      ClaimedIsDue(c, k);
      assert !Wanted(c, SetRole(n, role)) && !Wanted(c, SetOwner(n, owner));
    }
    forall n | Snap(c, n, "restore-source") ensures c.objs[n].deferred && Owned(c, n.ref.ds) {
      OwnedIsOwns(c, n.ref.ds);
      NearIsSeen(c, n);
      assert n == Sn(n.ref) && !Wanted(c, DestroyDeferred(n.ref));
    }
    forall d, n | IsVolume(c, d, n) && c.datasets[d].phase in {Ready, Lost} ensures c.datasets[d].provisioned {
      VolumesAreThose(c, d, n);
      assert !Wanted(c, StampDataset(d));
    }
    forall s | s in c.snapshots && c.snapshots[s].phase in {Ready, Lost} ensures c.snapshots[s].provisioned {
      assert !Wanted(c, StampSnapshot(s));
    }
  }

  lemma TidyLabels(c: Cluster)
    requires Tidy(c)
    ensures LabelsClear(c)
  {
    forall n, role, owner, role', owner' | Due(c, n, role, owner) && Due(c, n, role', owner')
      ensures role == role' && owner == owner'
    {
    }
  }

  lemma TidyIsClean(c: Cluster)
    requires Tidy(c)
    ensures Clean(c)
  {
    TidyLabels(c);
    BlockedExactly(c);
    forall a ensures !Wanted(c, a) {
      match a
      case SetRole(n, role) =>
        forall k | Claimed(c, k) && k.on == n ensures c.objs[n].role.Some? { ClaimedIsDue(c, k); }
      case SetOwner(n, owner) =>
        forall k | Claimed(c, k) && k.on == n ensures c.objs[n].owner.Some? { ClaimedIsDue(c, k); }
      case DestroyDeferred(r) =>
        if Sn(r) in c.objs { NearIsSeen(c, Sn(r)); }
      case StampDataset(id) =>
        if HasVolume(c, id) { VolumesAreThose(c, id, Full(c, c.datasets[id])); }
      case _ =>
    }
  }

  /** The audit is clean exactly if the migration has nothing left to do. */
  lemma CleanExactly(c: Cluster)
    ensures Clean(c) <==> Tidy(c)
  {
    if Clean(c) { CleanIsTidy(c); }
    if Tidy(c) { TidyIsClean(c); }
  }
}
