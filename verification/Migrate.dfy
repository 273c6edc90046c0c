/** The one-time migration (internal/migrate/migrate.go): what an audit of the cluster and the
    pool asks for, and what carrying it out leaves for the next audit. */
module Migrate {
  import opened Options
  import opened Pool
  import opened Seqs

  /** The name of a Kubernetes object, or a pool GUID. */
  datatype Id = Id(text: string)

  datatype Uid = Uid(text: string)

  /** A label value: one the driver writes, or anything else. */
  datatype Role = Volume | Clone | Raw | Backing | Other(text: string)

  datatype Phase = Ready | Lost | Unsettled

  /** Its dataset is `leaf` below the directory `dir` of the pool. */
  datatype ZfsDataset = ZfsDataset(uid: Uid, pool: Id, dir: seq<Name>, leaf: Name, kind: Kind, phase: Phase,
    provisioned: bool)

  datatype ZfsSnapshot = ZfsSnapshot(
    uid: Uid, pool: Id, dir: seq<Name>, snapshotName: Name, source: Option<Id>, sourceType: Option<Kind>,
      phase: Phase, provisioned: bool)

  /** A ZFS object by name. */
  datatype Zfs = Ds(path: Path) | Sn(ref: SnapRef)

  /** Labels are the locally set ones; None is no label. */
  datatype Obj = Obj(origin: Option<SnapRef>, role: Option<Role>, owner: Option<Uid>, deferred: bool)

  datatype Cluster = Cluster(pools: map<Id, Name>, datasets: map<Id, ZfsDataset>, snapshots: map<Id, ZfsSnapshot>,
    objs: map<Zfs, Obj>)

  const RESTORE_SOURCE := "restore-source"

  lemma CloneIsNoSelf(text: string)
    ensures "clone-" + text != RESTORE_SOURCE
  {
    assert ("clone-" + text)[0] != RESTORE_SOURCE[0];
  }

  // ------------------------------------------------------------------- what is seen

  function Dir(pool: Name, dir: seq<Name>): Path {
    if dir == [] then Root(pool) else Child(Dir(pool, dir[..|dir| - 1]), dir[|dir| - 1])
  }

  /** The parents of the datasets and of the snapshots' sources: what is listed. */
  function Roots(c: Cluster): set<Path> {
    (set d | d in c.datasets && c.datasets[d].pool in c.pools :: Dir(c.pools[c.datasets[d].pool], c.datasets[d].dir))
    + (set s | s in c.snapshots && c.snapshots[s].pool in c.pools ::
      Dir(c.pools[c.snapshots[s].pool], c.snapshots[s].dir))
  }

  function Home(n: Zfs): Path {
    if n.Ds? then n.path else n.ref.ds
  }

  /** The roots, their children, and the snapshots of both. */
  predicate Seen(c: Cluster, n: Zfs) {
    n in c.objs && (Home(n) in Roots(c) || (Home(n).Child? && Home(n).parent in Roots(c)))
  }

  /** The snapshots with this short name. */
  function SnapsBy(c: Cluster, short: string): set<Zfs> {
    set n | n in c.objs && Seen(c, n) && n.Sn? && Text(n.ref.short) == short
  }

  /** The dataset of a ZfsDataset. */
  function Full(c: Cluster, d: ZfsDataset): Zfs
    requires d.pool in c.pools
  {
    Ds(Child(Dir(c.pools[d.pool], d.dir), d.leaf))
  }

  /** The backing clone of a ZfsSnapshot, beside its source as that is named now. */
  function BackingOf(c: Cluster, s: ZfsSnapshot): Zfs
    requires s.pool in c.pools
  {
    var dir := if s.source.Some? && s.source.value in c.datasets then c.datasets[s.source.value].dir else s.dir;
    Ds(Child(Dir(c.pools[s.pool], dir), s.snapshotName))
  }

  // --------------------------------------------------------------------- who owns what

  datatype Claim = Claim(on: Zfs, role: Role, owner: Uid)

  predicate HasVolume(c: Cluster, id: Id) {
    id in c.datasets && c.datasets[id].pool in c.pools && Seen(c, Full(c, c.datasets[id]))
  }

  /** The ZfsDataset `id` claims its dataset and the snapshots it was cloned from. */
  ghost predicate DatasetClaims(c: Cluster, id: Id, k: Claim) {
    && HasVolume(c, id)
    && (k == Claim(Full(c, c.datasets[id]), Volume, c.datasets[id].uid)
        || (k.on in SnapsBy(c, "clone-" + id.text) && k == Claim(k.on, Clone, c.datasets[id].uid)))
  }

  /** The ZfsSnapshot `id` claims its raw snapshot, if just one bears the name, and its backing clone. */
  ghost predicate SnapshotClaims(c: Cluster, id: Id, k: Claim) {
    && id in c.snapshots && c.snapshots[id].pool in c.pools
    && ((SnapsBy(c, c.snapshots[id].snapshotName.text) == {k.on} && k == Claim(k.on, Raw, c.snapshots[id].uid))
        || (Seen(c, BackingOf(c, c.snapshots[id]))
          && k == Claim(BackingOf(c, c.snapshots[id]), Backing, c.snapshots[id].uid)))
  }

  ghost predicate Claimed(c: Cluster, k: Claim) {
    (exists id :: DatasetClaims(c, id, k)) || (exists id :: SnapshotClaims(c, id, k))
  }

  /** The migration itself owns the dataset. */
  ghost predicate OwnsDataset(c: Cluster, p: Path) {
    exists k :: Claimed(c, k) && k.on == Ds(p) && k.role in {Volume, Backing}
  }

  // -------------------------------------------------------------------- the audit

  datatype Action =
    | SetRole(on: Zfs, role: Role)
    | SetOwner(on: Zfs, owner: Uid)
    | DestroyDeferred(ref: SnapRef)
    | StampDataset(id: Id)
    | StampSnapshot(id: Id)
    | SetSourceType(id: Id, kind: Kind)

  predicate Settled(p: Phase) {
    p.Ready? || p.Lost?
  }

  predicate HasSource(c: Cluster, s: ZfsSnapshot) {
    s.source.Some? && s.source.value in c.datasets
  }

  /** What the audit asks for. */
  ghost predicate Wanted(c: Cluster, a: Action) {
    match a
    case SetRole(n, role) =>
      n in c.objs && c.objs[n].role.None? && exists k :: Claimed(c, k) && k.on == n && k.role == role
    case SetOwner(n, owner) =>
      n in c.objs && c.objs[n].owner.None? && exists k :: Claimed(c, k) && k.on == n && k.owner == owner
    case DestroyDeferred(r) => Seen(c, Sn(r)) && Text(r.short) == RESTORE_SOURCE && OwnsDataset(c, r.ds)
      && !c.objs[Sn(r)].deferred
    case StampDataset(id) => HasVolume(c, id) && !c.datasets[id].provisioned && Settled(c.datasets[id].phase)
    case StampSnapshot(id) => id in c.snapshots && c.snapshots[id].pool in c.pools && !c.snapshots[id].provisioned
      && Settled(c.snapshots[id].phase)
    case SetSourceType(id, kind) =>
      && id in c.snapshots && c.snapshots[id].pool in c.pools && c.snapshots[id].sourceType.None?
      && HasSource(c, c.snapshots[id]) && kind == c.datasets[c.snapshots[id].source.value].kind
  }

  ghost predicate SnapshotBlocked(c: Cluster, s: ZfsSnapshot) {
    || s.pool !in c.pools
    || |SnapsBy(c, s.snapshotName.text)| > 1
    || (s.sourceType.None? && !HasSource(c, s))
  }

  ghost predicate Mislabelled(c: Cluster, k: Claim) {
    k.on in c.objs && (c.objs[k.on].role !in {None, Some(k.role)} || c.objs[k.on].owner !in {None, Some(k.owner)})
  }

  /** What must be resolved by hand first. */
  ghost predicate Blocked(c: Cluster) {
    || (exists d :: d in c.datasets && c.datasets[d].pool !in c.pools)
    || (exists s :: s in c.snapshots && SnapshotBlocked(c, c.snapshots[s]))
    || (exists k, l :: Claimed(c, k) && Claimed(c, l) && k.on == l.on && k != l)
    || (exists r :: Seen(c, Sn(r)) && Text(r.short) == RESTORE_SOURCE && !OwnsDataset(c, r.ds))
    || (exists k :: Claimed(c, k) && Mislabelled(c, k))
  }

  ghost predicate Clean(c: Cluster) {
    !Blocked(c) && forall a :: !Wanted(c, a)
  }

  lemma OnlyOne(some: set<Zfs>, n: Zfs)
    requires n in some && |some| <= 1
    ensures some == {n}
  {
    assert |some - {n}| == 0;
  }

  /** A snapshot and a dataset that claim one name: the audit is blocked. */
  lemma NamesakeOfACloneBlocks(c: Cluster, d: Id, s: Id, n: Zfs)
    requires HasVolume(c, d) && s in c.snapshots && c.snapshots[s].pool in c.pools
    requires c.snapshots[s].snapshotName.text == "clone-" + d.text && n in SnapsBy(c, "clone-" + d.text)
    ensures Blocked(c)
  {
    var short := c.snapshots[s].snapshotName.text;
    if |SnapsBy(c, short)| <= 1 {
      OnlyOne(SnapsBy(c, short), n);
      var k, l := Claim(n, Clone, c.datasets[d].uid), Claim(n, Raw, c.snapshots[s].uid);
      assert DatasetClaims(c, d, k) && SnapshotClaims(c, s, l) && k.on == l.on;
    }
  }

  // ------------------------------------------------------------------ carrying it out

  predicate HasClone(c: Cluster, r: SnapRef) {
    exists n :: n in c.objs && n.Ds? && c.objs[n].origin == Some(r)
  }

  /** Its target is there. */
  predicate Possible(c: Cluster, a: Action) {
    match a
    case SetRole(n, _) => n in c.objs
    case SetOwner(n, _) => n in c.objs
    case DestroyDeferred(r) => Sn(r) in c.objs
    case StampDataset(id) => id in c.datasets
    case StampSnapshot(id) => id in c.snapshots
    case SetSourceType(id, _) => id in c.snapshots
  }

  function Do(c: Cluster, a: Action): Cluster
    requires Possible(c, a)
  {
    match a
    case SetRole(n, role) => c.(objs := c.objs[n := c.objs[n].(role := Some(role))])
    case SetOwner(n, owner) => c.(objs := c.objs[n := c.objs[n].(owner := Some(owner))])
    case DestroyDeferred(r) =>
      c.(objs := if HasClone(c, r) then c.objs[Sn(r) := c.objs[Sn(r)].(deferred := true)] else c.objs - {Sn(r)})
    case StampDataset(id) => c.(datasets := c.datasets[id := c.datasets[id].(provisioned := true)])
    case StampSnapshot(id) => c.(snapshots := c.snapshots[id := c.snapshots[id].(provisioned := true)])
    case SetSourceType(id, kind) =>
      var s := c.snapshots[id];
      c.(snapshots := c.snapshots[id := s.(sourceType := if s.sourceType.None? then Some(kind) else s.sourceType)])
  }

  /** `c'` differs from `c` in labels, stamps and source types at most, and in `gone`, which it lacks. */
  ghost predicate Alike(c: Cluster, c': Cluster, gone: set<Zfs>) {
    && c'.pools == c.pools && c'.datasets.Keys == c.datasets.Keys && c'.snapshots.Keys == c.snapshots.Keys
        && c'.objs.Keys == c.objs.Keys - gone
    && (forall d :: d in c.datasets ==> c'.datasets[d] == c.datasets[d].(provisioned := c'.datasets[d].provisioned))
    && (forall s :: s in c.snapshots ==>
        c'.snapshots[s]
        == c.snapshots[s].(provisioned := c'.snapshots[s].provisioned, sourceType := c'.snapshots[s].sourceType))
    && (forall s :: s in c.snapshots && c.snapshots[s].sourceType.Some? ==>
        c'.snapshots[s].sourceType == c.snapshots[s].sourceType)
    && (forall n :: n in gone ==> n.Sn? && Text(n.ref.short) == RESTORE_SOURCE)
  }

  lemma AlikeSeen(c: Cluster, c': Cluster, gone: set<Zfs>)
    requires Alike(c, c', gone)
    ensures Roots(c') == Roots(c)
    ensures forall n :: Seen(c', n) <==> Seen(c, n) && n !in gone
  {
    assert Roots(c') == Roots(c);
  }

  lemma AlikeSnaps(c: Cluster, c': Cluster, gone: set<Zfs>, short: string)
    requires Alike(c, c', gone)
    ensures SnapsBy(c', short) == SnapsBy(c, short) - gone
    ensures short != RESTORE_SOURCE ==> SnapsBy(c', short) == SnapsBy(c, short)
  {
    AlikeSeen(c, c', gone);
  }

  lemma FewerOne<T>(s: set<T>, gone: set<T>, x: T)
    requires |s| <= 1
    ensures s - gone == {x} <==> s == {x} && x !in gone
  {
    if s - gone == {x} {
      assert x in s;
      if y :| y in s && y != x {
        assert {x, y} <= s;
        Subset({x, y}, s);
      }
    }
  }

  ghost predicate Unambiguous(c: Cluster) {
    forall s :: s in c.snapshots ==> |SnapsBy(c, c.snapshots[s].snapshotName.text)| <= 1
  }

  /** Labels, stamps, source types and old self-snapshots do not decide who owns what is left. */
  lemma AlikeClaims(c: Cluster, c': Cluster, gone: set<Zfs>, k: Claim)
    requires Alike(c, c', gone) && Unambiguous(c)
    ensures Claimed(c', k) <==> Claimed(c, k) && k.on !in gone
  {
    AlikeSeen(c, c', gone);
    forall id ensures DatasetClaims(c', id, k) <==> DatasetClaims(c, id, k) && k.on !in gone {
      CloneIsNoSelf(id.text);
      AlikeSnaps(c, c', gone, "clone-" + id.text);
    }
    forall id ensures SnapshotClaims(c', id, k) <==> SnapshotClaims(c, id, k) && k.on !in gone {
      if id in c.snapshots {
        var short := c.snapshots[id].snapshotName.text;
        AlikeSnaps(c, c', gone, short);
        FewerOne(SnapsBy(c, short), gone, k.on);
      }
    }
  }

  lemma ClaimsExist(c: Cluster, k: Claim)
    requires Claimed(c, k)
    ensures k.on in c.objs && k.role in {Volume, Clone, Raw, Backing}
  {
    if id :| SnapshotClaims(c, id, k) {
      assert SnapsBy(c, c.snapshots[id].snapshotName.text) == {k.on}
        ==> k.on in SnapsBy(c, c.snapshots[id].snapshotName.text);
    }
  }

  /** An old self-snapshot is claimed only as the raw snapshot of a namesake, and then it is the only one. */
  lemma ClaimedIsOnly(c: Cluster, k: Claim)
    requires Claimed(c, k) && k.on.Sn? && Text(k.on.ref.short) == RESTORE_SOURCE
    ensures SnapsBy(c, RESTORE_SOURCE) == {k.on} && k.role == Raw
  {
    forall id: Id ensures "clone-" + id.text != RESTORE_SOURCE { CloneIsNoSelf(id.text); }
    if id :| SnapshotClaims(c, id, k) {
      assert k.on in SnapsBy(c, c.snapshots[id].snapshotName.text);
    }
  }

  ghost function Razed(c: Cluster, a: Action): set<Zfs> {
    if a.DestroyDeferred? && !HasClone(c, a.ref) then {Sn(a.ref)} else {}
  }

  lemma StepAlike(c: Cluster, a: Action)
    requires Wanted(c, a)
    ensures Possible(c, a) && Alike(c, Do(c, a), Razed(c, a))
  {
  }

  ghost predicate OneClaimEach(c: Cluster) {
    forall k, l :: Claimed(c, k) && Claimed(c, l) && k.on == l.on ==> k == l
  }

  /** What a step leaves alone: the claims and what is seen, but for what is lost. */
  ghost predicate Stepped(c: Cluster, a: Action, c': Cluster) {
    && Possible(c, a) && c' == Do(c, a) && Alike(c, c', Razed(c, a))
    && (forall k :: Claimed(c', k) <==> Claimed(c, k) && k.on !in Razed(c, a))
    && (forall n :: Seen(c', n) <==> Seen(c, n) && n !in Razed(c, a))
  }

  lemma StepLeaves(c: Cluster, a: Action)
    requires Unambiguous(c) && Wanted(c, a)
    ensures Possible(c, a) && Stepped(c, a, Do(c, a))
  {
    StepAlike(c, a);
    forall k ensures Claimed(Do(c, a), k) <==> Claimed(c, k) && k.on !in Razed(c, a) {
      AlikeClaims(c, Do(c, a), Razed(c, a), k);
    }
    AlikeSeen(c, Do(c, a), Razed(c, a));
  }

  /** The labels after a step. */
  lemma LabelsAfter(c: Cluster, a: Action, n: Zfs)
    requires Possible(c, a) && n in c.objs && n !in Razed(c, a)
    ensures n in Do(c, a).objs
    ensures Do(c, a).objs[n].role == if a.SetRole? && a.on == n then Some(a.role) else c.objs[n].role
    ensures Do(c, a).objs[n].owner == if a.SetOwner? && a.on == n then Some(a.owner) else c.objs[n].owner
  {
  }

  lemma RoleLeft(c: Cluster, a: Action, c': Cluster, n: Zfs, role: Role)
    requires Wanted(c, a) && OneClaimEach(c) && Stepped(c, a, c')
    ensures Wanted(c', SetRole(n, role)) <==> Wanted(c, SetRole(n, role)) && a != SetRole(n, role) && n !in Razed(c, a)
  {
    if k :| Claimed(c, k) && k.on == n && k.role == role && n !in Razed(c, a) {
      ClaimsExist(c, k);
      LabelsAfter(c, a, n);
    }
  }

  lemma OwnerLeft(c: Cluster, a: Action, c': Cluster, n: Zfs, owner: Uid)
    requires Wanted(c, a) && OneClaimEach(c) && Stepped(c, a, c')
    ensures Wanted(c', SetOwner(n, owner)) <==>
        Wanted(c, SetOwner(n, owner)) && a != SetOwner(n, owner) && n !in Razed(c, a)
  {
    if k :| Claimed(c, k) && k.on == n && k.owner == owner && n !in Razed(c, a) {
      ClaimsExist(c, k);
      LabelsAfter(c, a, n);
    }
  }

  lemma OwnsStays(c: Cluster, a: Action, c': Cluster, p: Path)
    requires Stepped(c, a, c')
    ensures OwnsDataset(c', p) <==> OwnsDataset(c, p)
  {
  }

  lemma MarksAfter(c: Cluster, a: Action, c': Cluster, r: SnapRef)
    requires Stepped(c, a, c') && Sn(r) in c.objs && Sn(r) in c'.objs
    ensures c'.objs[Sn(r)].deferred == (c.objs[Sn(r)].deferred || a == DestroyDeferred(r))
  {
  }

  lemma MarkLeft(c: Cluster, a: Action, c': Cluster, r: SnapRef)
    requires Wanted(c, a) && Stepped(c, a, c')
    ensures Wanted(c', DestroyDeferred(r)) <==> Wanted(c, DestroyDeferred(r)) && a != DestroyDeferred(r)
  {
    OwnsStays(c, a, c', r.ds);
    if Sn(r) in c.objs && Sn(r) in c'.objs { MarksAfter(c, a, c', r); }
  }

  lemma StampLeft(c: Cluster, a: Action, c': Cluster, id: Id)
    requires Wanted(c, a) && Stepped(c, a, c')
    ensures Wanted(c', StampDataset(id)) <==> Wanted(c, StampDataset(id)) && a != StampDataset(id)
    ensures Wanted(c', StampSnapshot(id)) <==> Wanted(c, StampSnapshot(id)) && a != StampSnapshot(id)
  {
  }

  lemma TypeLeft(c: Cluster, a: Action, c': Cluster, id: Id, kind: Kind)
    requires Wanted(c, a) && Stepped(c, a, c')
    ensures Wanted(c', SetSourceType(id, kind)) <==> Wanted(c, SetSourceType(id, kind)) && a != SetSourceType(id, kind)
  {
  }

  /** The label `b` would set is on what the step `a` destroys. */
  ghost predicate OnLost(c: Cluster, a: Action, b: Action) {
    (b.SetRole? || b.SetOwner?) && b.on in Razed(c, a)
  }

  /** Carrying out one action takes just that one off the list, and the labels of what it destroyed. */
  lemma StepWanted(c: Cluster, a: Action, b: Action)
    requires Wanted(c, a) && OneClaimEach(c) && Unambiguous(c) && Possible(c, a)
    ensures Wanted(Do(c, a), b) <==> Wanted(c, b) && b != a && !OnLost(c, a, b)
  {
    StepLeaves(c, a);
    match b
    case SetRole(n, role) => RoleLeft(c, a, Do(c, a), n, role);
    case SetOwner(n, owner) => OwnerLeft(c, a, Do(c, a), n, owner);
    case DestroyDeferred(r) => MarkLeft(c, a, Do(c, a), r);
    case StampDataset(id) => StampLeft(c, a, Do(c, a), id);
    case StampSnapshot(id) => StampLeft(c, a, Do(c, a), id);
    case SetSourceType(id, kind) => TypeLeft(c, a, Do(c, a), id, kind);
  }

  // -------------------------------------------------------------- nothing gets blocked

  lemma LabelsStay(c: Cluster, a: Action, c': Cluster, k: Claim)
    requires Wanted(c, a) && OneClaimEach(c) && Stepped(c, a, c') && Claimed(c, k) && k.on !in Razed(c, a)
    requires !Mislabelled(c, k)
    ensures !Mislabelled(c', k)
  {
    ClaimsExist(c, k);
    LabelsAfter(c, a, k.on);
    match a
    case SetRole(n, role) =>
      var l :| Claimed(c, l) && l.on == n && l.role == role;
    case SetOwner(n, owner) =>
      var l :| Claimed(c, l) && l.on == n && l.owner == owner;
    case _ =>
  }

  lemma SnapshotStays(c: Cluster, a: Action, c': Cluster, id: Id)
    requires Wanted(c, a) && Stepped(c, a, c') && id in c.snapshots && !SnapshotBlocked(c, c.snapshots[id])
    ensures !SnapshotBlocked(c', c'.snapshots[id])
  {
    var short := c.snapshots[id].snapshotName.text;
    AlikeSnaps(c, c', Razed(c, a), short);
    Subset(SnapsBy(c', short), SnapsBy(c, short));
  }

  lemma SelfSnapshotStays(c: Cluster, a: Action, c': Cluster, r: SnapRef)
    requires Stepped(c, a, c') && (Seen(c, Sn(r)) && Text(r.short) == RESTORE_SOURCE ==> OwnsDataset(c, r.ds))
    ensures Seen(c', Sn(r)) && Text(r.short) == RESTORE_SOURCE ==> OwnsDataset(c', r.ds)
  {
    OwnsStays(c, a, c', r.ds);
  }

  lemma UnblockedMeans(c: Cluster)
    requires !Blocked(c)
    ensures OneClaimEach(c) && Unambiguous(c)
  {
    forall s | s in c.snapshots ensures |SnapsBy(c, c.snapshots[s].snapshotName.text)| <= 1 {
      assert !SnapshotBlocked(c, c.snapshots[s]);
    }
  }

  lemma StepUnblocked(c: Cluster, a: Action)
    requires Wanted(c, a) && !Blocked(c) && Possible(c, a)
    ensures !Blocked(Do(c, a))
  {
    var c' := Do(c, a);
    UnblockedMeans(c);
    StepLeaves(c, a);
    forall k | Claimed(c', k) ensures !Mislabelled(c', k) { LabelsStay(c, a, c', k); }
    forall id | id in c'.snapshots ensures !SnapshotBlocked(c', c'.snapshots[id]) { SnapshotStays(c, a, c', id); }
    forall r ensures Seen(c', Sn(r)) && Text(r.short) == RESTORE_SOURCE ==> OwnsDataset(c', r.ds) {
      SelfSnapshotStays(c, a, c', r);
    }
  }

  // ------------------------------------------------------------------ the namesake

  /** A raw snapshot that bears the name of the old self-snapshots, is not marked, has no clone and lacks
      a label: the audit asks for its destruction and for its label. */
  ghost predicate Doomed(c: Cluster, k: Claim) {
    && Claimed(c, k) && k.on.Sn? && Text(k.on.ref.short) == RESTORE_SOURCE && k.on in c.objs
    && !c.objs[k.on].deferred && !HasClone(c, k.on.ref) && (c.objs[k.on].role.None? || c.objs[k.on].owner.None?)
  }

  ghost predicate Sound(c: Cluster) {
    forall k :: !Doomed(c, k)
  }

  ghost function LabelOf(c: Cluster, k: Claim): Action
    requires k.on in c.objs
  {
    if c.objs[k.on].role.None? then SetRole(k.on, k.role) else SetOwner(k.on, k.owner)
  }

  /** It is destroyed, and then its label cannot be set. */
  lemma DoomedIsDestroyed(c: Cluster, k: Claim)
    requires !Blocked(c) && Doomed(c, k)
    ensures Wanted(c, DestroyDeferred(k.on.ref)) && Wanted(c, LabelOf(c, k))
    ensures !Possible(Do(c, DestroyDeferred(k.on.ref)), LabelOf(c, k))
  {
    ClaimedIsOnly(c, k);
    assert k.on in SnapsBy(c, RESTORE_SOURCE);
  }

  /** Where there is none, no action destroys what another labels. */
  lemma SoundLosesNoLabel(c: Cluster, a: Action, b: Action)
    requires Sound(c) && Wanted(c, a) && Wanted(c, b)
    ensures !OnLost(c, a, b)
  {
    if OnLost(c, a, b) {
      var k :| Claimed(c, k) && k.on == b.on;
      assert Doomed(c, k);
    }
  }

  lemma ClonesStay(c: Cluster, a: Action, r: SnapRef)
    requires Possible(c, a)
    ensures HasClone(Do(c, a), r) <==> HasClone(c, r)
  {
    if HasClone(c, r) {
      var n :| n in c.objs && n.Ds? && c.objs[n].origin == Some(r);
      assert n in Do(c, a).objs;
    }
  }

  lemma SoundStays(c: Cluster, a: Action)
    requires Sound(c) && Wanted(c, a) && Unambiguous(c) && Possible(c, a)
    ensures Sound(Do(c, a))
  {
    StepLeaves(c, a);
    forall k | Doomed(Do(c, a), k) ensures Doomed(c, k) {
      LabelsAfter(c, a, k.on);
      ClonesStay(c, a, k.on.ref);
    }
  }
}
