/** The ZFS clone graph as a value: datasets, snapshots, origins, and what each
    zfs command does to them. `Mem` (Mem.dfy) executes these commands in place. */
module Pool {
  import opened Options

  /** One component of a name. */
  datatype Name = Name(text: string)

  /** A dataset name: "tank/k8s" is Child(Root(tank), k8s). */
  datatype Path = Root(pool: Name) | Child(parent: Path, leaf: Name)

  /** The part of a snapshot name after "@": Direct(n) is n itself,
      CloneOrigin(d) is "clone-" followed by d. */
  datatype Short = Direct(name: Name) | CloneOrigin(dest: Name)

  function Text(s: Short): string {
    match s
    case Direct(n) => n.text
    case CloneOrigin(d) => "clone-" + d.text
  }

  /** A full snapshot name "dataset@short". */
  datatype SnapRef = SnapRef(ds: Path, short: Short)

  datatype Snapshot = Snapshot(txg: nat, deferred: bool, props: map<string, string>)

  datatype Kind = Filesystem | Zvol

  datatype Dataset = Dataset(
    kind: Kind,
    props: map<string, string>,
    origin: Option<SnapRef>,
    snaps: map<Short, Snapshot>,
    volsize: int)

  type Datasets = map<Path, Dataset>

  predicate Exists(ds: Datasets, r: SnapRef) {
    r.ds in ds && r.short in ds[r.ds].snaps
  }

  function At(ds: Datasets, r: SnapRef): Snapshot
    requires Exists(ds, r)
  {
    ds[r.ds].snaps[r.short]
  }

  function ClonesOf(ds: Datasets, r: SnapRef): set<Path> {
    set n | n in ds && ds[n].origin == Some(r)
  }

  /** `m` is somewhere below `n`. */
  predicate Below(m: Path, n: Path) {
    m.Child? && (m.parent == n || Below(m.parent, n))
  }

  function Children(ds: Datasets, n: Path): set<Path> {
    set m | m in ds && Below(m, n)
  }

  // ---------------------------------------------------------------- invariant

  ghost predicate ParentsExist(ds: Datasets) {
    forall n :: n in ds && n.Child? ==> n.parent in ds
  }

  ghost predicate OriginsExist(ds: Datasets) {
    forall n :: n in ds && ds[n].origin.Some? ==> Exists(ds, ds[n].origin.value)
  }

  /** A dataset's snapshots are all strictly newer than its origin. */
  ghost predicate NewerThanOrigin(ds: Datasets)
    requires OriginsExist(ds)
  {
    forall n, s :: n in ds && s in ds[n].snaps && ds[n].origin.Some?
      ==> At(ds, ds[n].origin.value).txg < ds[n].snaps[s].txg
  }

  ghost predicate Clocked(ds: Datasets, txg: nat) {
    forall n, s :: n in ds && s in ds[n].snaps ==> ds[n].snaps[s].txg <= txg
  }

  /** A snapshot marked for deferred destruction still has a clone. */
  ghost predicate MarkedAreCloned(ds: Datasets) {
    forall n, s :: n in ds && s in ds[n].snaps && ds[n].snaps[s].deferred
      ==> ClonesOf(ds, SnapRef(n, s)) != {}
  }

  ghost predicate Graph(ds: Datasets) {
    OriginsExist(ds) && NewerThanOrigin(ds)
  }

  ghost predicate WF(ds: Datasets, txg: nat) {
    ParentsExist(ds) && Graph(ds) && Clocked(ds, txg) && MarkedAreCloned(ds)
  }

  // ------------------------------------------------------------------ commands

  function Created(ds: Datasets, n: Path, kind: Kind, size: int, props: map<string, string>): Datasets {
    ds[n := Dataset(kind, props, None, map[], size)]
  }

  function Cut(ds: Datasets, r: SnapRef, txg: nat): Datasets
    requires r.ds in ds
  {
    ds[r.ds := ds[r.ds].(snaps := ds[r.ds].snaps[r.short := Snapshot(txg, false, map[])])]
  }

  function Cloned(ds: Datasets, r: SnapRef, dest: Path, props: map<string, string>): Datasets
    requires r.ds in ds
  {
    ds[dest := Dataset(ds[r.ds].kind, props, Some(r), map[], ds[r.ds].volsize)]
  }

  predicate IsClone(ds: Datasets, name: Path) {
    name in ds && ds[name].origin.Some? && Exists(ds, ds[name].origin.value)
  }

  /** The origin snapshot of `name` and every older snapshot of the same parent. */
  function Moved(ds: Datasets, name: Path): map<Short, Snapshot>
    requires IsClone(ds, name)
  {
    var o := ds[name].origin.value;
    var p := ds[o.ds].snaps;
    map s | s in p && p[s].txg <= p[o.short].txg :: p[s]
  }

  predicate Conflict(ds: Datasets, name: Path)
    requires IsClone(ds, name)
  {
    exists s :: s in Moved(ds, name) && s in ds[name].snaps
  }

  /** Where a snapshot is after `zfs promote name`. */
  function Relocate(ds: Datasets, name: Path, r: SnapRef): SnapRef
    requires IsClone(ds, name)
  {
    if r.ds == ds[name].origin.value.ds && r.short in Moved(ds, name) then SnapRef(name, r.short) else r
  }

  function PromotedAt(ds: Datasets, name: Path, n: Path): Dataset
    requires IsClone(ds, name) && n in ds
  {
    var o := ds[name].origin.value;
    if n == name then
      ds[n].(snaps := ds[n].snaps + Moved(ds, name), origin := ds[o.ds].origin)
    else if n == o.ds then
      ds[n].(snaps := ds[n].snaps - Moved(ds, name).Keys, origin := Some(SnapRef(name, o.short)))
    else if ds[n].origin.Some? then
      ds[n].(origin := Some(Relocate(ds, name, ds[n].origin.value)))
    else
      ds[n]
  }

  function Promoted(ds: Datasets, name: Path): Datasets
    requires IsClone(ds, name)
  {
    map n | n in ds :: PromotedAt(ds, name, n)
  }

  function WithoutSnap(ds: Datasets, r: SnapRef): Datasets
    requires r.ds in ds
  {
    ds[r.ds := ds[r.ds].(snaps := ds[r.ds].snaps - {r.short})]
  }

  function WithMark(ds: Datasets, r: SnapRef): Datasets
    requires Exists(ds, r)
  {
    ds[r.ds := ds[r.ds].(snaps := ds[r.ds].snaps[r.short := At(ds, r).(deferred := true)])]
  }

  /** `zfs destroy -d`: gone at once when nothing clones it, marked otherwise. */
  function Deferred(ds: Datasets, r: SnapRef): Datasets {
    if !Exists(ds, r) then ds
    else if ClonesOf(ds, r) == {} then WithoutSnap(ds, r)
    else WithMark(ds, r)
  }

  predicate Done(ds: Datasets, r: SnapRef) {
    Exists(ds, r) && At(ds, r).deferred && ClonesOf(ds, r) == {}
  }

  /** What ZFS does by itself after a clone is gone: drop marked snapshots nothing clones. */
  function Swept(ds: Datasets): Datasets {
    map n | n in ds :: ds[n].(snaps := map s | s in ds[n].snaps && !Done(ds, SnapRef(n, s)) :: ds[n].snaps[s])
  }

  function Tree(ds: Datasets, n: Path): set<Path>
    requires n in ds
  {
    {n} + Children(ds, n)
  }

  /** A clone outside `tree` of a snapshot inside it. */
  predicate OutsideClone(ds: Datasets, tree: set<Path>) {
    exists c :: c in ds && c !in tree && ds[c].origin.Some? && ds[c].origin.value.ds in tree
  }

  function Destroyed(ds: Datasets, tree: set<Path>): Datasets {
    Swept(ds - tree)
  }
}
