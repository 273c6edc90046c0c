/** Shares, network exports and the tables of the exporting nodes: the share
    reconciler (internal/controller/zfsshare_controller.go) and the node-local
    exporters (nfs_controller.go, common.go) as separately interleaved
    get / render / patch steps over one object store. */
module Exports {
  import Attach

  type Node = Attach.Node

  /** A volume. Its ZfsShare and its NetworkExport carry its name. */
  datatype Vol = Vol(name: string)

  /** A ZfsShare: spec.allow at generation `gen`, and the status last written:
      bound, or not, for generation `observed`. */
  datatype Share = Share(gen: nat, allow: set<Node>, bound: bool, observed: nat)

  predicate ShareReady(s: Share) {
    s.bound && s.observed >= s.gen
  }

  /** The phase of an export: empty until an exporter writes it. */
  datatype Phase = Unset | Failed | Exported

  /** A NetworkExport; `version` is its resourceVersion. */
  datatype Export = Export(gen: nat, version: nat, node: Node, allow: set<Node>, phase: Phase, observed: nat,
    finalizer: bool, deleting: bool)

  predicate ExportReady(e: Export) {
    e.phase.Exported? && e.observed >= e.gen
  }

  /** What a node exports, and to whom. */
  type Table = map<Vol, set<Node>>

  /** Where the one worker of a node's exporter is: `e` is what it got, `rows` what it listed,
      and `bad` the listed exports that name no client and are still to be marked. */
  datatype Exporter =
    | Idle
    | Got(v: Vol, e: Export)
    | Listed(v: Vol, e: Export, rows: Table, bad: map<Vol, Export>)
    | Applied(v: Vol, e: Export)

  datatype Sharer = Free | Read(v: Vol, s: Share) | Rendered(v: Vol, s: Share, ready: bool)

  /** The attach reconciler, after it wrote the share: ready or not by what the write returned. */
  datatype Attacher = Away | Wrote(v: Vol, allow: set<Node>, ready: bool)

  datatype World = World(
    shares: map<Vol, Share>, exports: map<Vol, Export>, tables: map<Node, Table>, clock: nat,
    buried: set<Vol>,           // volumes whose share was deleted
    gone: set<(Vol, Node)>,     // exports that disappeared after their finalizer was set, and their node
    exporters: map<Node, Exporter>, sharer: Sharer, attacher: Attacher)

  function TableOf(w: World, n: Node): Table {
    if n in w.tables then w.tables[n] else map[]
  }

  function At(w: World, n: Node): Exporter {
    if n in w.exporters then w.exporters[n] else Idle
  }

  // ------------------------------------------------------------------- the steps

  datatype Action =
    | WriteShare(v: Vol, allow: set<Node>)
    | PatchRequest
    | DropShare(v: Vol)
    | ReadShare(v: Vol)
    | Render(n: Node)
    | PatchShare
    | PatchPending
    | Collect(v: Vol)
    | Get(n: Node, v: Vol)
    | AddFinalizer(n: Node)
    | List(n: Node)
    | MarkInvalid(n: Node, v: Vol)
    | Apply(n: Node)
    | MarkExported(n: Node)
    | MarkError(n: Node)
    | RemoveFinalizer(n: Node)
    | Restart(n: Node)
    | RestartManager

  predicate Enabled(w: World, a: Action) {
    match a
    case WriteShare(v, allow) => w.attacher.Away? && v !in w.buried
    case PatchRequest => w.attacher.Wrote?
    case DropShare(v) => w.attacher.Away? && v in w.shares
    case ReadShare(v) => w.sharer.Free? && v in w.shares
    case Render(n) => w.sharer.Read?
    case PatchShare => w.sharer.Rendered?
    case PatchPending => w.sharer.Read?
    case Collect(v) => v in w.exports
    case Get(n, v) => At(w, n).Idle? && v in w.exports && w.exports[v].node == n
    case AddFinalizer(n) => At(w, n).Got? && !At(w, n).e.finalizer && !At(w, n).e.deleting
    case List(n) => At(w, n).Got? && At(w, n).e.finalizer
    case MarkInvalid(n, v) => At(w, n).Listed? && v in At(w, n).bad
    case Apply(n) => At(w, n).Listed?
    case MarkExported(n) => At(w, n).Applied? && !At(w, n).e.deleting
    case MarkError(n) => At(w, n).Listed? && !At(w, n).e.deleting
    case RemoveFinalizer(n) => At(w, n).Applied? && At(w, n).e.deleting
    case Restart(n) => true
    case RestartManager => true
  }

  /** Create or update the share: the generation moves only with the spec. */
  function ShareWith(w: World, v: Vol, allow: set<Node>): Share {
    if v !in w.shares then Share(1, allow, false, 0)
    else if w.shares[v].allow == allow then w.shares[v]
    else w.shares[v].(gen := w.shares[v].gen + 1, allow := allow)
  }

  /** Create or update the export. */
  function ExportWith(w: World, v: Vol, n: Node, allow: set<Node>): Export {
    if v !in w.exports then Export(1, w.clock + 1, n, allow, Unset, 0, false, false)
    else
      var e := w.exports[v];
      if e.node == n && e.allow == allow then e
      else e.(gen := e.gen + 1, version := w.clock + 1, node := n, allow := allow)
  }

  /** The rows of node `n`: its exports that are not being deleted and name a client. */
  function Rows(w: World, n: Node): Table {
    map v | v in w.exports && w.exports[v].node == n && !w.exports[v].deleting && w.exports[v].allow != {} ::
      w.exports[v].allow
  }

  /** A merge patch of the status, made against the copy `e`: it carries only what
      differs from the copy, and does not check that the object is unchanged. */
  function WithStatus(w: World, v: Vol, e: Export, phase: Phase): map<Vol, Export> {
    if v !in w.exports then w.exports
    else
      var now := w.exports[v];
      w.exports[v := now.(phase := if phase != e.phase then phase else now.phase,
                          observed := if e.gen != e.observed then e.gen else now.observed, version := w.clock + 1)]
  }

  /** The exports of node `n` that name no client. */
  function Bad(w: World, n: Node): map<Vol, Export> {
    map v | v in w.exports && w.exports[v].node == n && !w.exports[v].deleting && w.exports[v].allow == {} ::
      w.exports[v]
  }

  function Do(w: World, a: Action): World
    requires Enabled(w, a)
  {
    match a
    case WriteShare(v, allow) =>
      var s := ShareWith(w, v, allow);
      w.(shares := w.shares[v := s], attacher := Wrote(v, allow, ShareReady(s)))
    case PatchRequest => w.(attacher := Away)
    case DropShare(v) => w.(shares := w.shares - {v}, buried := w.buried + {v})
    case ReadShare(v) => w.(sharer := Read(v, w.shares[v]))
    case Render(n) =>
      var v, s := w.sharer.v, w.sharer.s;
      var e := ExportWith(w, v, n, s.allow);
      w.(exports := w.exports[v := e], clock := w.clock + 1, gone := (set g | g in w.gone && g.0 != v),
         sharer := Rendered(v, s, ExportReady(e)))
    case PatchShare =>
      var v := w.sharer.v;
      w.(shares := if v in w.shares
        then w.shares[v := w.shares[v].(bound := w.sharer.ready, observed := w.sharer.s.gen)] else w.shares,
         sharer := Free)
    case PatchPending =>
      var v := w.sharer.v;
      w.(shares := if v in w.shares then w.shares[v := w.shares[v].(bound := false, observed := w.sharer.s.gen)]
        else w.shares,
         sharer := Free)
    case Collect(v) =>
      if w.exports[v].finalizer then
        w.(exports := w.exports[v := w.exports[v].(deleting := true, version := w.clock + 1)], clock := w.clock + 1)
      else
        w.(exports := w.exports - {v})
    case Get(n, v) => w.(exporters := w.exporters[n := Got(v, w.exports[v])])
    case AddFinalizer(n) =>
      var v, e := At(w, n).v, At(w, n).e;
      w.(exports := if v in w.exports && w.exports[v].version == e.version
        then w.exports[v := e.(finalizer := true, version := w.clock + 1)] else w.exports,
         clock := w.clock + 1, exporters := w.exporters[n := Idle])
    case List(n) =>
      w.(exporters := w.exporters[n := Listed(At(w, n).v, At(w, n).e, Rows(w, n), Bad(w, n))])
    case MarkInvalid(n, v) =>
      w.(exports := WithStatus(w, v, At(w, n).bad[v], Failed), clock := w.clock + 1,
         exporters := w.exporters[n := At(w, n).(bad := At(w, n).bad - {v})])
    case Apply(n) =>
      w.(tables := w.tables[n := At(w, n).rows], exporters := w.exporters[n := Applied(At(w, n).v, At(w, n).e)])
    case MarkExported(n) =>
      var v, e := At(w, n).v, At(w, n).e;
      w.(exports := if e.allow == {} then w.exports else WithStatus(w, v, e, Exported), clock := w.clock + 1,
         exporters := w.exporters[n := Idle])
    case MarkError(n) =>
      w.(exports := WithStatus(w, At(w, n).v, At(w, n).e, Failed), clock := w.clock + 1,
         exporters := w.exporters[n := Idle])
    case RemoveFinalizer(n) =>
      var v, e := At(w, n).v, At(w, n).e;
      if v in w.exports && w.exports[v].version == e.version
      then w.(exports := w.exports - {v}, gone := w.gone + {(v, n)}, exporters := w.exporters[n := Idle])
      else w.(exporters := w.exporters[n := Idle])
    case Restart(n) => w.(exporters := w.exporters[n := Idle])
    case RestartManager => w.(sharer := Free, attacher := Away)
  }

  // ------------------------------------------------ deletion, for every volume

  /** What `n` holds of `v` in flight is an earlier state of it, and its present one if the version is the same. */
  ghost predicate Copy(w: World, v: Vol, n: Node, e: Export) {
    && e.node == n && e.version <= w.clock
    && (v in w.exports && w.exports[v].version == e.version ==> w.exports[v] == e)
  }

  /** Once it is being deleted, it is in no row. */
  ghost predicate Without(w: World, v: Vol, e: Export, t: Table) {
    v in w.exports && w.exports[v].version == e.version && e.deleting ==> v !in t
  }

  ghost predicate CopyOk(w: World, v: Vol, n: Node) {
    match At(w, n)
    case Idle => true
    case Got(u, e) => u == v ==> Copy(w, v, n, e)
    case Listed(u, e, rows, _) => u == v ==> Copy(w, v, n, e) && Without(w, v, e, rows)
    case Applied(u, e) => u == v ==> Copy(w, v, n, e) && Without(w, v, e, TableOf(w, n))
  }

  ghost predicate GoneOk(w: World, v: Vol, n: Node) {
    (v, n) in w.gone ==> v !in w.exports && v !in TableOf(w, n) && (At(w, n).Listed? ==> v !in At(w, n).rows)
  }

  /** The steps that leave the exports, the tables and the exporters alone. */
  predicate Elsewhere(a: Action) {
    || a.WriteShare? || a.PatchRequest? || a.DropShare?
    || a.ReadShare? || a.PatchShare? || a.PatchPending? || a.RestartManager?
  }

  ghost predicate LocalOk(w: World, v: Vol, n: Node) {
    && (v in w.exports ==> w.exports[v].version <= w.clock)
    && CopyOk(w, v, n) && GoneOk(w, v, n)
  }

  lemma RenderLocal(w: World, m: Node, v: Vol, n: Node)
    requires Enabled(w, Render(m)) && LocalOk(w, v, n)
    ensures LocalOk(Do(w, Render(m)), v, n)
  {
  }

  lemma CollectLocal(w: World, u: Vol, v: Vol, n: Node)
    requires Enabled(w, Collect(u)) && LocalOk(w, v, n)
    ensures LocalOk(Do(w, Collect(u)), v, n)
  {
  }

  lemma RemoveFinalizerLocal(w: World, m: Node, v: Vol, n: Node)
    requires Enabled(w, RemoveFinalizer(m)) && LocalOk(w, v, n)
    ensures LocalOk(Do(w, RemoveFinalizer(m)), v, n)
  {
  }

  /** The exporters' steps that do not remove an object. */
  lemma ReadLocal(w: World, a: Action, v: Vol, n: Node)
    requires Enabled(w, a) && LocalOk(w, v, n) && (a.Get? || a.AddFinalizer? || a.List?)
    ensures LocalOk(Do(w, a), v, n)
  {
  }

  lemma ElsewhereLocal(w: World, a: Action, v: Vol, n: Node)
    requires Enabled(w, a) && LocalOk(w, v, n) && Elsewhere(a)
    ensures LocalOk(Do(w, a), v, n)
  {
  }

  lemma WriteLocal(w: World, a: Action, v: Vol, n: Node)
    requires Enabled(w, a) && LocalOk(w, v, n)
    requires a.MarkInvalid? || a.Apply? || a.MarkExported? || a.MarkError? || a.Restart?
    ensures LocalOk(Do(w, a), v, n)
  {
  }

  lemma DeletionStep(w: World, a: Action, v: Vol, n: Node)
    requires Enabled(w, a) && LocalOk(w, v, n)
    ensures LocalOk(Do(w, a), v, n)
  {
    match a
    case Render(m) => RenderLocal(w, m, v, n);
    case Collect(u) => CollectLocal(w, u, v, n);
    case RemoveFinalizer(m) => RemoveFinalizerLocal(w, m, v, n);
    case _ =>
      if a.Get? || a.AddFinalizer? || a.List? { ReadLocal(w, a, v, n); }
      else if a.MarkInvalid? || a.Apply? || a.MarkExported? || a.MarkError? || a.Restart? { WriteLocal(w, a, v, n); }
      else { ElsewhereLocal(w, a, v, n); }
  }

  // -------------------------------------------------------------------- whole runs

  datatype Run = Start(w: World) | Then(before: Run, a: Action)

  /** No share, no export and nobody at work; the tables hold whatever they held. */
  ghost predicate Init(w: World) {
    w == World(map[], map[], w.tables, 0, {}, {}, map[], Free, Away)
  }

  ghost predicate Legal(r: Run) {
    match r
    case Start(w) => Init(w)
    case Then(before, a) => Legal(before)
  }

  ghost function Step(w: World, a: Action): World {
    if Enabled(w, a) then Do(w, a) else w
  }

  /** A step that is not enabled does nothing. */
  ghost function End(r: Run): World {
    match r
    case Start(w) => w
    case Then(before, a) => Step(End(before), a)
  }

  lemma {:induction false} RunLocal(r: Run, v: Vol)
    requires Legal(r)
    ensures forall n :: LocalOk(End(r), v, n)
  {
    if r.Then? {
      RunLocal(r.before, v);
      forall n ensures LocalOk(End(r), v, n) {
        if Enabled(End(r.before), r.a) { DeletionStep(End(r.before), r.a, v, n); }
      }
    }
  }

  /** The export of `v` disappeared from `n` with its finalizer set, and was not made again since. */
  ghost predicate Vanished(r: Run, v: Vol, n: Node) {
    && r.Then? && v !in End(r).exports
    && (Vanished(r.before, v, n)
        || (v in End(r.before).exports && End(r.before).exports[v].finalizer && End(r.before).exports[v].node == n))
  }

  lemma VanishingStep(w: World, a: Action, v: Vol)
    requires v in w.exports && w.exports[v].finalizer && v !in Step(w, a).exports
    requires forall n :: LocalOk(w, v, n)
    ensures (v, w.exports[v].node) in Step(w, a).gone
  {
    assert Enabled(w, a) && a.RemoveFinalizer?;
    assert LocalOk(w, v, a.n);
  }

  lemma GoneStays(w: World, a: Action, v: Vol, n: Node)
    requires (v, n) in w.gone && v !in Step(w, a).exports
    ensures (v, n) in Step(w, a).gone
  {
  }

  lemma {:induction false} VanishedIsGone(r: Run, v: Vol, n: Node)
    requires Legal(r) && Vanished(r, v, n)
    ensures (v, n) in End(r).gone
  {
    if Vanished(r.before, v, n) {
      VanishedIsGone(r.before, v, n);
      GoneStays(End(r.before), r.a, v, n);
    } else {
      RunLocal(r.before, v);
      VanishingStep(End(r.before), r.a, v);
    }
  }

  /** Whatever else is rendered, restarted or moved meanwhile: from the moment the object of an
      export with a finalizer is gone, its node does not serve it. */
  lemma DeletedIsUnexported(r: Run, v: Vol, n: Node)
    requires Legal(r) && Vanished(r, v, n)
    ensures v !in TableOf(End(r), n)
  {
    VanishedIsGone(r, v, n);
    RunLocal(r, v);
    assert LocalOk(End(r), v, n);
  }
}
