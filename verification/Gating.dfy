/** Generation gating: what a status that claims the current generation says of the node's table,
    in every interleaving of the attach, share and export reconcilers, and when it says nothing. */
module Gating {
  import opened Exports

  /** `t` serves `v` to `allow` and to nobody else. */
  ghost predicate Row(t: Table, v: Vol, allow: set<Node>) {
    if allow == {} then v !in t else v in t && t[v] == allow
  }

  /** `v` is served just as its export says, and its node is not about to change that. */
  ghost predicate Live(w: World, v: Vol) {
    && v in w.exports
    && var e := w.exports[v];
    && Row(TableOf(w, e.node), v, e.allow)
    && (At(w, e.node).Listed? ==> Row(At(w, e.node).rows, v, e.allow))
  }

  /** A share made from an earlier state of itself can only be stale in its generation. */
  ghost predicate Earlier(s: Share, now: Share) {
    s.gen <= now.gen && now.observed <= s.gen && (s.gen == now.gen ==> s.allow == now.allow)
  }

  /** Served, to whom the share says, and the share reconciler is not about to say otherwise. */
  ghost predicate Settled(w: World, v: Vol)
    requires v in w.shares
  {
    && Live(w, v) && w.exports[v].allow == w.shares[v].allow
    && (!w.sharer.Free? && w.sharer.v == v ==> w.sharer.s.allow == w.shares[v].allow)
  }

  /** `patched`: the status was written since the export was last pinned to another node. `trusted`: so it
      was when the attach reconciler wrote the share, and the export was not pinned elsewhere since. */
  ghost predicate ShareOk(w: World, v: Vol, patched: bool, trusted: bool)
    requires v in w.shares
  {
    && w.shares[v].observed <= w.shares[v].gen
    && (ShareReady(w.shares[v]) && patched ==> Settled(w, v))
    && (!w.sharer.Free? && w.sharer.v == v ==> Earlier(w.sharer.s, w.shares[v]))
    && (w.sharer.Rendered? && w.sharer.v == v ==>
          v in w.exports && w.exports[v].allow == w.sharer.s.allow && (w.sharer.ready ==> Live(w, v)))
    && (w.attacher.Wrote? && w.attacher.v == v ==>
          w.attacher.allow == w.shares[v].allow && (w.attacher.ready && trusted ==> Settled(w, v)))
  }

  /** What `t` says of `v` is right if the export has not changed since `c`, or claims to be observed. */
  ghost predicate Reflects(e: Export, v: Vol, c: Export, t: Table) {
    e.gen == c.gen || e.observed == e.gen ==> Row(t, v, e.allow)
  }

  /** `c` is an earlier state of `e`: of the same spec if of the same generation, and then no
      exporter marked it Exported since. */
  ghost predicate Before(c: Export, e: Export) {
    c.gen <= e.gen && (c.gen == e.gen ==> c.allow == e.allow && (e.phase.Exported? ==> c.phase.Exported?))
  }

  ghost predicate Holds(w: World, n: Node, v: Vol) {
    !At(w, n).Idle? && At(w, n).v == v
  }

  /** What an exporter that the export left behind has in hand can do no harm: it will not mark it Exported. */
  ghost predicate Disarmed(c: Export) {
    c.phase.Exported? || c.allow == {} || !c.finalizer
  }

  /** An exporter, at `m`, that got the export of `v` or lists it as invalid. */
  ghost predicate HolderOk(w: World, v: Vol, m: Node) {
    && (Holds(w, m, v) ==>
          && v in w.shares.Keys + w.buried && (!At(w, m).Got? ==> At(w, m).e.finalizer)
          && (v in w.shares ==>
                && v in w.exports && !At(w, m).e.deleting && At(w, m).e.gen <= w.exports[v].gen
                && (m != w.exports[v].node ==> At(w, m).e.gen < w.exports[v].gen && Disarmed(At(w, m).e))))
    && (At(w, m).Listed? && v in At(w, m).bad ==>
          && v in w.shares.Keys + w.buried
          && (v in w.shares ==>
                && v in w.exports && At(w, m).bad[v].gen <= w.exports[v].gen
                && (m != w.exports[v].node ==> At(w, m).bad[v].gen < w.exports[v].gen)))
  }

  ghost predicate ExportOk(w: World, v: Vol)
    requires v in w.exports
  {
    var e := w.exports[v];
    var x := At(w, e.node);
    && !e.deleting && e.observed <= e.gen && (ExportReady(e) ==> Live(w, v))
    && (Holds(w, e.node, v) ==>
          && Before(x.e, e)
          && (x.Listed? ==> Reflects(e, v, x.e, x.rows))
          && (x.Applied? ==> Reflects(e, v, x.e, TableOf(w, e.node))))
    && (x.Listed? && v in x.bad ==> Before(x.bad[v], e) && (x.bad[v].gen == e.gen ==> e.allow == {} && v !in x.rows))
  }

  /** All of it. */
  ghost predicate Gate(w: World, v: Vol, patched: bool, trusted: bool) {
    && (v in w.exports || (!w.sharer.Free? && w.sharer.v == v) ==> v in w.shares.Keys + w.buried)
    && w.shares.Keys !! w.buried
    && (w.attacher.Wrote? ==> w.attacher.v in w.shares)
    && (v in w.shares ==> ShareOk(w, v, patched, trusted) && (v in w.exports ==> ExportOk(w, v)))
  }

  /** The pool has moved: the export of `v` is pinned to another node. */
  predicate Repins(w: World, a: Action, v: Vol) {
    Enabled(w, a) && a.Render? && w.sharer.v == v && v in w.exports && w.exports[v].node != a.n
  }

  /** The status of the share of `v` is written. */
  predicate Patches(w: World, a: Action, v: Vol) {
    Enabled(w, a) && (a.PatchShare? || a.PatchPending?) && w.sharer.v == v
  }

  /** While the share exists: when the export is pinned elsewhere no exporter left behind is about to mark it, and
      nobody deletes it by hand. */
  ghost predicate Careful(w: World, a: Action, v: Vol) {
    && (Repins(w, a, v) && v in w.shares ==> forall m :: m != a.n && Holds(w, m, v) ==> Disarmed(At(w, m).e))
    && (a == Collect(v) ==> v !in w.shares)
  }

  ghost predicate PatchedAfter(w: World, a: Action, v: Vol, patched: bool) {
    !Repins(w, a, v) && (Patches(w, a, v) || patched)
  }

  ghost predicate TrustedAfter(w: World, a: Action, v: Vol, patched: bool, trusted: bool) {
    !Repins(w, a, v) && if Enabled(w, a) && a.WriteShare? && a.v == v then patched else trusted
  }

  lemma RenderOther(w: World, a: Action, v: Vol, p: bool, t: bool)
    requires Enabled(w, a) && Gate(w, v, p, t) && a.Render? && w.sharer.v != v
    ensures Gate(Do(w, a), v, p, t)
  {
    assert v in w.exports ==> Do(w, a).exports[v] == w.exports[v];
  }

  lemma RenderShare(w: World, a: Action, v: Vol, p: bool, t: bool)
    requires Enabled(w, a) && Gate(w, v, p, t) && a.Render? && w.sharer.v == v && v in w.shares
    ensures ShareOk(Do(w, a), v, PatchedAfter(w, a, v, p), TrustedAfter(w, a, v, p, t))
  {
  }

  lemma RenderExport(w: World, a: Action, v: Vol, p: bool, t: bool)
    requires Enabled(w, a) && Gate(w, v, p, t) && a.Render? && HolderOk(w, v, a.n) && w.sharer.v == v && v in w.shares
    ensures ExportOk(Do(w, a), v)
  {
  }

  lemma RenderGate(w: World, a: Action, v: Vol, p: bool, t: bool)
    requires Enabled(w, a) && Gate(w, v, p, t) && a.Render? && Careful(w, a, v) && HolderOk(w, v, a.n)
    ensures Gate(Do(w, a), v, PatchedAfter(w, a, v, p), TrustedAfter(w, a, v, p, t))
  {
    if w.sharer.v != v {
      RenderOther(w, a, v, p, t);
    } else if v in w.shares {
      RenderShare(w, a, v, p, t);
      RenderExport(w, a, v, p, t);
    }
  }

  lemma ListGate(w: World, a: Action, v: Vol, p: bool, t: bool)
    requires Enabled(w, a) && Gate(w, v, p, t) && a.List? && HolderOk(w, v, a.n)
    ensures Gate(Do(w, a), v, PatchedAfter(w, a, v, p), TrustedAfter(w, a, v, p, t))
  {
  }

  /** A step of an exporter that writes at most the status or the finalizer of `v`. */
  ghost predicate StatusOnly(w: World, w': World, v: Vol) {
    && w' == w.(exports := w'.exports, exporters := w'.exporters, clock := w'.clock)
    && (v in w'.exports <==> v in w.exports)
    && (v in w.exports ==>
          && var e, e' := w.exports[v], w'.exports[v];
          && e'.gen == e.gen && e'.node == e.node && e'.allow == e.allow && e'.deleting == e.deleting
          && (At(w', e.node).Listed? ==> At(w, e.node).Listed? && At(w', e.node).rows == At(w, e.node).rows))
  }

  lemma StatusLive(w: World, w': World, v: Vol)
    requires StatusOnly(w, w', v) && Live(w, v)
    ensures Live(w', v)
  {
  }

  lemma StatusGate(w: World, w': World, v: Vol, p: bool, t: bool)
    requires StatusOnly(w, w', v) && Gate(w, v, p, t) && (v in w.shares && v in w.exports ==> ExportOk(w', v))
    ensures Gate(w', v, p, t)
  {
    if v in w.exports && Live(w, v) { StatusLive(w, w', v); }
  }

  lemma WritesStatusOnly(w: World, a: Action, v: Vol)
    requires Enabled(w, a)
    requires (a.AddFinalizer? && LocalOk(w, v, a.n)) || a.MarkInvalid? || a.MarkExported? || a.MarkError?
    ensures StatusOnly(w, Do(w, a), v)
  {
  }

  lemma AddFinalizerExport(w: World, a: Action, v: Vol)
    requires Enabled(w, a) && a.AddFinalizer? && HolderOk(w, v, a.n) && LocalOk(w, v, a.n)
    requires v in w.shares && v in w.exports && ExportOk(w, v)
    ensures ExportOk(Do(w, a), v)
  {
    if Live(w, v) {
      WritesStatusOnly(w, a, v);
      StatusLive(w, Do(w, a), v);
    }
  }

  lemma AddFinalizerGate(w: World, a: Action, v: Vol, p: bool, t: bool)
    requires Enabled(w, a) && Gate(w, v, p, t) && a.AddFinalizer? && HolderOk(w, v, a.n) && LocalOk(w, v, a.n)
    ensures Gate(Do(w, a), v, PatchedAfter(w, a, v, p), TrustedAfter(w, a, v, p, t))
  {
    if v in w.shares && v in w.exports { AddFinalizerExport(w, a, v); }
    WritesStatusOnly(w, a, v);
    StatusGate(w, Do(w, a), v, p, t);
  }

  lemma MarkInvalidExport(w: World, a: Action, v: Vol)
    requires Enabled(w, a) && a.MarkInvalid? && HolderOk(w, v, a.n) && v in w.shares && v in w.exports && ExportOk(w, v)
    ensures ExportOk(Do(w, a), v)
  {
    if Live(w, v) {
      WritesStatusOnly(w, a, v);
      StatusLive(w, Do(w, a), v);
    }
  }

  lemma MarkExportedExport(w: World, a: Action, v: Vol)
    requires Enabled(w, a) && a.MarkExported? && HolderOk(w, v, a.n) && v in w.shares && v in w.exports
    requires ExportOk(w, v)
    ensures ExportOk(Do(w, a), v)
  {
    if Live(w, v) {
      WritesStatusOnly(w, a, v);
      StatusLive(w, Do(w, a), v);
    }
  }

  lemma MarkErrorExport(w: World, a: Action, v: Vol)
    requires Enabled(w, a) && a.MarkError? && HolderOk(w, v, a.n) && v in w.shares && v in w.exports && ExportOk(w, v)
    ensures ExportOk(Do(w, a), v)
  {
    if Live(w, v) {
      WritesStatusOnly(w, a, v);
      StatusLive(w, Do(w, a), v);
    }
  }

  lemma MarkGate(w: World, a: Action, v: Vol, p: bool, t: bool)
    requires Enabled(w, a) && Gate(w, v, p, t) && (a.MarkInvalid? || a.MarkExported? || a.MarkError?)
    requires HolderOk(w, v, a.n)
    ensures Gate(Do(w, a), v, PatchedAfter(w, a, v, p), TrustedAfter(w, a, v, p, t))
  {
    if v in w.shares && v in w.exports {
      if a.MarkInvalid? { MarkInvalidExport(w, a, v); }
      else if a.MarkExported? { MarkExportedExport(w, a, v); }
      else { MarkErrorExport(w, a, v); }
    }
    WritesStatusOnly(w, a, v);
    StatusGate(w, Do(w, a), v, p, t);
  }

  /** A step that leaves `v` alone, and at most sends its node's exporter back to the start. */
  lemma GateFrame(w: World, w': World, v: Vol, p: bool, t: bool)
    requires Gate(w, v, p, t)
    requires w' == w.(exports := w'.exports, exporters := w'.exporters, gone := w'.gone, clock := w'.clock)
    requires v in w.shares ==> (v in w'.exports <==> v in w.exports)
    requires v in w.shares && v in w.exports ==> w'.exports[v] == w.exports[v]
    requires v in w'.exports ==> v in w.exports
    requires v in w.exports ==> At(w', w.exports[v].node).Idle? || At(w', w.exports[v].node) == At(w, w.exports[v].node)
    ensures Gate(w', v, p, t)
  {
  }

  lemma RemoveFinalizerGate(w: World, a: Action, v: Vol, p: bool, t: bool)
    requires Enabled(w, a) && Gate(w, v, p, t) && a.RemoveFinalizer? && HolderOk(w, v, a.n)
    ensures Gate(Do(w, a), v, PatchedAfter(w, a, v, p), TrustedAfter(w, a, v, p, t))
  {
    GateFrame(w, Do(w, a), v, p, t);
  }

  lemma CollectGate(w: World, a: Action, v: Vol, p: bool, t: bool)
    requires Enabled(w, a) && Gate(w, v, p, t) && a.Collect? && Careful(w, a, v)
    ensures Gate(Do(w, a), v, PatchedAfter(w, a, v, p), TrustedAfter(w, a, v, p, t))
  {
    GateFrame(w, Do(w, a), v, p, t);
  }

  lemma WriteShareGate(w: World, a: Action, v: Vol, p: bool, t: bool)
    requires Enabled(w, a) && Gate(w, v, p, t) && a.WriteShare?
    ensures Gate(Do(w, a), v, PatchedAfter(w, a, v, p), TrustedAfter(w, a, v, p, t))
  {
  }

  lemma ReadShareGate(w: World, a: Action, v: Vol, p: bool, t: bool)
    requires Enabled(w, a) && Gate(w, v, p, t) && a.ReadShare?
    ensures Gate(Do(w, a), v, p, t)
  {
  }

  lemma PatchGate(w: World, a: Action, v: Vol, p: bool, t: bool)
    requires Enabled(w, a) && Gate(w, v, p, t) && (a.PatchShare? || a.PatchPending?)
    ensures Gate(Do(w, a), v, PatchedAfter(w, a, v, p), TrustedAfter(w, a, v, p, t))
  {
  }

  lemma ManagerGate(w: World, a: Action, v: Vol, p: bool, t: bool)
    requires Enabled(w, a) && Gate(w, v, p, t) && (a.PatchRequest? || a.DropShare? || a.RestartManager?)
    ensures Gate(Do(w, a), v, PatchedAfter(w, a, v, p), TrustedAfter(w, a, v, p, t))
  {
  }

  lemma ExporterGate(w: World, a: Action, v: Vol, p: bool, t: bool)
    requires Enabled(w, a) && Gate(w, v, p, t) && (a.Get? || a.Apply?) && HolderOk(w, v, a.n)
    ensures Gate(Do(w, a), v, PatchedAfter(w, a, v, p), TrustedAfter(w, a, v, p, t))
  {
  }

  lemma GateStep(w: World, a: Action, v: Vol, p: bool, t: bool)
    requires Enabled(w, a) && Careful(w, a, v) && Gate(w, v, p, t) && forall m :: HolderOk(w, v, m) && LocalOk(w, v, m)
    ensures Gate(Do(w, a), v, PatchedAfter(w, a, v, p), TrustedAfter(w, a, v, p, t))
  {
    match a
    case Render(_) => RenderGate(w, a, v, p, t);
    case AddFinalizer(_) => AddFinalizerGate(w, a, v, p, t);
    case List(_) => ListGate(w, a, v, p, t);
    case MarkInvalid(_, _) => MarkGate(w, a, v, p, t);
    case MarkExported(_) => MarkGate(w, a, v, p, t);
    case MarkError(_) => MarkGate(w, a, v, p, t);
    case RemoveFinalizer(_) => RemoveFinalizerGate(w, a, v, p, t);
    case Collect(_) => CollectGate(w, a, v, p, t);
    case Restart(_) => GateFrame(w, Do(w, a), v, p, t);
    case WriteShare(_, _) => WriteShareGate(w, a, v, p, t);
    case _ =>
      if a.ReadShare? { ReadShareGate(w, a, v, p, t); }
      else if a.PatchShare? || a.PatchPending? { PatchGate(w, a, v, p, t); }
      else if a.PatchRequest? || a.DropShare? || a.RestartManager? { ManagerGate(w, a, v, p, t); }
      else { ExporterGate(w, a, v, p, t); }
  }

  lemma RenderHolder(w: World, a: Action, v: Vol, k: Node)
    requires Enabled(w, a) && a.Render? && Careful(w, a, v) && HolderOk(w, v, k)
    ensures HolderOk(Do(w, a), v, k)
  {
  }

  /** The steps that take an export away. */
  lemma TakenHolder(w: World, a: Action, v: Vol, k: Node)
    requires Enabled(w, a) && (a.Collect? || (a.RemoveFinalizer? && HolderOk(w, v, a.n))) && Careful(w, a, v)
    requires HolderOk(w, v, k)
    ensures HolderOk(Do(w, a), v, k)
  {
  }

  lemma ExporterHolder(w: World, a: Action, v: Vol, p: bool, t: bool, k: Node)
    requires Enabled(w, a) && (a.Get? || a.List? || a.Apply? || a.Restart?) && Gate(w, v, p, t) && HolderOk(w, v, k)
    ensures HolderOk(Do(w, a), v, k)
  {
  }

  lemma MarkHolder(w: World, a: Action, v: Vol, k: Node)
    requires Enabled(w, a) && (a.MarkInvalid? || a.MarkExported? || a.MarkError?) && HolderOk(w, v, k)
    ensures HolderOk(Do(w, a), v, k)
  {
  }

  lemma AddFinalizerHolder(w: World, a: Action, v: Vol, k: Node)
    requires Enabled(w, a) && a.AddFinalizer? && HolderOk(w, v, k) && LocalOk(w, v, a.n)
    ensures HolderOk(Do(w, a), v, k)
  {
  }

  lemma ElsewhereHolder(w: World, a: Action, v: Vol, k: Node)
    requires Enabled(w, a) && Elsewhere(a) && HolderOk(w, v, k)
    ensures HolderOk(Do(w, a), v, k)
  {
  }

  lemma HolderStep(w: World, a: Action, v: Vol, p: bool, t: bool, k: Node)
    requires Enabled(w, a) && Careful(w, a, v) && Gate(w, v, p, t) && forall m :: HolderOk(w, v, m) && LocalOk(w, v, m)
    ensures HolderOk(Do(w, a), v, k)
  {
    match a
    case Render(_) => RenderHolder(w, a, v, k);
    case Collect(_) => TakenHolder(w, a, v, k);
    case RemoveFinalizer(_) => TakenHolder(w, a, v, k);
    case AddFinalizer(_) => AddFinalizerHolder(w, a, v, k);
    case _ =>
      if a.MarkInvalid? || a.MarkExported? || a.MarkError? { MarkHolder(w, a, v, k); }
      else if Elsewhere(a) { ElsewhereHolder(w, a, v, k); }
      else { ExporterHolder(w, a, v, p, t, k); }
  }

  // -------------------------------------------------------------------- whole runs

  /** Whenever the pool of `v` moves no exporter left behind is about to mark the export, and nobody deletes it
      by hand while its share exists. */
  ghost predicate Calm(r: Run, v: Vol) {
    r.Start? || (Calm(r.before, v) && Careful(End(r.before), r.a, v))
  }

  /** The status of the share of `v` was written since its pool last moved. */
  ghost predicate Patched(r: Run, v: Vol) {
    r.Start? || PatchedAfter(End(r.before), r.a, v, Patched(r.before, v))
  }

  /** So it was when the share of `v` was last written, and the pool has not moved since. */
  ghost predicate Trusted(r: Run, v: Vol) {
    r.Start? || TrustedAfter(End(r.before), r.a, v, Patched(r.before, v), Trusted(r.before, v))
  }

  lemma {:induction false} RunGate(r: Run, v: Vol)
    requires Legal(r) && Calm(r, v)
    ensures Gate(End(r), v, Patched(r, v), Trusted(r, v)) && forall m :: HolderOk(End(r), v, m)
  {
    if r.Then? {
      var w, p, t := End(r.before), Patched(r.before, v), Trusted(r.before, v);
      RunGate(r.before, v);
      RunLocal(r.before, v);
      if Enabled(w, r.a) {
        GateStep(w, r.a, v, p, t);
        forall m ensures HolderOk(End(r), v, m) { HolderStep(w, r.a, v, p, t, m); }
      }
    }
  }

  /** In every interleaving, wherever the pool was before: a share that is Bound for its current generation,
      by a status written since its pool last moved, is served by the node its export is pinned to, to
      exactly the nodes it allows. */
  lemma BoundIsServed(r: Run, v: Vol)
    requires Legal(r) && Calm(r, v) && Patched(r, v) && v in End(r).shares && ShareReady(End(r).shares[v])
    ensures v in End(r).exports && Row(TableOf(End(r), End(r).exports[v].node), v, End(r).shares[v].allow)
  {
    RunGate(r, v);
  }

  /** A request is made Ready only while the share allows just what was written for it, and is served to just those. */
  lemma ReadyIsServed(r: Run, v: Vol)
    requires Legal(r) && Calm(r, v) && Trusted(r, v) && End(r).attacher.Wrote? && End(r).attacher.v == v
    requires End(r).attacher.ready
    ensures v in End(r).shares && End(r).shares[v].allow == End(r).attacher.allow
    ensures v in End(r).exports && Row(TableOf(End(r), End(r).exports[v].node), v, End(r).attacher.allow)
  {
    RunGate(r, v);
  }
}
