/** Where the conditions of generation gating are needed: runs that lead from every state that breaks
    one of them to a share that is Bound for its current generation and is not served. */
module OpenGate {
  import opened Exports
  import opened Gating

  /** `r'` goes on from `r`. */
  ghost predicate Continues(r': Run, r: Run) {
    r' == r || (r'.Then? && Continues(r'.before, r))
  }

  lemma Go(base: Run, r: Run, a: Action) returns (r': Run)
    requires Legal(r) && Continues(r, base) && Enabled(End(r), a)
    ensures Legal(r') && Continues(r', base) && r' == Then(r, a) && End(r') == Do(End(r), a)
    ensures forall v :: Patched(r', v) <==> PatchedAfter(End(r), a, v, Patched(r, v))
    ensures forall v :: Calm(r, v) && Careful(End(r), a, v) ==> Calm(r', v)
  {
    r' := Then(r, a);
  }

  /** The share of `v` is Bound for its generation, and the node its export is pinned to does not serve it. */
  ghost predicate Open(w: World, v: Vol) {
    && v in w.shares && ShareReady(w.shares[v])
    && !(v in w.exports && Row(TableOf(w, w.exports[v].node), v, w.shares[v].allow))
  }

  // ------------------------------------------------------------ no status since the move

  /** Between a move of the pool and the next status the gate is open: from every bound share, it is still Bound
      for its current generation while the export is already pinned to a node that does not serve it. */
  lemma PoolMoveOpensTheGate(r: Run, v: Vol, b: Node) returns (r': Run)
    requires Legal(r) && v in End(r).shares && ShareReady(End(r).shares[v]) && End(r).sharer.Free?
    requires v in End(r).exports && End(r).exports[v].node != b && !Row(TableOf(End(r), b), v, End(r).shares[v].allow)
    ensures Legal(r') && r' == Then(Then(r, ReadShare(v)), Render(b)) && !Patched(r', v) && Open(End(r'), v)
  {
    r' := Go(r, r, ReadShare(v));
    r' := Go(r, r', Render(b));
  }

  // ------------------------------------------------------- an exporter that is left behind

  /** What the steps of `n` alone leave as it is: all but the status and the finalizer of `v`. */
  ghost predicate OnlyBy(w: World, w': World, n: Node, v: Vol) {
    && w'.shares == w.shares && w'.sharer == w.sharer && w'.attacher == w.attacher && w'.buried == w.buried
    && (forall k :: k != n ==> At(w', k) == At(w, k) && TableOf(w', k) == TableOf(w, k))
    && v in w.exports && v in w'.exports
    && var e, e' := w.exports[v], w'.exports[v];
    && e' == e.(version := e'.version, phase := e'.phase, observed := e'.observed, finalizer := e'.finalizer)
  }

  lemma FailsWith(base: Run, r: Run, v: Vol, b: Node) returns (r': Run)
    requires Legal(r) && Continues(r, base)
    requires v in End(r).exports && End(r).exports[v].node == b && !End(r).exports[v].deleting
    requires At(End(r), b).Idle? && End(r).exports[v].observed <= End(r).exports[v].gen && End(r).exports[v].finalizer
    ensures Legal(r') && Continues(r', base)
    ensures OnlyBy(End(r), End(r'), b, v) && TableOf(End(r'), b) == TableOf(End(r), b)
    ensures At(End(r'), b).Idle? && var e := End(r').exports[v]; e.phase.Failed? && e.observed == e.gen && e.finalizer
  {
    r' := Go(base, r, Get(b, v));
    r' := Go(base, r', List(b));
    r' := Go(base, r', MarkError(b));
  }

  /** Node `b`, to which the export is pinned, fails to apply it. */
  lemma Fails(base: Run, r: Run, v: Vol, b: Node) returns (r': Run)
    requires Legal(r) && Continues(r, base)
    requires v in End(r).exports && End(r).exports[v].node == b && !End(r).exports[v].deleting
    requires At(End(r), b).Idle? && End(r).exports[v].observed <= End(r).exports[v].gen
    ensures Legal(r') && Continues(r', base)
    ensures OnlyBy(End(r), End(r'), b, v) && TableOf(End(r'), b) == TableOf(End(r), b)
    ensures At(End(r'), b).Idle? && var e := End(r').exports[v]; e.phase.Failed? && e.observed == e.gen && e.finalizer
  {
    r' := r;
    if !End(r').exports[v].finalizer {
      r' := Go(base, r', Get(b, v));
      r' := Go(base, r', AddFinalizer(b));
    }
    r' := FailsWith(base, r', v, b);
  }

  /** The allow-list of `v` becomes `allow`, and the export with it; the status says that it is not ready. */
  lemma Rewrites(base: Run, r: Run, v: Vol, b: Node, allow: set<Node>) returns (r': Run)
    requires Legal(r) && Continues(r, base) && End(r).sharer.Free? && End(r).attacher.Away?
    requires v in End(r).shares && v !in End(r).buried
    requires v in End(r).exports && End(r).exports[v].node == b && End(r).exports[v].allow != allow
    requires End(r).exports[v].phase.Failed? && End(r).exports[v].observed <= End(r).exports[v].gen
    ensures Legal(r') && Continues(r', base) && var w, w' := End(r), End(r');
      && v in w'.shares && w'.shares[v].allow == allow && w'.sharer.Free?
      && v in w'.exports && var e, e' := w.exports[v], w'.exports[v];
      && e' == e.(gen := e.gen + 1, version := e'.version, allow := allow)
      && w'.tables == w.tables && w'.exporters == w.exporters
  {
    r' := Go(base, r, WriteShare(v, allow));
    r' := Go(base, r', ReadShare(v));
    r' := Go(base, r', Render(b));
    r' := Go(base, r', PatchShare);
  }

  /** `m` gets as far as marking the export, with the copy it has. */
  lemma Advances(base: Run, r: Run, v: Vol, m: Node) returns (r': Run)
    requires Legal(r) && Continues(r, base) && v in End(r).exports && Holds(End(r), m, v) && At(End(r), m).e.finalizer
    ensures Legal(r') && Continues(r', base) && OnlyBy(End(r), End(r'), m, v)
    ensures End(r').exports == End(r).exports && At(End(r'), m) == Applied(v, At(End(r), m).e)
  {
    r' := r;
    if At(End(r'), m).Got? { r' := Go(base, r', List(m)); }
    if At(End(r'), m).Listed? { r' := Go(base, r', Apply(m)); }
  }

  /** `m` marks late: its patch carries the phase. `b`, which fails once more, got the export before: its patch
      carries the generation, and not the phase, which was Error already. */
  lemma LateMark(base: Run, r: Run, v: Vol, m: Node, b: Node) returns (r': Run)
    requires Legal(r) && Continues(r, base) && v in End(r).exports && m != b
    requires var e := End(r).exports[v];
      e.node == b && !e.deleting && e.finalizer && e.phase.Failed? && e.observed < e.gen
    requires At(End(r), b).Idle? && At(End(r), m).Applied? && At(End(r), m).v == v
    requires var c := At(End(r), m).e; !c.phase.Exported? && c.allow != {} && !c.deleting
    ensures Legal(r') && Continues(r', base) && var w, w' := End(r), End(r');
      && w'.shares == w.shares && w'.sharer == w.sharer && w'.tables == w.tables
      && v in w'.exports && ExportReady(w'.exports[v])
      && w'.exports[v].node == b && w'.exports[v].allow == w.exports[v].allow
  {
    r' := Go(base, r, Get(b, v));
    r' := Go(base, r', List(b));
    r' := Go(base, r', MarkExported(m));
    r' := Go(base, r', MarkError(b));
  }

  /** The share is found ready. */
  lemma FoundReady(base: Run, r: Run, v: Vol) returns (r': Run)
    requires Legal(r) && Continues(r, base) && v in End(r).shares && v in End(r).exports && End(r).sharer.Free?
    requires ExportReady(End(r).exports[v]) && End(r).exports[v].allow == End(r).shares[v].allow
    ensures Legal(r') && Continues(r', base) && Patched(r', v)
    ensures v in End(r').shares && v in End(r').exports && ShareReady(End(r').shares[v])
    ensures End(r').shares[v].allow == End(r).shares[v].allow && End(r').exports[v].node == End(r).exports[v].node
    ensures End(r').tables == End(r).tables
  {
    r' := Go(base, r, ReadShare(v));
    r' := Go(base, r', Render(End(r).exports[v].node));
    r' := Go(base, r', PatchShare);
  }

  /** An allow-list that is neither empty nor one of two. */
  lemma Another(m: Node, b: Node, s: set<Node>, t: set<Node>) returns (allow: set<Node>)
    requires m != b
    ensures allow != {} && allow != s && allow != t
  {
    assert {m} != {b} && {m} != {m, b} && {b} != {m, b} by { assert m in {m} && b in {b} && m !in {b} && b !in {m}; }
    allow := if {m} != s && {m} != t then {m} else if {b} != s && {b} != t then {b} else {m, b};
  }

  /** The pool moves to `b` while `m`, left behind, is still going to mark the export. */
  ghost predicate LeftBehind(w: World, v: Vol, b: Node, m: Node) {
    && Repins(w, Render(b), v) && v in w.shares
    && m != b && Holds(w, m, v) && !Disarmed(At(w, m).e)
  }

  /** The move, and everybody but `m` begins again. */
  lemma Moves(r: Run, v: Vol, b: Node, m: Node) returns (r': Run)
    requires Legal(r) && Calm(r, v) && LeftBehind(End(r), v, b, m)
    ensures Legal(r') && Continues(r', Then(r, Render(b))) && var w, w' := End(r), End(r');
      && v in w'.shares && v !in w'.buried && w'.sharer.Free? && w'.attacher.Away?
      && v in w'.exports && w'.exports[v].node == b && !w'.exports[v].deleting
      && w'.exports[v].observed <= w'.exports[v].gen
      && At(w', b).Idle? && At(w', m) == At(w, m) && !At(w, m).e.deleting
  {
    RunGate(r, v);
    assert HolderOk(End(r), v, m) && ExportOk(End(r), v);
    r' := Go(r, r, Render(b));
    var base := r';
    r' := Go(base, r', RestartManager);
    r' := Go(base, r', Restart(b));
  }

  /** From every such move: the share becomes Bound for its current generation, by a status written after the
      move, while its node does not serve it. */
  lemma LeftBehindOpensTheGate(r: Run, v: Vol, b: Node, m: Node) returns (r': Run)
    requires Legal(r) && Calm(r, v) && LeftBehind(End(r), v, b, m)
    ensures Legal(r') && Continues(r', Then(r, Render(b))) && Patched(r', v) && Open(End(r'), v)
  {
    var base := Then(r, Render(b));
    r' := Moves(r, v, b, m);
    r' := Fails(base, r', v, b);
    var row := if v in TableOf(End(r'), b) then TableOf(End(r'), b)[v] else {};
    var allow := Another(m, b, End(r').exports[v].allow, row);
    r' := Rewrites(base, r', v, b, allow);
    r' := Advances(base, r', v, m);
    r' := LateMark(base, r', v, m, b);
    r' := FoundReady(base, r', v);
  }

  // --------------------------------------------------------------------- deleted by hand

  /** From every bound and served share: its export is deleted by hand, and its node stops serving it. */
  lemma HandDeleteOpensTheGate(r: Run, v: Vol) returns (r': Run)
    requires Legal(r) && Calm(r, v) && Patched(r, v)
    requires v in End(r).shares && ShareReady(End(r).shares[v]) && End(r).shares[v].allow != {}
    ensures Legal(r') && Continues(r', Then(r, Collect(v))) && Patched(r', v) && Open(End(r'), v)
  {
    BoundIsServed(r, v);
    var n := End(r).exports[v].node;
    r' := Go(r, r, Collect(v));
    var base := r';
    if v in End(r').exports {
      r' := Go(base, r', Restart(n));
      r' := Go(base, r', Get(n, v));
      r' := Go(base, r', List(n));
      r' := Go(base, r', Apply(n));
    }
  }

  /** An export that is being deleted can always go: its node has stopped serving it by then. */
  lemma DeletedCanGo(r: Run, v: Vol) returns (r': Run)
    requires Legal(r) && v in End(r).exports && End(r).exports[v].deleting && End(r).exports[v].finalizer
    ensures Legal(r') && Continues(r', r) && v !in End(r').exports
    ensures v !in TableOf(End(r'), End(r).exports[v].node)
  {
    var n := End(r).exports[v].node;
    r' := Go(r, r, Restart(n));
    r' := Go(r, r', Get(n, v));
    r' := Go(r, r', List(n));
    r' := Go(r, r', Apply(n));
    r' := Go(r, r', RemoveFinalizer(n));
  }

  /** What a listing finds wrong: the exports of the node that name no client, as they are. */
  lemma ListedAsBad(w: World, n: Node, v: Vol)
    requires Enabled(w, List(n))
    ensures At(Do(w, List(n)), n).Listed?
    ensures v in At(Do(w, List(n)), n).bad <==>
        v in w.exports && w.exports[v].node == n && !w.exports[v].deleting && w.exports[v].allow == {}
    ensures v in At(Do(w, List(n)), n).bad ==> At(Do(w, List(n)), n).bad[v] == w.exports[v]
  {
  }

  /** An export that names no client can always be told so, and its node keeps no row for it. */
  lemma NamelessIsRefused(r: Run, v: Vol) returns (r': Run)
    requires Legal(r) && v in End(r).exports && End(r).exports[v].allow == {}
    requires !End(r).exports[v].deleting && End(r).exports[v].finalizer
    ensures Legal(r') && Continues(r', r) && v in End(r').exports && End(r').exports[v].phase.Failed?
    ensures End(r').exports[v].observed == End(r).exports[v].gen
    ensures v !in TableOf(End(r'), End(r).exports[v].node)
  {
    var n := End(r).exports[v].node;
    r' := Go(r, r, Restart(n));
    r' := Go(r, r', Get(n, v));
    ListedAsBad(End(r'), n, v);
    r' := Go(r, r', List(n));
    r' := Go(r, r', MarkInvalid(n, v));
    r' := Go(r, r', Apply(n));
  }

  // ------------------------------------------------------------------ they are reached

  /** Reach `w` by one more step that is no move and no delete by hand. */
  lemma Extend(r: Run, a: Action, w: World, v: Vol) returns (r': Run)
    requires Legal(r) && Calm(r, v) && Enabled(End(r), a) && w == Do(End(r), a) && Careful(End(r), a, v)
    ensures Legal(r') && Calm(r', v) && End(r') == w
  {
    r' := Then(r, a);
  }

  lemma Finalized(r: Run, v: Vol, e: Export) returns (r': Run)
    requires Legal(r) && Calm(r, v) && End(r).exports == map[v := e]
    requires e == Export(1, 1, e.node, e.allow, Unset, 0, false, false) && End(r).clock == 1 && At(End(r), e.node).Idle?
    ensures Legal(r') && Calm(r', v) && var f := e.(finalizer := true, version := 2);
      End(r') == End(r).(exports := map[v := f], clock := 2, exporters := End(r).exporters[e.node := Got(v, f)])
  {
    var a, w := e.node, End(r);
    r' := Extend(r, Get(a, v), w.(exporters := w.exporters[a := Got(v, e)]), v);
    w := w.(exports := map[v := e.(finalizer := true, version := 2)], clock := 2, exporters := w.exporters[a := Idle]);
    r' := Extend(r', AddFinalizer(a), w, v);
    r' := Extend(r', Get(a, v), w.(exporters := w.exporters[a := Got(v, e.(finalizer := true, version := 2))]), v);
  }

  lemma OneRow(w: World, v: Vol, f: Export)
    requires w.exports == map[v := f] && f.allow != {} && !f.deleting
    ensures Rows(w, f.node) == map[v := f.allow] && Bad(w, f.node) == map[]
  {
  }

  lemma Rowed(r: Run, v: Vol, f: Export) returns (r': Run)
    requires Legal(r) && Calm(r, v) && End(r).exports == map[v := f] && f.finalizer && !f.deleting && f.allow != {}
    requires At(End(r), f.node) == Got(v, f)
    ensures Legal(r') && Calm(r', v)
    ensures End(r') == End(r).(exporters := End(r).exporters[f.node := Applied(v, f)],
                               tables := End(r).tables[f.node := map[v := f.allow]])
  {
    var a, w := f.node, End(r);
    OneRow(w, v, f);
    r' := Extend(r, List(a), w.(exporters := w.exporters[a := Listed(v, f, map[v := f.allow], map[])]), v);
    w := w.(exporters := w.exporters[a := Applied(v, f)], tables := w.tables[a := map[v := f.allow]]);
    r' := Extend(r', Apply(a), w, v);
  }

  /** A share, its export on node `a`, and `a` about to mark the export for the first time. */
  lemma FirstMark(v: Vol, a: Node, b: Node) returns (r: Run, s: Share, f: Export)
    ensures Legal(r) && Calm(r, v)
    ensures s == Share(1, {b}, false, 0) && f == Export(1, 2, a, {b}, Unset, 0, true, false)
    ensures End(r) == World(map[v := s], map[v := f], map[a := map[v := {b}]], 2, {}, {}, map[a := Applied(v, f)],
                            Rendered(v, s, false), Wrote(v, {b}, false))
  {
    var w := World(map[], map[], map[], 0, {}, {}, map[], Free, Away);
    s := Share(1, {b}, false, 0);
    var e := Export(1, 1, a, {b}, Unset, 0, false, false);
    f := e.(finalizer := true, version := 2);
    r := Extend(Start(w), WriteShare(v, {b}), w.(shares := map[v := s], attacher := Wrote(v, {b}, false)), v);
    r := Extend(r, ReadShare(v), End(r).(sharer := Read(v, s)), v);
    r := Extend(r, Render(a), End(r).(exports := map[v := e], clock := 1, sharer := Rendered(v, s, false)), v);
    r := Finalized(r, v, e);
    r := Rowed(r, v, f);
  }

  lemma Bound(r: Run, v: Vol, s: Share) returns (r': Run)
    requires Legal(r) && End(r).shares == map[v := s] && s == Share(1, s.allow, false, 0)
    requires End(r).sharer == Rendered(v, s, false)
    requires v in End(r).exports && End(r).exports[v].allow == s.allow && ExportReady(End(r).exports[v])
    ensures Legal(r') && Patched(r', v) && v in End(r').shares && End(r').shares[v] == Share(1, s.allow, true, 1)
    ensures End(r').sharer.Free? && End(r').exports == End(r).exports && End(r').tables == End(r).tables
    ensures Calm(r, v) ==> Calm(r', v)
  {
    r' := Go(r, r, PatchShare);
    r' := Go(r, r', ReadShare(v));
    r' := Go(r, r', Render(End(r).exports[v].node));
    r' := Go(r, r', PatchShare);
  }

  /** Such a bound share is reached: `v` is exported by `a` to `b`, and `b` serves nothing. */
  lemma BoundIsReached(v: Vol, a: Node, b: Node) returns (r: Run)
    requires a != b
    ensures Legal(r) && Calm(r, v) && Patched(r, v)
    ensures v in End(r).shares && ShareReady(End(r).shares[v]) && End(r).shares[v].allow != {} && End(r).sharer.Free?
    ensures v in End(r).exports && End(r).exports[v].node != b && !Row(TableOf(End(r), b), v, End(r).shares[v].allow)
  {
    var s, f;
    r, s, f := FirstMark(v, a, b);
    var w := End(r);
    f := f.(version := 3, phase := Exported, observed := 1);
    r := Extend(r, MarkExported(a), w.(exports := map[v := f], clock := 3, exporters := w.exporters[a := Idle]), v);
    r := Bound(r, v, s);
  }

  /** A request that is about to be made ready is reached: from every bound share whose status is current, the attach
      reconciler only has to write the same allow-list again. */
  lemma ReadyIsReached(r: Run, v: Vol) returns (r': Run)
    requires Legal(r) && Calm(r, v) && Patched(r, v) && v in End(r).shares && ShareReady(End(r).shares[v])
    ensures Legal(r') && Calm(r', v) && Trusted(r', v)
    ensures End(r').attacher == Wrote(v, End(r).shares[v].allow, true)
  {
    RunGate(r, v);
    r' := Go(r, r, RestartManager);
    r' := Go(r, r', WriteShare(v, End(r).shares[v].allow));
  }

  /** A move that leaves an exporter behind is reached. */
  lemma LeftBehindIsReached(v: Vol, a: Node, b: Node) returns (r: Run)
    requires a != b
    ensures Legal(r) && Calm(r, v) && LeftBehind(End(r), v, b, a)
  {
    var s, f;
    r, s, f := FirstMark(v, a, b);
    var s' := s.(observed := 1);
    r := Extend(r, PatchShare, End(r).(shares := map[v := s'], sharer := Free), v);
    r := Extend(r, ReadShare(v), End(r).(sharer := Read(v, s')), v);
  }
}
