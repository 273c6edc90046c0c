/** Two picks that overtake each other. Each of the two controllers promotes what it read to be a
    dependent; with the promote of the other in between, the second hits a live volume. */
module Collision {
  import opened Pool
  import opened Detach
  import opened Lifecycle
  import opened Reach

  /** `x` hangs off `c`, that off the terminating `y`, and that off the directly cloned `p`. */
  ghost predicate Knotted(w: World, p: Name, y: Name, c: Name, x: Name) {
    && Bare(w, p) && Underway(w, y) && Live(w, c) && Live(w, x) && p != c && p != x && c != x
    && Hangs(w, y, p) && Hangs(w, c, y) && Hangs(w, x, c)
  }

  lemma BareIsHarmed(w: World, p: Name, c: Name)
    requires Inv(w) && Bare(w, p) && Hangs(w, c, p)
    ensures !ObjectOk(w.(ds := Promoted(w.ds, Home(w, c))), p)
  {
    assert ObjectOk(w, p);
    HeldIsNotReleased(w, p);
    assert w.ds[Home(w, c)].origin.value.short in w.ds[Home(w, p)].snaps;
    UntameIsLost(w, Home(w, c), p);
  }

  /** `c` is deleted, and its dependent `x` promoted; then `x` is deleted. */
  ghost predicate Crossing(w: World, w1: World, w2: World, w3: World, c: Name, x: Name) {
    Deletes(w, c, w1) && Next(w1, PromoteAway(c, Home(w, x)), w2) && Deletes(w2, x, w3)
  }

  /** Now `c` hangs off `x`, and both deletes may have it in hand. */
  ghost predicate Crossed(w: World, p: Name, y: Name, c: Name, x: Name) {
    && Underway(w, x) && Underway(w, y) && Bare(w, p) && p != c && p != x && c != x && y != c
    && Hangs(w, c, x) && Hangs(w, x, y) && Hangs(w, y, p)
  }

  lemma ChainStays(w: World, c: Name, w': World, p: Name, y: Name, g: Name, h: Name, k: Name)
    requires Begun(w, c, w') && Bare(w, p) && Underway(w, y) && p != c && y != c
    requires Hangs(w, y, p) && Hangs(w, g, y) && Hangs(w, h, k)
    ensures Bare(w', p) && Underway(w', y) && Hangs(w', y, p) && Hangs(w', g, y) && Hangs(w', h, k)
  {
    BegunBare(w, c, w', p);
    BegunUnderway(w, c, w', y);
    BegunHangs(w, c, w', y, p);
    BegunHangs(w, c, w', g, y);
    BegunHangs(w, c, w', h, k);
  }

  lemma CrossOnce(w0: World, w: World, p: Name, y: Name, c: Name, x: Name) returns (w': World)
    requires Reached(w0, w) && Bare(w, p) && Underway(w, y) && Underway(w, c)
    requires p != c && p != x && c != x && x != y && y != c
    requires Hangs(w, y, p) && Hangs(w, c, y) && Hangs(w, x, c)
    ensures Next(w, PromoteAway(c, Home(w, x)), w') && Reached(w0, w') && w' == w.(ds := w'.ds)
    ensures Bare(w', p) && Underway(w', y) && Hangs(w', c, x) && Hangs(w', x, y) && Hangs(w', y, p)
  {
    w' := Away(w0, w, c, x);
    SwapHangs(w, w', x, c, y);
    SwapLeaves(w, w', x, c, y, p);
    SwapBare(w, w', x, c, p);
    SwapUnderway(w0, w, w', x, c, y);
  }

  lemma Cross(w0: World, w: World, p: Name, y: Name, c: Name, x: Name) returns (w1: World, w2: World, w3: World)
    requires Reached(w0, w) && Knotted(w, p, y, c, x)
    ensures Crossing(w, w1, w2, w3, c, x) && Reached(w0, w3) && Crossed(w3, p, y, c, x) && w3.base == w.base
  {
    w1 := LetGo(w0, w, c);
    ChainStays(w, c, w1, p, y, c, x, c);
    w2 := CrossOnce(w0, w1, p, y, c, x);
    w3 := LetGo(w0, w2, x);
    ChainStays(w2, x, w3, p, y, x, c, x);
  }

  lemma LateIsTheSame(w0: World, w: World, x: Name, c: Name, w': World)
    requires Reached(w0, w) && Next(w, PromoteAway(x, Home(w, c)), w')
    ensures Next(w, PromoteLate(Home(w, c)), w')
  {
    ReachedIsFine(w0, w);
    NeverConflicts(w, Home(w, c));
  }

  /** Then the delete of `y` promotes `c`, late, and once more; `c` has come to hang off `p`. */
  lemma Recross(w0: World, w: World, p: Name, y: Name, c: Name, x: Name) returns (w': World, w'': World)
    requires Reached(w0, w) && Crossed(w, p, y, c, x)
    ensures Next(w, PromoteLate(Home(w, c)), w') && Next(w', PromoteAway(y, Home(w, c)), w'')
    ensures Reached(w0, w'') && w''.base == w.base && Bare(w'', p) && Hangs(w'', c, p)
  {
    w' := Away(w0, w, x, c);
    LateIsTheSame(w0, w, x, c, w');
    SwapUnderway(w0, w, w', c, x, y);
    SwapHangs(w, w', c, x, y);
    SwapLeaves(w, w', c, x, y, p);
    SwapBare(w, w', c, x, p);
    w'' := Away(w0, w', y, c);
    SwapHangs(w', w'', c, y, p);
    SwapBare(w', w'', c, y, p);
  }

  /** While the delete of `y` waits to promote `c`, `c` comes to hang off `x`, whose delete now waits to
      promote it too. The one for `y` goes first; the one for `x` then takes the live `p` apart. */
  lemma TwoPicksCollide(w0: World, w: World, p: Name, y: Name, c: Name, x: Name)
    returns (w1: World, w2: World, w3: World, w4: World, w5: World)
    requires Reached(w0, w) && Knotted(w, p, y, c, x)
    ensures Underway(w, y) && Dependent(w.ds, Home(w, y), Home(w, c))
    ensures Crossing(w, w1, w2, w3, c, x)
    ensures Underway(w3, x) && Dependent(w3.ds, Home(w, x), Home(w, c))
    ensures Next(w3, PromoteLate(Home(w, c)), w4) && Next(w4, PromoteAway(y, Home(w, c)), w5)
    ensures Reached(w0, w5) && Live(w5, p) && IsClone(w5.ds, Home(w, c))
    ensures !ObjectOk(w5.(ds := Promoted(w5.ds, Home(w, c))), p)
  {
    w1, w2, w3 := Cross(w0, w, p, y, c, x);
    w4, w5 := Recross(w0, w3, p, y, c, x);
    ReachedIsFine(w0, w5);
    BareIsHarmed(w5, p, c);
  }

  // ---------------------------------------------------------- it is reachable

  /** A snapshot whose dataset was promoted is on it. */
  lemma SwapBrings(w0: World, w: World, w': World, y: Name, e: Name)
    requires Reached(w0, w) && Swaps(w, w', y, e) && Live(w, y) && w.objs[y].CsiSnapshot?
    ensures Exists(w'.ds, SnapRef(Home(w, y), Direct(y)))
  {
    ReachedIsFine(w0, w);
    assert ObjectOk(w, y);
  }

  /** A directly cloned volume `p`, and a clone `v` of it with a snapshot `y`. */
  lemma Chain(w0: World, q: Name, p: Name, v: Name, y: Name) returns (w: World)
    requires Init(w0) && q.text != "" && p.text != "" && v.text != "" && "csi-snap-" < y.text
    requires q != p && q != v && q != y && p != v && p != y && v != y
    ensures Reached(w0, w) && w.used == {q, p, v, y}
    ensures Bare(w, p) && Live(w, v) && Live(w, y) && w.objs[y].CsiSnapshot? && Hangs(w, v, p) && Hangs(w, y, v)
  {
    w := First(w0, q);
    w := NewClone(w0, w, p, q);
    w := NewClone(w0, w, v, p);
    w := NewSnapshot(w0, w, y, v);
  }

  /** `v` is deleted, and its snapshot promoted. */
  lemma Detached(w0: World, w: World, p: Name, v: Name, y: Name) returns (w': World)
    requires Reached(w0, w) && Bare(w, p) && Live(w, v) && Live(w, y) && w.objs[y].CsiSnapshot?
    requires Hangs(w, v, p) && Hangs(w, y, v) && p != v && y != v && y != p
    ensures Reached(w0, w') && w'.used == w.used && Bare(w', p) && Live(w', y) && w'.objs[y].CsiSnapshot?
    ensures Hangs(w', y, p) && Exists(w'.ds, SnapRef(Home(w', y), Direct(y)))
  {
    var w1 := LetGo(w0, w, v);
    BegunHangs(w, v, w1, v, p);
    BegunHangs(w, v, w1, y, v);
    BegunBare(w, v, w1, p);
    w' := Away(w0, w1, v, y);
    SwapHangs(w1, w', y, v, p);
    SwapBare(w1, w', y, v, p);
    SwapBrings(w0, w1, w', y, v);
  }

  /** From every empty world, with any names, a run leads to where two picks collide. */
  lemma KnotIsReached(w0: World, q: Name, p: Name, v: Name, y: Name, c: Name, x: Name) returns (w: World)
    requires Init(w0) && "csi-snap-" < y.text
    requires q.text != "" && p.text != "" && v.text != "" && c.text != "" && x.text != ""
    requires |{q, p, v, y, c, x}| == 6
    ensures Reached(w0, w) && Knotted(w, p, y, c, x)
  {
    w := Chain(w0, q, p, v, y);
    w := Detached(w0, w, p, v, y);
    w := NewRestore(w0, w, c, y, y);
    w := NewClone(w0, w, x, c);
    var w' := LetGo(w0, w, y);
    BegunBare(w, y, w', p);
    BegunHangs(w, y, w', y, p);
    BegunHangs(w, y, w', c, y);
    BegunHangs(w, y, w', x, c);
    w := w';
  }
}
