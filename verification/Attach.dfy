/** Attach requests of one single-node volume and the share they lead to
    (internal/controller/zfsshareattachrequest_controller.go): the oldest wins. */
module Attach {
  import opened Options

  datatype Node = Node(name: string)

  /** A ZfsShareAttachRequest; `born` is its creation timestamp, in seconds. */
  datatype Request = Request(name: string, volume: string, node: Node, born: nat, terminating: bool, finalizer: bool,
    ready: bool)

  // ----------------------------------------------------------------- which is older

  /** The order of object names. */
  predicate Less(a: string, b: string) {
    b != "" && (a == "" || a[0] < b[0] || (a[0] == b[0] && Less(a[1..], b[1..])))
  }

  lemma {:induction false} LessIsTransitive(a: string, b: string, c: string)
    requires Less(a, b) && Less(b, c)
    ensures Less(a, c)
  {
    if a != "" && a[0] == b[0] && b[0] == c[0] { LessIsTransitive(a[1..], b[1..], c[1..]); }
  }

  lemma {:induction false} LessIsTotal(a: string, b: string)
    ensures (Less(a, b) || a == b || Less(b, a)) && !(Less(a, b) && Less(b, a)) && !Less(a, a)
  {
    if a != "" && b != "" {
      LessIsTotal(a[1..], b[1..]);
      LessIsTotal(a[1..], a[1..]);
      assert a == [a[0]] + a[1..] && b == [b[0]] + b[1..];
    } else if a != "" {
      LessIsTotal(a[1..], a[1..]);
    }
  }

  /** Up to `k` they are the same, and there `a` has the smaller character. */
  predicate Differ(a: string, b: string, k: nat) {
    k < |a| && k < |b| && a[..k] == b[..k] && a[k] < b[k]
  }

  /** `a` is a proper prefix of `b`, or has the smaller character where they first differ. */
  ghost predicate Sooner(a: string, b: string) {
    a < b || exists k: nat :: Differ(a, b, k)
  }

  lemma DifferByOne(c: char, a: string, b: string, k: nat)
    ensures Differ([c] + a, [c] + b, k + 1) <==> Differ(a, b, k)
  {
    if k < |a| && k < |b| {
      assert ([c] + a)[..k + 1] == [c] + a[..k] && ([c] + b)[..k + 1] == [c] + b[..k];
      assert a[..k] == ([c] + a)[..k + 1][1..] && b[..k] == ([c] + b)[..k + 1][1..];
    }
  }

  lemma SoonerByOne(c: char, a: string, b: string)
    ensures Sooner([c] + a, [c] + b) <==> Sooner(a, b)
  {
    assert [c] + a < [c] + b <==> a < b by {
      assert a == ([c] + a)[1..] && b == ([c] + b)[1..];
    }
    if k: nat :| Differ([c] + a, [c] + b, k) {
      assert k > 0;
      DifferByOne(c, a, b, k - 1);
    }
    if k: nat :| Differ(a, b, k) { DifferByOne(c, a, b, k); }
  }

  lemma {:induction false} LessIsSooner(a: string, b: string)
    ensures Less(a, b) <==> Sooner(a, b)
  {
    if a != "" && b != "" {
      assert a == [a[0]] + a[1..] && b == [b[0]] + b[1..];
      if a[0] == b[0] {
        LessIsSooner(a[1..], b[1..]);
        SoonerByOne(a[0], a[1..], b[1..]);
      } else if a[0] < b[0] {
        assert Differ(a, b, 0);
      } else {
        forall k: nat | 0 < k < |a| && k < |b| ensures a[..k] != b[..k] { assert a[..k][0] != b[..k][0]; }
      }
    }
  }

  predicate Older(a: Request, b: Request) {
    a.born < b.born || (a.born == b.born && Less(a.name, b.name))
  }

  lemma OlderIsTransitive(a: Request, b: Request, c: Request)
    requires Older(a, b) && Older(b, c)
    ensures Older(a, c)
  {
    if a.born == c.born { LessIsTransitive(a.name, b.name, c.name); }
  }

  lemma OlderIsTotal(a: Request, b: Request)
    ensures (Older(a, b) || (a.born == b.born && a.name == b.name) || Older(b, a)) && !(Older(a, b) && Older(b, a))
  {
    LessIsTotal(a.name, b.name);
  }

  predicate Active(q: Request, volume: string) {
    q.volume == volume && !q.terminating
  }

  /** `q` was made before every other active request in `list`. */
  ghost predicate Oldest(list: seq<Request>, volume: string, q: Request) {
    && q in list && Active(q, volume)
    && forall p :: p in list && Active(p, volume) && p.name != q.name ==> Older(q, p)
  }

  /** The same in so many words: nobody was made in an earlier second, and nobody of that second has a name
      that comes before. */
  ghost predicate Foremost(list: seq<Request>, volume: string, q: Request) {
    && q.volume == volume && !q.terminating
    && forall p :: p in list && p.volume == volume && !p.terminating ==>
         q.born <= p.born && (q.born == p.born ==> p.name == q.name || Sooner(q.name, p.name))
  }

  ghost predicate NamesUnique(list: seq<Request>) {
    forall i, j :: 0 <= i < j < |list| ==> list[i].name != list[j].name
  }

  lemma OldestIsForemost(list: seq<Request>, volume: string, q: Request)
    requires Oldest(list, volume, q) && NamesUnique(list)
    ensures Foremost(list, volume, q)
  {
    forall p | p in list && p.volume == volume && !p.terminating
      ensures q.born <= p.born && (q.born == p.born ==> p.name == q.name || Sooner(q.name, p.name))
    {
      LessIsSooner(q.name, p.name);
      assert p.name != q.name ==> Older(q, p);
    }
  }

  lemma WinnerOfTwo(list: seq<Request>, volume: string, q: Request, it: Request)
    requires Oldest(list, volume, q) && Active(it, volume)
    requires forall p :: p in list ==> p.name != it.name && (p.name == q.name ==> p == q)
    ensures Oldest(list + [it], volume, if Older(it, q) then it else q)
  {
    OlderIsTotal(it, q);
    forall p | p in list && Active(p, volume) && p.name != q.name && Older(it, q) ensures Older(it, p) {
      OlderIsTransitive(it, q, p);
    }
  }

  /** The winner, from the list in whatever order the API server gives it. */
  method OldestAttachNode(list: seq<Request>, volume: string) returns (node: Option<Node>)
    requires NamesUnique(list)
    ensures node.None? <==> forall q :: q in list ==> !Active(q, volume)
    ensures node.Some? ==> exists q :: Oldest(list, volume, q) && q.node == node.value
    ensures node.Some? ==> exists q :: q in list && q.node == node.value && Foremost(list, volume, q)
  {
    var oldest: Option<Request> := None;
    for i := 0 to |list|
      invariant oldest.None? <==> forall q :: q in list[..i] ==> !Active(q, volume)
      invariant oldest.Some? ==> Oldest(list[..i], volume, oldest.value)
    {
      var it := list[i];
      assert list[..i + 1] == list[..i] + [it];
      if Active(it, volume) {
        if oldest.None? {
          oldest := Some(it);
        } else {
          WinnerOfTwo(list[..i], volume, oldest.value, it);
          if it.born == oldest.value.born {
            if Less(it.name, oldest.value.name) { oldest := Some(it); }
          } else if it.born < oldest.value.born {
            oldest := Some(it);
          }
        }
      }
    }
    assert list[..|list|] == list;
    if oldest.None? { return None; }
    assert Oldest(list, volume, oldest.value);
    OldestIsForemost(list, volume, oldest.value);
    node := Some(oldest.value.node);
  }

  // ------------------------------------------------------------- the protocol

  /** Where the one worker is: on behalf of the request of `q` it has read the winner, or it has
      written the share and knows what to patch, or whether to release the finalizer. */
  datatype Worker =
    | Idle
    | Chose(q: Node, leaving: bool, winner: Option<Node>, local: bool)
    | Decided(q: Node, ready: bool)
    | Leaving(q: Node)

  /** One volume: the request of each node (one, its name is derived from volume and node),
      the node its share allows, and the worker. */
  datatype World = World(reqs: map<Node, Request>, share: Option<Node>, worker: Worker)

  datatype Action =
    | Create(r: Request)
    | AddFinalizer(n: Node)
    | Terminate(n: Node)
    | Choose(n: Node, local: bool)   // local: the winner is on the pool's own node
    | Write(bound: bool)             // bound: the share is ready for its generation
    | Patch
    | Release
    | Restart

  predicate Waiting(w: World, n: Node) {
    n in w.reqs && !w.reqs[n].terminating
  }

  ghost predicate Winner(w: World, n: Node) {
    Waiting(w, n) && forall m :: Waiting(w, m) && m != n ==> Older(w.reqs[n], w.reqs[m])
  }

  /** `a` takes `w` to `w'`. */
  ghost predicate Next(w: World, a: Action, w': World) {
    match a
    case Create(r) =>
      r.node !in w.reqs && !r.terminating && !r.finalizer && !r.ready && w' == w.(reqs := w.reqs[r.node := r])
    case AddFinalizer(n) =>
      Waiting(w, n) && w.worker.Idle? && w' == w.(reqs := w.reqs[n := w.reqs[n].(finalizer := true)])
    case Terminate(n) =>
      n in w.reqs && w' == w.(reqs := if w.reqs[n].finalizer then w.reqs[n := w.reqs[n].(terminating := true)]
        else w.reqs - {n})
    case Choose(n, local) =>
      && w.worker.Idle? && n in w.reqs && w.reqs[n].finalizer
      && w'.worker.Chose? && w' == w.(worker := Chose(n, w.reqs[n].terminating, w'.worker.winner, local))
      && (if w'.worker.winner.Some? then Winner(w, w'.worker.winner.value) else forall m :: !Waiting(w, m))
    case Write(bound) =>
      && w.worker.Chose?
      && w' == w.(share := if w.worker.local then None else w.worker.winner,
                  worker := if w.worker.leaving then Leaving(w.worker.q)
                            else Decided(w.worker.q, w.worker.winner == Some(w.worker.q) && (w.worker.local || bound)))
    case Patch =>
      && w.worker.Decided?
      && w' == w.(worker := Idle, reqs := if w.worker.q in w.reqs
          then w.reqs[w.worker.q := w.reqs[w.worker.q].(ready := w.worker.ready)] else w.reqs)
    case Release =>
      && w.worker.Leaving?
      && w' == w.(worker := Idle, reqs := w.reqs - {w.worker.q})
    case Restart => w' == w.(worker := Idle)
  }

  /** The worker is on its way to make its request ready. */
  ghost predicate Winning(w: World) {
    (w.worker.Chose? && w.worker.winner == Some(w.worker.q)) || (w.worker.Decided? && w.worker.ready)
  }

  ghost predicate Ready(w: World, n: Node) {
    Waiting(w, n) && w.reqs[n].ready
  }

  /** Whoever is ready is the winner, and the share, if there is one, allows no other. */
  ghost predicate Ok(w: World) {
    && (forall n :: Ready(w, n) ==>
        && Winner(w, n) && w.reqs[n].finalizer && w.share in {None, Some(n)}
        && (w.worker.Chose? ==> w.worker.winner == Some(n)))
    && (!w.worker.Idle? ==> w.worker.q in w.reqs && w.reqs[w.worker.q].finalizer)
    && (w.worker.Leaving? || (w.worker.Chose? && w.worker.leaving) ==> w.reqs[w.worker.q].terminating)
    && (Winning(w) && Waiting(w, w.worker.q) ==> Winner(w, w.worker.q))
    && (Winning(w) && Waiting(w, w.worker.q) && w.worker.Decided? ==> w.share in {None, Some(w.worker.q)})
  }

  /** A new request comes after the one that is ready, or on its way to be. */
  ghost predicate Later(w: World, r: Request) {
    && (forall m :: Ready(w, m) ==> Older(w.reqs[m], r))
    && (Winning(w) && Waiting(w, w.worker.q) ==> Older(w.reqs[w.worker.q], r))
  }

  /** As every request is that is made in a later second than all that wait. */
  lemma BornLaterIsLater(w: World, r: Request)
    requires forall n :: Waiting(w, n) ==> w.reqs[n].born < r.born
    ensures Later(w, r)
  {
  }

  /** The winner is nobody's junior. */
  lemma WinnerIsForemost(w: World, n: Node, m: Node)
    requires Winner(w, n) && Waiting(w, m) && m != n
    ensures w.reqs[n].born <= w.reqs[m].born
    ensures w.reqs[n].born == w.reqs[m].born ==> Sooner(w.reqs[n].name, w.reqs[m].name)
  {
    LessIsSooner(w.reqs[n].name, w.reqs[m].name);
  }

  lemma OneWinner(w: World, m: Node, n: Node)
    requires Winner(w, m) && Winner(w, n)
    ensures m == n
  {
    if m != n { OlderIsTotal(w.reqs[m], w.reqs[n]); }
  }

  lemma Preserved(w: World, a: Action, w': World)
    requires Ok(w) && Next(w, a, w') && (a.Create? ==> Later(w, a.r))
    ensures Ok(w')
  {
    match a
    case Choose(_, _) =>
      forall n | Ready(w', n) ensures w'.worker.winner == Some(n) {
        assert Ready(w, n);
        if w'.worker.winner.Some? { OneWinner(w, n, w'.worker.winner.value); }
      }
    case Patch =>
      forall n | Ready(w', n) ensures Winner(w', n) && w'.share in {None, Some(n)} {
        if n != w.worker.q { assert Ready(w, n); }
      }
    case _ =>
  }

  // ----------------------------------------------------------------- whole runs

  /** `ws` is a run in which every new request comes after the one that is, or is being made, ready. */
  ghost predicate Run(ws: seq<World>, acts: seq<Action>) {
    && |ws| == |acts| + 1 && ws[0] == World(map[], None, Idle)
    && forall i :: 0 <= i < |acts| ==> Next(ws[i], acts[i], ws[i + 1]) && (acts[i].Create? ==> Later(ws[i], acts[i].r))
  }

  lemma {:induction false} RunOk(ws: seq<World>, acts: seq<Action>, i: nat)
    requires Run(ws, acts) && i < |ws|
    ensures Ok(ws[i])
  {
    if i > 0 {
      RunOk(ws, acts, i - 1);
      Preserved(ws[i - 1], acts[i - 1], ws[i]);
    }
  }

  /** In no state of any run are two waiting requests ready, and the share never allows a node while
      another one's request is ready. */
  lemma OneNodeAtATime(ws: seq<World>, acts: seq<Action>, i: nat, m: Node, n: Node)
    requires Run(ws, acts) && i < |ws| && Ready(ws[i], m)
    ensures Ready(ws[i], n) ==> n == m
    ensures ws[i].share == Some(n) ==> n == m
  {
    RunOk(ws, acts, i);
    if Ready(ws[i], n) { OneWinner(ws[i], m, n); }
  }

  /** Before step `i` the share was written for the winner `n`, and found ready for its generation, or needed
      no share. */
  ghost predicate Backed(ws: seq<World>, acts: seq<Action>, i: nat, n: Node)
    requires |ws| == |acts| + 1 && i <= |acts|
  {
    exists j :: 0 <= j < i && acts[j].Write? && ws[j].worker.Chose? && ws[j].worker.q == n
      && ws[j].worker.winner == Some(n) && (acts[j].bound || ws[j].worker.local)
  }

  lemma {:induction false} DecidedIsBacked(ws: seq<World>, acts: seq<Action>, i: nat, n: Node)
    requires Run(ws, acts) && i < |ws|
    ensures (n in ws[i].reqs && ws[i].reqs[n].ready) || ws[i].worker == Decided(n, true) ==> Backed(ws, acts, i, n)
  {
    if i > 0 {
      DecidedIsBacked(ws, acts, i - 1, n);
      assert Next(ws[i - 1], acts[i - 1], ws[i]);
    }
  }

  /** In every run a request is ready only after that. */
  lemma ReadyIsBacked(ws: seq<World>, acts: seq<Action>, i: nat, n: Node)
    requires Run(ws, acts) && i < |ws| && Ready(ws[i], n)
    ensures Backed(ws, acts, i, n)
  {
    DecidedIsBacked(ws, acts, i, n);
  }

  // ------------------------------------------------------- a request that does not

  ghost predicate Steps(ws: seq<World>, acts: seq<Action>) {
    |ws| == |acts| + 1 && forall i :: 0 <= i < |acts| ==> Next(ws[i], acts[i], ws[i + 1])
  }

  lemma Join(ws: seq<World>, acts: seq<Action>, ws': seq<World>, acts': seq<Action>)
    requires Steps(ws, acts) && Steps(ws', acts') && ws[|acts|] == ws'[0]
    ensures Steps(ws + ws'[1..], acts + acts')
  {
    forall i | 0 <= i < |acts + acts'| ensures Next((ws + ws'[1..])[i], (acts + acts')[i], (ws + ws'[1..])[i + 1]) {
      if i >= |acts| { assert (ws + ws'[1..])[i] == ws'[i - |acts|]; }
    }
  }

  /** An older request is made ready beside a ready one. */
  lemma MadeReady(w: World, n: Node) returns (ws: seq<World>, acts: seq<Action>)
    requires w.worker.Idle? && Winner(w, n)
    ensures Steps(ws, acts) && ws[0] == w && ws[|acts|].share == Some(n)
    ensures ws[|acts|].reqs == w.reqs[n := w.reqs[n].(finalizer := true, ready := true)]
    ensures forall a :: a in acts ==> !a.Create?
  {
    var r := w.reqs[n].(finalizer := true);
    var w1 := w.(reqs := w.reqs[n := r]);
    var w2 := w1.(worker := Chose(n, false, Some(n), false));
    var w3 := w2.(share := Some(n), worker := Decided(n, true));
    var w4 := w3.(worker := Idle, reqs := w3.reqs[n := r.(ready := true)]);
    assert Winner(w1, n);
    ws, acts := [w, w1, w2, w3, w4], [AddFinalizer(n), Choose(n, false), Write(true), Patch];
  }

  /** From every state, whatever the worker is doing, the winner can be made ready, and gets the share. */
  lemma WinnerIsServed(w: World, n: Node) returns (ws: seq<World>, acts: seq<Action>)
    requires Winner(w, n)
    ensures Steps(ws, acts) && ws[0] == w && Ready(ws[|acts|], n) && ws[|acts|].share == Some(n)
    ensures forall a :: a in acts ==> !a.Create?
  {
    var w1 := w.(worker := Idle);
    ws, acts := [w, w1], [Restart];
    assert Winner(w1, n);
    var more, moreActs := MadeReady(w1, n);
    Join(ws, acts, more, moreActs);
    ws, acts := ws + more[1..], acts + moreActs;
  }

  ghost predicate NamesDiffer(w: World) {
    forall m, n :: m in w.reqs && n in w.reqs && m != n ==> w.reqs[m].name != w.reqs[n].name
  }

  lemma {:induction false} OldestAmong(w: World, some: set<Node>) returns (k: Node)
    requires NamesDiffer(w) && some <= w.reqs.Keys && some != {}
    ensures k in some && forall m :: m in some && m != k ==> Older(w.reqs[k], w.reqs[m])
  {
    k :| k in some;
    if some != {k} {
      var rest := some - {k};
      var l := OldestAmong(w, rest);
      OlderIsTotal(w.reqs[k], w.reqs[l]);
      if Older(w.reqs[k], w.reqs[l]) {
        forall m | m in rest && m != l ensures Older(w.reqs[k], w.reqs[m]) {
          OlderIsTransitive(w.reqs[k], w.reqs[l], w.reqs[m]);
        }
      } else {
        k := l;
      }
    }
  }

  /** Where somebody waits there is a winner. */
  lemma SomeWinner(w: World, m: Node) returns (k: Node)
    requires NamesDiffer(w) && Waiting(w, m)
    ensures Winner(w, k)
  {
    var some := set n | n in w.reqs && Waiting(w, n);
    assert m in some;
    k := OldestAmong(w, some);
  }

  /** A terminating request can always go, and takes nobody else's with it. */
  lemma LeaverIsReleased(w: World, n: Node) returns (ws: seq<World>, acts: seq<Action>)
    requires n in w.reqs && w.reqs[n].terminating && w.reqs[n].finalizer
    requires NamesDiffer(w)
    ensures Steps(ws, acts) && ws[0] == w && ws[|acts|].reqs == w.reqs - {n} && ws[|acts|].worker.Idle?
    ensures ws[|acts|].share.Some? ==> Winner(w, ws[|acts|].share.value)
  {
    var winner: Option<Node> := None;
    if m :| Waiting(w, m) {
      var k := SomeWinner(w, m);
      winner := Some(k);
    }
    var w1 := w.(worker := Idle);
    var w2 := w1.(worker := Chose(n, true, winner, false));
    var w3 := w2.(share := winner, worker := Leaving(n));
    var w4 := w3.(worker := Idle, reqs := w3.reqs - {n});
    if winner.Some? {
      assert Winner(w1, winner.value);
    } else {
      forall m ensures !Waiting(w1, m) { assert !Waiting(w, m); }
    }
    assert Next(w1, Choose(n, false), w2) && Next(w2, Write(true), w3) && Next(w3, Release, w4);
    ws, acts := [w, w1, w2, w3, w4], [Restart, Choose(n, false), Write(true), Release];
  }

  /** In every run a request that terminates has its finalizer, so that it can. */
  lemma {:induction false} LeaverHasFinalizer(ws: seq<World>, acts: seq<Action>, i: nat, n: Node)
    requires Steps(ws, acts) && ws[0] == World(map[], None, Idle) && i < |ws|
    requires n in ws[i].reqs && ws[i].reqs[n].terminating
    ensures ws[i].reqs[n].finalizer
  {
    if i > 0 {
      assert Next(ws[i - 1], acts[i - 1], ws[i]);
      if n in ws[i - 1].reqs && ws[i - 1].reqs[n].terminating { LeaverHasFinalizer(ws, acts, i - 1, n); }
    }
  }

  /** A pass on behalf of `n`, from its reads to its patch, leaves the request ready exactly if `n` was the winner,
      and the share was ready or none was needed. */
  lemma ReadyExactly(w: World, n: Node, local: bool, bound: bool, ws: seq<World>)
    requires Steps(ws, [Choose(n, local), Write(bound), Patch]) && ws[0] == w && Waiting(w, n)
    ensures n in ws[3].reqs && ws[3].worker.Idle?
    ensures ws[3].reqs[n].ready <==> Winner(w, n) && (local || bound)
    ensures forall m :: m in w.reqs && m != n ==> m in ws[3].reqs && ws[3].reqs[m] == w.reqs[m]
  {
    var acts := [Choose(n, local), Write(bound), Patch];
    assert Next(ws[0], acts[0], ws[1]) && Next(ws[1], acts[1], ws[2]) && Next(ws[2], acts[2], ws[3]);
    var winner := ws[1].worker.winner;
    if winner.Some? && Winner(w, n) { OneWinner(w, n, winner.value); }
  }

  /** Let the worker make its request ready, after `r` was made. */
  lemma Finished(w: World, r: Request) returns (ws: seq<World>, acts: seq<Action>)
    requires Ok(w) && Winning(w) && Waiting(w, w.worker.q) && r.node !in w.reqs && !r.terminating && !r.finalizer
    requires !r.ready
    ensures Steps(ws, acts) && ws[0] == w && ws[|acts|].worker.Idle?
    ensures ws[|acts|].reqs == w.reqs[r.node := r][w.worker.q := w.reqs[w.worker.q].(ready := true)]
  {
    var q := w.worker.q;
    var w1 := w.(reqs := w.reqs[r.node := r]);
    if w.worker.Decided? {
      var w2 := w1.(worker := Idle, reqs := w1.reqs[q := w1.reqs[q].(ready := true)]);
      ws, acts := [w, w1, w2], [Create(r), Patch];
    } else {
      var w2 := w1.(share := if w.worker.local then None else Some(q), worker := Decided(q, true));
      var w3 := w2.(worker := Idle, reqs := w1.reqs[q := w1.reqs[q].(ready := true)]);
      ws, acts := [w, w1, w2, w3], [Create(r), Write(true), Patch];
    }
  }

  lemma OldestOfAll(w: World, m: Node, r: Request, w': World)
    requires Winner(w, m) && !Older(w.reqs[m], r) && r.node !in w.reqs && !r.terminating && w.reqs[m].name != r.name
    requires w'.reqs == w.reqs[r.node := r] || w'.reqs == w.reqs[r.node := r][m := w.reqs[m].(ready := true)]
    ensures Winner(w', r.node)
  {
    OlderIsTotal(r, w.reqs[m]);
    forall k | Waiting(w', k) && k != r.node ensures Older(w'.reqs[r.node], w'.reqs[k]) {
      if k != m { OlderIsTransitive(r, w.reqs[m], w.reqs[k]); }
    }
  }

  /** Wherever the worker is: a request that sorts before the one that is ready, or on its way to be,
      can be made ready beside it, and takes the share. */
  lemma EarlierRequestSteals(w: World, r: Request) returns (ws: seq<World>, acts: seq<Action>, m: Node)
    requires Ok(w) && !Later(w, r) && r.node !in w.reqs && !r.terminating && !r.finalizer && !r.ready
    requires forall n :: n in w.reqs ==> w.reqs[n].name != r.name
    ensures Steps(ws, acts) && ws[0] == w && m != r.node
    ensures Ready(ws[|acts|], m) && Ready(ws[|acts|], r.node) && ws[|acts|].share == Some(r.node)
  {
    if exists k :: Ready(w, k) && !Older(w.reqs[k], r) {
      m :| Ready(w, m) && !Older(w.reqs[m], r);
      var w1 := w.(reqs := w.reqs[r.node := r]);
      ws, acts := [w, w1, w1.(worker := Idle)], [Create(r), Restart];
    } else {
      m := w.worker.q;
      ws, acts := Finished(w, r);
    }
    var w' := ws[|acts|];
    OldestOfAll(w, m, r, w');
    var more, moreActs := MadeReady(w', r.node);
    Join(ws, acts, more, moreActs);
    ws, acts := ws + more[1..], acts + moreActs;
  }
}
