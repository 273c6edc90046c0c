/** The group snapshot protocol (internal/controller/zfsgroupsnapshot_controller.go): one group,
    its members, the passes of its reconciler cut into their single reads and writes, and
    everything that can happen in between. */
module Groups {
  /** A member's source volume: alive, its object terminating, or its dataset gone. Never alive again. */
  datatype Source = Live | Dying | Gone

  /** Where a provisioning pass is: counting raw snapshots, looking at sources (none was found),
      creating the children, or reading their status, all ready so far or not. */
  datatype Pass = Idle | Counting(i: nat, found: nat) | Looking(i: nat) | Making(i: nat) | Deriving(i: nat, all: bool)

  /** Members are numbered. `raws` gives the txg of each member's raw snapshot that exists where the
      reconciler looks for it. */
  datatype World = World(
    size: nat, sources: map<nat, Source>, raws: map<nat, nat>, txg: nat, cuts: nat,
    children: set<nat>, dying: set<nat>, provisioned: bool, deleting: bool, pass: Pass)

  ghost predicate Typed(w: World) {
    && w.size > 0 && w.raws.Keys <= w.sources.Keys
    && forall i :: i in w.sources <==> 0 <= i < w.size
  }

  datatype Action =
    | Begin | Count | Judge | Look | Cut | Make
    | Made
    | ReadChild(ready: bool)
    | Derive
    | Crash
    | SourceDies(i: nat) | SourceGone(i: nat) | LoseRaw(i: nat)
    | DeleteGroup
    | DeleteChild(i: nat)     // by the group's own deletion, or by anyone once it is provisioned
    | ReleaseRaw(i: nat)      // a terminating child gives up its raw snapshot before it is gone
    | ChildGone(i: nat)
    | DestroyLeftover(i: nat)
    | OutsideDelete(i: nat)   // someone deletes a child of a group that is not provisioned yet

  predicate Enabled(w: World, a: Action)
    requires Typed(w)
  {
    match a
    case Begin => w.pass.Idle? && !w.deleting && !w.provisioned
    case Count => w.pass.Counting? && w.pass.i < w.size
    case Judge => w.pass.Counting? && w.pass.i == w.size
    case Look => w.pass.Looking? && w.pass.i < w.size
    case Cut => w.pass.Looking? && w.pass.i == w.size
    case Make => w.pass.Making? && w.pass.i < w.size
    case Made => w.pass.Making? && w.pass.i == w.size
    case ReadChild(ready) => w.pass.Deriving? && w.pass.i < w.size && (ready ==> w.pass.i in w.children)
    case Derive => w.pass.Deriving? && w.pass.i == w.size
    case Crash => true
    case SourceDies(i) => i in w.sources && w.sources[i].Live?
    case SourceGone(i) => i in w.sources && w.sources[i].Dying?
    case LoseRaw(i) => i in w.sources && !w.sources[i].Live?
    case DeleteGroup => true
    case DeleteChild(i) => i in w.children && ((w.pass.Idle? && w.deleting) || w.provisioned)
    case ReleaseRaw(i) => i in w.dying
    case ChildGone(i) => i in w.dying
    case DestroyLeftover(i) => w.pass.Idle? && w.deleting && !w.provisioned && i !in w.children
    case OutsideDelete(i) => i in w.children && !w.provisioned
  }

  function All(w: World, txg: nat): map<nat, nat> {
    map i | i in w.sources :: txg
  }

  function Do(w: World, a: Action): World
    requires Typed(w) && Enabled(w, a)
  {
    match a
    case Begin => w.(pass := Counting(0, 0))
    case Count => w.(pass := Counting(w.pass.i + 1, if w.pass.i in w.raws then w.pass.found + 1 else w.pass.found))
    case Judge =>
      if w.pass.found == w.size then w.(pass := Making(0))
      else if w.pass.found == 0 then w.(pass := Looking(0))
      else w.(pass := Idle) // refused: a member cut later would not share the instant
    case Look => w.(pass := if w.sources[w.pass.i].Live? then Looking(w.pass.i + 1) else Idle)
    case Cut =>
      if w.raws.Keys == w.sources.Keys then w.(pass := Making(0))
      else if w.raws != map[] || exists i :: i in w.sources && w.sources[i].Gone? then w.(pass := Idle)
      else w.(raws := All(w, w.txg + 1), txg := w.txg + 1, cuts := w.cuts + 1, pass := Making(0))
    case Make => w.(children := w.children + {w.pass.i}, pass := Making(w.pass.i + 1))
    case Made => w.(pass := Deriving(0, true))
    case ReadChild(ready) => w.(pass := Deriving(w.pass.i + 1, w.pass.all && ready))
    case Derive => w.(provisioned := w.pass.all, pass := Idle)
    case Crash => w.(pass := Idle)
    case SourceDies(i) => w.(sources := w.sources[i := Dying])
    case SourceGone(i) => w.(sources := w.sources[i := Gone], raws := w.raws - {i})
    case LoseRaw(i) => w.(raws := w.raws - {i})
    case DeleteGroup => w.(deleting := true)
    case DeleteChild(i) => w.(dying := w.dying + {i})
    case ReleaseRaw(i) => w.(raws := w.raws - {i})
    case ChildGone(i) => w.(dying := w.dying - {i}, children := w.children - {i}, raws := w.raws - {i})
    case DestroyLeftover(i) => w.(raws := w.raws - {i})
    case OutsideDelete(i) => w.(dying := w.dying + {i})
  }

  /** The group may still be provisioned, now or in a later pass. */
  ghost predicate Open(w: World) {
    !w.pass.Idle? || (!w.deleting && !w.provisioned)
  }

  /** What every run keeps. */
  ghost predicate Ok(w: World) {
    && Typed(w)
    && (w.cuts == 0 ==> w.raws == map[] && w.children == {} && !w.provisioned && !w.pass.Making? && !w.pass.Deriving?)
    && (w.pass.Counting? && w.pass.found > 0 ==> w.cuts > 0)
    && (forall i, j :: i in w.raws && j in w.raws ==> w.raws[i] == w.raws[j])
    && (w.provisioned ==> w.pass.Idle?)
    && w.children <= w.sources.Keys && w.dying <= w.children
  }

  /** What keeps the group from being cut again, as long as the child of member `j` is left alone. */
  ghost predicate Once(w: World, j: nat) {
    && j in w.sources && w.cuts <= 1
    && (j in w.dying ==> !Open(w))
    && (w.cuts == 1 && Open(w) && j !in w.raws ==> !w.sources[j].Live?)
    && (w.cuts == 1 && w.pass.Counting? && w.pass.found == 0 && j < w.pass.i ==> !w.sources[j].Live?)
    && (w.cuts == 1 && w.pass.Looking? ==> w.pass.i <= j && !w.sources[j].Live?)
  }

  lemma Preserved(w: World, a: Action)
    requires Ok(w) && Enabled(w, a)
    ensures Ok(Do(w, a))
  {
    assert 0 in w.sources;
  }

  lemma OncePreserved(w: World, a: Action, j: nat)
    requires Ok(w) && Once(w, j) && Enabled(w, a) && a != OutsideDelete(j)
    ensures Once(Do(w, a), j)
  {
  }

  // ----------------------------------------------------------------- whole runs

  datatype Run = Start(w: World) | Then(before: Run, a: Action)

  ghost predicate Init(w: World) {
    Typed(w) && w == World(w.size, w.sources, map[], w.txg, 0, {}, {}, false, false, Idle)
  }

  ghost predicate Legal(r: Run) {
    match r
    case Start(w) => Init(w)
    case Then(before, a) => Legal(before)
  }

  ghost function Step(w: World, a: Action): World {
    if Typed(w) && Enabled(w, a) then Do(w, a) else w
  }

  /** A step that is not enabled does nothing. */
  ghost function End(r: Run): World {
    match r
    case Start(w) => w
    case Then(before, a) => Step(End(before), a)
  }

  /** Nobody but the group's own deletion deletes the child of member `j` before provisionedAt is set. */
  ghost predicate LeftAlone(r: Run, j: nat) {
    r.Start? || (LeftAlone(r.before, j) && r.a != OutsideDelete(j))
  }

  lemma {:induction false} RunOk(r: Run)
    requires Legal(r)
    ensures Ok(End(r))
  {
    if r.Then? {
      RunOk(r.before);
      if Enabled(End(r.before), r.a) { Preserved(End(r.before), r.a); }
    }
  }

  lemma {:induction false} RunOnce(r: Run, j: nat)
    requires Legal(r) && LeftAlone(r, j) && j in End(r).sources
    ensures Once(End(r), j)
  {
    if r.Then? {
      RunOk(r.before);
      RunOnce(r.before, j);
      if Enabled(End(r.before), r.a) { OncePreserved(End(r.before), r.a, j); }
    }
  }

  /** If a single member's child is left alone, the group is cut at most once. */
  lemma CutAtMostOnce(r: Run, j: nat)
    requires Legal(r) && LeftAlone(r, j) && j < End(r).size
    ensures End(r).cuts <= 1
  {
    RunOk(r);
    RunOnce(r, j);
  }

  /** In every run the raw snapshots that exist are of one instant, and children and provisionedAt come
      only after a cut. */
  lemma OneInstant(r: Run)
    requires Legal(r)
    ensures var w := End(r);
      && (forall i, j :: i in w.raws && j in w.raws ==> w.raws[i] == w.raws[j])
      && (w.children != {} || w.provisioned ==> w.cuts > 0)
  {
    RunOk(r);
  }

  /** Raw snapshots appear all together, where there was none; once provisionedAt is set nothing appears. */
  lemma NeverFilled(r: Run, a: Action)
    requires Legal(r)
    ensures var w, w' := End(r), Step(End(r), a);
      && (w'.raws.Keys <= w.raws.Keys || (w.raws == map[] && w'.raws.Keys == w.sources.Keys && w'.cuts == w.cuts + 1))
      && (w.provisioned ==> w'.provisioned && w'.raws.Keys <= w.raws.Keys && w'.children <= w.children)
  {
    RunOk(r);
  }

  /** A cut of all members succeeds exactly if no source is gone and no raw snapshot is left. */
  lemma CutExactly(w: World)
    requires Typed(w) && Enabled(w, Cut)
    ensures var w' := Do(w, Cut);
      if w.raws == map[] && (forall i :: i in w.sources ==> !w.sources[i].Gone?)
      then w'.cuts == w.cuts + 1 && forall i: nat :: i < w.size ==> i in w'.raws && w'.raws[i] == w.txg + 1
      else w'.cuts == w.cuts && w'.raws == w.raws
  {
    assert 0 in w.sources;
    if w.raws == map[] {
      assert 0 !in w.raws.Keys;
    }
  }

  ghost predicate NoRawsOfGone(w: World) {
    forall i :: i in w.raws && i in w.sources ==> !w.sources[i].Gone?
  }

  lemma GoneStaysWithout(w: World, a: Action)
    requires Typed(w) && Enabled(w, a) && NoRawsOfGone(w)
    ensures NoRawsOfGone(Do(w, a))
  {
    if a.Cut? { CutExactly(w); }
  }

  /** In every run a source that is gone has no raw snapshot. */
  lemma {:induction false} GoneHasNoRaw(r: Run)
    requires Legal(r)
    ensures NoRawsOfGone(End(r))
  {
    if r.Then? {
      GoneHasNoRaw(r.before);
      if Typed(End(r.before)) && Enabled(End(r.before), r.a) { GoneStaysWithout(End(r.before), r.a); }
    }
  }
}
