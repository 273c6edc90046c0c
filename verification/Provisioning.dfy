/** What passes of the group reconciler lead to, for groups of any size: when a group is provisioned, and
    when it is cut once more. */
module Provisioning {
  import opened Groups

  // ---------------------------------------------------------------- from state to state

  ghost function Play(w: World, acts: seq<Action>): World
    decreases |acts|
  {
    if acts == [] then w else Step(Play(w, acts[..|acts| - 1]), acts[|acts| - 1])
  }

  /** Some actions lead from `w` to `w'`. */
  ghost predicate Leads(w: World, w': World) {
    exists acts :: Play(w, acts) == w'
  }

  lemma LeadsAtOnce(w: World)
    ensures Leads(w, w)
  {
    assert Play(w, []) == w;
  }

  lemma LeadsOn(w: World, u: World, a: Action, w': World)
    requires Leads(w, u) && Typed(u) && Enabled(u, a) && Do(u, a) == w'
    ensures Leads(w, w')
  {
    var acts :| Play(w, acts) == u;
    assert (acts + [a])[..|acts|] == acts;
    assert Play(w, acts + [a]) == w';
  }

  lemma {:induction false} Played(r: Run, acts: seq<Action>) returns (r': Run)
    requires Legal(r)
    ensures Legal(r') && End(r') == Play(End(r), acts)
  {
    if acts == [] {
      r' := r;
    } else {
      var k := |acts| - 1;
      r' := Played(r, acts[..k]);
      r' := Then(r', acts[k]);
    }
  }

  /** What a state leads to is reached by every run that reaches the state. */
  lemma Continued(r: Run, w: World) returns (r': Run)
    requires Legal(r) && Leads(End(r), w)
    ensures Legal(r') && End(r') == w
  {
    var acts :| Play(End(r), acts) == w;
    r' := Played(r, acts);
  }

  // ------------------------------------------------------------------------- counting

  /** `i` members are looked at, and found, or not. */
  ghost function Counted(w: World, i: nat, there: bool): World {
    w.(pass := Counting(i, if there then i else 0))
  }

  lemma CountOne(w: World, i: nat, there: bool)
    requires Typed(w) && i < w.size && (i in w.raws <==> there)
    ensures var u := Counted(w, i, there); Typed(u) && Enabled(u, Count) && Do(u, Count) == Counted(w, i + 1, there)
  {
  }

  lemma CountAll(w0: World, w: World, there: bool)
    requires Typed(w) && (forall i :: i in w.sources ==> (i in w.raws <==> there)) && Leads(w0, Counted(w, 0, there))
    ensures Leads(w0, Counted(w, w.size, there))
  {
    var i: nat := 0;
    while i < w.size
      invariant i <= w.size && Leads(w0, Counted(w, i, there))
    {
      CountOne(w, i, there);
      LeadsOn(w0, Counted(w, i, there), Count, Counted(w, i + 1, there));
      i := i + 1;
    }
  }

  /** Idle, and still to be provisioned. */
  ghost predicate Pending(w: World) {
    Typed(w) && w.pass.Idle? && !w.deleting && !w.provisioned
  }

  /** A pass that finds all raw snapshots adopts them; one that finds none looks at the sources. */
  lemma Judged(w: World, there: bool)
    requires Pending(w) && forall i :: i in w.sources ==> (i in w.raws <==> there)
    ensures Leads(w, w.(pass := if there then Making(0) else Looking(0)))
  {
    LeadsAtOnce(w);
    LeadsOn(w, w, Begin, Counted(w, 0, there));
    CountAll(w, w, there);
    LeadsOn(w, Counted(w, w.size, there), Judge, w.(pass := if there then Making(0) else Looking(0)));
  }

  // -------------------------------------------------------------------------- the cut

  ghost predicate AllLive(w: World) {
    forall i :: i in w.sources ==> w.sources[i].Live?
  }

  ghost function LookedAt(w: World, i: nat): World {
    w.(pass := Looking(i))
  }

  lemma LookOne(w: World, i: nat)
    requires Typed(w) && i < w.size && AllLive(w)
    ensures var u := LookedAt(w, i); Typed(u) && Enabled(u, Look) && Do(u, Look) == LookedAt(w, i + 1)
  {
  }

  lemma LookAll(w0: World, w: World)
    requires Typed(w) && AllLive(w) && Leads(w0, LookedAt(w, 0))
    ensures Leads(w0, LookedAt(w, w.size))
  {
    var i: nat := 0;
    while i < w.size
      invariant i <= w.size && Leads(w0, LookedAt(w, i))
    {
      LookOne(w, i);
      LeadsOn(w0, LookedAt(w, i), Look, LookedAt(w, i + 1));
      i := i + 1;
    }
  }

  /** Nothing tells the reconciler that there ever was a cut. */
  ghost predicate Forgotten(w: World) {
    Pending(w) && w.raws == map[] && AllLive(w)
  }

  ghost function AfterCut(w: World): World {
    w.(raws := All(w, w.txg + 1), txg := w.txg + 1, cuts := w.cuts + 1, pass := Making(0))
  }

  lemma CutIsMade(w: World)
    requires Forgotten(w)
    ensures var w' := LookedAt(w, w.size); Typed(w') && Enabled(w', Cut) && Do(w', Cut) == AfterCut(w)
  {
    assert 0 in w.sources.Keys;
  }

  lemma ForgottenLeads(w: World)
    requires Forgotten(w)
    ensures Leads(w, AfterCut(w))
  {
    Judged(w, false);
    LookAll(w, w);
    CutIsMade(w);
    LeadsOn(w, LookedAt(w, w.size), Cut, AfterCut(w));
  }

  /** From every such state, reached however, the next pass cuts the group, again if it was cut before. */
  lemma ForgottenIsCut(r: Run) returns (r': Run)
    requires Legal(r) && Forgotten(End(r))
    ensures Legal(r') && End(r') == AfterCut(End(r)) && End(r').cuts == End(r).cuts + 1
  {
    ForgottenLeads(End(r));
    r' := Continued(r, AfterCut(End(r)));
  }

  // --------------------------------------------------------------------- the children

  ghost function First(n: nat): set<nat> {
    if n == 0 then {} else First(n - 1) + {n - 1}
  }

  lemma {:induction false} FirstAre(n: nat, k: nat)
    ensures k in First(n) <==> k < n
  {
    if n > 0 { FirstAre(n - 1, k); }
  }

  lemma FirstAreAll(w: World)
    requires Typed(w)
    ensures First(w.size) == w.sources.Keys
  {
    forall k: nat ensures k in First(w.size) <==> k in w.sources { FirstAre(w.size, k); }
  }

  /** The first `i` children are made. */
  ghost function MadeUpTo(w: World, i: nat): World {
    w.(pass := Making(i), children := w.children + First(i))
  }

  lemma MakeOne(w: World, i: nat)
    requires Typed(w) && i < w.size
    ensures var u := MadeUpTo(w, i); Typed(u) && Enabled(u, Make) && Do(u, Make) == MadeUpTo(w, i + 1)
  {
    assert w.children + First(i) + {i} == w.children + First(i + 1);
  }

  lemma MakeAll(w0: World, w: World)
    requires Typed(w) && Leads(w0, MadeUpTo(w, 0))
    ensures Leads(w0, MadeUpTo(w, w.size))
  {
    var i: nat := 0;
    while i < w.size
      invariant i <= w.size && Leads(w0, MadeUpTo(w, i))
    {
      MakeOne(w, i);
      LeadsOn(w0, MadeUpTo(w, i), Make, MadeUpTo(w, i + 1));
      i := i + 1;
    }
  }

  /** The first `i` children are read, and found ready, or not. */
  ghost function ReadUpTo(w: World, i: nat, ready: bool): World {
    w.(pass := Deriving(i, i == 0 || ready))
  }

  lemma ReadOne(w: World, i: nat, ready: bool)
    requires Typed(w) && i < w.size && (ready ==> i in w.children)
    ensures var u := ReadUpTo(w, i, ready);
      Typed(u) && Enabled(u, ReadChild(ready)) && Do(u, ReadChild(ready)) == ReadUpTo(w, i + 1, ready)
  {
  }

  lemma ReadAll(w0: World, w: World, ready: bool)
    requires Typed(w) && Leads(w0, ReadUpTo(w, 0, ready)) && (ready ==> forall i :: i in w.sources ==> i in w.children)
    ensures Leads(w0, ReadUpTo(w, w.size, ready))
  {
    var i: nat := 0;
    while i < w.size
      invariant i <= w.size && Leads(w0, ReadUpTo(w, i, ready))
    {
      ReadOne(w, i, ready);
      LeadsOn(w0, ReadUpTo(w, i, ready), ReadChild(ready), ReadUpTo(w, i + 1, ready));
      i := i + 1;
    }
  }

  ghost function AfterPass(w: World, ready: bool): World {
    w.(pass := Idle, provisioned := ready, children := w.children + w.sources.Keys)
  }

  /** The children are made and read, and the pass ends. */
  lemma PassEnds(w0: World, w: World, ready: bool)
    requires Typed(w) && w.pass == Making(0) && !w.provisioned && Leads(w0, w)
    ensures Leads(w0, AfterPass(w, ready))
  {
    assert w.children + {} == w.children;
    MakeAll(w0, w);
    FirstAreAll(w);
    var u := MadeUpTo(w, w.size);
    LeadsOn(w0, u, Made, ReadUpTo(u, 0, ready));
    ReadAll(w0, u, ready);
    LeadsOn(w0, ReadUpTo(u, w.size, ready), Derive, AfterPass(w, ready));
  }

  // ------------------------------------------------------------------ it is provisioned

  lemma CutAndProvisioned(w: World, ready: bool)
    requires Forgotten(w)
    ensures Leads(w, AfterPass(AfterCut(w), ready))
  {
    ForgottenLeads(w);
    PassEnds(w, AfterCut(w), ready);
  }

  /** A group of any size, whose sources are there, is cut and provisioned. */
  lemma GroupIsProvisioned(w: World) returns (r: Run)
    requires Init(w) && AllLive(w)
    ensures Legal(r) && End(r).provisioned && End(r).cuts == 1 && End(r).sources == w.sources
    ensures End(r).raws.Keys == w.sources.Keys && End(r).children == w.sources.Keys
  {
    CutAndProvisioned(w, true);
    r := Continued(Start(w), AfterPass(AfterCut(w), true));
  }

  /** From every state with all raw snapshots there, however it was left, the next pass adopts them: the group
      is provisioned without another cut. */
  lemma CompleteIsAdopted(r: Run) returns (r': Run)
    requires Legal(r) && Pending(End(r)) && End(r).raws.Keys == End(r).sources.Keys
    ensures Legal(r') && End(r').provisioned && End(r').cuts == End(r).cuts && End(r').raws == End(r).raws
  {
    var w := End(r);
    Judged(w, true);
    PassEnds(w, w.(pass := Making(0)), true);
    r' := Continued(r, AfterPass(w.(pass := Making(0)), true));
  }

  ghost function ReadsAfter(w: World, a: Action, seen: seq<bool>): seq<bool> {
    if !Typed(w) || !Enabled(w, a) then seen
    else if a.Made? then []
    else if a.ReadChild? then seen + [a.ready]
    else seen
  }

  /** What was read of the children since the last time reading began. */
  ghost function Reads(r: Run): seq<bool> {
    match r
    case Start(_) => []
    case Then(before, a) => ReadsAfter(End(before), a, Reads(before))
  }

  ghost predicate AllReady(seen: seq<bool>) {
    forall k :: 0 <= k < |seen| ==> seen[k]
  }

  /** The pass has just these reads behind it. */
  ghost predicate Read(w: World, seen: seq<bool>) {
    w.pass.Deriving? ==> |seen| == w.pass.i && (w.pass.all <==> AllReady(seen))
  }

  lemma ReadStep(w: World, a: Action, seen: seq<bool>)
    requires Read(w, seen)
    ensures Read(Step(w, a), ReadsAfter(w, a, seen))
  {
    if Typed(w) && Enabled(w, a) && a.ReadChild? {
      assert AllReady(seen + [a.ready]) <==> AllReady(seen) && a.ready by {
        assert (seen + [a.ready])[|seen|] == a.ready;
        assert forall k :: 0 <= k < |seen| ==> (seen + [a.ready])[k] == seen[k];
      }
    }
  }

  lemma {:induction false} RunReads(r: Run)
    requires Legal(r)
    ensures Read(End(r), Reads(r))
  {
    if r.Then? {
      RunReads(r.before);
      ReadStep(End(r.before), r.a, Reads(r.before));
    }
  }

  lemma DeriveStep(w: World, a: Action, seen: seq<bool>)
    requires Typed(w) && !w.provisioned && Read(w, seen)
    ensures Step(w, a).provisioned <==> a.Derive? && w.pass.Deriving? && |seen| == w.size && AllReady(seen)
  {
  }

  /** provisionedAt is set by a pass that found all children ready, one after the other, and by nothing else. */
  lemma ProvisionedExactly(r: Run, a: Action)
    requires Legal(r) && !End(r).provisioned
    ensures Step(End(r), a).provisioned <==>
        a.Derive? && End(r).pass.Deriving? && |Reads(r)| == End(r).size && AllReady(Reads(r))
  {
    RunOk(r);
    RunReads(r);
    DeriveStep(End(r), a, Reads(r));
  }

  ghost function CountsAfter(w: World, a: Action, found: seq<bool>): seq<bool> {
    if !Typed(w) || !Enabled(w, a) then found
    else if a.Begin? then []
    else if a.Count? then found + [w.pass.i in w.raws]
    else found
  }

  /** Which raw snapshots were found since counting last began. */
  ghost function Counts(r: Run): seq<bool> {
    match r
    case Start(_) => []
    case Then(before, a) => CountsAfter(End(before), a, Counts(before))
  }

  ghost predicate NoneReady(seen: seq<bool>) {
    forall k :: 0 <= k < |seen| ==> !seen[k]
  }

  /** The pass has counted just these. */
  ghost predicate CountOk(w: World, found: seq<bool>) {
    w.pass.Counting? ==>
      && |found| == w.pass.i && w.pass.found <= w.pass.i
      && (w.pass.found == w.pass.i <==> AllReady(found)) && (w.pass.found == 0 <==> NoneReady(found))
  }

  lemma OneMore(seen: seq<bool>, b: bool)
    ensures AllReady(seen + [b]) <==> AllReady(seen) && b
    ensures NoneReady(seen + [b]) <==> NoneReady(seen) && !b
  {
    assert (seen + [b])[|seen|] == b;
    assert forall k :: 0 <= k < |seen| ==> (seen + [b])[k] == seen[k];
  }

  lemma CountStep(w: World, a: Action, found: seq<bool>)
    requires CountOk(w, found)
    ensures CountOk(Step(w, a), CountsAfter(w, a, found))
  {
    if Typed(w) && Enabled(w, a) && a.Count? { OneMore(found, w.pass.i in w.raws); }
  }

  lemma {:induction false} RunCounts(r: Run)
    requires Legal(r)
    ensures CountOk(End(r), Counts(r))
  {
    if r.Then? {
      RunCounts(r.before);
      CountStep(End(r.before), r.a, Counts(r.before));
    }
  }

  lemma JudgeStep(w: World, found: seq<bool>)
    requires Typed(w) && Enabled(w, Judge) && CountOk(w, found)
    ensures |found| == w.size
    ensures Do(w, Judge)
        == w.(pass := if AllReady(found) then Making(0) else if NoneReady(found) then Looking(0) else Idle)
  {
  }

  /** A pass adopts the raw snapshots exactly if it found every one, goes on to cut exactly if it found none, and is
      refused otherwise. */
  lemma JudgedExactly(r: Run)
    requires Legal(r) && Typed(End(r)) && Enabled(End(r), Judge)
    ensures |Counts(r)| == End(r).size
    ensures Do(End(r), Judge)
        == End(r).(pass := if AllReady(Counts(r)) then Making(0) else if NoneReady(Counts(r)) then Looking(0) else Idle)
  {
    RunCounts(r);
    JudgeStep(End(r), Counts(r));
  }

  // -------------------------------------------------------------------- it is deleted

  ghost function Rid(w: World, i: nat): World {
    w.(raws := w.raws - First(i), children := w.children - First(i), dying := w.dying - First(i))
  }

  lemma RidOfOne(w0: World, w: World, i: nat)
    requires Typed(w) && w.pass.Idle? && w.deleting && !w.provisioned && w.dying <= w.children && Leads(w0, w)
    ensures Leads(w0, w.(raws := w.raws - {i}, children := w.children - {i}, dying := w.dying - {i}))
  {
    if i in w.children {
      var u := w.(dying := w.dying + {i});
      LeadsOn(w0, w, DeleteChild(i), u);
      assert w.dying + {i} - {i} == w.dying - {i};
      LeadsOn(w0, u, ChildGone(i), w.(raws := w.raws - {i}, children := w.children - {i}, dying := w.dying - {i}));
    } else {
      assert w.children - {i} == w.children && w.dying - {i} == w.dying;
      LeadsOn(w0, w, DestroyLeftover(i), w.(raws := w.raws - {i}));
    }
  }

  lemma RidMore(w: World, i: nat)
    ensures var u := Rid(w, i);
      Rid(w, i + 1) == u.(raws := u.raws - {i}, children := u.children - {i}, dying := u.dying - {i})
  {
    assert First(i + 1) == First(i) + {i};
    assert w.raws - First(i) - {i} == w.raws - First(i + 1);
    assert w.children - First(i) - {i} == w.children - First(i + 1);
    assert w.dying - First(i) - {i} == w.dying - First(i + 1);
  }

  lemma RidNext(w0: World, w: World, i: nat)
    requires Typed(w) && w.pass.Idle? && w.deleting && !w.provisioned && w.dying <= w.children && Leads(w0, Rid(w, i))
    ensures Leads(w0, Rid(w, i + 1))
  {
    RidOfOne(w0, Rid(w, i), i);
    RidMore(w, i);
  }

  lemma RidOfNone(w: World)
    ensures Rid(w, 0) == w
  {
    assert First(0) == {};
    assert w.raws - {} == w.raws && w.children - {} == w.children && w.dying - {} == w.dying;
  }

  lemma {:induction false} RidOfMany(w0: World, w: World, i: nat)
    requires Typed(w) && w.pass.Idle? && w.deleting && !w.provisioned && w.dying <= w.children && Leads(w0, w)
    ensures Leads(w0, Rid(w, i))
  {
    if i == 0 {
      RidOfNone(w);
    } else {
      RidOfMany(w0, w, i - 1);
      RidNext(w0, w, i - 1);
    }
  }

  /** A group that is deleted before it was provisioned, whatever was made of it: nothing has to be left. */
  lemma UnfinishedIsCleared(r: Run) returns (r': Run)
    requires Legal(r) && End(r).deleting && !End(r).provisioned
    ensures Legal(r') && End(r').raws == map[] && End(r').children == {}
  {
    RunOk(r);
    var w := End(r);
    LeadsAtOnce(w);
    var u := w.(pass := Idle);
    LeadsOn(w, w, Crash, u);
    RidOfMany(w, u, u.size);
    FirstAreAll(u);
    assert u.raws - u.sources.Keys == map[] && u.children - u.sources.Keys == {};
    r' := Continued(r, Rid(u, u.size));
  }

  // --------------------------------------------------------------- it is cut once more

  lemma LoseOne(w0: World, w: World, i: nat)
    requires Typed(w) && !w.provisioned && w.dying == {} && i in w.children && Leads(w0, w)
    ensures Leads(w0, w.(children := w.children - {i}, raws := w.raws - {i}))
  {
    var u := w.(dying := {i});
    LeadsOn(w0, w, OutsideDelete(i), u);
    assert {i} - {i} == {};
    LeadsOn(w0, u, ChildGone(i), w.(children := w.children - {i}, raws := w.raws - {i}));
  }

  /** All children are deleted from outside, one after the other. */
  lemma {:induction false} LoseAll(w0: World, w: World)
    requires Typed(w) && !w.provisioned && w.dying == {} && Leads(w0, w)
    ensures Leads(w0, w.(children := {}, raws := w.raws - w.children))
    decreases w.children
  {
    if w.children == {} {
      assert w.raws - {} == w.raws;
    } else {
      var i :| i in w.children;
      LoseOne(w0, w, i);
      var w' := w.(children := w.children - {i}, raws := w.raws - {i});
      LoseAll(w0, w');
      assert w.raws - {i} - (w.children - {i}) == w.raws - w.children;
    }
  }

  /** For a group of any size: if every child is deleted from outside before provisionedAt is set, a second,
      later cut is made. */
  lemma OutsideDeletesCutAgain(w: World) returns (r: Run)
    requires Init(w) && AllLive(w)
    ensures Legal(r) && End(r).cuts == 2 && End(r).sources == w.sources
  {
    CutAndProvisioned(w, false);
    var u := AfterPass(AfterCut(w), false);
    LoseAll(w, u);
    assert u.raws - u.children == map[];
    r := Continued(Start(w), u.(children := {}, raws := map[]));
    r := ForgottenIsCut(r);
  }
}
