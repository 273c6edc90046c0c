/** `detachAndCleanSnapshots`: leave a dataset with no snapshots of its own, by
    destroying the clone-less ones and promoting dependents away, round by round. */
module DetachLoop {
  import opened Pool
  import opened Promote
  import opened MemZfs
  import opened Detach
  import opened Seqs

  const MAX_DETACH_ROUNDS := 100

  datatype DetachResult =
    | Detached
    | ForeignSnapshot   // a snapshot the driver did not create: refuse
    | UnknownDataset    // a clone that is no ZfsDataset and no backing clone: refuse
    | PromoteFailed
    | NotConverged      // all rounds used up
    | Stopped           // the call budget ran out: a crash or a failed command

  /** The allow-list of snapshot names: "clone-" or "csi-snap-", and something more. */
  predicate IsDriverShort(s: Short) {
    "clone-" < Text(s) || "csi-snap-" < Text(s)
  }

  /** The driver makes snapshots with such names, and no others. */
  predicate OfDriver(text: string) {
    (|text| > 6 && text[..6] == "clone-") || (|text| > 9 && text[..9] == "csi-snap-")
  }

  /** They are the two prefixes, each followed by something. */
  lemma OfDriverMeans(text: string)
    ensures OfDriver(text) <==> exists rest :: rest != "" && (text == "clone-" + rest || text == "csi-snap-" + rest)
  {
    if |text| > 6 && text[..6] == "clone-" { assert text[6..] != "" && text == "clone-" + text[6..]; }
    if |text| > 9 && text[..9] == "csi-snap-" { assert text[9..] != "" && text == "csi-snap-" + text[9..]; }
    if rest :| rest != "" && (text == "clone-" + rest || text == "csi-snap-" + rest) {
      assert ("clone-" + rest)[..6] == "clone-" && ("csi-snap-" + rest)[..9] == "csi-snap-";
    }
  }

  lemma DriverShortMeans(s: Short)
    ensures IsDriverShort(s) <==> OfDriver(Text(s))
  {
    var text := Text(s);
    assert "clone-" < text <==> |text| > 6 && text[..6] == "clone-";
    assert "csi-snap-" < text <==> |text| > 9 && text[..9] == "csi-snap-";
  }

  /** `full` has a snapshot the driver did not create. */
  ghost predicate HasForeign(ds: Datasets, full: Path) {
    full in ds && exists s :: s in ds[full].snaps && !OfDriver(Text(s))
  }

  /** A dependent was promoted, and everything cloned from the same snapshot is known. */
  ghost predicate KnownStep(known: set<Path>, a: Datasets, b: Datasets) {
    exists c :: IsClone(a, c) && ClonesOf(a, a[c].origin.value) <= known && b == Promoted(a, c)
  }

  /** Nothing but snapshots of `full` is destroyed, and nothing unknown is promoted. */
  ghost predicate Within(full: Path, known: set<Path>, path: seq<Datasets>) {
    forall i :: 0 <= i < |path| - 1 ==> DropStep(full, path[i], path[i + 1]) || KnownStep(known, path[i], path[i + 1])
  }

  lemma WithinMore(full: Path, known: set<Path>, path: seq<Datasets>)
    requires Within(full, {}, path)
    ensures Within(full, known, path)
  {
  }

  /** `ds` without the clone-less snapshots `gone` of `full`. */
  ghost function Trim(ds: Datasets, full: Path, gone: set<Short>): Datasets
    requires full in ds
  {
    ds[full := ds[full].(snaps := ds[full].snaps - gone)]
  }

  ghost predicate CloneLess(ds: Datasets, full: Path, gone: set<Short>) {
    forall s :: s in gone ==> ClonesOf(ds, SnapRef(full, s)) == {}
  }

  lemma {:induction false} SameProp(a: Datasets, b: Datasets, n: Path, prop: string)
    requires a.Keys == b.Keys && forall n :: n in a ==> a[n].props == b[n].props
    ensures Inherited(a, n, prop) == Inherited(b, n, prop)
  {
    if n.Child? { SameProp(a, b, n.parent, prop); }
  }

  lemma SameRole(a: Datasets, b: Datasets, c: Path)
    requires a.Keys == b.Keys && forall n :: n in a ==> a[n].props == b[n].props
    ensures IsBacking(a, c) <==> IsBacking(b, c)
  {
    SameProp(a, b, c, ROLE);
  }

  lemma TrimFacts(ds: Datasets, full: Path, gone: set<Short>)
    requires full in ds && CloneLess(ds, full, gone)
    ensures forall q :: ClonesOf(Trim(ds, full, gone), q) == ClonesOf(ds, q)
    ensures forall c :: Dependent(Trim(ds, full, gone), full, c) <==> Dependent(ds, full, c)
    ensures forall c :: Dependent(ds, full, c) ==>
        IsClone(Trim(ds, full, gone), c) && Age(Trim(ds, full, gone), c) == Age(ds, c)
    ensures forall c :: IsBacking(Trim(ds, full, gone), c) <==> IsBacking(ds, c)
  {
    var ds' := Trim(ds, full, gone);
    forall q ensures ClonesOf(ds', q) == ClonesOf(ds, q) {}
    forall c { SameRole(ds, ds', c); }
    forall c | Dependent(ds, full, c) ensures ds[c].origin.value.short !in gone {
      assert c in ClonesOf(ds, ds[c].origin.value);
      assert ds[c].origin.value == SnapRef(full, ds[c].origin.value.short);
    }
  }

  method Elements<T(==)>(s: set<T>) returns (out: seq<T>)
    ensures forall x :: x in out <==> x in s
    ensures |out| == |s|
  {
    out := [];
    var todo := s;
    while todo != {}
      invariant todo <= s && |out| + |todo| == |s|
      invariant forall x :: x in out <==> x in s && x !in todo
    {
      var x :| x in todo;
      out := out + [x];
      todo := todo - {x};
    }
  }

  /** Candidates (snapshot, clone): every dependent of `full` cloned from one of `seen`, oldest first. */
  ghost predicate Candidates(ds: Datasets, full: Path, seen: seq<Short>, cands: seq<Path>) {
    && (forall i :: 0 <= i < |cands| ==> Dependent(ds, full, cands[i]) && ds[cands[i]].origin.value.short in seen)
    && (forall i, j :: 0 <= i < j < |cands| ==> Age(ds, cands[i]) <= Age(ds, cands[j]))
    && (forall c :: Dependent(ds, full, c) && ds[c].origin.value.short in seen ==> c in cands)
  }

  lemma MoreCandidates(ds: Datasets, full: Path, snaps: seq<Short>, i: nat, cands: seq<Path>, clones: seq<Path>)
    requires full in ds && OldestFirst(ds[full].snaps, snaps) && i < |snaps|
    requires Candidates(ds, full, snaps[..i], cands)
    requires forall c :: c in clones <==> c in ClonesOf(ds, SnapRef(full, snaps[i]))
    ensures Candidates(ds, full, snaps[..i + 1], cands + clones)
  {
    TakeMore(snaps, i);
    forall c | c in clones ensures Dependent(ds, full, c) && ds[c].origin.value.short == snaps[i] {}
    forall c, d | c in cands && d in clones ensures Dependent(ds, full, c) && Age(ds, c) <= Age(ds, d) {
      var k :| 0 <= k < i && snaps[k] == ds[c].origin.value.short;
    }
  }

  /** Destroying one more clone-less snapshot. */
  lemma TrimMore(ds: Datasets, full: Path, gone: seq<Short>, s: Short)
    requires full in ds && CloneLess(ds, full, Elems(gone)) && Distinct(gone) && s !in gone
    requires s in ds[full].snaps && ClonesOf(ds, SnapRef(full, s)) == {}
    ensures Distinct(gone + [s]) && CloneLess(ds, full, Elems(gone + [s]))
    ensures Deferred(Trim(ds, full, Elems(gone)), SnapRef(full, s)) == Trim(ds, full, Elems(gone + [s]))
  {
    TrimFacts(ds, full, Elems(gone));
    assert Elems(gone + [s]) == Elems(gone) + {s};
    assert ds[full].snaps - Elems(gone) - {s} == ds[full].snaps - Elems(gone + [s]);
  }

  lemma TrimClones(ds: Datasets, full: Path, gone: seq<Short>, q: SnapRef)
    requires full in ds && CloneLess(ds, full, Elems(gone))
    ensures ClonesOf(Trim(ds, full, Elems(gone)), q) == ClonesOf(ds, q)
  {
    TrimFacts(ds, full, Elems(gone));
  }

  /** One round of cleaning: destroy what nothing clones, collect the rest. */
  method Clean(mem: Mem, full: Path, snaps: seq<Short>, calls: nat)
    returns (cands: seq<Path>, stopped: bool, left: nat, ghost gone: seq<Short>)
    requires mem.Valid() && full in mem.ds
    requires OldestFirst(mem.ds[full].snaps, snaps) && forall s :: s in snaps <==> s in mem.ds[full].snaps
    modifies mem
    ensures mem.Valid() && mem.txg == old(mem.txg)
    ensures Distinct(gone) && (forall s :: s in gone ==> s in snaps) && CloneLess(old(mem.ds), full, Elems(gone))
    ensures mem.ds == Trim(old(mem.ds), full, Elems(gone))
    ensures left + |gone| == calls
    ensures stopped ==> left == 0 && |gone| < |snaps|
    ensures !stopped ==> Candidates(old(mem.ds), full, snaps, cands)
    ensures !stopped ==> forall s :: s in snaps && ClonesOf(old(mem.ds), SnapRef(full, s)) == {} ==> s in gone
  {
    cands, stopped, left, gone := [], false, calls, [];
    ghost var ds := mem.ds;
    assert ds[full].snaps - Elems(gone) == ds[full].snaps;
    for i := 0 to |snaps|
      invariant mem.Valid() && mem.txg == old(mem.txg)
      invariant Distinct(gone) && (forall s :: s in gone ==> s in snaps[..i])
      invariant CloneLess(ds, full, Elems(gone)) && mem.ds == Trim(ds, full, Elems(gone))
      invariant left + |gone| == calls && |gone| <= i
      invariant Candidates(ds, full, snaps[..i], cands)
      invariant forall s :: s in snaps[..i] && ClonesOf(ds, SnapRef(full, s)) == {} ==> s in gone
    {
      TakeMore(snaps, i);
      NextIsNew(snaps, i);
      TrimClones(ds, full, gone, SnapRef(full, snaps[i]));
      var clones := Elements(ClonesOf(mem.ds, SnapRef(full, snaps[i])));
      MoreCandidates(ds, full, snaps, i, cands, clones);
      if |clones| == 0 {
        if left == 0 { stopped := true; return; }
        TrimMore(ds, full, gone, snaps[i]);
        mem.DestroySnapshotDeferred(SnapRef(full, snaps[i]));
        left := left - 1;
        gone := gone + [snaps[i]];
      }
      cands := cands + clones;
    }
    assert snaps[..] == snaps;
  }

  /** The commands of a cleaning round, as steps. */
  lemma {:induction false} TrimPasses(full: Path, ds: Datasets, gone: seq<Short>) returns (path: seq<Datasets>)
    requires full in ds && Distinct(gone) && (forall s :: s in gone ==> s in ds[full].snaps)
    requires CloneLess(ds, full, Elems(gone))
    ensures Passes(full, path) && path[0] == ds && path[|path| - 1] == Trim(ds, full, Elems(gone))
    ensures Within(full, {}, path)
  {
    if gone == [] {
      assert ds[full].snaps - Elems(gone) == ds[full].snaps;
      path := [ds];
    } else {
      var k := |gone| - 1;
      TakeMore(gone, k); NextIsNew(gone, k);
      assert gone == gone[..k] + [gone[k]];
      var rest := TrimPasses(full, ds, gone[..k]);
      var a, b := Trim(ds, full, Elems(gone[..k])), Trim(ds, full, Elems(gone));
      TrimMore(ds, full, gone[..k], gone[k]);
      TrimClones(ds, full, gone[..k], SnapRef(full, gone[k]));
      assert b == WithoutSnap(a, SnapRef(full, gone[k]));
      path := rest + [b];
    }
  }

  method AllKnown(clones: seq<Path>, known: set<Path>) returns (ok: bool)
    ensures ok <==> forall c :: c in clones ==> c in known
  {
    for i := 0 to |clones|
      invariant forall j :: 0 <= j < i ==> clones[j] in known
    {
      if clones[i] !in known { return false; }
    }
    return true;
  }

  method AnyForeign(snaps: seq<Short>) returns (found: bool)
    ensures found <==> exists s :: s in snaps && !OfDriver(Text(s))
  {
    for i := 0 to |snaps|
      invariant forall j :: 0 <= j < i ==> OfDriver(Text(snaps[j]))
    {
      DriverShortMeans(snaps[i]);
      if !IsDriverShort(snaps[i]) { return true; }
    }
    return false;
  }

  function Size(ds: Datasets, full: Path): nat {
    if full in ds then |ds[full].snaps| else 0
  }

  lemma {:induction false} Cardinality<K, V>(m: map<K, V>, gone: seq<K>)
    requires Distinct(gone) && forall s :: s in gone ==> s in m
    ensures |m - Elems(gone)| == |m| - |gone|
  {
    if gone == [] {
      assert m - Elems(gone) == m;
    } else {
      var k := |gone| - 1;
      TakeMore(gone, k); NextIsNew(gone, k);
      assert gone == gone[..k] + [gone[k]];
      Cardinality(m, gone[..k]);
      assert (m - Elems(gone)).Keys == (m - Elems(gone[..k])).Keys - {gone[k]};
      assert |(m - Elems(gone)).Keys| == |(m - Elems(gone[..k])).Keys| - 1;
      assert |m - Elems(gone)| == |(m - Elems(gone)).Keys| && |m - Elems(gone[..k])| == |(m - Elems(gone[..k])).Keys|;
    }
  }

  lemma SizeTrim(ds: Datasets, full: Path, gone: seq<Short>)
    requires full in ds && Distinct(gone) && forall s :: s in gone ==> s in ds[full].snaps
    ensures Size(Trim(ds, full, Elems(gone)), full) == Size(ds, full) - |gone|
  {
    Cardinality(ds[full].snaps, gone);
  }

  /** No two snapshots of the pool share a short name. */
  ghost predicate ShortsUnique(ds: Datasets) {
    forall q, r :: Exists(ds, q) && Exists(ds, r) && q.short == r.short ==> q == r
  }

  lemma UniqueAlong(full: Path, path: seq<Datasets>)
    requires Passes(full, path) && Graph(path[0]) && ShortsUnique(path[0])
    ensures ShortsUnique(path[|path| - 1])
  {
    var f := DetachSurvival(full, path);
    var b := path[|path| - 1];
    forall q', r' | Exists(b, q') && Exists(b, r') && q'.short == r'.short ensures q' == r' {
      var q :| q in f && f[q] == q';
      var r :| r in f && f[r] == r';
      assert Kept(path[0], q, b, q') && Kept(path[0], r, b, r');
    }
  }

  lemma ConflictIsAmbiguous(ds: Datasets, c: Path)
    requires Graph(ds) && IsClone(ds, c) && Conflict(ds, c)
    ensures !ShortsUnique(ds)
  {
    ParentIsOther(ds, c);
    var s :| s in Moved(ds, c) && s in ds[c].snaps;
    assert Exists(ds, SnapRef(c, s)) && Exists(ds, SnapRef(ds[c].origin.value.ds, s));
  }

  /** Reasons a detach is refused, all of them visible before it starts. */
  ghost predicate Refusal(r: DetachResult, ds: Datasets, full: Path, known: set<Path>) {
    match r
    case ForeignSnapshot => HasForeign(ds, full)
    case UnknownDataset => exists c :: Dependent(ds, full, c) && c !in known
    case PromoteFailed => !ShortsUnique(ds)
    case _ => false
  }

  ghost predicate AllDependents(ds: Datasets, full: Path, cands: seq<Path>) {
    && (forall i :: 0 <= i < |cands| ==> Dependent(ds, full, cands[i]))
    && (forall i, j :: 0 <= i < j < |cands| ==> Age(ds, cands[i]) <= Age(ds, cands[j]))
    && (forall c :: Dependent(ds, full, c) ==> c in cands)
  }

  /** After a cleaning round every snapshot left is cloned, and the candidates are all its clones. */
  lemma Cleaned(ds: Datasets, full: Path, snaps: seq<Short>, gone: seq<Short>, cands: seq<Path>)
    requires full in ds && OriginsExist(ds) && (forall s :: s in snaps <==> s in ds[full].snaps)
    requires CloneLess(ds, full, Elems(gone)) && Candidates(ds, full, snaps, cands)
    requires forall s :: s in snaps && ClonesOf(ds, SnapRef(full, s)) == {} ==> s in gone
    ensures var ds' := Trim(ds, full, Elems(gone)); AllCloned(ds', full) && AllDependents(ds', full, cands)
    ensures cands == [] ==> Trim(ds, full, Elems(gone))[full].snaps == map[]
  {
    TrimFacts(ds, full, Elems(gone));
    var ds' := Trim(ds, full, Elems(gone));
    assert forall s :: s in ds'[full].snaps ==> s in snaps && s !in gone;
    forall s | s in ds'[full].snaps ensures cands != [] {
      var c :| c in ClonesOf(ds, SnapRef(full, s));
      assert Dependent(ds, full, c);
    }
  }

  method Pick(mem: Mem, full: Path, cands: seq<Path>) returns (c: Path)
    requires AllDependents(mem.ds, full, cands) && |cands| > 0
    ensures Picked(mem.ds, full, c)
    ensures exists s :: FirstToGo(mem.ds, full, s, c)
  {
    forall d { PickedIsFirst(mem.ds, full, d); }
    c := cands[0];
    for i := 0 to |cands|
      invariant c == cands[0]
      invariant forall j :: 0 <= j < i ==> !IsBacking(mem.ds, cands[j])
    {
      if IsBacking(mem.ds, cands[i]) { return cands[i]; }
    }
  }

  ghost predicate AfterCleaning(ds: Datasets, full: Path, cands: seq<Path>) {
    if cands == [] then Size(ds, full) == 0
    else full in ds && AllCloned(ds, full) && AllDependents(ds, full, cands)
  }

  method CleanRound(mem: Mem, full: Path, snaps: seq<Short>, calls: nat)
    returns (r: DetachResult, cands: seq<Path>, left: nat, ghost path: seq<Datasets>)
    requires mem.Valid() && full in mem.ds && |snaps| == Size(mem.ds, full)
    requires OldestFirst(mem.ds[full].snaps, snaps) && forall s :: s in snaps <==> s in mem.ds[full].snaps
    modifies mem
    ensures mem.Valid() && mem.txg == old(mem.txg)
    ensures Passes(full, path) && path[0] == old(mem.ds) && path[|path| - 1] == mem.ds
    ensures left <= calls && Size(mem.ds, full) + (calls - left) == Size(old(mem.ds), full)
    ensures if r.Detached? then AfterCleaning(mem.ds, full, cands)
        else r.Stopped? && left == 0 && Size(mem.ds, full) > 0
    ensures Within(full, {}, path)
  {
    var stopped; ghost var gone;
    cands, stopped, left, gone := Clean(mem, full, snaps, calls);
    path := TrimPasses(full, old(mem.ds), gone);
    SizeTrim(old(mem.ds), full, gone);
    if stopped {
      r := Stopped;
    } else {
      r := Detached;
      Cleaned(old(mem.ds), full, snaps, gone, cands);
    }
  }

  /** The first half of a round: list, check the names, destroy what nothing clones. */
  method ListAndClean(mem: Mem, full: Path, calls: nat)
    returns (r: DetachResult, cands: seq<Path>, left: nat, ghost path: seq<Datasets>)
    requires mem.Valid()
    modifies mem
    ensures mem.Valid() && mem.txg == old(mem.txg)
    ensures Passes(full, path) && path[0] == old(mem.ds) && path[|path| - 1] == mem.ds
    ensures left <= calls && Size(mem.ds, full) + (calls - left) == Size(old(mem.ds), full)
    ensures r.Detached? || r.Stopped? || r.ForeignSnapshot?
    ensures r.Detached? ==> AfterCleaning(mem.ds, full, cands)
    ensures r.Stopped? ==> left == 0 && Size(mem.ds, full) > 0
    ensures r.ForeignSnapshot? <==> HasForeign(old(mem.ds), full)
    ensures r.ForeignSnapshot? ==> mem.ds == old(mem.ds) && left == calls
    ensures Within(full, {}, path)
  {
    r, cands, left, path := Detached, [], calls, [mem.ds];
    if full !in mem.ds { return; }
    var snaps := mem.SortedSnaps(full);
    if |snaps| == 0 { return; }
    var foreign := AnyForeign(snaps);
    if foreign { r := ForeignSnapshot; return; }
    r, cands, left, path := CleanRound(mem, full, snaps, calls);
  }

  lemma NonEmpty<K, V>(m: map<K, V>, k: K)
    requires k in m
    ensures |m| > 0
  {
  }

  lemma FewerKeys<K, V>(a: map<K, V>, b: map<K, V>)
    requires a.Keys < b.Keys
    ensures |a| < |b|
  {
    assert |a| == |a.Keys| && |b| == |b.Keys|;
    var k :| k in b.Keys && k !in a.Keys;
    Subset(a.Keys, b.Keys - {k});
  }

  /** The second half: promote one dependent away. */
  method PromoteOne(mem: Mem, full: Path, known: set<Path>, cands: seq<Path>, calls: nat)
    returns (again: bool, r: DetachResult, left: nat)
    requires mem.Valid() && full in mem.ds && AllCloned(mem.ds, full) && AllDependents(mem.ds, full, cands)
    requires |cands| > 0
    modifies mem
    ensures mem.Valid() && mem.txg == old(mem.txg)
    ensures again ==> KnownStep(known, old(mem.ds), mem.ds)
    ensures again ==>
        PromoteStep(full, old(mem.ds), mem.ds) && left == calls - 1 && full in mem.ds
          && Size(mem.ds, full) < Size(old(mem.ds), full)
    ensures !again ==>
        && mem.ds == old(mem.ds) && left == calls
        && if r.Stopped? then calls == 0 && Size(mem.ds, full) > 0 else Refusal(r, mem.ds, full, known)
  {
    again, left := false, calls;
    var c := Pick(mem, full, cands);
    var o := mem.ds[c].origin.value;
    var siblings := Elements(ClonesOf(mem.ds, o));
    var ok := AllKnown(siblings, known);
    if !ok {
      assert forall d :: d in ClonesOf(mem.ds, o) ==> Dependent(mem.ds, full, d);
      return false, UnknownDataset, calls;
    }
    NonEmpty(mem.ds[full].snaps, o.short);
    if calls == 0 { return false, Stopped, calls; }
    PromoteShrinksParent(mem.ds, c);
    var p := mem.Promote(c);
    if p.Err? {
      ConflictIsAmbiguous(mem.ds, c);
      return false, PromoteFailed, calls;
    }
    FewerKeys(mem.ds[full].snaps, old(mem.ds[full].snaps));
    again, left, r := true, calls - 1, Detached;
  }

  lemma OnePromoteMore(full: Path, known: set<Path>, path: seq<Datasets>, b: Datasets) returns (longer: seq<Datasets>)
    requires Passes(full, path) && PromoteStep(full, path[|path| - 1], b) && Within(full, {}, path)
    requires KnownStep(known, path[|path| - 1], b)
    ensures Passes(full, longer) && longer[0] == path[0] && longer[|longer| - 1] == b && Within(full, known, longer)
  {
    longer := path + [b];
    forall i | 0 <= i < |longer| - 1
      ensures DropStep(full, longer[i], longer[i + 1]) || PromoteStep(full, longer[i], longer[i + 1])
    {
      if i < |path| - 1 { assert longer[i] == path[i] && longer[i + 1] == path[i + 1]; }
    }
    forall i | 0 <= i < |longer| - 1
      ensures DropStep(full, longer[i], longer[i + 1]) || KnownStep(known, longer[i], longer[i + 1])
    {
      if i < |path| - 1 { assert longer[i] == path[i] && longer[i + 1] == path[i + 1]; }
    }
  }

  lemma Join(full: Path, known: set<Path>, p: seq<Datasets>, q: seq<Datasets>) returns (path: seq<Datasets>)
    requires Passes(full, p) && Passes(full, q) && p[|p| - 1] == q[0] && Within(full, known, p)
    requires Within(full, known, q)
    ensures Passes(full, path) && path[0] == p[0] && path[|path| - 1] == q[|q| - 1] && Within(full, known, path)
  {
    path := p + q[1..];
    forall i | 0 <= i < |path| - 1
      ensures DropStep(full, path[i], path[i + 1]) || PromoteStep(full, path[i], path[i + 1])
      ensures DropStep(full, path[i], path[i + 1]) || KnownStep(known, path[i], path[i + 1])
    {
      if i < |p| - 1 {
        assert path[i] == p[i] && path[i + 1] == p[i + 1];
      } else {
        var j := i - |p| + 1;
        assert path[i] == q[j] && path[i + 1] == q[j + 1];
      }
    }
  }

  /** One round; `again` when it ended with a promote. */
  method Round(mem: Mem, full: Path, known: set<Path>, calls: nat)
    returns (again: bool, r: DetachResult, left: nat, ghost path: seq<Datasets>)
    requires mem.Valid()
    modifies mem
    ensures mem.Valid() && mem.txg == old(mem.txg)
    ensures Passes(full, path) && path[0] == old(mem.ds) && path[|path| - 1] == mem.ds
    ensures left <= calls && Size(mem.ds, full) + (calls - left) <= Size(old(mem.ds), full)
    ensures again ==> left < calls
    ensures Within(full, known, path)
    ensures HasForeign(old(mem.ds), full) ==> !again && r.ForeignSnapshot? && mem.ds == old(mem.ds)
    ensures !again ==> match r
      case Detached => Size(mem.ds, full) == 0
      case Stopped => left == 0 && Size(mem.ds, full) > 0
      case _ => Refusal(r, mem.ds, full, known)
  {
    var cands;
    r, cands, left, path := ListAndClean(mem, full, calls);
    again := false;
    WithinMore(full, known, path);
    if !r.Detached? || |cands| == 0 { return; }
    again, r, left := PromoteOne(mem, full, known, cands, left);
    if again { path := OnePromoteMore(full, known, path, mem.ds); }
  }

  /** A refusal in a later round could have been seen on entry. */
  lemma RefusedFromTheStart(r: DetachResult, full: Path, path: seq<Datasets>, known: set<Path>)
    requires Passes(full, path) && Graph(path[0]) && Refusal(r, path[|path| - 1], full, known)
    ensures match r
      case ForeignSnapshot => HasForeign(path[0], full)
      case UnknownDataset => exists c :: Dependent(path[0], full, c) && c !in known
      case _ => !ShortsUnique(path[0])
  {
    var f := DetachSurvival(full, path);
    var b := path[|path| - 1];
    match r
    case ForeignSnapshot =>
      var s :| s in b[full].snaps && !OfDriver(Text(s));
      assert Exists(b, SnapRef(full, s));
      var q :| q in f && f[q] == SnapRef(full, s);
      assert Kept(path[0], q, b, SnapRef(full, s));
    case UnknownDataset =>
      var c :| Dependent(b, full, c) && c !in known;
      DependentsShrink(full, path, c);
    case PromoteFailed =>
      if ShortsUnique(path[0]) { UniqueAlong(full, path); }
  }

  /** `detachAndCleanSnapshots`, stopped after at most `calls` zfs commands. */
  method DetachAndClean(mem: Mem, full: Path, known: set<Path>, calls: nat)
    returns (r: DetachResult, left: nat, ghost path: seq<Datasets>)
    requires mem.Valid()
    modifies mem
    ensures mem.Valid() && mem.txg == old(mem.txg)
    ensures Passes(full, path) && path[0] == old(mem.ds) && path[|path| - 1] == mem.ds
    ensures left <= calls && Size(mem.ds, full) + (calls - left) <= Size(old(mem.ds), full)
    ensures match r
      case Detached => Size(mem.ds, full) == 0
      case Stopped => left == 0 && Size(mem.ds, full) > 0
      case NotConverged => Size(mem.ds, full) + 100 <= Size(old(mem.ds), full)
      case ForeignSnapshot => mem.ds == old(mem.ds)
      case UnknownDataset => exists c :: Dependent(old(mem.ds), full, c) && c !in known
      case PromoteFailed => !ShortsUnique(old(mem.ds))
    ensures r.ForeignSnapshot? <==> HasForeign(old(mem.ds), full)
    ensures Within(full, known, path)
  {
    left, path := calls, [mem.ds];
    for round := 0 to MAX_DETACH_ROUNDS
      invariant mem.Valid() && mem.txg == old(mem.txg)
      invariant Passes(full, path) && path[0] == old(mem.ds) && path[|path| - 1] == mem.ds
      invariant left + round <= calls && Size(mem.ds, full) + (calls - left) <= Size(old(mem.ds), full)
      invariant Within(full, known, path) && (round == 0 ==> mem.ds == old(mem.ds))
      invariant round > 0 ==> !HasForeign(old(mem.ds), full)
    {
      var again; ghost var p;
      again, r, left, p := Round(mem, full, known, left);
      path := Join(full, known, path, p);
      if !again {
        if !r.Detached? && !r.Stopped? { RefusedFromTheStart(r, full, path, known); }
        return;
      }
    }
    r := NotConverged;
  }

  /** Nothing on the pool gives a reason to refuse. */
  ghost predicate Clear(ds: Datasets, full: Path, known: set<Path>) {
    && ShortsUnique(ds)
    && (forall c :: Dependent(ds, full, c) ==> c in known)
    && (full in ds ==> forall s :: s in ds[full].snaps ==> OfDriver(Text(s)))
  }

  lemma ClearAlong(full: Path, path: seq<Datasets>, known: set<Path>)
    requires Passes(full, path) && Graph(path[0]) && Clear(path[0], full, known)
    ensures Clear(path[|path| - 1], full, known)
  {
    UniqueAlong(full, path);
    forall c | Dependent(path[|path| - 1], full, c) ensures c in known { DependentsShrink(full, path, c); }
    var f := DetachSurvival(full, path);
    var b := path[|path| - 1];
    if full in b {
      forall s | s in b[full].snaps ensures OfDriver(Text(s)) {
        assert Exists(b, SnapRef(full, s));
        var q :| q in f && f[q] == SnapRef(full, s);
        assert Kept(path[0], q, b, SnapRef(full, s));
      }
    }
  }

  /** Repeated reconciles: each failing call still takes off 100 snapshots. */
  method RetryDetach(mem: Mem, full: Path, known: set<Path>, tries: nat) returns (done: bool)
    requires mem.Valid() && Clear(mem.ds, full, known)
    modifies mem
    ensures mem.Valid()
    ensures done ==> Size(mem.ds, full) == 0
    ensures !done ==> Size(mem.ds, full) + 100 * tries <= Size(old(mem.ds), full)
    ensures Size(old(mem.ds), full) < 100 * tries ==> done
  {
    done := false;
    for k := 0 to tries
      invariant mem.Valid() && Clear(mem.ds, full, known)
      invariant Size(mem.ds, full) + MAX_DETACH_ROUNDS * k <= Size(old(mem.ds), full)
    {
      ghost var was := mem.ds;
      var r, left; ghost var path;
      r, left, path := DetachAndClean(mem, full, known, Size(mem.ds, full));
      if r.Detached? { return true; }
      ClearAlong(full, path, known);
    }
  }
}
