/** The audit and its execution step by step, over the cluster they read and change. */
module Migration {
  import opened Options
  import opened Pool
  import opened Migrate
  import Audit
  import opened Seqs

  datatype Plan = Plan(actions: seq<Action>, blocked: bool)

  // -------------------------------------------------------------------------- claims

  ghost predicate ClaimedBy(c: Cluster, ds: set<Id>, ss: set<Id>, k: Claim) {
    (exists id :: id in ds && DatasetClaims(c, id, k)) || (exists id :: id in ss && SnapshotClaims(c, id, k))
  }

  /** The claims recorded so far: the first one on each name, and whether another one disagreed. */
  ghost predicate Recorded(claims: map<Zfs, Claim>, conflict: bool, seen: set<Claim>) {
    && (forall n :: n in claims ==> claims[n].on == n && claims[n] in seen)
    && (forall k :: k in seen ==> k.on in claims)
    && (conflict <==> exists k :: k in seen && claims[k.on] != k)
  }

  method Add(claims: map<Zfs, Claim>, conflict: bool, k: Claim, ghost seen: set<Claim>)
    returns (claims': map<Zfs, Claim>, conflict': bool)
    requires Recorded(claims, conflict, seen)
    ensures Recorded(claims', conflict', seen + {k})
  {
    if k.on in claims && claims[k.on] != k {
      claims', conflict' := claims, true;
      assert k in seen + {k} && claims'[k.on] != k;
    } else {
      claims', conflict' := claims[k.on := k], conflict;
      assert forall l :: l in seen ==> claims'[l.on] == claims[l.on];
    }
  }

  /** The claims of one ZfsDataset. */
  method AddDataset(c: Cluster, id: Id, claims: map<Zfs, Claim>, conflict: bool, ghost seen: set<Claim>)
    returns (claims': map<Zfs, Claim>, conflict': bool, ghost seen': set<Claim>)
    requires HasVolume(c, id) && Recorded(claims, conflict, seen)
    ensures Recorded(claims', conflict', seen') && forall k :: k in seen' <==> k in seen || DatasetClaims(c, id, k)
  {
    var d := c.datasets[id];
    var first := Claim(Full(c, d), Volume, d.uid);
    claims', conflict' := Add(claims, conflict, first, seen);
    seen' := seen + {first};
    var todo := SnapsBy(c, "clone-" + id.text);
    ghost var done: set<Zfs> := {};
    while todo != {}
      invariant todo !! done && todo + done == SnapsBy(c, "clone-" + id.text)
      invariant Recorded(claims', conflict', seen')
      invariant forall k :: k in seen' <==> k in seen || k == first || (k.on in done && k == Claim(k.on, Clone, d.uid))
    {
      var n :| n in todo;
      claims', conflict' := Add(claims', conflict', Claim(n, Clone, d.uid), seen');
      seen' := seen' + {Claim(n, Clone, d.uid)};
      todo, done := todo - {n}, done + {n};
    }
    assert done == SnapsBy(c, "clone-" + id.text);
  }

  lemma Singleton<T>(s: set<T>, x: T)
    requires |s| == 1 && x in s
    ensures s == {x}
  {
    assert |s - {x}| == 0;
  }

  /** The claims of one ZfsSnapshot. */
  method AddSnapshot(c: Cluster, id: Id, claims: map<Zfs, Claim>, conflict: bool, ghost seen: set<Claim>)
    returns (claims': map<Zfs, Claim>, conflict': bool, ghost seen': set<Claim>)
    requires id in c.snapshots && c.snapshots[id].pool in c.pools && Recorded(claims, conflict, seen)
    ensures Recorded(claims', conflict', seen') && forall k :: k in seen' <==> k in seen || SnapshotClaims(c, id, k)
  {
    var s := c.snapshots[id];
    claims', conflict', seen' := claims, conflict, seen;
    var raws := SnapsBy(c, s.snapshotName.text);
    if |raws| == 1 {
      var n :| n in raws;
      Singleton(raws, n);
      claims', conflict' := Add(claims', conflict', Claim(n, Raw, s.uid), seen');
      seen' := seen' + {Claim(n, Raw, s.uid)};
    }
    var backing := BackingOf(c, s);
    if Seen(c, backing) {
      claims', conflict' := Add(claims', conflict', Claim(backing, Backing, s.uid), seen');
      seen' := seen' + {Claim(backing, Backing, s.uid)};
    }
  }

  /** `claims` holds every claim there is, and only those. */
  ghost predicate Register(c: Cluster, claims: map<Zfs, Claim>) {
    && (forall n :: n in claims ==> claims[n].on == n && Claimed(c, claims[n]))
    && (forall k :: Claimed(c, k) ==> k.on in claims && claims[k.on] == k)
  }

  lemma RecordedAll(c: Cluster, claims: map<Zfs, Claim>, conflict: bool, seen: set<Claim>)
    requires Recorded(claims, conflict, seen) && forall k :: k in seen <==> Claimed(c, k)
    ensures conflict <==> !OneClaimEach(c)
    ensures !conflict ==> Register(c, claims)
  {
    if conflict {
      var k :| k in seen && claims[k.on] != k;
      assert Claimed(c, k) && Claimed(c, claims[k.on]);
    }
  }

  /** All claims. */
  method Gather(c: Cluster) returns (claims: map<Zfs, Claim>, conflict: bool)
    ensures conflict <==> !OneClaimEach(c)
    ensures !conflict ==> Register(c, claims)
  {
    ghost var seen: set<Claim> := {};
    claims, conflict := map[], false;
    var ids := c.datasets.Keys;
    while ids != {}
      invariant ids <= c.datasets.Keys && Recorded(claims, conflict, seen)
      invariant forall k :: k in seen <==> ClaimedBy(c, c.datasets.Keys - ids, {}, k)
    {
      var id :| id in ids;
      if HasVolume(c, id) { claims, conflict, seen := AddDataset(c, id, claims, conflict, seen); }
      ids := ids - {id};
    }
    ids := c.snapshots.Keys;
    while ids != {}
      invariant ids <= c.snapshots.Keys && Recorded(claims, conflict, seen)
      invariant forall k :: k in seen <==> ClaimedBy(c, c.datasets.Keys, c.snapshots.Keys - ids, k)
    {
      var id :| id in ids;
      if c.snapshots[id].pool in c.pools { claims, conflict, seen := AddSnapshot(c, id, claims, conflict, seen); }
      ids := ids - {id};
    }
    assert forall k :: k in seen <==> Claimed(c, k);
    RecordedAll(c, claims, conflict, seen);
  }

  // ----------------------------------------------------------------------- the audit

  ghost predicate PoolKnown(c: Cluster, ds: set<Id>) {
    forall d :: d in ds && d in c.datasets ==> c.datasets[d].pool in c.pools
  }

  /** The stamps of the ZfsDatasets. */
  method DatasetStamps(c: Cluster) returns (acts: seq<Action>, blocked: bool)
    ensures Distinct(acts) && forall a :: a in acts <==> a.StampDataset? && Wanted(c, a)
    ensures blocked <==> !PoolKnown(c, c.datasets.Keys)
  {
    acts, blocked := [], false;
    var ids := c.datasets.Keys;
    while ids != {}
      invariant ids <= c.datasets.Keys && Distinct(acts)
      invariant forall a :: a in acts <==> a.StampDataset? && a.id in c.datasets && a.id !in ids && Wanted(c, a)
      invariant blocked <==> !PoolKnown(c, c.datasets.Keys - ids)
    {
      var id :| id in ids;
      var d := c.datasets[id];
      if d.pool !in c.pools {
        blocked := true;
      } else if HasVolume(c, id) && !d.provisioned && Settled(d.phase) {
        acts := acts + [StampDataset(id)];
      }
      ids := ids - {id};
    }
    assert c.datasets.Keys - ids == c.datasets.Keys;
  }

  ghost predicate SnapshotsFree(c: Cluster, ss: set<Id>) {
    forall s :: s in ss && s in c.snapshots ==> !SnapshotBlocked(c, c.snapshots[s])
  }

  method OneSnapshot(c: Cluster, id: Id) returns (acts: seq<Action>, blocked: bool)
    requires id in c.snapshots
    ensures Distinct(acts) && forall a :: a in acts <==>
        (a.StampSnapshot? || a.SetSourceType?) && a.id == id && Wanted(c, a)
    ensures blocked <==> SnapshotBlocked(c, c.snapshots[id])
  {
    var s := c.snapshots[id];
    acts, blocked := [], false;
    if s.pool !in c.pools { return [], true; }
    if |SnapsBy(c, s.snapshotName.text)| > 1 { blocked := true; }
    if !s.provisioned && Settled(s.phase) { acts := acts + [StampSnapshot(id)]; }
    if s.sourceType.None? {
      if HasSource(c, s) {
        acts := acts + [SetSourceType(id, c.datasets[s.source.value].kind)];
      } else {
        blocked := true;
      }
    }
  }

  /** The stamps and the source types of the ZfsSnapshots. */
  method SnapshotStamps(c: Cluster) returns (acts: seq<Action>, blocked: bool)
    ensures Distinct(acts) && forall a :: a in acts <==> (a.StampSnapshot? || a.SetSourceType?) && Wanted(c, a)
    ensures blocked <==> !SnapshotsFree(c, c.snapshots.Keys)
  {
    acts, blocked := [], false;
    var ids := c.snapshots.Keys;
    while ids != {}
      invariant ids <= c.snapshots.Keys && Distinct(acts)
      invariant forall a :: a in acts <==>
          (a.StampSnapshot? || a.SetSourceType?) && a.id in c.snapshots && a.id !in ids && Wanted(c, a)
      invariant blocked <==> !SnapshotsFree(c, c.snapshots.Keys - ids)
    {
      var id :| id in ids;
      var more, stuck := OneSnapshot(c, id);
      DistinctJoin(acts, more);
      acts, blocked := acts + more, blocked || stuck;
      ids := ids - {id};
    }
    assert c.snapshots.Keys - ids == c.snapshots.Keys;
  }

  ghost predicate SelvesOwned(c: Cluster, ns: set<Zfs>) {
    forall n :: n in ns && n.Sn? ==> OwnsDataset(c, n.ref.ds)
  }

  /** The old self-snapshots. */
  method SelfSnapshots(c: Cluster, claims: map<Zfs, Claim>) returns (acts: seq<Action>, blocked: bool)
    requires Register(c, claims)
    ensures Distinct(acts) && forall a :: a in acts <==> a.DestroyDeferred? && Wanted(c, a)
    ensures blocked <==> !SelvesOwned(c, SnapsBy(c, RESTORE_SOURCE))
  {
    acts, blocked := [], false;
    var todo := SnapsBy(c, RESTORE_SOURCE);
    ghost var done: set<Zfs> := {};
    while todo != {}
      invariant todo !! done && todo + done == SnapsBy(c, RESTORE_SOURCE) && Distinct(acts)
      invariant forall a :: a in acts <==> a.DestroyDeferred? && Sn(a.ref) in done && Wanted(c, a)
      invariant blocked <==> !SelvesOwned(c, done)
    {
      var n :| n in todo;
      var home := Ds(n.ref.ds);
      assert home in claims ==> Claimed(c, claims[home]);
      assert (home in claims && claims[home].role in {Volume, Backing}) <==> OwnsDataset(c, n.ref.ds);
      if !(home in claims && claims[home].role in {Volume, Backing}) {
        blocked := true;
      } else if !c.objs[n].deferred {
        acts := acts + [DestroyDeferred(n.ref)];
      }
      todo, done := todo - {n}, done + {n};
    }
    assert done == SnapsBy(c, RESTORE_SOURCE);
  }

  ghost predicate LabelsAgree(c: Cluster, claims: map<Zfs, Claim>, ns: set<Zfs>) {
    forall n :: n in ns && n in claims ==> !Mislabelled(c, claims[n])
  }

  method OneLabel(c: Cluster, claims: map<Zfs, Claim>, n: Zfs) returns (acts: seq<Action>, blocked: bool)
    requires Register(c, claims) && n in claims
    ensures Distinct(acts) && forall a :: a in acts <==> (a.SetRole? || a.SetOwner?) && a.on == n && Wanted(c, a)
    ensures blocked <==> Mislabelled(c, claims[n])
  {
    var k := claims[n];
    ClaimsExist(c, k);
    var o := c.objs[n];
    acts, blocked := [], false;
    if o.role != Some(k.role) {
      if o.role.Some? { blocked := true; } else { acts := acts + [SetRole(n, k.role)]; }
    }
    if o.owner != Some(k.owner) {
      if o.owner.Some? { blocked := true; } else { acts := acts + [SetOwner(n, k.owner)]; }
    }
  }

  /** The labels. */
  method Labels(c: Cluster, claims: map<Zfs, Claim>) returns (acts: seq<Action>, blocked: bool)
    requires Register(c, claims)
    ensures Distinct(acts) && forall a :: a in acts <==> (a.SetRole? || a.SetOwner?) && Wanted(c, a)
    ensures blocked <==> !LabelsAgree(c, claims, claims.Keys)
  {
    acts, blocked := [], false;
    var todo := claims.Keys;
    while todo != {}
      invariant todo <= claims.Keys && Distinct(acts)
      invariant forall a :: a in acts <==>
          (a.SetRole? || a.SetOwner?) && a.on in claims && a.on !in todo && Wanted(c, a)
      invariant blocked <==> !LabelsAgree(c, claims, claims.Keys - todo)
    {
      var n :| n in todo;
      var more, wrong := OneLabel(c, claims, n);
      DistinctJoin(acts, more);
      acts, blocked := acts + more, blocked || wrong;
      todo := todo - {n};
    }
    assert claims.Keys - todo == claims.Keys;
  }

  /** What is destroyed is destroyed before anything is labelled. */
  ghost predicate MarksFirst(acts: seq<Action>) {
    forall i, j :: 0 <= i < j < |acts| && (acts[i].SetRole? || acts[i].SetOwner?) ==> !acts[j].DestroyDeferred?
  }

  /** `acts` are the actions wanted, each once. */
  ghost predicate Planned(c: Cluster, acts: seq<Action>) {
    Distinct(acts) && MarksFirst(acts) && forall a :: a in acts <==> Wanted(c, a)
  }

  lemma LabelsLast(acts: seq<Action>, labels: seq<Action>)
    requires forall a :: a in acts ==> !a.SetRole? && !a.SetOwner?
    requires forall a :: a in labels ==> a.SetRole? || a.SetOwner?
    ensures MarksFirst(acts + labels)
  {
    assert forall i :: 0 <= i < |acts| ==> acts[i] in acts;
    assert forall i :: 0 <= i < |labels| ==> labels[i] in labels;
  }

  /** The whole audit: blocked exactly if something is, and otherwise just what is wanted. */
  method Compute(c: Cluster) returns (p: Plan)
    ensures p.blocked <==> Blocked(c)
    ensures !p.blocked ==> Planned(c, p.actions)
    ensures !p.blocked ==> forall a :: a in p.actions <==> Audit.Asked(c, a)
  {
    forall a ensures Wanted(c, a) <==> Audit.Asked(c, a) { Audit.WantedExactly(c, a); }
    var stamps, noPool := DatasetStamps(c);
    var types, stuck := SnapshotStamps(c);
    var claims, conflict := Gather(c);
    if conflict { return Plan(stamps + types, true); }
    var marks, foreign := SelfSnapshots(c, claims);
    var labels, wrong := Labels(c, claims);
    DistinctJoin(stamps, types);
    DistinctJoin(stamps + types, marks);
    DistinctJoin(stamps + types + marks, labels);
    LabelsLast(stamps + types + marks, labels);
    p := Plan(stamps + types + marks + labels, noPool || stuck || foreign || wrong);
  }

  // ----------------------------------------------------------------- carrying it out

  /** The label is for an old self-snapshot that is gone, and there is no other. */
  ghost predicate Dead(c: Cluster, a: Action) {
    && (a.SetRole? || a.SetOwner?) && a.on !in c.objs && a.on.Sn? && Text(a.on.ref.short) == RESTORE_SOURCE
    && SnapsBy(c, RESTORE_SOURCE) == {}
  }

  /** `left` is what is still to do, and perhaps labels that have become pointless. */
  ghost predicate Remaining(c: Cluster, left: seq<Action>) {
    && !Blocked(c) && Distinct(left)
    && (forall a :: Wanted(c, a) ==> a in left)
    && (forall a :: a in left ==> Wanted(c, a) || Dead(c, a))
  }

  lemma StaysDead(c: Cluster, a: Action, b: Action)
    requires Wanted(c, a) && Possible(c, a) && Dead(c, b)
    ensures Dead(Do(c, a), b)
  {
    StepAlike(c, a);
    AlikeSnaps(c, Do(c, a), Razed(c, a), RESTORE_SOURCE);
  }

  lemma LostIsDead(c: Cluster, a: Action, b: Action)
    requires Wanted(c, a) && Possible(c, a) && Wanted(c, b) && OnLost(c, a, b)
    ensures Dead(Do(c, a), b)
  {
    var k :| Claimed(c, k) && k.on == b.on;
    ClaimedIsOnly(c, k);
    StepAlike(c, a);
    AlikeSnaps(c, Do(c, a), Razed(c, a), RESTORE_SOURCE);
  }

  lemma WantedOrDead(c: Cluster, a: Action, b: Action)
    requires Wanted(c, a) && OneClaimEach(c) && Unambiguous(c) && Possible(c, a) && a != b
    requires Wanted(c, b) || Dead(c, b)
    ensures Wanted(Do(c, a), b) || Dead(Do(c, a), b)
  {
    StepWanted(c, a, b);
    if Dead(c, b) {
      StaysDead(c, a, b);
    } else if OnLost(c, a, b) {
      LostIsDead(c, a, b);
    }
  }

  lemma OneDone(c: Cluster, left: seq<Action>)
    requires Remaining(c, left) && left != [] && Possible(c, left[0])
    ensures Wanted(c, left[0]) && Remaining(Do(c, left[0]), left[1..])
  {
    var a := left[0];
    assert Wanted(c, a);
    UnblockedMeans(c);
    StepLeaves(c, a);
    StepUnblocked(c, a);
    forall b | Wanted(Do(c, a), b) ensures b in left[1..] { StepWanted(c, a, b); }
    forall b | b in left[1..] ensures Wanted(Do(c, a), b) || Dead(Do(c, a), b) {
      assert b != a && b in left;
      WantedOrDead(c, a, b);
    }
  }

  /** Nothing becomes pointless where nothing is doomed. */
  lemma OneDoneSound(c: Cluster, left: seq<Action>)
    requires Remaining(c, left) && left != [] && Sound(c) && forall a :: a in left ==> Wanted(c, a)
    ensures Possible(c, left[0]) && Sound(Do(c, left[0])) && forall b :: b in left[1..] ==> Wanted(Do(c, left[0]), b)
  {
    var a := left[0];
    UnblockedMeans(c);
    StepLeaves(c, a);
    SoundStays(c, a);
    forall b | b in left[1..] ensures Wanted(Do(c, a), b) {
      assert b != a;
      StepWanted(c, a, b);
      SoundLosesNoLabel(c, a, b);
    }
  }

  lemma DeadIsSound(c: Cluster, a: Action)
    requires Dead(c, a)
    ensures Sound(c)
  {
    forall k | Claimed(c, k) && k.on.Sn? && Text(k.on.ref.short) == RESTORE_SOURCE
      ensures k.on in SnapsBy(c, RESTORE_SOURCE)
    {
      ClaimedIsOnly(c, k);
    }
  }

  /** Nothing in Kubernetes is changed but for stamps that are set and source types that were missing. */
  ghost predicate OnlyFilledIn(c: Cluster, c': Cluster) {
    && c'.pools == c.pools && c'.datasets.Keys == c.datasets.Keys && c'.snapshots.Keys == c.snapshots.Keys
    && (forall d :: d in c.datasets ==>
          && (c.datasets[d].provisioned ==> c'.datasets[d] == c.datasets[d])
          && c'.datasets[d] in {c.datasets[d], c.datasets[d].(provisioned := true)})
    && (forall s :: s in c.snapshots ==>
          && (c.snapshots[s].provisioned ==> c'.snapshots[s].provisioned)
          && (c.snapshots[s].sourceType.Some? ==> c'.snapshots[s].sourceType == c.snapshots[s].sourceType)
          && c'.snapshots[s].(provisioned := true, sourceType := None)
             == c.snapshots[s].(provisioned := true, sourceType := None))
  }

  /** No label is overwritten, no dataset and no cloned snapshot is gone, no object has a new origin. */
  ghost predicate Unharmed(c: Cluster, c': Cluster) {
    && (forall n :: n in c'.objs ==> n in c.objs)
    && (forall n :: n in c.objs && (n.Ds? || HasClone(c, n.ref)) ==> n in c'.objs)
    && (forall n :: n in c'.objs ==>
          && c'.objs[n].origin == c.objs[n].origin
          && (c.objs[n].role.Some? ==> c'.objs[n].role == c.objs[n].role)
          && (c.objs[n].owner.Some? ==> c'.objs[n].owner == c.objs[n].owner))
  }

  lemma UnharmedStep(c: Cluster, c1: Cluster, a: Action)
    requires Unharmed(c, c1) && Wanted(c1, a) && Possible(c1, a)
    ensures Unharmed(c, Do(c1, a))
  {
  }

  ghost predicate Harmless(c: Cluster, c': Cluster) {
    OnlyFilledIn(c, c') && Unharmed(c, c')
  }

  lemma FilledIn(c: Cluster, a: Action)
    requires Possible(c, a)
    ensures OnlyFilledIn(c, Do(c, a))
  {
  }

  lemma FilledInTwice(c: Cluster, c1: Cluster, c2: Cluster)
    requires OnlyFilledIn(c, c1) && OnlyFilledIn(c1, c2)
    ensures OnlyFilledIn(c, c2)
  {
    forall s | s in c.snapshots
      ensures c2.snapshots[s].(provisioned := true, sourceType := None)
        == c.snapshots[s].(provisioned := true, sourceType := None)
    {
      assert s in c1.snapshots;
    }
  }

  lemma HarmlessStep(c: Cluster, c1: Cluster, a: Action)
    requires Harmless(c, c1) && Wanted(c1, a) && Possible(c1, a)
    ensures Harmless(c, Do(c1, a))
  {
    UnharmedStep(c, c1, a);
    FilledIn(c1, a);
    FilledInTwice(c, c1, Do(c1, a));
  }

  lemma HarmlessTwice(c: Cluster, c1: Cluster, c2: Cluster)
    requires Harmless(c, c1) && Harmless(c1, c2)
    ensures Harmless(c, c2)
  {
    FilledInTwice(c, c1, c2);
  }

  /** After `acts[..i]`: the clone-less snapshot `r` is gone if it was to be destroyed, and its
      label `b` was not set. */
  ghost predicate Stopping(c: Cluster, acts: seq<Action>, i: nat, r: SnapRef, b: Action)
    requires i <= |acts|
  {
    !HasClone(c, r) && (DestroyDeferred(r) in acts[..i] ==> Sn(r) !in c.objs) && b !in acts[..i]
  }

  lemma StoppingStep(c: Cluster, acts: seq<Action>, i: nat, r: SnapRef, b: Action)
    requires MarksFirst(acts) && i < |acts| && Possible(c, acts[i]) && Stopping(c, acts, i, r, b)
    requires DestroyDeferred(r) in acts && (b.SetRole? || b.SetOwner?) && b.on == Sn(r)
    ensures Stopping(Do(c, acts[i]), acts, i + 1, r, b)
  {
    ClonesStay(c, acts[i], r);
    TakeMore(acts, i);
    var j :| 0 <= j < |acts| && acts[j] == DestroyDeferred(r);
    assert j < i ==> acts[j] in acts[..i];
  }

  /** Halfway through the plan `acts` made for `c0`; if something was doomed, `k` was, and `b` is its label. */
  ghost predicate Running(c0: Cluster, c: Cluster, acts: seq<Action>, i: nat, k: Claim, b: Action)
    requires i <= |acts|
  {
    && Remaining(c, acts[i..]) && Harmless(c0, c) && MarksFirst(acts)
    && (Sound(c0) ==> Sound(c) && forall a :: a in acts[i..] ==> Wanted(c, a))
    && (!Sound(c0) ==>
          && k.on.Sn? && DestroyDeferred(k.on.ref) in acts && b in acts && (b.SetRole? || b.SetOwner?) && b.on == k.on
          && Stopping(c, acts, i, k.on.ref, b))
  }

  lemma Watch(c: Cluster, acts: seq<Action>) returns (k: Claim, b: Action)
    requires !Blocked(c) && Planned(c, acts)
    ensures Running(c, c, acts, 0, k, b)
  {
    assert acts[0..] == acts;
    k, b := *, *;
    if !Sound(c) {
      k :| Doomed(c, k);
      DoomedIsDestroyed(c, k);
      b := LabelOf(c, k);
    }
  }

  lemma RunningStep(c0: Cluster, c: Cluster, acts: seq<Action>, i: nat, k: Claim, b: Action)
    requires i < |acts| && Running(c0, c, acts, i, k, b) && Possible(c, acts[i])
    ensures Running(c0, Do(c, acts[i]), acts, i + 1, k, b)
  {
    assert acts[i..][1..] == acts[i + 1..];
    OneDone(c, acts[i..]);
    HarmlessStep(c0, c, acts[i]);
    if Sound(c0) { OneDoneSound(c, acts[i..]); } else { StoppingStep(c, acts, i, k.on.ref, b); }
  }

  class Migrator {
    var c: Cluster

    constructor (c: Cluster)
      ensures this.c == c
    {
      this.c := c;
    }

    /** Run the plan, or only its first `calls` actions if it is interrupted there. It stops at an action
        whose target is missing; run to the end it is successful exactly if nothing is doomed. */
    method Apply(actions: seq<Action>, calls: nat) returns (ok: bool, done: nat)
      requires !Blocked(c) && Planned(c, actions)
      modifies this
      ensures done <= |actions| && Remaining(c, actions[done..]) && Harmless(old(c), c)
      ensures ok ==> done == if calls < |actions| then calls else |actions|
      ensures !ok ==> Sound(c)
      ensures Sound(old(c)) ==> ok && Sound(c)
      ensures !Sound(old(c)) && calls >= |actions| ==> !ok
    {
      done := 0;
      ghost var k, b := Watch(c, actions);
      while done < |actions| && done < calls
        invariant done <= |actions| && done <= calls && Running(old(c), c, actions, done, k, b)
      {
        if !Possible(c, actions[done]) {
          assert actions[done] in actions[done..];
          DeadIsSound(c, actions[done]);
          return false, done;
        }
        RunningStep(old(c), c, actions, done, k, b);
        c := Do(c, actions[done]);
        done := done + 1;
      }
      assert actions[..|actions|] == actions;
      ok := true;
    }

    /** Interrupted wherever you like, any number of times, and then run to the end: the audit afterwards
        is clean if nothing is doomed. Otherwise an uninterrupted run stops, and the next one succeeds. */
    method Migrate(interruptions: seq<nat>) returns (p: Plan, ok: bool)
      modifies this
      ensures Blocked(old(c)) ==> p.blocked && !ok && c == old(c)
      ensures !Blocked(old(c)) ==>
          !Blocked(c) && Harmless(old(c), c) && (if ok then p == Plan([], false) && Clean(c) else Sound(c))
      ensures ok ==> Audit.Tidy(c)
      ensures !Blocked(old(c)) && Sound(old(c)) ==> ok
      ensures !Blocked(old(c)) && !Sound(old(c)) && interruptions == [] ==> !ok
    {
      p := Compute(c);
      if p.blocked { return p, false; }
      for i := 0 to |interruptions|
        invariant !Blocked(c) && !p.blocked && Planned(c, p.actions) && Harmless(old(c), c)
        invariant (Sound(old(c)) ==> Sound(c)) && (i == 0 ==> c == old(c))
      {
        ghost var before := c;
        var stopped, done := Apply(p.actions, interruptions[i]);
        HarmlessTwice(old(c), before, c);
        p := Compute(c);
      }
      ghost var before := c;
      var done;
      ok, done := Apply(p.actions, |p.actions|);
      HarmlessTwice(old(c), before, c);
      p := Compute(c);
      FirstIsIn(p.actions);
      Audit.CleanExactly(c);
    }
  }
}
