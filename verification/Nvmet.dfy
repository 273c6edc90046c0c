/** The NVMe target as a configfs tree: the incremental reconciler
    (internal/nvmet/configfs.go), which only writes what drifted. */
module Nvmet {
  import opened Options
  import opened Seqs

  /** A subsystem or host NQN. */
  datatype Nqn = Nqn(text: string)

  /** What a file holds, or its name. */
  datatype Text = Text(chars: string)

  /** An attribute file: absent, or its contents. */
  type Attr = Option<Text>

  function Read(a: Attr): Text {
    if a.Some? then a.value else Text("")
  }

  /** A 0/1 attribute file. */
  datatype Flag = Unset | Off | On

  datatype Namespace = Namespace(device: Attr, enable: Flag)

  /** subsystems/<nqn>: its allow-any flag, the host links, and namespace 1. */
  datatype Sub = Sub(allowAny: Flag, hosts: set<Nqn>, ns: Option<Namespace>)

  /** One desired subsystem. An empty host list allows any host, no key asks for none. */
  datatype Subsystem = Subsystem(nqn: Nqn, device: Text, hosts: seq<Nqn>, key: Attr)

  /** The tree: subsystems, host objects with their DH-CHAP key, links of the shared port, port attributes. */
  datatype Tree = Tree(subs: map<Nqn, Sub>, hosts: map<Nqn, Attr>, links: set<Nqn>, port: map<Text, Text>)

  /** Links point at what exists. */
  ghost predicate WellFormed(t: Tree) {
    && (forall n, h :: n in t.subs && h in t.subs[n].hosts ==> h in t.hosts)
    && t.links <= t.subs.Keys
  }

  // ------------------------------------------------------------ what is wanted

  predicate AllowAny(s: Subsystem) {
    |s.hosts| == 0
  }

  function Wants(s: Subsystem): Flag {
    if AllowAny(s) then On else Off
  }

  /** The subsystem is exactly as desired: nothing to write for it. */
  ghost predicate SubOk(t: Tree, s: Subsystem) {
    && s.nqn in t.subs && s.nqn in t.links
    && var sub := t.subs[s.nqn];
    && sub.allowAny == Wants(s)
    && (!AllowAny(s) ==> sub.hosts == Elems(s.hosts))
    && sub.ns.Some? && Read(sub.ns.value.device) == s.device && sub.ns.value.enable == On
  }

  /** The kernel refuses to allow any host while hosts are linked. */
  predicate Refuses(sub: Sub, s: Subsystem) {
    AllowAny(s) && sub.allowAny != On && sub.hosts != {}
  }

  predicate Barred(t: Tree, s: Subsystem) {
    s.nqn in t.subs && Refuses(t.subs[s.nqn], s)
  }

  /** Some wanted subsystem cannot be made as it is wanted. */
  ghost predicate AnyBarred(t: Tree, want: map<Nqn, Subsystem>) {
    exists n :: n in want && Barred(t, want[n])
  }

  /** That is so whenever an allow-list that was put in place is emptied. */
  lemma EmptiedListIsBarred(t: Tree, s: Subsystem, s': Subsystem)
    requires SubOk(t, s) && !AllowAny(s) && AllowAny(s') && s'.nqn == s.nqn
    ensures Barred(t, s')
  {
    assert s.hosts[0] in Elems(s.hosts);
  }

  ghost predicate HostOk(t: Tree, s: Subsystem, h: Nqn) {
    h in t.hosts && (s.key.Some? ==> t.hosts[h] == s.key)
  }

  /** Its host objects exist and carry its key. */
  ghost predicate HostsOk(t: Tree, s: Subsystem) {
    forall h :: h in s.hosts ==> HostOk(t, s, h)
  }

  ghost predicate PortOk(t: Tree, config: map<Text, Text>) {
    forall a :: a in config ==> a in t.port && t.port[a] == config[a]
  }

  /** Nothing at all to write. */
  ghost predicate Settled(t: Tree, config: map<Text, Text>, want: map<Nqn, Subsystem>) {
    && PortOk(t, config) && t.subs.Keys == want.Keys
    && forall n :: n in want ==> SubOk(t, want[n]) && HostsOk(t, want[n])
  }

  /** Every host gets one key from all the subsystems that list it. */
  ghost predicate OneKeyPerHost(want: map<Nqn, Subsystem>) {
    forall m, n, h ::
      m in want && n in want && h in want[m].hosts && h in want[n].hosts && want[m].key.Some? && want[n].key.Some?
      ==> want[m].key == want[n].key
  }

  /** Once it settled, a subsystem is open to everyone exactly if it names no host, and to the hosts named otherwise;
      and a subsystem that is not wanted is gone. */
  lemma OpenExactly(t: Tree, config: map<Text, Text>, want: map<Nqn, Subsystem>, n: Nqn)
    requires Settled(t, config, want)
    ensures n in t.subs <==> n in want
    ensures n in want && want[n].nqn == n ==>
        && (t.subs[n].allowAny == On <==> want[n].hosts == [])
        && (t.subs[n].allowAny == Off <==> want[n].hosts != [])
        && (want[n].hosts != [] ==> forall h :: h in t.subs[n].hosts <==> h in want[n].hosts)
  {
    if n in want { assert SubOk(t, want[n]); }
  }

  lemma SettledIsNotBarred(t: Tree, config: map<Text, Text>, want: map<Nqn, Subsystem>)
    requires Settled(t, config, want)
    ensures !AnyBarred(t, want)
  {
  }

  /** What an initiator can see of a subsystem. */
  datatype Export = Export(allowAny: Flag, hosts: Option<set<Nqn>>, device: Text, enabled: bool, linked: bool)

  ghost function Visible(t: Tree, s: Subsystem): Export
    requires s.nqn in t.subs
  {
    var sub := t.subs[s.nqn];
    Export(sub.allowAny, if AllowAny(s) then None else Some(sub.hosts),
           if sub.ns.Some? then Read(sub.ns.value.device) else Text(""),
           sub.ns.Some? && sub.ns.value.enable == On, s.nqn in t.links)
  }

  ghost predicate Keyed(want: map<Nqn, Subsystem>) {
    forall n :: n in want ==> want[n].nqn == n
  }

  ghost function View(t: Tree, want: map<Nqn, Subsystem>): map<Nqn, Export>
    requires t.subs.Keys == want.Keys && Keyed(want)
  {
    map n | n in want :: Visible(t, want[n])
  }

  /** What was written to, in order. */
  datatype Place = OnSub(nqn: Nqn) | OnHost(host: Nqn) | OnPort(attr: Text)

  /** Two keys for one host object: no tree is ever settled. */
  lemma HostsNeedOneKey(t: Tree, want: map<Nqn, Subsystem>)
    requires forall n :: n in want ==> HostsOk(t, want[n])
    ensures OneKeyPerHost(want)
  {
    forall m, n, h | m in want && n in want && h in want[m].hosts && h in want[n].hosts && want[m].key.Some?
      && want[n].key.Some?
      ensures want[m].key == want[n].key
    {
      assert HostsOk(t, want[m]) && HostsOk(t, want[n]);
    }
  }

  /** Initiators see one and the same thing from any two trees in which the wanted subsystems are right. */
  lemma RightTreesLookAlike(t: Tree, t': Tree, want: map<Nqn, Subsystem>)
    requires Keyed(want) && t.subs.Keys == want.Keys && t'.subs.Keys == want.Keys
    requires forall n :: n in want ==> SubOk(t, want[n]) && SubOk(t', want[n])
    ensures View(t, want) == View(t', want)
  {
    forall n | n in want ensures Visible(t, want[n]) == Visible(t', want[n]) {
      assert SubOk(t, want[n]) && SubOk(t', want[n]);
    }
  }

  /** `t` on the way from `t0`: the subsystems in `done` are as wanted, the rest are as they were. */
  ghost predicate Halfway(t0: Tree, t: Tree, want: map<Nqn, Subsystem>, done: set<Nqn>) {
    && done <= want.Keys && WellFormed(t) && t.port == t0.port && t.subs.Keys == t0.subs.Keys + done
    && (forall n :: n in done ==> SubOk(t, want[n]))
    && (forall n :: n in t0.subs && n !in done ==> t.subs[n] == t0.subs[n])
    && (forall n :: n in want && n !in done ==> (n in t.links <==> n in t0.links))
    && (OneKeyPerHost(want) ==> forall n :: n in done ==> HostsOk(t, want[n]))
  }

  ghost predicate Quiet(t: Tree, want: map<Nqn, Subsystem>, done: set<Nqn>) {
    forall n :: n in done && n in want ==> SubOk(t, want[n]) && HostsOk(t, want[n])
  }

  /** Of the subsystems wanted, only those that were not right are written to. */
  ghost predicate Spared(log: seq<Place>, from: nat, t: Tree, want: map<Nqn, Subsystem>) {
    forall i :: from <= i < |log| && log[i].OnSub? && log[i].nqn in want ==> !SubOk(t, want[log[i].nqn])
  }

  ghost predicate Progress(t0: Tree, l0: seq<Place>, t: Tree, l: seq<Place>, want: map<Nqn, Subsystem>,
                           done: set<Nqn>) {
    && Halfway(t0, t, want, done)
    && l0 <= l && (l == l0 ==> t == t0) && (l == l0 <==> Quiet(t0, want, done))
    && Spared(l, |l0|, t0, want)
  }

  /** What was logged from `from` on: host objects only; or they and subsystem `n`. */
  ghost predicate OnlyHosts(log: seq<Place>, from: nat) {
    forall i :: from <= i < |log| ==> log[i].OnHost?
  }

  ghost predicate OnlyOn(log: seq<Place>, from: nat, n: Nqn) {
    forall i :: from <= i < |log| ==> log[i].OnHost? || log[i] == OnSub(n)
  }

  lemma SparedMore(l0: seq<Place>, l: seq<Place>, l': seq<Place>, t0: Tree, want: map<Nqn, Subsystem>, n: Nqn)
    requires n in want && l0 <= l <= l' && Spared(l, |l0|, t0, want)
    requires (SubOk(t0, want[n]) ==> OnlyHosts(l', |l|)) && OnlyOn(l', |l|, n)
    ensures Spared(l', |l0|, t0, want)
  {
    forall i | |l0| <= i < |l'| && l'[i].OnSub? && l'[i].nqn in want ensures !SubOk(t0, want[l'[i].nqn]) {
      assert i < |l| ==> l[i] == l'[i];
    }
  }

  /** `t'` is `t` with `s` served; nothing else moved but the keys of its hosts. */
  ghost predicate Served(t: Tree, t': Tree, s: Subsystem) {
    && SubOk(t', s) && HostsOk(t', s)
    && t'.subs.Keys == t.subs.Keys + {s.nqn} && t'.links == t.links + {s.nqn} && t'.port == t.port
    && (forall n :: n in t.subs && n != s.nqn ==> t'.subs[n] == t.subs[n])
    && t'.subs[s.nqn].hosts <= t'.hosts.Keys + (if s.nqn in t.subs then t.subs[s.nqn].hosts else {})
    && t.hosts.Keys <= t'.hosts.Keys
    && (forall h :: h in t.hosts ==> t'.hosts[h] == if h in s.hosts && s.key.Some? then s.key else t.hosts[h])
  }

  /** The namespace once it serves `device`. */
  ghost function Serving(ns: Option<Namespace>, device: Text): Namespace {
    var cur := if ns.Some? then ns.value.device else None;
    Namespace(if Read(cur) == device then cur else Some(device), On)
  }

  /** The host objects once those in `hs` exist and carry the key, if there is one. */
  ghost function Given(hosts: map<Nqn, Attr>, hs: set<Nqn>, key: Attr): map<Nqn, Attr> {
    hosts + map h | h in hs :: if key.Some? then key else if h in hosts then hosts[h] else None
  }

  /** `t` after the hosts `hs` were created, given the key and linked to `n`. */
  ghost function Linked(t: Tree, n: Nqn, hs: set<Nqn>, key: Attr): Tree
    requires n in t.subs
  {
    t.(hosts := Given(t.hosts, hs, key), subs := t.subs[n := t.subs[n].(hosts := t.subs[n].hosts + hs)])
  }

  /** `t` with the access control of `s` in place. */
  ghost function Admitted(t: Tree, s: Subsystem): Tree
    requires s.nqn in t.subs
  {
    var sub := t.subs[s.nqn].(allowAny := Wants(s));
    if AllowAny(s) then t.(subs := t.subs[s.nqn := sub])
    else Linked(t, s.nqn, Elems(s.hosts), s.key).(subs := t.subs[s.nqn := sub.(hosts := Elems(s.hosts))])
  }

  ghost function Ensured(t: Tree, s: Subsystem): Tree {
    var t0 := if s.nqn in t.subs then t else t.(subs := t.subs[s.nqn := Sub(Unset, {}, None)]);
    var t1 := Admitted(t0, s);
    t1.(subs := t1.subs[s.nqn := t1.subs[s.nqn].(ns := Some(Serving(t0.subs[s.nqn].ns, s.device)))],
        links := t.links + {s.nqn})
  }

  lemma EnsuredServes(t: Tree, s: Subsystem)
    ensures Served(t, Ensured(t, s), s)
  {
  }

  lemma OthersStay(t: Tree, t': Tree, want: map<Nqn, Subsystem>, done: set<Nqn>, n: Nqn)
    requires Keyed(want) && n in want && done <= want.Keys && Served(t, t', want[n])
    requires forall m :: m in done ==> SubOk(t, want[m])
    ensures forall m :: m in done + {n} ==> SubOk(t', want[m])
  {
  }

  lemma KeysStay(t: Tree, t': Tree, want: map<Nqn, Subsystem>, done: set<Nqn>, n: Nqn)
    requires Keyed(want) && n in want && done <= want.Keys && OneKeyPerHost(want) && Served(t, t', want[n])
    requires forall m :: m in done ==> HostsOk(t, want[m])
    ensures forall m :: m in done + {n} ==> HostsOk(t', want[m])
  {
  }

  lemma HalfwayStep(t0: Tree, t: Tree, t': Tree, want: map<Nqn, Subsystem>, done: set<Nqn>, n: Nqn)
    requires Keyed(want) && n in want && n !in done && Halfway(t0, t, want, done) && Served(t, t', want[n])
    ensures Halfway(t0, t', want, done + {n})
    ensures SubOk(t, want[n]) <==> SubOk(t0, want[n])
  {
    assert WellFormed(t');
    OthersStay(t, t', want, done, n);
    if OneKeyPerHost(want) { KeysStay(t, t', want, done, n); }
  }

  lemma GivenSame(hosts: map<Nqn, Attr>, hs: set<Nqn>, key: Attr)
    requires forall h :: h in hs ==> h in hosts && (key.Some? ==> hosts[h] == key)
    ensures Given(hosts, hs, key) == hosts
  {
  }

  lemma LinkedSame(t: Tree, n: Nqn, hs: set<Nqn>, key: Attr)
    requires n in t.subs
    requires forall h :: h in hs ==> h in t.hosts && (key.Some? ==> t.hosts[h] == key) && h in t.subs[n].hosts
    ensures Linked(t, n, hs, key) == t
  {
    GivenSame(t.hosts, hs, key);
    assert t.subs[n].hosts + hs == t.subs[n].hosts;
  }

  lemma EnsuredSame(t: Tree, s: Subsystem)
    requires SubOk(t, s) && HostsOk(t, s)
    ensures Ensured(t, s) == t
  {
    if !AllowAny(s) { LinkedSame(t, s.nqn, Elems(s.hosts), s.key); }
    assert t.links + {s.nqn} == t.links;
  }

  lemma ProgressStep(t0: Tree, l0: seq<Place>, t: Tree, l: seq<Place>, t': Tree, l': seq<Place>,
                     want: map<Nqn, Subsystem>, done: set<Nqn>, n: Nqn)
    requires Keyed(want) && n in want && n !in done && Progress(t0, l0, t, l, want, done)
    requires t' == Ensured(t, want[n]) && l <= l' && (l' == l <==> SubOk(t, want[n]) && HostsOk(t, want[n]))
    requires (SubOk(t, want[n]) ==> OnlyHosts(l', |l|)) && OnlyOn(l', |l|, n)
    ensures Progress(t0, l0, t', l', want, done + {n})
  {
    EnsuredServes(t, want[n]);
    HalfwayStep(t0, t, t', want, done, n);
    if l' == l { EnsuredSame(t, want[n]); }
    SparedMore(l0, l, l', t0, want, n);
  }

  lemma QuietKeys(t: Tree, want: map<Nqn, Subsystem>)
    requires Keyed(want) && Quiet(t, want, want.Keys)
    ensures want.Keys <= t.subs.Keys
  {
    forall n | n in want ensures n in t.subs {
      assert SubOk(t, want[n]);
    }
  }

  /** Nothing was written at all exactly when there was nothing to write. */
  lemma QuietIsSettled(t0: Tree, l0: seq<Place>, t: Tree, l: seq<Place>, l': seq<Place>, want: map<Nqn, Subsystem>,
                       config: map<Text, Text>)
    requires l0 <= l <= l' && (l == l0 <==> PortOk(t0, config) && t0.subs.Keys <= want.Keys)
    requires l' == l <==> Quiet(t, want, want.Keys)
    requires forall n :: n in want ==>
        (SubOk(t, want[n]) <==> SubOk(t0, want[n])) && (HostsOk(t, want[n]) <==> HostsOk(t0, want[n]))
    requires Keyed(want)
    ensures l' == l0 <==> Settled(t0, config, want)
  {
    assert Quiet(t, want, want.Keys) <==> Quiet(t0, want, want.Keys);
    if Quiet(t0, want, want.Keys) { QuietKeys(t0, want); }
  }

  lemma ReachedIsSettled(t: Tree, t': Tree, want: map<Nqn, Subsystem>, config: map<Text, Text>)
    requires Halfway(t, t', want, want.Keys) && PortOk(t, config) && t.subs.Keys <= want.Keys
    ensures Settled(t', config, want) <==> OneKeyPerHost(want)
  {
    if Settled(t', config, want) { HostsNeedOneKey(t', want); }
  }

  lemma SparedAfter(l0: seq<Place>, l: seq<Place>, l': seq<Place>, t0: Tree, t: Tree, want: map<Nqn, Subsystem>)
    requires l0 <= l <= l' && Spared(l', |l|, t, want)
    requires forall n :: n in want ==> (SubOk(t, want[n]) <==> SubOk(t0, want[n]))
    requires forall i :: |l0| <= i < |l| && l[i].OnSub? ==> l[i].nqn !in want
    ensures Spared(l', |l0|, t0, want)
  {
    assert forall i :: 0 <= i < |l| ==> l[i] == l'[i];
  }

  /** Setting up the port and removing the unwanted leaves the wanted as they were. */
  lemma PrunedSame(t: Tree, t': Tree, want: map<Nqn, Subsystem>)
    requires WellFormed(t) && Keyed(want) && t'.hosts == t.hosts
    requires t'.subs == t.subs - (t.subs.Keys - want.Keys) && t'.links == t.links - (t.subs.Keys - want.Keys)
    ensures WellFormed(t') && t'.subs.Keys <= want.Keys
    ensures forall n :: n in want ==>
        (SubOk(t', want[n]) <==> SubOk(t, want[n])) && (HostsOk(t', want[n]) <==> HostsOk(t, want[n]))
    ensures AnyBarred(t', want) <==> AnyBarred(t, want)
  {
    assert forall n :: n in want ==> (Barred(t', want[n]) <==> Barred(t, want[n]));
  }

  /** The later of two entries with one NQN wins. */
  function Wanted(desired: seq<Subsystem>): (want: map<Nqn, Subsystem>)
    ensures forall n :: n in want ==> want[n] in desired && want[n].nqn == n
    ensures forall s :: s in desired ==> s.nqn in want
  {
    if desired == [] then map[]
    else
      var s := desired[|desired| - 1];
      Wanted(desired[..|desired| - 1])[s.nqn := s]
  }

  lemma {:induction false} LastOneWins(desired: seq<Subsystem>, i: nat)
    requires i < |desired| && forall j :: i < j < |desired| ==> desired[j].nqn != desired[i].nqn
    ensures Wanted(desired)[desired[i].nqn] == desired[i]
  {
    var k := |desired| - 1;
    if i < k { LastOneWins(desired[..k], i); }
  }

  ghost predicate AccessOk(sub: Sub, s: Subsystem) {
    && sub.allowAny == Wants(s)
    && (!AllowAny(s) ==> sub.hosts == Elems(s.hosts))
  }

  lemma GivenMore(hosts: map<Nqn, Attr>, hs: set<Nqn>, h: Nqn, key: Attr)
    ensures Given(Given(hosts, hs, key), {h}, key) == Given(hosts, hs + {h}, key)
  {
  }

  lemma LinkedOne(t: Tree, n: Nqn, h: Nqn, key: Attr, t': Tree)
    requires n in t.subs && n in t'.subs && t' == t.(hosts := t'.hosts, subs := t'.subs)
    requires t'.subs == t.subs[n := t.subs[n].(hosts := t'.subs[n].hosts)]
    requires t'.subs[n].hosts == (if h in t.subs[n].hosts then t.subs[n].hosts else t.subs[n].hosts + {h})
    requires t'.hosts == t.hosts[h := if key.Some? then key else if h in t.hosts then t.hosts[h] else None]
    ensures t' == Linked(t, n, {h}, key)
  {
    assert t'.subs[n].hosts == t.subs[n].hosts + {h};
  }

  lemma LinkedMore(t: Tree, n: Nqn, hs: set<Nqn>, h: Nqn, key: Attr)
    requires n in t.subs
    ensures Linked(Linked(t, n, hs, key), n, {h}, key) == Linked(t, n, hs + {h}, key)
  {
    GivenMore(t.hosts, hs, h, key);
    assert t.subs[n].hosts + hs + {h} == t.subs[n].hosts + (hs + {h});
  }

  class Target {
    var subs: map<Nqn, Sub>
    var hosts: map<Nqn, Attr>
    var links: set<Nqn>
    var port: map<Text, Text>
    const config: map<Text, Text>
    ghost var log: seq<Place>

    ghost function T(): Tree
      reads this
    {
      Tree(subs, hosts, links, port)
    }

    constructor (t: Tree, config: map<Text, Text>)
      ensures T() == t && this.config == config && log == []
    {
      subs, hosts, links, port, this.config, log := t.subs, t.hosts, t.links, t.port, config, [];
    }

    // ---- configfs primitives; what the kernel refuses is required ----

    method MakeSub(n: Nqn)
      requires n !in subs
      modifies this
      ensures T() == old(T()).(subs := old(subs)[n := Sub(Unset, {}, None)]) && log == old(log) + [OnSub(n)]
    {
      subs := subs[n := Sub(Unset, {}, None)];
      log := log + [OnSub(n)];
    }

    /** An unchanged value is rejected by the kernel. */
    method WriteAllowAny(n: Nqn, v: Flag)
      requires n in subs && subs[n].allowAny != v
      // any host cannot be allowed while hosts are linked
      requires v == On ==> subs[n].hosts == {}
      modifies this
      ensures T() == old(T()).(subs := old(subs)[n := old(subs)[n].(allowAny := v)]) && log == old(log) + [OnSub(n)]
    {
      subs := subs[n := subs[n].(allowAny := v)];
      log := log + [OnSub(n)];
    }

    method SetNamespace(n: Nqn, ns: Option<Namespace>)
      requires n in subs && subs[n].ns != ns
      // device_path cannot be changed while the namespace is enabled
      requires ns.Some? && subs[n].ns.Some? && ns.value.device != subs[n].ns.value.device ==>
          subs[n].ns.value.enable != On
      modifies this
      ensures T() == old(T()).(subs := old(subs)[n := old(subs)[n].(ns := ns)]) && log == old(log) + [OnSub(n)]
    {
      subs := subs[n := subs[n].(ns := ns)];
      log := log + [OnSub(n)];
    }

    /** Writes 0 to the enable attribute, changed or not; whether the kernel takes it is ignored. */
    method Disable(n: Nqn)
      requires n in subs && subs[n].ns.Some?
      modifies this
      ensures T() == old(T()).(subs := old(subs)[n := old(subs)[n].(ns := Some(old(subs)[n].ns.value.(enable := Off)))])
      ensures log == old(log) + [OnSub(n)]
    {
      subs := subs[n := subs[n].(ns := Some(subs[n].ns.value.(enable := Off)))];
      log := log + [OnSub(n)];
    }

    method SetHosts(n: Nqn, hs: set<Nqn>)
      requires n in subs && hs != subs[n].hosts
      // a host object must exist before it can be linked, and any host must not be allowed
      requires hs <= hosts.Keys + subs[n].hosts && (hs <= subs[n].hosts || subs[n].allowAny != On)
      modifies this
      ensures T() == old(T()).(subs := old(subs)[n := old(subs)[n].(hosts := hs)]) && log == old(log) + [OnSub(n)]
    {
      subs := subs[n := subs[n].(hosts := hs)];
      log := log + [OnSub(n)];
    }

    method SetHost(h: Nqn, key: Attr)
      requires h !in hosts || hosts[h] != key
      modifies this
      ensures T() == old(T()).(hosts := old(hosts)[h := key]) && log == old(log) + [OnHost(h)]
    {
      hosts := hosts[h := key];
      log := log + [OnHost(h)];
    }

    method SetLink(n: Nqn, linked: bool)
      requires n in subs && linked != (n in links)
      modifies this
      ensures T() == old(T()).(links := if linked then old(links) + {n} else old(links) - {n})
      ensures log == old(log) + [OnSub(n)]
    {
      links := if linked then links + {n} else links - {n};
      log := log + [OnSub(n)];
    }

    /** A subsystem directory can go only when it is empty and not linked. */
    method RemoveSub(n: Nqn)
      requires n in subs && n !in links && subs[n].ns.None? && subs[n].hosts == {}
      modifies this
      ensures T() == old(T()).(subs := old(subs) - {n}) && log == old(log) + [OnSub(n)]
    {
      subs := subs - {n};
      log := log + [OnSub(n)];
    }

    // ---------------------------------------------------------------- reconcile

    method EnsurePort()
      modifies this
      ensures T() == old(T()).(port := old(port) + config) && PortOk(T(), config)
      ensures if PortOk(old(T()), config) then T() == old(T()) && log == old(log) else log != old(log)
      ensures old(log) <= log && forall i :: |old(log)| <= i < |log| ==> log[i].OnPort?
    {
      var todo := config.Keys;
      while todo != {}
        invariant todo <= config.Keys
        invariant T() == old(T()).(port := old(port) + (config - todo))
        invariant old(log) <= log && forall i :: |old(log)| <= i < |log| ==> log[i].OnPort?
        invariant if PortOk(old(T()), config - todo) then T() == old(T()) && log == old(log) else log != old(log)
      {
        var a :| a in todo;
        todo := todo - {a};
        if a !in port || port[a] != config[a] {
          port := port[a := config[a]];
          log := log + [OnPort(a)];
        }
        assert port == old(port) + (config - todo);
      }
      assert config - todo == config;
    }

    /** One host: its object, its key, its link. */
    method LinkHost(n: Nqn, h: Nqn, key: Attr)
      requires n in subs && subs[n].allowAny != On
      modifies this
      ensures T() == Linked(old(T()), n, {h}, key)
      ensures log == old(log) <==> h in old(hosts) && (key.Some? ==> old(hosts)[h] == key) && h in old(subs)[n].hosts
      ensures old(log) <= log && (h in old(subs)[n].hosts ==> OnlyHosts(log, |old(log)|)) && OnlyOn(log, |old(log)|, n)
    {
      if h !in hosts { SetHost(h, None); }
      if key.Some? && hosts[h] != key { SetHost(h, key); }
      if h !in subs[n].hosts { SetHosts(n, subs[n].hosts + {h}); }
      LinkedOne(old(T()), n, h, key, T());
    }

    /** Host objects, keys and links for an explicit allow-list. */
    method LinkHosts(s: Subsystem)
      requires s.nqn in subs && subs[s.nqn].allowAny != On
      modifies this
      ensures T() == Linked(old(T()), s.nqn, Elems(s.hosts), s.key)
      ensures log == old(log) <==> HostsOk(old(T()), s) && Elems(s.hosts) <= old(subs)[s.nqn].hosts
      ensures old(log) <= log && (Elems(s.hosts) <= old(subs)[s.nqn].hosts ==> OnlyHosts(log, |old(log)|))
      ensures OnlyOn(log, |old(log)|, s.nqn)
    {
      ghost var done: set<Nqn> := {};
      LinkedSame(T(), s.nqn, {}, s.key);
      for i := 0 to |s.hosts|
        invariant forall h :: h in done <==> h in s.hosts[..i]
        invariant T() == Linked(old(T()), s.nqn, done, s.key)
        invariant log == old(log) <==> forall h :: h in done ==> HostOk(old(T()), s, h) && h in old(subs)[s.nqn].hosts
        invariant old(log) <= log && (done <= old(subs)[s.nqn].hosts ==> OnlyHosts(log, |old(log)|))
        invariant OnlyOn(log, |old(log)|, s.nqn)
      {
        TakeMore(s.hosts, i);
        LinkedMore(old(T()), s.nqn, done, s.hosts[i], s.key);
        if log == old(log) { LinkedSame(old(T()), s.nqn, done, s.key); }
        LinkHost(s.nqn, s.hosts[i], s.key);
        done := done + {s.hosts[i]};
      }
      assert s.hosts[..|s.hosts|] == s.hosts;
      assert done == Elems(s.hosts);
    }

    /** Drop the links of hosts that are no longer allowed. */
    method UnlinkOthers(n: Nqn, keep: set<Nqn>)
      requires n in subs && keep <= subs[n].hosts
      modifies this
      ensures T() == old(T()).(subs := old(subs)[n := old(subs)[n].(hosts := keep)])
      ensures log == old(log) <==> old(subs)[n].hosts == keep
      ensures old(log) <= log && OnlyOn(log, |old(log)|, n)
    {
      var extra := subs[n].hosts - keep;
      assert keep + extra == subs[n].hosts;
      while extra != {}
        invariant keep !! extra && n in subs
        invariant T() == old(T()).(subs := old(subs)[n := old(subs)[n].(hosts := keep + extra)])
        invariant old(log) <= log && OnlyOn(log, |old(log)|, n)
        invariant log == old(log) <==> keep + extra == old(subs)[n].hosts
        invariant keep + extra <= old(subs)[n].hosts
      {
        var h :| h in extra;
        assert keep + extra - {h} == keep + (extra - {h});
        SetHosts(n, subs[n].hosts - {h});
        extra := extra - {h};
      }
      assert keep + extra == keep;
    }

    /** Namespace 1: the device, changed only while disabled, and enabled. */
    method EnsureNamespace(n: Nqn, device: Text)
      requires n in subs
      modifies this
      ensures T() == old(T()).(subs := old(subs)[n := old(subs)[n].(ns := Some(Serving(old(subs)[n].ns, device)))])
      ensures log == old(log) <==>
          old(subs)[n].ns.Some? && Read(old(subs)[n].ns.value.device) == device && old(subs)[n].ns.value.enable == On
      ensures old(log) <= log && OnlyOn(log, |old(log)|, n)
    {
      if subs[n].ns.None? { SetNamespace(n, Some(Namespace(None, Unset))); }
      if Read(subs[n].ns.value.device) != device {
        if subs[n].ns.value.enable != Off { SetNamespace(n, Some(subs[n].ns.value.(enable := Off))); }
        SetNamespace(n, Some(subs[n].ns.value.(device := Some(device))));
      }
      if subs[n].ns.value.enable != On { SetNamespace(n, Some(subs[n].ns.value.(enable := On))); }
      assert subs == old(subs)[n := old(subs)[n].(ns := subs[n].ns)];
    }

    method EnsureAccess(s: Subsystem) returns (ok: bool)
      requires s.nqn in subs
      modifies this
      ensures ok <==> !Refuses(old(subs)[s.nqn], s)
      ensures !ok ==> T() == old(T()) && log == old(log)
      ensures ok ==> T() == Admitted(old(T()), s)
      ensures ok ==> (log == old(log) <==> AccessOk(old(subs)[s.nqn], s) && HostsOk(old(T()), s))
      ensures old(log) <= log && (AccessOk(old(subs)[s.nqn], s) ==> OnlyHosts(log, |old(log)|))
      ensures OnlyOn(log, |old(log)|, s.nqn)
    {
      var n := s.nqn;
      if Refuses(subs[n], s) { return false; }
      if subs[n].allowAny != Wants(s) { WriteAllowAny(n, Wants(s)); }
      assert subs == old(subs)[n := old(subs)[n].(allowAny := Wants(s))];
      if !AllowAny(s) {
        LinkHosts(s);
        UnlinkOthers(n, Elems(s.hosts));
      }
      return true;
    }

    method EnsureSubsystem(s: Subsystem) returns (ok: bool)
      modifies this
      ensures ok <==> !Barred(old(T()), s)
      ensures !ok ==> T() == old(T()) && log == old(log)
      ensures ok ==> T() == Ensured(old(T()), s)
      ensures ok ==> (log == old(log) <==> SubOk(old(T()), s) && HostsOk(old(T()), s))
      ensures old(log) <= log && (SubOk(old(T()), s) ==> OnlyHosts(log, |old(log)|)) && OnlyOn(log, |old(log)|, s.nqn)
    {
      if s.nqn !in subs { MakeSub(s.nqn); }
      ok := EnsureAccess(s);
      if !ok { return; }
      EnsureNamespace(s.nqn, s.device);
      if s.nqn !in links { SetLink(s.nqn, true); }
      assert links == old(links) + {s.nqn};
    }

    /** Detach from the port, disable and remove the namespace, unlink the hosts, remove. */
    method RemoveSubsystem(n: Nqn)
      requires n in subs
      modifies this
      ensures T() == old(T()).(subs := old(subs) - {n}, links := old(links) - {n})
      ensures old(log) < log && OnlyOn(log, |old(log)|, n)
    {
      if n in links { SetLink(n, false); }
      if subs[n].ns.Some? {
        Disable(n);
        SetNamespace(n, None);
      }
      if subs[n].hosts != {} { UnlinkOthers(n, {}); }
      RemoveSub(n);
      assert subs == old(subs) - {n};
      assert links == old(links) - {n};
    }

    /** Remove the subsystems that are not wanted. */
    method RemoveUnwanted(want: set<Nqn>)
      modifies this
      ensures T() == old(T()).(subs := old(subs) - (old(subs).Keys - want),
                               links := old(links) - (old(subs).Keys - want))
      ensures old(log) <= log && (log == old(log) <==> old(subs).Keys <= want)
      ensures forall i :: |old(log)| <= i < |log| && log[i].OnSub? ==> log[i].nqn !in want
    {
      var todo := subs.Keys - want;
      ghost var gone: set<Nqn> := {};
      while todo != {}
        invariant todo <= subs.Keys && todo !! want && gone !! todo && gone !! want
        invariant gone + todo == old(subs).Keys - want
        invariant subs == old(subs) - gone && links == old(links) - gone && hosts == old(hosts) && port == old(port)
        invariant old(log) <= log && (log == old(log) <==> gone == {})
        invariant forall i :: |old(log)| <= i < |log| && log[i].OnSub? ==> log[i].nqn !in want
      {
        var n :| n in todo;
        RemoveSubsystem(n);
        gone, todo := gone + {n}, todo - {n};
      }
      assert gone == old(subs).Keys - want;
    }

    /** All wanted subsystems, up to the first that the kernel refuses; `done` are those before it. */
    method EnsureAll(want: map<Nqn, Subsystem>) returns (ok: bool, ghost done: set<Nqn>)
      requires WellFormed(T()) && Keyed(want) && subs.Keys <= want.Keys
      modifies this
      ensures Progress(old(T()), old(log), T(), log, want, done)
      ensures ok <==> !AnyBarred(old(T()), want)
      ensures if ok then done == want.Keys else AnyBarred(T(), want)
    {
      var todo := want.Keys;
      done := {};
      while todo != {}
        invariant done !! todo && done + todo == want.Keys
        invariant Progress(old(T()), old(log), T(), log, want, done)
        invariant forall n :: n in done ==> !Barred(old(T()), want[n])
      {
        var n :| n in todo;
        ghost var t, l := T(), log;
        assert Barred(t, want[n]) <==> Barred(old(T()), want[n]);
        ok := EnsureSubsystem(want[n]);
        if !ok { return; }
        ProgressStep(old(T()), old(log), t, l, T(), log, want, done, n);
        done, todo := done + {n}, todo - {n};
      }
      assert done == want.Keys;
      ok := true;
    }

    /** Make the tree match `desired`. It fails exactly if the kernel refuses one of the wanted, and then so
        does every other attempt; those before it are right, and the rest are as they were. */
    method Reconcile(desired: seq<Subsystem>) returns (ok: bool)
      requires WellFormed(T())
      modifies this
      ensures WellFormed(T()) && PortOk(T(), config) && subs.Keys <= Wanted(desired).Keys
      ensures ok <==> !AnyBarred(old(T()), Wanted(desired))
      ensures !ok ==> AnyBarred(T(), Wanted(desired))
      ensures ok ==> subs.Keys == Wanted(desired).Keys
      ensures forall n :: n in Wanted(desired) ==>
          || SubOk(T(), Wanted(desired)[n])
          || (!ok && (n in subs <==> n in old(subs)) && (n in subs ==> subs[n] == old(subs)[n]))
      ensures ok ==> (Settled(T(), config, Wanted(desired)) <==> OneKeyPerHost(Wanted(desired)))
      ensures old(log) <= log && (ok ==> (log == old(log) <==> Settled(old(T()), config, Wanted(desired))))
      ensures Spared(log, |old(log)|, old(T()), Wanted(desired))
    {
      var want := Wanted(desired);
      EnsurePort();
      RemoveUnwanted(want.Keys);
      ghost var t, l := T(), log;
      PrunedSame(old(T()), t, want);
      ghost var done;
      ok, done := EnsureAll(want);
      SparedAfter(old(log), l, log, old(T()), t, want);
      if ok {
        QuietIsSettled(old(T()), old(log), t, l, log, want, config);
        ReachedIsSettled(t, T(), want, config);
      }
    }

    /** Reconciling in place is as good as rebuilding: initiators see the same in this tree, whatever it was,
        and in one made from nothing, which is never refused. */
    method ReconcileAndRebuild(desired: seq<Subsystem>) returns (ok: bool, rebuilt: Target)
      requires WellFormed(T())
      modifies this
      ensures ok <==> !AnyBarred(old(T()), Wanted(desired))
      ensures rebuilt.subs.Keys == Wanted(desired).Keys && PortOk(T(), config) && PortOk(rebuilt.T(), config)
      ensures forall n :: n in Wanted(desired) ==> SubOk(rebuilt.T(), Wanted(desired)[n])
      ensures ok ==>
          subs.Keys == Wanted(desired).Keys && View(T(), Wanted(desired)) == View(rebuilt.T(), Wanted(desired))
    {
      rebuilt := new Target(Tree(map[], map[], {}, map[]), config);
      ok := rebuilt.Reconcile(desired);
      assert ok;
      ok := Reconcile(desired);
      if ok { RightTreesLookAlike(T(), rebuilt.T(), Wanted(desired)); }
    }
  }
}
