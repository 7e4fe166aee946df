/**
 The whole-SMT CPU partition (`validate_config` and `derive` in scripts/lib/cpu_isolation.py): which
 threads the host, the platform and the students get, from a policy and a machine's topology.
 */
module CpuPartition {
  import opened Prelude
  import opened CpuSets

  const LARGEST := 2147483647

  datatype Container = Container(vmid: int, cores: int, coreIds: seq<int>)

  /** The fields of the policy the partition depends on. */
  datatype Config = Config(
    physicalCores: int, hostCores: seq<int>, platformCores: seq<int>, containers: seq<Container>, parked: seq<int>,
    committed: int)

  datatype Row = Row(cpu: int, core: int, socket: int, online: bool, siblings: string)

  datatype Derived = Derived(host: string, platform: string, student: string, containers: map<int, string>, allocatable: int)

  predicate Whole(x: int, minimum: int) {
    minimum <= x <= LARGEST
  }

  predicate DistinctInts(xs: seq<int>) {
    forall i, j | 0 <= i < j < |xs| :: xs[i] != xs[j]
  }

  predicate ValidContainer(c: Config, ct: Container) {
    && Whole(ct.vmid, 100)
    && ct.coreIds != [] && DistinctInts(ct.coreIds) && (forall x | x in ct.coreIds :: x in c.platformCores)
    && (ct.cores == 2 || ct.cores == 4) && ct.cores == 2 * |ct.coreIds|
  }

  function Vmids(cts: seq<Container>): (r: seq<int>)
    ensures |r| == |cts| && forall i | 0 <= i < |r| :: r[i] == cts[i].vmid
  {
    seq(|cts|, i requires 0 <= i < |cts| => cts[i].vmid)
  }

  predicate ValidConfig(c: Config) {
    && (c.physicalCores == 12 || c.physicalCores == 16)
    && c.hostCores == [0, 1] && c.platformCores == [2, 3, 4, 5]
    && Whole(c.committed, 0) && c.committed < (c.physicalCores * 2 - 12) * 2
    && (forall ct | ct in c.containers :: ValidContainer(c, ct))
    && (forall x | x in c.parked :: Whole(x, 100))
    && DistinctInts(Vmids(c.containers) + c.parked)
  }

  // ----- Topologies -----

  predicate SoundRow(c: Config, r: Row) {
    && Whole(r.cpu, 0) && Whole(r.core, 0) && r.online && r.socket == 0 && r.core < c.physicalCores
  }

  /** The threads of a core. */
  function Threads(rows: seq<Row>, core: int): set<nat> {
    set r | r in rows && r.core == core && r.cpu >= 0 :: r.cpu as nat
  }

  predicate GoodTopology(c: Config, rows: seq<Row>) {
    && |rows| == 2 * c.physicalCores
    && (forall r | r in rows :: SoundRow(c, r))
    && (forall i, j | 0 <= i < j < |rows| :: rows[i].cpu != rows[j].cpu)
    && (forall core | 0 <= core < c.physicalCores :: |Threads(rows, core)| == 2)
    && (forall r | r in rows :: CpusOf(r.siblings) == Some(Threads(rows, r.core)))
  }

  function ThreadsOf(rows: seq<Row>, cores: seq<int>): set<nat> {
    set r | r in rows && r.core in cores && r.cpu >= 0 :: r.cpu as nat
  }

  function AllThreads(rows: seq<Row>): set<nat> {
    set r | r in rows && r.cpu >= 0 :: r.cpu as nat
  }

  function Student(c: Config, rows: seq<Row>): set<nat> {
    AllThreads(rows) - ThreadsOf(rows, c.hostCores) - ThreadsOf(rows, c.platformCores)
  }

  // ----- What every accepted topology gives -----

  lemma ThreadHasOneCore(c: Config, rows: seq<Row>, a: Row, b: Row)
    requires GoodTopology(c, rows) && a in rows && b in rows && a.cpu == b.cpu
    ensures a == b
  {
    var i :| 0 <= i < |rows| && rows[i] == a;
    var j :| 0 <= j < |rows| && rows[j] == b;
    assert i == j;
  }

  lemma CoresAreDisjoint(c: Config, rows: seq<Row>, xs: seq<int>, ys: seq<int>)
    requires GoodTopology(c, rows) && forall x | x in xs :: x !in ys
    ensures ThreadsOf(rows, xs) !! ThreadsOf(rows, ys)
  {
    forall t | t in ThreadsOf(rows, xs) ensures t !in ThreadsOf(rows, ys) {
      var a :| a in rows && a.core in xs && a.cpu == t;
      forall b | b in rows && b.core in ys ensures b.cpu != t {
        if b.cpu == t {
          ThreadHasOneCore(c, rows, a, b);
        }
      }
    }
  }

  predicate CoresIn(cores: seq<int>, physical: int) {
    forall i | 0 <= i < |cores| :: 0 <= cores[i] < physical
  }

  lemma MoreCores(rows: seq<Row>, front: seq<int>, last: int)
    ensures ThreadsOf(rows, front + [last]) == ThreadsOf(rows, front) + Threads(rows, last)
    ensures ThreadsOf(rows, [last]) == Threads(rows, last)
  {
  }

  /** Distinct cores have two threads each. */
  lemma {:induction false} TwoEach(c: Config, rows: seq<Row>, cores: seq<int>)
    requires GoodTopology(c, rows) && DistinctInts(cores) && CoresIn(cores, c.physicalCores)
    ensures |ThreadsOf(rows, cores)| == 2 * |cores|
  {
    if cores == [] {
      assert ThreadsOf(rows, cores) == {};
    } else {
      var n := |cores| - 1;
      var front, last := cores[..n], cores[n];
      assert cores == front + [last];
      TwoEach(c, rows, front);
      MoreCores(rows, front, last);
      CoresAreDisjoint(c, rows, front, [last]);
      assert |Threads(rows, last)| == 2;
    }
  }

  lemma MoreThreads(front: seq<Row>, last: Row)
    requires last.cpu >= 0
    ensures AllThreads(front + [last]) == AllThreads(front) + {last.cpu as nat}
  {
    assert forall r :: r in front + [last] <==> r in front || r == last;
  }

  lemma {:induction false} ThreadCount(rows: seq<Row>)
    requires forall i | 0 <= i < |rows| :: rows[i].cpu >= 0
    requires forall i, j | 0 <= i < j < |rows| :: rows[i].cpu != rows[j].cpu
    ensures |AllThreads(rows)| == |rows|
  {
    if rows != [] {
      var n := |rows| - 1;
      var front, last := rows[..n], rows[n];
      assert rows == front + [last];
      ThreadCount(front);
      MoreThreads(front, last);
      NewThread(front, last);
    }
  }

  lemma NewThread(front: seq<Row>, last: Row)
    requires forall i | 0 <= i < |front| :: front[i].cpu != last.cpu
    ensures last.cpu !in AllThreads(front)
  {
    forall t | t in AllThreads(front) ensures t != last.cpu {
      var r :| r in front && r.cpu == t;
      var i :| 0 <= i < |front| && front[i] == r;
    }
  }

  lemma HostMask(c: Config, rows: seq<Row>)
    requires GoodTopology(c, rows) && c.physicalCores >= 6
    ensures |ThreadsOf(rows, [0, 1])| == 4
  {
    TwoEach(c, rows, [0, 1]);
  }

  lemma PlatformMask(c: Config, rows: seq<Row>)
    requires GoodTopology(c, rows) && c.physicalCores >= 6
    ensures |ThreadsOf(rows, [2, 3, 4, 5])| == 8
  {
    TwoEach(c, rows, [2, 3, 4, 5]);
  }

  lemma FixedMasks(c: Config, rows: seq<Row>)
    requires GoodTopology(c, rows) && c.physicalCores >= 6
    ensures |ThreadsOf(rows, [0, 1])| == 4 && |ThreadsOf(rows, [2, 3, 4, 5])| == 8
    ensures ThreadsOf(rows, [0, 1]) !! ThreadsOf(rows, [2, 3, 4, 5])
  {
    HostMask(c, rows);
    PlatformMask(c, rows);
    CoresAreDisjoint(c, rows, [0, 1], [2, 3, 4, 5]);
  }

  lemma MaskSizes(c: Config, rows: seq<Row>)
    requires ValidConfig(c) && GoodTopology(c, rows)
    ensures |ThreadsOf(rows, c.hostCores)| == 4 && |ThreadsOf(rows, c.platformCores)| == 8
    ensures ThreadsOf(rows, c.hostCores) !! ThreadsOf(rows, c.platformCores)
    ensures |AllThreads(rows)| == |rows|
  {
    FixedMasks(c, rows);
    TopologyCount(c, rows);
  }

  lemma TopologyCount(c: Config, rows: seq<Row>)
    requires GoodTopology(c, rows)
    ensures |AllThreads(rows)| == |rows|
  {
    forall i | 0 <= i < |rows| ensures rows[i].cpu >= 0 {
      assert rows[i] in rows;
    }
    ThreadCount(rows);
  }

  lemma WhatIsLeft(all: set<nat>, h: set<nat>, o: set<nat>)
    requires h <= all && o <= all && h !! o
    ensures var s := all - h - o; h !! s && o !! s && h + o + s == all && |s| == |all| - |h| - |o|
  {
    var s := all - h - o;
    assert all == h + o + s;
    assert |h + o| == |h| + |o|;
    assert |h + o + s| == |h + o| + |s|;
  }

  /** No mask takes one thread of a core without the other. */
  lemma PairsStayTogether(c: Config, rows: seq<Row>, a: Row, b: Row)
    requires GoodTopology(c, rows) && a in rows && b in rows && a.core == b.core
    ensures a.cpu in ThreadsOf(rows, c.hostCores) <==> b.cpu in ThreadsOf(rows, c.hostCores)
    ensures a.cpu in ThreadsOf(rows, c.platformCores) <==> b.cpu in ThreadsOf(rows, c.platformCores)
    ensures a.cpu in Student(c, rows) <==> b.cpu in Student(c, rows)
  {
    InMaskByCore(c, rows, c.hostCores, a);
    InMaskByCore(c, rows, c.hostCores, b);
    InMaskByCore(c, rows, c.platformCores, a);
    InMaskByCore(c, rows, c.platformCores, b);
    assert SoundRow(c, a) && SoundRow(c, b);
    assert a.cpu in AllThreads(rows) && b.cpu in AllThreads(rows);
  }

  /** The three masks are disjoint, cover every thread and have four, eight and the remaining
      threads; some capacity is left to allocate. */
  lemma PartitionIsWhole(c: Config, rows: seq<Row>)
    requires ValidConfig(c) && GoodTopology(c, rows)
    ensures var h, o, s := ThreadsOf(rows, c.hostCores), ThreadsOf(rows, c.platformCores), Student(c, rows);
            && h !! o && h !! s && o !! s && h + o + s == AllThreads(rows)
            && |h| == 4 && |o| == 8 && |s| == |AllThreads(rows)| - 12 == 2 * c.physicalCores - 12
            && 2 * |s| - c.committed > 0
  {
    MaskSizes(c, rows);
    WhatIsLeft(AllThreads(rows), ThreadsOf(rows, c.hostCores), ThreadsOf(rows, c.platformCores));
  }

  lemma InMaskByCore(c: Config, rows: seq<Row>, cores: seq<int>, a: Row)
    requires GoodTopology(c, rows) && a in rows
    ensures a.cpu in ThreadsOf(rows, cores) <==> a.core in cores
  {
    if a.cpu in ThreadsOf(rows, cores) {
      var b :| b in rows && b.core in cores && b.cpu == a.cpu;
      ThreadHasOneCore(c, rows, a, b);
    }
  }

  /** A container's mask has exactly its declared threads, all of them the platform's. */
  lemma ContainerFits(c: Config, rows: seq<Row>, ct: Container)
    requires ValidConfig(c) && GoodTopology(c, rows) && ct in c.containers
    ensures |ThreadsOf(rows, ct.coreIds)| == ct.cores
    ensures ThreadsOf(rows, ct.coreIds) <= ThreadsOf(rows, c.platformCores)
  {
    assert ValidContainer(c, ct);
    forall i | 0 <= i < |ct.coreIds| ensures 0 <= ct.coreIds[i] < c.physicalCores {
      assert ct.coreIds[i] in ct.coreIds;
    }
    TwoEach(c, rows, ct.coreIds);
  }

  /** Every thread of an accepted topology is one that CPU set texts can name. */
  lemma ThreadsAreNameable(c: Config, rows: seq<Row>)
    requires GoodTopology(c, rows)
    ensures forall t | t in AllThreads(rows) :: t <= LAST_CPU
  {
    forall t | t in AllThreads(rows) ensures t <= LAST_CPU {
      var r :| r in rows && r.cpu == t;
      assert t in Threads(rows, r.core);
      NamedIsSmall(r.siblings, t);
    }
  }

  lemma NamedIsSmall(text: string, t: nat)
    requires CpusOf(text).Some? && t in CpusOf(text).value
    ensures t <= LAST_CPU
  {
    ExpandIsSmall(Split(text, ','));
  }

  lemma {:induction false} ExpandIsSmall(parts: seq<string>)
    requires Expand(parts).Some?
    ensures forall x | x in Expand(parts).value :: x <= LAST_CPU
  {
    if parts != [] {
      ExpandIsSmall(parts[..|parts| - 1]);
    }
  }

  // ----- Deriving the partition -----

  type Groups = map<int, set<nat>>

  ghost predicate Grouped(rows: seq<Row>, groups: Groups) {
    forall core :: (core in groups <==> Threads(rows, core) != {}) && (core in groups ==> groups[core] == Threads(rows, core))
  }

  function AddThread(groups: Groups, core: int, cpu: nat): Groups {
    groups[core := (if core in groups then groups[core] else {}) + {cpu}]
  }

  lemma ThreadsMore(front: seq<Row>, last: Row, core: int)
    requires last.cpu >= 0
    ensures Threads(front + [last], core) == Threads(front, core) + (if last.core == core then {last.cpu as nat} else {})
  {
    assert forall r :: r in front + [last] <==> r in front || r == last;
  }

  lemma GroupedMore(front: seq<Row>, last: Row, groups: Groups)
    requires Grouped(front, groups) && last.cpu >= 0
    ensures Grouped(front + [last], AddThread(groups, last.core, last.cpu))
  {
    forall core
      ensures var next := AddThread(groups, last.core, last.cpu);
              && (core in next <==> Threads(front + [last], core) != {})
              && (core in next ==> next[core] == Threads(front + [last], core))
    {
      ThreadsMore(front, last, core);
      if core == last.core {
        assert last.cpu in Threads(front + [last], core);
      }
    }
  }

  predicate DistinctThreads(rows: seq<Row>) {
    forall i, j | 0 <= i < j < |rows| :: rows[i].cpu != rows[j].cpu
  }

  /** Reads the rows into groups of threads by core. */
  method GroupThreads(c: Config, rows: seq<Row>) returns (r: Option<(Groups, set<nat>)>)
    ensures r.Some? <==> (forall i | 0 <= i < |rows| :: SoundRow(c, rows[i])) && DistinctThreads(rows)
    ensures r.Some? ==> Grouped(rows, r.value.0) && r.value.1 == AllThreads(rows)
  {
    var groups: Groups := map[];
    var seen: set<nat> := {};
    for i := 0 to |rows|
      invariant forall k | 0 <= k < i :: SoundRow(c, rows[k])
      invariant DistinctThreads(rows[..i])
      invariant Grouped(rows[..i], groups) && seen == AllThreads(rows[..i])
    {
      var row := rows[i];
      assert rows[..i + 1] == rows[..i] + [row];
      if !SoundRow(c, row) {
        return None;
      }
      if row.cpu in seen {
        var before :| before in rows[..i] && before.cpu == row.cpu;
        var k :| 0 <= k < i && rows[k] == before;
        return None;
      }
      forall k | 0 <= k < i ensures rows[k].cpu != row.cpu {
        assert rows[k] in rows[..i];
      }
      GroupedMore(rows[..i], row, groups);
      MoreThreads(rows[..i], row);
      seen := seen + {row.cpu};
      groups := AddThread(groups, row.core, row.cpu);
    }
    assert rows[..|rows|] == rows;
    r := Some((groups, seen));
  }

  lemma GroupOfRow(rows: seq<Row>, groups: Groups, r: Row)
    requires Grouped(rows, groups) && r in rows && r.cpu >= 0
    ensures r.core in groups && groups[r.core] == Threads(rows, r.core)
  {
    assert r.cpu in Threads(rows, r.core);
  }

  method CheckSiblings(rows: seq<Row>, groups: Groups) returns (ok: bool)
    requires Grouped(rows, groups) && forall r | r in rows :: r.cpu >= 0
    ensures ok <==> forall r | r in rows :: CpusOf(r.siblings) == Some(Threads(rows, r.core))
  {
    for i := 0 to |rows|
      invariant forall k | 0 <= k < i :: CpusOf(rows[k].siblings) == Some(Threads(rows, rows[k].core))
    {
      assert rows[i] in rows;
      GroupOfRow(rows, groups, rows[i]);
      var named := ParseCpus(rows[i].siblings);
      if named != Some(groups[rows[i].core]) {
        return false;
      }
    }
    ok := true;
  }

  method Select(rows: seq<Row>, groups: Groups, cores: seq<int>) returns (s: set<nat>)
    requires Grouped(rows, groups) && forall i | 0 <= i < |cores| :: cores[i] in groups
    ensures s == ThreadsOf(rows, cores)
  {
    s := {};
    for i := 0 to |cores|
      invariant s == ThreadsOf(rows, cores[..i])
    {
      assert cores[..i + 1] == cores[..i] + [cores[i]];
      MoreCores(rows, cores[..i], cores[i]);
      s := s + groups[cores[i]];
    }
    assert cores[..|cores|] == cores;
  }

  predicate CompletePairs(c: Config, groups: Groups) {
    && (forall core | core in groups :: 0 <= core < c.physicalCores && |groups[core]| == 2)
    && (forall core | 0 <= core < c.physicalCores :: core in groups)
  }

  lemma GroupsAreComplete(c: Config, rows: seq<Row>, groups: Groups)
    requires Grouped(rows, groups) && forall r | r in rows :: SoundRow(c, r)
    ensures CompletePairs(c, groups) <==> forall core | 0 <= core < c.physicalCores :: |Threads(rows, core)| == 2
  {
    forall core | core in groups ensures 0 <= core < c.physicalCores {
      var t :| t in Threads(rows, core);
    }
    forall core | 0 <= core < c.physicalCores && |Threads(rows, core)| == 2 ensures core in groups {
      assert Threads(rows, core) != {};
    }
  }

  lemma AllGrouped(c: Config, rows: seq<Row>, groups: Groups, cores: seq<int>)
    requires ValidConfig(c) && GoodTopology(c, rows) && Grouped(rows, groups)
    requires forall x | x in cores :: x in c.platformCores || x in c.hostCores
    ensures forall i | 0 <= i < |cores| :: cores[i] in groups
  {
    forall i | 0 <= i < |cores| ensures cores[i] in groups {
      assert cores[i] in cores;
      assert |Threads(rows, cores[i])| == 2;
    }
  }

  method NamedMask(c: Config, rows: seq<Row>, mask: set<nat>) returns (text: string)
    requires GoodTopology(c, rows) && mask <= AllThreads(rows) && mask != {}
    ensures CpusOf(text) == Some(mask)
  {
    ThreadsAreNameable(c, rows);
    var written := CpuText(mask);
    text := written.value;
  }

  /** Reads a topology; it accepts exactly the sound ones. */
  method ReadTopology(c: Config, rows: seq<Row>) returns (r: Option<(Groups, set<nat>)>)
    ensures r.Some? <==> GoodTopology(c, rows)
    ensures r.Some? ==> Grouped(rows, r.value.0) && r.value.1 == AllThreads(rows)
  {
    if |rows| != 2 * c.physicalCores {
      return None;
    }
    EveryRow(c, rows);
    var grouped := GroupThreads(c, rows);
    if grouped.None? {
      return None;
    }
    GroupsAreComplete(c, rows, grouped.value.0);
    if !CompletePairs(c, grouped.value.0) {
      return None;
    }
    var paired := CheckSiblings(rows, grouped.value.0);
    r := if paired then grouped else None;
  }

  predicate TextsOf(rows: seq<Row>, cts: seq<Container>, texts: map<int, string>) {
    && (forall ct | ct in cts :: ct.vmid in texts && CpusOf(texts[ct.vmid]) == Some(ThreadsOf(rows, ct.coreIds)))
    && texts.Keys == set ct | ct in cts :: ct.vmid
  }

  lemma TextsMore(rows: seq<Row>, cts: seq<Container>, texts: map<int, string>, ct: Container, text: string)
    requires TextsOf(rows, cts, texts) && CpusOf(text) == Some(ThreadsOf(rows, ct.coreIds))
    requires forall k | 0 <= k < |cts| :: cts[k].vmid != ct.vmid
    ensures TextsOf(rows, cts + [ct], texts[ct.vmid := text])
  {
    assert forall x :: x in cts + [ct] <==> x in cts || x == ct;
    forall x | x in cts ensures x.vmid != ct.vmid {
      var k :| 0 <= k < |cts| && cts[k] == x;
    }
  }

  method ContainerText(c: Config, rows: seq<Row>, groups: Groups, ct: Container) returns (text: string)
    requires ValidConfig(c) && GoodTopology(c, rows) && Grouped(rows, groups) && ct in c.containers
    ensures CpusOf(text) == Some(ThreadsOf(rows, ct.coreIds))
  {
    ContainerFits(c, rows, ct);
    AllGrouped(c, rows, groups, ct.coreIds);
    var mask := Select(rows, groups, ct.coreIds);
    text := NamedMask(c, rows, mask);
  }

  lemma VmidsDiffer(c: Config, i: nat, k: nat)
    requires ValidConfig(c) && k < i < |c.containers|
    ensures c.containers[k].vmid != c.containers[i].vmid
  {
    var ids := Vmids(c.containers) + c.parked;
    assert ids[k] != ids[i];
  }

  method OneMoreText(c: Config, rows: seq<Row>, groups: Groups, i: nat, texts: map<int, string>) returns (more: map<int, string>)
    requires ValidConfig(c) && GoodTopology(c, rows) && Grouped(rows, groups)
    requires i < |c.containers| && TextsOf(rows, c.containers[..i], texts)
    ensures TextsOf(rows, c.containers[..i + 1], more)
  {
    var ct := c.containers[i];
    var text := ContainerText(c, rows, groups, ct);
    forall k | 0 <= k < i ensures c.containers[..i][k].vmid != ct.vmid {
      VmidsDiffer(c, i, k);
    }
    TextsMore(rows, c.containers[..i], texts, ct, text);
    assert c.containers[..i + 1] == c.containers[..i] + [ct];
    more := texts[ct.vmid := text];
  }

  method ContainerTexts(c: Config, rows: seq<Row>, groups: Groups) returns (texts: map<int, string>)
    requires ValidConfig(c) && GoodTopology(c, rows) && Grouped(rows, groups)
    ensures TextsOf(rows, c.containers, texts)
  {
    texts := map[];
    for i := 0 to |c.containers|
      invariant TextsOf(rows, c.containers[..i], texts)
    {
      texts := OneMoreText(c, rows, groups, i, texts);
    }
    assert c.containers[..|c.containers|] == c.containers;
  }

  /** Succeeds exactly on a valid policy and a sound whole-SMT topology; the texts then name the
      threads of the host's, the platform's and each container's cores, and all the others. */
  method Derive(c: Config, rows: seq<Row>) returns (r: Option<Derived>)
    ensures r.Some? <==> ValidConfig(c) && GoodTopology(c, rows)
    ensures r.Some? ==>
              && CpusOf(r.value.host) == Some(ThreadsOf(rows, c.hostCores))
              && CpusOf(r.value.platform) == Some(ThreadsOf(rows, c.platformCores))
              && CpusOf(r.value.student) == Some(Student(c, rows))
              && TextsOf(rows, c.containers, r.value.containers)
              && r.value.allocatable == 2 * |Student(c, rows)| - c.committed
  {
    if !ValidConfig(c) {
      return None;
    }
    var topology := ReadTopology(c, rows);
    if topology.None? {
      return None;
    }
    var (groups, seen) := topology.value;
    var masks := Reserve(c, rows, groups, seen);
    var host := NamedMask(c, rows, masks.value.0);
    var platform := NamedMask(c, rows, masks.value.1);
    var student := NamedMask(c, rows, masks.value.2);
    var texts := ContainerTexts(c, rows, groups);
    r := Some(Derived(host, platform, student, texts, |masks.value.2| * 2 - c.committed));
  }

  /** Reserves the masks; the program's last check, on overlap and sizes, cannot fail. */
  method Reserve(c: Config, rows: seq<Row>, groups: Groups, seen: set<nat>) returns (r: Option<(set<nat>, set<nat>, set<nat>)>)
    requires ValidConfig(c) && GoodTopology(c, rows) && Grouped(rows, groups) && seen == AllThreads(rows)
    ensures r == Some((ThreadsOf(rows, c.hostCores), ThreadsOf(rows, c.platformCores), Student(c, rows)))
    ensures r.value.0 != {} && r.value.1 != {} && r.value.2 != {}
    ensures r.value.0 <= seen && r.value.1 <= seen
  {
    AllGrouped(c, rows, groups, c.hostCores);
    AllGrouped(c, rows, groups, c.platformCores);
    var h := Select(rows, groups, c.hostCores);
    var o := Select(rows, groups, c.platformCores);
    var s := seen - h - o;
    ReservedAlways(c, rows);
    r := if Reserved(h, o, s, seen) then Some((h, o, s)) else None;
  }

  lemma ReservedAlways(c: Config, rows: seq<Row>)
    requires ValidConfig(c) && GoodTopology(c, rows)
    ensures var h, o, s := ThreadsOf(rows, c.hostCores), ThreadsOf(rows, c.platformCores), Student(c, rows);
            Reserved(h, o, s, AllThreads(rows)) && h != {} && o != {} && s != {}
  {
    PartitionIsWhole(c, rows);
  }

  predicate Reserved(h: set<nat>, o: set<nat>, s: set<nat>, seen: set<nat>) {
    |h| == 4 && |o| == 8 && |s| == |seen| - 12 && h !! o && h !! s && o !! s
  }

  lemma EveryRow(c: Config, rows: seq<Row>)
    ensures (forall i | 0 <= i < |rows| :: SoundRow(c, rows[i])) <==> forall r | r in rows :: SoundRow(c, r)
  {
    assert forall i | 0 <= i < |rows| :: rows[i] in rows;
  }
}
