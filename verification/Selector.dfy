/** Host selection for LXD VMs: filter, then rank (pkg/maas/lxd/host_maas_client.go). */
module Selector {
  import opened Base
  import opened Inventory
  import Tags

  datatype StoragePool = StoragePool(remote: bool, available: int, pending: int)

  datatype VmHost = VmHost(
    name: string,
    systemId: string,
    hostSystemId: string,
    zone: Option<string>,
    pool: Option<string>,
    tags: seq<string>,
    cores: int,
    memory: int,
    storage: seq<StoragePool>)

  datatype Options = Options(
    zone: string,
    pool: string,
    tags: seq<string>,
    minCores: int,
    minMemory: int,
    minDiskGB: int,
    clusterId: string)

  datatype Candidate = Candidate(host: VmHost, cpCount: nat, score: real)

  // ----- the filters -----

  const GB := 1_000_000_000
  const MAX_DISK_GB := 9223372036

  /** A 64-bit two's complement result. */
  function Wrap64(x: int): int {
    var r := x % 0x1_0000_0000_0000_0000;
    if r >= 0x8000_0000_0000_0000 then r - 0x1_0000_0000_0000_0000 else r
  }

  function RequiredBytes(diskGB: int): int { Wrap64(diskGB * GB) }

  function Uncommitted(p: StoragePool): int { Wrap64(p.available - p.pending) }

  predicate HasStorage(h: VmHost, diskGB: int) {
    exists i :: 0 <= i < |h.storage| && !h.storage[i].remote && Uncommitted(h.storage[i]) >= RequiredBytes(diskGB)
  }

  predicate HasAllTags(h: VmHost, required: seq<string>) {
    forall t :: t in required ==> t in h.tags
  }

  predicate Fits(h: VmHost, o: Options) {
    && (o.zone != "" ==> Text(h.zone) == o.zone)
    && (o.pool != "" ==> Text(h.pool) == o.pool)
    && HasAllTags(h, o.tags)
    && (o.minCores > 0 ==> h.cores >= o.minCores)
    && (o.minMemory > 0 ==> h.memory >= o.minMemory)
    && (o.minDiskGB > 0 ==> HasStorage(h, o.minDiskGB))
  }

  /** view holds the backing machines whose Get call succeeded. */
  predicate Healthy(h: VmHost, view: Nodes) {
    && h.hostSystemId != ""
    && h.hostSystemId in view
    && view[h.hostSystemId].powerState == "on"
    && view[h.hostSystemId].state == "Deployed"
    && !Tags.HasMaintenanceTag(view[h.hostSystemId].tags)
  }

  predicate Eligible(h: VmHost, o: Options, view: Nodes) { Fits(h, o) && Healthy(h, view) }

  // ----- the counting index -----

  predicate IsCpOf(m: Node, clusterTag: string) {
    Tags.VM_CONTROL_PLANE in m.tags && clusterTag in m.tags
  }

  /** How many of the cluster's control-plane VMs sit on a host. */
  function CpCount(machines: seq<Node>, clusterTag: string, host: string): nat {
    if machines == [] then 0
    else
      CpCount(machines[..|machines| - 1], clusterTag, host)
      + (var m := machines[|machines| - 1]; if m.parent == host && IsCpOf(m, clusterTag) then 1 else 0)
  }

  method ComputeCpCountsByHost(machines: seq<Node>, clusterTag: string) returns (counts: map<string, nat>)
    ensures forall h :: h in counts <==> h != "" && CpCount(machines, clusterTag, h) > 0
    ensures forall h :: h in counts ==> counts[h] == CpCount(machines, clusterTag, h)
  {
    counts := map[];
    for i := 0 to |machines|
      invariant forall h :: h in counts <==> h != "" && CpCount(machines[..i], clusterTag, h) > 0
      invariant forall h :: h in counts ==> counts[h] == CpCount(machines[..i], clusterTag, h)
    {
      assert machines[..i + 1][..i] == machines[..i];
      var m := machines[i];
      if m.parent == "" {
        continue;
      }
      var hasCP, hasCluster := false, false;
      for j := 0 to |m.tags|
        invariant hasCP <==> Tags.VM_CONTROL_PLANE in m.tags[..j]
        invariant hasCluster <==> clusterTag in m.tags[..j]
      {
        if m.tags[j] == Tags.VM_CONTROL_PLANE {
          hasCP := true;
        }
        if m.tags[j] == clusterTag {
          hasCluster := true;
        }
      }
      assert m.tags[..|m.tags|] == m.tags;
      if hasCP && hasCluster {
        counts := counts[m.parent := (if m.parent in counts then counts[m.parent] else 0) + 1];
      }
    }
    assert machines[..|machines|] == machines;
  }

  // ----- the ranking -----

  function Ratio(available: int, minimum: int): real {
    if minimum > 0 then available as real / minimum as real else 0.0
  }

  function Score(h: VmHost, o: Options): real {
    Ratio(h.cores, o.minCores) + Ratio(h.memory, o.minMemory)
  }

  predicate IsManaged(h: VmHost) {
    "lxd-host-" <= Tags.Lower(Tags.TrimSpace(h.name))
  }

  /** The less function handed to sort.Slice. */
  predicate Better(a: Candidate, b: Candidate) {
    if a.cpCount != b.cpCount then a.cpCount < b.cpCount
    else if a.score != b.score then a.score > b.score
    else IsManaged(a.host) && !IsManaged(b.host)
  }

  /** machines is None when the List call failed: then every count is zero. */
  function Rank(h: VmHost, o: Options, machines: Option<seq<Node>>): Candidate {
    var count := if o.clusterId == "" || machines.None? then 0
                 else CpCount(machines.value, Tags.ClusterTag(o.clusterId), h.hostSystemId);
    Candidate(h, count, Score(h, o))
  }

  /** What a caller of the selector may rely on. */
  ghost predicate IsSelection(r: Option<VmHost>, hosts: seq<VmHost>, o: Options, machines: Option<seq<Node>>,
    view: Nodes)
  {
    match r
    case None => forall h :: h in hosts ==> !Eligible(h, o, view)
    case Some(best) =>
      && best in hosts && Eligible(best, o, view)
      && forall h :: h in hosts && Eligible(h, o, view) ==> !Better(Rank(h, o, machines), Rank(best, o, machines))
  }

  ghost predicate Ranked(s: seq<Candidate>) {
    forall i, j :: 0 <= i < j < |s| ==> !Better(s[j], s[i])
  }

  /** Places one candidate into a ranked list: stands for the library's sort.Slice, see RankCandidates. */
  function Place(c: Candidate, s: seq<Candidate>): seq<Candidate> {
    if s == [] || Better(c, s[0]) then [c] + s else [s[0]] + Place(c, s[1..])
  }

  lemma {:induction false} PlaceKeepsElements(c: Candidate, s: seq<Candidate>)
    ensures multiset(Place(c, s)) == multiset(s) + multiset{c}
  {
    if s != [] && !Better(c, s[0]) {
      PlaceKeepsElements(c, s[1..]);
      assert s == [s[0]] + s[1..];
    }
  }

  lemma {:induction false} PlaceKeepsRanking(c: Candidate, s: seq<Candidate>)
    requires Ranked(s)
    ensures Ranked(Place(c, s))
  {
    if s == [] {
    } else if Better(c, s[0]) {
      forall j | 0 <= j < |s| ensures !Better(s[j], c) {
        if j > 0 {
          assert !Better(s[j], s[0]);
        }
      }
    } else {
      PlaceKeepsRanking(c, s[1..]);
      PlaceKeepsElements(c, s[1..]);
      var rest := Place(c, s[1..]);
      forall j | 0 <= j < |rest| ensures !Better(rest[j], s[0]) {
        assert rest[j] in multiset(rest);
        assert rest[j] == c || rest[j] in s[1..];
      }
    }
  }

  method RankCandidates(candidates: seq<Candidate>) returns (r: seq<Candidate>)
    ensures Ranked(r) && multiset(r) == multiset(candidates)
  {
    r := [];
    for i := 0 to |candidates|
      invariant Ranked(r) && multiset(r) == multiset(candidates[..i])
    {
      assert candidates[..i + 1] == candidates[..i] + [candidates[i]];
      PlaceKeepsRanking(candidates[i], r);
      PlaceKeepsElements(candidates[i], r);
      r := Place(candidates[i], r);
    }
    assert candidates[..|candidates|] == candidates;
  }

  method HostHasAllTags(h: VmHost, required: seq<string>) returns (all: bool)
    ensures all == HasAllTags(h, required)
  {
    var hostTags: set<string> := {};
    for i := 0 to |h.tags|
      invariant forall t :: t in hostTags <==> t in h.tags[..i]
    {
      hostTags := hostTags + {h.tags[i]};
    }
    assert h.tags[..|h.tags|] == h.tags;
    for i := 0 to |required|
      invariant forall j :: 0 <= j < i ==> required[j] in h.tags
    {
      if required[i] !in hostTags {
        return false;
      }
    }
    return true;
  }

  method HostHasStorage(h: VmHost, diskGB: int) returns (found: bool)
    ensures found == HasStorage(h, diskGB)
  {
    for i := 0 to |h.storage|
      invariant forall j :: 0 <= j < i ==> h.storage[j].remote || Uncommitted(h.storage[j]) < RequiredBytes(diskGB)
    {
      if h.storage[i].remote {
        continue;
      }
      if Uncommitted(h.storage[i]) >= RequiredBytes(diskGB) {
        return true;
      }
    }
    return false;
  }

  method HasMaintenanceTagScan(tags: seq<string>) returns (found: bool)
    ensures found == Tags.HasMaintenanceTag(tags)
  {
    for i := 0 to |tags|
      invariant forall j :: 0 <= j < i ==> !Tags.IsMaintenanceTag(tags[j])
    {
      if tags[i] == Tags.HOST_MAINTENANCE || tags[i] == Tags.HOST_NO_SCHEDULE {
        return true;
      }
    }
    return false;
  }

  /** The chain of filters one host goes through. */
  method IsCandidate(h: VmHost, o: Options, view: Nodes) returns (ok: bool)
    ensures ok == Eligible(h, o, view)
  {
    if o.zone != "" && Text(h.zone) != o.zone {
      return false;
    }
    if o.pool != "" && Text(h.pool) != o.pool {
      return false;
    }
    if |o.tags| > 0 {
      var tagged := HostHasAllTags(h, o.tags);
      if !tagged {
        return false;
      }
    }
    if o.minCores > 0 && h.cores < o.minCores {
      return false;
    }
    if o.minMemory > 0 && h.memory < o.minMemory {
      return false;
    }
    if o.minDiskGB > 0 {
      var hasStorage := HostHasStorage(h, o.minDiskGB);
      if !hasStorage {
        return false;
      }
    }
    if h.hostSystemId == "" || h.hostSystemId !in view {
      return false;
    }
    var machine := view[h.hostSystemId];
    if machine.powerState != "on" || machine.state != "Deployed" {
      return false;
    }
    var draining := HasMaintenanceTagScan(machine.tags);
    return !draining;
  }

  // ----- what "better" amounts to -----

  /** The cluster's control-plane VMs on a host, by their place in the list. */
  ghost function CpVms(machines: seq<Node>, clusterId: string, host: string): set<int> {
    set i | 0 <= i < |machines| && machines[i].parent == host
      && Tags.VM_CONTROL_PLANE in machines[i].tags && Tags.ClusterTag(clusterId) in machines[i].tags
  }

  lemma {:induction false} CountsVms(machines: seq<Node>, clusterId: string, host: string)
    ensures CpCount(machines, Tags.ClusterTag(clusterId), host) == |CpVms(machines, clusterId, host)|
  {
    hide Tags.ClusterTag, Tags.VM_CONTROL_PLANE;
    if machines == [] {
      assert CpVms(machines, clusterId, host) == {};
    } else {
      var n := |machines| - 1;
      CountsVms(machines[..n], clusterId, host);
      var before, now := CpVms(machines[..n], clusterId, host), CpVms(machines, clusterId, host);
      if machines[n].parent == host && IsCpOf(machines[n], Tags.ClusterTag(clusterId)) {
        assert now == before + {n};
      } else {
        assert now == before;
      }
    }
  }

  /** How many of the cluster's control-plane VMs the call counts on a host; none if it cannot or need not count. */
  ghost function Load(h: VmHost, o: Options, machines: Option<seq<Node>>): nat {
    if o.clusterId != "" && machines.Some? then |CpVms(machines.value, o.clusterId, h.hostSystemId)| else 0
  }

  /** What a host has left, in units in which two hosts can be compared. */
  function Headroom(h: VmHost, o: Options): int {
    if o.minCores > 0 && o.minMemory > 0 then h.cores * o.minMemory + h.memory * o.minCores
    else if o.minCores > 0 then h.cores
    else if o.minMemory > 0 then h.memory
    else 0
  }

  /** best is at least as good a choice as h: fewer VMs of the cluster, then more headroom, then a managed host. */
  ghost predicate NoWorse(best: VmHost, h: VmHost, o: Options, machines: Option<seq<Node>>) {
    && Load(best, o, machines) <= Load(h, o, machines)
    && (Load(best, o, machines) == Load(h, o, machines) ==> Headroom(best, o) >= Headroom(h, o))
    && (Load(best, o, machines) == Load(h, o, machines) && Headroom(best, o) == Headroom(h, o) ==>
          "lxd-host-" <= Tags.Lower(Tags.TrimSpace(h.name)) ==> "lxd-host-" <= Tags.Lower(Tags.TrimSpace(best.name)))
  }

  lemma DivideCompare(x: int, y: int, d: int)
    requires d > 0
    ensures x as real / d as real > y as real / d as real <==> x > y
  {
    var a, b, r := x as real / d as real, y as real / d as real, d as real;
    assert a * r == x as real && b * r == y as real;
    ScaleCompare(a, b, r);
  }

  lemma ScoreIsHeadroom(g: VmHost, h: VmHost, o: Options)
    ensures Score(g, o) > Score(h, o) <==> Headroom(g, o) > Headroom(h, o)
  {
    if o.minCores > 0 && o.minMemory > 0 {
      ScoreOrder(g, h, o);
    } else if o.minCores > 0 {
      DivideCompare(g.cores, h.cores, o.minCores);
    } else if o.minMemory > 0 {
      DivideCompare(g.memory, h.memory, o.minMemory);
    }
  }

  /** The comparator says of two hosts exactly what NoWorse does. */
  lemma BetterExactly(best: VmHost, h: VmHost, o: Options, machines: Option<seq<Node>>)
    ensures !Better(Rank(h, o, machines), Rank(best, o, machines)) <==> NoWorse(best, h, o, machines)
  {
    hide Score, Headroom, CpVms, Tags.ClusterTag;
    if machines.Some? {
      CountsVms(machines.value, o.clusterId, best.hostSystemId);
      CountsVms(machines.value, o.clusterId, h.hostSystemId);
    }
    ScoreIsHeadroom(h, best, o);
    ScoreIsHeadroom(best, h, o);
  }

  /** The filters, one by one. */
  lemma EligibleExactly(h: VmHost, o: Options, view: Nodes)
    ensures Eligible(h, o, view) <==>
      && (o.zone == "" || (h.zone.Some? && h.zone.value == o.zone))
      && (o.pool == "" || (h.pool.Some? && h.pool.value == o.pool))
      && (forall t :: t in o.tags ==> t in h.tags)
      && (o.minCores <= 0 || o.minCores <= h.cores) && (o.minMemory <= 0 || o.minMemory <= h.memory)
      && (o.minDiskGB <= 0 || exists p ::
            p in h.storage && !p.remote && Wrap64(p.available - p.pending) >= Wrap64(o.minDiskGB * 1_000_000_000))
      && h.hostSystemId != "" && h.hostSystemId in view
      && (var m := view[h.hostSystemId];
          m.powerState == "on" && m.state == "Deployed"
          && Tags.HOST_MAINTENANCE !in m.tags && Tags.HOST_NO_SCHEDULE !in m.tags)
  {
    if HasStorage(h, o.minDiskGB) {
      var i :| 0 <= i < |h.storage| && !h.storage[i].remote
        && Uncommitted(h.storage[i]) >= RequiredBytes(o.minDiskGB);
      assert h.storage[i] in h.storage;
    }
  }

  method SelectHost(hosts: seq<VmHost>, o: Options, machines: Option<seq<Node>>, view: Nodes)
    returns (r: Option<VmHost>)
    ensures IsSelection(r, hosts, o, machines, view)
    ensures r.Some? ==> forall h :: h in hosts && Eligible(h, o, view) ==> NoWorse(r.value, h, o, machines)
  {
    hide Eligible, Tags.ClusterTag, Score, Better, NoWorse;
    if |hosts| == 0 {
      return None;
    }
    var counts: map<string, nat> := map[];
    if o.clusterId != "" && machines.Some? {
      counts := ComputeCpCountsByHost(machines.value, Tags.ClusterTag(o.clusterId));
    }
    var candidates: seq<Candidate> := [];
    for i := 0 to |hosts|
      invariant forall c :: c in candidates ==>
        c.host in hosts[..i] && Eligible(c.host, o, view) && c == Rank(c.host, o, machines)
      invariant forall h :: h in hosts[..i] && Eligible(h, o, view) ==> Rank(h, o, machines) in candidates
    {
      assert hosts[..i + 1] == hosts[..i] + [hosts[i]];
      var h := hosts[i];
      var ok := IsCandidate(h, o, view);
      if !ok {
        continue;
      }
      assert h.hostSystemId != "" by { EligibleIsBacked(h, o, view); }
      var count := if h.hostSystemId in counts then counts[h.hostSystemId] else 0;
      candidates := candidates + [Candidate(h, count, Score(h, o))];
    }
    assert hosts[..|hosts|] == hosts;
    if |candidates| == 0 {
      return None;
    }
    var ranked := RankCandidates(candidates);
    FirstIsBest(candidates, ranked);
    forall h | h in hosts && Eligible(h, o, view) ensures NoWorse(ranked[0].host, h, o, machines) {
      BetterExactly(ranked[0].host, h, o, machines);
    }
    return Some(ranked[0].host);
  }

  lemma EligibleIsBacked(h: VmHost, o: Options, view: Nodes)
    requires Eligible(h, o, view)
    ensures h.hostSystemId != "" && h.hostSystemId in view
  {
  }

  lemma FirstIsBest(candidates: seq<Candidate>, ranked: seq<Candidate>)
    requires candidates != [] && Ranked(ranked) && multiset(ranked) == multiset(candidates)
    ensures ranked != [] && ranked[0] in candidates
    ensures forall c :: c in candidates ==> !Better(c, ranked[0])
  {
    assert candidates[0] in multiset(ranked);
    assert ranked[0] in multiset(candidates);
    forall c | c in candidates ensures !Better(c, ranked[0]) {
      assert c in multiset(ranked);
      var j :| 0 <= j < |ranked| && ranked[j] == c;
    }
  }

  // ----- properties -----

  /** The comparator is a strict weak order, which is what sort.Slice asks for. */
  lemma BetterIsStrictWeakOrder(a: Candidate, b: Candidate, c: Candidate)
    ensures !Better(a, a)
    ensures Better(a, b) ==> !Better(b, a)
    ensures Better(a, b) && Better(b, c) ==> Better(a, c)
    ensures !Better(a, b) && !Better(b, c) ==> !Better(a, c)
  {
  }

  /** With both minimums positive the real score orders hosts like an integer cross-multiplication. */
  lemma ScoreOrder(g: VmHost, h: VmHost, o: Options)
    requires o.minCores > 0 && o.minMemory > 0
    ensures Score(g, o) > Score(h, o) <==>
            g.cores * o.minMemory + g.memory * o.minCores > h.cores * o.minMemory + h.memory * o.minCores
  {
    var mc, mm := o.minCores as real, o.minMemory as real;
    ScaledScore(g, o);
    ScaledScore(h, o);
    var d := mc * mm;
    assert d > 0.0;
    ScaleCompare(Score(g, o), Score(h, o), d);
  }

  lemma ScaleCompare(x: real, y: real, d: real)
    requires d > 0.0
    ensures x > y <==> x * d > y * d
  {
    if x > y {
      assert (x - y) * d > 0.0;
    } else {
      assert (y - x) * d >= 0.0;
    }
  }

  lemma ScaledScore(h: VmHost, o: Options)
    requires o.minCores > 0 && o.minMemory > 0
    ensures Score(h, o) * (o.minCores as real * o.minMemory as real)
         == (h.cores * o.minMemory + h.memory * o.minCores) as real
  {
    var c, m, mc, mm := h.cores as real, h.memory as real, o.minCores as real, o.minMemory as real;
    assert c / mc * mc == c && m / mm * mm == m;
    assert (c / mc + m / mm) * (mc * mm) == (c / mc * mc) * mm + (m / mm * mm) * mc;
    assert (h.cores * o.minMemory) as real == c * mm && (h.memory * o.minCores) as real == m * mc;
  }

  predicate Tighter(t: Options, o: Options) {
    && (o.zone == "" || t.zone == o.zone)
    && (o.pool == "" || t.pool == o.pool)
    && (forall x :: x in o.tags ==> x in t.tags)
    && (o.minCores <= 0 || t.minCores >= o.minCores)
    && (o.minMemory <= 0 || t.minMemory >= o.minMemory)
    && (o.minDiskGB <= 0 || t.minDiskGB >= o.minDiskGB)
  }

  /** Tightening any option never makes a host eligible, as long as the byte product does not overflow. */
  lemma TighteningShrinks(h: VmHost, t: Options, o: Options, view: Nodes)
    requires Tighter(t, o) && t.minDiskGB <= MAX_DISK_GB
    ensures Eligible(h, t, view) ==> Eligible(h, o, view)
  {
    if Eligible(h, t, view) && o.minDiskGB > 0 {
      NoOverflow(t.minDiskGB);
      NoOverflow(o.minDiskGB);
      var i :| 0 <= i < |h.storage| && !h.storage[i].remote && Uncommitted(h.storage[i]) >= RequiredBytes(t.minDiskGB);
    }
  }

  lemma NoOverflow(diskGB: int)
    requires 0 < diskGB <= MAX_DISK_GB
    ensures RequiredBytes(diskGB) == diskGB * GB
  {
  }

  /**
   * The storage filter really asks for diskGB gigabytes exactly when the product fits in an int64;
   * every larger demand is met by some host that has too little.
   */
  lemma StorageFilterIsHonest(diskGB: int)
    requires diskGB > 0
    ensures diskGB <= MAX_DISK_GB <==>
            forall h: VmHost :: HasStorage(h, diskGB) ==>
              exists i :: 0 <= i < |h.storage| && !h.storage[i].remote && Uncommitted(h.storage[i]) >= diskGB * GB
  {
    if diskGB <= MAX_DISK_GB {
      NoOverflow(diskGB);
    } else {
      var need := RequiredBytes(diskGB);
      var pool := StoragePool(false, need, 0);
      assert Uncommitted(pool) == need < diskGB * GB;
      var h := VmHost("", "", "", None, None, [], 0, 0, [pool]);
      assert h.storage[0] == pool;
      assert HasStorage(h, diskGB);
    }
  }

  /** A host with some local storage passes a demand of 9223372037 GB: the bound cannot be relaxed. */
  lemma OverflowAdmitsSmallHosts(diskGB: int)
    requires MAX_DISK_GB < diskGB <= 2 * MAX_DISK_GB
    ensures RequiredBytes(diskGB) < 0
    ensures HasStorage(VmHost("", "", "", None, None, [], 0, 0, [StoragePool(false, 1, 0)]), diskGB)
  {
    var h := VmHost("", "", "", None, None, [], 0, 0, [StoragePool(false, 1, 0)]);
    assert !h.storage[0].remote && Uncommitted(h.storage[0]) == 1;
  }

  /** A host with one local byte left. */
  const ONE_BYTE := VmHost("", "", "", None, None, [], 0, 0, [StoragePool(false, 1, 0)])

  /**
   * Which demands one byte satisfies, past the bound where the product has wrapped around more than once too:
   * all but those whose product with a billion is from 2 up to the largest int64, modulo 2 to the 64th.
   */
  lemma OneByteIsEnough(diskGB: int)
    ensures HasStorage(ONE_BYTE, diskGB) <==> !(2 <= diskGB * GB % 0x1_0000_0000_0000_0000 < 0x8000_0000_0000_0000)
  {
    assert Uncommitted(ONE_BYTE.storage[0]) == 1;
  }

  /** Twice the bound and more: the demand is positive again, and far too small. */
  lemma OverflowTurnsPositive()
    ensures RequiredBytes(18446744074) == 290448384 < GB
  {
  }
}
