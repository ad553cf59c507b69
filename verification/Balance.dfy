/**
 * What the anti-affinity ranking buys over a whole sequence of placements: select a host, compose a
 * VM on it, tag the VM as a control-plane VM of the cluster, and repeat (pkg/maas/lxd/host_maas_client.go,
 * pkg/maas/machine/machine.go).
 */
module Balance {
  import opened Base
  import opened Inventory
  import opened Selector
  import opened State
  import Effects
  import ProviderIds
  import Provision
  import Tags

  /** One select-compose-tag step; everything but the set of eligible backing machines may change between steps. */
  datatype Placement = Placement(hosts: seq<VmHost>, options: Options, view: Nodes, chosen: VmHost, vm: Node)

  /** The backing machines the filters let through. */
  ghost function EligibleIds(p: Placement): set<string> {
    set h | h in p.hosts && Eligible(h, p.options, p.view) :: h.hostSystemId
  }

  ghost predicate ValidPlacement(machines: seq<Node>, p: Placement, clusterId: string, E: set<string>) {
    && p.options.clusterId == clusterId != ""
    && IsSelection(Some(p.chosen), p.hosts, p.options, Some(machines), p.view)
    && EligibleIds(p) == E
    && p.vm.parent == p.chosen.hostSystemId
    && IsCpOf(p.vm, Tags.ClusterTag(clusterId))
  }

  /** The inventory after the first placements of a run. */
  function After(machines: seq<Node>, run: seq<Placement>): seq<Node> {
    if run == [] then machines
    else After(machines, run[..|run| - 1]) + [run[|run| - 1].vm]
  }

  ghost predicate ValidRun(machines: seq<Node>, run: seq<Placement>, clusterId: string, E: set<string>) {
    forall i :: 0 <= i < |run| ==> ValidPlacement(After(machines, run[..i]), run[i], clusterId, E)
  }

  function Count(machines: seq<Node>, clusterId: string, host: string): nat {
    CpCount(machines, Tags.ClusterTag(clusterId), host)
  }

  ghost predicate SpreadAtMost(machines: seq<Node>, clusterId: string, E: set<string>, d: int) {
    forall g, h :: g in E && h in E ==> Count(machines, clusterId, g) - Count(machines, clusterId, h) <= d
  }

  /** A placement adds one to the count of the chosen host, a least loaded one, and leaves every other count alone. */
  lemma PlacementStep(machines: seq<Node>, p: Placement, clusterId: string, E: set<string>)
    requires ValidPlacement(machines, p, clusterId, E)
    ensures p.vm.parent in E
    ensures forall h :: h in E ==> Count(machines, clusterId, p.vm.parent) <= Count(machines, clusterId, h)
    ensures forall h :: Count(machines + [p.vm], clusterId, h)
                        == Count(machines, clusterId, h) + if h == p.vm.parent then 1 else 0
  {
    assert p.vm.parent in EligibleIds(p);
    forall h | h in E ensures Count(machines, clusterId, p.vm.parent) <= Count(machines, clusterId, h) {
      assert h in EligibleIds(p);
      var host :| host in p.hosts && Eligible(host, p.options, p.view) && host.hostSystemId == h;
      assert !Better(Rank(host, p.options, Some(machines)), Rank(p.chosen, p.options, Some(machines)));
    }
    assert (machines + [p.vm])[..|machines|] == machines;
  }

  lemma SpreadStep(machines: seq<Node>, p: Placement, clusterId: string, E: set<string>, d: int)
    requires ValidPlacement(machines, p, clusterId, E)
    requires d >= 1 && SpreadAtMost(machines, clusterId, E, d)
    ensures SpreadAtMost(machines + [p.vm], clusterId, E, d)
  {
    PlacementStep(machines, p, clusterId, E);
    forall g, h | g in E && h in E
      ensures Count(machines + [p.vm], clusterId, g) - Count(machines + [p.vm], clusterId, h) <= d
    {
      assert Count(machines, clusterId, g) - Count(machines, clusterId, h) <= d;
    }
  }

  lemma PrefixOfRun(machines: seq<Node>, run: seq<Placement>, clusterId: string, E: set<string>)
    requires ValidRun(machines, run, clusterId, E) && run != []
    ensures var n := |run| - 1;
      && ValidRun(machines, run[..n], clusterId, E)
      && ValidPlacement(After(machines, run[..n]), run[n], clusterId, E)
      && After(machines, run) == After(machines, run[..n]) + [run[n].vm]
  {
    hide ValidPlacement;
    var init := run[..|run| - 1];
    assert forall i :: 0 <= i < |init| ==> run[..i] == init[..i] && run[i] == init[i];
  }

  /** From any start, the gap between two eligible hosts never exceeds the larger of the initial gap and one. */
  lemma {:induction false} SpreadNeverGrows(machines: seq<Node>, run: seq<Placement>, clusterId: string,
    E: set<string>, d: int)
    requires ValidRun(machines, run, clusterId, E)
    requires SpreadAtMost(machines, clusterId, E, d)
    ensures SpreadAtMost(After(machines, run), clusterId, E, if d > 1 then d else 1)
  {
    if run != [] {
      PrefixOfRun(machines, run, clusterId, E);
      var n := |run| - 1;
      SpreadNeverGrows(machines, run[..n], clusterId, E, d);
      SpreadStep(After(machines, run[..n]), run[n], clusterId, E, if d > 1 then d else 1);
    }
  }

  // ----- totals over the eligible hosts -----

  ghost function Total(machines: seq<Node>, clusterId: string, E: set<string>): nat {
    if E == {} then 0
    else var h :| h in E; Count(machines, clusterId, h) + Total(machines, clusterId, E - {h})
  }

  lemma {:induction false} TotalSplit(machines: seq<Node>, clusterId: string, E: set<string>, x: string)
    requires x in E
    ensures Total(machines, clusterId, E) == Count(machines, clusterId, x) + Total(machines, clusterId, E - {x})
    decreases |E|
  {
    var h :| h in E
      && Total(machines, clusterId, E) == Count(machines, clusterId, h) + Total(machines, clusterId, E - {h});
    if h != x {
      TotalSplit(machines, clusterId, E - {h}, x);
      TotalSplit(machines, clusterId, E - {x}, h);
      assert E - {h} - {x} == E - {x} - {h};
    }
  }

  lemma {:induction false} TotalSame(a: seq<Node>, b: seq<Node>, clusterId: string, E: set<string>)
    requires forall h :: h in E ==> Count(a, clusterId, h) == Count(b, clusterId, h)
    ensures Total(a, clusterId, E) == Total(b, clusterId, E)
    decreases |E|
  {
    if E != {} {
      var x :| x in E;
      TotalSplit(a, clusterId, E, x);
      TotalSplit(b, clusterId, E, x);
      TotalSame(a, b, clusterId, E - {x});
    }
  }

  lemma {:induction false} TotalBounds(machines: seq<Node>, clusterId: string, E: set<string>, lo: nat, hi: nat)
    requires forall h :: h in E ==> lo <= Count(machines, clusterId, h) <= hi
    ensures |E| * lo <= Total(machines, clusterId, E) <= |E| * hi
    decreases |E|
  {
    if E != {} {
      var x :| x in E;
      TotalSplit(machines, clusterId, E, x);
      TotalBounds(machines, clusterId, E - {x}, lo, hi);
      var n := |E - {x}|;
      assert |E| == n + 1;
      MulSucc(n, lo);
      MulSucc(n, hi);
    }
  }

  lemma TotalStep(machines: seq<Node>, p: Placement, clusterId: string, E: set<string>)
    requires ValidPlacement(machines, p, clusterId, E)
    ensures Total(machines + [p.vm], clusterId, E) == Total(machines, clusterId, E) + 1
  {
    PlacementStep(machines, p, clusterId, E);
    TotalSplit(machines, clusterId, E, p.vm.parent);
    TotalSplit(machines + [p.vm], clusterId, E, p.vm.parent);
    TotalSame(machines, machines + [p.vm], clusterId, E - {p.vm.parent});
  }

  lemma {:induction false} TotalAfter(machines: seq<Node>, run: seq<Placement>, clusterId: string, E: set<string>)
    requires ValidRun(machines, run, clusterId, E)
    ensures Total(After(machines, run), clusterId, E) == Total(machines, clusterId, E) + |run|
  {
    if run != [] {
      PrefixOfRun(machines, run, clusterId, E);
      var n := |run| - 1;
      TotalAfter(machines, run[..n], clusterId, E);
      TotalStep(After(machines, run[..n]), run[n], clusterId, E);
    }
  }

  lemma {:induction false} ZeroTotal(machines: seq<Node>, clusterId: string, E: set<string>)
    requires forall h :: h in E ==> Count(machines, clusterId, h) == 0
    ensures Total(machines, clusterId, E) == 0
  {
    TotalBounds(machines, clusterId, E, 0, 0);
  }

  lemma TotalAround(machines: seq<Node>, clusterId: string, E: set<string>, x: string, lo: nat)
    requires x in E && forall h :: h in E ==> lo <= Count(machines, clusterId, h) <= lo + 1
    ensures var c, rest := Count(machines, clusterId, x), |E| - 1;
      c + rest * lo <= Total(machines, clusterId, E) <= c + rest * (lo + 1)
  {
    TotalSplit(machines, clusterId, E, x);
    TotalBounds(machines, clusterId, E - {x}, lo, lo + 1);
    assert |E| == |E - {x}| + 1;
  }

  /**
   * Starting from no control-plane VMs, after k placements every eligible host holds k / n of them
   * rounded down or up, n being the number of eligible hosts.
   */
  lemma BalancedPlacement(machines: seq<Node>, run: seq<Placement>, clusterId: string, E: set<string>, host: string)
    requires ValidRun(machines, run, clusterId, E)
    requires forall h :: h in E ==> Count(machines, clusterId, h) == 0
    requires host in E
    ensures var k, n := |run|, |E|;
      n > 0 && (|| Count(After(machines, run), clusterId, host) == k / n
                || (k % n != 0 && Count(After(machines, run), clusterId, host) == k / n + 1))
  {
    var final := After(machines, run);
    SpreadNeverGrows(machines, run, clusterId, E, 0);
    TotalAfter(machines, run, clusterId, E);
    ZeroTotal(machines, clusterId, E);
    EvenTotals(final, clusterId, E, host, |run|);
  }

  lemma EvenTotals(machines: seq<Node>, clusterId: string, E: set<string>, host: string, k: nat)
    requires host in E && SpreadAtMost(machines, clusterId, E, 1) && Total(machines, clusterId, E) == k
    ensures |E| > 0
    ensures var c := Count(machines, clusterId, host); c == k / |E| || (k % |E| != 0 && c == k / |E| + 1)
  {
    var low := LeastLoaded(machines, clusterId, E);
    var m, c := Count(machines, clusterId, low), Count(machines, clusterId, host);
    TotalAround(machines, clusterId, E, low, m);
    TotalAround(machines, clusterId, E, host, m);
    Quotient(k, |E|, m, c);
  }

  lemma LeastLoaded(machines: seq<Node>, clusterId: string, E: set<string>) returns (low: string)
    requires E != {}
    ensures low in E && forall h :: h in E ==> Count(machines, clusterId, low) <= Count(machines, clusterId, h)
    decreases |E|
  {
    low :| low in E;
    if E != {low} {
      var other := LeastLoaded(machines, clusterId, E - {low});
      if Count(machines, clusterId, other) < Count(machines, clusterId, low) {
        low := other;
      }
    }
  }

  lemma Quotient(k: nat, n: nat, m: nat, c: nat)
    requires n > 0 && m <= c <= m + 1
    requires m + (n - 1) * m <= k <= m + (n - 1) * (m + 1)
    requires c + (n - 1) * m <= k
    ensures c == k / n || (k % n != 0 && c == k / n + 1)
  {
    assert (n - 1) * m == n * m - m && (n - 1) * (m + 1) == n * m - m + n - 1;
    assert n * m <= k < n * m + n;
    assert k / n == m by {
      DivUnique(k, n, m);
    }
    assert k % n == k - n * m;
  }

  lemma DivUnique(k: nat, n: nat, m: nat)
    requires n > 0 && n * m <= k < n * m + n
    ensures k / n == m
  {
    var q := k / n;
    assert k == n * q + k % n;
    MulMonotone(n, q + 1, m);
    MulMonotone(n, m + 1, q);
  }

  lemma MulSucc(n: nat, a: nat)
    ensures (n + 1) * a == n * a + a
  {
  }

  lemma MulMonotone(n: nat, a: nat, b: nat)
    ensures a <= b ==> n * a <= n * b
  {
  }

  // ----- the controller's own placements -----

  lemma ComposedOnPick(w: World, uid: string, c: Provision.Calls, pick: Option<VmHost>)
    requires uid in w.machines && Provision.Compose(w, uid, c, pick).1.Provisioned?
      && Provision.Compose(w, uid, c, pick).1.composed
    requires !c.crash
    ensures c.hosts.Some? && pick.Some?
    ensures var m := w.machines[uid];
      Provision.Compose(w, uid, c, pick).0
      == Provision.Finish(w.(nodes := w.nodes[c.newId := Provision.NewVm(pick.value, m)]), uid, c.newId,
        m.placement.zone, c)
  {
    hide Provision.Finish, Provision.NewVm, Provision.HostnameTaken, Provision.SameHostname, Provision.Record,
      Provision.Offer;
  }

  lemma FinishTags(w: World, uid: string, c: Provision.Calls, zone: string)
    requires uid in w.machines && w.machines[uid].controlPlane && w.machines[uid].placement.clusterId != ""
    requires c.newId in w.nodes && c.newId != "" && c.cpTagOk && c.clusterTagOk
    ensures var w' := Provision.Finish(w, uid, c.newId, zone, c);
      c.newId in w'.nodes && w'.nodes[c.newId].parent == w.nodes[c.newId].parent
      && IsCpOf(w'.nodes[c.newId], Tags.ClusterTag(w.machines[uid].placement.clusterId))
  {
    hide Provision.TagControlPlane, ProviderIds.Print, Tags.ClusterTag, Tags.VM_CONTROL_PLANE;
    var clusterId := w.machines[uid].placement.clusterId;
    var recorded := Provision.Record(w, uid, c.newId, zone, c.patchOk);
    Effects.TagControlPlaneEffect(recorded, c.newId, clusterId, c);
    var tagged := Provision.TagControlPlane(recorded, c.newId, clusterId, c);
    assert Effects.TaggedNode(recorded.nodes[c.newId], tagged.nodes[c.newId], clusterId);
  }

  /**
   * An attempt that composes a control-plane VM and gets it tagged is a placement in the sense of this module:
   * what the statements above say about runs of placements they say about what the controller does.
   */
  lemma ComposingIsPlacement(w: World, uid: string, c: Provision.Calls, pick: Option<VmHost>, machines: seq<Node>)
    requires uid in w.machines && w.machines[uid].controlPlane && w.machines[uid].placement.clusterId != ""
    requires Provision.Picks(w, uid, c, pick) && c.machines == Some(machines) && c.newId != ""
    requires Provision.Compose(w, uid, c, pick).1.Provisioned? && Provision.Compose(w, uid, c, pick).1.composed
    requires !c.crash && c.cpTagOk && c.clusterTagOk
    ensures c.hosts.Some? && pick.Some? && c.newId in Provision.Compose(w, uid, c, pick).0.nodes
    ensures var want, vm := w.machines[uid].placement, Provision.Compose(w, uid, c, pick).0.nodes[c.newId];
      var p := Placement(c.hosts.value, want, c.view, pick.value, vm);
      ValidPlacement(machines, p, want.clusterId, EligibleIds(p))
  {
    hide Provision.Compose, Provision.Finish, IsSelection, IsCpOf, Tags.ClusterTag;
    ComposedOnPick(w, uid, c, pick);
    var m := w.machines[uid];
    FinishTags(w.(nodes := w.nodes[c.newId := Provision.NewVm(pick.value, m)]), uid, c, m.placement.zone);
  }

  lemma {:induction false} CountConcat(a: seq<Node>, b: seq<Node>, clusterTag: string, host: string)
    ensures CpCount(a + b, clusterTag, host) == CpCount(a, clusterTag, host) + CpCount(b, clusterTag, host)
  {
    hide IsCpOf;
    if b == [] {
      assert a + b == a;
    } else {
      var n := |b| - 1;
      assert (a + b)[..|a + b| - 1] == a + b[..n];
      CountConcat(a, b[..n], clusterTag, host);
    }
  }

  /** The order in which MAAS lists its machines does not matter to the counts. */
  lemma {:induction false} CountsIgnoreOrder(a: seq<Node>, b: seq<Node>, clusterTag: string, host: string)
    requires multiset(a) == multiset(b)
    ensures CpCount(a, clusterTag, host) == CpCount(b, clusterTag, host)
    decreases |a|
  {
    hide IsCpOf;
    if a == [] {
      assert |multiset(b)| == 0;
    } else {
      var n := |a| - 1;
      assert a == a[..n] + [a[n]];
      assert a[n] in multiset(b);
      var k :| 0 <= k < |b| && b[k] == a[n];
      var rest := b[..k] + b[k + 1..];
      WithoutOne(b, k);
      MultisetMinus(multiset(a[..n]), multiset(rest), a[n]);
      CountsIgnoreOrder(a[..n], rest, clusterTag, host);
      CountConcat(a[..n], [a[n]], clusterTag, host);
      CountConcat(b[..k], [b[k]], clusterTag, host);
      CountConcat(b[..k] + [b[k]], b[k + 1..], clusterTag, host);
      CountConcat(b[..k], b[k + 1..], clusterTag, host);
    }
  }

  lemma WithoutOne(b: seq<Node>, k: nat)
    requires k < |b|
    ensures b == b[..k] + [b[k]] + b[k + 1..]
    ensures multiset(b) == multiset(b[..k] + b[k + 1..]) + multiset{b[k]}
  {
    assert b == b[..k] + [b[k]] + b[k + 1..];
  }

  lemma MultisetMinus(x: multiset<Node>, y: multiset<Node>, n: Node)
    requires x + multiset{n} == y + multiset{n}
    ensures x == y
  {
    assert x == (x + multiset{n}) - multiset{n};
    assert y == (y + multiset{n}) - multiset{n};
  }
}
