/**
 * The evacuation gates a host must pass before its finalizer goes away
 * (controllers/host_maintenance_service.go, pkg/maas/maintenance/common.go).
 */
module Gates {
  import opened Base
  import opened Inventory
  import opened Tags

  datatype Vm = Vm(systemId: string, node: Node)

  /**
   * One list call: the system IDs MAAS returned, and the ones whose Get call then succeeded.
   * A VM whose Get fails is silently skipped by both list operations.
   */
  datatype Listing = Listing(ids: seq<string>, fetched: set<string>)

  function Select(nodes: Nodes, l: Listing, keep: Node -> bool): seq<Vm>
    decreases |l.ids|
  {
    if l.ids == [] then []
    else
      var id := l.ids[|l.ids| - 1];
      Select(nodes, l.(ids := l.ids[..|l.ids| - 1]), keep)
      + if id in l.fetched && id in nodes && keep(nodes[id]) then [Vm(id, nodes[id])] else []
  }

  function HostVms(nodes: Nodes, l: Listing, host: string): seq<Vm> { Select(nodes, l, (n: Node) => n.parent == host) }

  function AllVms(nodes: Nodes, l: Listing): seq<Vm> { Select(nodes, l, (n: Node) => n.powerType == "lxd") }

  /** A read finds exactly the listed machines it could fetch and that pass the filter. */
  lemma {:induction false} SelectFinds(nodes: Nodes, l: Listing, keep: Node -> bool)
    ensures forall v :: v in Select(nodes, l, keep) <==>
      v.systemId in l.ids && v.systemId in l.fetched && v.systemId in nodes && v.node == nodes[v.systemId]
        && keep(v.node)
    decreases |l.ids|
  {
    if l.ids != [] {
      var n := |l.ids| - 1;
      SelectFinds(nodes, l.(ids := l.ids[..n]), keep);
      assert l.ids == l.ids[..n] + [l.ids[n]];
    }
  }

  method ListHostVms(nodes: Nodes, l: Listing, host: string) returns (out: seq<Vm>)
    ensures out == HostVms(nodes, l, host)
  {
    out := [];
    for i := 0 to |l.ids|
      invariant out == HostVms(nodes, l.(ids := l.ids[..i]), host)
    {
      assert l.ids[..i + 1][..i] == l.ids[..i];
      var id := l.ids[i];
      if id !in l.fetched || id !in nodes {
        continue;
      }
      if nodes[id].parent != host {
        continue;
      }
      out := out + [Vm(id, nodes[id])];
    }
    assert l.(ids := l.ids[..|l.ids|]) == l;
  }

  method ListAllVms(nodes: Nodes, l: Listing) returns (out: seq<Vm>)
    ensures out == AllVms(nodes, l)
  {
    out := [];
    for i := 0 to |l.ids|
      invariant out == AllVms(nodes, l.(ids := l.ids[..i]))
    {
      assert l.ids[..i + 1][..i] == l.ids[..i];
      var id := l.ids[i];
      if id !in l.fetched || id !in nodes {
        continue;
      }
      if nodes[id].powerType != "lxd" {
        continue;
      }
      out := out + [Vm(id, nodes[id])];
    }
    assert l.(ids := l.ids[..|l.ids|]) == l;
  }

  /** The two reads HMC makes: the VMs on one host, and all LXD VMs. */
  lemma ReadsExactly(nodes: Nodes, l: Listing, host: string, id: string)
    ensures var seen := id in l.ids && id in l.fetched && id in nodes;
      && ((exists v :: v in HostVms(nodes, l, host) && v.systemId == id) <==> seen && nodes[id].parent == host)
      && ((exists v :: v in AllVms(nodes, l) && v.systemId == id) <==> seen && nodes[id].powerType == "lxd")
  {
    hide Select;
    SelectFinds(nodes, l, (n: Node) => n.parent == host);
    SelectFinds(nodes, l, (n: Node) => n.powerType == "lxd");
    if id in l.ids && id in l.fetched && id in nodes {
      var v := Vm(id, nodes[id]);
      assert v in HostVms(nodes, l, host) <==> nodes[id].parent == host;
      assert v in AllVms(nodes, l) <==> nodes[id].powerType == "lxd";
    }
  }

  // ----- replacement tags -----

  /** The last tag with the cluster prefix, as the scan over a VM's tags leaves it; "" when there is none. */
  function LastClusterTag(tags: seq<string>): string {
    if tags == [] then ""
    else if VM_CLUSTER_PREFIX <= tags[|tags| - 1] then tags[|tags| - 1]
    else LastClusterTag(tags[..|tags| - 1])
  }

  predicate IsCpVm(vm: Vm) { VM_CONTROL_PLANE in vm.node.tags }

  predicate HasReadyTag(tags: seq<string>) { exists t :: t in tags && VM_READY_OP_PREFIX <= t }

  /** When another VM counts as the replacement of a control-plane VM on the host. */
  predicate IsReplacement(candidate: Vm, vm: Vm, host: Node) {
    && candidate.node.pool == host.pool && candidate.node.zone == host.zone
    && candidate.systemId != vm.systemId
    && VM_CONTROL_PLANE in candidate.node.tags
    && LastClusterTag(vm.node.tags) in candidate.node.tags
    && HasReadyTag(candidate.node.tags)
  }

  /** Every control-plane VM on the host has a ready replacement elsewhere in its pool and zone. */
  predicate ReplacementsReady(onHost: seq<Vm>, all: seq<Vm>, host: Node) {
    forall vm :: vm in onHost && IsCpVm(vm) ==>
      exists candidate :: candidate in all && IsReplacement(candidate, vm, host)
  }

  /** A control-plane VM always has some cluster-prefixed tag: the control-plane tag itself. */
  lemma {:induction false} ClusterTagNeverMissing(tags: seq<string>)
    requires VM_CONTROL_PLANE in tags
    ensures LastClusterTag(tags) != "" && LastClusterTag(tags) in tags
  {
    var n := |tags| - 1;
    ControlPlaneTagHasClusterPrefix();
    if !(VM_CLUSTER_PREFIX <= tags[n]) {
      assert tags == tags[..n] + [tags[n]];
      ClusterTagNeverMissing(tags[..n]);
    }
  }

  lemma ControlPlaneTagHasClusterPrefix()
    ensures VM_CLUSTER_PREFIX <= VM_CONTROL_PLANE && VM_CLUSTER_PREFIX != VM_CONTROL_PLANE
  {
  }

  /**
   * A replacement is guaranteed to belong to the VM's own cluster exactly when the VM's own cluster tag is
   * listed after its control-plane tag. In the other order the control-plane tag is taken for the cluster
   * tag, and a ready control-plane VM of any cluster will do.
   */
  lemma ReplacementOfSameCluster(vm: Vm, own: string, host: Node)
    requires own in vm.node.tags && own != VM_CONTROL_PLANE && VM_CLUSTER_PREFIX <= own && IsCpVm(vm)
    requires forall t :: t in vm.node.tags && VM_CLUSTER_PREFIX <= t ==> t == own || t == VM_CONTROL_PLANE
    ensures (forall candidate :: IsReplacement(candidate, vm, host) ==> own in candidate.node.tags)
            <==> LastClusterTag(vm.node.tags) == own
  {
    ClusterTagNeverMissing(vm.node.tags);
    LastClusterTagHasPrefix(vm.node.tags);
    if LastClusterTag(vm.node.tags) != own {
      var ready := ReadyOpTag("");
      var other := Vm(vm.systemId + "x", host.(tags := [VM_CONTROL_PLANE, ready]));
      assert other.node.tags[0] == VM_CONTROL_PLANE && other.node.tags[1] == ready;
      VmTagsAreNotDrainTags("");
      assert ready[9] == 'r' && VM_CLUSTER_PREFIX[9] == 'w';
      assert own != ready && ready in other.node.tags && VM_READY_OP_PREFIX <= ready;
      assert IsReplacement(other, vm, host);
    }
  }

  lemma {:induction false} LastClusterTagHasPrefix(tags: seq<string>)
    requires LastClusterTag(tags) != ""
    ensures VM_CLUSTER_PREFIX <= LastClusterTag(tags) && LastClusterTag(tags) in tags
  {
    var n := |tags| - 1;
    if !(VM_CLUSTER_PREFIX <= tags[n]) {
      LastClusterTagHasPrefix(tags[..n]);
    }
  }

  // ----- checkWLCReadyTags -----

  /** The tracking data the check writes into an open session. */
  datatype Tracking = Tracking(affected: set<string>, pending: seq<string>)

  function Pending(onHost: seq<Vm>): seq<string> {
    if onHost == [] then []
    else
      var vm := onHost[|onHost| - 1];
      Pending(onHost[..|onHost| - 1]) + if IsCpVm(vm) then [vm.systemId] else []
  }

  function TrackingOf(onHost: seq<Vm>): Tracking {
    Tracking(set vm | vm in onHost && IsCpVm(vm) :: LastClusterTag(vm.node.tags), Pending(onHost))
  }

  /** None stands for an inventory error; the tracking data is what the check tries to save, if it gets that far. */
  datatype Verdict = Verdict(ready: Option<bool>, tracking: Option<Tracking>)

  /** What checkWLCReadyTags decides from the host details and the two reads, each of which may fail. */
  function WlcVerdict(host: Option<Node>, onHost: Option<seq<Vm>>, all: Option<seq<Vm>>): Verdict {
    if host.None? || onHost.None? then Verdict(None, None)
    else if forall vm :: vm in onHost.value ==> !IsCpVm(vm) then Verdict(Some(true), Some(Tracking({}, [])))
    else if all.None? then Verdict(None, Some(TrackingOf(onHost.value)))
    else Verdict(Some(ReplacementsReady(onHost.value, all.value, host.value)), Some(TrackingOf(onHost.value)))
  }

  method ScanVmTags(tags: seq<string>) returns (isCpVm: bool, clusterTag: string)
    ensures isCpVm == (VM_CONTROL_PLANE in tags) && clusterTag == LastClusterTag(tags)
  {
    isCpVm, clusterTag := false, "";
    for i := 0 to |tags|
      invariant isCpVm == (VM_CONTROL_PLANE in tags[..i]) && clusterTag == LastClusterTag(tags[..i])
    {
      assert tags[..i + 1][..i] == tags[..i];
      if tags[i] == VM_CONTROL_PLANE {
        isCpVm := true;
      }
      if VM_CLUSTER_PREFIX <= tags[i] {
        clusterTag := tags[i];
      }
    }
    assert tags[..|tags|] == tags;
  }

  lemma ReadyTagSnoc(tags: seq<string>, tag: string)
    ensures HasReadyTag(tags + [tag]) <==> HasReadyTag(tags) || VM_READY_OP_PREFIX <= tag
  {
    if HasReadyTag(tags) {
      var t :| t in tags && VM_READY_OP_PREFIX <= t;
      assert t in tags + [tag];
    }
    if VM_READY_OP_PREFIX <= tag {
      assert tag in tags + [tag];
    }
  }

  method ScanCandidateTags(tags: seq<string>, clusterTag: string)
    returns (hasCP: bool, hasCluster: bool, hasReady: bool)
    ensures hasCP == (VM_CONTROL_PLANE in tags) && hasCluster == (clusterTag in tags) && hasReady == HasReadyTag(tags)
  {
    hasCP, hasCluster, hasReady := false, false, false;
    for i := 0 to |tags|
      invariant hasCP == (VM_CONTROL_PLANE in tags[..i]) && hasCluster == (clusterTag in tags[..i])
      invariant hasReady == HasReadyTag(tags[..i])
    {
      assert tags[..i + 1] == tags[..i] + [tags[i]];
      ReadyTagSnoc(tags[..i], tags[i]);
      if tags[i] == VM_CONTROL_PLANE {
        hasCP := true;
      }
      if tags[i] == clusterTag {
        hasCluster := true;
      }
      if VM_READY_OP_PREFIX <= tags[i] {
        hasReady := true;
      }
    }
    assert tags[..|tags|] == tags;
  }

  datatype ToReplace = ToReplace(systemId: string, clusterTag: string)

  /** The VMs that need a replacement, in the order they were read. */
  function Needed(onHost: seq<Vm>): seq<ToReplace> {
    if onHost == [] then []
    else
      var vm := onHost[|onHost| - 1];
      Needed(onHost[..|onHost| - 1]) + if IsCpVm(vm) then [ToReplace(vm.systemId, LastClusterTag(vm.node.tags))] else []
  }

  lemma {:induction false} NeededFinds(onHost: seq<Vm>)
    ensures forall r :: r in Needed(onHost) <==>
      exists vm :: vm in onHost && IsCpVm(vm) && r == ToReplace(vm.systemId, LastClusterTag(vm.node.tags))
  {
    if onHost != [] {
      var n := |onHost| - 1;
      NeededFinds(onHost[..n]);
      assert onHost == onHost[..n] + [onHost[n]];
    }
  }

  predicate Replaces(candidate: Vm, r: ToReplace, host: Node) {
    && candidate.node.pool == host.pool && candidate.node.zone == host.zone
    && candidate.systemId != r.systemId
    && VM_CONTROL_PLANE in candidate.node.tags && r.clusterTag in candidate.node.tags
      && HasReadyTag(candidate.node.tags)
  }

  predicate Replaced(r: ToReplace, all: seq<Vm>, host: Node) {
    exists candidate :: candidate in all && Replaces(candidate, r, host)
  }

  method FindReplacement(r: ToReplace, all: seq<Vm>, host: Node) returns (found: bool)
    ensures found == Replaced(r, all, host)
  {
    found := false;
    for i := 0 to |all|
      invariant forall j :: 0 <= j < i ==> !Replaces(all[j], r, host)
    {
      var candidate := all[i];
      if candidate.node.pool != host.pool || candidate.node.zone != host.zone {
        continue;
      }
      if candidate.systemId == r.systemId {
        continue;
      }
      var hasCP, hasCluster, hasReady := ScanCandidateTags(candidate.node.tags, r.clusterTag);
      if hasCP && hasCluster && hasReady {
        assert candidate in all && Replaces(candidate, r, host);
        return true;
      }
    }
  }

  method CollectNeeded(onHost: seq<Vm>) returns (needed: seq<ToReplace>)
    ensures needed == Needed(onHost)
  {
    needed := [];
    for i := 0 to |onHost|
      invariant needed == Needed(onHost[..i])
    {
      assert onHost[..i + 1][..i] == onHost[..i];
      var isCpVm, clusterTag := ScanVmTags(onHost[i].node.tags);
      if isCpVm {
        ClusterTagNeverMissing(onHost[i].node.tags);
      }
      if isCpVm && clusterTag != "" {
        needed := needed + [ToReplace(onHost[i].systemId, clusterTag)];
      }
    }
    assert onHost[..|onHost|] == onHost;
  }

  method TrackEvacuation(needed: seq<ToReplace>, ghost onHost: seq<Vm>) returns (tracking: Tracking)
    requires needed == Needed(onHost)
    ensures tracking == TrackingOf(onHost)
  {
    var affected: set<string> := {};
    var pending: seq<string> := [];
    for i := 0 to |needed|
      invariant affected == set r | r in needed[..i] :: r.clusterTag
      invariant |pending| == i && forall j :: 0 <= j < i ==> pending[j] == needed[j].systemId
    {
      assert needed[..i + 1] == needed[..i] + [needed[i]];
      affected := affected + {needed[i].clusterTag};
      pending := pending + [needed[i].systemId];
    }
    assert needed[..|needed|] == needed;
    TrackingMatches(onHost, needed, affected, pending);
    tracking := Tracking(affected, pending);
  }

  method AllHaveReplacements(needed: seq<ToReplace>, all: seq<Vm>, host: Node, ghost onHost: seq<Vm>)
    returns (ready: bool)
    requires needed == Needed(onHost)
    ensures ready == ReplacementsReady(onHost, all, host)
  {
    for i := 0 to |needed|
      invariant forall j :: 0 <= j < i ==> Replaced(needed[j], all, host)
    {
      var found := FindReplacement(needed[i], all, host);
      if !found {
        assert needed[i] in needed;
        MissingReplacement(onHost, all, host, needed[i]);
        return false;
      }
    }
    AllReplaced(onHost, all, host, needed);
    return true;
  }

  method CheckWlcReadyTags(host: Option<Node>, onHost: Option<seq<Vm>>, all: Option<seq<Vm>>) returns (v: Verdict)
    ensures v == WlcVerdict(host, onHost, all)
  {
    if host.None? {
      return Verdict(None, None);
    }
    if onHost.None? {
      return Verdict(None, None);
    }
    if |onHost.value| == 0 {
      return Verdict(Some(true), Some(Tracking({}, [])));
    }
    var needed := CollectNeeded(onHost.value);
    NothingNeeded(onHost.value);
    if |needed| == 0 {
      return Verdict(Some(true), Some(Tracking({}, [])));
    }
    var tracking := TrackEvacuation(needed, onHost.value);
    if all.None? {
      return Verdict(None, Some(tracking));
    }
    var ready := AllHaveReplacements(needed, all.value, host.value, onHost.value);
    return Verdict(Some(ready), Some(tracking));
  }

  lemma NothingNeeded(onHost: seq<Vm>)
    ensures Needed(onHost) == [] <==> forall vm :: vm in onHost ==> !IsCpVm(vm)
  {
    NeededFinds(onHost);
    if vm :| vm in onHost && IsCpVm(vm) {
      assert ToReplace(vm.systemId, LastClusterTag(vm.node.tags)) in Needed(onHost);
    }
    if Needed(onHost) != [] {
      assert Needed(onHost)[0] in Needed(onHost);
    }
  }

  lemma MissingReplacement(onHost: seq<Vm>, all: seq<Vm>, host: Node, r: ToReplace)
    requires r in Needed(onHost)
    requires !Replaced(r, all, host)
    ensures !ReplacementsReady(onHost, all, host)
  {
    NeededFinds(onHost);
    var vm :| vm in onHost && IsCpVm(vm) && r == ToReplace(vm.systemId, LastClusterTag(vm.node.tags));
    forall c | c in all ensures !IsReplacement(c, vm, host) {
      assert !Replaces(c, r, host);
    }
  }

  lemma AllReplaced(onHost: seq<Vm>, all: seq<Vm>, host: Node, needed: seq<ToReplace>)
    requires needed == Needed(onHost)
    requires forall j :: 0 <= j < |needed| ==> Replaced(needed[j], all, host)
    ensures ReplacementsReady(onHost, all, host)
  {
    NeededFinds(onHost);
    forall vm | vm in onHost && IsCpVm(vm)
      ensures exists c :: c in all && IsReplacement(c, vm, host)
    {
      var r := ToReplace(vm.systemId, LastClusterTag(vm.node.tags));
      assert r in needed;
      var j :| 0 <= j < |needed| && needed[j] == r;
      assert Replaced(needed[j], all, host);
      var c :| c in all && Replaces(c, needed[j], host);
      assert IsReplacement(c, vm, host);
    }
  }

  lemma TrackingMatches(onHost: seq<Vm>, needed: seq<ToReplace>, affected: set<string>, pending: seq<string>)
    requires needed == Needed(onHost)
    requires affected == set r | r in needed :: r.clusterTag
    requires |pending| == |needed| && forall j :: 0 <= j < |needed| ==> pending[j] == needed[j].systemId
    ensures Tracking(affected, pending) == TrackingOf(onHost)
  {
    NeededFinds(onHost);
    var t := set vm | vm in onHost && IsCpVm(vm) :: LastClusterTag(vm.node.tags);
    forall x | x in t ensures x in affected {
      var vm :| vm in onHost && IsCpVm(vm) && LastClusterTag(vm.node.tags) == x;
      assert ToReplace(vm.systemId, x) in needed;
    }
    forall x | x in affected ensures x in t {
      var r :| r in needed && r.clusterTag == x;
    }
    PendingMatches(onHost);
    assert pending == Pending(onHost);
  }

  lemma {:induction false} PendingMatches(onHost: seq<Vm>)
    ensures |Pending(onHost)| == |Needed(onHost)|
    ensures forall j :: 0 <= j < |Needed(onHost)| ==> Pending(onHost)[j] == Needed(onHost)[j].systemId
  {
    if onHost != [] {
      PendingMatches(onHost[..|onHost| - 1]);
    }
  }

  // ----- the readiness check, in terms of tags -----

  /** The cluster a VM belongs to, as the check sees it: the last of its tags with the cluster prefix. */
  ghost predicate ClusterOf(tags: seq<string>, tag: string) {
    exists k ::
      && 0 <= k < |tags| && tags[k] == tag && VM_CLUSTER_PREFIX <= tag
      && forall j :: k < j < |tags| ==> !(VM_CLUSTER_PREFIX <= tags[j])
  }

  lemma {:induction false} LastClusterTagIs(tags: seq<string>, tag: string)
    requires tag != ""
    ensures LastClusterTag(tags) == tag <==> ClusterOf(tags, tag)
  {
    hide VM_CLUSTER_PREFIX;
    if tags == [] {
    } else if VM_CLUSTER_PREFIX <= tags[|tags| - 1] {
      assert ClusterOf(tags, tags[|tags| - 1]);
    } else {
      hide ClusterOf;
      LastClusterTagIs(tags[..|tags| - 1], tag);
      ClusterInPrefix(tags, tag);
    }
  }

  lemma ClusterInPrefix(tags: seq<string>, tag: string)
    requires tags != [] && !(VM_CLUSTER_PREFIX <= tags[|tags| - 1])
    ensures ClusterOf(tags, tag) <==> ClusterOf(tags[..|tags| - 1], tag)
  {
    hide VM_CLUSTER_PREFIX;
    var init := tags[..|tags| - 1];
    if ClusterOf(tags, tag) {
      var k :| 0 <= k < |tags| && tags[k] == tag && VM_CLUSTER_PREFIX <= tag
        && forall j :: k < j < |tags| ==> !(VM_CLUSTER_PREFIX <= tags[j]);
      assert init[k] == tag;
    }
    if ClusterOf(init, tag) {
      var k :| 0 <= k < |init| && init[k] == tag && VM_CLUSTER_PREFIX <= tag
        && forall j :: k < j < |init| ==> !(VM_CLUSTER_PREFIX <= init[j]);
      assert tags[k] == tag && forall j :: k < j < |init| ==> tags[j] == init[j];
    }
  }

  /** Another VM of the host's pool and zone with the control-plane tag, this cluster tag and some ready tag. */
  ghost predicate StandsIn(candidate: Vm, systemId: string, cluster: string, host: Node) {
    && candidate.systemId != systemId
    && candidate.node.pool == host.pool && candidate.node.zone == host.zone
    && VM_CONTROL_PLANE in candidate.node.tags && cluster in candidate.node.tags
    && exists op :: ReadyOpTag(op) in candidate.node.tags
  }

  lemma ReadyTagNamesOp(tags: seq<string>)
    ensures HasReadyTag(tags) <==> exists op :: ReadyOpTag(op) in tags
  {
    if t :| t in tags && VM_READY_OP_PREFIX <= t {
      assert t == ReadyOpTag(t[|VM_READY_OP_PREFIX|..]);
    }
    if op :| ReadyOpTag(op) in tags {
      assert VM_READY_OP_PREFIX <= ReadyOpTag(op);
    }
  }

  /**
   * The check passes exactly when every control-plane VM read on the host, of whichever cluster its tags name
   * last, has a stand-in among all VMs read.
   */
  lemma ReadyExactly(host: Node, onHost: seq<Vm>, all: seq<Vm>)
    ensures WlcVerdict(Some(host), Some(onHost), Some(all)).ready == Some(true) <==>
      forall vm, cluster :: vm in onHost && VM_CONTROL_PLANE in vm.node.tags && ClusterOf(vm.node.tags, cluster) ==>
        exists candidate :: candidate in all && StandsIn(candidate, vm.systemId, cluster, host)
  {
    hide VM_CONTROL_PLANE, VM_CLUSTER_PREFIX, LastClusterTag, ClusterOf, HasReadyTag, ReadyOpTag;
    forall vm | vm in onHost && IsCpVm(vm)
      ensures LastClusterTag(vm.node.tags) != "" && ClusterOf(vm.node.tags, LastClusterTag(vm.node.tags))
      ensures forall cluster :: ClusterOf(vm.node.tags, cluster) ==> cluster == LastClusterTag(vm.node.tags)
    {
      ClusterTagNeverMissing(vm.node.tags);
      LastClusterTagIs(vm.node.tags, LastClusterTag(vm.node.tags));
      forall cluster | ClusterOf(vm.node.tags, cluster) ensures cluster == LastClusterTag(vm.node.tags) {
        ClusterNonEmpty(vm.node.tags, cluster);
        LastClusterTagIs(vm.node.tags, cluster);
      }
    }
    forall candidate, vm | vm in onHost && IsCpVm(vm)
      ensures IsReplacement(candidate, vm, host) <==>
        StandsIn(candidate, vm.systemId, LastClusterTag(vm.node.tags), host)
    {
      ReadyTagNamesOp(candidate.node.tags);
    }
  }

  lemma ClusterNonEmpty(tags: seq<string>, cluster: string)
    requires ClusterOf(tags, cluster)
    ensures cluster != ""
  {
  }

  /** When a read or the host's details are missing the check reports an error, unless nothing needs a replacement. */
  lemma VerdictNeedsReads(host: Option<Node>, onHost: Option<seq<Vm>>, all: Option<seq<Vm>>)
    ensures WlcVerdict(host, onHost, all).ready == None <==>
      host.None? || onHost.None?
      || (all.None? && exists vm :: vm in onHost.value && VM_CONTROL_PLANE in vm.node.tags)
  {
    hide VM_CONTROL_PLANE;
  }

  /** Tracking data is there to be saved exactly when the host and its VMs could be read, and is about those VMs. */
  lemma TrackedIfRead(host: Option<Node>, onHost: Option<seq<Vm>>, all: Option<seq<Vm>>)
    ensures WlcVerdict(host, onHost, all).tracking ==
      if host.Some? && onHost.Some? then Some(TrackingOf(onHost.value)) else None
  {
    hide VM_CONTROL_PLANE, LastClusterTag;
    if host.Some? && onHost.Some? && forall vm :: vm in onHost.value ==> !IsCpVm(vm) {
      TrackedExactly(onHost.value);
      var t := TrackingOf(onHost.value);
      SomeElement(t.pending);
      assert t == Tracking({}, []);
    }
  }

  lemma SomeElement(s: seq<string>)
    ensures s != [] ==> exists x :: x in s
  {
    if s != [] {
      assert s[0] in s;
    }
  }

  /** What an open session is told to wait for: the cluster tags and, in list order, the IDs of the VMs to replace. */
  lemma {:induction false} TrackedExactly(onHost: seq<Vm>)
    ensures var t := TrackingOf(onHost);
      && (forall cluster :: cluster in t.affected <==>
            exists vm :: vm in onHost && VM_CONTROL_PLANE in vm.node.tags && cluster == LastClusterTag(vm.node.tags))
      && (forall id :: id in t.pending <==>
        exists vm :: vm in onHost && VM_CONTROL_PLANE in vm.node.tags && vm.systemId == id)
  {
    hide VM_CONTROL_PLANE, LastClusterTag;
    if onHost != [] {
      var n := |onHost| - 1;
      TrackedExactly(onHost[..n]);
      assert onHost == onHost[..n] + [onHost[n]];
    }
  }

  // ----- CheckEvacuationGates -----

  /** Gate 1 reads the host's VMs; only an empty read goes on to gate 2, which reads again. */
  function GatesVerdict(first: Option<seq<Vm>>, host: Option<Node>, second: Option<seq<Vm>>,
    all: Option<seq<Vm>>): Verdict
  {
    if first.None? then Verdict(None, None)
    else if first.value != [] then Verdict(Some(false), None)
    else WlcVerdict(host, second, all)
  }

  method CheckEvacuationGates(first: Option<seq<Vm>>, host: Option<Node>, second: Option<seq<Vm>>, all: Option<seq<Vm>>)
    returns (v: Verdict)
    ensures v == GatesVerdict(first, host, second, all)
  {
    if first.None? {
      return Verdict(None, None);
    }
    if |first.value| != 0 {
      return Verdict(Some(false), None);
    }
    v := CheckWlcReadyTags(host, second, all);
  }

  /**
   * While the inventory does not change between the reads, the second gate adds nothing: passing the gates
   * is the same as reading no VM on the host.
   */
  lemma GatesCollapse(vms: seq<Vm>, host: Node, all: Option<seq<Vm>>)
    ensures GatesVerdict(Some(vms), Some(host), Some(vms), all).ready == Some(vms == [])
  {
  }

  /** Passing the gates means the first read came back empty, whatever the later reads returned. */
  lemma PassingMeansEmptyRead(nodes: Nodes, l: Listing, h: string, host: Option<Node>, second: Option<seq<Vm>>,
    all: Option<seq<Vm>>)
    requires GatesVerdict(Some(HostVms(nodes, l, h)), host, second, all).ready == Some(true)
    ensures forall id :: id in l.ids && id in l.fetched && id in nodes ==> nodes[id].parent != h
  {
    SelectFinds(nodes, l, (n: Node) => n.parent == h);
    forall id | id in l.ids && id in l.fetched && id in nodes ensures nodes[id].parent != h {
      assert Vm(id, nodes[id]) !in HostVms(nodes, l, h);
    }
  }
}
