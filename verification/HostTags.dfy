/**
 * Putting maintenance tags on a host and taking them off again, each a series of MAAS calls that may be
 * cut off anywhere (pkg/maas/maintenance/host_tagging.go, controllers/host_maintenance_service.go).
 */
module HostTags {
  import opened Base
  import opened Inventory
  import opened State
  import opened Tags

  predicate IsDrainTag(tag: string) { IsMaintenanceTag(tag) || IsOpTag(tag) }

  // ----- EnsureHostMaintenanceTags: three inventory calls, then three assignments -----

  const ENSURE_CALLS := 6

  /** The inventory after the first calls of an attempt went through. */
  function Ensure(nodes: Nodes, host: string, opId: string, calls: nat): Nodes {
    var n1 := if calls > 3 then Assign(nodes, host, HOST_MAINTENANCE) else nodes;
    var n2 := if calls > 4 then Assign(n1, host, HOST_NO_SCHEDULE) else n1;
    if calls > 5 then Assign(n2, host, OpTag(opId)) else n2
  }

  method EnsureHostMaintenanceTags(st: Store, host: string, opId: string, calls: nat) returns (ok: bool)
    modifies st`nodes
    ensures ok == (calls >= ENSURE_CALLS) && st.nodes == Ensure(old(st.nodes), host, opId, calls)
  {
    // Each EnsureTagInInventory call only creates a tag name; no machine changes.
    if calls < 1 {
      return false;
    }
    if calls < 2 {
      return false;
    }
    if calls < 3 {
      return false;
    }
    ok := AddTagTo(st, host, HOST_MAINTENANCE, calls > 3);
    if !ok {
      return false;
    }
    ok := AddTagTo(st, host, HOST_NO_SCHEDULE, calls > 4);
    if !ok {
      return false;
    }
    ok := AddTagTo(st, host, OpTag(opId), calls > 5);
  }

  // ----- clearMaintenanceTags: one read, then one call per tag -----

  function OpTags(tags: seq<string>): seq<string> {
    if tags == [] then []
    else OpTags(tags[..|tags| - 1]) + if IsOpTag(tags[|tags| - 1]) then [tags[|tags| - 1]] else []
  }

  /** The tags the clear removes, in order, from the tags it read. */
  function ToClear(tags: seq<string>): seq<string> { [HOST_MAINTENANCE, HOST_NO_SCHEDULE] + OpTags(tags) }

  function RemoveAll(nodes: Nodes, host: string, tags: seq<string>): Nodes {
    if tags == [] then nodes else Unassign(RemoveAll(nodes, host, tags[..|tags| - 1]), host, tags[|tags| - 1])
  }

  function Min(a: nat, b: nat): nat { if a < b then a else b }

  function Clear(nodes: Nodes, host: string, calls: nat): Nodes {
    if calls == 0 || host !in nodes then nodes
    else var todo := ToClear(nodes[host].tags); RemoveAll(nodes, host, todo[..Min(calls - 1, |todo|)])
  }

  predicate ClearSucceeds(nodes: Nodes, host: string, calls: nat) {
    host in nodes && calls >= 1 + |ToClear(nodes[host].tags)|
  }

  /** One unassignment per listed tag; the count of calls made so far comes in and goes out. */
  method RemoveEach(st: Store, host: string, tags: seq<string>, made: nat, calls: nat) returns (ok: bool)
    modifies st`nodes
    ensures ok == (made + |tags| <= calls || tags == [])
    ensures st.nodes == RemoveAll(old(st.nodes), host, tags[..if made <= calls then Min(calls - made, |tags|) else 0])
  {
    ghost var nodes := st.nodes;
    for i := 0 to |tags|
      invariant i > 0 ==> made + i <= calls
      invariant st.nodes == RemoveAll(nodes, host, tags[..i])
    {
      assert tags[..i + 1][..i] == tags[..i];
      ok := RemoveTagFrom(st, host, tags[i], made + i < calls);
      if !ok {
        return;
      }
    }
    return true;
  }

  method CollectOpTags(tags: seq<string>) returns (r: seq<string>)
    ensures r == OpTags(tags)
  {
    r := [];
    for i := 0 to |tags|
      invariant r == OpTags(tags[..i])
    {
      assert tags[..i + 1][..i] == tags[..i];
      if HOST_OP_PREFIX <= tags[i] {
        r := r + [tags[i]];
      }
    }
    assert tags[..|tags|] == tags;
  }

  lemma {:induction false} RemoveAllConcat(nodes: Nodes, host: string, a: seq<string>, b: seq<string>)
    ensures RemoveAll(RemoveAll(nodes, host, a), host, b) == RemoveAll(nodes, host, a + b)
  {
    if b == [] {
      assert a + b == a;
    } else {
      var n := |b| - 1;
      assert (a + b)[..|a + b| - 1] == a + b[..n];
      RemoveAllConcat(nodes, host, a, b[..n]);
    }
  }

  method ClearMaintenanceTags(st: Store, host: string, calls: nat) returns (ok: bool)
    modifies st`nodes
    ensures ok == ClearSucceeds(old(st.nodes), host, calls) && st.nodes == Clear(old(st.nodes), host, calls)
  {
    hide OpTags, RemoveAll, Unassign;
    if calls == 0 || host !in st.nodes {
      return false;
    }
    ghost var nodes := st.nodes;
    var maintenanceTags := [HOST_MAINTENANCE, HOST_NO_SCHEDULE];
    var opTags := CollectOpTags(st.nodes[host].tags);
    ghost var todo := maintenanceTags + opTags;
    ok := RemoveEach(st, host, maintenanceTags, 1, calls);
    if !ok {
      assert todo[..calls - 1] == maintenanceTags[..calls - 1];
      return;
    }
    assert maintenanceTags[..2] == maintenanceTags;
    ok := RemoveEach(st, host, opTags, 3, calls);
    ghost var k := Min(calls - 3, |opTags|);
    RemoveAllConcat(nodes, host, maintenanceTags, opTags[..k]);
    assert maintenanceTags + opTags[..k] == todo[..2 + k];
  }

  // ----- undo -----

  /** A tag list without its drain tags. */
  function Strip(tags: seq<string>): seq<string> {
    if tags == [] then []
    else Strip(tags[..|tags| - 1]) + if IsDrainTag(tags[|tags| - 1]) then [] else [tags[|tags| - 1]]
  }

  lemma {:induction false} StripConcat(a: seq<string>, b: seq<string>)
    ensures Strip(a + b) == Strip(a) + Strip(b)
  {
    if b == [] {
      assert a + b == a;
    } else {
      var n := |b| - 1;
      assert (a + b)[..|a + b| - 1] == a + b[..n];
      StripConcat(a, b[..n]);
    }
  }

  lemma {:induction false} StripRemove(tags: seq<string>, tag: string)
    requires IsDrainTag(tag)
    ensures Strip(RemoveTag(tags, tag)) == Strip(tags)
  {
    if tags != [] {
      StripRemove(tags[1..], tag);
      assert tags == [tags[0]] + tags[1..];
      StripConcat([tags[0]], tags[1..]);
      StripConcat(if tags[0] == tag then [] else [tags[0]], RemoveTag(tags[1..], tag));
      assert [tags[0]][..0] == [];
    }
  }

  lemma StripAdd(tags: seq<string>, tag: string)
    requires IsDrainTag(tag)
    ensures Strip(AddTag(tags, tag)) == Strip(tags)
  {
    StripConcat(tags, [tag]);
    assert [tag][..0] == [];
  }

  lemma {:induction false} StripClean(tags: seq<string>)
    requires forall t :: t in tags ==> !IsDrainTag(t)
    ensures Strip(tags) == tags
  {
    if tags != [] {
      var n := |tags| - 1;
      assert tags == tags[..n] + [tags[n]];
      StripClean(tags[..n]);
    }
  }

  lemma {:induction false} StripFinds(tags: seq<string>)
    ensures forall t :: t in Strip(tags) <==> t in tags && !IsDrainTag(t)
  {
    if tags != [] {
      var n := |tags| - 1;
      assert tags == tags[..n] + [tags[n]];
      StripFinds(tags[..n]);
    }
  }

  lemma {:induction false} OpTagsFinds(tags: seq<string>)
    ensures forall t :: t in OpTags(tags) <==> t in tags && IsOpTag(t)
  {
    if tags != [] {
      var n := |tags| - 1;
      assert tags == tags[..n] + [tags[n]];
      OpTagsFinds(tags[..n]);
    }
  }

  /** Two inventories that differ at most in the drain tags of one host. */
  ghost predicate SameButDrainTags(a: Nodes, b: Nodes, host: string) {
    && a.Keys == b.Keys
    && (forall id :: id in a && id != host ==> a[id] == b[id])
    && (host in a ==> Strip(a[host].tags) == Strip(b[host].tags) && a[host].(tags := []) == b[host].(tags := []))
  }

  lemma AssignDrainTag(a: Nodes, b: Nodes, host: string, tag: string)
    requires SameButDrainTags(a, b, host) && IsDrainTag(tag)
    ensures SameButDrainTags(a, Assign(b, host, tag), host)
  {
    if host in b {
      StripAdd(b[host].tags, tag);
    }
  }

  lemma UnassignDrainTag(a: Nodes, b: Nodes, host: string, tag: string)
    requires SameButDrainTags(a, b, host) && IsDrainTag(tag)
    ensures SameButDrainTags(a, Unassign(b, host, tag), host)
  {
    if host in b {
      StripRemove(b[host].tags, tag);
    }
  }

  lemma EnsureOnlyDrainTags(a: Nodes, b: Nodes, host: string, opId: string, calls: nat)
    requires SameButDrainTags(a, b, host)
    ensures SameButDrainTags(a, Ensure(b, host, opId, calls), host)
  {
    var n1 := if calls > 3 then Assign(b, host, HOST_MAINTENANCE) else b;
    AssignDrainTag(a, b, host, HOST_MAINTENANCE);
    var n2 := if calls > 4 then Assign(n1, host, HOST_NO_SCHEDULE) else n1;
    AssignDrainTag(a, n1, host, HOST_NO_SCHEDULE);
    AssignDrainTag(a, n2, host, OpTag(opId));
  }

  lemma {:induction false} RemoveAllDrainTags(a: Nodes, b: Nodes, host: string, tags: seq<string>)
    requires SameButDrainTags(a, b, host)
    requires forall t :: t in tags ==> IsDrainTag(t)
    ensures SameButDrainTags(a, RemoveAll(b, host, tags), host)
    ensures host in b ==> forall t :: t in RemoveAll(b, host, tags)[host].tags <==> t in b[host].tags && t !in tags
  {
    if tags != [] {
      var n := |tags| - 1;
      assert tags == tags[..n] + [tags[n]];
      RemoveAllDrainTags(a, b, host, tags[..n]);
      UnassignDrainTag(a, RemoveAll(b, host, tags[..n]), host, tags[n]);
    }
  }

  lemma ClearOnlyDrainTags(a: Nodes, b: Nodes, host: string, calls: nat)
    requires SameButDrainTags(a, b, host)
    ensures SameButDrainTags(a, Clear(b, host, calls), host)
    ensures ClearSucceeds(b, host, calls) ==> forall t :: t in Clear(b, host, calls)[host].tags ==> !IsDrainTag(t)
  {
    if calls > 0 && host in b {
      var todo := ToClear(b[host].tags);
      OpTagsFinds(b[host].tags);
      var k := Min(calls - 1, |todo|);
      assert forall t :: t in todo[..k] ==> t in todo;
      RemoveAllDrainTags(a, b, host, todo[..k]);
      if ClearSucceeds(b, host, calls) {
        assert todo[..k] == todo;
        forall t | t in Clear(b, host, calls)[host].tags ensures !IsDrainTag(t) {
          assert t in b[host].tags && t !in todo;
          assert todo[0] == HOST_MAINTENANCE && todo[1] == HOST_NO_SCHEDULE;
          assert forall x :: x in OpTags(b[host].tags) ==> x in todo;
        }
      }
    }
  }

  /** One attempt, cut off after some number of calls. */
  datatype Attempt = TryEnsure(opId: string, calls: nat) | TryClear(calls: nat)

  function Apply(nodes: Nodes, host: string, attempts: seq<Attempt>): Nodes {
    if attempts == [] then nodes
    else
      var before := Apply(nodes, host, attempts[..|attempts| - 1]);
      match attempts[|attempts| - 1]
      case TryEnsure(opId, calls) => Ensure(before, host, opId, calls)
      case TryClear(calls) => Clear(before, host, calls)
  }

  lemma {:induction false} AttemptsOnlyDrainTags(nodes: Nodes, host: string, attempts: seq<Attempt>)
    ensures SameButDrainTags(nodes, Apply(nodes, host, attempts), host)
  {
    if attempts != [] {
      var n := |attempts| - 1;
      var before := Apply(nodes, host, attempts[..n]);
      AttemptsOnlyDrainTags(nodes, host, attempts[..n]);
      match attempts[n]
      case TryEnsure(opId, calls) => EnsureOnlyDrainTags(nodes, before, host, opId, calls);
      case TryClear(calls) => ClearOnlyDrainTags(nodes, before, host, calls);
    }
  }

  /**
   * However many attempts were cut off and under whatever operation IDs, one clear that runs to its end
   * leaves the host with exactly its original tags less the drain tags, in their original order, and every
   * other machine as it was.
   */
  lemma ClearUndoesEverything(nodes: Nodes, host: string, attempts: seq<Attempt>, calls: nat)
    requires host in nodes
    requires ClearSucceeds(Apply(nodes, host, attempts), host, calls)
    ensures Clear(Apply(nodes, host, attempts), host, calls)
            == nodes[host := nodes[host].(tags := Strip(nodes[host].tags))]
    ensures forall t :: t in Strip(nodes[host].tags) <==>
            t in nodes[host].tags && !IsDrainTag(t)
  {
    var before := Apply(nodes, host, attempts);
    AttemptsOnlyDrainTags(nodes, host, attempts);
    ClearOnlyDrainTags(nodes, before, host, calls);
    CleanMeansStripped(nodes, Clear(before, host, calls), host);
    StripFinds(nodes[host].tags);
  }

  lemma CleanMeansStripped(a: Nodes, b: Nodes, host: string)
    requires host in a && SameButDrainTags(a, b, host)
    requires forall t :: t in b[host].tags ==> !IsDrainTag(t)
    ensures b == a[host := a[host].(tags := Strip(a[host].tags))]
  {
    StripClean(b[host].tags);
    OneEntryDiffers(a, b, host, Strip(a[host].tags));
  }

  lemma OneEntryDiffers(a: Nodes, b: Nodes, host: string, tags: seq<string>)
    requires host in a && a.Keys == b.Keys
    requires forall id :: id in a && id != host ==> a[id] == b[id]
    requires a[host].(tags := []) == b[host].(tags := []) && b[host].tags == tags
    ensures b == a[host := a[host].(tags := tags)]
  {
    var n := a[host].(tags := tags);
    assert b[host] == n;
    assert a[host := n].Keys == b.Keys;
  }

  /** A host whose tags were just ensured is one VEC evacuates, for that very operation if no stale op tag remains. */
  lemma EnsuredHostIsMarked(nodes: Nodes, host: string, opId: string)
    requires host in nodes && opId != ""
    requires forall t :: t in nodes[host].tags && IsOpTag(t) ==> t == OpTag(opId)
    ensures var tags := Ensure(nodes, host, opId, ENSURE_CALLS)[host].tags;
      MarkedForEvacuation(tags) && LastOpId(tags) == opId && HasMaintenanceTag(tags)
  {
    var tags := Ensure(nodes, host, opId, ENSURE_CALLS)[host].tags;
    assert !IsOpTag(HOST_MAINTENANCE) && !IsOpTag(HOST_NO_SCHEDULE) by {
      assert HOST_MAINTENANCE[10] == 'o' && HOST_NO_SCHEDULE[10] == 'o' && HOST_OP_PREFIX[10] == 'c';
    }
    assert OpTag(opId) in tags;
    OpIdLast(tags, opId);
  }

  // ----- cut off after some calls -----

  /** The three inventory calls change nothing; then the tags come one by one. */
  lemma EnsureExactly(nodes: Nodes, host: string, opId: string, calls: nat, t: string)
    requires host in nodes
    ensures var after := Ensure(nodes, host, opId, calls);
      && host in after
      && (t in after[host].tags <==>
            || t in nodes[host].tags || (calls >= 4 && t == HOST_MAINTENANCE) || (calls >= 5 && t == HOST_NO_SCHEDULE)
            || (calls >= 6 && t == HOST_OP_PREFIX + opId))
  {
    hide HOST_MAINTENANCE, HOST_NO_SCHEDULE, HOST_OP_PREFIX;
  }

  /** One read, then the two maintenance tags, then the operation tags the read returned, in their order. */
  lemma ClearExactly(nodes: Nodes, host: string, calls: nat, t: string)
    requires host in nodes
    ensures var after := Clear(nodes, host, calls);
      && host in after
      && (t in after[host].tags ==> t in nodes[host].tags)
      && (t in nodes[host].tags && t !in after[host].tags ==>
            || (calls >= 2 && t == HOST_MAINTENANCE) || (calls >= 3 && t == HOST_NO_SCHEDULE)
            || (calls >= 4 && HOST_OP_PREFIX <= t))
      && (calls >= 2 ==> HOST_MAINTENANCE !in after[host].tags)
      && (calls >= 3 ==> HOST_NO_SCHEDULE !in after[host].tags)
      && (calls >= 3 + |OpTags(nodes[host].tags)| && HOST_OP_PREFIX <= t ==> t !in after[host].tags)
  {
    hide HOST_MAINTENANCE, HOST_NO_SCHEDULE, HOST_OP_PREFIX, Strip, RemoveAll, Unassign, OpTags, SameButDrainTags,
      IsDrainTag;
    if calls > 0 {
      var ops := OpTags(nodes[host].tags);
      var todo := [HOST_MAINTENANCE, HOST_NO_SCHEDULE] + ops;
      var k := Min(calls - 1, |todo|);
      OpTagsFinds(nodes[host].tags);
      DrainTagsToClear(nodes[host].tags);
      Itself(nodes, host);
      assert forall x :: x in todo[..k] ==> x in todo;
      RemoveAllDrainTags(nodes, nodes, host, todo[..k]);
      assert k >= 1 ==> todo[..k][0] == HOST_MAINTENANCE;
      assert k >= 2 ==> todo[..k][1] == HOST_NO_SCHEDULE;
      assert forall j :: 2 <= j < k ==> todo[..k][j] == ops[j - 2];
      assert k == |todo| ==> todo[..k] == todo && forall x :: x in ops ==> x in todo;
      KeysAfter(nodes, host, todo[..k]);
    }
  }

  lemma DrainTagsToClear(tags: seq<string>)
    ensures forall t :: t in ToClear(tags) ==> IsDrainTag(t)
  {
    OpTagsFinds(tags);
  }

  lemma Itself(nodes: Nodes, host: string)
    ensures SameButDrainTags(nodes, nodes, host)
  {
    hide Strip;
  }

  lemma {:induction false} KeysAfter(nodes: Nodes, host: string, tags: seq<string>)
    ensures RemoveAll(nodes, host, tags).Keys == nodes.Keys
  {
    if tags != [] {
      KeysAfter(nodes, host, tags[..|tags| - 1]);
    }
  }
}
