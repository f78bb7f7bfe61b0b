/**
 * The scene's identifier space and its lookup tables: replicated and local ID
 * ranges, the ID maps of nodes and components, the tag index, and the
 * allocation of free IDs. The scene's implementation file is not part of this
 * model; the operations follow the header's documentation of each member.
 */
module Scenes {
  import opened Wrappers

  type Id32 = id: nat | id < 0x1_0000_0000

  const FIRST_REPLICATED_ID: Id32 := 0x1
  const LAST_REPLICATED_ID: Id32 := 0xff_ffff
  const FIRST_LOCAL_ID: Id32 := 0x0100_0000
  const LAST_LOCAL_ID: Id32 := 0xffff_ffff

  /** Whether the specified id is a replicated id. */
  predicate IsReplicatedID(id: Id32) { id < FIRST_LOCAL_ID }

  /** The two ranges are adjacent and disjoint, and `IsReplicatedID` tells them apart. */
  lemma IdRanges(id: Id32)
    ensures LAST_REPLICATED_ID + 1 == FIRST_LOCAL_ID
    ensures FIRST_REPLICATED_ID <= id <= LAST_REPLICATED_ID ==> IsReplicatedID(id)
    ensures FIRST_LOCAL_ID <= id <= LAST_LOCAL_ID ==> !IsReplicatedID(id)
    ensures id != 0 ==> (IsReplicatedID(id) <==> id <= LAST_REPLICATED_ID)
  {
  }

  /** Creation mode: replicated over the network, or local to this host. */
  datatype CreateMode = REPLICATED | LOCAL

  /** A node as the scene's tables see it: its identity and its ID. */
  datatype NodeRef = NodeRef(ptr: nat, id: Id32)

  /** A component as the scene's tables see it. */
  datatype ComponentRef = ComponentRef(ptr: nat, id: Id32)

  /** The ID range first..last of a creation mode. */
  function FirstId(mode: CreateMode): Id32 { if mode == REPLICATED then FIRST_REPLICATED_ID else FIRST_LOCAL_ID }
  function LastId(mode: CreateMode): Id32 { if mode == REPLICATED then LAST_REPLICATED_ID else LAST_LOCAL_ID }

  /**
   * The ID inspected at probe `k` of a cyclic scan of first..last starting at
   * `start`: counting up from `start` and wrapping past `last` to `first`.
   */
  function Probe(start: int, k: nat, first: int, last: int): (id: int)
    requires first <= start <= last && k <= last - first
    ensures first <= id <= last
  {
    if start + k <= last then start + k else start + k - (last - first + 1)
  }

  /** A full cyclic scan visits every ID of the range. */
  lemma ProbeCovers(start: int, id: int, first: int, last: int)
    requires first <= start <= last && first <= id <= last
    ensures var k := if id >= start then id - start else id - start + (last - first + 1);
      0 <= k <= last - first && Probe(start, k, first, last) == id
  {
  }

  /** `id` is the first ID of the cyclic scan from `start` that is not in `used`. */
  predicate FirstFreeInScan(used: set<Id32>, start: Id32, first: Id32, last: Id32, id: Id32)
    requires first <= start <= last
  {
    exists k: nat :: k <= last - first && Probe(start, k, first, last) == id && id !in used
      && forall j: nat :: j < k ==> Probe(start, j, first, last) in used
  }

  /**
   * The search for a free ID from the counter `start` of one range: try the
   * counter, advance it (wrapping from the last ID to the first) and repeat
   * until an unused ID turns up. The engine loops forever on a full range; this
   * model stops after one full cycle and reports `None`.
   */
  method NextFreeId(used: set<Id32>, start: Id32, first: Id32, last: Id32) returns (found: Option<Id32>, next: Id32)
    requires first <= start <= last
    ensures first <= next <= last
    ensures found.Some? ==> first <= found.value <= last && found.value !in used
    ensures found.Some? ==> next == if found.value < last then found.value + 1 else first
    ensures found.None? ==> forall id: Id32 :: first <= id <= last ==> id in used
    ensures found.None? ==> next == start
    ensures found.Some? ==> FirstFreeInScan(used, start, first, last, found.value)
  {
    var n := last - first + 1;
    var cur := start;
    var probes: nat := 0;
    while probes < n
      invariant probes <= n && first <= cur <= last
      invariant probes < n ==> cur == Probe(start, probes, first, last)
      invariant probes == n ==> cur == start
      invariant forall k: nat :: k < probes ==> Probe(start, k, first, last) in used
    {
      var ret := cur;
      cur := if cur < last then cur + 1 else first;
      if ret !in used {
        return Some(ret), cur;
      }
      probes := probes + 1;
    }
    forall id: Id32 | first <= id <= last
      ensures id in used
    {
      ProbeCovers(start, id, first, last);
      var k := if id >= start then id - start else id - start + n;
      assert Probe(start, k, first, last) in used;
    }
    return None, cur;
  }

  class Scene {
    var replicatedNodes: map<Id32, NodeRef>
    var localNodes: map<Id32, NodeRef>
    var replicatedComponents: map<Id32, ComponentRef>
    var localComponents: map<Id32, ComponentRef>
    /**
     * Cached tagged nodes by tag. The engine keys this cache by the tag's
     * `StringHash`; keying by the string itself assumes that no two tags in
     * use share a hash, so hash collisions are not modelled. The empty tag
     * stands for the zero hash.
     */
    var taggedNodes: map<string, seq<NodeRef>>
    var replicatedNodeID: Id32
    var replicatedComponentID: Id32
    var localNodeID: Id32
    var localComponentID: Id32

    /** The next-ID counters stay within their ranges. */
    ghost predicate Valid()
      reads this
    {
      FIRST_REPLICATED_ID <= replicatedNodeID <= LAST_REPLICATED_ID
      && FIRST_REPLICATED_ID <= replicatedComponentID <= LAST_REPLICATED_ID
      && FIRST_LOCAL_ID <= localNodeID <= LAST_LOCAL_ID
      && FIRST_LOCAL_ID <= localComponentID <= LAST_LOCAL_ID
    }

    constructor ()
      ensures Valid()
      ensures replicatedNodes == map[] && localNodes == map[] && taggedNodes == map[]
      ensures replicatedComponents == map[] && localComponents == map[]
    {
      replicatedNodes, localNodes := map[], map[];
      replicatedComponents, localComponents := map[], map[];
      taggedNodes := map[];
      replicatedNodeID, replicatedComponentID := FIRST_REPLICATED_ID, FIRST_REPLICATED_ID;
      localNodeID, localComponentID := FIRST_LOCAL_ID, FIRST_LOCAL_ID;
    }

    /** The node map an ID belongs to. */
    function NodeMap(id: Id32): map<Id32, NodeRef>
      reads this
    {
      if IsReplicatedID(id) then replicatedNodes else localNodes
    }

    function ComponentMap(id: Id32): map<Id32, ComponentRef>
      reads this
    {
      if IsReplicatedID(id) then replicatedComponents else localComponents
    }

    /** The node with an ID from the whole scene, or null if not found. */
    function GetNode(id: Id32): (r: Option<NodeRef>)
      reads this
      ensures r.None? <==> id !in (if IsReplicatedID(id) then replicatedNodes else localNodes)
      ensures r.Some? ==> r.value == NodeMap(id)[id]
    {
      if id in NodeMap(id) then Some(NodeMap(id)[id]) else None
    }

    /** The component with an ID from the whole scene, or null if not found. */
    function GetComponent(id: Id32): (r: Option<ComponentRef>)
      reads this
      ensures r.None? <==> id !in (if IsReplicatedID(id) then replicatedComponents else localComponents)
      ensures r.Some? ==> r.value == ComponentMap(id)[id]
    {
      if id in ComponentMap(id) then Some(ComponentMap(id)[id]) else None
    }

    /** Node added: put it in the ID map of its range; everything else stays. */
    method NodeAdded(node: NodeRef)
      modifies this`replicatedNodes, this`localNodes
      ensures GetNode(node.id) == Some(node)
      ensures IsReplicatedID(node.id) ==> replicatedNodes == old(replicatedNodes)[node.id := node] && localNodes == old(localNodes)
      ensures !IsReplicatedID(node.id) ==> localNodes == old(localNodes)[node.id := node] && replicatedNodes == old(replicatedNodes)
    {
      if IsReplicatedID(node.id) {
        replicatedNodes := replicatedNodes[node.id := node];
      } else {
        localNodes := localNodes[node.id := node];
      }
    }

    /** Node removed: take its ID out of the ID map of its range. */
    method NodeRemoved(node: NodeRef)
      modifies this`replicatedNodes, this`localNodes
      ensures GetNode(node.id) == None
      ensures IsReplicatedID(node.id) ==> replicatedNodes == old(replicatedNodes) - {node.id} && localNodes == old(localNodes)
      ensures !IsReplicatedID(node.id) ==> localNodes == old(localNodes) - {node.id} && replicatedNodes == old(replicatedNodes)
    {
      if IsReplicatedID(node.id) {
        replicatedNodes := replicatedNodes - {node.id};
      } else {
        localNodes := localNodes - {node.id};
      }
    }

    method ComponentAdded(component: ComponentRef)
      modifies this`replicatedComponents, this`localComponents
      ensures GetComponent(component.id) == Some(component)
      ensures IsReplicatedID(component.id) ==>
                replicatedComponents == old(replicatedComponents)[component.id := component]
                && localComponents == old(localComponents)
      ensures !IsReplicatedID(component.id) ==>
                localComponents == old(localComponents)[component.id := component]
                && replicatedComponents == old(replicatedComponents)
    {
      if IsReplicatedID(component.id) {
        replicatedComponents := replicatedComponents[component.id := component];
      } else {
        localComponents := localComponents[component.id := component];
      }
    }

    method ComponentRemoved(component: ComponentRef)
      modifies this`replicatedComponents, this`localComponents
      ensures GetComponent(component.id) == None
      ensures IsReplicatedID(component.id) ==>
                replicatedComponents == old(replicatedComponents) - {component.id}
                && localComponents == old(localComponents)
      ensures !IsReplicatedID(component.id) ==>
                localComponents == old(localComponents) - {component.id}
                && replicatedComponents == old(replicatedComponents)
    {
      if IsReplicatedID(component.id) {
        replicatedComponents := replicatedComponents - {component.id};
      } else {
        localComponents := localComponents - {component.id};
      }
    }

    /** The nodes cached under a tag, in the order they were added. */
    function TaggedWith(tag: string): seq<NodeRef>
      reads this
    {
      if tag in taggedNodes then taggedNodes[tag] else []
    }

    /** Cache a node by a non-empty tag, appended without checking whether it is already there. */
    method NodeTagAdded(node: NodeRef, tag: string)
      modifies this`taggedNodes
      ensures tag != "" ==> taggedNodes == old(taggedNodes)[tag := old(TaggedWith(tag)) + [node]]
      ensures tag == "" ==> taggedNodes == old(taggedNodes)
    {
      if tag != "" {
        taggedNodes := taggedNodes[tag := TaggedWith(tag) + [node]];
      }
    }

    /** Remove a node from a non-empty tag's cache (its first occurrence). */
    method NodeTagRemoved(node: NodeRef, tag: string)
      modifies this`taggedNodes
      ensures tag != "" && tag in old(taggedNodes) ==>
                taggedNodes == old(taggedNodes)[tag := RemoveFirst(old(taggedNodes)[tag], node)]
      ensures tag == "" || tag !in old(taggedNodes) ==> taggedNodes == old(taggedNodes)
    {
      if tag != "" && tag in taggedNodes {
        taggedNodes := taggedNodes[tag := RemoveFirst(taggedNodes[tag], node)];
      }
    }

    /** The nodes with a tag; the flag is false iff there are none. */
    method GetNodesWithTag(tag: string) returns (found: bool, dest: seq<NodeRef>)
      ensures dest == TaggedWith(tag)
      ensures found <==> |dest| > 0
    {
      dest := [];
      if tag in taggedNodes {
        dest := taggedNodes[tag];
      }
      found := |dest| > 0;
    }

    /**
     * A free node ID in the range of `mode` that the node map does not use,
     * advancing that range's counter past it.
     */
    method GetFreeNodeID(mode: CreateMode) returns (id: Option<Id32>)
      requires Valid()
      modifies this`replicatedNodeID, this`localNodeID
      ensures Valid()
      ensures id.Some? ==> FirstId(mode) <= id.value <= LastId(mode)
      ensures id.Some? && mode == REPLICATED ==> id.value !in replicatedNodes
      ensures id.Some? && mode == LOCAL ==> id.value !in localNodes
      ensures id.None? && mode == REPLICATED ==>
                forall i: Id32 :: FIRST_REPLICATED_ID <= i <= LAST_REPLICATED_ID ==> i in replicatedNodes
      ensures id.None? && mode == LOCAL ==> forall i: Id32 :: FIRST_LOCAL_ID <= i <= LAST_LOCAL_ID ==> i in localNodes
      ensures mode == REPLICATED ==> localNodeID == old(localNodeID)
      ensures mode == LOCAL ==> replicatedNodeID == old(replicatedNodeID)
      ensures mode == REPLICATED && id.Some? ==>
                FirstFreeInScan(old(replicatedNodes.Keys), old(replicatedNodeID), FIRST_REPLICATED_ID, LAST_REPLICATED_ID, id.value)
                && replicatedNodeID == if id.value < LAST_REPLICATED_ID then id.value + 1 else FIRST_REPLICATED_ID
      ensures mode == LOCAL && id.Some? ==>
                FirstFreeInScan(old(localNodes.Keys), old(localNodeID), FIRST_LOCAL_ID, LAST_LOCAL_ID, id.value)
                && localNodeID == if id.value < LAST_LOCAL_ID then id.value + 1 else FIRST_LOCAL_ID
      ensures id.None? ==> replicatedNodeID == old(replicatedNodeID) && localNodeID == old(localNodeID)
    {
      if mode == REPLICATED {
        id, replicatedNodeID := NextFreeId(replicatedNodes.Keys, replicatedNodeID, FIRST_REPLICATED_ID, LAST_REPLICATED_ID);
      } else {
        id, localNodeID := NextFreeId(localNodes.Keys, localNodeID, FIRST_LOCAL_ID, LAST_LOCAL_ID);
      }
    }

    method GetFreeComponentID(mode: CreateMode) returns (id: Option<Id32>)
      requires Valid()
      modifies this`replicatedComponentID, this`localComponentID
      ensures Valid()
      ensures id.Some? ==> FirstId(mode) <= id.value <= LastId(mode)
      ensures id.Some? && mode == REPLICATED ==> id.value !in replicatedComponents
      ensures id.Some? && mode == LOCAL ==> id.value !in localComponents
      ensures id.None? && mode == REPLICATED ==>
                forall i: Id32 :: FIRST_REPLICATED_ID <= i <= LAST_REPLICATED_ID ==> i in replicatedComponents
      ensures id.None? && mode == LOCAL ==>
                forall i: Id32 :: FIRST_LOCAL_ID <= i <= LAST_LOCAL_ID ==> i in localComponents
      ensures mode == REPLICATED ==> localComponentID == old(localComponentID)
      ensures mode == LOCAL ==> replicatedComponentID == old(replicatedComponentID)
      ensures mode == REPLICATED && id.Some? ==>
                FirstFreeInScan(old(replicatedComponents.Keys), old(replicatedComponentID), FIRST_REPLICATED_ID, LAST_REPLICATED_ID, id.value)
                && replicatedComponentID == if id.value < LAST_REPLICATED_ID then id.value + 1 else FIRST_REPLICATED_ID
      ensures mode == LOCAL && id.Some? ==>
                FirstFreeInScan(old(localComponents.Keys), old(localComponentID), FIRST_LOCAL_ID, LAST_LOCAL_ID, id.value)
                && localComponentID == if id.value < LAST_LOCAL_ID then id.value + 1 else FIRST_LOCAL_ID
      ensures id.None? ==> replicatedComponentID == old(replicatedComponentID) && localComponentID == old(localComponentID)
    {
      if mode == REPLICATED {
        id, replicatedComponentID := NextFreeId(replicatedComponents.Keys, replicatedComponentID,
                                                FIRST_REPLICATED_ID, LAST_REPLICATED_ID);
      } else {
        id, localComponentID := NextFreeId(localComponents.Keys, localComponentID, FIRST_LOCAL_ID, LAST_LOCAL_ID);
      }
    }
  }

  /** A list with the first occurrence of `x` removed (unchanged when `x` is absent). */
  function RemoveFirst<T(==)>(s: seq<T>, x: T): (r: seq<T>)
    ensures x !in s ==> r == s
    ensures x in s ==> |r| == |s| - 1 && multiset(r) == multiset(s) - multiset{x}
  {
    if s == [] then []
    else if s[0] == x then assert s == [s[0]] + s[1..]; s[1..]
    else
      assert s == [s[0]] + s[1..];
      [s[0]] + RemoveFirst(s[1..], x)
  }

  /**
   * What `RemoveFirst` removes: the occurrence at `i`, the first index holding
   * `x`; the elements before and after it keep their order.
   */
  lemma {:induction false} RemoveFirstAtFirstIndex<T>(s: seq<T>, x: T, i: nat)
    requires i < |s| && s[i] == x && x !in s[..i]
    ensures RemoveFirst(s, x) == s[..i] + s[i + 1..]
    decreases i
  {
    if i > 0 {
      assert s[0] != x by { assert s[0] == s[..i][0]; }
      assert s[1..][..i - 1] == s[1..i];
      assert x !in s[1..][..i - 1] by { assert s[1..i] == s[..i][1..]; }
      RemoveFirstAtFirstIndex(s[1..], x, i - 1);
      assert s[1..][i..] == s[i + 1..];
      assert s[..i] == [s[0]] + s[1..][..i - 1];
    }
  }
}
