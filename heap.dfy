/**
 * HeapProfileEncoder::Execute (bindings/heap-profiler.cc): the V8 allocation
 * tree becomes a Profile with one synthetic "(external)" sample followed by
 * one sample per allocation bucket, each carrying its node's leaf-first stack.
 *
 * The tree is a plain datatype.  The C++ keys its node-to-stack map by node
 * pointer; here every node put on the work list is given a fresh number that
 * plays the part of its pointer.
 */
module HeapProfiler {
  import opened Bytes
  import opened Wire
  import opened Pprof
  import opened Interning
  import opened EncodingSpec
  import opened Encoding
  import opened Helpers

  const NativeString: Str := Ascii("<native>")
  const AnonymousString: Str := Ascii("(anonymous)")
  const ExternalString: Str := Ascii("(external)")

  const ObjectsCount: ValueType := ValueType(Ascii("objects"), Ascii("count"))
  const SpaceBytes: ValueType := ValueType(Ascii("space"), Ascii("bytes"))

  const ExternalLocation: Location := GetLocation(ExternalString, ExternalString, [], 0)

  /** `size_t` products wrap modulo 2^64. */
  const SizeModulus: nat := 0x1_0000_0000_0000_0000

  /** One V8 allocation bucket: `count` objects of `size` bytes. */
  datatype Allocation = Allocation(size: nat, count: nat)

  /** The shape of AllocationNode in bindings/heap-profiler.h. */
  datatype AllocationNode = AllocationNode(
    name: Str,
    scriptName: Str,
    lineNumber: nat,
    children: seq<AllocationNode>,
    allocations: seq<Allocation>)

  /** A node on the work list; `id` stands for the node's pointer. */
  datatype Pending = Pending(id: nat, node: AllocationNode)

  function Size(n: AllocationNode): nat
    decreases n
  {
    1 + SizeAll(n.children)
  }

  function SizeAll(ns: seq<AllocationNode>): nat
    decreases ns
  {
    if ns == [] then 0 else SizeAll(ns[..|ns| - 1]) + Size(ns[|ns| - 1])
  }

  function PendingSize(ws: seq<Pending>): nat
  {
    if ws == [] then 0 else PendingSize(ws[..|ws| - 1]) + Size(ws[|ws| - 1].node)
  }

  /** The frame a node contributes: names fall back, and the name is also the system name. */
  function NodeLocation(n: AllocationNode): Location
  {
    var name := Fallback(n.name, AnonymousString);
    GetLocation(name, name, Fallback(n.scriptName, NativeString), n.lineNumber)
  }

  /** The second value of a bucket's sample: `alloc.size * alloc.count` in size_t. */
  function Weight(a: Allocation): nat
  {
    (a.size * a.count) % SizeModulus
  }

  function BucketSample(stack: seq<Location>, a: Allocation): Sample
  {
    MakeSample(stack, a.count, Weight(a))
  }

  /** One sample per bucket, in bucket order. */
  function BucketSamples(allocs: seq<Allocation>, stack: seq<Location>): seq<Sample>
  {
    if allocs == [] then []
    else BucketSamples(allocs[..|allocs| - 1], stack) + [BucketSample(stack, allocs[|allocs| - 1])]
  }

  /** A node's samples, then its subtrees' samples, last child first (the work list is LIFO). */
  function NodeSamples(n: AllocationNode, parent: seq<Location>): seq<Sample>
    decreases n
  {
    var stack := [NodeLocation(n)] + parent;
    BucketSamples(n.allocations, stack) + ChildrenSamples(n.children, stack)
  }

  function ChildrenSamples(cs: seq<AllocationNode>, stack: seq<Location>): seq<Sample>
    decreases cs
  {
    if cs == [] then []
    else NodeSamples(cs[|cs| - 1], stack) + ChildrenSamples(cs[..|cs| - 1], stack)
  }

  /** `nodeStacks[node]`: a node never stored reads as the empty stack. */
  function StackOf(stacks: map<nat, seq<Location>>, id: nat): seq<Location>
  {
    if id in stacks then stacks[id] else []
  }

  /** The samples still to come from the work list, top of the stack first. */
  function WorkSamples(ws: seq<Pending>, stacks: map<nat, seq<Location>>): seq<Sample>
  {
    if ws == [] then []
    else
      var top := ws[|ws| - 1];
      NodeSamples(top.node, StackOf(stacks, top.id)) + WorkSamples(ws[..|ws| - 1], stacks)
  }

  /** The profile Execute builds before encoding it. */
  function HeapProfile(root: AllocationNode, intervalBytes: nat, startTime: nat, externalMemory: nat): ProfileData
  {
    ProfileData(
      [ObjectsCount, SpaceBytes],
      [MakeSample([ExternalLocation], externalMemory, 1)] + ChildrenSamples(root.children, []),
      0, 0, startTime, 0, SpaceBytes, intervalBytes, [], 0)
  }

  /** Storing the stack of a fresh id does not change what the older entries produce. */
  lemma {:induction false} WorkSamplesFresh(ws: seq<Pending>, stacks: map<nat, seq<Location>>, id: nat, s: seq<Location>)
    requires forall k :: 0 <= k < |ws| ==> ws[k].id < id
    ensures WorkSamples(ws, stacks[id := s]) == WorkSamples(ws, stacks)
  {
    if ws != [] {
      WorkSamplesFresh(ws[..|ws| - 1], stacks, id, s);
    }
  }

  /**
   * Pushing child `c` with a fresh id and the stack `s`: its subtree comes
   * out before everything already pending.
   */
  lemma {:induction false} PushChild(ws: seq<Pending>, stacks: map<nat, seq<Location>>, id: nat, c: AllocationNode, s: seq<Location>)
    requires forall k :: 0 <= k < |ws| ==> ws[k].id < id
    ensures WorkSamples(ws + [Pending(id, c)], stacks[id := s])
         == NodeSamples(c, s) + WorkSamples(ws, stacks)
    ensures PendingSize(ws + [Pending(id, c)]) == PendingSize(ws) + Size(c)
  {
    assert (ws + [Pending(id, c)])[..|ws|] == ws;
    WorkSamplesFresh(ws, stacks, id, s);
  }

  lemma {:induction false} Associate(a: seq<Sample>, b: seq<Sample>, c: seq<Sample>)
    ensures a + (b + c) == (a + b) + c
  {
  }

  /**
   * Popping the top node: its bucket samples move to the profile, its
   * children's samples take its place ahead of the rest of the work list.
   */
  lemma {:induction false} PopStep(done: seq<Sample>, ws: seq<Pending>, stacks: map<nat, seq<Location>>, all: seq<Sample>)
    requires ws != [] && done + WorkSamples(ws, stacks) == all
    ensures var top := ws[|ws| - 1];
      var stack := [NodeLocation(top.node)] + StackOf(stacks, top.id);
      (done + BucketSamples(top.node.allocations, stack))
        + (ChildrenSamples(top.node.children, stack) + WorkSamples(ws[..|ws| - 1], stacks)) == all
    ensures PendingSize(ws) == PendingSize(ws[..|ws| - 1]) + 1 + SizeAll(ws[|ws| - 1].node.children)
  {
    var top := ws[|ws| - 1];
    var stack := [NodeLocation(top.node)] + StackOf(stacks, top.id);
    var buckets, subtrees := BucketSamples(top.node.allocations, stack), ChildrenSamples(top.node.children, stack);
    var rest := WorkSamples(ws[..|ws| - 1], stacks);
    assert WorkSamples(ws, stacks) == (buckets + subtrees) + rest;
    Associate(buckets, subtrees, rest);
    Associate(done, buckets, subtrees + rest);
  }

  /** All ids on the work list are below `next`, the next fresh id. */
  predicate IdsBelow(ws: seq<Pending>, next: nat)
  {
    forall k :: 0 <= k < |ws| ==> ws[k].id < next
  }

  /** One push on top of a work list that holds `acc` above the older entries `base`. */
  lemma {:induction false} PushStep(base: seq<Pending>, ws: seq<Pending>, stacks: map<nat, seq<Location>>, id: nat,
                 c: AllocationNode, s: seq<Location>, acc: seq<Sample>)
    requires IdsBelow(base, id) && IdsBelow(ws, id)
    requires WorkSamples(ws, stacks) == acc + WorkSamples(base, stacks)
    ensures WorkSamples(ws + [Pending(id, c)], stacks[id := s])
         == (NodeSamples(c, s) + acc) + WorkSamples(base, stacks[id := s])
    ensures WorkSamples(base, stacks[id := s]) == WorkSamples(base, stacks)
    ensures PendingSize(ws + [Pending(id, c)]) == PendingSize(ws) + Size(c)
    ensures IdsBelow(ws + [Pending(id, c)], id + 1) && IdsBelow(base, id + 1)
  {
    PushChild(ws, stacks, id, c, s);
    WorkSamplesFresh(base, stacks, id, s);
    Associate(NodeSamples(c, s), acc, WorkSamples(base, stacks));
  }

  /**
   * The `for (auto child : ...)` loops: each child gets a fresh id, a copy of
   * `stack` in the map, and goes on top of the work list.
   */
  method PushChildren(children: seq<Pending>, nodeStacks: map<nat, seq<Location>>, nextId: nat,
                      cs: seq<AllocationNode>, stack: seq<Location>)
    returns (children': seq<Pending>, nodeStacks': map<nat, seq<Location>>, nextId': nat)
    requires IdsBelow(children, nextId)
    ensures IdsBelow(children', nextId') && nextId <= nextId'
    ensures WorkSamples(children', nodeStacks')
         == ChildrenSamples(cs, stack) + WorkSamples(children, nodeStacks)
    ensures PendingSize(children') == PendingSize(children) + SizeAll(cs)
  {
    children', nodeStacks', nextId' := children, nodeStacks, nextId;
    var c := 0;
    while c < |cs|
      invariant 0 <= c <= |cs|
      invariant IdsBelow(children', nextId') && IdsBelow(children, nextId') && nextId <= nextId'
      invariant WorkSamples(children', nodeStacks')
             == ChildrenSamples(cs[..c], stack) + WorkSamples(children, nodeStacks')
      invariant WorkSamples(children, nodeStacks') == WorkSamples(children, nodeStacks)
      invariant PendingSize(children') == PendingSize(children) + SizeAll(cs[..c])
    {
      assert cs[..c + 1][..c] == cs[..c];
      assert ChildrenSamples(cs[..c + 1], stack) == NodeSamples(cs[c], stack) + ChildrenSamples(cs[..c], stack);
      assert SizeAll(cs[..c + 1]) == SizeAll(cs[..c]) + Size(cs[c]);
      PushStep(children, children', nodeStacks', nextId', cs[c], stack, ChildrenSamples(cs[..c], stack));
      nodeStacks' := nodeStacks'[nextId' := stack];
      children' := children' + [Pending(nextId', cs[c])];
      nextId' := nextId' + 1;
      c := c + 1;
    }
    assert cs[..c] == cs;
  }

  /** The `for (auto alloc : node->allocations)` loop: one sample per bucket. */
  method AddBucketSamples(profile: Profile, stack: seq<Location>, allocs: seq<Allocation>)
    modifies profile
    ensures profile.Data() == old(profile.Data()).(sample := old(profile.sample) + BucketSamples(allocs, stack))
  {
    ghost var before := profile.sample;
    var b := 0;
    while b < |allocs|
      invariant 0 <= b <= |allocs|
      invariant profile.Data() == old(profile.Data()).(sample := before + BucketSamples(allocs[..b], stack))
    {
      assert allocs[..b + 1][..b] == allocs[..b];
      var alloc := allocs[b];
      var _ := profile.AddSample(MakeSample(stack, alloc.count, (alloc.size * alloc.count) % SizeModulus));
      b := b + 1;
    }
    assert allocs[..b] == allocs;
  }

  class HeapProfileEncoder {
    const root: AllocationNode
    const intervalBytes: nat
    const startTime: nat
    const externalMemory: nat
    var output: Bytes

    /** The clock reading and V8's external-memory figure are passed in. */
    constructor (root: AllocationNode, interval: nat, startTime: nat, externalMemory: nat)
      ensures this.root == root && intervalBytes == interval
      ensures this.startTime == startTime && this.externalMemory == externalMemory
      ensures output == []
    {
      this.root := root;
      intervalBytes := interval;
      this.startTime := startTime;
      this.externalMemory := externalMemory;
      output := [];
    }

    method Execute()
      modifies this
      ensures output == Serialize(EncProfile(InitialTables, HeapProfile(root, intervalBytes, startTime, externalMemory)).fields)
    {
      var profile := BuildProfile();
      ghost var data := profile.Data();
      var encoder := new Encoder();
      output := encoder.EncodeProfile(profile);
      assert output == Serialize(EncProfile(InitialTables, data).fields);
    }

    /** The part of Execute before the final encode: the profile it fills in. */
    method BuildProfile() returns (profile: Profile)
      ensures fresh(profile)
      ensures profile.Data() == HeapProfile(root, intervalBytes, startTime, externalMemory)
    {
      profile := new Profile(ObjectsCount, SpaceBytes);
      profile.timeNanos := startTime;
      profile.period := intervalBytes;

      // Add root children to the queue with empty stacks.
      var nodeStacks: map<nat, seq<Location>>, children: seq<Pending>, nextId: nat;
      children, nodeStacks, nextId := PushChildren([], map[], 0, root.children, []);
      assert WorkSamples(children, nodeStacks) == ChildrenSamples(root.children, []) by {
        assert WorkSamples([], map[]) == [];
      }

      // Capture (external) allocations.
      var _ := profile.AddSample(MakeSample([ExternalLocation], externalMemory, 1));
      ghost var header := profile.Data();
      assert header == HeapProfile(root, intervalBytes, startTime, externalMemory).(sample := profile.sample);

      DrainWorkList(profile, children, nodeStacks, nextId);
    }
  }

  /**
   * The `while (!children.empty())` loop: pop a node, add a sample per bucket
   * with the node's frame on top of its stored stack, push its children.
   */
  method DrainWorkList(profile: Profile, children: seq<Pending>, nodeStacks: map<nat, seq<Location>>, nextId: nat)
    requires IdsBelow(children, nextId)
    modifies profile
    ensures profile.Data() == old(profile.Data()).(sample := old(profile.sample) + WorkSamples(children, nodeStacks))
  {
    ghost var expected := old(profile.sample) + WorkSamples(children, nodeStacks);
    var ws: seq<Pending>, stacks: map<nat, seq<Location>>, next: nat := children, nodeStacks, nextId;
    while |ws| > 0
      invariant IdsBelow(ws, next)
      invariant profile.sample + WorkSamples(ws, stacks) == expected
      invariant profile.Data() == old(profile.Data()).(sample := profile.sample)
      decreases PendingSize(ws)
    {
      PopStep(profile.sample, ws, stacks, expected);
      var top := ws[|ws| - 1];
      ws := ws[..|ws| - 1];
      var node := top.node;

      var scriptName := Fallback(node.scriptName, NativeString);
      var name := Fallback(node.name, AnonymousString);
      var location := GetLocation(name, name, scriptName, node.lineNumber);

      var stack := if top.id in stacks then stacks[top.id] else [];
      stack := [location] + stack;

      AddBucketSamples(profile, stack, node.allocations);
      ws, stacks, next := PushChildren(ws, stacks, next, node.children, stack);
    }
  }

  // ---------------------------------------------------------------------
  // What the converted profile contains, against independent definitions.

  /** Number of allocation buckets in a node and all its descendants. */
  function NodeBuckets(n: AllocationNode): nat
    decreases n
  {
    |n.allocations| + ChildrenBuckets(n.children)
  }

  function ChildrenBuckets(cs: seq<AllocationNode>): nat
    decreases cs
  {
    if cs == [] then 0 else NodeBuckets(cs[0]) + ChildrenBuckets(cs[1..])
  }

  lemma {:induction false} BucketSamplesCount(allocs: seq<Allocation>, stack: seq<Location>)
    ensures |BucketSamples(allocs, stack)| == |allocs|
  {
    if allocs != [] {
      BucketSamplesCount(allocs[..|allocs| - 1], stack);
    }
  }

  lemma {:induction false} ChildrenBucketsSplit(cs: seq<AllocationNode>)
    requires cs != []
    ensures ChildrenBuckets(cs) == ChildrenBuckets(cs[..|cs| - 1]) + NodeBuckets(cs[|cs| - 1])
  {
    if |cs| > 1 {
      ChildrenBucketsSplit(cs[1..]);
      assert cs[1..][..|cs[1..]| - 1] == cs[..|cs| - 1][1..];
    } else {
      assert cs[..|cs| - 1] == [];
    }
  }

  /** Each node yields one sample per bucket of its own and of every descendant. */
  lemma {:induction false} NodeSamplesCount(n: AllocationNode, parent: seq<Location>)
    ensures |NodeSamples(n, parent)| == NodeBuckets(n)
    decreases n, 1
  {
    var stack := [NodeLocation(n)] + parent;
    BucketSamplesCount(n.allocations, stack);
    ChildrenSamplesCount(n.children, stack);
  }

  lemma {:induction false} ChildrenSamplesCount(cs: seq<AllocationNode>, stack: seq<Location>)
    ensures |ChildrenSamples(cs, stack)| == ChildrenBuckets(cs)
    decreases cs, 0
  {
    if cs != [] {
      NodeSamplesCount(cs[|cs| - 1], stack);
      ChildrenSamplesCount(cs[..|cs| - 1], stack);
      ChildrenBucketsSplit(cs);
    }
  }

  /**
   * No heap node is filtered: one sample for external memory, then one per
   * bucket of every node below the root.
   */
  lemma {:induction false} HeapSampleCount(root: AllocationNode, intervalBytes: nat, startTime: nat, externalMemory: nat)
    ensures |HeapProfile(root, intervalBytes, startTime, externalMemory).sample| == 1 + ChildrenBuckets(root.children)
  {
    ChildrenSamplesCount(root.children, []);
  }

  /** The sample types, period type, time and period Execute sets, and the external sample first. */
  lemma {:induction false} HeapProfileHeader(root: AllocationNode, intervalBytes: nat, startTime: nat, externalMemory: nat)
    ensures var p := HeapProfile(root, intervalBytes, startTime, externalMemory);
      && p.sampleType == [ValueType(Ascii("objects"), Ascii("count")), ValueType(Ascii("space"), Ascii("bytes"))]
      && p.periodType == ValueType(Ascii("space"), Ascii("bytes"))
      && p.timeNanos == startTime && p.period == intervalBytes
      && p.durationNanos == 0 && p.dropFrames == 0 && p.keepFrames == 0 && p.comment == []
      && p.sample[0].values == [externalMemory, 1] && p.sample[0].labels == []
      && |p.sample[0].locations| == 1
      && p.sample[0].locations[0].lines == [Line(Function(Ascii("(external)"), Ascii("(external)"), [], 0), 0)]
  {
  }

  /** A path of child indices from a node down to one of its descendants ([] is the node itself). */
  predicate ValidPath(n: AllocationNode, path: seq<nat>)
    decreases path
  {
    path == [] || (path[0] < |n.children| && ValidPath(n.children[path[0]], path[1..]))
  }

  function NodeAt(n: AllocationNode, path: seq<nat>): AllocationNode
    requires ValidPath(n, path)
    decreases path
  {
    if path == [] then n else NodeAt(n.children[path[0]], path[1..])
  }

  /** The stack of the node at the end of `path`: its frame first, then its ancestors', then `parent`. */
  function PathStack(n: AllocationNode, path: seq<nat>, parent: seq<Location>): seq<Location>
    requires ValidPath(n, path)
    decreases path
  {
    if path == [] then [NodeLocation(n)] + parent
    else PathStack(n.children[path[0]], path[1..], [NodeLocation(n)] + parent)
  }

  /** A node at depth d below the one the path starts from has d + 1 frames above `parent`, its own first. */
  lemma {:induction false} PathStackShape(n: AllocationNode, path: seq<nat>, parent: seq<Location>)
    requires ValidPath(n, path)
    ensures var stack := PathStack(n, path, parent);
      |stack| == |path| + 1 + |parent|
      && stack[0] == NodeLocation(NodeAt(n, path))
      && stack[|path| + 1..] == parent
      && stack[|path|] == NodeLocation(n)
    decreases path
  {
    if path != [] {
      PathStackShape(n.children[path[0]], path[1..], [NodeLocation(n)] + parent);
      var stack := PathStack(n, path, parent);
      assert stack[|path|..] == [NodeLocation(n)] + parent;
    }
  }

  /** Sample s is the one bucket a of the node at the end of path produces. */
  predicate Emits(n: AllocationNode, parent: seq<Location>, path: seq<nat>, a: Allocation, s: Sample)
  {
    ValidPath(n, path) && a in NodeAt(n, path).allocations && s == BucketSample(PathStack(n, path, parent), a)
  }

  lemma {:induction false} BucketSamplesMembers(allocs: seq<Allocation>, stack: seq<Location>, s: Sample)
    ensures s in BucketSamples(allocs, stack) <==> exists a :: a in allocs && s == BucketSample(stack, a)
  {
    if allocs != [] {
      BucketSamplesMembers(allocs[..|allocs| - 1], stack, s);
      var last := allocs[|allocs| - 1];
      assert allocs == allocs[..|allocs| - 1] + [last];
    }
  }

  /** The samples of a subtree are exactly the buckets of its nodes, each with the node's path stack. */
  lemma {:induction false} NodeSamplesMembers(n: AllocationNode, parent: seq<Location>, s: Sample)
    ensures s in NodeSamples(n, parent) <==> exists path, a :: Emits(n, parent, path, a, s)
    decreases n, 1
  {
    var stack := [NodeLocation(n)] + parent;
    BucketSamplesMembers(n.allocations, stack, s);
    ChildrenSamplesMembers(n.children, stack, s);
    if s in NodeSamples(n, parent) {
      if s in BucketSamples(n.allocations, stack) {
        var a :| a in n.allocations && s == BucketSample(stack, a);
        assert Emits(n, parent, [], a, s);
      } else {
        var i, path, a :| 0 <= i < |n.children| && Emits(n.children[i], stack, path, a, s);
        assert ([i] + path)[1..] == path;
        assert Emits(n, parent, [i] + path, a, s);
      }
    }
    if exists path, a :: Emits(n, parent, path, a, s) {
      var path, a :| Emits(n, parent, path, a, s);
      if path == [] {
        assert s in BucketSamples(n.allocations, stack);
      } else {
        assert Emits(n.children[path[0]], stack, path[1..], a, s);
        assert s in ChildrenSamples(n.children, stack);
      }
    }
  }

  lemma {:induction false} ChildrenSamplesMembers(cs: seq<AllocationNode>, stack: seq<Location>, s: Sample)
    ensures s in ChildrenSamples(cs, stack)
        <==> exists i, path, a :: 0 <= i < |cs| && Emits(cs[i], stack, path, a, s)
    decreases cs, 0
  {
    if cs != [] {
      var k := |cs| - 1;
      NodeSamplesMembers(cs[k], stack, s);
      ChildrenSamplesMembers(cs[..k], stack, s);
      if exists i, path, a :: 0 <= i < |cs| && Emits(cs[i], stack, path, a, s) {
        var i, path, a :| 0 <= i < |cs| && Emits(cs[i], stack, path, a, s);
        if i < k {
          assert cs[..k][i] == cs[i];
        }
      }
    }
  }

  /**
   * Every sample after the external one comes from one bucket of one node
   * below the root, with values [count, size * count mod 2^64] and the stack
   * from that node up to a child of the root; and every bucket yields one.
   */
  lemma {:induction false} HeapSamplesFromBuckets(root: AllocationNode, intervalBytes: nat, startTime: nat, externalMemory: nat, s: Sample)
    ensures s in HeapProfile(root, intervalBytes, startTime, externalMemory).sample[1..]
        <==> exists i, path, a :: 0 <= i < |root.children| && Emits(root.children[i], [], path, a, s)
  {
    var p := HeapProfile(root, intervalBytes, startTime, externalMemory);
    assert p.sample[1..] == ChildrenSamples(root.children, []);
    ChildrenSamplesMembers(root.children, [], s);
  }
}
