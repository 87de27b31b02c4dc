/**
 * TimeProfileEncoder::Execute (bindings/time-profiler.cc): the V8 CPU
 * profile's top-down call tree becomes a Profile with one sample per node
 * that was hit, each carrying its node's leaf-first stack.  Nodes named
 * "(idle)" or "(program)" are dropped together with their whole subtree.
 *
 * As for the heap converter, the tree is a plain datatype and each node put
 * on the work list gets a fresh number standing for its pointer.
 */
module TimeProfiler {
  import opened Bytes
  import opened Wire
  import opened Pprof
  import opened Interning
  import opened EncodingSpec
  import opened Encoding
  import opened Helpers

  const NativeString: Str := Ascii("<native>")
  const AnonymousString: Str := Ascii("(anonymous)")
  const ProgramString: Str := Ascii("(program)")
  const IdleString: Str := Ascii("(idle)")

  const SampleCount: ValueType := ValueType(Ascii("sample"), Ascii("count"))
  const WallNanoseconds: ValueType := ValueType(Ascii("wall"), Ascii("nanoseconds"))

  /** `unsigned` products wrap modulo 2^32. */
  const HitModulus: nat := 0x1_0000_0000

  /** The parts of a v8::CpuProfileNode that Execute reads. */
  datatype CpuNode = CpuNode(
    functionName: Str,
    scriptResourceName: Str,
    lineNumber: nat,
    hitCount: nat,
    children: seq<CpuNode>)

  /** A node on the work list; `id` stands for the node's pointer. */
  datatype Pending = Pending(id: nat, node: CpuNode)

  function Size(n: CpuNode): nat
    decreases n
  {
    1 + SizeAll(n.children)
  }

  function SizeAll(ns: seq<CpuNode>): nat
    decreases ns
  {
    if ns == [] then 0 else SizeAll(ns[..|ns| - 1]) + Size(ns[|ns| - 1])
  }

  function PendingSize(ws: seq<Pending>): nat
  {
    if ws == [] then 0 else PendingSize(ws[..|ws| - 1]) + Size(ws[|ws| - 1].node)
  }

  /** The function name after falling back to "(anonymous)". */
  function NodeName(n: CpuNode): Str
  {
    Fallback(n.functionName, AnonymousString)
  }

  /** The nodes Execute skips, subtree and all. */
  predicate Pruned(n: CpuNode)
  {
    NodeName(n) == IdleString || NodeName(n) == ProgramString
  }

  /** The frame a node contributes; the name is also the system name. */
  function NodeLocation(n: CpuNode): Location
  {
    GetLocation(NodeName(n), NodeName(n), Fallback(n.scriptResourceName, NativeString), n.lineNumber)
  }

  /** The second value of a sample: `hitCount * intervalNanos` in unsigned arithmetic. */
  function Weight(hitCount: nat, intervalNanos: nat): nat
  {
    (hitCount * intervalNanos) % HitModulus
  }

  /** The samples of one node and its subtree, last child first (the work list is LIFO). */
  function NodeSamples(n: CpuNode, parent: seq<Location>, intervalNanos: nat): seq<Sample>
    decreases n
  {
    if Pruned(n) then []
    else
      var stack := [NodeLocation(n)] + parent;
      (if n.hitCount > 0 then [MakeSample(stack, n.hitCount, Weight(n.hitCount, intervalNanos))] else [])
      + ChildrenSamples(n.children, stack, intervalNanos)
  }

  function ChildrenSamples(cs: seq<CpuNode>, stack: seq<Location>, intervalNanos: nat): seq<Sample>
    decreases cs
  {
    if cs == [] then []
    else NodeSamples(cs[|cs| - 1], stack, intervalNanos) + ChildrenSamples(cs[..|cs| - 1], stack, intervalNanos)
  }

  function StackOf(stacks: map<nat, seq<Location>>, id: nat): seq<Location>
  {
    if id in stacks then stacks[id] else []
  }

  /** The samples still to come from the work list, top of the stack first. */
  function WorkSamples(ws: seq<Pending>, stacks: map<nat, seq<Location>>, intervalNanos: nat): seq<Sample>
  {
    if ws == [] then []
    else
      var top := ws[|ws| - 1];
      NodeSamples(top.node, StackOf(stacks, top.id), intervalNanos) + WorkSamples(ws[..|ws| - 1], stacks, intervalNanos)
  }

  /**
   * The profile Execute builds.  `startTime` is the encoder's own clock
   * reading; `profileStart` and `profileEnd` are the CPU profile's start and
   * end in microseconds.
   */
  function TimeProfile(root: CpuNode, intervalNanos: nat, startTime: nat, profileStart: nat, profileEnd: nat): ProfileData
    requires profileStart <= profileEnd
  {
    ProfileData(
      [SampleCount, WallNanoseconds],
      ChildrenSamples(root.children, [], intervalNanos),
      0, 0, startTime, (profileEnd - profileStart) * 1000, WallNanoseconds, intervalNanos, [], 0)
  }

  lemma {:induction false} Associate(a: seq<Sample>, b: seq<Sample>, c: seq<Sample>)
    ensures a + (b + c) == (a + b) + c
  {
  }

  predicate IdsBelow(ws: seq<Pending>, next: nat)
  {
    forall k :: 0 <= k < |ws| ==> ws[k].id < next
  }

  /** Storing the stack of a fresh id does not change what the older entries produce. */
  lemma {:induction false} WorkSamplesFresh(ws: seq<Pending>, stacks: map<nat, seq<Location>>, id: nat,
                                             s: seq<Location>, intervalNanos: nat)
    requires IdsBelow(ws, id)
    ensures WorkSamples(ws, stacks[id := s], intervalNanos) == WorkSamples(ws, stacks, intervalNanos)
  {
    if ws != [] {
      WorkSamplesFresh(ws[..|ws| - 1], stacks, id, s, intervalNanos);
    }
  }

  /** Pushing child c with a fresh id and stack s: its subtree comes out before everything pending. */
  lemma {:induction false} PushChild(ws: seq<Pending>, stacks: map<nat, seq<Location>>, id: nat, c: CpuNode, s: seq<Location>,
                  intervalNanos: nat)
    requires IdsBelow(ws, id)
    ensures WorkSamples(ws + [Pending(id, c)], stacks[id := s], intervalNanos)
         == NodeSamples(c, s, intervalNanos) + WorkSamples(ws, stacks, intervalNanos)
    ensures PendingSize(ws + [Pending(id, c)]) == PendingSize(ws) + Size(c)
  {
    assert (ws + [Pending(id, c)])[..|ws|] == ws;
    WorkSamplesFresh(ws, stacks, id, s, intervalNanos);
  }

  /** One push on top of a work list that holds `acc` above the older entries `base`. */
  lemma {:induction false} PushStep(base: seq<Pending>, ws: seq<Pending>, stacks: map<nat, seq<Location>>, id: nat,
                 c: CpuNode, s: seq<Location>, acc: seq<Sample>, intervalNanos: nat)
    requires IdsBelow(base, id) && IdsBelow(ws, id)
    requires WorkSamples(ws, stacks, intervalNanos) == acc + WorkSamples(base, stacks, intervalNanos)
    ensures WorkSamples(ws + [Pending(id, c)], stacks[id := s], intervalNanos)
         == (NodeSamples(c, s, intervalNanos) + acc) + WorkSamples(base, stacks[id := s], intervalNanos)
    ensures WorkSamples(base, stacks[id := s], intervalNanos) == WorkSamples(base, stacks, intervalNanos)
    ensures PendingSize(ws + [Pending(id, c)]) == PendingSize(ws) + Size(c)
    ensures IdsBelow(ws + [Pending(id, c)], id + 1) && IdsBelow(base, id + 1)
  {
    PushChild(ws, stacks, id, c, s, intervalNanos);
    WorkSamplesFresh(base, stacks, id, s, intervalNanos);
    Associate(NodeSamples(c, s, intervalNanos), acc, WorkSamples(base, stacks, intervalNanos));
  }

  /** The stack of a popped node: its own frame on top of its parent's stack. */
  function TopStack(top: Pending, stacks: map<nat, seq<Location>>): seq<Location>
  {
    [NodeLocation(top.node)] + StackOf(stacks, top.id)
  }

  /** The node's own sample, present only when the node was hit. */
  function OwnSamples(n: CpuNode, stack: seq<Location>, intervalNanos: nat): seq<Sample>
  {
    if n.hitCount > 0 then [MakeSample(stack, n.hitCount, Weight(n.hitCount, intervalNanos))] else []
  }

  /** Popping a pruned top node: it yields nothing, so the rest of the work list makes up the whole. */
  lemma {:induction false} PopPruned(done: seq<Sample>, ws: seq<Pending>, stacks: map<nat, seq<Location>>,
                                     all: seq<Sample>, intervalNanos: nat)
    requires ws != [] && done + WorkSamples(ws, stacks, intervalNanos) == all && Pruned(ws[|ws| - 1].node)
    ensures done + WorkSamples(ws[..|ws| - 1], stacks, intervalNanos) == all
  {
    var top := ws[|ws| - 1];
    WorkSamplesTop(ws, stacks, intervalNanos);
    PrunedSubtreeSilent(top.node, StackOf(stacks, top.id), intervalNanos);
    DropSilent(done, WorkSamples(ws, stacks, intervalNanos), NodeSamples(top.node, StackOf(stacks, top.id), intervalNanos),
               WorkSamples(ws[..|ws| - 1], stacks, intervalNanos), all);
  }

  /** Dropping a popped node that yields nothing keeps the whole. */
  lemma DropSilent(done: seq<Sample>, work: seq<Sample>, mine: seq<Sample>, rest: seq<Sample>, all: seq<Sample>)
    requires done + work == all && work == mine + rest && mine == []
    ensures done + rest == all
  {
    assert work == rest;
  }

  /**
   * Popping a top node that is not pruned: its own sample (if hit) moves to
   * the profile and its children's samples take its place ahead of the rest
   * of the work list.
   */
  lemma {:induction false} PopKept(done: seq<Sample>, ws: seq<Pending>, stacks: map<nat, seq<Location>>,
                                   all: seq<Sample>, intervalNanos: nat)
    requires ws != [] && done + WorkSamples(ws, stacks, intervalNanos) == all && !Pruned(ws[|ws| - 1].node)
    ensures var top := ws[|ws| - 1];
      var stack := TopStack(top, stacks);
      (done + OwnSamples(top.node, stack, intervalNanos))
      + (ChildrenSamples(top.node.children, stack, intervalNanos) + WorkSamples(ws[..|ws| - 1], stacks, intervalNanos))
      == all
  {
    var top := ws[|ws| - 1];
    var stack := TopStack(top, stacks);
    WorkSamplesTop(ws, stacks, intervalNanos);
    NodeSamplesOpen(top.node, StackOf(stacks, top.id), intervalNanos);
    Regroup(done, WorkSamples(ws, stacks, intervalNanos), NodeSamples(top.node, StackOf(stacks, top.id), intervalNanos),
            WorkSamples(ws[..|ws| - 1], stacks, intervalNanos), OwnSamples(top.node, stack, intervalNanos),
            ChildrenSamples(top.node.children, stack, intervalNanos), all);
  }

  /** A node that is not pruned yields its own sample (if hit), then its children's. */
  lemma {:induction false} NodeSamplesOpen(n: CpuNode, parent: seq<Location>, intervalNanos: nat)
    requires !Pruned(n)
    ensures var stack := [NodeLocation(n)] + parent;
      NodeSamples(n, parent, intervalNanos)
      == OwnSamples(n, stack, intervalNanos) + ChildrenSamples(n.children, stack, intervalNanos)
  {
  }

  /** Once the profile and the work list are both regrouped, their samples still make up the whole. */
  lemma {:induction false} Rejoin(done: seq<Sample>, own: seq<Sample>, subtrees: seq<Sample>, rest: seq<Sample>, all: seq<Sample>,
               sample: seq<Sample>, work: seq<Sample>)
    requires (done + own) + (subtrees + rest) == all && sample == done + own && work == subtrees + rest
    ensures sample + work == all
  {
  }

  /** Moving a popped node's own samples from the work list to the profile keeps the whole. */
  lemma {:induction false} Regroup(done: seq<Sample>, work: seq<Sample>, mine: seq<Sample>, rest: seq<Sample>,
                own: seq<Sample>, subtrees: seq<Sample>, all: seq<Sample>)
    requires done + work == all && work == mine + rest && mine == own + subtrees
    ensures (done + own) + (subtrees + rest) == all
  {
    Associate(own, subtrees, rest);
    Associate(done, own, subtrees + rest);
  }

  /** One unfolding of the work list's samples at its top. */
  lemma {:induction false} WorkSamplesTop(ws: seq<Pending>, stacks: map<nat, seq<Location>>, intervalNanos: nat)
    requires ws != []
    ensures WorkSamples(ws, stacks, intervalNanos)
      == NodeSamples(ws[|ws| - 1].node, StackOf(stacks, ws[|ws| - 1].id), intervalNanos)
         + WorkSamples(ws[..|ws| - 1], stacks, intervalNanos)
  {
  }

  /** The size of the work list after its top node is replaced by that node's children. */
  lemma {:induction false} PendingSizeTop(ws: seq<Pending>)
    requires ws != []
    ensures PendingSize(ws) == PendingSize(ws[..|ws| - 1]) + 1 + SizeAll(ws[|ws| - 1].node.children)
  {
  }

  /**
   * The `for (int i = 0; i < node->GetChildrenCount(); i++)` loops: each
   * child gets a fresh id, a copy of `stack` in the map, and goes on top of
   * the work list.
   */
  method PushChildren(children: seq<Pending>, nodeStacks: map<nat, seq<Location>>, nextId: nat,
                      cs: seq<CpuNode>, stack: seq<Location>, ghost intervalNanos: nat)
    returns (children': seq<Pending>, nodeStacks': map<nat, seq<Location>>, nextId': nat)
    requires IdsBelow(children, nextId)
    ensures IdsBelow(children', nextId') && nextId <= nextId'
    ensures WorkSamples(children', nodeStacks', intervalNanos)
         == ChildrenSamples(cs, stack, intervalNanos) + WorkSamples(children, nodeStacks, intervalNanos)
    ensures PendingSize(children') == PendingSize(children) + SizeAll(cs)
  {
    children', nodeStacks', nextId' := children, nodeStacks, nextId;
    var i := 0;
    while i < |cs|
      invariant 0 <= i <= |cs|
      invariant IdsBelow(children', nextId') && IdsBelow(children, nextId') && nextId <= nextId'
      invariant WorkSamples(children', nodeStacks', intervalNanos)
             == ChildrenSamples(cs[..i], stack, intervalNanos) + WorkSamples(children, nodeStacks', intervalNanos)
      invariant WorkSamples(children, nodeStacks', intervalNanos) == WorkSamples(children, nodeStacks, intervalNanos)
      invariant PendingSize(children') == PendingSize(children) + SizeAll(cs[..i])
    {
      assert cs[..i + 1][..i] == cs[..i];
      assert ChildrenSamples(cs[..i + 1], stack, intervalNanos)
          == NodeSamples(cs[i], stack, intervalNanos) + ChildrenSamples(cs[..i], stack, intervalNanos);
      assert SizeAll(cs[..i + 1]) == SizeAll(cs[..i]) + Size(cs[i]);
      PushStep(children, children', nodeStacks', nextId', cs[i], stack, ChildrenSamples(cs[..i], stack, intervalNanos),
               intervalNanos);
      nodeStacks' := nodeStacks'[nextId' := stack];
      children' := children' + [Pending(nextId', cs[i])];
      nextId' := nextId' + 1;
      i := i + 1;
    }
    assert cs[..i] == cs;
  }

  /**
   * The `while (children.size() > 0)` loop: pop a node, skip it if pruned,
   * otherwise add its sample when it was hit and push its children.
   */
  method DrainWorkList(profile: Profile, children: seq<Pending>, nodeStacks: map<nat, seq<Location>>, nextId: nat,
                       intervalNanos: nat)
    requires IdsBelow(children, nextId)
    modifies profile
    ensures profile.Data()
         == old(profile.Data()).(sample := old(profile.sample) + WorkSamples(children, nodeStacks, intervalNanos))
  {
    ghost var expected := old(profile.sample) + WorkSamples(children, nodeStacks, intervalNanos);
    var ws: seq<Pending>, stacks: map<nat, seq<Location>>, next: nat := children, nodeStacks, nextId;
    while |ws| > 0
      invariant IdsBelow(ws, next)
      invariant profile.sample + WorkSamples(ws, stacks, intervalNanos) == expected
      invariant profile.Data() == old(profile.Data()).(sample := profile.sample)
      decreases PendingSize(ws)
    {
      ghost var done, stacks0, ws0 := profile.sample, stacks, ws;
      ghost var top := ws[|ws| - 1];
      PendingSizeTop(ws);
      var node := ws[|ws| - 1].node;
      var id := ws[|ws| - 1].id;
      ws := ws[..|ws| - 1];
      ghost var rest := WorkSamples(ws, stacks, intervalNanos);

      var scriptName := Fallback(node.scriptResourceName, NativeString);
      var name := Fallback(node.functionName, AnonymousString);

      if name == IdleString || name == ProgramString {
        PopPruned(done, ws0, stacks, expected, intervalNanos);
        continue;
      }
      PopKept(done, ws0, stacks, expected, intervalNanos);

      var location := GetLocation(name, name, scriptName, node.lineNumber);

      var stack := if id in stacks then stacks[id] else [];
      stack := [location] + stack;
      assert stack == TopStack(top, stacks0);

      var hitCount := node.hitCount;
      if hitCount > 0 {
        var _ := profile.AddSample(MakeSample(stack, hitCount, (hitCount * intervalNanos) % HitModulus));
      }
      assert profile.sample == done + OwnSamples(node, stack, intervalNanos);

      ws, stacks, next := PushChildren(ws, stacks, next, node.children, stack, intervalNanos);
      Rejoin(done, OwnSamples(node, stack, intervalNanos), ChildrenSamples(node.children, stack, intervalNanos),
             rest, expected, profile.sample, WorkSamples(ws, stacks, intervalNanos));
    }
  }

  class TimeProfileEncoder {
    const root: CpuNode
    const intervalNanos: nat
    const startTime: nat
    const profileStart: nat
    const profileEnd: nat
    var output: Bytes

    /** The clock reading and the CPU profile's start and end are passed in. */
    constructor (root: CpuNode, nanos: nat, startTime: nat, profileStart: nat, profileEnd: nat)
      requires profileStart <= profileEnd
      ensures this.root == root && intervalNanos == nanos && this.startTime == startTime
      ensures this.profileStart == profileStart && this.profileEnd == profileEnd
      ensures output == []
    {
      this.root := root;
      intervalNanos := nanos;
      this.startTime := startTime;
      this.profileStart := profileStart;
      this.profileEnd := profileEnd;
      output := [];
    }

    method Execute()
      requires profileStart <= profileEnd
      modifies this
      ensures output
           == Serialize(EncProfile(InitialTables, TimeProfile(root, intervalNanos, startTime, profileStart, profileEnd)).fields)
    {
      var profile := BuildProfile();
      ghost var data := profile.Data();
      var encoder := new Encoder();
      output := encoder.EncodeProfile(profile);
      assert output == Serialize(EncProfile(InitialTables, data).fields);
    }

    /** The part of Execute before the final encode: the profile it fills in. */
    method BuildProfile() returns (profile: Profile)
      requires profileStart <= profileEnd
      ensures fresh(profile)
      ensures profile.Data() == TimeProfile(root, intervalNanos, startTime, profileStart, profileEnd)
    {
      profile := new Profile(SampleCount, WallNanoseconds);
      profile.timeNanos := startTime;
      profile.period := intervalNanos;

      // Duration nanos: the CPU profile's times are in microseconds.
      profile.durationNanos := (profileEnd - profileStart) * 1000;

      // Add root children to the queue with empty stacks.
      var nodeStacks: map<nat, seq<Location>>, children: seq<Pending>, nextId: nat;
      children, nodeStacks, nextId := PushChildren([], map[], 0, root.children, [], intervalNanos);
      assert WorkSamples(children, nodeStacks, intervalNanos) == ChildrenSamples(root.children, [], intervalNanos) by {
        assert WorkSamples([], map[], intervalNanos) == [];
      }
      ghost var header := profile.Data();
      assert header == TimeProfile(root, intervalNanos, startTime, profileStart, profileEnd).(sample := []);

      DrainWorkList(profile, children, nodeStacks, nextId, intervalNanos);
    }
  }

  // ---------------------------------------------------------------------
  // What the converted profile contains, against independent definitions.

  /** Nodes that yield a sample: hit, and neither they nor an ancestor pruned. */
  function HitNodes(n: CpuNode): nat
    decreases n
  {
    if Pruned(n) then 0 else (if n.hitCount > 0 then 1 else 0) + HitNodesAll(n.children)
  }

  function HitNodesAll(cs: seq<CpuNode>): nat
    decreases cs
  {
    if cs == [] then 0 else HitNodes(cs[0]) + HitNodesAll(cs[1..])
  }

  lemma {:induction false} HitNodesAllSplit(cs: seq<CpuNode>)
    requires cs != []
    ensures HitNodesAll(cs) == HitNodesAll(cs[..|cs| - 1]) + HitNodes(cs[|cs| - 1])
  {
    if |cs| > 1 {
      HitNodesAllSplit(cs[1..]);
      assert cs[1..][..|cs[1..]| - 1] == cs[..|cs| - 1][1..];
    } else {
      assert cs[..|cs| - 1] == [];
    }
  }

  lemma {:induction false} NodeSamplesCount(n: CpuNode, parent: seq<Location>, intervalNanos: nat)
    ensures |NodeSamples(n, parent, intervalNanos)| == HitNodes(n)
    decreases n, 1
  {
    if !Pruned(n) {
      ChildrenSamplesCount(n.children, [NodeLocation(n)] + parent, intervalNanos);
    }
  }

  lemma {:induction false} ChildrenSamplesCount(cs: seq<CpuNode>, stack: seq<Location>, intervalNanos: nat)
    ensures |ChildrenSamples(cs, stack, intervalNanos)| == HitNodesAll(cs)
    decreases cs, 0
  {
    if cs != [] {
      NodeSamplesCount(cs[|cs| - 1], stack, intervalNanos);
      ChildrenSamplesCount(cs[..|cs| - 1], stack, intervalNanos);
      HitNodesAllSplit(cs);
    }
  }

  /** One sample per hit node below the root outside the pruned subtrees. */
  lemma {:induction false} TimeSampleCount(root: CpuNode, intervalNanos: nat, startTime: nat, profileStart: nat, profileEnd: nat)
    requires profileStart <= profileEnd
    ensures |TimeProfile(root, intervalNanos, startTime, profileStart, profileEnd).sample| == HitNodesAll(root.children)
  {
    ChildrenSamplesCount(root.children, [], intervalNanos);
  }

  /** A pruned node yields nothing, whatever its subtree holds. */
  lemma {:induction false} PrunedSubtreeSilent(n: CpuNode, parent: seq<Location>, intervalNanos: nat)
    requires Pruned(n)
    ensures NodeSamples(n, parent, intervalNanos) == [] && HitNodes(n) == 0
  {
  }

  predicate ValidPath(n: CpuNode, path: seq<nat>)
    decreases path
  {
    path == [] || (path[0] < |n.children| && ValidPath(n.children[path[0]], path[1..]))
  }

  function NodeAt(n: CpuNode, path: seq<nat>): CpuNode
    requires ValidPath(n, path)
    decreases path
  {
    if path == [] then n else NodeAt(n.children[path[0]], path[1..])
  }

  /** No node from n down to the end of the path, both included, is pruned. */
  predicate Unpruned(n: CpuNode, path: seq<nat>)
    requires ValidPath(n, path)
    decreases path
  {
    !Pruned(n) && (path == [] || Unpruned(n.children[path[0]], path[1..]))
  }

  /** The stack of the node at the end of `path`: its frame first, then its ancestors', then `parent`. */
  function PathStack(n: CpuNode, path: seq<nat>, parent: seq<Location>): seq<Location>
    requires ValidPath(n, path)
    decreases path
  {
    if path == [] then [NodeLocation(n)] + parent
    else PathStack(n.children[path[0]], path[1..], [NodeLocation(n)] + parent)
  }

  /** A node d levels below the start of the path has d + 1 frames above `parent`, its own first. */
  lemma {:induction false} PathStackShape(n: CpuNode, path: seq<nat>, parent: seq<Location>)
    requires ValidPath(n, path)
    ensures var stack := PathStack(n, path, parent);
      |stack| == |path| + 1 + |parent|
      && stack[0] == NodeLocation(NodeAt(n, path))
      && stack[|path| + 1..] == parent
      && stack[|path|] == NodeLocation(n)
    decreases path
  {
    if path != [] {
      PathStackShape(n.children[path[0]], path[1..], [NodeLocation(n)] + parent);
      var stack := PathStack(n, path, parent);
      assert stack[|path|..] == [NodeLocation(n)] + parent;
    }
  }

  /** Sample s is the one the node at the end of `path` yields. */
  predicate Emits(n: CpuNode, parent: seq<Location>, path: seq<nat>, s: Sample, intervalNanos: nat)
  {
    ValidPath(n, path) && Unpruned(n, path)
    && var hit := NodeAt(n, path).hitCount;
    hit > 0 && s == MakeSample(PathStack(n, path, parent), hit, Weight(hit, intervalNanos))
  }

  /** The samples of a subtree are exactly those of its hit, unpruned nodes, each with its path stack. */
  lemma {:induction false} NodeSamplesMembers(n: CpuNode, parent: seq<Location>, s: Sample, intervalNanos: nat)
    ensures s in NodeSamples(n, parent, intervalNanos) <==> exists path :: Emits(n, parent, path, s, intervalNanos)
    decreases n, 1
  {
    var stack := [NodeLocation(n)] + parent;
    ChildrenSamplesMembers(n.children, stack, s, intervalNanos);
    if s in NodeSamples(n, parent, intervalNanos) {
      assert !Pruned(n);
      if n.hitCount > 0 && s == MakeSample(stack, n.hitCount, Weight(n.hitCount, intervalNanos)) {
        assert Emits(n, parent, [], s, intervalNanos);
      } else {
        assert s in ChildrenSamples(n.children, stack, intervalNanos);
        var i, path :| 0 <= i < |n.children| && Emits(n.children[i], stack, path, s, intervalNanos);
        assert ([i] + path)[1..] == path;
        assert Emits(n, parent, [i] + path, s, intervalNanos);
      }
    }
    if exists path :: Emits(n, parent, path, s, intervalNanos) {
      var path :| Emits(n, parent, path, s, intervalNanos);
      if path != [] {
        assert Emits(n.children[path[0]], stack, path[1..], s, intervalNanos);
      }
    }
  }

  lemma {:induction false} ChildrenSamplesMembers(cs: seq<CpuNode>, stack: seq<Location>, s: Sample, intervalNanos: nat)
    ensures s in ChildrenSamples(cs, stack, intervalNanos)
        <==> exists i, path :: 0 <= i < |cs| && Emits(cs[i], stack, path, s, intervalNanos)
    decreases cs, 0
  {
    if cs != [] {
      var k := |cs| - 1;
      var last := NodeSamples(cs[k], stack, intervalNanos);
      var front := ChildrenSamples(cs[..k], stack, intervalNanos);
      assert ChildrenSamples(cs, stack, intervalNanos) == last + front;
      NodeSamplesMembers(cs[k], stack, s, intervalNanos);
      ChildrenSamplesMembers(cs[..k], stack, s, intervalNanos);
      if s in last + front {
        if s in last {
          var path :| Emits(cs[k], stack, path, s, intervalNanos);
          assert 0 <= k < |cs| && Emits(cs[k], stack, path, s, intervalNanos);
        } else {
          assert s in front;
          var i, path :| 0 <= i < |cs[..k]| && Emits(cs[..k][i], stack, path, s, intervalNanos);
          assert cs[..k][i] == cs[i];
          assert 0 <= i < |cs| && Emits(cs[i], stack, path, s, intervalNanos);
        }
      }
      if exists i, path :: 0 <= i < |cs| && Emits(cs[i], stack, path, s, intervalNanos) {
        var i, path :| 0 <= i < |cs| && Emits(cs[i], stack, path, s, intervalNanos);
        if i < k {
          assert cs[..k][i] == cs[i];
          assert 0 <= i < |cs[..k]| && Emits(cs[..k][i], stack, path, s, intervalNanos);
          assert s in front;
        } else {
          assert s in last;
        }
      }
    }
  }

  /**
   * Every sample comes from one hit node below the root, outside the pruned
   * subtrees, with values [hitCount, hitCount * intervalNanos mod 2^32] and
   * the stack from that node up to a child of the root; every such node yields one.
   */
  lemma {:induction false} TimeSamplesFromNodes(root: CpuNode, intervalNanos: nat, startTime: nat, profileStart: nat, profileEnd: nat,
                             s: Sample)
    requires profileStart <= profileEnd
    ensures s in TimeProfile(root, intervalNanos, startTime, profileStart, profileEnd).sample
        <==> exists i, path :: 0 <= i < |root.children| && Emits(root.children[i], [], path, s, intervalNanos)
  {
    ChildrenSamplesMembers(root.children, [], s, intervalNanos);
  }
}
