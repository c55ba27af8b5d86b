/** The state object every render stage fills in, the scene data it records
    against, and the creation steps both stage builders share. */
module RenderStates {
  import opened Wrappers
  import opened Vulkan

  /** Timestamp query slots of every stage: a begin/end pair is written per buffer. */
  const TimestampQueryCount: nat := 4

  /** The zeroed result array both stages allocate for their queries. */
  const ZeroQueryResults: seq<nat> := seq(TimestampQueryCount, _ => 0)

  /** The part of an index buffer one submesh draws from. */
  datatype IndexBufferView = IndexBufferView(buffer: Handle, offset: nat, indexType: IndexType, count: nat)

  /** Indices into the static image descriptor set, one per texture role. */
  datatype TextureIndices = TextureIndices(diffuse: nat, normal: nat, opacity: nat)

  datatype Submesh = Submesh(ibv: IndexBufferView, textureIndex: TextureIndices)

  /** Submeshes in draw order, sharing one set of vertex buffers. */
  datatype Mesh = Mesh(vertexResources: seq<Handle>, vertexOffsets: seq<nat>, submeshes: seq<Submesh>)

  /** What the stages read of the anisotropic voxel texture: grid size, cascades,
      the per-direction image descriptors and the alpha image descriptor. */
  datatype VoxelTexture = VoxelTexture(width: nat, height: nat, depth: nat, cascadeCount: nat,
                                       descriptor: seq<ImageInfo>, alphaDescriptor: ImageInfo)

  /** The stored parameter block. Its tag also stands for the stored recorder
      function pointer: each variant is recorded by its own stage's builder. */
  datatype Parameters =
    | ForwardParameters(renderpass: Handle, meshes: seq<Mesh>, staticDescriptorSet: Handle)
    | PostVoxelizerParameters(avt: VoxelTexture)

  predicate Below(h: Option<Handle>, n: nat) {
    h.Some? ==> h.value < n
  }

  predicate AllBelow(hs: Option<seq<Handle>>, n: nat) {
    hs.Some? ==> forall k :: 0 <= k < |hs.value| ==> hs.value[k] < n
  }

  /** A non-null array field holds exactly as many entries as its count field says. */
  predicate Counted<T>(xs: Option<seq<T>>, count: nat) {
    xs.Some? ==> |xs.value| == count
  }

  /** The create-if-null rule for one handle: a set handle is kept, a null one
      is replaced by a new object (handle at least `first`) created with `info`. */
  ghost predicate KeptOrCreated(before: Option<Handle>, after: Option<Handle>, first: nat,
                                objects: seq<ObjectInfo>, info: ObjectInfo)
  {
    match before
    case Some(_) => after == before
    case None => after.Some? && first <= after.value < |objects| && objects[after.value] == info
  }

  /** A handle that was created during this call, with `info`. */
  ghost predicate Created(after: Option<Handle>, first: nat, objects: seq<ObjectInfo>, info: ObjectInfo) {
    after.Some? && first <= after.value < |objects| && objects[after.value] == info
  }

  /** Objects are only ever added to a device: `b` extends `a`. */
  ghost predicate Prefix(a: seq<ObjectInfo>, b: seq<ObjectInfo>) {
    |a| <= |b| && b[..|a|] == a
  }

  /** `hs` are distinct handles, in creation order, all created during this call with `info`. */
  ghost predicate CreatedRun(hs: seq<Handle>, first: nat, objects: seq<ObjectInfo>, info: ObjectInfo) {
    (forall k :: 0 <= k < |hs| ==> first <= hs[k] < |objects| && objects[hs[k]] == info) &&
    (forall k, k' :: 0 <= k < k' < |hs| ==> hs[k] < hs[k'])
  }

  /** The create-if-null rule for an array field and its count: a set array is
      kept with its count, a null one becomes `count` new objects created with `info`. */
  ghost predicate ArrayKeptOrCreated(before: Option<seq<Handle>>, beforeCount: nat,
                                     after: Option<seq<Handle>>, afterCount: nat,
                                     count: nat, first: nat, objects: seq<ObjectInfo>, info: ObjectInfo)
  {
    match before
    case Some(_) => after == before && afterCount == beforeCount
    case None => afterCount == count && after.Some? && |after.value| == count && CreatedRun(after.value, first, objects, info)
  }

  lemma PrefixTrans(a: seq<ObjectInfo>, b: seq<ObjectInfo>, c: seq<ObjectInfo>)
    requires Prefix(a, b) && Prefix(b, c)
    ensures Prefix(a, c)
  {
    assert c[..|a|] == c[..|b|][..|a|];
  }

  lemma PrefixIndex(a: seq<ObjectInfo>, b: seq<ObjectInfo>, k: nat)
    requires Prefix(a, b) && k < |a|
    ensures b[k] == a[k]
  {
    assert b[..|a|][k] == b[k];
  }

  /** Appending keeps what was there. */
  lemma PrefixAppend(a: seq<ObjectInfo>, c: seq<ObjectInfo>, b: seq<ObjectInfo>)
    requires Prefix(a + c, b)
    ensures Prefix(a, b)
  {
    assert Prefix(a, a + c) by { assert (a + c)[..|a|] == a; }
    PrefixTrans(a, a + c, b);
  }

  /** The handle a create-if-null step leaves when the device already holds
      `next` objects: the one that was set, or the next new one. */
  function IfNull(h: Option<Handle>, next: nat): Option<Handle> {
    if h.Some? then h else Some(next)
  }

  /** The objects that step creates. */
  function IfNullObjects(h: Option<Handle>, info: ObjectInfo): seq<ObjectInfo> {
    if h.Some? then [] else [info]
  }

  /** The array a create-if-null step over an array field leaves: the one that
      was set, or `count` new consecutive handles from `next` on. */
  function ArrayIfNull(hs: Option<seq<Handle>>, next: nat, count: nat): Option<seq<Handle>> {
    if hs.Some? then hs else Some(HandleRange(next, count))
  }

  function ArrayCountIfNull(hs: Option<seq<Handle>>, hsCount: nat, count: nat): nat {
    if hs.Some? then hsCount else count
  }

  function ArrayIfNullObjects(hs: Option<seq<Handle>>, count: nat, info: ObjectInfo): seq<ObjectInfo> {
    if hs.Some? then [] else Repeat(info, count)
  }

  /** The value a step leaves meets the create-if-null rule, in every later
      device state and for every earlier start of the call. */
  lemma IfNullKeptOrCreated(h: Option<Handle>, prefix: seq<ObjectInfo>, info: ObjectInfo,
                            first: nat, objects: seq<ObjectInfo>)
    requires first <= |prefix| && Prefix(prefix + IfNullObjects(h, info), objects)
    ensures KeptOrCreated(h, IfNull(h, |prefix|), first, objects, info)
  {
    if h.None? {
      PrefixIndex(prefix + [info], objects, |prefix|);
    }
  }

  lemma ArrayIfNullKeptOrCreated(hs: Option<seq<Handle>>, hsCount: nat, count: nat, prefix: seq<ObjectInfo>,
                                 info: ObjectInfo, first: nat, objects: seq<ObjectInfo>)
    requires first <= |prefix| && Prefix(prefix + ArrayIfNullObjects(hs, count, info), objects)
    ensures ArrayKeptOrCreated(hs, hsCount, ArrayIfNull(hs, |prefix|, count), ArrayCountIfNull(hs, hsCount, count),
                               count, first, objects, info)
  {
    if hs.None? {
      var run := HandleRange(|prefix|, count);
      forall k | 0 <= k < count ensures first <= run[k] < |objects| && objects[run[k]] == info {
        PrefixIndex(prefix + Repeat(info, count), objects, run[k]);
      }
    }
  }

  /** A step keeps every handle below the device's object count. */
  lemma IfNullBelow(h: Option<Handle>, next: nat, info: ObjectInfo)
    requires Below(h, next)
    ensures Below(IfNull(h, next), next + |IfNullObjects(h, info)|)
  {
  }

  lemma ArrayIfNullBelow(hs: Option<seq<Handle>>, hsCount: nat, next: nat, count: nat, info: ObjectInfo)
    requires AllBelow(hs, next) && Counted(hs, hsCount)
    ensures AllBelow(ArrayIfNull(hs, next, count), next + |ArrayIfNullObjects(hs, count, info)|)
    ensures Counted(ArrayIfNull(hs, next, count), ArrayCountIfNull(hs, hsCount, count))
  {
  }

  /** The resource handles the create-if-null rule governs, with the counts
      of their arrays: pipeline cache, pipeline layout, descriptor pool,
      semaphores, descriptor set layouts, descriptor sets and pipelines. */
  datatype HandleFields = HandleFields(
    pipelineCache: Option<Handle>, pipelineLayout: Option<Handle>, descriptorPool: Option<Handle>,
    semaphores: Option<seq<Handle>>, semaphoreCount: nat,
    descriptorLayouts: Option<seq<Handle>>, descriptorLayoutCount: nat,
    descriptorSets: Option<seq<Handle>>, descriptorSetCount: nat,
    pipelines: Option<seq<Handle>>, pipelineCount: nat)

  /** Every null handle field. */
  const NoHandles: HandleFields := HandleFields(None, None, None, None, 0, None, 0, None, 0, None, 0)

  /** The part of `Valid` about those fields, for a device with `n` objects. */
  predicate OwnedBelow(h: HandleFields, n: nat) {
    Below(h.pipelineCache, n) && Below(h.pipelineLayout, n) && Below(h.descriptorPool, n) &&
    AllBelow(h.pipelines, n) && AllBelow(h.descriptorLayouts, n) && AllBelow(h.descriptorSets, n) &&
    AllBelow(h.semaphores, n) &&
    Counted(h.pipelines, h.pipelineCount) && Counted(h.descriptorLayouts, h.descriptorLayoutCount) &&
    Counted(h.descriptorSets, h.descriptorSetCount) && Counted(h.semaphores, h.semaphoreCount)
  }

  /** The state record of one render stage. The handle fields that creation
      fills only when null are kept together in `handles`. */
  class RenderState {
    var commandBufferCount: nat
    var commandBuffers: seq<CommandBuffer>
    var handles: HandleFields
    var queryCount: nat
    var queryResults: Option<seq<nat>>
    var queryPool: Option<Handle>
    var framebufferCount: nat
    var framebuffers: Option<seq<Handle>>
    var uniformDataCount: nat
    var uniformData: Option<seq<Handle>>
    var renderpass: Option<Handle>
    var cmdBufferParameters: Option<Parameters>

    /** Every handle the stage owns is an object of `dev`, and every non-null
        array agrees with its count. */
    ghost predicate Valid(dev: Device)
      reads this, dev
    {
      var n := |dev.objects|;
      commandBufferCount == |commandBuffers| &&
      (forall k :: 0 <= k < |commandBuffers| ==> commandBuffers[k].handle < n) &&
      OwnedBelow(handles, n) && Below(queryPool, n) &&
      Counted(queryResults, queryCount) && Counted(framebuffers, framebufferCount) &&
      Counted(uniformData, uniformDataCount)
    }

    /** What both stages do on every creation call: a new timestamp query pool
        with four zeroed results, and empty framebuffer and uniform-data arrays. */
    method ResetPerCall(newQueryPool: Handle)
      modifies this`queryCount, this`queryResults, this`queryPool
      modifies this`framebufferCount, this`framebuffers, this`uniformDataCount, this`uniformData
      ensures queryCount == TimestampQueryCount && queryResults == Some(ZeroQueryResults)
      ensures queryPool == Some(newQueryPool)
      ensures framebufferCount == 0 && framebuffers == None && uniformDataCount == 0 && uniformData == None
    {
      queryCount := TimestampQueryCount;
      queryResults := Some(ZeroQueryResults);
      queryPool := Some(newQueryPool);
      framebufferCount, framebuffers := 0, None;
      uniformDataCount, uniformData := 0, None;
    }

    /** A zero-initialised state: every handle null, every count zero. */
    constructor ()
      ensures commandBufferCount == 0 && commandBuffers == [] && handles == NoHandles
      ensures queryCount == 0 && queryResults == None && queryPool == None
      ensures framebufferCount == 0 && framebuffers == None && uniformDataCount == 0 && uniformData == None
      ensures renderpass == None && cmdBufferParameters == None
    {
      commandBufferCount, commandBuffers := 0, [];
      handles := NoHandles;
      queryCount, queryResults, queryPool := 0, None, None;
      framebufferCount, framebuffers := 0, None;
      uniformDataCount, uniformData := 0, None;
      renderpass, cmdBufferParameters := None, None;
    }
  }

  /** What every recorded buffer starts with: begin, reset the four
      timestamp slots, write the start timestamp into slot 0. */
  function BeginRecording(queryPool: Handle): seq<Cmd> {
    [BeginCommandBuffer, ResetQueryPool(queryPool, 0, TimestampQueryCount), WriteTimestamp(TopOfPipe, queryPool, 0)]
  }

  /** The commands of `cmds` that `f` picks out, in recording order, each
      mapped to what `f` makes of it. */
  function Select<T>(cmds: seq<Cmd>, f: Cmd -> seq<T>): seq<T>
    decreases |cmds|
  {
    if cmds == [] then [] else f(cmds[0]) + Select(cmds[1..], f)
  }

  lemma {:induction false} SelectAppend<T>(a: seq<Cmd>, b: seq<Cmd>, f: Cmd -> seq<T>)
    ensures Select(a + b, f) == Select(a, f) + Select(b, f)
    decreases |a|
  {
    if a == [] {
      assert a + b == b;
    } else {
      assert (a + b)[1..] == a[1..] + b;
      SelectAppend(a[1..], b, f);
    }
  }

  lemma SelectSingle<T>(c: Cmd, f: Cmd -> seq<T>)
    ensures Select([c], f) == f(c)
  {
    assert [c][1..] == [];
  }

  /** A `Select` that picks nothing picks nothing from the whole sequence. */
  lemma {:induction false} SelectNone<T>(cmds: seq<Cmd>, f: Cmd -> seq<T>)
    requires forall k :: 0 <= k < |cmds| ==> f(cmds[k]) == []
    ensures Select(cmds, f) == []
    decreases |cmds|
  {
    if cmds != [] {
      SelectNone(cmds[1..], f);
    }
  }

  lemma Select3<T>(x: Cmd, y: Cmd, z: Cmd, f: Cmd -> seq<T>)
    ensures Select([x, y, z], f) == f(x) + f(y) + f(z)
  {
    assert [x, y, z][1..] == [y, z];
    assert [y, z][1..] == [z];
    SelectSingle(z, f);
    assert Select([y, z], f) == f(y) + f(z);
  }

  /** The commands that frame a recording: buffer begin/end, query reset,
      timestamps and render-pass begin/end. */
  predicate IsFrameMarker(c: Cmd) {
    c.BeginCommandBuffer? || c.ResetQueryPool? || c.WriteTimestamp? ||
    c.BeginRenderPass? || c.EndRenderPass? || c.EndCommandBuffer?
  }

  /** Creates an object with `info` when `h` is null, and keeps `h` otherwise. */
  method CreateIfNull(h: Option<Handle>, dev: Device, info: ObjectInfo) returns (r: Option<Handle>)
    modifies dev`objects
    ensures r == IfNull(h, |old(dev.objects)|)
    ensures dev.objects == old(dev.objects) + IfNullObjects(h, info)
  {
    r := h;
    if h.None? {
      var created := dev.Create(info);
      r := Some(created);
    }
  }

  /** An array field filled only when null: `count` new objects created with
      `info`, one after another; a set array is kept with its count. Both
      stages fill their semaphores, set layouts and pipelines this way. */
  method CreateArrayIfNull(hs: Option<seq<Handle>>, hsCount: nat, dev: Device, count: nat, info: ObjectInfo)
    returns (r: Option<seq<Handle>>, rCount: nat)
    modifies dev`objects
    ensures r == ArrayIfNull(hs, |old(dev.objects)|, count) && rCount == ArrayCountIfNull(hs, hsCount, count)
    ensures dev.objects == old(dev.objects) + ArrayIfNullObjects(hs, count, info)
  {
    r, rCount := hs, hsCount;
    if hs.None? {
      rCount := count;
      var created := dev.CreateMany(info, rCount);
      r := Some(created);
    }
  }
}
