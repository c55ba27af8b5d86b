/** The forward-shaded graphics stage: one command buffer per framebuffer,
    every submesh drawn with its own pre-allocated descriptor set whose three
    texture bindings are copied out of the static image descriptor set. */
module ForwardRenderState {
  import opened Wrappers
  import opened Vulkan
  import opened RenderStates
  import opened RowMajorIndex

  /** Draw budget per framebuffer: dynamic descriptor sets reserved for each target. */
  const DynamicDescriptorSetCount: nat := 64
  /** Binding of the image array in the static descriptor set. */
  const StaticDescriptorImage: nat := 0
  /** Bindings of the dynamic descriptor set, one per texture role. */
  const DescriptorImageDiffuse: nat := 0
  const DescriptorImageNormal: nat := 1
  const DescriptorImageOpacity: nat := 2
  const ForwardDescriptorCount: nat := 3

  datatype Role = Diffuse | Normal | Opacity

  function RoleBinding(r: Role): nat {
    match r
    case Diffuse => DescriptorImageDiffuse
    case Normal => DescriptorImageNormal
    case Opacity => DescriptorImageOpacity
  }

  /** Position of the role in a submesh's copy batch. */
  function RoleIndex(r: Role): nat {
    match r
    case Diffuse => 0
    case Normal => 1
    case Opacity => 2
  }

  function TextureIndex(t: TextureIndices, r: Role): nat {
    match r
    case Diffuse => t.diffuse
    case Normal => t.normal
    case Opacity => t.opacity
  }

  // ---------------------------------------------------------------------------
  // Descriptor-set slots
  // ---------------------------------------------------------------------------

  /** The dynamic descriptor set that the k-th draw of framebuffer i claims. */
  function Slot(i: nat, k: nat): nat {
    i * DynamicDescriptorSetCount + k
  }

  /** Slots of one framebuffer are distinct, ranges of different framebuffers are
      disjoint, and all of them lie inside the pool sized for `n` framebuffers. */
  lemma SlotsDisjoint(i: nat, k: nat, i': nat, k': nat, n: nat)
    requires k < DynamicDescriptorSetCount && k' < DynamicDescriptorSetCount
    ensures (i, k) != (i', k') ==> Slot(i, k) != Slot(i', k')
    ensures i < n ==> Slot(i, k) < n * DynamicDescriptorSetCount
  {
    RowMajorInjective(DynamicDescriptorSetCount, i, k, i', k');
    if i < n {
      RowMajorBelow(DynamicDescriptorSetCount, n, i, k);
    }
  }

  // ---------------------------------------------------------------------------
  // Scene order
  // ---------------------------------------------------------------------------

  /** All submeshes in mesh-then-submesh order. */
  function Flatten(meshes: seq<Mesh>): seq<Submesh>
    decreases |meshes|
  {
    if meshes == [] then [] else Flatten(meshes[..|meshes| - 1]) + meshes[|meshes| - 1].submeshes
  }

  function SubmeshTotal(meshes: seq<Mesh>): nat {
    |Flatten(meshes)|
  }

  lemma FlattenPrefix(meshes: seq<Mesh>, m: nat)
    requires m < |meshes|
    ensures Flatten(meshes[..m + 1]) == Flatten(meshes[..m]) + meshes[m].submeshes
  {
    assert meshes[..m + 1][..m] == meshes[..m];
  }

  lemma {:induction false} SubmeshTotalPrefix(meshes: seq<Mesh>, m: nat)
    requires m <= |meshes|
    ensures SubmeshTotal(meshes[..m]) <= SubmeshTotal(meshes)
    decreases |meshes| - m
  {
    if m < |meshes| {
      FlattenPrefix(meshes, m);
      SubmeshTotalPrefix(meshes, m + 1);
    } else {
      assert meshes[..m] == meshes;
    }
  }

  // ---------------------------------------------------------------------------
  // What one framebuffer's buffer records
  // ---------------------------------------------------------------------------

  /** Everything recording reads: the stage's handles and the stored parameters. */
  datatype Recording = Recording(
    queryPool: Handle, pipeline: Handle, layout: Handle, sets: seq<Handle>,
    renderpass: Handle, staticSet: Handle, meshes: seq<Mesh>, extent: Extent2D)

  /** Buffer i can claim a slot for every submesh. */
  predicate FitsBuffer(ctx: Recording, i: nat) {
    Slot(i, SubmeshTotal(ctx.meshes)) <= |ctx.sets|
  }

  predicate Fits(ctx: Recording, n: nat) {
    forall i :: 0 <= i < n ==> FitsBuffer(ctx, i)
  }

  /** With at most one budget of submeshes and a pool of `n` budgets, every buffer fits. */
  lemma FitsFromBudget(ctx: Recording, n: nat)
    requires SubmeshTotal(ctx.meshes) <= DynamicDescriptorSetCount
    requires n * DynamicDescriptorSetCount <= |ctx.sets|
    ensures Fits(ctx, n)
  {
    forall i | 0 <= i < n ensures FitsBuffer(ctx, i) {
      MulMonotone(i + 1, n, DynamicDescriptorSetCount);
    }
  }

  /** The three copies of one submesh: for each role, from the static image
      array at the submesh's texture index into the role's binding of `dst`. */
  function RoleCopies(staticSet: Handle, t: TextureIndices, dst: Handle): seq<DescriptorCopy> {
    [DescriptorCopy(staticSet, StaticDescriptorImage, t.diffuse, dst, DescriptorImageDiffuse, 0, 1),
     DescriptorCopy(staticSet, StaticDescriptorImage, t.normal, dst, DescriptorImageNormal, 0, 1),
     DescriptorCopy(staticSet, StaticDescriptorImage, t.opacity, dst, DescriptorImageOpacity, 0, 1)]
  }

  lemma RoleCopiesByRole(staticSet: Handle, t: TextureIndices, dst: Handle, r: Role)
    ensures |RoleCopies(staticSet, t, dst)| == ForwardDescriptorCount
    ensures RoleCopies(staticSet, t, dst)[RoleIndex(r)] ==
            DescriptorCopy(staticSet, StaticDescriptorImage, TextureIndex(t, r), dst, RoleBinding(r), 0, 1)
    ensures forall r' :: RoleIndex(r') == RoleIndex(r) ==> r' == r
    ensures forall r' :: RoleBinding(r') == RoleBinding(r) ==> r' == r
  {
  }

  /** Commands of a submesh drawn with descriptor set `dset`. */
  function SubmeshCmds(ctx: Recording, dset: Handle, s: Submesh): seq<Cmd> {
    [BindDescriptorSet(GraphicsBindPoint, ctx.layout, 1, dset, []),
     BindIndexBuffer(s.ibv.buffer, s.ibv.offset, s.ibv.indexType),
     DrawIndexed(s.ibv.count, 1)]
  }

  /** Commands of submeshes `subs` of buffer i, the first claiming draw number d0. */
  function SubmeshesCmds(ctx: Recording, i: nat, subs: seq<Submesh>, d0: nat): seq<Cmd>
    requires Slot(i, d0 + |subs|) <= |ctx.sets|
    decreases |subs|
  {
    if subs == [] then []
    else SubmeshesCmds(ctx, i, subs[..|subs| - 1], d0)
         + SubmeshCmds(ctx, ctx.sets[Slot(i, d0 + |subs| - 1)], subs[|subs| - 1])
  }

  function MeshCmds(ctx: Recording, i: nat, mesh: Mesh, d0: nat): seq<Cmd>
    requires Slot(i, d0 + |mesh.submeshes|) <= |ctx.sets|
  {
    [BindVertexBuffers(0, mesh.vertexResources, mesh.vertexOffsets)] + SubmeshesCmds(ctx, i, mesh.submeshes, d0)
  }

  function MeshesCmds(ctx: Recording, i: nat, meshes: seq<Mesh>): seq<Cmd>
    requires Slot(i, SubmeshTotal(meshes)) <= |ctx.sets|
    decreases |meshes|
  {
    if meshes == [] then []
    else
      var init := meshes[..|meshes| - 1];
      MeshesCmds(ctx, i, init) + MeshCmds(ctx, i, meshes[|meshes| - 1], SubmeshTotal(init))
  }

  /** Everything before the draws: begin, queries, render pass over the whole
      swapchain area, viewport, scissor, pipeline and the static set at set 0. */
  function ForwardHead(ctx: Recording, fb: Handle): seq<Cmd> {
    BeginRecording(ctx.queryPool) +
    [BeginRenderPass(ctx.renderpass, fb, ctx.extent),
     SetViewport(ctx.extent),
     SetScissor(ctx.extent),
     BindPipeline(GraphicsBindPoint, ctx.pipeline),
     BindDescriptorSet(GraphicsBindPoint, ctx.layout, 0, ctx.staticSet, [0])]
  }

  function ForwardTail(ctx: Recording): seq<Cmd> {
    [WriteTimestamp(BottomOfPipe, ctx.queryPool, 1), EndRenderPass, EndCommandBuffer]
  }

  /** The full recording of buffer i, targeting framebuffer `fb`. */
  function ForwardCommands(ctx: Recording, i: nat, fb: Handle): seq<Cmd>
    requires FitsBuffer(ctx, i)
  {
    ForwardHead(ctx, fb) + MeshesCmds(ctx, i, ctx.meshes) + ForwardTail(ctx)
  }

  // The descriptor updates that recording issues on the host, in the same order.

  function SubmeshesUpdates(ctx: Recording, i: nat, subs: seq<Submesh>, d0: nat): seq<DescriptorUpdate>
    requires Slot(i, d0 + |subs|) <= |ctx.sets|
    decreases |subs|
  {
    if subs == [] then []
    else SubmeshesUpdates(ctx, i, subs[..|subs| - 1], d0)
         + [UpdateDescriptorSets([], RoleCopies(ctx.staticSet, subs[|subs| - 1].textureIndex,
                                                ctx.sets[Slot(i, d0 + |subs| - 1)]))]
  }

  function MeshesUpdates(ctx: Recording, i: nat, meshes: seq<Mesh>): seq<DescriptorUpdate>
    requires Slot(i, SubmeshTotal(meshes)) <= |ctx.sets|
    decreases |meshes|
  {
    if meshes == [] then []
    else
      var init := meshes[..|meshes| - 1];
      MeshesUpdates(ctx, i, init) + SubmeshesUpdates(ctx, i, meshes[|meshes| - 1].submeshes, SubmeshTotal(init))
  }

  /** The updates of buffers 0..n-1, one buffer after another. */
  function ForwardUpdates(ctx: Recording, n: nat): seq<DescriptorUpdate>
    requires Fits(ctx, n)
  {
    if n == 0 then []
    else
      assert FitsBuffer(ctx, n - 1);
      ForwardUpdates(ctx, n - 1) + MeshesUpdates(ctx, n - 1, ctx.meshes)
  }

  // ---------------------------------------------------------------------------
  // Properties of one buffer's recording
  // ---------------------------------------------------------------------------

  /** Index counts of the indexed draws, in recording order. */
  function DrawOf(c: Cmd): seq<nat> {
    if c.DrawIndexed? then [c.indexCount] else []
  }

  /** Descriptor sets bound at set number 1 (the per-draw set), in recording order. */
  function DynamicSetOf(c: Cmd): seq<Handle> {
    if c.BindDescriptorSet? && c.firstSet == 1 then [c.descriptorSet] else []
  }

  /** Vertex buffers bound, in recording order. */
  function VertexBindOf(c: Cmd): seq<seq<Handle>> {
    if c.BindVertexBuffers? then [c.buffers] else []
  }

  function IndexCounts(subs: seq<Submesh>): seq<nat> {
    seq(|subs|, k requires 0 <= k < |subs| => subs[k].ibv.count)
  }

  lemma IndexCountsAppend(a: seq<Submesh>, b: seq<Submesh>)
    ensures IndexCounts(a + b) == IndexCounts(a) + IndexCounts(b)
  {
  }

  /** The sets claimed by n consecutive draws of buffer i starting at draw d0. */
  function ClaimedSets(ctx: Recording, i: nat, d0: nat, n: nat): seq<Handle>
    requires Slot(i, d0 + n) <= |ctx.sets|
  {
    seq(n, k requires 0 <= k < n => ctx.sets[Slot(i, d0 + k)])
  }

  lemma ClaimedSetsSplit(ctx: Recording, i: nat, d0: nat, n: nat, m: nat)
    requires Slot(i, d0 + n + m) <= |ctx.sets|
    ensures ClaimedSets(ctx, i, d0, n + m) == ClaimedSets(ctx, i, d0, n) + ClaimedSets(ctx, i, d0 + n, m)
  {
    var whole, a, b := ClaimedSets(ctx, i, d0, n + m), ClaimedSets(ctx, i, d0, n), ClaimedSets(ctx, i, d0 + n, m);
    forall k | 0 <= k < n + m ensures whole[k] == (a + b)[k] {
      if n <= k {
        assert (a + b)[k] == b[k - n];
      }
    }
  }

  lemma SubmeshCmdsProjections(ctx: Recording, dset: Handle, s: Submesh)
    ensures Select(SubmeshCmds(ctx, dset, s), DrawOf) == [s.ibv.count]
    ensures Select(SubmeshCmds(ctx, dset, s), DynamicSetOf) == [dset]
    ensures Select(SubmeshCmds(ctx, dset, s), VertexBindOf) == []
  {
    var c := SubmeshCmds(ctx, dset, s);
    Select3(c[0], c[1], c[2], DrawOf);
    Select3(c[0], c[1], c[2], DynamicSetOf);
    Select3(c[0], c[1], c[2], VertexBindOf);
  }

  /** Submeshes d0.. of buffer i: three commands each, none of them framing. */
  lemma {:induction false} SubmeshesUnframed(ctx: Recording, i: nat, subs: seq<Submesh>, d0: nat)
    requires Slot(i, d0 + |subs|) <= |ctx.sets|
    ensures |SubmeshesCmds(ctx, i, subs, d0)| == 3 * |subs|
    ensures forall k :: 0 <= k < |SubmeshesCmds(ctx, i, subs, d0)| ==> !IsFrameMarker(SubmeshesCmds(ctx, i, subs, d0)[k])
    decreases |subs|
  {
    if subs != [] {
      SubmeshesUnframed(ctx, i, subs[..|subs| - 1], d0);
    }
  }

  /** Submeshes d0.. of buffer i draw their index counts, in order. */
  lemma {:induction false} SubmeshesDraws(ctx: Recording, i: nat, subs: seq<Submesh>, d0: nat)
    requires Slot(i, d0 + |subs|) <= |ctx.sets|
    ensures Select(SubmeshesCmds(ctx, i, subs, d0), DrawOf) == IndexCounts(subs)
    decreases |subs|
  {
    if subs != [] {
      var n := |subs| - 1;
      var dset := ctx.sets[Slot(i, d0 + n)];
      SubmeshesDraws(ctx, i, subs[..n], d0);
      SubmeshCmdsProjections(ctx, dset, subs[n]);
      SelectAppend(SubmeshesCmds(ctx, i, subs[..n], d0), SubmeshCmds(ctx, dset, subs[n]), DrawOf);
      assert IndexCounts(subs) == IndexCounts(subs[..n]) + [subs[n].ibv.count];
    }
  }

  /** The k-th submesh from d0 on binds the set in slot i*budget + d0 + k. */
  lemma {:induction false} SubmeshesDynamicSets(ctx: Recording, i: nat, subs: seq<Submesh>, d0: nat)
    requires Slot(i, d0 + |subs|) <= |ctx.sets|
    ensures Select(SubmeshesCmds(ctx, i, subs, d0), DynamicSetOf) == ClaimedSets(ctx, i, d0, |subs|)
    decreases |subs|
  {
    if subs != [] {
      var n := |subs| - 1;
      var dset := ctx.sets[Slot(i, d0 + n)];
      SubmeshesDynamicSets(ctx, i, subs[..n], d0);
      SubmeshCmdsProjections(ctx, dset, subs[n]);
      SelectAppend(SubmeshesCmds(ctx, i, subs[..n], d0), SubmeshCmds(ctx, dset, subs[n]), DynamicSetOf);
      ClaimedSetsSplit(ctx, i, d0, n, 1);
      assert ClaimedSets(ctx, i, d0 + n, 1) == [dset];
    }
  }

  /** Submeshes bind no vertex buffers. */
  lemma {:induction false} SubmeshesVertexBinds(ctx: Recording, i: nat, subs: seq<Submesh>, d0: nat)
    requires Slot(i, d0 + |subs|) <= |ctx.sets|
    ensures Select(SubmeshesCmds(ctx, i, subs, d0), VertexBindOf) == []
    decreases |subs|
  {
    if subs != [] {
      var n := |subs| - 1;
      var dset := ctx.sets[Slot(i, d0 + n)];
      SubmeshesVertexBinds(ctx, i, subs[..n], d0);
      SubmeshCmdsProjections(ctx, dset, subs[n]);
      SelectAppend(SubmeshesCmds(ctx, i, subs[..n], d0), SubmeshCmds(ctx, dset, subs[n]), VertexBindOf);
    }
  }

  /** Splits the draw section of `meshes` into the sections of all but the last
      mesh, the last mesh's vertex bind and the last mesh's submeshes. */
  lemma MeshesCmdsLast(ctx: Recording, i: nat, meshes: seq<Mesh>)
    requires meshes != []
    requires Slot(i, SubmeshTotal(meshes)) <= |ctx.sets|
    ensures var n := |meshes| - 1;
      SubmeshTotal(meshes) == SubmeshTotal(meshes[..n]) + |meshes[n].submeshes| &&
      MeshesCmds(ctx, i, meshes) ==
        MeshesCmds(ctx, i, meshes[..n]) +
        ([BindVertexBuffers(0, meshes[n].vertexResources, meshes[n].vertexOffsets)] +
         SubmeshesCmds(ctx, i, meshes[n].submeshes, SubmeshTotal(meshes[..n])))
  {
  }

  /** Over all meshes the draws follow the flattened submesh order. */
  lemma {:induction false} MeshesDraws(ctx: Recording, i: nat, meshes: seq<Mesh>)
    requires Slot(i, SubmeshTotal(meshes)) <= |ctx.sets|
    ensures Select(MeshesCmds(ctx, i, meshes), DrawOf) == IndexCounts(Flatten(meshes))
    decreases |meshes|
  {
    if meshes != [] {
      var n := |meshes| - 1;
      var mesh := meshes[n];
      var t := SubmeshTotal(meshes[..n]);
      var vb := [BindVertexBuffers(0, mesh.vertexResources, mesh.vertexOffsets)];
      var a := MeshesCmds(ctx, i, meshes[..n]);
      var b := SubmeshesCmds(ctx, i, mesh.submeshes, t);
      MeshesCmdsLast(ctx, i, meshes);
      MeshesDraws(ctx, i, meshes[..n]);
      SubmeshesDraws(ctx, i, mesh.submeshes, t);
      SelectAppend(a, vb + b, DrawOf);
      SelectAppend(vb, b, DrawOf);
      SelectSingle(vb[0], DrawOf);
      assert Flatten(meshes) == Flatten(meshes[..n]) + mesh.submeshes;
      IndexCountsAppend(Flatten(meshes[..n]), mesh.submeshes);
    }
  }

  /** Over all meshes the k-th draw of buffer i binds the set in slot i*budget + k. */
  lemma {:induction false} MeshesDynamicSets(ctx: Recording, i: nat, meshes: seq<Mesh>)
    requires Slot(i, SubmeshTotal(meshes)) <= |ctx.sets|
    ensures Select(MeshesCmds(ctx, i, meshes), DynamicSetOf) == ClaimedSets(ctx, i, 0, SubmeshTotal(meshes))
    decreases |meshes|
  {
    if meshes != [] {
      var n := |meshes| - 1;
      var mesh := meshes[n];
      var t := SubmeshTotal(meshes[..n]);
      var vb := [BindVertexBuffers(0, mesh.vertexResources, mesh.vertexOffsets)];
      var a := MeshesCmds(ctx, i, meshes[..n]);
      var b := SubmeshesCmds(ctx, i, mesh.submeshes, t);
      MeshesCmdsLast(ctx, i, meshes);
      MeshesDynamicSets(ctx, i, meshes[..n]);
      SubmeshesDynamicSets(ctx, i, mesh.submeshes, t);
      SelectAppend(a, vb + b, DynamicSetOf);
      SelectAppend(vb, b, DynamicSetOf);
      SelectSingle(vb[0], DynamicSetOf);
      assert Select(vb + b, DynamicSetOf) == Select(b, DynamicSetOf);
      var s := |mesh.submeshes|;
      assert SubmeshTotal(meshes) == t + s;
      ClaimedSetsSplit(ctx, i, 0, t, s);
      assert Select(MeshesCmds(ctx, i, meshes), DynamicSetOf) == ClaimedSets(ctx, i, 0, t) + ClaimedSets(ctx, i, t, s);
    }
  }

  /** The vertex buffers of each mesh, in mesh order. */
  function VertexResources(meshes: seq<Mesh>): seq<seq<Handle>> {
    seq(|meshes|, m requires 0 <= m < |meshes| => meshes[m].vertexResources)
  }

  lemma VertexResourcesLast(meshes: seq<Mesh>)
    requires meshes != []
    ensures VertexResources(meshes) == VertexResources(meshes[..|meshes| - 1]) + [meshes[|meshes| - 1].vertexResources]
  {
  }

  /** Each mesh binds its vertex buffers exactly once, in mesh order. */
  lemma {:induction false} MeshesVertexBinds(ctx: Recording, i: nat, meshes: seq<Mesh>)
    requires Slot(i, SubmeshTotal(meshes)) <= |ctx.sets|
    ensures Select(MeshesCmds(ctx, i, meshes), VertexBindOf) == VertexResources(meshes)
    decreases |meshes|
  {
    if meshes != [] {
      var n := |meshes| - 1;
      var mesh := meshes[n];
      var t := SubmeshTotal(meshes[..n]);
      var vb := [BindVertexBuffers(0, mesh.vertexResources, mesh.vertexOffsets)];
      var a := MeshesCmds(ctx, i, meshes[..n]);
      var b := SubmeshesCmds(ctx, i, mesh.submeshes, t);
      MeshesCmdsLast(ctx, i, meshes);
      MeshesVertexBinds(ctx, i, meshes[..n]);
      SubmeshesVertexBinds(ctx, i, mesh.submeshes, t);
      SelectAppend(a, vb + b, VertexBindOf);
      SelectAppend(vb, b, VertexBindOf);
      SelectSingle(vb[0], VertexBindOf);
      VertexResourcesLast(meshes);
    }
  }

  /** The draw section has one command per mesh plus three per submesh, none of them framing. */
  lemma {:induction false} MeshesUnframed(ctx: Recording, i: nat, meshes: seq<Mesh>)
    requires Slot(i, SubmeshTotal(meshes)) <= |ctx.sets|
    ensures |MeshesCmds(ctx, i, meshes)| == |meshes| + 3 * SubmeshTotal(meshes)
    ensures forall k :: 0 <= k < |MeshesCmds(ctx, i, meshes)| ==> !IsFrameMarker(MeshesCmds(ctx, i, meshes)[k])
    decreases |meshes|
  {
    if meshes != [] {
      var n := |meshes| - 1;
      MeshesCmdsLast(ctx, i, meshes);
      MeshesUnframed(ctx, i, meshes[..n]);
      SubmeshesUnframed(ctx, i, meshes[n].submeshes, SubmeshTotal(meshes[..n]));
    }
  }

  /** The j-th submesh from d0 on records its set bind, index-buffer bind and
      draw as the three commands at 3*j, with the set in slot i*budget + d0 + j. */
  lemma {:induction false} SubmeshesCmdsAt(ctx: Recording, i: nat, subs: seq<Submesh>, d0: nat, j: nat)
    requires Slot(i, d0 + |subs|) <= |ctx.sets|
    requires j < |subs|
    ensures 3 * j + 3 <= |SubmeshesCmds(ctx, i, subs, d0)|
    ensures SubmeshesCmds(ctx, i, subs, d0)[3 * j..3 * j + 3] == SubmeshCmds(ctx, ctx.sets[Slot(i, d0 + j)], subs[j])
    decreases |subs|
  {
    var n := |subs| - 1;
    var a := SubmeshesCmds(ctx, i, subs[..n], d0);
    var c := SubmeshCmds(ctx, ctx.sets[Slot(i, d0 + n)], subs[n]);
    assert SubmeshesCmds(ctx, i, subs, d0) == a + c;
    SubmeshesUnframed(ctx, i, subs[..n], d0);
    if j < n {
      SubmeshesCmdsAt(ctx, i, subs[..n], d0, j);
      assert (a + c)[3 * j..3 * j + 3] == a[3 * j..3 * j + 3];
    } else {
      assert (a + c)[3 * j..3 * j + 3] == c;
    }
  }

  /** Where mesh m's commands begin in the draw section: one command for each
      earlier mesh and three for each earlier submesh. */
  function MeshStart(meshes: seq<Mesh>, m: nat): nat
    requires m <= |meshes|
  {
    m + 3 * SubmeshTotal(meshes[..m])
  }

  lemma MeshStartStep(meshes: seq<Mesh>, m: nat)
    requires m < |meshes|
    ensures MeshStart(meshes, m + 1) == MeshStart(meshes, m) + 1 + 3 * |meshes[m].submeshes|
    ensures SubmeshTotal(meshes[..m]) + |meshes[m].submeshes| <= SubmeshTotal(meshes)
  {
    FlattenPrefix(meshes, m);
    SubmeshTotalPrefix(meshes, m + 1);
  }

  /** The last mesh's commands close the draw section. */
  lemma MeshesCmdsAtLast(ctx: Recording, i: nat, meshes: seq<Mesh>)
    requires Slot(i, SubmeshTotal(meshes)) <= |ctx.sets|
    requires meshes != []
    ensures var m := |meshes| - 1;
      MeshStart(meshes, m) <= MeshStart(meshes, m + 1) <= |MeshesCmds(ctx, i, meshes)| &&
      Slot(i, SubmeshTotal(meshes[..m]) + |meshes[m].submeshes|) <= |ctx.sets| &&
      MeshesCmds(ctx, i, meshes)[MeshStart(meshes, m)..MeshStart(meshes, m + 1)] ==
        MeshCmds(ctx, i, meshes[m], SubmeshTotal(meshes[..m]))
  {
    var n := |meshes| - 1;
    var init := meshes[..n];
    var a := MeshesCmds(ctx, i, init);
    var c := MeshCmds(ctx, i, meshes[n], SubmeshTotal(init));
    MeshStartStep(meshes, n);
    assert |a| == MeshStart(meshes, n) by {
      MeshesUnframed(ctx, i, init);
    }
    assert |c| == 1 + 3 * |meshes[n].submeshes| by {
      SubmeshesUnframed(ctx, i, meshes[n].submeshes, SubmeshTotal(init));
    }
    assert MeshesCmds(ctx, i, meshes) == a + c;
    SliceAppendMiddle(a, c, [], 0, |c|);
    assert a + c + [] == a + c;
  }

  /** The commands from mesh m's start to mesh m+1's start are exactly mesh
      m's: its vertex bind followed directly by its own submeshes, which claim
      draw numbers from the count of earlier submeshes on. */
  lemma {:induction false} MeshesCmdsAt(ctx: Recording, i: nat, meshes: seq<Mesh>, m: nat)
    requires Slot(i, SubmeshTotal(meshes)) <= |ctx.sets|
    requires m < |meshes|
    ensures MeshStart(meshes, m) <= MeshStart(meshes, m + 1) <= |MeshesCmds(ctx, i, meshes)|
    ensures Slot(i, SubmeshTotal(meshes[..m]) + |meshes[m].submeshes|) <= |ctx.sets|
    ensures MeshesCmds(ctx, i, meshes)[MeshStart(meshes, m)..MeshStart(meshes, m + 1)] ==
            MeshCmds(ctx, i, meshes[m], SubmeshTotal(meshes[..m]))
    decreases |meshes|
  {
    var n := |meshes| - 1;
    if m == n {
      MeshesCmdsAtLast(ctx, i, meshes);
    } else {
      var init := meshes[..n];
      var a := MeshesCmds(ctx, i, init);
      var c := MeshCmds(ctx, i, meshes[n], SubmeshTotal(init));
      assert MeshesCmds(ctx, i, meshes) == a + c;
      assert MeshStart(init, m) == MeshStart(meshes, m) && MeshStart(init, m + 1) == MeshStart(meshes, m + 1) by {
        assert init[..m] == meshes[..m];
        assert init[..m + 1] == meshes[..m + 1];
      }
      assert Slot(i, SubmeshTotal(init)) <= |ctx.sets| by {
        SubmeshTotalPrefix(meshes, n);
      }
      MeshesCmdsAt(ctx, i, init, m);
      assert init[m] == meshes[m];
      SliceAppendLeft(a, c, MeshStart(meshes, m), MeshStart(meshes, m + 1));
    }
  }

  /** The command order of every forward buffer: begin, query reset, start
      timestamp and render-pass begin come first; end timestamp, render-pass end
      and buffer end come last; no framing command occurs anywhere between. */
  lemma ForwardFrame(ctx: Recording, i: nat, fb: Handle)
    requires FitsBuffer(ctx, i)
    ensures var c := ForwardCommands(ctx, i, fb);
      |c| == 11 + |ctx.meshes| + 3 * SubmeshTotal(ctx.meshes) &&
      c[..4] == BeginRecording(ctx.queryPool) + [BeginRenderPass(ctx.renderpass, fb, ctx.extent)] &&
      c[4..8] == [SetViewport(ctx.extent), SetScissor(ctx.extent), BindPipeline(GraphicsBindPoint, ctx.pipeline),
                  BindDescriptorSet(GraphicsBindPoint, ctx.layout, 0, ctx.staticSet, [0])] &&
      c[|c| - 3..] == [WriteTimestamp(BottomOfPipe, ctx.queryPool, 1), EndRenderPass, EndCommandBuffer] &&
      forall k :: 0 <= k < |c| ==> (IsFrameMarker(c[k]) <==> k < 4 || |c| - 3 <= k)
  {
    MeshesUnframed(ctx, i, ctx.meshes);
  }

  /** Selecting from a whole forward buffer selects from its draw section only,
      as long as the head and tail hold nothing `f` picks. */
  lemma SelectForward<T>(ctx: Recording, i: nat, fb: Handle, f: Cmd -> seq<T>)
    requires FitsBuffer(ctx, i)
    requires forall k :: 0 <= k < |ForwardHead(ctx, fb)| ==> f(ForwardHead(ctx, fb)[k]) == []
    requires forall k :: 0 <= k < |ForwardTail(ctx)| ==> f(ForwardTail(ctx)[k]) == []
    ensures Select(ForwardCommands(ctx, i, fb), f) == Select(MeshesCmds(ctx, i, ctx.meshes), f)
  {
    var h := ForwardHead(ctx, fb);
    var mid := MeshesCmds(ctx, i, ctx.meshes);
    var t := ForwardTail(ctx);
    SelectAppend(h + mid, t, f);
    SelectAppend(h, mid, f);
    SelectNone(h, f);
    SelectNone(t, f);
  }

  /** A forward buffer draws every submesh once, in mesh-then-submesh order. */
  lemma ForwardDraws(ctx: Recording, i: nat, fb: Handle)
    requires FitsBuffer(ctx, i)
    ensures Select(ForwardCommands(ctx, i, fb), DrawOf) == IndexCounts(Flatten(ctx.meshes))
    ensures |Select(ForwardCommands(ctx, i, fb), DrawOf)| == SubmeshTotal(ctx.meshes)
  {
    SelectForward(ctx, i, fb, DrawOf);
    MeshesDraws(ctx, i, ctx.meshes);
  }

  /** In buffer i the k-th draw binds, at set 1, the set of slot i*budget + k. */
  lemma ForwardDynamicSets(ctx: Recording, i: nat, fb: Handle)
    requires FitsBuffer(ctx, i)
    ensures Select(ForwardCommands(ctx, i, fb), DynamicSetOf) == ClaimedSets(ctx, i, 0, SubmeshTotal(ctx.meshes))
  {
    SelectForward(ctx, i, fb, DynamicSetOf);
    MeshesDynamicSets(ctx, i, ctx.meshes);
  }

  /** A forward buffer binds each mesh's vertex buffers once, in mesh order. */
  lemma ForwardVertexBinds(ctx: Recording, i: nat, fb: Handle)
    requires FitsBuffer(ctx, i)
    ensures Select(ForwardCommands(ctx, i, fb), VertexBindOf) == VertexResources(ctx.meshes)
  {
    SelectForward(ctx, i, fb, VertexBindOf);
    MeshesVertexBinds(ctx, i, ctx.meshes);
  }

  /** Reading a mesh's commands off any recording they are a slice of: the
      vertex bind first, then three commands per submesh. */
  lemma MeshCmdsWithin(c: seq<Cmd>, lo: nat, hi: nat, ctx: Recording, i: nat, mesh: Mesh, t: nat)
    requires lo <= hi <= |c|
    requires Slot(i, t + |mesh.submeshes|) <= |ctx.sets|
    requires c[lo..hi] == MeshCmds(ctx, i, mesh, t)
    ensures lo + 1 + 3 * |mesh.submeshes| <= |c|
    ensures c[lo] == BindVertexBuffers(0, mesh.vertexResources, mesh.vertexOffsets)
    ensures forall j :: 0 <= j < |mesh.submeshes| ==>
              c[lo + 1 + 3 * j..lo + 4 + 3 * j] == SubmeshCmds(ctx, ctx.sets[Slot(i, t + j)], mesh.submeshes[j])
  {
    var x := BindVertexBuffers(0, mesh.vertexResources, mesh.vertexOffsets);
    var sub := SubmeshesCmds(ctx, i, mesh.submeshes, t);
    SubmeshesUnframed(ctx, i, mesh.submeshes, t);
    assert c[lo..hi] == [x] + sub;
    SliceAfterHead(c, lo, hi, x, sub, 0, 0);
    forall j | 0 <= j < |mesh.submeshes|
      ensures c[lo + 1 + 3 * j..lo + 4 + 3 * j] == SubmeshCmds(ctx, ctx.sets[Slot(i, t + j)], mesh.submeshes[j])
    {
      SubmeshesCmdsAt(ctx, i, mesh.submeshes, t, j);
      SliceAfterHead(c, lo, hi, x, sub, 3 * j, 3 * j + 3);
    }
  }

  /** Mesh m's commands lie in a forward buffer from 8 + MeshStart(m), right
      after the eight commands of the head. */
  lemma ForwardMeshSlice(ctx: Recording, i: nat, fb: Handle, m: nat)
    requires FitsBuffer(ctx, i)
    requires m < |ctx.meshes|
    ensures MeshStart(ctx.meshes, m) <= MeshStart(ctx.meshes, m + 1)
    ensures 8 + MeshStart(ctx.meshes, m + 1) <= |ForwardCommands(ctx, i, fb)|
    ensures Slot(i, SubmeshTotal(ctx.meshes[..m]) + |ctx.meshes[m].submeshes|) <= |ctx.sets|
    ensures ForwardCommands(ctx, i, fb)[8 + MeshStart(ctx.meshes, m)..8 + MeshStart(ctx.meshes, m + 1)] ==
            MeshCmds(ctx, i, ctx.meshes[m], SubmeshTotal(ctx.meshes[..m]))
  {
    var h, d, tl := ForwardHead(ctx, fb), MeshesCmds(ctx, i, ctx.meshes), ForwardTail(ctx);
    MeshesCmdsAt(ctx, i, ctx.meshes, m);
    assert ForwardCommands(ctx, i, fb) == h + d + tl;
    assert |h| == 8;
    SliceAppendMiddle(h, d, tl, MeshStart(ctx.meshes, m), MeshStart(ctx.meshes, m + 1));
  }

  /** Where each mesh's commands sit in a forward buffer: mesh m's vertex bind
      at 8 + MeshStart(m) = 8 + m + 3*t, t being the number of submeshes of
      earlier meshes, and right after it three commands for each submesh j of
      its own: the set bind of slot i*budget + t + j, that submesh's index
      buffer and its draw. */
  lemma ForwardMeshAt(ctx: Recording, i: nat, fb: Handle, m: nat)
    requires FitsBuffer(ctx, i)
    requires m < |ctx.meshes|
    ensures 8 + MeshStart(ctx.meshes, m) + 1 + 3 * |ctx.meshes[m].submeshes| <= |ForwardCommands(ctx, i, fb)|
    ensures Slot(i, SubmeshTotal(ctx.meshes[..m]) + |ctx.meshes[m].submeshes|) <= |ctx.sets|
    ensures ForwardCommands(ctx, i, fb)[8 + MeshStart(ctx.meshes, m)] ==
            BindVertexBuffers(0, ctx.meshes[m].vertexResources, ctx.meshes[m].vertexOffsets)
    ensures forall j :: 0 <= j < |ctx.meshes[m].submeshes| ==>
              ForwardCommands(ctx, i, fb)[8 + MeshStart(ctx.meshes, m) + 1 + 3 * j..8 + MeshStart(ctx.meshes, m) + 4 + 3 * j] ==
              SubmeshCmds(ctx, ctx.sets[Slot(i, SubmeshTotal(ctx.meshes[..m]) + j)], ctx.meshes[m].submeshes[j])
  {
    ForwardMeshSlice(ctx, i, fb, m);
    MeshStartStep(ctx.meshes, m);
    MeshCmdsWithin(ForwardCommands(ctx, i, fb), 8 + MeshStart(ctx.meshes, m), 8 + MeshStart(ctx.meshes, m + 1),
                   ctx, i, ctx.meshes[m], SubmeshTotal(ctx.meshes[..m]));
  }

  // ---------------------------------------------------------------------------
  // Properties of the descriptor copies
  // ---------------------------------------------------------------------------

  /** The copy batch issued for submesh `s` drawn with set `dst`. */
  function CopyBatch(ctx: Recording, s: Submesh, dst: Handle): DescriptorUpdate {
    UpdateDescriptorSets([], RoleCopies(ctx.staticSet, s.textureIndex, dst))
  }

  lemma {:induction false} SubmeshesUpdatesAt(ctx: Recording, i: nat, subs: seq<Submesh>, d0: nat)
    requires Slot(i, d0 + |subs|) <= |ctx.sets|
    ensures SubmeshesUpdates(ctx, i, subs, d0) ==
            seq(|subs|, k requires 0 <= k < |subs| => CopyBatch(ctx, subs[k], ctx.sets[Slot(i, d0 + k)]))
    decreases |subs|
  {
    if subs != [] {
      SubmeshesUpdatesAt(ctx, i, subs[..|subs| - 1], d0);
    }
  }

  /** Buffer i issues one copy batch per submesh in flattened order, the k-th into slot i*budget + k. */
  lemma {:induction false} MeshesUpdatesFlat(ctx: Recording, i: nat, meshes: seq<Mesh>)
    requires Slot(i, SubmeshTotal(meshes)) <= |ctx.sets|
    ensures |MeshesUpdates(ctx, i, meshes)| == SubmeshTotal(meshes)
    ensures forall k :: 0 <= k < SubmeshTotal(meshes) ==>
              MeshesUpdates(ctx, i, meshes)[k] == CopyBatch(ctx, Flatten(meshes)[k], ctx.sets[Slot(i, k)])
    decreases |meshes|
  {
    if meshes != [] {
      var n := |meshes| - 1;
      var init := meshes[..n];
      var subs := meshes[n].submeshes;
      var t := SubmeshTotal(init);
      var a := MeshesUpdates(ctx, i, init);
      var b := SubmeshesUpdates(ctx, i, subs, t);
      var flat := Flatten(meshes);
      assert flat == Flatten(init) + subs;
      MeshesUpdatesFlat(ctx, i, init);
      SubmeshesUpdatesAt(ctx, i, subs, t);
      assert MeshesUpdates(ctx, i, meshes) == a + b;
      forall k | 0 <= k < |flat|
        ensures (a + b)[k] == CopyBatch(ctx, flat[k], ctx.sets[Slot(i, k)])
      {
        if k < t {
          assert (a + b)[k] == a[k];
          assert flat[k] == Flatten(init)[k];
        } else {
          assert (a + b)[k] == b[k - t];
          assert flat[k] == subs[k - t];
        }
      }
    }
  }

  /** The k-th copy batch of buffer i copies, for every role, the k-th submesh's
      texture out of the static image array into the role's binding of exactly
      the set the k-th draw binds. */
  lemma ForwardCopiesFeedDraws(ctx: Recording, i: nat, fb: Handle, k: nat, r: Role)
    requires FitsBuffer(ctx, i)
    requires k < SubmeshTotal(ctx.meshes)
    ensures var u := MeshesUpdates(ctx, i, ctx.meshes);
      var sets := Select(ForwardCommands(ctx, i, fb), DynamicSetOf);
      |u| == SubmeshTotal(ctx.meshes) && |sets| == SubmeshTotal(ctx.meshes) &&
      u[k].writes == [] && |u[k].copies| == ForwardDescriptorCount &&
      u[k].copies[RoleIndex(r)] ==
        DescriptorCopy(ctx.staticSet, StaticDescriptorImage, TextureIndex(Flatten(ctx.meshes)[k].textureIndex, r),
                       sets[k], RoleBinding(r), 0, 1)
  {
    MeshesUpdatesFlat(ctx, i, ctx.meshes);
    ForwardDynamicSets(ctx, i, fb);
    RoleCopiesByRole(ctx.staticSet, Flatten(ctx.meshes)[k].textureIndex, ctx.sets[Slot(i, k)], r);
  }

  /** Every batch of buffer i is three copies and no write. */
  lemma MeshesUpdatesShape(ctx: Recording, i: nat)
    requires FitsBuffer(ctx, i)
    ensures |MeshesUpdates(ctx, i, ctx.meshes)| == SubmeshTotal(ctx.meshes)
    ensures forall k :: 0 <= k < |MeshesUpdates(ctx, i, ctx.meshes)| ==>
              MeshesUpdates(ctx, i, ctx.meshes)[k].writes == [] &&
              |MeshesUpdates(ctx, i, ctx.meshes)[k].copies| == ForwardDescriptorCount
  {
    MeshesUpdatesFlat(ctx, i, ctx.meshes);
  }

  /** Recording n buffers issues n times one batch of three copies per submesh. */
  lemma {:induction false} ForwardUpdatesCount(ctx: Recording, n: nat)
    requires Fits(ctx, n)
    ensures |ForwardUpdates(ctx, n)| == n * SubmeshTotal(ctx.meshes)
    ensures forall k :: 0 <= k < |ForwardUpdates(ctx, n)| ==>
              ForwardUpdates(ctx, n)[k].writes == [] && |ForwardUpdates(ctx, n)[k].copies| == ForwardDescriptorCount
  {
    if n > 0 {
      assert FitsBuffer(ctx, n - 1);
      var a := ForwardUpdates(ctx, n - 1);
      var b := MeshesUpdates(ctx, n - 1, ctx.meshes);
      ForwardUpdatesCount(ctx, n - 1);
      MeshesUpdatesShape(ctx, n - 1);
      var ab: seq<DescriptorUpdate> := a + b;
      assert ForwardUpdates(ctx, n) == ab;
      assert |ab| == (n - 1) * SubmeshTotal(ctx.meshes) + SubmeshTotal(ctx.meshes);
      forall k | 0 <= k < |ab|
        ensures ab[k].writes == [] && |ab[k].copies| == ForwardDescriptorCount
      {
        if k < |a| { assert ab[k] == a[k]; } else { assert ab[k] == b[k - |a|]; }
      }
    }
  }

  // ---------------------------------------------------------------------------
  // BuildCommandBufferForwardRenderState
  // ---------------------------------------------------------------------------

  /** The stage has what recording reads: a query pool, a pipeline layout, a
      pipeline and the descriptor-set array. */
  predicate Recordable(rs: RenderState)
    reads rs`queryPool, rs`handles
  {
    rs.queryPool.Some? && rs.handles.pipelineLayout.Some? && rs.handles.pipelines.Some? && |rs.handles.pipelines.value| >= 1 &&
    rs.handles.descriptorSets.Some?
  }

  function RecordingOf(rs: RenderState, p: Parameters, swapchain: Extent2D): Recording
    requires Recordable(rs) && p.ForwardParameters?
    reads rs`queryPool, rs`handles
  {
    Recording(rs.queryPool.value, rs.handles.pipelines.value[0], rs.handles.pipelineLayout.value, rs.handles.descriptorSets.value,
              p.renderpass, p.staticDescriptorSet, p.meshes, swapchain)
  }

  lemma SubmeshesStep(ctx: Recording, i: nat, subs: seq<Submesh>, d0: nat, j: nat)
    requires j < |subs| && Slot(i, d0 + |subs|) <= |ctx.sets|
    ensures SubmeshesCmds(ctx, i, subs[..j + 1], d0) ==
            SubmeshesCmds(ctx, i, subs[..j], d0) + SubmeshCmds(ctx, ctx.sets[Slot(i, d0 + j)], subs[j])
    ensures SubmeshesUpdates(ctx, i, subs[..j + 1], d0) ==
            SubmeshesUpdates(ctx, i, subs[..j], d0) + [CopyBatch(ctx, subs[j], ctx.sets[Slot(i, d0 + j)])]
  {
    assert subs[..j + 1][..j] == subs[..j];
  }

  lemma MeshesStep(ctx: Recording, i: nat, meshes: seq<Mesh>, m: nat)
    requires m < |meshes| && Slot(i, SubmeshTotal(meshes)) <= |ctx.sets|
    ensures SubmeshTotal(meshes[..m + 1]) == SubmeshTotal(meshes[..m]) + |meshes[m].submeshes| <= SubmeshTotal(meshes)
    ensures MeshesCmds(ctx, i, meshes[..m + 1]) ==
            MeshesCmds(ctx, i, meshes[..m]) + MeshCmds(ctx, i, meshes[m], SubmeshTotal(meshes[..m]))
    ensures MeshesUpdates(ctx, i, meshes[..m + 1]) ==
            MeshesUpdates(ctx, i, meshes[..m]) + SubmeshesUpdates(ctx, i, meshes[m].submeshes, SubmeshTotal(meshes[..m]))
  {
    FlattenPrefix(meshes, m);
    SubmeshTotalPrefix(meshes, m + 1);
    assert meshes[..m + 1][..m] == meshes[..m];
  }

  /** Records the submeshes of one mesh, claiming draw numbers d0.., and issues
      each submesh's copy batch before its draw. */
  method RecordSubmeshes(ctx: Recording, i: nat, subs: seq<Submesh>, d0: nat, dev: Device) returns (cmds: seq<Cmd>)
    requires Slot(i, d0 + |subs|) <= |ctx.sets|
    modifies dev`updates
    ensures cmds == SubmeshesCmds(ctx, i, subs, d0)
    ensures dev.updates == old(dev.updates) + SubmeshesUpdates(ctx, i, subs, d0)
  {
    cmds := [];
    var d := d0;
    var j := 0;
    while j < |subs|
      invariant 0 <= j <= |subs| && d == d0 + j
      invariant cmds == SubmeshesCmds(ctx, i, subs[..j], d0)
      invariant dev.updates == old(dev.updates) + SubmeshesUpdates(ctx, i, subs[..j], d0)
    {
      SubmeshesStep(ctx, i, subs, d0, j);
      var descriptorset := ctx.sets[i * DynamicDescriptorSetCount + d];
      d := d + 1;
      var sub := subs[j];
      var diffuse := DescriptorCopy(ctx.staticSet, StaticDescriptorImage, sub.textureIndex.diffuse,
                                    descriptorset, DescriptorImageDiffuse, 0, 1);
      var normal := DescriptorCopy(ctx.staticSet, StaticDescriptorImage, sub.textureIndex.normal,
                                   descriptorset, DescriptorImageNormal, 0, 1);
      var opacity := DescriptorCopy(ctx.staticSet, StaticDescriptorImage, sub.textureIndex.opacity,
                                    descriptorset, DescriptorImageOpacity, 0, 1);
      dev.UpdateDescriptorSets([], [diffuse, normal, opacity]);
      cmds := cmds + [BindDescriptorSet(GraphicsBindPoint, ctx.layout, 1, descriptorset, []),
                      BindIndexBuffer(sub.ibv.buffer, sub.ibv.offset, sub.ibv.indexType),
                      DrawIndexed(sub.ibv.count, 1)];
      j := j + 1;
    }
    assert subs[..j] == subs;
  }

  /** Records the draw section of buffer i: per mesh, its vertex bind then its submeshes. */
  method RecordMeshes(ctx: Recording, i: nat, dev: Device) returns (cmds: seq<Cmd>)
    requires FitsBuffer(ctx, i)
    modifies dev`updates
    ensures cmds == MeshesCmds(ctx, i, ctx.meshes)
    ensures dev.updates == old(dev.updates) + MeshesUpdates(ctx, i, ctx.meshes)
  {
    var meshes := ctx.meshes;
    cmds := [];
    var d := 0;
    var m := 0;
    while m < |meshes|
      invariant 0 <= m <= |meshes|
      invariant d == SubmeshTotal(meshes[..m]) <= SubmeshTotal(meshes)
      invariant cmds == MeshesCmds(ctx, i, meshes[..m])
      invariant dev.updates == old(dev.updates) + MeshesUpdates(ctx, i, meshes[..m])
    {
      MeshesStep(ctx, i, meshes, m);
      var mesh := meshes[m];
      ghost var before := cmds;
      cmds := cmds + [BindVertexBuffers(0, mesh.vertexResources, mesh.vertexOffsets)];
      var draws := RecordSubmeshes(ctx, i, mesh.submeshes, d, dev);
      cmds := cmds + draws;
      AppendAssoc(before, [BindVertexBuffers(0, mesh.vertexResources, mesh.vertexOffsets)], draws);
      AppendAssoc(old(dev.updates), MeshesUpdates(ctx, i, meshes[..m]), SubmeshesUpdates(ctx, i, mesh.submeshes, d));
      d := d + |mesh.submeshes|;
      m := m + 1;
    }
    assert meshes[..m] == meshes;
  }

  lemma ForwardUpdatesStep(ctx: Recording, i: nat)
    requires Fits(ctx, i + 1)
    ensures Fits(ctx, i) && FitsBuffer(ctx, i)
    ensures ForwardUpdates(ctx, i + 1) == ForwardUpdates(ctx, i) + MeshesUpdates(ctx, i, ctx.meshes)
  {
    assert FitsBuffer(ctx, i);
  }

  /** Records the whole of buffer i for framebuffer `fb`. */
  method RecordForwardBuffer(ctx: Recording, i: nat, fb: Handle, dev: Device) returns (cmds: seq<Cmd>)
    requires FitsBuffer(ctx, i)
    modifies dev`updates
    ensures cmds == ForwardCommands(ctx, i, fb)
    ensures dev.updates == old(dev.updates) + MeshesUpdates(ctx, i, ctx.meshes)
  {
    cmds := BeginRecording(ctx.queryPool);
    cmds := cmds + [BeginRenderPass(ctx.renderpass, fb, ctx.extent),
                    SetViewport(ctx.extent),
                    SetScissor(ctx.extent),
                    BindPipeline(GraphicsBindPoint, ctx.pipeline),
                    BindDescriptorSet(GraphicsBindPoint, ctx.layout, 0, ctx.staticSet, [0])];
    var draws := RecordMeshes(ctx, i, dev);
    cmds := cmds + draws;
    cmds := cmds + [WriteTimestamp(BottomOfPipe, ctx.queryPool, 1), EndRenderPass, EndCommandBuffer];
  }

  /** The buffers recording `n` framebuffers yields: buffer i has handle
      first + i and holds the recording for framebuffer i. */
  function ForwardBuffers(ctx: Recording, first: nat, framebuffers: seq<Handle>): (cbs: seq<CommandBuffer>)
    requires Fits(ctx, |framebuffers|)
    ensures |cbs| == |framebuffers|
    ensures forall i :: 0 <= i < |cbs| ==> cbs[i].handle == first + i
  {
    seq(|framebuffers|, i requires 0 <= i < |framebuffers| =>
      assert FitsBuffer(ctx, i);
      CommandBuffer(first + i, ForwardCommands(ctx, i, framebuffers[i])))
  }

  /** Records buffer i, with handle handles[i], for framebuffer i, one buffer after another. */
  method RecordForwardBuffers(ctx: Recording, handles: seq<Handle>, framebuffers: seq<Handle>, dev: Device)
    returns (buffers: seq<CommandBuffer>)
    requires Fits(ctx, |framebuffers|) && |handles| == |framebuffers|
    modifies dev`updates
    ensures |buffers| == |framebuffers|
    ensures forall i :: 0 <= i < |buffers| ==>
              buffers[i] == CommandBuffer(handles[i], ForwardCommands(ctx, i, framebuffers[i]))
    ensures dev.updates == old(dev.updates) + ForwardUpdates(ctx, |framebuffers|)
  {
    buffers := [];
    var i := 0;
    while i < |framebuffers|
      invariant 0 <= i <= |framebuffers|
      invariant |buffers| == i
      invariant forall k :: 0 <= k < i ==> buffers[k] == CommandBuffer(handles[k], ForwardCommands(ctx, k, framebuffers[k]))
      invariant dev.updates == old(dev.updates) + ForwardUpdates(ctx, i)
    {
      ForwardUpdatesStep(ctx, i);
      var cmds := RecordForwardBuffer(ctx, i, framebuffers[i], dev);
      buffers := buffers + [CommandBuffer(handles[i], cmds)];
      i := i + 1;
    }
  }

  /** Replaces the command-buffer list with one new buffer per framebuffer and
      records buffer i for framebuffer i. Only the command-buffer fields of the
      stage change. */
  method BuildCommandBufferForwardRenderState(rs: RenderState, commandPool: Handle, dev: Device,
                                              swapchain: Extent2D, framebuffers: seq<Handle>, parameters: Parameters)
    requires Recordable(rs) && parameters.ForwardParameters?
    requires SubmeshTotal(parameters.meshes) <= DynamicDescriptorSetCount
    requires |framebuffers| * DynamicDescriptorSetCount <= |rs.handles.descriptorSets.value|
    modifies rs`commandBufferCount, rs`commandBuffers, dev`objects, dev`updates
    ensures Fits(old(RecordingOf(rs, parameters, swapchain)), |framebuffers|)
    ensures rs.commandBufferCount == |framebuffers|
    ensures rs.commandBuffers == ForwardBuffers(old(RecordingOf(rs, parameters, swapchain)), |old(dev.objects)|, framebuffers)
    ensures dev.objects == old(dev.objects) + Repeat(CommandBufferObject(commandPool), |framebuffers|)
    ensures dev.updates == old(dev.updates) + ForwardUpdates(old(RecordingOf(rs, parameters, swapchain)), |framebuffers|)
  {
    var ctx := RecordingOf(rs, parameters, swapchain);
    FitsFromBudget(ctx, |framebuffers|);
    var n := |framebuffers|;
    var handles := dev.CreateMany(CommandBufferObject(commandPool), n);
    var buffers := RecordForwardBuffers(ctx, handles, framebuffers, dev);
    rs.commandBufferCount := n;
    rs.commandBuffers := buffers;
    assert buffers == ForwardBuffers(ctx, |old(dev.objects)|, framebuffers);
  }

  // ---------------------------------------------------------------------------
  // CreateForwardRenderState
  // ---------------------------------------------------------------------------

  /** The dynamic set layout: one sampled image per role, read by the fragment shader. */
  const ForwardLayoutBindings: seq<LayoutBinding> :=
    [LayoutBinding(DescriptorImageDiffuse, SampledImage, 1, FragmentStage),
     LayoutBinding(DescriptorImageNormal, SampledImage, 1, FragmentStage),
     LayoutBinding(DescriptorImageOpacity, SampledImage, 1, FragmentStage)]

  /** Pool sizes for `n` framebuffers: one budget of sampled images per role. */
  function ForwardPoolSizes(n: nat): (sizes: seq<PoolSize>)
    ensures |sizes| == ForwardDescriptorCount
    ensures forall k :: 0 <= k < |sizes| ==> sizes[k] == PoolSize(SampledImage, n * DynamicDescriptorSetCount)
  {
    seq(ForwardDescriptorCount, _ => PoolSize(SampledImage, n * DynamicDescriptorSetCount))
  }

  /** Triangle lists, back-face culling with counter-clockwise fronts, depth
      test and write with less-or-equal, no blending, one sample, dynamic
      viewport and scissor. */
  const ForwardFixedState: FixedFunctionState :=
    FixedFunctionState(true, true, true, true, true, true, false, 1, true)

  const ForwardShaders: seq<Shader> :=
    [Shader("shaders/diffuse.vert.spv", "main", VertexStage),
     Shader("shaders/diffuse.frag.spv", "main", FragmentStage)]

  /** Allocates one budget of dynamic sets per framebuffer, filling slot
      i*budget + j in row-major order, so the slot of a set is its allocation rank. */
  method AllocateDynamicDescriptorSets(dev: Device, pool: Handle, layout: Handle, framebufferCount: nat)
    returns (sets: seq<Handle>)
    modifies dev`objects
    ensures |sets| == DynamicDescriptorSetCount * framebufferCount
    ensures forall i, j :: 0 <= i < framebufferCount && 0 <= j < DynamicDescriptorSetCount ==>
              sets[Slot(i, j)] == |old(dev.objects)| + Slot(i, j)
    ensures sets == HandleRange(|old(dev.objects)|, DynamicDescriptorSetCount * framebufferCount)
    ensures dev.objects == old(dev.objects) +
              Repeat(DescriptorSetObject(pool, layout), DynamicDescriptorSetCount * framebufferCount)
  {
    var info := DescriptorSetObject(pool, layout);
    var slots := new Handle[DynamicDescriptorSetCount * framebufferCount];
    var i := 0;
    while i < framebufferCount
      invariant 0 <= i <= framebufferCount
      invariant forall k :: 0 <= k < i * DynamicDescriptorSetCount ==> slots[k] == |old(dev.objects)| + k
      invariant dev.objects == old(dev.objects) + Repeat(info, i * DynamicDescriptorSetCount)
    {
      var j := 0;
      while j < DynamicDescriptorSetCount
        invariant 0 <= j <= DynamicDescriptorSetCount
        invariant forall k :: 0 <= k < i * DynamicDescriptorSetCount + j ==> slots[k] == |old(dev.objects)| + k
        invariant dev.objects == old(dev.objects) + Repeat(info, i * DynamicDescriptorSetCount + j)
      {
        var h := dev.Create(info);
        slots[i * DynamicDescriptorSetCount + j] := h;
        j := j + 1;
      }
      i := i + 1;
    }
    sets := slots[..];
    forall i, j | 0 <= i < framebufferCount && 0 <= j < DynamicDescriptorSetCount
      ensures Slot(i, j) < |sets|
    {
      SlotsDisjoint(i, j, i, j, framebufferCount);
    }
  }

  /** With distinct pool entries, every draw of every buffer binds a set of its own. */
  lemma DrawSetsDistinct(ctx: Recording, i: nat, k: nat, i': nat, k': nat)
    requires forall a, b :: 0 <= a < b < |ctx.sets| ==> ctx.sets[a] < ctx.sets[b]
    requires SubmeshTotal(ctx.meshes) <= DynamicDescriptorSetCount
    requires FitsBuffer(ctx, i) && FitsBuffer(ctx, i')
    requires k < SubmeshTotal(ctx.meshes) && k' < SubmeshTotal(ctx.meshes)
    requires (i, k) != (i', k')
    ensures ctx.sets[Slot(i, k)] != ctx.sets[Slot(i', k')]
  {
    SlotsDisjoint(i, k, i', k', 0);
    var a, b := Slot(i, k), Slot(i', k');
    if a < b { assert ctx.sets[a] < ctx.sets[b]; }
    if b < a { assert ctx.sets[b] < ctx.sets[a]; }
  }

  function HandlesOf(cbs: seq<CommandBuffer>): seq<Handle> {
    seq(|cbs|, k requires 0 <= k < |cbs| => cbs[k].handle)
  }

  /** The dynamic descriptor sets, allocated only when the array is null. */
  method CreateDescriptorSetsIfNull(sets: Option<seq<Handle>>, setCount: nat, dev: Device, pool: Handle,
                                    layout: Handle, framebufferCount: nat)
    returns (r: Option<seq<Handle>>, rCount: nat)
    modifies dev`objects
    ensures r == ArrayIfNull(sets, |old(dev.objects)|, DynamicDescriptorSetCount * framebufferCount)
    ensures rCount == ArrayCountIfNull(sets, setCount, DynamicDescriptorSetCount * framebufferCount)
    ensures dev.objects == old(dev.objects) +
              ArrayIfNullObjects(sets, DynamicDescriptorSetCount * framebufferCount, DescriptorSetObject(pool, layout))
  {
    r, rCount := sets, setCount;
    if sets.None? {
      rCount := DynamicDescriptorSetCount * framebufferCount;
      var newSets := AllocateDynamicDescriptorSets(dev, pool, layout, framebufferCount);
      r := Some(newSets);
    }
  }

  function ForwardPoolObject(framebufferCount: nat): ObjectInfo {
    DescriptorPoolObject(framebufferCount * DynamicDescriptorSetCount, ForwardPoolSizes(framebufferCount))
  }

  function ForwardPipelineObject(layout: Handle, renderpass: Handle, cache: Handle, vertexInput: nat): ObjectInfo {
    GraphicsPipelineObject(layout, renderpass, cache, vertexInput, ForwardFixedState, ForwardShaders)
  }

  /** The forward stage's create-if-null steps as a value: for handle fields
      `b` and the device's `objects`, the fields the steps leave and the
      device's objects after them, in the order the stage runs them: pipeline
      cache, one semaphore, the dynamic set layout, the pipeline layout over
      (static, dynamic), the pool, the dynamic sets and the graphics pipeline.
      Every field is set afterwards. */
  function ForwardCreation(b: HandleFields, objects: seq<ObjectInfo>, framebufferCount: nat,
                           staticDescLayout: Handle, renderpass: Handle, vertexInput: nat)
    : (r: (HandleFields, seq<ObjectInfo>))
    requires b.descriptorLayouts.Some? ==> |b.descriptorLayouts.value| >= 1
    ensures r.0.pipelineCache.Some? && r.0.pipelineLayout.Some? && r.0.descriptorPool.Some?
    ensures r.0.semaphores.Some? && r.0.descriptorLayouts.Some? && r.0.descriptorSets.Some? && r.0.pipelines.Some?
    ensures |r.0.descriptorLayouts.value| >= 1
  {
    var cache := IfNull(b.pipelineCache, |objects|);
    var o1 := objects + IfNullObjects(b.pipelineCache, PipelineCacheObject);
    var sems := ArrayIfNull(b.semaphores, |o1|, 1);
    var o2 := o1 + ArrayIfNullObjects(b.semaphores, 1, SemaphoreObject);
    var layouts := ArrayIfNull(b.descriptorLayouts, |o2|, 1);
    var o3 := o2 + ArrayIfNullObjects(b.descriptorLayouts, 1, DescriptorSetLayoutObject(ForwardLayoutBindings));
    var pipelineLayout := IfNull(b.pipelineLayout, |o3|);
    var o4 := o3 + IfNullObjects(b.pipelineLayout, PipelineLayoutObject([staticDescLayout, layouts.value[0]], []));
    var pool := IfNull(b.descriptorPool, |o4|);
    var o5 := o4 + IfNullObjects(b.descriptorPool, ForwardPoolObject(framebufferCount));
    var setCount := DynamicDescriptorSetCount * framebufferCount;
    var sets := ArrayIfNull(b.descriptorSets, |o5|, setCount);
    var o6 := o5 + ArrayIfNullObjects(b.descriptorSets, setCount, DescriptorSetObject(pool.value, layouts.value[0]));
    var pipelines := ArrayIfNull(b.pipelines, |o6|, 1);
    var o7 := o6 + ArrayIfNullObjects(b.pipelines, 1,
                                      ForwardPipelineObject(pipelineLayout.value, renderpass, cache.value, vertexInput));
    (HandleFields(cache, pipelineLayout, pool,
                  sems, ArrayCountIfNull(b.semaphores, b.semaphoreCount, 1),
                  layouts, ArrayCountIfNull(b.descriptorLayouts, b.descriptorLayoutCount, 1),
                  sets, ArrayCountIfNull(b.descriptorSets, b.descriptorSetCount, setCount),
                  pipelines, ArrayCountIfNull(b.pipelines, b.pipelineCount, 1)),
     o7)
  }

  /** The order of the create-if-null steps in `CreateForwardRenderState`:
      pipeline cache, one semaphore, the dynamic set layout, the pipeline
      layout, the pool, the dynamic sets and the graphics pipeline. The new
      fields and the objects appended are `ForwardCreation` of the old ones. */
  method CreateForwardHandles(b: HandleFields, dev: Device, framebufferCount: nat,
                              staticDescLayout: Handle, renderpass: Handle, vertexInput: nat)
    returns (a: HandleFields)
    requires b.descriptorLayouts.Some? ==> |b.descriptorLayouts.value| >= 1
    modifies dev`objects
    ensures (a, dev.objects) ==
              ForwardCreation(b, old(dev.objects), framebufferCount, staticDescLayout, renderpass, vertexInput)
  {
    var cache := CreateIfNull(b.pipelineCache, dev, PipelineCacheObject);
    var sems, semCount := CreateArrayIfNull(b.semaphores, b.semaphoreCount, dev, 1, SemaphoreObject);
    var layouts, layoutCount := CreateArrayIfNull(b.descriptorLayouts, b.descriptorLayoutCount, dev, 1,
                                                  DescriptorSetLayoutObject(ForwardLayoutBindings));
    var pipelineLayout := CreateIfNull(b.pipelineLayout, dev,
                                       PipelineLayoutObject([staticDescLayout, layouts.value[0]], []));
    var pool := CreateIfNull(b.descriptorPool, dev, ForwardPoolObject(framebufferCount));
    var sets, setCount := CreateDescriptorSetsIfNull(b.descriptorSets, b.descriptorSetCount, dev, pool.value,
                                                     layouts.value[0], framebufferCount);
    var pipelines, pipelineCount := CreateArrayIfNull(b.pipelines, b.pipelineCount, dev, 1,
                                                      ForwardPipelineObject(pipelineLayout.value, renderpass,
                                                                            cache.value, vertexInput));
    a := HandleFields(cache, pipelineLayout, pool, sems, semCount, layouts, layoutCount, sets, setCount,
                      pipelines, pipelineCount);
  }

  /** The create-if-null rule of the forward stage over all its resources: for
      handle fields `b` before a call and `a` after it, every resource that was
      set is kept (with its count) and every null one is created, after the
      `first` objects, with the forward stage's creation info. */
  ghost predicate ForwardCreateIfNull(b: HandleFields, a: HandleFields, framebufferCount: nat,
                                      staticDescLayout: Handle, renderpass: Handle, vertexInput: nat,
                                      first: nat, objects: seq<ObjectInfo>)
  {
    KeptOrCreated(b.pipelineCache, a.pipelineCache, first, objects, PipelineCacheObject) &&
    ArrayKeptOrCreated(b.semaphores, b.semaphoreCount, a.semaphores, a.semaphoreCount, 1, first, objects, SemaphoreObject) &&
    a.descriptorLayouts.Some? && |a.descriptorLayouts.value| >= 1 &&
    ArrayKeptOrCreated(b.descriptorLayouts, b.descriptorLayoutCount, a.descriptorLayouts, a.descriptorLayoutCount,
                       1, first, objects, DescriptorSetLayoutObject(ForwardLayoutBindings)) &&
    KeptOrCreated(b.pipelineLayout, a.pipelineLayout, first, objects,
                  PipelineLayoutObject([staticDescLayout, a.descriptorLayouts.value[0]], [])) &&
    KeptOrCreated(b.descriptorPool, a.descriptorPool, first, objects, ForwardPoolObject(framebufferCount)) &&
    a.descriptorPool.Some? && a.pipelineLayout.Some? && a.pipelineCache.Some? &&
    ArrayKeptOrCreated(b.descriptorSets, b.descriptorSetCount, a.descriptorSets, a.descriptorSetCount,
                       DynamicDescriptorSetCount * framebufferCount, first, objects,
                       DescriptorSetObject(a.descriptorPool.value, a.descriptorLayouts.value[0])) &&
    ArrayKeptOrCreated(b.pipelines, b.pipelineCount, a.pipelines, a.pipelineCount, 1, first, objects,
                       ForwardPipelineObject(a.pipelineLayout.value, renderpass, a.pipelineCache.value, vertexInput))
  }

  /** `ForwardCreation` follows the create-if-null rule: whatever the device
      holds later, every handle it leaves was either set before or names an
      object it created with the forward stage's info. */
  lemma ForwardCreationKeepsOrCreates(b: HandleFields, before: seq<ObjectInfo>, framebufferCount: nat,
                                      staticDescLayout: Handle, renderpass: Handle, vertexInput: nat,
                                      first: nat, objects: seq<ObjectInfo>)
    requires b.descriptorLayouts.Some? ==> |b.descriptorLayouts.value| >= 1
    requires first <= |before|
    requires Prefix(ForwardCreation(b, before, framebufferCount, staticDescLayout, renderpass, vertexInput).1, objects)
    ensures ForwardCreateIfNull(b, ForwardCreation(b, before, framebufferCount, staticDescLayout, renderpass, vertexInput).0,
                                framebufferCount, staticDescLayout, renderpass, vertexInput, first, objects)
  {
    var a := ForwardCreation(b, before, framebufferCount, staticDescLayout, renderpass, vertexInput).0;
    var layoutInfo := DescriptorSetLayoutObject(ForwardLayoutBindings);
    var pipelineLayoutInfo := PipelineLayoutObject([staticDescLayout, a.descriptorLayouts.value[0]], []);
    var setCount := DynamicDescriptorSetCount * framebufferCount;
    var setInfo := DescriptorSetObject(a.descriptorPool.value, a.descriptorLayouts.value[0]);
    var pipelineInfo := ForwardPipelineObject(a.pipelineLayout.value, renderpass, a.pipelineCache.value, vertexInput);
    var o1 := before + IfNullObjects(b.pipelineCache, PipelineCacheObject);
    var o2 := o1 + ArrayIfNullObjects(b.semaphores, 1, SemaphoreObject);
    var o3 := o2 + ArrayIfNullObjects(b.descriptorLayouts, 1, layoutInfo);
    var o4 := o3 + IfNullObjects(b.pipelineLayout, pipelineLayoutInfo);
    var o5 := o4 + IfNullObjects(b.descriptorPool, ForwardPoolObject(framebufferCount));
    var o6 := o5 + ArrayIfNullObjects(b.descriptorSets, setCount, setInfo);
    PrefixAppend(o6, ArrayIfNullObjects(b.pipelines, 1, pipelineInfo), objects);
    PrefixAppend(o5, ArrayIfNullObjects(b.descriptorSets, setCount, setInfo), objects);
    PrefixAppend(o4, IfNullObjects(b.descriptorPool, ForwardPoolObject(framebufferCount)), objects);
    PrefixAppend(o3, IfNullObjects(b.pipelineLayout, pipelineLayoutInfo), objects);
    PrefixAppend(o2, ArrayIfNullObjects(b.descriptorLayouts, 1, layoutInfo), objects);
    PrefixAppend(o1, ArrayIfNullObjects(b.semaphores, 1, SemaphoreObject), objects);
    IfNullKeptOrCreated(b.pipelineCache, before, PipelineCacheObject, first, objects);
    ArrayIfNullKeptOrCreated(b.semaphores, b.semaphoreCount, 1, o1, SemaphoreObject, first, objects);
    ArrayIfNullKeptOrCreated(b.descriptorLayouts, b.descriptorLayoutCount, 1, o2, layoutInfo, first, objects);
    IfNullKeptOrCreated(b.pipelineLayout, o3, pipelineLayoutInfo, first, objects);
    IfNullKeptOrCreated(b.descriptorPool, o4, ForwardPoolObject(framebufferCount), first, objects);
    ArrayIfNullKeptOrCreated(b.descriptorSets, b.descriptorSetCount, setCount, o5, setInfo, first, objects);
    ArrayIfNullKeptOrCreated(b.pipelines, b.pipelineCount, 1, o6, pipelineInfo, first, objects);
  }

  /** Creation keeps every handle the stage owns below the device's object count. */
  lemma ForwardCreationBelow(b: HandleFields, before: seq<ObjectInfo>, framebufferCount: nat,
                             staticDescLayout: Handle, renderpass: Handle, vertexInput: nat)
    requires b.descriptorLayouts.Some? ==> |b.descriptorLayouts.value| >= 1
    requires OwnedBelow(b, |before|)
    ensures OwnedBelow(ForwardCreation(b, before, framebufferCount, staticDescLayout, renderpass, vertexInput).0,
                       |ForwardCreation(b, before, framebufferCount, staticDescLayout, renderpass, vertexInput).1|)
  {
  }

  /** A second call creates nothing: once every field is set, it keeps all of
      them, whatever the device holds and whatever framebuffer count, static
      layout, render pass and vertex layout it is given. In particular the
      dynamic sets stay sized for the framebuffer count of the first call. */
  lemma ForwardSecondCall(b: HandleFields, o: seq<ObjectInfo>, o': seq<ObjectInfo>, framebufferCount: nat,
                          framebufferCount': nat, staticDescLayout: Handle, staticDescLayout': Handle,
                          renderpass: Handle, renderpass': Handle, vertexInput: nat, vertexInput': nat)
    requires b.descriptorLayouts.Some? ==> |b.descriptorLayouts.value| >= 1
    ensures var a := ForwardCreation(b, o, framebufferCount, staticDescLayout, renderpass, vertexInput).0;
      ForwardCreation(a, o', framebufferCount', staticDescLayout', renderpass', vertexInput') == (a, o')
  {
    var a := ForwardCreation(b, o, framebufferCount, staticDescLayout, renderpass, vertexInput).0;
    var again := ForwardCreation(a, o', framebufferCount', staticDescLayout', renderpass', vertexInput');
    assert again.0 == a;
    assert again.1 == o';
    assert again == (again.0, again.1);
  }

  /** What creation leaves for recording: a pipeline, and sets covering every
      framebuffer's slots. */
  lemma ForwardCreationRecordable(b: HandleFields, before: seq<ObjectInfo>, framebufferCount: nat,
                                  staticDescLayout: Handle, renderpass: Handle, vertexInput: nat)
    requires b.descriptorLayouts.Some? ==> |b.descriptorLayouts.value| >= 1
    requires b.pipelines.Some? ==> |b.pipelines.value| >= 1
    requires b.descriptorSets.Some? ==> framebufferCount * DynamicDescriptorSetCount <= |b.descriptorSets.value|
    ensures |ForwardCreation(b, before, framebufferCount, staticDescLayout, renderpass, vertexInput).0.pipelines.value| >= 1
    ensures framebufferCount * DynamicDescriptorSetCount <=
            |ForwardCreation(b, before, framebufferCount, staticDescLayout, renderpass, vertexInput).0.descriptorSets.value|
  {
  }

  /** The first half of creation: queries anew, every other handle only where
      its field is null, framebuffers, uniform data and render pass cleared. */
  method CreateForwardResources(rs: RenderState, dev: Device, framebufferCount: nat,
                                staticDescLayout: Handle, renderpass: Handle, vertexInput: nat)
    requires rs.handles.descriptorLayouts.Some? ==> |rs.handles.descriptorLayouts.value| >= 1
    modifies rs`queryCount, rs`queryResults, rs`queryPool, rs`handles
    modifies rs`framebufferCount, rs`framebuffers, rs`uniformDataCount, rs`uniformData, rs`renderpass, dev`objects
    ensures rs.queryCount == TimestampQueryCount && rs.queryResults == Some(ZeroQueryResults)
    ensures rs.queryPool == Some(|old(dev.objects)|)
    ensures rs.handles == ForwardCreation(old(rs.handles), old(dev.objects) + [QueryPoolObject(TimestampQueryCount)],
                                          framebufferCount, staticDescLayout, renderpass, vertexInput).0
    ensures dev.objects == ForwardCreation(old(rs.handles), old(dev.objects) + [QueryPoolObject(TimestampQueryCount)],
                                           framebufferCount, staticDescLayout, renderpass, vertexInput).1
    ensures rs.framebufferCount == 0 && rs.framebuffers == None
    ensures rs.uniformDataCount == 0 && rs.uniformData == None && rs.renderpass == None
  {
    var queryPool := dev.Create(QueryPoolObject(TimestampQueryCount));
    var a := CreateForwardHandles(rs.handles, dev, framebufferCount, staticDescLayout, renderpass, vertexInput);
    rs.ResetPerCall(queryPool);
    rs.renderpass := None;
    rs.handles := a;
  }

  /** The second half of creation: stores the parameter block and records one
      buffer per framebuffer through it. */
  method InstallForwardRecorder(rs: RenderState, dev: Device, framebuffers: seq<Handle>, commandPool: Handle,
                                swapchain: Extent2D, staticDescriptorSet: Handle, meshes: seq<Mesh>,
                                renderpass: Handle)
    requires Recordable(rs)
    requires |framebuffers| * DynamicDescriptorSetCount <= |rs.handles.descriptorSets.value|
    requires OwnedBelow(rs.handles, |dev.objects|) && Below(rs.queryPool, |dev.objects|)
    requires Counted(rs.queryResults, rs.queryCount) && Counted(rs.framebuffers, rs.framebufferCount)
    requires Counted(rs.uniformData, rs.uniformDataCount)
    requires SubmeshTotal(meshes) <= DynamicDescriptorSetCount
    modifies rs`cmdBufferParameters, rs`commandBufferCount, rs`commandBuffers, dev`objects, dev`updates
    ensures rs.Valid(dev)
    ensures rs.cmdBufferParameters == Some(ForwardParameters(renderpass, meshes, staticDescriptorSet))
    ensures Fits(RecordingOf(rs, rs.cmdBufferParameters.value, swapchain), |framebuffers|)
    ensures rs.commandBufferCount == |framebuffers| && |framebuffers| <= |dev.objects|
    ensures rs.commandBuffers ==
              ForwardBuffers(RecordingOf(rs, rs.cmdBufferParameters.value, swapchain),
                             |dev.objects| - |framebuffers|, framebuffers)
    ensures dev.objects == old(dev.objects) + Repeat(CommandBufferObject(commandPool), |framebuffers|)
    ensures dev.updates == old(dev.updates) +
              ForwardUpdates(RecordingOf(rs, rs.cmdBufferParameters.value, swapchain), |framebuffers|)
  {
    rs.cmdBufferParameters := Some(ForwardParameters(renderpass, meshes, staticDescriptorSet));
    BuildCommandBufferForwardRenderState(rs, commandPool, dev, swapchain, framebuffers, rs.cmdBufferParameters.value);
  }

  /** Fills the stage for forward shading: a new query pool, every other
      resource only where its field is null (as `ForwardCreation` of the old
      fields), the per-call fields cleared, then the parameter block stored
      and one buffer per framebuffer recorded through it. */
  method CreateForwardRenderState(rs: RenderState, dev: Device, framebuffers: seq<Handle>, commandPool: Handle,
                                  swapchain: Extent2D, staticDescriptorSet: Handle, vertexInput: nat,
                                  meshes: seq<Mesh>, renderpass: Handle, staticDescLayout: Handle)
    requires rs.Valid(dev)
    requires rs.handles.descriptorLayouts.Some? ==> |rs.handles.descriptorLayouts.value| >= 1
    requires rs.handles.pipelines.Some? ==> |rs.handles.pipelines.value| >= 1
    requires rs.handles.descriptorSets.Some? ==> |framebuffers| * DynamicDescriptorSetCount <= |rs.handles.descriptorSets.value|
    requires SubmeshTotal(meshes) <= DynamicDescriptorSetCount
    modifies rs`queryCount, rs`queryResults, rs`queryPool, rs`handles
    modifies rs`framebufferCount, rs`framebuffers, rs`uniformDataCount, rs`uniformData, rs`renderpass
    modifies rs`cmdBufferParameters, rs`commandBufferCount, rs`commandBuffers, dev`objects, dev`updates
    ensures rs.Valid(dev)
    // queries: recreated on every call
    ensures rs.queryCount == TimestampQueryCount && rs.queryResults == Some(ZeroQueryResults)
    ensures rs.queryPool == Some(|old(dev.objects)|)
    // every other resource: kept when set, created when null
    ensures rs.handles == ForwardCreation(old(rs.handles), old(dev.objects) + [QueryPoolObject(TimestampQueryCount)],
                                          |framebuffers|, staticDescLayout, renderpass, vertexInput).0
    // cleared on every call
    ensures rs.framebufferCount == 0 && rs.framebuffers == None
    ensures rs.uniformDataCount == 0 && rs.uniformData == None && rs.renderpass == None
    // the stored parameter block and the buffers recorded through it
    ensures rs.cmdBufferParameters == Some(ForwardParameters(renderpass, meshes, staticDescriptorSet))
    ensures Recordable(rs) && Fits(RecordingOf(rs, rs.cmdBufferParameters.value, swapchain), |framebuffers|)
    ensures rs.commandBufferCount == |framebuffers| && |framebuffers| <= |dev.objects|
    ensures rs.commandBuffers ==
              ForwardBuffers(RecordingOf(rs, rs.cmdBufferParameters.value, swapchain),
                             |dev.objects| - |framebuffers|, framebuffers)
    // the objects created: query pool, the null resources, one buffer per framebuffer
    ensures dev.objects ==
              ForwardCreation(old(rs.handles), old(dev.objects) + [QueryPoolObject(TimestampQueryCount)],
                              |framebuffers|, staticDescLayout, renderpass, vertexInput).1 +
              Repeat(CommandBufferObject(commandPool), |framebuffers|)
    ensures dev.updates == old(dev.updates) +
              ForwardUpdates(RecordingOf(rs, rs.cmdBufferParameters.value, swapchain), |framebuffers|)
  {
    ghost var b := rs.handles;
    ghost var before := dev.objects + [QueryPoolObject(TimestampQueryCount)];
    CreateForwardResources(rs, dev, |framebuffers|, staticDescLayout, renderpass, vertexInput);
    ForwardCreationBelow(b, before, |framebuffers|, staticDescLayout, renderpass, vertexInput);
    ForwardCreationRecordable(b, before, |framebuffers|, staticDescLayout, renderpass, vertexInput);
    InstallForwardRecorder(rs, dev, framebuffers, commandPool, swapchain, staticDescriptorSet, meshes, renderpass);
  }

  /** What `CreateForwardRenderState` leaves, read back through the
      create-if-null rule: the query pool is new, every other resource that was
      set is kept and every null one names an object created in this call with
      the forward stage's info, and the command buffers are new, distinct
      objects of the command pool. */
  lemma ForwardCreateRule(b: HandleFields, before: seq<ObjectInfo>, framebuffers: seq<Handle>, commandPool: Handle,
                          staticDescLayout: Handle, renderpass: Handle, vertexInput: nat,
                          buffers: seq<CommandBuffer>, objects: seq<ObjectInfo>)
    requires b.descriptorLayouts.Some? ==> |b.descriptorLayouts.value| >= 1
    requires objects ==
               ForwardCreation(b, before + [QueryPoolObject(TimestampQueryCount)], |framebuffers|,
                               staticDescLayout, renderpass, vertexInput).1 +
               Repeat(CommandBufferObject(commandPool), |framebuffers|)
    requires |buffers| == |framebuffers| <= |objects|
    requires forall i :: 0 <= i < |buffers| ==> buffers[i].handle == |objects| - |framebuffers| + i
    ensures Prefix(before, objects)
    ensures Created(Some(|before|), |before|, objects, QueryPoolObject(TimestampQueryCount))
    ensures ForwardCreateIfNull(b, ForwardCreation(b, before + [QueryPoolObject(TimestampQueryCount)], |framebuffers|,
                                                   staticDescLayout, renderpass, vertexInput).0,
                                |framebuffers|, staticDescLayout, renderpass, vertexInput, |before|, objects)
    ensures CreatedRun(HandlesOf(buffers), |before|, objects, CommandBufferObject(commandPool))
  {
    var prefix := before + [QueryPoolObject(TimestampQueryCount)];
    var created := ForwardCreation(b, prefix, |framebuffers|, staticDescLayout, renderpass, vertexInput).1;
    var run := Repeat(CommandBufferObject(commandPool), |framebuffers|);
    assert Prefix(created, objects) by { assert objects[..|created|] == created; }
    ForwardCreationKeepsOrCreates(b, prefix, |framebuffers|, staticDescLayout, renderpass, vertexInput, |before|, objects);
    assert Prefix(prefix, created) by { assert created[..|prefix|] == prefix; }
    PrefixTrans(prefix, created, objects);
    PrefixAppend(before, [QueryPoolObject(TimestampQueryCount)], objects);
    PrefixIndex(prefix, objects, |before|);
    forall k | 0 <= k < |buffers|
      ensures |before| <= buffers[k].handle < |objects| && objects[buffers[k].handle] == CommandBufferObject(commandPool)
    {
      assert objects[buffers[k].handle] == run[k];
    }
  }

}
