/** What recordCommands (VulkanRenderer.cpp:994-1071) writes into the
    command buffer of one swapchain image, as a sequence of abstract
    commands: the render pass is begun, the pipeline bound, then one group
    of five commands per registered mesh in the order std::map visits the
    mesh ids (ascending), and the render pass ended. */
module Commands {
  import opened Common
  import opened Geometry
  import opened VkMeshes
  import opened Keys

  /** sizeof(glm::mat4): the size of the push-constant range. */
  const MAT4_SIZE: int := 64
  /** The vertexOffset every draw passes (VulkanRenderer.cpp:1057). */
  const DRAW_VERTEX_OFFSET: int := -1
  /** The commands recorded for one mesh. */
  const GROUP_SIZE: nat := 5

  datatype IndexType = IndexUint16 | IndexUint32
  datatype ShaderStage = VertexStage | FragmentStage

  /** A descriptor set named by the table it comes from and its index:
      vkDescriptorSets[image] or vkSamplerDescriptorSets[index]. */
  datatype DescriptorRef = UniformSet(image: int) | SamplerSet(index: int)

  datatype Command =
    | BeginRenderPass(framebufferImage: int)
    | BindPipeline
    | BindVertexBuffers(firstBinding: int, buffers: seq<Handle>, offsets: seq<int>)
    | BindIndexBuffer(buffer: Handle, offset: int, indexType: IndexType)
    | PushConstants(stage: ShaderStage, offset: int, size: int, transform: Mat4)
    | BindDescriptorSets(firstSet: int, sets: seq<DescriptorRef>)
    | DrawIndexed(indexCount: int, instanceCount: int, firstIndex: int, vertexOffset: int, firstInstance: int)
    | EndRenderPass

  /** The five commands one loop iteration records for mesh `m`
      (VulkanRenderer.cpp:1032-1057). */
  function MeshGroup(image: int, m: MeshState): (g: seq<Command>)
    ensures |g| == GROUP_SIZE
  {
    [ BindVertexBuffers(0, [m.vertexBuffer], [0]),
      BindIndexBuffer(m.indexBuffer, 0, IndexUint32),
      PushConstants(VertexStage, 0, MAT4_SIZE, m.transform),
      BindDescriptorSets(0, [UniformSet(image), SamplerSet(m.textureIndex)]),
      DrawIndexed(ToU32(m.indexCount), 1, 0, DRAW_VERTEX_OFFSET, 0) ]
  }

  /** Every key of `keys` is registered in `entries`. */
  predicate KeysIn(keys: seq<int>, entries: map<int, MeshState>)
  {
    forall i :: 0 <= i < |keys| ==> keys[i] in entries
  }

  /** The ascending key sequence of a registry lists registered ids only,
      one per entry. */
  lemma SortedKeysIn(entries: map<int, MeshState>)
    ensures KeysIn(SortedKeys(entries.Keys), entries)
    ensures |SortedKeys(entries.Keys)| == |entries|
  {
    var keys := SortedKeys(entries.Keys);
    forall i | 0 <= i < |keys| ensures keys[i] in entries {
      assert keys[i] in keys;
    }
  }

  /** The groups for the meshes under `keys`, in that order. */
  function Groups(image: int, entries: map<int, MeshState>, keys: seq<int>): seq<Command>
    requires KeysIn(keys, entries)
  {
    if keys == [] then []
    else MeshGroup(image, entries[keys[0]]) + Groups(image, entries, keys[1..])
  }

  /** The whole command buffer recorded for swapchain image `image` from
      the registry contents `entries`. */
  ghost function Recorded(image: int, entries: map<int, MeshState>): seq<Command>
  {
    Framed(image, Groups(image, entries, SortedKeys(entries.Keys)))
  }

  /** The commands around the mesh loop: begin the render pass on image
      `image`'s framebuffer and bind the pipeline before `groups`, end the
      render pass after them. */
  function Framed(image: int, groups: seq<Command>): seq<Command>
  {
    [BeginRenderPass(image), BindPipeline] + groups + [EndRenderPass]
  }

  /** The framing adds three commands and moves the groups two places
      along. */
  lemma FramedShape(image: int, groups: seq<Command>, lo: nat, hi: nat)
    requires lo <= hi <= |groups|
    ensures |Framed(image, groups)| == |groups| + 3
    ensures Framed(image, groups)[0] == BeginRenderPass(image)
    ensures Framed(image, groups)[1] == BindPipeline
    ensures Framed(image, groups)[|groups| + 2] == EndRenderPass
    ensures Framed(image, groups)[2 + lo .. 2 + hi] == groups[lo .. hi]
  {
    var head := [BeginRenderPass(image), BindPipeline];
    var cmds := Framed(image, groups);
    forall j | lo <= j < hi
      ensures cmds[2 + j] == groups[j]
    {
      assert cmds[|head| + j] == (head + groups)[|head| + j];
    }
  }

  lemma {:induction false} GroupsAppend(image: int, entries: map<int, MeshState>, keys: seq<int>, k: int)
    requires KeysIn(keys, entries)
    requires k in entries
    ensures Groups(image, entries, keys + [k]) == Groups(image, entries, keys) + MeshGroup(image, entries[k])
  {
    if keys == [] {
      assert keys + [k] == [k];
    } else {
      assert (keys + [k])[1..] == keys[1..] + [k];
      GroupsAppend(image, entries, keys[1..], k);
    }
  }

  /** Recording the next key's group extends the groups of the keys
      visited so far. */
  lemma GroupsPrefixStep(image: int, entries: map<int, MeshState>, keys: seq<int>, n: nat)
    requires KeysIn(keys, entries)
    requires n < |keys|
    ensures KeysIn(keys[..n], entries) && KeysIn(keys[..n + 1], entries)
    ensures Groups(image, entries, keys[..n + 1])
      == Groups(image, entries, keys[..n]) + MeshGroup(image, entries[keys[n]])
  {
    assert keys[..n + 1] == keys[..n] + [keys[n]];
    GroupsAppend(image, entries, keys[..n], keys[n]);
  }

  /** Group `i` occupies positions 5i to 5i+4 and is the group of the i-th
      key's mesh. */
  lemma {:induction false} GroupsAt(image: int, entries: map<int, MeshState>, keys: seq<int>, i: nat)
    requires KeysIn(keys, entries)
    requires i < |keys|
    ensures |Groups(image, entries, keys)| == GROUP_SIZE * |keys|
    ensures Groups(image, entries, keys)[GROUP_SIZE * i .. GROUP_SIZE * i + GROUP_SIZE]
      == MeshGroup(image, entries[keys[i]])
  {
    GroupsLength(image, entries, keys[1..]);
    if i > 0 {
      GroupsAt(image, entries, keys[1..], i - 1);
    }
  }

  lemma {:induction false} GroupsLength(image: int, entries: map<int, MeshState>, keys: seq<int>)
    requires KeysIn(keys, entries)
    ensures |Groups(image, entries, keys)| == GROUP_SIZE * |keys|
  {
    if keys != [] {
      GroupsLength(image, entries, keys[1..]);
    }
  }

  /** The recorded buffer has 3 + 5n commands for n meshes: it begins the
      render pass on image `image`'s framebuffer, binds the pipeline, holds
      the group of the mesh with the i-th smallest id at positions 2+5i to
      6+5i, and ends the render pass. */
  lemma RecordedShape(image: int, entries: map<int, MeshState>, i: nat)
    requires i < |entries|
    ensures |Recorded(image, entries)| == 3 + GROUP_SIZE * |entries|
    ensures Recorded(image, entries)[0] == BeginRenderPass(image)
    ensures Recorded(image, entries)[1] == BindPipeline
    ensures Recorded(image, entries)[|Recorded(image, entries)| - 1] == EndRenderPass
    ensures SortedKeys(entries.Keys)[i] in entries
    ensures Recorded(image, entries)[2 + GROUP_SIZE * i .. 2 + GROUP_SIZE * i + GROUP_SIZE]
      == MeshGroup(image, entries[SortedKeys(entries.Keys)[i]])
  {
    var keys := SortedKeys(entries.Keys);
    SortedKeysIn(entries);
    FramedGroupsShape(image, entries, keys, i);
  }

  /** RecordedShape for the keys visited in any order `keys`. */
  lemma FramedGroupsShape(image: int, entries: map<int, MeshState>, keys: seq<int>, i: nat)
    requires KeysIn(keys, entries)
    requires i < |keys|
    ensures |Framed(image, Groups(image, entries, keys))| == 3 + GROUP_SIZE * |keys|
    ensures Framed(image, Groups(image, entries, keys))[0] == BeginRenderPass(image)
    ensures Framed(image, Groups(image, entries, keys))[1] == BindPipeline
    ensures Framed(image, Groups(image, entries, keys))[2 + GROUP_SIZE * |keys|] == EndRenderPass
    ensures Framed(image, Groups(image, entries, keys))[2 + GROUP_SIZE * i .. 2 + GROUP_SIZE * i + GROUP_SIZE]
      == MeshGroup(image, entries[keys[i]])
  {
    var groups := Groups(image, entries, keys);
    GroupsAt(image, entries, keys, i);
    FramedShape(image, groups, GROUP_SIZE * i, GROUP_SIZE * i + GROUP_SIZE);
  }

  /** The number of draw commands in a command sequence. */
  function DrawCount(cmds: seq<Command>): nat
  {
    if cmds == [] then 0
    else (if cmds[0].DrawIndexed? then 1 else 0) + DrawCount(cmds[1..])
  }

  lemma {:induction false} DrawCountAppend(a: seq<Command>, b: seq<Command>)
    ensures DrawCount(a + b) == DrawCount(a) + DrawCount(b)
  {
    if a != [] {
      assert (a + b)[0] == a[0];
      assert (a + b)[1..] == a[1..] + b;
      DrawCountAppend(a[1..], b);
    } else {
      assert a + b == b;
    }
  }

  lemma {:induction false} GroupsDrawCount(image: int, entries: map<int, MeshState>, keys: seq<int>)
    requires KeysIn(keys, entries)
    ensures DrawCount(Groups(image, entries, keys)) == |keys|
  {
    if keys != [] {
      var g := MeshGroup(image, entries[keys[0]]);
      GroupsDrawCount(image, entries, keys[1..]);
      DrawCountAppend(g, Groups(image, entries, keys[1..]));
      assert g == [g[0]] + [g[1]] + [g[2]] + [g[3]] + [g[4]];
      DrawCountAppend([g[0]] + [g[1]] + [g[2]] + [g[3]], [g[4]]);
      DrawCountAppend([g[0]] + [g[1]] + [g[2]], [g[3]]);
      DrawCountAppend([g[0]] + [g[1]], [g[2]]);
      DrawCountAppend([g[0]], [g[1]]);
    }
  }

  /** Exactly one indexed draw is recorded per registered mesh. */
  lemma RecordedDrawCount(image: int, entries: map<int, MeshState>)
    ensures DrawCount(Recorded(image, entries)) == |entries|
  {
    var keys := SortedKeys(entries.Keys);
    var groups := Groups(image, entries, keys);
    GroupsDrawCount(image, entries, keys);
    DrawCountAppend([BeginRenderPass(image), BindPipeline], groups);
    DrawCountAppend([BeginRenderPass(image), BindPipeline] + groups, [EndRenderPass]);
  }

  /** Every sampler descriptor set the commands bind is an index into a
      table of `n` sets. */
  predicate SamplerRefsInRange(cmds: seq<Command>, n: int)
  {
    forall i :: 0 <= i < |cmds| && cmds[i].BindDescriptorSets? ==>
      forall d :: d in cmds[i].sets && d.SamplerSet? ==> 0 <= d.index < n
  }

  lemma SamplerRefsAppend(a: seq<Command>, b: seq<Command>, n: int)
    ensures SamplerRefsInRange(a + b, n) <==> SamplerRefsInRange(a, n) && SamplerRefsInRange(b, n)
  {
    if SamplerRefsInRange(a + b, n) {
      forall i | 0 <= i < |a| ensures (a + b)[i] == a[i] { }
      forall i | 0 <= i < |b| ensures (a + b)[|a| + i] == b[i] { }
    }
    if SamplerRefsInRange(a, n) && SamplerRefsInRange(b, n) {
      forall i | 0 <= i < |a + b| ensures (a + b)[i] == if i < |a| then a[i] else b[i - |a|] { }
    }
  }

  lemma {:induction false} GroupsSamplerRefs(image: int, entries: map<int, MeshState>, keys: seq<int>, n: int)
    requires KeysIn(keys, entries)
    ensures SamplerRefsInRange(Groups(image, entries, keys), n)
      <==> forall x :: x in keys ==> 0 <= entries[x].textureIndex < n
  {
    if keys != [] {
      var g := MeshGroup(image, entries[keys[0]]);
      var rest := Groups(image, entries, keys[1..]);
      GroupsSamplerRefs(image, entries, keys[1..], n);
      assert SamplerRefsInRange(g, n) <==> 0 <= entries[keys[0]].textureIndex < n by {
        assert g[3].sets[1] == SamplerSet(entries[keys[0]].textureIndex);
      }
      SamplerRefsAppend(g, rest, n);
      assert forall x :: x in keys <==> x == keys[0] || x in keys[1..];
    }
  }

  /** The sampler sets recorded are all valid indices into a table of `n`
      sampler descriptor sets exactly when every registered mesh's texture
      index is. A mesh added without a texture has texture index -1, so any
      registry holding one makes recordCommands read
      vkSamplerDescriptorSets[-1], outside the table. */
  lemma RecordedSamplerRefs(image: int, entries: map<int, MeshState>, n: int)
    ensures SamplerRefsInRange(Recorded(image, entries), n)
      <==> forall id :: id in entries ==> 0 <= entries[id].textureIndex < n
    ensures (exists id :: id in entries && entries[id].textureIndex == -1) ==>
      !SamplerRefsInRange(Recorded(image, entries), n)
  {
    var keys := SortedKeys(entries.Keys);
    SortedKeysIn(entries);
    GroupsSamplerRefs(image, entries, keys, n);
    FramedSamplerRefs(image, Groups(image, entries, keys), n);
  }

  /** The framing commands bind no descriptor set. */
  lemma FramedSamplerRefs(image: int, groups: seq<Command>, n: int)
    ensures SamplerRefsInRange(Framed(image, groups), n) <==> SamplerRefsInRange(groups, n)
  {
    var head := [BeginRenderPass(image), BindPipeline];
    SamplerRefsAppend(head + groups, [EndRenderPass], n);
    SamplerRefsAppend(head, groups, n);
    assert SamplerRefsInRange(head, n) && SamplerRefsInRange([EndRenderPass], n);
  }

}
