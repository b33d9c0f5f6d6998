/** The bookkeeping of VulkanRenderer (VulkanRenderer.h, VulkanRenderer.cpp):
    the registry of meshes to render keyed by mesh id, the append-only
    texture tables, the per-image command buffers, the ring of frame slots
    with their semaphores and fences, and the teardown of what the
    renderer owns. The one-time Vulkan bootstrap is represented only by the
    objects the modelled operations use. */
module Renderer {
  import opened Common
  import opened Geometry
  import opened Gpu
  import opened VkMeshes
  import opened Commands
  import opened Keys

  /** MAX_FRAME_DRAWS (VulkanRenderer.h:34): frames that may be in flight. */
  const MAX_FRAME_DRAWS: nat := 2
  /** MAX_OBJECTS (VulkanRenderer.h:35): sampler descriptors the pool holds. */
  const MAX_OBJECTS: nat := 100
  /** The texture index an untextured mesh is created with
      (VulkanRenderer.cpp:1193). */
  const UNTEXTURED: int := -1

  /** The descriptor pool's maxSets (VulkanRenderer.cpp:855): one uniform
      set per swapchain image plus MAX_OBJECTS sampler sets, as uint32_t. */
  function DescriptorPoolMaxSets(swapchainImageCount: nat): (r: int)
    ensures swapchainImageCount + MAX_OBJECTS <= U32_MAX ==> r == swapchainImageCount + MAX_OBJECTS
    ensures 0 <= r <= U32_MAX
  {
    ToU32(swapchainImageCount + MAX_OBJECTS)
  }

  /** The values currentFrame takes: one of the MAX_FRAME_DRAWS slots. */
  type FrameSlot = f: int | 0 <= f < MAX_FRAME_DRAWS

  /** The frame slot after `frame` (VulkanRenderer.cpp:1171). */
  function NextFrame(frame: int): int
  {
    (frame + 1) % MAX_FRAME_DRAWS
  }

  /** The slot used by the n-th successful draw when the first one used
      slot `start`. */
  function SlotAfter(start: int, n: nat): int
  {
    if n == 0 then start else NextFrame(SlotAfter(start, n - 1))
  }

  /** Starting from currentFrame = 0 (VulkanRenderer.h:54), the n-th draw
      uses slot n mod 2: the slots alternate and every slot comes back after
      MAX_FRAME_DRAWS draws. */
  lemma {:induction false} SlotRing(n: nat)
    ensures SlotAfter(0, n) == n % MAX_FRAME_DRAWS
    ensures 0 <= SlotAfter(0, n) < MAX_FRAME_DRAWS
    ensures SlotAfter(0, n + 1) != SlotAfter(0, n)
    ensures SlotAfter(0, n + MAX_FRAME_DRAWS) == SlotAfter(0, n)
  {
    if n > 0 {
      SlotRing(n - 1);
    }
    assert SlotAfter(0, n + 1) == NextFrame(SlotAfter(0, n));
    assert SlotAfter(0, n + 2) == NextFrame(SlotAfter(0, n + 1));
  }

  /** Vertex i of an added mesh: position i, the given colour, a zero
      normal and texture coordinate i (VulkanRenderer.cpp:1184-1191 with
      `color`, 1212-1218 with the zero colour). */
  method BuildVertices(positions: seq<Vec3>, texCoords: seq<Vec2>, color: Vec3) returns (vertices: seq<Vertex>)
    requires |texCoords| >= |positions|
    ensures |vertices| == |positions|
    ensures forall i :: 0 <= i < |positions| ==>
      vertices[i] == Vertex(positions[i], color, ZERO3, texCoords[i])
  {
    vertices := [];
    var i := 0;
    while i < |positions|
      invariant 0 <= i <= |positions|
      invariant |vertices| == i
      invariant forall j :: 0 <= j < i ==> vertices[j] == Vertex(positions[j], color, ZERO3, texCoords[j])
    {
      var vertex := Vertex(ZERO3, ZERO3, ZERO3, Vec2(0.0, 0.0));
      vertex := vertex.(pos := positions[i]);
      vertex := vertex.(color := color);
      vertex := vertex.(uv := texCoords[i]);
      vertices := vertices + [vertex];
      i := i + 1;
    }
  }

  /** What stb_image reports for a texture file: the file could not be
      loaded, or its width and height in pixels. */
  datatype TextureFile = Unreadable | Loaded(width: nat, height: nat)

  /** The byte size of an RGBA image (VulkanRenderer.cpp:1705). */
  function ImageByteSize(width: nat, height: nat): nat
  {
    width * height * 4
  }

  /** What the device calls inside one draw report. `imageIndex` is the
      swapchain image vkAcquireNextImageKHR hands back. */
  datatype DrawOutcomes = DrawOutcomes(
    imageIndex: int,
    beginOk: bool,
    endOk: bool,
    submitOk: bool,
    presentOk: bool)

  /** The device calls draw makes, with the sync objects and the image they
      name. */
  datatype DrawCall =
    | WaitForFence(fence: Handle)
    | ResetFence(fence: Handle)
    | AcquireNextImage(signalSemaphore: Handle, image: int)
    | UpdateUniformBuffers(image: int)
    | QueueSubmit(waitSemaphore: Handle, commandBufferImage: int, signalSemaphore: Handle, fence: Handle)
    | QueuePresent(waitSemaphore: Handle, image: int)

  /** How a call to draw ends: the image was presented, a
      std::runtime_error was thrown, or the wait on the slot's fence never
      returns because nothing will signal it. */
  datatype DrawResult = Presented | Threw(message: string) | Blocked

  /** The device calls of one draw on the slot whose fence and semaphores
      are given; `fenceSignalled` says whether that fence will be
      signalled. */
  function DrawCalls(fence: Handle, imageAvailable: Handle, renderFinished: Handle,
                     fenceSignalled: bool, o: DrawOutcomes): seq<DrawCall>
  {
    var waited := [WaitForFence(fence)];
    if !fenceSignalled then waited
    else
      var acquired := waited + [ResetFence(fence)] + [AcquireNextImage(imageAvailable, o.imageIndex)];
      if !(o.beginOk && o.endOk) then acquired
      else
        var submitted := acquired + [UpdateUniformBuffers(o.imageIndex)]
          + [QueueSubmit(imageAvailable, o.imageIndex, renderFinished, fence)];
        if !o.submitOk then submitted else submitted + [QueuePresent(renderFinished, o.imageIndex)]
  }

  /** Every call of a draw names the slot's own fence and semaphores and the
      acquired image: the acquire signals the semaphore the submit waits
      on, the submit signals the semaphore the present waits on and the
      fence the next draw on this slot waits for, and the command buffer
      submitted is the acquired image's. A present happens only after a
      submit, and the fence is waited on before it is reset. */
  lemma DrawCallsUseOneSlot(fence: Handle, imageAvailable: Handle, renderFinished: Handle,
                            fenceSignalled: bool, o: DrawOutcomes)
    ensures var calls := DrawCalls(fence, imageAvailable, renderFinished, fenceSignalled, o);
      && calls[0] == WaitForFence(fence)
      && (forall c :: c in calls && c.WaitForFence? ==> c.fence == fence)
      && (forall c :: c in calls && c.ResetFence? ==> c.fence == fence)
      && (forall c :: c in calls && c.AcquireNextImage? ==>
            c.signalSemaphore == imageAvailable && c.image == o.imageIndex)
      && (forall c :: c in calls && c.QueueSubmit? ==>
            c == QueueSubmit(imageAvailable, o.imageIndex, renderFinished, fence))
      && (forall c :: c in calls && c.QueuePresent? ==> c == QueuePresent(renderFinished, o.imageIndex))
      && (|calls| > 1 <==> fenceSignalled)
      && (QueuePresent(renderFinished, o.imageIndex) in calls <==> fenceSignalled && o.beginOk && o.endOk && o.submitOk)
      && (QueueSubmit(imageAvailable, o.imageIndex, renderFinished, fence) in calls <==> fenceSignalled && o.beginOk && o.endOk)
  {
  }

  /** The messages recordCommands and draw throw
      (VulkanRenderer.cpp:1020, 1069, 1152, 1167). */
  const BEGIN_FAILURE: string := "Failed to start recording a command buffer."
  const END_FAILURE: string := "Failed to stop recording a command buffer."
  const SUBMIT_FAILURE: string := "Failed to submit Comand buffer to Graphics Queue."
  const PRESENT_FAILURE: string := "Failed to present image."

  /** How a draw ends on a slot whose fence is (`fenceSignalled`) or is not
      going to be signalled. */
  function DrawResultOf(fenceSignalled: bool, o: DrawOutcomes): DrawResult
  {
    if !fenceSignalled then Blocked
    else if !o.beginOk then Threw(BEGIN_FAILURE)
    else if !o.endOk then Threw(END_FAILURE)
    else if !o.submitOk then Threw(SUBMIT_FAILURE)
    else if !o.presentOk then Threw(PRESENT_FAILURE)
    else Presented
  }

  /** Whether the slot's fence is going to be signalled after the draw:
      draw resets it, and only a successful submit arranges for it to be
      signalled again. */
  function FenceAfter(fenceSignalled: bool, o: DrawOutcomes): bool
  {
    fenceSignalled && o.beginOk && o.endOk && o.submitOk
  }

  /** After a draw, the slot's fence is signalled again exactly when the
      draw got as far as the submit. A draw that throws before its submit
      leaves currentFrame where it was and the slot's fence unsignalled, so
      the next draw waits on that fence for ever; a draw that fails only at
      the present does not block the next one. A presented draw always
      leaves its fence to be signalled. */
  lemma FailedDrawBlocksNextDraw(first: DrawOutcomes, next: DrawOutcomes)
    ensures DrawResultOf(true, first) == Presented ==> FenceAfter(true, first)
    ensures DrawResultOf(true, first).Threw? ==>
      ((DrawResultOf(FenceAfter(true, first), next) == Blocked)
        <==> !(first.beginOk && first.endOk && first.submitOk))
    ensures FenceAfter(true, first) ==> DrawResultOf(FenceAfter(true, first), next) != Blocked
  {
  }

  /** All release calls cleanup makes for the registered meshes, visited
      in the order of `keys`. */
  function MeshReleases(entries: map<int, MeshState>, keys: seq<int>): seq<Handle>
    requires KeysIn(keys, entries)
  {
    if keys == [] then [] else entries[keys[0]].ReleaseOrder() + MeshReleases(entries, keys[1..])
  }

  lemma {:induction false} MeshReleasesAppend(entries: map<int, MeshState>, keys: seq<int>, k: int)
    requires KeysIn(keys, entries)
    requires k in entries
    ensures KeysIn(keys + [k], entries)
    ensures MeshReleases(entries, keys + [k]) == MeshReleases(entries, keys) + entries[k].ReleaseOrder()
  {
    if keys == [] {
      assert keys + [k] == [k];
    } else {
      assert (keys + [k])[1..] == keys[1..] + [k];
      MeshReleasesAppend(entries, keys[1..], k);
    }
  }

  /** The release calls of cleanup's texture loop (VulkanRenderer.cpp:57-62):
      for each texture, its view, its image and its memory. */
  function TextureReleases(views: seq<Handle>, images: seq<Handle>, memory: seq<Handle>): seq<Handle>
    requires |views| == |images| == |memory|
  {
    if images == [] then []
    else [views[0], images[0], memory[0]] + TextureReleases(views[1..], images[1..], memory[1..])
  }

  lemma {:induction false} TextureReleasesAppend(views: seq<Handle>, images: seq<Handle>, memory: seq<Handle>, i: nat)
    requires |views| == |images| == |memory|
    requires i < |images|
    ensures TextureReleases(views[..i + 1], images[..i + 1], memory[..i + 1])
      == TextureReleases(views[..i], images[..i], memory[..i]) + [views[i], images[i], memory[i]]
    decreases i
  {
    if i > 0 {
      TextureReleasesAppend(views[1..], images[1..], memory[1..], i - 1);
      assert views[1..][..i] == views[..i + 1][1..] && views[1..][..i - 1] == views[..i][1..];
      assert images[1..][..i] == images[..i + 1][1..] && images[1..][..i - 1] == images[..i][1..];
      assert memory[1..][..i] == memory[..i + 1][1..] && memory[1..][..i - 1] == memory[..i][1..];
    } else {
      assert views[..0] == [] && images[..0] == [] && memory[..0] == [];
      assert images[..1][1..] == [];
    }
  }

  /** The release calls of cleanup's sync-object loop
      (VulkanRenderer.cpp:89-94): for each slot, its render-finished
      semaphore, its image-available semaphore and its fence. */
  function SyncReleases(renderFinished: seq<Handle>, imageAvailable: seq<Handle>, fences: seq<Handle>): seq<Handle>
    requires |renderFinished| == |imageAvailable| == |fences|
  {
    if fences == [] then []
    else [renderFinished[0], imageAvailable[0], fences[0]]
         + SyncReleases(renderFinished[1..], imageAvailable[1..], fences[1..])
  }

  lemma {:induction false} SyncReleasesAppend(renderFinished: seq<Handle>, imageAvailable: seq<Handle>, fences: seq<Handle>, i: nat)
    requires |renderFinished| == |imageAvailable| == |fences|
    requires i < |fences|
    ensures SyncReleases(renderFinished[..i + 1], imageAvailable[..i + 1], fences[..i + 1])
      == SyncReleases(renderFinished[..i], imageAvailable[..i], fences[..i]) + [renderFinished[i], imageAvailable[i], fences[i]]
    decreases i
  {
    if i > 0 {
      SyncReleasesAppend(renderFinished[1..], imageAvailable[1..], fences[1..], i - 1);
      assert renderFinished[1..][..i] == renderFinished[..i + 1][1..] && renderFinished[1..][..i - 1] == renderFinished[..i][1..];
      assert imageAvailable[1..][..i] == imageAvailable[..i + 1][1..] && imageAvailable[1..][..i - 1] == imageAvailable[..i][1..];
      assert fences[1..][..i] == fences[..i + 1][1..] && fences[1..][..i - 1] == fences[..i][1..];
    } else {
      assert renderFinished[..0] == [] && imageAvailable[..0] == [] && fences[..0] == [];
      assert fences[..1][1..] == [];
    }
  }

  /** The meshes of a registry own pairwise disjoint sets of handles. */
  predicate DisjointHandles(entries: map<int, MeshState>)
  {
    forall a, b :: a in entries && b in entries && a != b ==> entries[a].Handles() !! entries[b].Handles()
  }

  /** The number of times `h` occurs in `s`. */
  function Occurrences(s: seq<Handle>, h: Handle): nat
  {
    if s == [] then 0 else (if s[0] == h then 1 else 0) + Occurrences(s[1..], h)
  }

  lemma {:induction false} OccurrencesAppend(a: seq<Handle>, b: seq<Handle>, h: Handle)
    ensures Occurrences(a + b, h) == Occurrences(a, h) + Occurrences(b, h)
  {
    if a == [] {
      assert a + b == b;
    } else {
      assert (a + b)[0] == a[0];
      assert (a + b)[1..] == a[1..] + b;
      OccurrencesAppend(a[1..], b, h);
    }
  }

  /** A handle occurs in a sequence exactly when it occurs a positive
      number of times. */
  lemma {:induction false} OccurrencesZero(s: seq<Handle>, h: Handle)
    ensures Occurrences(s, h) == 0 <==> h !in s
  {
    if s != [] {
      OccurrencesZero(s[1..], h);
      assert s == [s[0]] + s[1..];
    }
  }

  /** Cleanup's texture loop releases only handles of the three texture
      tables. */
  lemma {:induction false} TextureReleasesOutside(views: seq<Handle>, images: seq<Handle>, memory: seq<Handle>, h: Handle)
    requires |views| == |images| == |memory|
    requires h !in views && h !in images && h !in memory
    ensures h !in TextureReleases(views, images, memory)
  {
    if images != [] {
      assert views == [views[0]] + views[1..] && images == [images[0]] + images[1..] && memory == [memory[0]] + memory[1..];
      TextureReleasesOutside(views[1..], images[1..], memory[1..], h);
    }
  }

  /** Cleanup's sync-object loop releases only the slots' semaphores and
      fences. */
  lemma {:induction false} SyncReleasesOutside(renderFinished: seq<Handle>, imageAvailable: seq<Handle>, fences: seq<Handle>, h: Handle)
    requires |renderFinished| == |imageAvailable| == |fences|
    requires h !in renderFinished && h !in imageAvailable && h !in fences
    ensures h !in SyncReleases(renderFinished, imageAvailable, fences)
  {
    if fences != [] {
      assert renderFinished == [renderFinished[0]] + renderFinished[1..];
      assert imageAvailable == [imageAvailable[0]] + imageAvailable[1..];
      assert fences == [fences[0]] + fences[1..];
      SyncReleasesOutside(renderFinished[1..], imageAvailable[1..], fences[1..], h);
    }
  }

  lemma OccurrencesInReleaseOrder(m: MeshState, h: Handle)
    requires m.OwnsDistinctHandles()
    ensures Occurrences(m.ReleaseOrder(), h) == if h in m.Handles() then 1 else 0
  {
    var s := m.ReleaseOrder();
    assert s[1..][1..][1..][1..] == [];
    calc {
      Occurrences(s, h);
      (if s[0] == h then 1 else 0) + Occurrences(s[1..], h);
      (if s[0] == h then 1 else 0) + (if s[1] == h then 1 else 0) + Occurrences(s[1..][1..], h);
      (if s[0] == h then 1 else 0) + (if s[1] == h then 1 else 0) + (if s[2] == h then 1 else 0)
        + Occurrences(s[1..][1..][1..], h);
      (if s[0] == h then 1 else 0) + (if s[1] == h then 1 else 0) + (if s[2] == h then 1 else 0)
        + (if s[3] == h then 1 else 0);
    }
  }

  /** Releasing a mesh's buffers after a log in which none of them occurs
      leaves each of them in the log exactly once. */
  lemma ReleasedOnceBy(log: seq<Handle>, m: MeshState, h: Handle)
    requires m.OwnsDistinctHandles()
    requires h in m.Handles() && h !in log
    ensures Occurrences(log + m.ReleaseOrder(), h) == 1
  {
    OccurrencesZero(log, h);
    OccurrencesAppend(log, m.ReleaseOrder(), h);
    OccurrencesInReleaseOrder(m, h);
  }

  /** Appending releases of other handles leaves a handle's count as it
      was. */
  lemma OccurrencesUnchangedBy(log: seq<Handle>, later: seq<Handle>, h: Handle)
    requires h !in later
    ensures Occurrences(log + later, h) == Occurrences(log, h)
  {
    OccurrencesZero(later, h);
    OccurrencesAppend(log, later, h);
  }

  /** Cleanup destroys every handle of every mesh it visits exactly once,
      and no other handle, provided the meshes own distinct handles and
      each id is visited once. */
  lemma {:induction false} MeshReleasesOnce(entries: map<int, MeshState>, keys: seq<int>, h: Handle)
    requires KeysIn(keys, entries)
    requires DisjointHandles(entries)
    requires forall k :: k in entries ==> entries[k].OwnsDistinctHandles()
    requires forall i, j :: 0 <= i < j < |keys| ==> keys[i] != keys[j]
    ensures Occurrences(MeshReleases(entries, keys), h)
      == if exists i :: 0 <= i < |keys| && h in entries[keys[i]].Handles() then 1 else 0
  {
    if keys != [] {
      var m := entries[keys[0]];
      MeshReleasesOnce(entries, keys[1..], h);
      OccurrencesAppend(m.ReleaseOrder(), MeshReleases(entries, keys[1..]), h);
      OccurrencesInReleaseOrder(m, h);
      if h in m.Handles() {
        forall i | 0 <= i < |keys[1..]| ensures h !in entries[keys[1..][i]].Handles() {
          assert keys[1..][i] == keys[i + 1];
        }
      }
      if exists i :: 0 <= i < |keys| && h in entries[keys[i]].Handles() {
        var i :| 0 <= i < |keys| && h in entries[keys[i]].Handles();
        if i > 0 {
          assert h in entries[keys[1..][i - 1]].Handles();
        }
      } else {
        assert h !in entries[keys[0]].Handles();
        forall i | 0 <= i < |keys[1..]| ensures h !in entries[keys[1..][i]].Handles() {
          assert keys[1..][i] == keys[i + 1];
        }
      }
    }
  }

  /** The invariant a registry keeps: every mesh owns four distinct
      handles, and no two meshes share one. */
  predicate OwnsDisjointHandles(meshes: map<int, MeshState>)
  {
    && (forall id :: id in meshes ==> meshes[id].OwnsDistinctHandles())
    && DisjointHandles(meshes)
  }

  /** Cleanup's mesh loop destroys each handle of each registered mesh
      exactly once and destroys no handle that no registered mesh owns. */
  lemma CleanupReleasesEachMeshHandleOnce(meshes: map<int, MeshState>, h: Handle)
    requires OwnsDisjointHandles(meshes)
    ensures KeysIn(SortedKeys(meshes.Keys), meshes)
    ensures Occurrences(MeshReleases(meshes, SortedKeys(meshes.Keys)), h)
      == if exists id :: id in meshes && h in meshes[id].Handles() then 1 else 0
  {
    var keys := SortedKeys(meshes.Keys);
    SortedKeysIn(meshes);
    MeshReleasesOnce(meshes, keys, h);
    if exists id :: id in meshes && h in meshes[id].Handles() {
      var id :| id in meshes && h in meshes[id].Handles();
      assert id in keys;
      var i :| 0 <= i < |keys| && keys[i] == id;
    }
  }

  /** removeFromRenderer as written leaks: once a mesh is erased, cleanup's
      mesh loop never destroys any of its buffers, which stay live for
      good. */
  lemma RemovedMeshNeverReleased(meshes: map<int, MeshState>, id: int, h: Handle)
    requires OwnsDisjointHandles(meshes)
    requires id in meshes && h in meshes[id].Handles()
    ensures KeysIn(SortedKeys((meshes - {id}).Keys), meshes - {id})
    ensures Occurrences(MeshReleases(meshes - {id}, SortedKeys((meshes - {id}).Keys)), h) == 0
  {
    var rest := meshes - {id};
    CleanupReleasesEachMeshHandleOnce(rest, h);
  }

  /** With the evident fix, the erased mesh's buffers are destroyed once
      on removal and never again by cleanup: every handle is destroyed
      exactly once over the two calls. */
  lemma RemovedMeshReleasedOnce(meshes: map<int, MeshState>, id: int, h: Handle)
    requires OwnsDisjointHandles(meshes)
    requires id in meshes && h in meshes[id].Handles()
    ensures KeysIn(SortedKeys((meshes - {id}).Keys), meshes - {id})
    ensures Occurrences(meshes[id].ReleaseOrder() + MeshReleases(meshes - {id}, SortedKeys((meshes - {id}).Keys)), h) == 1
  {
    RemovedMeshNeverReleased(meshes, id, h);
    OccurrencesAppend(meshes[id].ReleaseOrder(), MeshReleases(meshes - {id}, SortedKeys((meshes - {id}).Keys)), h);
    OccurrencesInReleaseOrder(meshes[id], h);
  }

  /** The loop of recordCommands (VulkanRenderer.cpp:1029-1060): for each
      registered mesh in ascending id order, bind its vertex buffer and its
      32-bit index buffer, push its transform, bind image `imageIndex`'s
      uniform set with the mesh's sampler set, and draw its indices. */
  method RecordMeshes(imageIndex: int, meshes: map<int, MeshState>) returns (cmds: seq<Command>)
    ensures cmds == Groups(imageIndex, meshes, SortedKeys(meshes.Keys))
  {
    ghost var keys := SortedKeys(meshes.Keys);
    SortedKeysIn(meshes);
    UnvisitedStart(meshes.Keys);
    cmds := [];
    var remaining := meshes.Keys;
    ghost var n := 0;
    while remaining != {}
      invariant Unvisited(meshes.Keys, n, remaining)
      invariant KeysIn(keys[..n], meshes)
      invariant cmds == Groups(imageIndex, meshes, keys[..n])
      decreases |remaining|
    {
      MinExists(remaining);
      var id :| IsMin(remaining, id);
      UnvisitedStep(meshes.Keys, n, remaining, id);
      GroupsPrefixStep(imageIndex, meshes, keys, n);
      var mesh := meshes[id];
      var group := [
        BindVertexBuffers(0, [mesh.vertexBuffer], [0]),
        BindIndexBuffer(mesh.indexBuffer, 0, IndexUint32),
        PushConstants(VertexStage, 0, MAT4_SIZE, mesh.transform),
        BindDescriptorSets(0, [UniformSet(imageIndex), SamplerSet(mesh.textureIndex)]),
        DrawIndexed(ToU32(mesh.indexCount), 1, 0, DRAW_VERTEX_OFFSET, 0)];
      cmds := cmds + group;
      n := n + 1;
      remaining := remaining - {id};
    }
    assert |remaining| == 0;
    assert n == |keys|;
    assert keys[..n] == keys;
  }

  lemma MeshReleasesPrefixStep(entries: map<int, MeshState>, keys: seq<int>, n: nat)
    requires KeysIn(keys, entries)
    requires n < |keys|
    ensures KeysIn(keys[..n], entries) && KeysIn(keys[..n + 1], entries)
    ensures MeshReleases(entries, keys[..n + 1]) == MeshReleases(entries, keys[..n]) + entries[keys[n]].ReleaseOrder()
  {
    assert keys[..n + 1] == keys[..n] + [keys[n]];
    MeshReleasesAppend(entries, keys[..n], keys[n]);
  }

  /** One step of cleanup's mesh loop: the least unvisited id is the next
      key in ascending order, and visiting it appends its release order. */
  lemma MeshLoopStep(meshes: map<int, MeshState>, n: nat, remaining: set<int>, id: int)
    requires Unvisited(meshes.Keys, n, remaining)
    requires IsMin(remaining, id)
    ensures n < |SortedKeys(meshes.Keys)| && SortedKeys(meshes.Keys)[n] == id && id in meshes
    ensures Unvisited(meshes.Keys, n + 1, remaining - {id})
    ensures KeysIn(SortedKeys(meshes.Keys)[..n], meshes) && KeysIn(SortedKeys(meshes.Keys)[..n + 1], meshes)
    ensures MeshReleases(meshes, SortedKeys(meshes.Keys)[..n + 1])
      == MeshReleases(meshes, SortedKeys(meshes.Keys)[..n]) + meshes[id].ReleaseOrder()
  {
    SortedKeysIn(meshes);
    UnvisitedStep(meshes.Keys, n, remaining, id);
    MeshReleasesPrefixStep(meshes, SortedKeys(meshes.Keys), n);
  }

  lemma AppendAssoc(a: seq<Handle>, b: seq<Handle>, c: seq<Handle>)
    ensures (a + b) + c == a + (b + c)
  {
  }

  /** Cleanup's texture loop (VulkanRenderer.cpp:57-62): destroys each
      texture's view and image and frees its memory, texture by texture. */
  method DestroyTextures(device: Device, views: seq<Handle>, images: seq<Handle>, memory: seq<Handle>)
    requires device.Valid()
    requires |views| == |images| == |memory|
    requires forall i :: 0 <= i < |images| ==> views[i] in device.issued && images[i] in device.issued && memory[i] in device.issued
    modifies device
    ensures device.Valid() && device.issued == old(device.issued)
    ensures device.releases == old(device.releases) + TextureReleases(views, images, memory)
  {
    var i := 0;
    while i < |images|
      invariant 0 <= i <= |images|
      invariant device.Valid() && device.issued == old(device.issued)
      invariant device.releases == old(device.releases) + TextureReleases(views[..i], images[..i], memory[..i])
    {
      device.Release(views[i]);
      device.Release(images[i]);
      device.Release(memory[i]);
      TextureReleasesAppend(views, images, memory, i);
      i := i + 1;
    }
    assert views[..i] == views && images[..i] == images && memory[..i] == memory;
  }

  /** Cleanup's mesh loop (VulkanRenderer.cpp:83-86): destroyDataBuffers on
      a copy of each registered mesh, in ascending id order. */
  method DestroyMeshes(device: Device, meshes: map<int, MeshState>)
    requires device.Valid()
    requires forall id :: id in meshes ==> meshes[id].Handles() <= device.issued
    modifies device
    ensures device.Valid() && device.issued == old(device.issued)
    ensures KeysIn(SortedKeys(meshes.Keys), meshes)
    ensures device.releases == old(device.releases) + MeshReleases(meshes, SortedKeys(meshes.Keys))
  {
    ghost var keys := SortedKeys(meshes.Keys);
    SortedKeysIn(meshes);
    UnvisitedStart(meshes.Keys);
    var remaining := meshes.Keys;
    ghost var n := 0;
    while remaining != {}
      invariant Unvisited(meshes.Keys, n, remaining)
      invariant KeysIn(keys[..n], meshes)
      invariant device.Valid() && device.issued == old(device.issued)
      invariant device.releases == old(device.releases) + MeshReleases(meshes, keys[..n])
      decreases |remaining|
    {
      MinExists(remaining);
      var id :| IsMin(remaining, id);
      MeshLoopStep(meshes, n, remaining, id);
      ghost var done := MeshReleases(meshes, keys[..n]);
      ghost var step := meshes[id].ReleaseOrder();
      DestroyBuffersOf(device, meshes[id]);
      assert device.releases == (old(device.releases) + done) + step;
      AppendAssoc(old(device.releases), done, step);
      n := n + 1;
      remaining := remaining - {id};
    }
    assert |remaining| == 0;
    assert keys[..n] == keys;
  }

  /** Cleanup's sync-object loop (VulkanRenderer.cpp:89-94): for each frame
      slot, destroys its render-finished and image-available semaphores and
      its fence. */
  method DestroySyncObjects(device: Device, renderFinished: seq<Handle>, imageAvailable: seq<Handle>, fences: seq<Handle>)
    requires device.Valid()
    requires |renderFinished| == |imageAvailable| == |fences| == MAX_FRAME_DRAWS
    requires forall i :: 0 <= i < MAX_FRAME_DRAWS ==>
      renderFinished[i] in device.issued && imageAvailable[i] in device.issued && fences[i] in device.issued
    modifies device
    ensures device.Valid() && device.issued == old(device.issued)
    ensures device.releases == old(device.releases) + SyncReleases(renderFinished, imageAvailable, fences)
  {
    var frame := 0;
    while frame < MAX_FRAME_DRAWS
      invariant 0 <= frame <= MAX_FRAME_DRAWS
      invariant device.Valid() && device.issued == old(device.issued)
      invariant device.releases == old(device.releases)
        + SyncReleases(renderFinished[..frame], imageAvailable[..frame], fences[..frame])
    {
      device.Release(renderFinished[frame]);
      device.Release(imageAvailable[frame]);
      device.Release(fences[frame]);
      SyncReleasesAppend(renderFinished, imageAvailable, fences, frame);
      frame := frame + 1;
    }
    assert renderFinished[..frame] == renderFinished && imageAvailable[..frame] == imageAvailable;
    assert fences[..frame] == fences;
  }

  class VulkanRenderer {
    /** The logical device every object below lives on. */
    const device: Device
    /** swapchainImages.size(). */
    const swapchainImageCount: nat
    /** currentFrame (VulkanRenderer.h:54): the frame slot draw uses next. */
    var currentFrame: FrameSlot
    /** meshesToRender: the meshes drawn every frame, by mesh id. The map
        holds copies of VkMesh values, so each entry is a MeshState. */
    var meshesToRender: map<int, MeshState>

    /** textureImages, textureImageMemory and textureImageViews
        (VulkanRenderer.h:125-127), one entry per texture image. */
    var textureImages: seq<Handle>
    var textureImageMemory: seq<Handle>
    var textureImageViews: seq<Handle>
    /** vkSamplerDescriptorSets: one combined image sampler per texture
        that got one, and the image view each was written with. */
    var samplerDescriptorSets: seq<Handle>
    ghost var samplerViews: seq<Handle>

    /** The sync objects of each frame slot (createSyncTools). */
    const semImageAvailable: seq<Handle>
    const semRenderFinished: seq<Handle>
    const drawFences: seq<Handle>
    /** Whether each slot's fence is signalled or will be signalled by
        work already submitted. */
    const fenceSignalled: array<bool>

    /** The commands last recorded into each swapchain image's command
        buffer. */
    const commandBuffers: array<seq<Command>>
    /** The device calls every draw has made, in order. */
    ghost var drawCalls: seq<DrawCall>

    /** Every registered mesh owns four distinct live handles, and no two
        ids share a handle. */
    ghost predicate RegistryValid()
      reads this`meshesToRender, device`live
    {
      && OwnsDisjointHandles(meshesToRender)
      && (forall id :: id in meshesToRender ==> meshesToRender[id].Handles() <= device.live)
    }

    /** Every registered mesh is untextured or names a sampler descriptor
        set that exists. */
    ghost predicate TextureIndicesValid()
      reads this`meshesToRender, this`samplerDescriptorSets
    {
      forall id :: id in meshesToRender ==>
        meshesToRender[id].textureIndex == UNTEXTURED
        || 0 <= meshesToRender[id].textureIndex < |samplerDescriptorSets|
    }

    /** The texture tables only grow: one image and one memory per texture,
        at most one view per image, at most MAX_OBJECTS sampler sets, each
        written with a view of the table, and every entry a handle of this
        device. */
    ghost predicate TextureTablesValid()
      reads this`textureImages, this`textureImageMemory, this`textureImageViews
      reads this`samplerDescriptorSets, this`samplerViews, device`issued
    {
      && |textureImages| == |textureImageMemory|
      && |textureImageViews| <= |textureImages|
      && |samplerDescriptorSets| == |samplerViews| <= MAX_OBJECTS
      && (forall i :: 0 <= i < |samplerViews| ==> samplerViews[i] in textureImageViews)
      && (forall i :: 0 <= i < |samplerDescriptorSets| ==> samplerDescriptorSets[i] in device.issued)
      && (forall i :: 0 <= i < |textureImages| ==>
            textureImages[i] in device.issued && textureImageMemory[i] in device.issued)
      && (forall i :: 0 <= i < |textureImageViews| ==> textureImageViews[i] in device.issued)
    }

    /** Two slots, each with its semaphores and fence, and one command
        buffer per swapchain image. */
    ghost predicate SyncValid()
      reads device`issued
    {
      && |semImageAvailable| == MAX_FRAME_DRAWS && |semRenderFinished| == MAX_FRAME_DRAWS
      && |drawFences| == MAX_FRAME_DRAWS && fenceSignalled.Length == MAX_FRAME_DRAWS
      && (forall i :: 0 <= i < MAX_FRAME_DRAWS ==>
            semImageAvailable[i] in device.issued && semRenderFinished[i] in device.issued
            && drawFences[i] in device.issued)
      && 0 < swapchainImageCount && commandBuffers.Length == swapchainImageCount
    }

    /** Every handle the texture tables, the sampler table and the sync
        objects hold. */
    ghost function TableHandles(): set<Handle>
      reads this`textureImages, this`textureImageMemory, this`textureImageViews, this`samplerDescriptorSets
    {
      set h | h in textureImages + textureImageMemory + textureImageViews + samplerDescriptorSets
                   + semImageAvailable + semRenderFinished + drawFences
    }

    /** No registered mesh owns a handle the tables or the sync objects
        hold: each object is created for exactly one of them. */
    ghost predicate MeshHandlesSeparate()
      reads this`meshesToRender, this`textureImages, this`textureImageMemory, this`textureImageViews
      reads this`samplerDescriptorSets
    {
      forall id :: id in meshesToRender ==> meshesToRender[id].Handles() !! TableHandles()
    }

    /** The renderer's invariant, except that the last `pending` texture
        images do not have their view yet. */
    ghost predicate ValidPendingViews(pending: nat)
      reads this`meshesToRender, this`textureImages, this`textureImageMemory, this`textureImageViews
      reads this`samplerDescriptorSets, this`samplerViews, device
    {
      && device.Valid() && RegistryValid() && TextureIndicesValid() && TextureTablesValid()
      && |textureImageViews| + pending == |textureImages|
      && SyncValid() && MeshHandlesSeparate()
    }

    ghost predicate Valid()
      reads this`meshesToRender, this`textureImages, this`textureImageMemory, this`textureImageViews
      reads this`samplerDescriptorSets, this`samplerViews, device
    {
      ValidPendingViews(0)
    }

    /** The state init leaves behind as far as the modelled operations are
        concerned (VulkanRenderer.cpp:7-47): nothing registered, no
        textures, empty command buffers, currentFrame = 0, and one
        image-available semaphore, one render-finished semaphore and one
        fence per slot, the fences created signalled
        (createSyncTools, VulkanRenderer.cpp:709-731). */
    constructor (device: Device, swapchainImageCount: nat)
      requires device.Valid()
      requires 0 < swapchainImageCount
      modifies device
      ensures Valid()
      ensures this.device == device && this.swapchainImageCount == swapchainImageCount
      ensures currentFrame == 0
      ensures meshesToRender == map[]
      ensures textureImages == [] && textureImageViews == [] && samplerDescriptorSets == []
      ensures fresh(fenceSignalled) && fenceSignalled[..] == [true, true]
      ensures fresh(commandBuffers) && commandBuffers[..] == seq(swapchainImageCount, _ => [])
      ensures drawCalls == []
      ensures forall i :: 0 <= i < MAX_FRAME_DRAWS ==>
        semImageAvailable[i] !in old(device.issued) && semRenderFinished[i] !in old(device.issued)
        && drawFences[i] !in old(device.issued)
    {
      var imageAvailable: seq<Handle> := [];
      var renderFinished: seq<Handle> := [];
      var fences: seq<Handle> := [];
      var i := 0;
      while i < MAX_FRAME_DRAWS
        invariant 0 <= i <= MAX_FRAME_DRAWS
        invariant device.Valid()
        invariant |imageAvailable| == i && |renderFinished| == i && |fences| == i
        invariant old(device.issued) <= device.issued
        invariant forall j :: 0 <= j < i ==>
          && imageAvailable[j] in device.issued && imageAvailable[j] !in old(device.issued)
          && renderFinished[j] in device.issued && renderFinished[j] !in old(device.issued)
          && fences[j] in device.issued && fences[j] !in old(device.issued)
      {
        var available := device.Allocate();
        var finished := device.Allocate();
        var fence := device.Allocate();
        imageAvailable := imageAvailable + [available];
        renderFinished := renderFinished + [finished];
        fences := fences + [fence];
        i := i + 1;
      }
      this.device := device;
      this.swapchainImageCount := swapchainImageCount;
      currentFrame := 0;
      meshesToRender := map[];
      textureImages, textureImageMemory, textureImageViews := [], [], [];
      samplerDescriptorSets, samplerViews := [], [];
      semImageAvailable, semRenderFinished, drawFences := imageAvailable, renderFinished, fences;
      fenceSignalled := new bool[MAX_FRAME_DRAWS](_ => true);
      commandBuffers := new seq<Command>[swapchainImageCount](_ => []);
      drawCalls := [];
    }

    /** The invariant depends only on the registry, the texture tables and
        the device: changing anything else keeps it. */
    twostate lemma ValidFramed()
      requires unchanged(this`meshesToRender, this`textureImages, this`textureImageMemory, this`textureImageViews)
      requires unchanged(this`samplerDescriptorSets, this`samplerViews, device)
      ensures Valid() == old(Valid())
    {
    }

    /** Appending one image and its memory, both handles of the device,
        to valid tables leaves one image without a view; the device only
        handing out or releasing other handles keeps the rest. */
    twostate lemma ImageAppendedKeepsValid()
      requires old(Valid()) && device.Valid()
      requires old(device.live) <= device.live && old(device.issued) <= device.issued
      requires unchanged(this`meshesToRender, this`textureImageViews, this`samplerDescriptorSets, this`samplerViews)
      requires |textureImages| == |textureImageMemory| == |old(textureImages)| + 1
      requires textureImages[..|old(textureImages)|] == old(textureImages)
      requires textureImageMemory[..|old(textureImages)|] == old(textureImageMemory)
      requires textureImages[|old(textureImages)|] in device.issued
      requires textureImageMemory[|old(textureImages)|] in device.issued
      requires textureImages[|old(textureImages)|] !in old(device.issued)
      requires textureImageMemory[|old(textureImages)|] !in old(device.issued)
      ensures ValidPendingViews(1)
    {
      var n := |old(textureImages)|;
      assert textureImages == old(textureImages) + [textureImages[n]];
      assert textureImageMemory == old(textureImageMemory) + [textureImageMemory[n]];
      assert TableHandles() == old(TableHandles()) + {textureImages[n], textureImageMemory[n]};
      forall id | id in meshesToRender ensures meshesToRender[id].Handles() !! TableHandles() {
        assert meshesToRender[id].Handles() <= old(device.issued);
      }
      forall i | 0 <= i < |textureImages|
        ensures textureImages[i] in device.issued && textureImageMemory[i] in device.issued
      {
        if i < n {
          assert textureImages[i] == old(textureImages)[i];
          assert textureImageMemory[i] == old(textureImageMemory)[i];
        }
      }
    }

    /** Registering a copy of a mesh whose handles were all handed out
        since the earlier state, under an id not yet in use, keeps the
        invariant when nothing else but the device changed. */
    twostate lemma MeshRegisteredKeepsValid(id: int)
      requires old(Valid()) && device.Valid()
      requires old(device.live) <= device.live && old(device.issued) <= device.issued
      requires unchanged(this`textureImages, this`textureImageMemory, this`textureImageViews)
      requires unchanged(this`samplerDescriptorSets, this`samplerViews)
      requires id !in old(meshesToRender) && id in meshesToRender
      requires meshesToRender == old(meshesToRender)[id := meshesToRender[id]]
      requires meshesToRender[id].OwnsDistinctHandles()
      requires meshesToRender[id].Handles() !! old(device.issued) && meshesToRender[id].Handles() <= device.live
      requires meshesToRender[id].textureIndex == UNTEXTURED || 0 <= meshesToRender[id].textureIndex < |samplerDescriptorSets|
      ensures Valid()
    {
      var m := meshesToRender[id];
      forall k | k in old(meshesToRender) ensures old(meshesToRender)[k].Handles() !! m.Handles() {
        assert old(meshesToRender)[k].Handles() <= old(device.issued);
      }
    }

    /** Erasing an id whose buffers were just destroyed keeps the
        invariant: no other mesh and no table owned those buffers. */
    twostate lemma MeshReleasedKeepsValid(id: int)
      requires old(Valid()) && device.Valid()
      requires device.issued == old(device.issued)
      requires id in old(meshesToRender) && meshesToRender == old(meshesToRender) - {id}
      requires device.live == old(device.live) - old(meshesToRender)[id].Handles()
      requires unchanged(this`textureImages, this`textureImageMemory, this`textureImageViews)
      requires unchanged(this`samplerDescriptorSets, this`samplerViews)
      ensures Valid()
    {
      var gone := old(meshesToRender)[id].Handles();
      forall k | k in meshesToRender ensures meshesToRender[k].Handles() <= device.live {
        assert meshesToRender[k] == old(meshesToRender)[k];
        assert meshesToRender[k].Handles() !! gone;
      }
    }

    /** `m` was built by addToRenderer or addToRendererTextured from
        `source`: its vertices come from the source positions and texture
        coordinates with colour `color`, its indices are the source's, it
        carries `textureIndex`, and its transform is the identity. */
    ghost predicate BuiltFrom(m: VkMesh, source: CpuMesh, color: Vec3, textureIndex: int)
      requires |source.texCoords| >= |source.vertices|
      reads m
    {
      && m.vertexCount == |source.vertices| && m.indexCount == |source.indices|
      && m.textureIndex == textureIndex
      && m.transformMat == Identity()
      && m.indexData == source.indices
      && |m.vertexData| == |source.vertices|
      && (forall i :: 0 <= i < |source.vertices| ==>
            m.vertexData[i] == Vertex(source.vertices[i], color, ZERO3, source.texCoords[i]))
    }

    /** addToRenderer (VulkanRenderer.cpp:1174-1200): a mesh whose id is
        not registered yet is uploaded with the given colour, no texture
        (index -1) and the identity transform, and a copy of it is
        registered under its id; a mesh whose id is already registered
        changes nothing. `newMesh` is the VkMesh that was built. */
    method AddToRenderer(mesh: CpuMesh, color: Vec3) returns (added: bool, ghost newMesh: VkMesh?)
      requires Valid()
      requires |mesh.texCoords| >= |mesh.vertices|
      modifies this`meshesToRender, device
      ensures Valid()
      ensures added <==> mesh.id !in old(meshesToRender)
      ensures !added ==> meshesToRender == old(meshesToRender) && unchanged(device)
      ensures added ==>
        && newMesh != null && fresh(newMesh)
        && BuiltFrom(newMesh, mesh, color, UNTEXTURED)
        && meshesToRender == old(meshesToRender)[mesh.id := newMesh.State()]
        && newMesh.Handles() !! old(device.issued)
        && device.live == old(device.live) + newMesh.Handles()
    {
      if mesh.id in meshesToRender {
        return false, null;
      }
      var vertices := BuildVertices(mesh.vertices, mesh.texCoords, color);
      var created := new VkMesh.Create(device, vertices, mesh.indices, UNTEXTURED);
      created.SetTransformMat(Identity());
      meshesToRender := meshesToRender[mesh.id := created.State()];
      MeshRegisteredKeepsValid(mesh.id);
      return true, created;
    }

    /** loadTexture's message for a file stb_image cannot read
        (VulkanRenderer.cpp:1701). */
    static function LoadFailure(fileName: string): string
    {
      "Failed to load texture \"" + fileName + "\"."
    }

    /** createTextureImage (VulkanRenderer.cpp:1298-1345): loads the file
        (throwing if it cannot be read), copies its RGBA pixels through a
        staging buffer of width * height * 4 bytes into a new image with its
        own memory, appends the image and the memory to their tables,
        releases the staging pair and returns the new image's index. The
        view of the new image is still to be created. */
    method CreateTextureImage(fileName: string, file: TextureFile) returns (r: Except<int>, ghost staging: seq<Handle>)
      requires Valid()
      modifies this`textureImages, this`textureImageMemory, device
      ensures file.Unreadable? ==>
        r == Throw(LoadFailure(fileName)) && Valid()
        && textureImages == old(textureImages) && textureImageMemory == old(textureImageMemory)
        && unchanged(device)
      ensures file.Loaded? ==>
        && ValidPendingViews(1)
        && r == Return(|old(textureImages)|)
        && |textureImages| == |textureImageMemory| == r.value + 1
        && textureImages[..r.value] == old(textureImages)
        && textureImageMemory[..r.value] == old(textureImageMemory)
        && textureImages[r.value] != textureImageMemory[r.value]
        && textureImages[r.value] !in old(device.issued) && textureImageMemory[r.value] !in old(device.issued)
        && device.live == old(device.live) + {textureImages[r.value], textureImageMemory[r.value]}
        && device.issued == old(device.issued) + {textureImages[r.value], textureImageMemory[r.value]} + set h | h in staging
        && |staging| == 2 && device.releases == old(device.releases) + staging
        && staging[0] in device.sizeOf && device.sizeOf[staging[0]] == ImageByteSize(file.width, file.height)
        && (forall h :: h in staging ==> h !in old(device.issued))
    {
      if file.Unreadable? {
        return Throw(LoadFailure(fileName)), [];
      }
      var imageSize := ImageByteSize(file.width, file.height);
      var stagingBuffer, stagingMemory := device.CreateBuffer(imageSize);
      var texImage, texImageMemory := device.CreateImage();
      textureImages := textureImages + [texImage];
      textureImageMemory := textureImageMemory + [texImageMemory];
      device.Release(stagingBuffer);
      device.Release(stagingMemory);
      staging := [stagingBuffer, stagingMemory];
      r := Return(|textureImages| - 1);
      ImageAppendedKeepsValid();
    }

    /** The message createTextureSamplerDescriptor throws
        (VulkanRenderer.cpp:1648). */
    static const SAMPLER_FAILURE: string := "Failed to allocate texture sampler descriptor sets."

    /** Whether allocating one more sampler descriptor set succeeds: the
        driver reports success and the pool still has one of its
        MAX_OBJECTS combined-image-sampler descriptors left
        (VulkanRenderer.cpp:849). */
    function SamplerAllocates(allocationOk: bool): bool
      reads this`samplerDescriptorSets
    {
      allocationOk && |samplerDescriptorSets| < MAX_OBJECTS
    }

    /** createTextureSamplerDescriptor (VulkanRenderer.cpp:1636-1671):
        allocates a descriptor set, writes `view` into it, appends it to the
        sampler table and returns its index; throws if the allocation
        fails. */
    method CreateTextureSamplerDescriptor(view: Handle, allocationOk: bool) returns (r: Except<int>)
      requires Valid()
      requires view in textureImageViews
      modifies this`samplerDescriptorSets, this`samplerViews, device
      ensures Valid()
      ensures !old(SamplerAllocates(allocationOk)) ==>
        r == Throw(SAMPLER_FAILURE) && samplerDescriptorSets == old(samplerDescriptorSets)
        && samplerViews == old(samplerViews) && unchanged(device)
      ensures old(SamplerAllocates(allocationOk)) ==>
        && r == Return(|old(samplerDescriptorSets)|)
        && |samplerDescriptorSets| == r.value + 1
        && samplerDescriptorSets[..r.value] == old(samplerDescriptorSets)
        && samplerDescriptorSets[r.value] !in old(device.issued)
        && samplerViews == old(samplerViews) + [view]
        && device.live == old(device.live) + {samplerDescriptorSets[r.value]}
        && device.releases == old(device.releases)
        && device.issued == old(device.issued) + {samplerDescriptorSets[r.value]}
    {
      if !SamplerAllocates(allocationOk) {
        return Throw(SAMPLER_FAILURE);
      }
      var descriptorSet := device.Allocate();
      samplerDescriptorSets := samplerDescriptorSets + [descriptorSet];
      samplerViews := samplerViews + [view];
      r := Return(|samplerDescriptorSets| - 1);
    }

    /** createTexture (VulkanRenderer.cpp:1428-1439): creates the texture
        image, appends a view of it, and allocates a sampler descriptor set
        for that view. The index returned is the sampler set's, and that set
        was written with the view of the image just loaded. When the sampler
        allocation throws, the image, its memory and its view stay in their
        tables. */
    method CreateTexture(fileName: string, file: TextureFile, allocationOk: bool) returns (r: Except<int>)
      requires Valid()
      modifies this`textureImages, this`textureImageMemory, this`textureImageViews
      modifies this`samplerDescriptorSets, this`samplerViews, device
      ensures Valid()
      ensures old(device.issued) <= device.issued
      ensures file.Unreadable? ==>
        && r == Throw(LoadFailure(fileName))
        && textureImages == old(textureImages) && textureImageMemory == old(textureImageMemory)
        && textureImageViews == old(textureImageViews)
        && samplerDescriptorSets == old(samplerDescriptorSets) && samplerViews == old(samplerViews)
        && unchanged(device)
      ensures file.Loaded? ==>
        && var n := |old(textureImages)|;
        && |textureImages| == |textureImageMemory| == |textureImageViews| == n + 1
        && textureImages[..n] == old(textureImages)
        && textureImageMemory[..n] == old(textureImageMemory)
        && textureImageViews[..n] == old(textureImageViews)
        && textureImages[n] !in old(device.issued) && textureImageMemory[n] !in old(device.issued)
        && textureImageViews[n] !in old(device.issued)
        && textureImages[n] in device.live && textureImageMemory[n] in device.live
        && textureImageViews[n] in device.live
      ensures file.Loaded? && !old(SamplerAllocates(allocationOk)) ==>
        && r == Throw(SAMPLER_FAILURE)
        && samplerDescriptorSets == old(samplerDescriptorSets) && samplerViews == old(samplerViews)
        && var n := |old(textureImages)|;
        && device.live == old(device.live) + {textureImages[n], textureImageMemory[n], textureImageViews[n]}
      ensures file.Loaded? && old(SamplerAllocates(allocationOk)) ==>
        && r == Return(|old(samplerDescriptorSets)|)
        && |samplerDescriptorSets| == r.value + 1
        && samplerDescriptorSets[..r.value] == old(samplerDescriptorSets)
        && samplerDescriptorSets[r.value] !in old(device.issued)
        && samplerViews == old(samplerViews) + [textureImageViews[|textureImageViews| - 1]]
        && var n := |old(textureImages)|;
        && device.live == old(device.live)
             + {textureImages[n], textureImageMemory[n], textureImageViews[n], samplerDescriptorSets[r.value]}
    {
      var image, staging := CreateTextureImage(fileName, file);
      if image.Throw? {
        return Throw(image.message);
      }
      var imageView := device.Allocate();
      textureImageViews := textureImageViews + [imageView];
      r := CreateTextureSamplerDescriptor(imageView, allocationOk);
    }

    /** addToRendererTextured (VulkanRenderer.cpp:1202-1229): like
        addToRenderer, but the vertices keep the zero colour and the mesh
        gets the sampler descriptor of a texture created from `fileName`.
        If creating the texture throws, nothing is registered. */
    method AddToRendererTextured(mesh: CpuMesh, fileName: string, file: TextureFile, allocationOk: bool)
      returns (r: Except<bool>, ghost newMesh: VkMesh?)
      requires Valid()
      requires |mesh.texCoords| >= |mesh.vertices|
      modifies this`meshesToRender, this`textureImages, this`textureImageMemory, this`textureImageViews
      modifies this`samplerDescriptorSets, this`samplerViews, device
      ensures Valid()
      ensures r == if mesh.id in old(meshesToRender) then Return(false)
                   else if file.Unreadable? then Throw(LoadFailure(fileName))
                   else if !old(SamplerAllocates(allocationOk)) then Throw(SAMPLER_FAILURE)
                   else Return(true)
      ensures r != Return(true) ==> meshesToRender == old(meshesToRender)
      ensures mesh.id in old(meshesToRender) || file.Unreadable? ==>
        && textureImages == old(textureImages) && textureImageMemory == old(textureImageMemory)
        && textureImageViews == old(textureImageViews)
        && samplerDescriptorSets == old(samplerDescriptorSets) && samplerViews == old(samplerViews)
        && unchanged(device)
      // Once the file is loaded, one image, its memory and its view are
      // appended to fresh slots of their tables, whatever happens next.
      ensures mesh.id !in old(meshesToRender) && file.Loaded? ==>
        && var n := |old(textureImages)|;
        && |textureImages| == |textureImageMemory| == |textureImageViews| == n + 1
        && textureImages[..n] == old(textureImages)
        && textureImageMemory[..n] == old(textureImageMemory)
        && textureImageViews[..n] == old(textureImageViews)
        && {textureImages[n], textureImageMemory[n], textureImageViews[n]} !! old(device.issued)
      ensures mesh.id !in old(meshesToRender) && file.Loaded? && !old(SamplerAllocates(allocationOk)) ==>
        && samplerDescriptorSets == old(samplerDescriptorSets) && samplerViews == old(samplerViews)
        && var n := |old(textureImages)|;
        && device.live == old(device.live) + {textureImages[n], textureImageMemory[n], textureImageViews[n]}
      ensures r == Return(true) ==>
        && newMesh != null && fresh(newMesh)
        && BuiltFrom(newMesh, mesh, ZERO3, |old(samplerDescriptorSets)|)
        && meshesToRender == old(meshesToRender)[mesh.id := newMesh.State()]
        && |samplerDescriptorSets| == |old(samplerDescriptorSets)| + 1
        && samplerDescriptorSets[..|old(samplerDescriptorSets)|] == old(samplerDescriptorSets)
        && samplerViews == old(samplerViews) + [textureImageViews[|textureImageViews| - 1]]
        && newMesh.textureIndex == |old(samplerDescriptorSets)|
        && samplerDescriptorSets[newMesh.textureIndex] !in old(device.issued)
        && newMesh.Handles() !! old(device.issued)
        && var n := |old(textureImages)|;
        && device.live == old(device.live)
             + {textureImages[n], textureImageMemory[n], textureImageViews[n], samplerDescriptorSets[newMesh.textureIndex]}
             + newMesh.Handles()
    {
      if mesh.id in meshesToRender {
        return Return(false), null;
      }
      var vertices := BuildVertices(mesh.vertices, mesh.texCoords, ZERO3);
      var textureDescriptorIndex := CreateTexture(fileName, file, allocationOk);
      if textureDescriptorIndex.Throw? {
        return Throw(textureDescriptorIndex.message), null;
      }
      label textured:
      var created := new VkMesh.Create(device, vertices, mesh.indices, textureDescriptorIndex.value);
      created.SetTransformMat(Identity());
      meshesToRender := meshesToRender[mesh.id := created.State()];
      MeshRegisteredKeepsValid@textured(mesh.id);
      return Return(true), created;
    }

    /** updateMeshTransform (VulkanRenderer.cpp:1231-1240): sets the
        transform of the copy registered under `meshId`, if any; nothing
        else changes. */
    method UpdateMeshTransform(meshId: int, transform: Mat4) returns (updated: bool)
      requires Valid()
      modifies this`meshesToRender
      ensures Valid()
      ensures updated <==> meshId in old(meshesToRender)
      ensures meshesToRender == if updated then old(meshesToRender)[meshId := old(meshesToRender)[meshId].(transform := transform)]
                                else old(meshesToRender)
    {
      if meshId in meshesToRender {
        meshesToRender := meshesToRender[meshId := meshesToRender[meshId].(transform := transform)];
        return true;
      }
      return false;
    }

    /** removeFromRenderer (VulkanRenderer.cpp:1242-1251): erases the id
        from the registry. The mesh's buffers are not destroyed: they stay
        live, and no registered mesh owns them any more. */
    method RemoveFromRenderer(mesh: CpuMesh) returns (removed: bool)
      requires Valid()
      modifies this`meshesToRender
      ensures Valid()
      ensures removed <==> mesh.id in old(meshesToRender)
      ensures meshesToRender == old(meshesToRender) - {mesh.id}
      ensures removed ==>
        && old(meshesToRender)[mesh.id].Handles() <= device.live
        && forall id :: id in meshesToRender ==> meshesToRender[id].Handles() !! old(meshesToRender)[mesh.id].Handles()
      ensures removed ==> forall h :: h in old(meshesToRender)[mesh.id].Handles() ==> h !in CleanupReleases()
    {
      if mesh.id in meshesToRender {
        var gone := meshesToRender[mesh.id];
        meshesToRender := meshesToRender - {mesh.id};
        forall h | h in gone.Handles() ensures h !in CleanupReleases() {
          CleanupReleasesOnly(h);
        }
        return true;
      }
      return false;
    }

    /** removeFromRenderer as evidently intended: the mesh's buffers are
        destroyed before its id is erased, so none of its handles stays
        live. */
    method RemoveFromRendererReleasing(mesh: CpuMesh) returns (removed: bool)
      requires Valid()
      modifies this`meshesToRender, device
      ensures Valid()
      ensures removed <==> mesh.id in old(meshesToRender)
      ensures meshesToRender == old(meshesToRender) - {mesh.id}
      ensures removed ==>
        && device.live == old(device.live) - old(meshesToRender)[mesh.id].Handles()
        && device.releases == old(device.releases) + old(meshesToRender)[mesh.id].ReleaseOrder()
      ensures !removed ==> unchanged(device)
      ensures removed ==> forall h :: h in old(meshesToRender)[mesh.id].Handles() ==>
        Occurrences(device.releases, h) == 1 && h !in CleanupReleases()
    {
      if mesh.id in meshesToRender {
        var gone := meshesToRender[mesh.id];
        DestroyBuffersOf(device, gone);
        meshesToRender := meshesToRender - {mesh.id};
        MeshReleasedKeepsValid(mesh.id);
        forall h | h in gone.Handles() ensures Occurrences(device.releases, h) == 1 && h !in CleanupReleases() {
          assert h in old(device.live);
          ReleasedOnceBy(old(device.releases), gone, h);
          CleanupReleasesOnly(h);
        }
        return true;
      }
      return false;
    }

    /** recordCommands (VulkanRenderer.cpp:994-1071) for swapchain image
        `imageIndex`. `beginOk` and `endOk` are the results of
        vkBeginCommandBuffer and vkEndCommandBuffer. Once recording has
        begun, the image's command buffer holds exactly the commands of
        Recorded for the current registry, whether or not ending succeeds;
        no other command buffer changes. */
    method RecordCommands(imageIndex: int, beginOk: bool, endOk: bool) returns (r: Except<()>)
      requires Valid()
      requires 0 <= imageIndex < swapchainImageCount
      modifies commandBuffers
      ensures r == if !beginOk then Throw(BEGIN_FAILURE) else if !endOk then Throw(END_FAILURE) else Return(())
      ensures forall i :: 0 <= i < commandBuffers.Length && i != imageIndex ==> commandBuffers[i] == old(commandBuffers[i])
      ensures commandBuffers[imageIndex] == if beginOk then Recorded(imageIndex, meshesToRender) else old(commandBuffers[imageIndex])
    {
      if !beginOk {
        return Throw(BEGIN_FAILURE);
      }
      var cmds := [BeginRenderPass(imageIndex), BindPipeline];
      var groups := RecordMeshes(imageIndex, meshesToRender);
      cmds := cmds + groups;
      cmds := cmds + [EndRenderPass];
      commandBuffers[imageIndex] := cmds;
      if !endOk {
        return Throw(END_FAILURE);
      }
      return Return(());
    }

    /** draw (VulkanRenderer.cpp:1116-1172) with the device's answers in
        `o`. It waits on the current slot's fence; if that fence is never
        going to be signalled the call does not return. Otherwise it resets
        the fence, acquires image o.imageIndex, records its command buffer,
        updates its uniform buffer, submits the buffer (waiting on the
        slot's image-available semaphore, signalling its render-finished
        semaphore and its fence) and presents the image. Any failing step
        throws; currentFrame moves to the next slot only after a successful
        present. */
    method Draw(o: DrawOutcomes) returns (r: DrawResult)
      requires Valid()
      requires 0 <= o.imageIndex < swapchainImageCount
      modifies this`currentFrame, this`drawCalls, fenceSignalled, commandBuffers
      ensures Valid()
      ensures var f := old(currentFrame);
        && r == DrawResultOf(old(fenceSignalled[f]), o)
        && drawCalls == old(drawCalls)
             + DrawCalls(drawFences[f], semImageAvailable[f], semRenderFinished[f], old(fenceSignalled[f]), o)
        && fenceSignalled[f] == FenceAfter(old(fenceSignalled[f]), o)
        && (forall i :: 0 <= i < MAX_FRAME_DRAWS && i != f ==> fenceSignalled[i] == old(fenceSignalled[i]))
        && currentFrame == if r == Presented then NextFrame(f) else f
      ensures forall i :: 0 <= i < commandBuffers.Length && i != o.imageIndex ==> commandBuffers[i] == old(commandBuffers[i])
      ensures commandBuffers[o.imageIndex] ==
        if old(fenceSignalled[currentFrame]) && o.beginOk then Recorded(o.imageIndex, meshesToRender)
        else old(commandBuffers[o.imageIndex])
    {
      var f := currentFrame;
      ghost var calls := [WaitForFence(drawFences[f])];
      if !fenceSignalled[f] {
        r := Blocked;
      } else {
        calls := calls + [ResetFence(drawFences[f])];
        fenceSignalled[f] := false;
        var imageIndex := o.imageIndex;
        calls := calls + [AcquireNextImage(semImageAvailable[f], imageIndex)];
        var recorded := RecordCommands(imageIndex, o.beginOk, o.endOk);
        if recorded.Throw? {
          r := Threw(recorded.message);
        } else {
          calls := calls + [UpdateUniformBuffers(imageIndex)];
          calls := calls + [QueueSubmit(semImageAvailable[f], imageIndex, semRenderFinished[f], drawFences[f])];
          if !o.submitOk {
            r := Threw(SUBMIT_FAILURE);
          } else {
            fenceSignalled[f] := true;
            calls := calls + [QueuePresent(semRenderFinished[f], imageIndex)];
            if !o.presentOk {
              r := Threw(PRESENT_FAILURE);
            } else {
              currentFrame := NextFrame(currentFrame);
              r := Presented;
            }
          }
        }
      }
      drawCalls := drawCalls + calls;
      ValidFramed();
    }

    /** Every release call cleanup makes for the textures, the registered
        meshes and the sync objects, in call order. */
    ghost function CleanupReleases(): seq<Handle>
      requires Valid()
      reads this`meshesToRender, this`textureImages, this`textureImageMemory, this`textureImageViews
      reads this`samplerDescriptorSets, this`samplerViews, device
    {
      TextureReleases(textureImageViews, textureImages, textureImageMemory)
      + MeshReleases(meshesToRender, SortedKeys(meshesToRender.Keys))
      + SyncReleases(semRenderFinished, semImageAvailable, drawFences)
    }

    /** Cleanup releases nothing but the texture tables' handles, the
        registered meshes' handles and the sync objects. */
    lemma CleanupReleasesOnly(h: Handle)
      requires Valid()
      requires h !in TableHandles()
      requires forall id :: id in meshesToRender ==> h !in meshesToRender[id].Handles()
      ensures h !in CleanupReleases()
    {
      TextureReleasesOutside(textureImageViews, textureImages, textureImageMemory, h);
      CleanupReleasesEachMeshHandleOnce(meshesToRender, h);
      OccurrencesZero(MeshReleases(meshesToRender, SortedKeys(meshesToRender.Keys)), h);
      SyncReleasesOutside(semRenderFinished, semImageAvailable, drawFences, h);
    }

    /** The texture loop, the mesh loop and the sync-object loop of cleanup
        (VulkanRenderer.cpp:57-62, 83-87, 89-94), in that order: each
        texture's view, image and memory; each registered mesh's buffers in
        ascending id order; each slot's semaphores and fence. The registry is
        emptied. Handles nothing in that sequence names, such as the buffers
        of meshes removed earlier, stay live. */
    method Cleanup()
      requires Valid()
      modifies this`meshesToRender, device
      ensures device.Valid()
      ensures meshesToRender == map[]
      ensures device.releases == old(device.releases) + old(CleanupReleases())
      ensures device.issued == old(device.issued)
      ensures forall h :: h in device.live <==> h in old(device.live) && h !in old(CleanupReleases())
    {
      ghost var textures := TextureReleases(textureImageViews, textureImages, textureImageMemory);
      ghost var meshes := MeshReleases(meshesToRender, SortedKeys(meshesToRender.Keys));
      ghost var sync := SyncReleases(semRenderFinished, semImageAvailable, drawFences);
      assert CleanupReleases() == textures + meshes + sync;
      DestroyTextures(device, textureImageViews, textureImages, textureImageMemory);
      DestroyMeshes(device, meshesToRender);
      meshesToRender := map[];
      DestroySyncObjects(device, semRenderFinished, semImageAvailable, drawFences);
      assert device.releases == ((old(device.releases) + textures) + meshes) + sync;
      AppendAssoc(old(device.releases), textures, meshes);
      AppendAssoc(old(device.releases), textures + meshes, sync);
    }
  }

  /** removeFromRenderer followed by cleanup, as the source has them: every
      buffer of the removed mesh is still live after cleanup. */
  method RemoveThenCleanup(r: VulkanRenderer, mesh: CpuMesh) returns (removed: bool)
    requires r.Valid()
    modifies r, r.device
    ensures removed <==> mesh.id in old(r.meshesToRender)
    ensures removed ==> old(r.meshesToRender)[mesh.id].Handles() <= r.device.live
    ensures r.meshesToRender == map[]
  {
    removed := r.RemoveFromRenderer(mesh);
    r.Cleanup();
  }

  /** The corrected removal followed by cleanup: every buffer of the
      removed mesh has been released exactly once and none is live. */
  method RemoveReleasingThenCleanup(r: VulkanRenderer, mesh: CpuMesh) returns (removed: bool)
    requires r.Valid()
    modifies r, r.device
    ensures removed <==> mesh.id in old(r.meshesToRender)
    ensures removed ==> forall h :: h in old(r.meshesToRender)[mesh.id].Handles() ==>
      Occurrences(r.device.releases, h) == 1 && h !in r.device.live
    ensures r.meshesToRender == map[]
  {
    ghost var gone := if mesh.id in r.meshesToRender then r.meshesToRender[mesh.id].Handles() else {};
    removed := r.RemoveFromRendererReleasing(mesh);
    ghost var before := r.device.releases;
    ghost var cleanup := r.CleanupReleases();
    r.Cleanup();
    forall h | removed && h in gone ensures Occurrences(r.device.releases, h) == 1 {
      OccurrencesUnchangedBy(before, cleanup, h);
    }
  }
}
