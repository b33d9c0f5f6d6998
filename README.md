# Vulkan renderer core, modelled in Dafny

This project models the bookkeeping core of a small Vulkan renderer written
in C++. It does not model what the GPU computes. It covers:

- the mesh registry `meshesToRender`: addToRenderer, addToRendererTextured,
  updateMeshTransform, removeFromRenderer, and the loops of cleanup that
  destroy textures, meshes and sync objects;
- the texture tables (images, their memory, their views, sampler
  descriptor sets) that createTexture, createTextureImage and
  createTextureSamplerDescriptor grow;
- the two-slot frame ring of draw: wait on the slot's fence, reset it,
  acquire, record, submit, present, advance;
- recordCommands, as the sequence of commands written into one swapchain
  image's command buffer;
- the GPU mesh classes VkMesh and the older Mesh, with their staged buffer
  uploads and destroyDataBuffers;
- the read-only choices made from what the device reports: surface format,
  present mode, swapchain extent and image count, depth format, queue
  families, extension and layer checks, and findMemoryTypeIndex;
- importModel of main.cpp and the frame-rate gate of its render loop.

The logical device is a class `Gpu.Device` that hands out fresh handles and
logs every destroy/free call. So "destroyed exactly once" and "leaked" are
statements about that log. Whatever the driver or a file returns (the
result of vkBeginCommandBuffer, vkQueueSubmit or vkAllocateDescriptorSets,
the image index vkAcquireNextImageKHR hands back, what stb_image reads, the
clock) is a parameter of the operation.

Every operation of VulkanRenderer keeps one invariant (`Valid`). Each
registered mesh owns four distinct live buffer handles. No two meshes share
a handle. No mesh shares a handle with the texture tables, the sampler sets
or the sync objects. The texture tables grow in step, and every entry was
handed out by the device.

Modules, one per file:

- `Common`: exceptions as values, uint32_t arithmetic, handles.
- `Geometry`: vectors, matrices and the CPU mesh.
- `Keys`: the ascending key order std::map iterates in.
- `Gpu`: the device.
- `VkMeshes` and `Meshes`: VkMesh.cpp and Mesh.cpp.
- `VulkanUtils`: VulkanUtils.h.
- `Selection`: the read-only choices.
- `Commands`: the recorded command buffer.
- `Renderer`: class VulkanRenderer.
- `Import`: importModel.
- `FrameGate`: the render loop's gate.

Where the headers and the implementation files disagree, the model follows
the implementation files. Mesh.h declares an older class than the one
Mesh.cpp defines. VulkanRenderer.h declares a nested `modelsToRender` map and
model-level entry points that VulkanRenderer.cpp does not implement. The
model follows Mesh.cpp and VulkanRenderer.cpp.

## Model

| member | source | states |
|---|---|---|
| Common.ToU32 | VulkanRenderer.cpp:282 | the uint32_t conversion lies in [0, 2^32), is the identity on that range and is congruent to its argument modulo 2^32 |
| Geometry.Identity | VulkanRenderer.cpp:1194 | glm::identity is a 16-cell matrix with ones on the diagonal and zeros in every other cell |
| Gpu.Device.Allocate | VulkanRenderer.cpp:1512-1558 | a successful create/allocate returns a non-null handle never issued before and makes it live; the release log is unchanged |
| Gpu.Device.Release | VulkanRenderer.cpp:57-62 | a destroy/free removes the handle from the live set and appends it to the release log, even when it was released before |
| Gpu.Device.CreateImage | VulkanRenderer.cpp:1512-1558 | createImage yields two distinct fresh live handles, the image and its memory |
| Gpu.Device.CreateBuffer | VulkanUtils.h:176-212 | createBuffer yields two distinct fresh live handles and records the requested byte size of the buffer |
| VkMeshes.AttributeOffset | VkMesh.h:10-16 | the offsets of pos, color, normal and uv are 0, 12, 24 and 36, and each attribute's offset plus its size fits inside the 44-byte Vertex |
| VkMeshes.PipelineAttributes | VulkanRenderer.cpp:487-497 | the pipeline reads three attributes (pos, color, uv) at increasing, non-overlapping offsets and never reads the normal |
| VkMeshes.UploadBuffer | VkMesh.cpp:74-101 | the staged upload leaves one device-local buffer of `size` bytes and its memory live; the staging pair is created fresh and released before returning |
| VkMeshes.VkMesh.constructor | VkMesh.cpp:3-13 | the default VkMesh has zero counts, null handles and no device |
| VkMeshes.VkMesh.Create | VkMesh.cpp:15-25 | the mesh records the counts and the texture index; it owns four distinct, fresh, live handles; the vertex buffer holds 44 bytes per vertex and the index buffer 4 per index; both staging pairs are released |
| VkMeshes.VkMesh.SetTransformMat | VkMesh.cpp:69-72 | only the transform changes, and getTransformMat then returns the value set |
| VkMeshes.VkMesh.DestroyDataBuffers | VkMesh.cpp:55-62 | releases index buffer, index memory, vertex buffer, vertex memory in that order, and those four stop being live |
| VkMeshes.DestroyBuffersOf | VkMesh.cpp:55-62 | destroyDataBuffers on a copy of a mesh releases the same four handles as the original would |
| VkMeshes.ReleaseOrderCoversHandles | VkMesh.cpp:55-62 | destroyDataBuffers releases exactly the mesh's four handles, each once |
| Meshes.Mesh.constructor | Mesh.cpp:3-13 | the default Mesh has zero counts, null handles and no device |
| Meshes.Mesh.Create | Mesh.cpp:15-24 | the mesh records the counts and owns fresh, non-null, live buffers and memories whose byte sizes match the data; the staging pairs are released |
| Meshes.Mesh.DestroyDataBuffers | Mesh.cpp:48-55 | releases the mesh's four handles in source order, and they stop being live |
| VulkanUtils.QueueFamilyIndicesValidity | VulkanUtils.h:16-28 | fresh indices are invalid; they become valid exactly when both families are non-negative, and setting only one is not enough |
| VulkanUtils.SwapChainDetailsValidity | VulkanUtils.h:30-40 | swap-chain details are valid exactly when both the surface-format list and the present-mode list are non-empty; emptying either makes them invalid, and the surface capabilities play no part |
| VulkanUtils.FindMemoryTypeIndex | VulkanUtils.h:110-125 | returns the first memory type, in index order, that is allowed by the mask and has every requested property |
| Selection.DefineSurfaceFormat | VulkanRenderer.cpp:936-955 | a single UNDEFINED entry yields the preferred format; otherwise the preferred format if listed, else the first listed |
| Selection.DefinePresentationMode | VulkanRenderer.cpp:1073-1086 | MAILBOX exactly when the surface lists it, FIFO otherwise |
| Selection.Clamp | VulkanRenderer.cpp:1109-1110 | std::max(lo, std::min(hi, x)) lies in [lo, hi], keeps values already inside and maps values outside to the nearer bound |
| Selection.DefineSwapChainExtent | VulkanRenderer.cpp:1088-1114 | a fixed current extent is used as is; an open one clamps the uint32_t window size into the surface's bounds, per dimension |
| Selection.ExtentWithinBounds | VulkanRenderer.cpp:1088-1114 | an open extent always lands within the surface bounds and keeps a window size already inside them |
| Selection.SwapchainImageCount | VulkanRenderer.cpp:281-290 | the count is a uint32_t, never above a non-zero maximum, and is min + 1 when that fits |
| Selection.SwapchainImageCountBounds | VulkanRenderer.cpp:281-290 | the count is at least the minimum for a consistent surface; a minimum of UINT32_MAX with no maximum wraps to 0 |
| Selection.DefineSupportedFormat | VulkanRenderer.cpp:1455-1469 | throws exactly when no candidate offers the features for the tiling; otherwise returns the first candidate, in list order, that does |
| Selection.GetQueueFamilies | VulkanRenderer.cpp:1471-1510 | valid exactly when the device has both a graphics and a presentation family; each index names a family of its kind; the scan stops as early as it can; each index is the last of its kind scanned |
| Selection.AllListed | VulkanRenderer.cpp:1407-1425 | true exactly when every required name is in the available list |
| Selection.IsDeviceSupportsRequiredExtensions | VulkanRenderer.cpp:1391-1426 | true exactly when the device reports VK_KHR_swapchain |
| Selection.CheckValidationLayerSupport | VulkanRenderer.cpp:1609-1634 | true exactly when the instance reports VK_LAYER_KHRONOS_validation |
| Selection.IsInstanceExtensionsSupported | VulkanRenderer.cpp:1352-1384 | as written: true exactly when some available extension differs from the first required one |
| Selection.IsInstanceExtensionsSupportedCorrected | VulkanRenderer.cpp:1352-1384 | corrected: true exactly when every required extension is available |
| Selection.InstanceCheckAcceptsMissingExtension | VulkanRenderer.cpp:1366-1372 | the as-written check accepts an instance that lacks the required extension |
| Selection.InstanceCheckRejectsExactMatch | VulkanRenderer.cpp:1366-1372 | the as-written check rejects an instance that offers exactly the required extension |
| Selection.InstanceCheckIgnoresTheRequiredName | VulkanRenderer.cpp:1366-1380 | the as-written verdict does not change when every copy of the required name is removed from the available list |
| Commands.MeshGroup | VulkanRenderer.cpp:1032-1057 | one mesh contributes five commands |
| Commands.SortedKeysIn | VulkanRenderer.cpp:1030 | std::map's ascending key order lists every registered id exactly once |
| Commands.FramedShape | VulkanRenderer.cpp:1024-1063 | the mesh loop's commands come after the begin-render-pass and bind-pipeline commands and before the end-render-pass command, shifted two places |
| Commands.FramedSamplerRefs | VulkanRenderer.cpp:1024-1063 | the commands around the mesh loop bind no sampler set |
| Commands.GroupsAt | VulkanRenderer.cpp:1030-1060 | group i occupies positions 5i to 5i+4 and is the group of the i-th key's mesh |
| Commands.GroupsLength | VulkanRenderer.cpp:1030-1060 | the loop records five commands per key |
| Commands.RecordedShape | VulkanRenderer.cpp:994-1071 | a recorded buffer has 3 + 5n commands: begin on this image's framebuffer, bind pipeline, the group of the mesh with the i-th smallest id at 2+5i, end |
| Commands.DrawCountAppend | VulkanRenderer.cpp:1030-1060 | draw counts add up over concatenation |
| Commands.GroupsDrawCount | VulkanRenderer.cpp:1030-1060 | the loop records one draw per key |
| Commands.RecordedDrawCount | VulkanRenderer.cpp:994-1071 | exactly one indexed draw per registered mesh |
| Commands.SamplerRefsAppend | VulkanRenderer.cpp:1050-1054 | the sampler sets bound by a concatenation are in range exactly when those of both parts are |
| Commands.GroupsSamplerRefs | VulkanRenderer.cpp:1050-1054 | the loop binds only in-range sampler sets exactly when every visited mesh's texture index is in range |
| Commands.RecordedSamplerRefs | VulkanRenderer.cpp:1050-1054 | the recorded sampler sets are in range exactly when every registered texture index is; any untextured mesh (index -1) puts one out of range |
| Renderer.DescriptorPoolMaxSets | VulkanRenderer.cpp:855 | maxSets is a uint32_t, and is the image count plus MAX_OBJECTS when that fits |
| Renderer.SlotRing | VulkanRenderer.cpp:1171 | from slot 0, the n-th successful draw uses slot n mod 2; consecutive draws use different slots and a slot recurs every MAX_FRAME_DRAWS draws |
| Renderer.BuildVertices | VulkanRenderer.cpp:1184-1191 | vertex i takes position i, the given colour, a zero normal and texture coordinate i |
| Renderer.DrawCallsUseOneSlot | VulkanRenderer.cpp:1116-1172 | every call of a draw names the current slot's fence and semaphores and the acquired image; the fence is waited on first; a submit happens exactly when recording succeeded; a present exactly when the submit succeeded |
| Renderer.FailedDrawBlocksNextDraw | VulkanRenderer.cpp:1124-1168 | a draw that throws before its submit leaves the slot's fence reset, and the next draw on it never returns; a failed present does not block; a presented draw never blocks the next |
| Renderer.MeshReleasesAppend | VulkanRenderer.cpp:83-86 | visiting one more mesh appends its four releases |
| Renderer.TextureReleasesAppend | VulkanRenderer.cpp:57-62 | one more texture appends its view, image and memory |
| Renderer.SyncReleasesAppend | VulkanRenderer.cpp:89-94 | one more slot appends its render-finished semaphore, image-available semaphore and fence |
| Renderer.OccurrencesAppend | VulkanRenderer.cpp:83-86 | occurrence counts add up over concatenation |
| Renderer.OccurrencesInReleaseOrder | VkMesh.cpp:55-62 | destroyDataBuffers releases each of the mesh's handles once and no other |
| Renderer.MeshReleasesOnce | VulkanRenderer.cpp:83-86 | visiting distinct ids of meshes with disjoint handles releases each of their handles exactly once and nothing else |
| Renderer.CleanupReleasesEachMeshHandleOnce | VulkanRenderer.cpp:83-87 | cleanup's mesh loop releases every handle of every registered mesh exactly once, and no other handle |
| Renderer.RemovedMeshNeverReleased | VulkanRenderer.cpp:1242-1251 | after removeFromRenderer as written, cleanup's mesh loop never releases any handle of the removed mesh (the whole of cleanup is covered by Renderer.RemoveThenCleanup) |
| Renderer.RemovedMeshReleasedOnce | VulkanRenderer.cpp:1242-1251 | with the corrected removal, each handle of the removed mesh is released exactly once over removal plus cleanup's mesh loop (the whole of cleanup is covered by Renderer.RemoveReleasingThenCleanup) |
| Renderer.RecordMeshes | VulkanRenderer.cpp:1029-1060 | the loop records the groups of the registered meshes in ascending id order |
| Renderer.DestroyTextures | VulkanRenderer.cpp:57-62 | releases each texture's view, image and memory, texture by texture |
| Renderer.DestroyMeshes | VulkanRenderer.cpp:83-86 | releases each registered mesh's buffers in ascending id order |
| Renderer.DestroySyncObjects | VulkanRenderer.cpp:89-94 | releases each slot's two semaphores and fence, slot by slot |
| Renderer.VulkanRenderer.constructor | VulkanRenderer.cpp:7-47 | starts with an empty registry and texture tables, currentFrame 0 and two slots whose fences are created signalled; the renderer invariant holds |
| Renderer.VulkanRenderer.ImageAppendedKeepsValid | VulkanRenderer.cpp:1334-1336 | appending a fresh image and its memory keeps the invariant, with one view pending; no registered mesh owns either handle |
| Renderer.VulkanRenderer.MeshRegisteredKeepsValid | VulkanRenderer.cpp:1195 | registering a mesh with fresh, distinct, live handles under an unused id keeps the registry's handles disjoint from each other and from every texture, sampler and sync handle |
| Renderer.VulkanRenderer.AddToRenderer | VulkanRenderer.cpp:1174-1200 | adds exactly when the id is unused; the new mesh is built from the CPU mesh with the colour, texture index -1 and the identity transform, owns fresh handles, and is the only registry change; an existing id changes nothing |
| Renderer.VulkanRenderer.CreateTextureImage | VulkanRenderer.cpp:1298-1345 | an unreadable file throws loadTexture's message and changes nothing; otherwise a fresh image and memory are appended, the index of the new image is returned, and a staging buffer of width*height*4 bytes is created and released |
| Renderer.VulkanRenderer.CreateTextureSamplerDescriptor | VulkanRenderer.cpp:1636-1671 | a failed allocation throws and changes nothing; otherwise a fresh set written with the view is appended and its index returned |
| Renderer.VulkanRenderer.CreateTexture | VulkanRenderer.cpp:1428-1439 | an unreadable file changes nothing; a loaded one appends a fresh image, memory and view to their tables; the returned index is the new sampler set's, written with that view; a failed sampler allocation leaves the image, memory and view live in their tables and adds no set |
| Renderer.VulkanRenderer.AddToRendererTextured | VulkanRenderer.cpp:1202-1229 | false for a registered id and an unreadable file change nothing; otherwise each texture table keeps its prefix and gains one fresh entry, and a failed sampler allocation throws with the image, memory and view left live; on success the sampler table gains one fresh set written with the new view, the mesh has the zero colour, that set's index and fresh handles, and the live handles grow by exactly the four texture handles and the mesh's four buffers |
| Renderer.VulkanRenderer.UpdateMeshTransform | VulkanRenderer.cpp:1231-1240 | true exactly when the id is registered; only that entry's transform changes |
| Renderer.VulkanRenderer.RemoveFromRenderer | VulkanRenderer.cpp:1242-1251 | true exactly when the id was registered; the id is erased, and its buffers stay live with no registered mesh owning them and none of them among the releases a later cleanup makes |
| Renderer.VulkanRenderer.RemoveFromRendererReleasing | VulkanRenderer.cpp:1242-1251 | corrected removal: the mesh's four handles are released, in destroyDataBuffers order, before the id is erased; each then occurs exactly once in the release log and is not among the releases a later cleanup makes |
| Renderer.VulkanRenderer.MeshReleasedKeepsValid | VulkanRenderer.cpp:1242-1251 | erasing an id after destroying its buffers keeps the renderer invariant |
| Renderer.RemoveThenCleanup | VulkanRenderer.cpp:1242-1251 | removeFromRenderer followed by cleanup: every buffer of the removed mesh is still live afterwards |
| Renderer.RemoveReleasingThenCleanup | VulkanRenderer.cpp:1242-1251 | the corrected removal followed by cleanup: every buffer of the removed mesh occurs exactly once in the release log and is no longer live |
| Renderer.VulkanRenderer.RecordCommands | VulkanRenderer.cpp:994-1071 | throws the begin or end message when that call fails; once begun, the image's buffer holds exactly Recorded for the registry; no other buffer changes |
| Renderer.VulkanRenderer.Draw | VulkanRenderer.cpp:1116-1172 | the result, the device calls and the slot's fence follow DrawResultOf, DrawCalls and FenceAfter; other slots are untouched; currentFrame advances exactly after a present |
| Renderer.VulkanRenderer.CleanupReleasesOnly | VulkanRenderer.cpp:49-116 | cleanup releases no handle that is outside the texture tables, the sync objects and the registered meshes |
| Renderer.TextureReleasesOutside | VulkanRenderer.cpp:57-62 | the texture loop releases only views, images and memories of the texture tables |
| Renderer.SyncReleasesOutside | VulkanRenderer.cpp:89-94 | the sync-object loop releases only the slots' semaphores and fences |
| Renderer.VulkanRenderer.Cleanup | VulkanRenderer.cpp:49-116 | releases textures, then registered meshes in ascending id order, then sync objects; empties the registry; exactly the handles released stop being live |
| Import.FlattenIndicesAt | main.cpp:61-67 | entry 3j+k of the index list is face j's k-th index plus one, as a uint32_t |
| Import.ImportedMeshShape | main.cpp:42-73 | mesh i has id i, one copied position, normal and 2-D texture coordinate per vertex, and three indices per face |
| Import.ImportedIndexFetchesFaceVertex | main.cpp:64-66 | with the draw's vertex offset of -1, every index entry fetches exactly the vertex the face names, inside the vertex buffer |
| Import.CopyAttributes | main.cpp:51-60 | the per-vertex loop copies every position, normal and texture coordinate |
| Import.FlattenFaces | main.cpp:54 | the face loop fills exactly the flattened, shifted index list |
| Import.ImportMesh | main.cpp:50-69 | one iteration builds the imported mesh of sub-mesh i |
| Import.ImportModel | main.cpp:42-73 | one CPU mesh per sub-mesh, mesh i built from sub-mesh i |
| FrameGate.RunsAreSpaced | main.cpp:128 | frames that run are at least TARGET_FRAME_TIME (16 ms) apart, the first that long after the last frame before |
| FrameGate.AllRunExactlyWhenSpaced | main.cpp:121-136 | every iteration runs exactly when the iteration times are themselves spaced by 16 ms |
| FrameGate.RunsComeFromIterations | main.cpp:121-136 | at most one frame runs per iteration, and only at an iteration's time |
| FrameGate.FinalPreviousIsLastRun | main.cpp:131 | previousFrameTime ends at the time of the last frame that ran, or is unchanged when none ran |
| FrameGate.FrameClock.constructor | main.cpp:35-37 | the clock globals start at zero |
| FrameGate.FrameClock.Tick | main.cpp:125-135 | an iteration runs exactly when the gate is open; a run records the elapsed time and moves previousFrameTime to now; a skip leaves both unchanged |
| FrameGate.FrameClock.Loop | main.cpp:121-136 | frames run at RunTimes, and previousFrameTime ends at FinalPrevious |

## Left out

- Instance, device, swapchain, render pass, pipeline, depth buffer, uniform buffer and descriptor-pool creation (init's other steps): they configure the driver and keep no state the modelled operations read, beyond the counts passed to the constructor.
- Floating point: positions, colours, texture coordinates and matrices are reals that are only copied and compared. deltaTime is kept as integer milliseconds.
- I/O and foreign calls: Assimp's ReadFile, stb_image, GLFW windows, events and the clock, and updateUniformBuffers' memcpy. Their results are parameters.
- The model-level API that VulkanRenderer.h and main.cpp:114-117 use (`addToRenderer(modelId, count, meshes, color)`, `modelsToRender`, `updateModelTransform`): VulkanRenderer.cpp does not implement it.
- Renderer.VulkanRenderer.Draw: the result of vkAcquireNextImageKHR is ignored by the source; the image index it returns is a parameter.
- Gpu.Device.CreateImage: the createImage and createImageView failures (vkCreateImage, vkAllocateMemory, vkCreateImageView) are not modelled. Likewise createBuffer's failures.
- Renderer.ImageByteSize: the int multiplication width * height * 4 in loadTexture can overflow for huge images; the model computes the exact product.
- Renderer.VulkanRenderer.CreateTextureSamplerDescriptor: exhausting the descriptor pool's MAX_OBJECTS sampler descriptors is taken as the allocation failing; the driver's own answer is the `allocationOk` parameter.
- Renderer.VulkanRenderer.Cleanup: the descriptor pool, the sampler descriptor sets, the depth buffer, the uniform buffers and the other objects cleanup destroys are outside the device log.
- The default-constructed VkMesh temporaries in addToRenderer and addToRendererTextured: they own no handles, and their destructor is empty.
- Renderer.VulkanRenderer.RecordCommands: an untextured mesh makes the source index vkSamplerDescriptorSets with -1. The model records the reference as it is and proves (Commands.RecordedSamplerRefs) that it is then out of range; it does not model what the driver does with it.
- VulkanUtils.FindMemoryTypeIndex: requires that some memory type matches; the C++ function falls off its end with no return value otherwise.
- Import.ImportModel: requires triangle faces and a normal and a texture coordinate for every vertex; the source reads out of bounds otherwise. A null scene from a failed ReadFile is not modelled.
- FrameGate.FrameClock.Tick: the int millisecond clock wrapping after about 24 days is not modelled; times are unbounded integers.
- Meshes.Mesh.Create: Mesh.h:10-14 declares a 24-byte Vertex of position and colour, while Mesh.cpp is built against VkMesh.h's Vertex; the model sizes Mesh's vertex buffer with VkMesh.h's 44-byte layout (VkMeshes.VERTEX_SIZE).
- Renderer.VulkanRenderer.AddToRenderer and Renderer.VulkanRenderer.AddToRendererTextured: require at least as many texture coordinates as vertices; the source reads `meshTexCoords[i]` out of bounds otherwise (VulkanRenderer.cpp:1189, 1216). importModel, the only caller, always supplies one coordinate per vertex.
- Selection.IsInstanceExtensionsSupported: the outer loop of the source returns on its first iteration on every path, so it is modelled as an `if` on the first required name.

## Findings

| source | as written | input that shows it | evidently intended | confidence | as-written member | corrected member |
|---|---|---|---|---|---|---|
| VulkanRenderer.cpp:1366-1380 | `if (strcmp(...))` counts a different name as a match, and `return true` inside the outer loop ends the check after the first required extension | required ["VK_KHR_surface"], available ["VK_EXT_debug_utils"] is accepted; available ["VK_KHR_surface"] is rejected | accept exactly when every required extension is available (`strcmp(...) == 0`, `return true` after the loop) | high; not executed | Selection.InstanceCheckAcceptsMissingExtension | Selection.IsInstanceExtensionsSupportedCorrected |
| VulkanRenderer.cpp:1242-1251 | removeFromRenderer erases the registry entry without destroyDataBuffers, so cleanup never destroys the removed mesh's buffers | add a mesh, remove it, call cleanup: its four handles are never released | destroy the mesh's buffers before erasing it, so every buffer is destroyed exactly once | high; not executed | Renderer.RemoveThenCleanup | Renderer.RemoveReleasingThenCleanup |
