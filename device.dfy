/** The logical device (VkDevice) as far as the renderer's bookkeeping sees
    it. Every vkCreateX or vkAllocateX call that succeeds hands out a handle no
    earlier call has handed out; every vkDestroyX or vkFreeX call is recorded.
    What the GPU does with the objects is not modelled. */
module Gpu {
  import opened Common

  class Device {
    /** The next handle value to hand out. */
    var nextHandle: nat
    /** Every handle handed out so far. */
    ghost var issued: set<Handle>
    /** Handles created and never destroyed or freed since. */
    ghost var live: set<Handle>
    /** Every destroy/free call, in call order (a handle appears twice if it
        was released twice). */
    ghost var releases: seq<Handle>
    /** Byte size requested for each buffer created through CreateBuffer. */
    ghost var sizeOf: map<Handle, nat>

    ghost predicate Valid()
      reads this
    {
      && 0 < nextHandle
      && NULL_HANDLE !in issued
      && (forall h :: h in issued ==> h < nextHandle)
      && sizeOf.Keys <= issued
      && (forall i :: 0 <= i < |releases| ==> releases[i] in issued)
      && (forall h :: h in live <==> h in issued && h !in releases)
    }

    constructor ()
      ensures Valid()
      ensures issued == {} && live == {} && releases == [] && sizeOf == map[]
    {
      nextHandle := 1;
      issued := {};
      live := {};
      releases := [];
      sizeOf := map[];
    }

    /** A successful vkCreateX or vkAllocateX call: a handle never seen before. */
    method Allocate() returns (h: Handle)
      requires Valid()
      modifies this
      ensures Valid()
      ensures h != NULL_HANDLE && h !in old(issued)
      ensures issued == old(issued) + {h}
      ensures live == old(live) + {h}
      ensures releases == old(releases) && sizeOf == old(sizeOf)
    {
      h := nextHandle;
      nextHandle := nextHandle + 1;
      issued := issued + {h};
      live := live + {h};
    }

    /** vkDestroyX or vkFreeX on a handle this device handed out. The call is
        logged even when the handle was already released (a double release). */
    method Release(h: Handle)
      requires Valid()
      requires h in issued
      modifies this
      ensures Valid()
      ensures live == old(live) - {h}
      ensures releases == old(releases) + [h]
      ensures issued == old(issued) && sizeOf == old(sizeOf)
    {
      live := live - {h};
      releases := releases + [h];
    }

    /** createImage (VulkanRenderer.cpp:1512-1558): vkCreateImage, then
        vkAllocateMemory and vkBindImageMemory. Failures of those calls are
        not modelled. */
    method CreateImage() returns (image: Handle, memory: Handle)
      requires Valid()
      modifies this
      ensures Valid()
      ensures image != NULL_HANDLE && memory != NULL_HANDLE && image != memory
      ensures image !in old(issued) && memory !in old(issued)
      ensures issued == old(issued) + {image, memory}
      ensures live == old(live) + {image, memory}
      ensures releases == old(releases) && sizeOf == old(sizeOf)
    {
      image := Allocate();
      memory := Allocate();
    }

    /** createBuffer (VulkanUtils.h:176-212): vkCreateBuffer of `size` bytes,
        then vkAllocateMemory and vkBindBufferMemory. Failures of those calls
        are not modelled. */
    method CreateBuffer(size: nat) returns (buffer: Handle, memory: Handle)
      requires Valid()
      modifies this
      ensures Valid()
      ensures buffer != NULL_HANDLE && memory != NULL_HANDLE && buffer != memory
      ensures buffer !in old(issued) && memory !in old(issued)
      ensures issued == old(issued) + {buffer, memory}
      ensures live == old(live) + {buffer, memory}
      ensures releases == old(releases)
      ensures sizeOf == old(sizeOf)[buffer := size]
    {
      buffer := Allocate();
      memory := Allocate();
      sizeOf := sizeOf[buffer := size];
    }
  }
}
