/** Vocabulary shared by every module: exceptions as values, 32-bit unsigned
    arithmetic and opaque Vulkan handles. */
module Common {

  /** The outcome of a call that either returns normally or throws a
      std::runtime_error carrying a message. */
  datatype Except<+T> = Return(value: T) | Throw(message: string)

  /** 2^32: uint32_t arithmetic wraps modulo this. */
  const U32_MODULUS: int := 0x1_0000_0000
  /** std::numeric_limits<uint32_t>::max(). */
  const U32_MAX: int := 0xFFFF_FFFF

  /** Conversion of any integer to uint32_t (a static_cast or an unsigned
      addition that wraps). Dafny's `%` is Euclidean, which is exactly the
      modular conversion C++ performs for negative values too. */
  function ToU32(x: int): (r: int)
    ensures 0 <= r < U32_MODULUS
    ensures 0 <= x < U32_MODULUS ==> r == x
    ensures (r - x) % U32_MODULUS == 0
  {
    x % U32_MODULUS
  }

  /** An opaque Vulkan handle (VkBuffer, VkDeviceMemory, VkImage, VkFence, ...). */
  type Handle = nat

  /** VK_NULL_HANDLE. */
  const NULL_HANDLE: Handle := 0
}
