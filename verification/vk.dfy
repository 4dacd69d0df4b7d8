/**
  The Vulkan values the ash helpers pass around: opaque handles, the result of a
  driver call, the flag words, and the create/allocate descriptions whose fields
  the helpers set. A driver call itself is outside the model; where a helper
  makes one, the driver's answer is an input (a value, or a function of the
  request when what was requested matters).
 */
module Vk {
  import opened Common

  /** A non-dispatchable Vulkan handle (`vk::Image`, `vk::CommandBuffer`, ...). */
  type Handle = nat

  /** `ash::prelude::VkResult<T>`: a value, or the `vk::Result` error code, named as its `Debug` prints it. */
  datatype VkResult<T> = VkOk(value: T) | VkErr(code: string)

  /** The `?` operator inside an `anyhow::Result` function: the code becomes the error. */
  function Try<T>(res: VkResult<T>): (r: Outcome<T>)
    ensures r.Ok? <==> res.VkOk?
    ensures res.VkOk? ==> r.value == res.value
    ensures res.VkErr? ==> r == Err(res.code)
  {
    match res
    case VkOk(v) => Ok(v)
    case VkErr(code) => Err(code)
  }

  /** `.unwrap()` on a `VkResult`: an error aborts with the code in the message. */
  function Unwrap<T>(res: VkResult<T>): (r: Outcome<T>)
    ensures r.Ok? <==> res.VkOk?
    ensures res.VkOk? ==> r.value == res.value
    ensures res.VkErr? ==> r == Panic("called `Result::unwrap()` on an `Err` value: " + res.code)
  {
    match res
    case VkOk(v) => Ok(v)
    case VkErr(code) => Panic("called `Result::unwrap()` on an `Err` value: " + code)
  }

  /** `.expect(msg)` on a `VkResult`. */
  function Expect<T>(res: VkResult<T>, msg: string): (r: Outcome<T>)
    ensures r.Ok? <==> res.VkOk?
    ensures res.VkOk? ==> r.value == res.value
    ensures res.VkErr? ==> r == Panic(msg + ": " + res.code)
  {
    match res
    case VkOk(v) => Ok(v)
    case VkErr(code) => Panic(msg + ": " + code)
  }

  /** `VkBool32`. */
  const False: u32 := 0

  /** `VK_MAX_MEMORY_TYPES`: the fixed length of `memory_types`. */
  const MaxMemoryTypes: nat := 32

  /** `VkMemoryType`: the property flags of one memory type and the heap it lives in. */
  datatype MemoryType = MemoryType(propertyFlags: bv32, heapIndex: u32)

  /** `[VkMemoryType; VK_MAX_MEMORY_TYPES]`. */
  type MemoryTypeArray = s: seq<MemoryType> | |s| == 32 witness seq(32, _ => MemoryType(0, 0))

  /** `VkPhysicalDeviceMemoryProperties` (the heaps are not used by the helpers). */
  datatype MemoryProperties = MemoryProperties(memoryTypeCount: u32, memoryTypes: MemoryTypeArray)

  /** `VkMemoryRequirements`. */
  datatype MemoryRequirements = MemoryRequirements(size: u64, alignment: u64, memoryTypeBits: bv32)

  /** `VkMemoryAllocateInfo`. */
  datatype MemoryAllocateInfo = MemoryAllocateInfo(allocationSize: u64, memoryTypeIndex: u32)

  /** Vulkan flag words are sets of bits: `contains` holds when every wanted bit is present. */
  predicate Contains(available: bv32, wanted: bv32) {
    available & wanted == wanted
  }

  const QueueGraphicsBit: bv32 := 0x1

  /** `VkQueueFamilyProperties`, reduced to its flags. */
  datatype QueueFamilyProperties = QueueFamilyProperties(queueFlags: bv32, queueCount: u32)

  datatype CommandBufferLevel = Primary | Secondary

  /** `VkCommandBufferAllocateInfo`. */
  datatype CommandBufferAllocateInfo = CommandBufferAllocateInfo(commandPool: Handle, level: CommandBufferLevel, commandBufferCount: u32)

  const CommandPoolResetCommandBufferBit: bv32 := 0x2

  /** `VkCommandPoolCreateInfo`. */
  datatype CommandPoolCreateInfo = CommandPoolCreateInfo(flags: bv32, queueFamilyIndex: u32)

  datatype Format = FormatUndefined | R8G8B8A8Unorm
  datatype ImageType = Type1d | Type2d | Type3d

  /** `VkImageCreateInfo`, reduced to the fields the helpers set. */
  datatype ImageCreateInfo = ImageCreateInfo(format: Format, imageType: ImageType)

  datatype ImageLayout = LayoutUndefined | LayoutGeneral | TransferSrcOptimal | TransferDstOptimal | ShaderReadOnlyOptimal | PresentSrc

  /** `VkImageSubresourceRange`. */
  datatype ImageSubresourceRange = ImageSubresourceRange(aspectMask: bv32, baseMipLevel: u32, levelCount: u32, baseArrayLayer: u32, layerCount: u32)

  const AccessTransferWriteBit: bv32 := 0x1000
  const PipelineStageTransferBit: bv32 := 0x1000

  /** `VkImageMemoryBarrier`, reduced to the fields the helpers set. */
  datatype ImageMemoryBarrier = ImageMemoryBarrier(
    image: Handle,
    dstAccessMask: bv32,
    oldLayout: ImageLayout,
    newLayout: ImageLayout,
    subresourceRange: ImageSubresourceRange)
}
