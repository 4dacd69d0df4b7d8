/**
  The ash helper layer: choosing a memory type for an allocation, creating an
  image together with its bound memory, wrapping the command buffers a pool
  allocates, and the command-buffer writer that must be finished before it is
  dropped. Objects that keep their device alive hold it by reference; handles are
  opaque numbers the driver hands out.
 */
module Pyroclastic {
  import opened Common
  import opened Vk

  /** `InnerDevice`: the logical device, with the log of the commands recorded through it. */
  class Device {
    var calls: seq<DeviceCall>

    constructor ()
      ensures calls == []
    {
      calls := [];
    }

    /**
      `record_command_buffer`: locks the device, begins `buffer`, and on success
      hands out a writer, not yet finished, that holds the device.
     */
    method RecordCommandBuffer(buffer: Handle, begun: VkResult<()>) returns (r: VkResult<CommandBufferWriter>)
      modifies this
      ensures calls == old(calls) + [BeginCommandBuffer(buffer)]
      ensures r.VkOk? <==> begun.VkOk?
      ensures begun.VkErr? ==> r == VkErr(begun.code)
      ensures r.VkOk? ==> fresh(r.value) && r.value.device == this && !r.value.finished
    {
      calls := calls + [BeginCommandBuffer(buffer)];
      if begun.VkErr? {
        return VkErr(begun.code);
      }
      var writer := new CommandBufferWriter(this);
      return VkOk(writer);
    }
  }

  /** The device calls the writer makes, in the order it makes them. */
  datatype DeviceCall =
    | BeginCommandBuffer(buffer: Handle)
    | EndCommandBuffer(buffer: Handle)
    | PipelineBarrier(buffer: Handle, srcStage: bv32, dstStage: bv32, barrier: ImageMemoryBarrier)

  /** `Image`, `DeviceMemory`: a handle and the device that owns it. */
  datatype Image = Image(device: Device, image: Handle)
  datatype DeviceMemory = DeviceMemory(device: Device, memory: Handle)

  /** `ImageBuf`: an image, the memory bound to it, and the subresource range it covers. */
  datatype ImageBuf = ImageBuf(image: Image, memory: DeviceMemory, subresource: ImageSubresourceRange)

  /** `Queue`, `CommandPool`, `CommandBuffer`: each keeps its device. */
  datatype Queue = Queue(device: Device, queue: Handle)
  datatype CommandPool = CommandPool(queue: Queue, pool: Handle)
  datatype CommandBuffer = CommandBuffer(device: Device, buffer: Handle)

  /**
    Memory type `i` may back the allocation: bit `i` of the requirement's type
    bits is set, and the type has every requested property flag.
   */
  predicate Suitable(req: MemoryRequirements, props: MemoryProperties, flags: bv32, i: nat)
    requires i < MaxMemoryTypes
  {
    (1 as bv32 << i) & req.memoryTypeBits != 0 && Contains(props.memoryTypes[i].propertyFlags, flags)
  }

  /** The first suitable memory type at or after `from`, among the first `memoryTypeCount`. */
  function FirstSuitableFrom(req: MemoryRequirements, props: MemoryProperties, flags: bv32, from: nat): (r: Option<u32>)
    requires props.memoryTypeCount <= MaxMemoryTypes
    ensures r.Some? ==> from <= r.value < props.memoryTypeCount && Suitable(req, props, flags, r.value)
    ensures r.Some? ==> forall j :: from <= j < r.value ==> !Suitable(req, props, flags, j)
    ensures r.None? <==> forall j :: from <= j < props.memoryTypeCount ==> !Suitable(req, props, flags, j)
    decreases props.memoryTypeCount - from
  {
    if from >= props.memoryTypeCount then None
    else if Suitable(req, props, flags, from) then Some(from)
    else FirstSuitableFrom(req, props, flags, from + 1)
  }

  /**
    What `find_memorytype_index` yields: the slice of the first
    `memoryTypeCount` types aborts when the count exceeds the array, and
    otherwise the first suitable index, if any.
   */
  function MemoryTypeIndex(req: MemoryRequirements, props: MemoryProperties, flags: bv32): Outcome<Option<u32>> {
    if props.memoryTypeCount > MaxMemoryTypes then
      Panic("range end index " + NatToString(props.memoryTypeCount) + " out of range for slice of length 32")
    else
      Ok(FirstSuitableFrom(req, props, flags, 0))
  }

  /**
    The memory-type rule: a chosen index is in range, allowed by the
    requirement's bits and has every requested flag; no smaller index
    qualifies; and nothing is chosen exactly when no index qualifies.
   */
  lemma MemoryTypeIndexChoice(req: MemoryRequirements, props: MemoryProperties, flags: bv32)
    requires props.memoryTypeCount <= MaxMemoryTypes
    ensures MemoryTypeIndex(req, props, flags).Ok?
    ensures MemoryTypeIndex(req, props, flags).value.Some? ==>
      MemoryTypeIndex(req, props, flags).value.value < props.memoryTypeCount
    ensures MemoryTypeIndex(req, props, flags).value.Some? ==>
      Suitable(req, props, flags, MemoryTypeIndex(req, props, flags).value.value)
    ensures MemoryTypeIndex(req, props, flags).value.Some? ==>
      forall j: nat :: j < MemoryTypeIndex(req, props, flags).value.value ==> !Suitable(req, props, flags, j)
    ensures MemoryTypeIndex(req, props, flags).value.None? <==>
      forall j: nat :: j < props.memoryTypeCount ==> !Suitable(req, props, flags, j)
  {
  }

  /** `find_memorytype_index`: scans the types in order and stops at the first suitable one. */
  method FindMemorytypeIndex(req: MemoryRequirements, props: MemoryProperties, flags: bv32) returns (r: Outcome<Option<u32>>)
    ensures r == MemoryTypeIndex(req, props, flags)
  {
    if props.memoryTypeCount > MaxMemoryTypes {
      return Panic("range end index " + NatToString(props.memoryTypeCount) + " out of range for slice of length 32");
    }
    var index: nat := 0;
    while index < props.memoryTypeCount
      invariant index <= props.memoryTypeCount
      invariant FirstSuitableFrom(req, props, flags, index) == FirstSuitableFrom(req, props, flags, 0)
      decreases props.memoryTypeCount - index
    {
      if Suitable(req, props, flags, index) {
        return Ok(Some(index));
      }
      index := index + 1;
    }
    return Ok(None);
  }

  /**
    The driver's side of `create_image_owned`: the answers to creating the
    image, to asking for its memory requirements, to allocating the memory
    (as a function of the request, whose type index is what the helper
    chooses) and to binding memory to the image at an offset.
   */
  datatype ImageDriver = ImageDriver(
    memoryProperties: MemoryProperties,
    createImage: ImageCreateInfo -> VkResult<Handle>,
    imageMemoryRequirements: Handle -> MemoryRequirements,
    allocateMemory: MemoryAllocateInfo -> VkResult<Handle>,
    bindImageMemory: (Handle, Handle, nat) -> VkResult<()>)

  const NoMemoryTypeForImage := "Unable to find suitable memory index for image."

  /**
    `create_image_owned`: create the image, pick a memory type for its
    requirements, allocate that much memory of that type, bind it at offset 0.
   */
  function CreateImageOwned(device: Device, driver: ImageDriver, imgInfo: ImageCreateInfo, subresource: ImageSubresourceRange, memoryFlags: bv32): (r: Outcome<ImageBuf>)
    ensures driver.createImage(imgInfo).VkErr? ==> r == Err(driver.createImage(imgInfo).code)
    ensures r.Ok? ==> r.value.subresource == subresource && r.value.image.device == device && r.value.memory.device == device
    ensures r.Ok? ==> driver.createImage(imgInfo) == VkOk(r.value.image.image)
  {
    var image :- Try(driver.createImage(imgInfo));
    var req := driver.imageMemoryRequirements(image);
    var found :- MemoryTypeIndex(req, driver.memoryProperties, memoryFlags);
    if found.None? then Err(NoMemoryTypeForImage)
    else
      var memory :- Try(driver.allocateMemory(MemoryAllocateInfo(req.size, found.value)));
      var _ :- Try(driver.bindImageMemory(image, memory, 0));
      Ok(ImageBuf(Image(device, image), DeviceMemory(device, memory), subresource))
  }

  /**
    The memory of a created image: allocated at the image's required size,
    from the first memory type the requirement and the flags allow, and
    bound to the image at offset 0.
   */
  lemma CreateImageOwnedMemory(device: Device, driver: ImageDriver, imgInfo: ImageCreateInfo, subresource: ImageSubresourceRange, memoryFlags: bv32)
    requires CreateImageOwned(device, driver, imgInfo, subresource, memoryFlags).Ok?
    ensures var buf := CreateImageOwned(device, driver, imgInfo, subresource, memoryFlags).value;
      var req := driver.imageMemoryRequirements(buf.image.image);
      var found := FirstSuitableFrom(req, driver.memoryProperties, memoryFlags, 0);
      driver.memoryProperties.memoryTypeCount <= MaxMemoryTypes && found.Some? &&
      driver.allocateMemory(MemoryAllocateInfo(req.size, found.value)) == VkOk(buf.memory.memory) &&
      driver.bindImageMemory(buf.image.image, buf.memory.memory, 0).VkOk?
  {
  }

  /**
    When the image is created but no memory type qualifies, the helper
    returns the "no suitable memory index" error.
   */
  lemma CreateImageOwnedNoMemoryType(device: Device, driver: ImageDriver, imgInfo: ImageCreateInfo, subresource: ImageSubresourceRange, memoryFlags: bv32)
    requires driver.createImage(imgInfo).VkOk?
    requires driver.memoryProperties.memoryTypeCount <= MaxMemoryTypes
    requires forall j: nat :: j < driver.memoryProperties.memoryTypeCount ==>
      !Suitable(driver.imageMemoryRequirements(driver.createImage(imgInfo).value), driver.memoryProperties, memoryFlags, j)
    ensures CreateImageOwned(device, driver, imgInfo, subresource, memoryFlags) == Err(NoMemoryTypeForImage)
  {
  }

  /** `allocate_command_buffers_tracked` sends the caller's request with the pool replaced by its own. */
  function PoolAllocateInfo(pool: CommandPool, info: CommandBufferAllocateInfo): (sent: CommandBufferAllocateInfo)
    ensures sent.commandPool == pool.pool
    ensures sent.level == info.level && sent.commandBufferCount == info.commandBufferCount
  {
    info.(commandPool := pool.pool)
  }

  /**
    `allocate_command_buffers_tracked`: one wrapper per buffer the driver
    allocates, in order, each holding the pool's device; a driver error is
    returned as is.
   */
  function AllocateCommandBuffersTracked(
    pool: CommandPool,
    info: CommandBufferAllocateInfo,
    allocate: CommandBufferAllocateInfo -> VkResult<seq<Handle>>): (r: VkResult<seq<CommandBuffer>>)
    ensures r.VkOk? <==> allocate(PoolAllocateInfo(pool, info)).VkOk?
    ensures r.VkErr? ==> r.code == allocate(PoolAllocateInfo(pool, info)).code
    ensures r.VkOk? ==> |r.value| == |allocate(PoolAllocateInfo(pool, info)).value|
    ensures r.VkOk? ==> forall k :: 0 <= k < |r.value| ==>
      r.value[k] == CommandBuffer(pool.queue.device, allocate(PoolAllocateInfo(pool, info)).value[k])
  {
    match allocate(PoolAllocateInfo(pool, info))
    case VkErr(code) => VkErr(code)
    case VkOk(buffers) =>
      VkOk(seq(|buffers|, k requires 0 <= k < |buffers| => CommandBuffer(pool.queue.device, buffers[k])))
  }

  /** The writer's panic when it is dropped unfinished. */
  const UnfinishedWriter := "not yet implemented: you forgot to add .finish(cmd_buffer) on the writer"

  /**
    `CommandBufferWriter`: records into a begun command buffer while holding the
    device. It must be finished before it goes out of scope: dropping it
    unfinished aborts.
   */
  class CommandBufferWriter {
    const device: Device
    var finished: bool

    constructor (device: Device)
      ensures this.device == device && !finished
    {
      this.device := device;
      finished := false;
    }

    /** The drop glue: aborts exactly when the writer was not finished. */
    method Drop() returns (r: Outcome<()>)
      ensures r.Ok? <==> finished
      ensures !finished ==> r == Panic(UnfinishedWriter)
    {
      if !finished {
        return Panic(UnfinishedWriter);
      }
      return Ok(());
    }

    /**
      `finish`: marks the writer finished, then ends the command buffer and
      returns the driver's answer; the writer, consumed, is then dropped,
      which no longer aborts.
     */
    method Finish(buffer: Handle, ended: VkResult<()>) returns (r: VkResult<()>)
      modifies this, device
      ensures finished
      ensures device.calls == old(device.calls) + [EndCommandBuffer(buffer)]
      ensures r == ended
    {
      finished := true;
      device.calls := device.calls + [EndCommandBuffer(buffer)];
      var dropped := Drop();
      assert dropped.Ok?;
      r := ended;
    }

    /**
      `imagebuf_layout_barrier`: one transfer-to-transfer pipeline barrier
      moving the whole subresource range of `image` from `oldLayout` to
      `newLayout`, for transfer writes.
     */
    method ImagebufLayoutBarrier(buffer: Handle, image: ImageBuf, oldLayout: ImageLayout, newLayout: ImageLayout)
      modifies device
      ensures device.calls == old(device.calls) + [PipelineBarrier(buffer, PipelineStageTransferBit, PipelineStageTransferBit,
        ImageMemoryBarrier(image.image.image, AccessTransferWriteBit, oldLayout, newLayout, image.subresource))]
    {
      var barrier := ImageMemoryBarrier(image.image.image, AccessTransferWriteBit, oldLayout, newLayout, image.subresource);
      device.calls := device.calls + [PipelineBarrier(buffer, PipelineStageTransferBit, PipelineStageTransferBit, barrier)];
    }
  }
}
