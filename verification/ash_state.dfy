/**
  The start-up of the ash renderer: the debug-messenger callback, the choice of
  physical device and queue family, and the sequence of driver calls that
  builds the renderer state with its two command buffers. Every driver call is
  an input: its answer is given, or given as a function of the request when
  the request carries a choice the renderer makes.
 */
module AshState {
  import opened Common
  import opened Vk

  /** `VkPhysicalDevice` with the queue families the driver reports for it. */
  datatype PhysicalDevice = PhysicalDevice(handle: Handle, queueFamilies: seq<QueueFamilyProperties>)

  predicate GraphicsFamily(f: QueueFamilyProperties) {
    Contains(f.queueFlags, QueueGraphicsBit)
  }

  /** The last queue family with the graphics flag. */
  function LastGraphicsFamily(families: seq<QueueFamilyProperties>): (r: Option<nat>)
    ensures r.Some? ==> r.value < |families| && GraphicsFamily(families[r.value])
    ensures r.Some? ==> forall j :: r.value < j < |families| ==> !GraphicsFamily(families[j])
    ensures r.None? <==> forall j :: 0 <= j < |families| ==> !GraphicsFamily(families[j])
    decreases |families|
  {
    if families == [] then None
    else if GraphicsFamily(families[|families| - 1]) then Some(|families| - 1)
    else LastGraphicsFamily(families[..|families| - 1])
  }

  predicate HasGraphics(d: PhysicalDevice) {
    LastGraphicsFamily(d.queueFamilies).Some?
  }

  /** The first device at or after `from` that has a graphics queue family. */
  function FirstGraphicsDeviceFrom(devices: seq<PhysicalDevice>, from: nat): (r: Option<nat>)
    ensures r.Some? ==> from <= r.value < |devices| && HasGraphics(devices[r.value])
    ensures r.Some? ==> forall j :: from <= j < r.value ==> !HasGraphics(devices[j])
    ensures r.None? <==> forall j :: from <= j < |devices| ==> !HasGraphics(devices[j])
    decreases |devices| - from
  {
    if from >= |devices| then None
    else if HasGraphics(devices[from]) then Some(from)
    else FirstGraphicsDeviceFrom(devices, from + 1)
  }

  /**
    The device and queue family the renderer uses: the first device, in
    enumeration order, that has any graphics family, and the last graphics
    family of that device.
   */
  function DeviceChoice(devices: seq<PhysicalDevice>): (r: Option<(Handle, nat)>)
    ensures r.None? <==> forall j :: 0 <= j < |devices| ==> !HasGraphics(devices[j])
  {
    match FirstGraphicsDeviceFrom(devices, 0)
    case None => None
    case Some(d) => Some((devices[d].handle, LastGraphicsFamily(devices[d].queueFamilies).value))
  }

  /** Device `d` is the first with a graphics family. */
  predicate FirstWithGraphics(devices: seq<PhysicalDevice>, d: nat) {
    d < |devices| && HasGraphics(devices[d]) && forall j :: 0 <= j < d ==> !HasGraphics(devices[j])
  }

  /**
    A chosen pair comes from the first device with a graphics family, and the
    family is that device's last graphics family: every earlier device has
    none, and no later family of the device has the graphics flag.
   */
  lemma DeviceChoiceIsFirstDeviceLastFamily(devices: seq<PhysicalDevice>)
    requires DeviceChoice(devices).Some?
    ensures exists d: nat :: FirstWithGraphics(devices, d) && devices[d].handle == DeviceChoice(devices).value.0 && LastGraphicsFamily(devices[d].queueFamilies) == Some(DeviceChoice(devices).value.1)
  {
    var d := FirstGraphicsDeviceFrom(devices, 0).value;
    assert FirstWithGraphics(devices, d);
  }

  /**
    The selection loop of `State::new`: stops examining devices once a family
    has been found; within a device every family is examined and a later
    graphics family replaces an earlier one.
   */
  method SelectDevice(devices: seq<PhysicalDevice>) returns (usePdevice: Option<Handle>, useIndex: Option<nat>)
    ensures usePdevice.Some? <==> useIndex.Some?
    ensures useIndex.None? <==> DeviceChoice(devices).None?
    ensures useIndex.Some? ==> DeviceChoice(devices) == Some((usePdevice.value, useIndex.value))
  {
    usePdevice := None;
    useIndex := None;
    var i := 0;
    while i < |devices|
      invariant 0 <= i <= |devices|
      invariant usePdevice.Some? <==> useIndex.Some?
      invariant useIndex.None? ==> FirstGraphicsDeviceFrom(devices, i) == FirstGraphicsDeviceFrom(devices, 0)
      invariant useIndex.Some? ==> 0 < i && FirstGraphicsDeviceFrom(devices, 0) == Some(i - 1)
      invariant useIndex.Some? ==> useIndex == LastGraphicsFamily(devices[i - 1].queueFamilies)
      invariant useIndex.Some? ==> usePdevice == Some(devices[i - 1].handle)
    {
      if useIndex.Some? {
        break;
      }
      var pdevice := devices[i];
      var families := pdevice.queueFamilies;
      var index := 0;
      while index < |families|
        invariant 0 <= index <= |families|
        invariant useIndex == LastGraphicsFamily(families[..index])
        invariant usePdevice == if useIndex.Some? then Some(pdevice.handle) else None
      {
        assert families[..index + 1][..index] == families[..index];
        if GraphicsFamily(families[index]) {
          useIndex := Some(index);
          usePdevice := Some(pdevice.handle);
        }
        index := index + 1;
      }
      assert families[..index] == families;
      i := i + 1;
    }
  }

  const SeverityVerbose: bv32 := 0x1
  const SeverityInfo: bv32 := 0x10
  const SeverityWarning: bv32 := 0x100
  const SeverityError: bv32 := 0x1000

  datatype LogLevel = Trace | Info | Warn | Error

  /**
    `VkDebugUtilsMessengerCallbackDataEXT`, reduced to what the callback reads;
    a null string pointer is `None`.
   */
  datatype CallbackData = CallbackData(messageIdNumber: int, messageIdName: Option<string>, message: Option<string>)

  /** The log line the callback emits, as its parts; `unhandled` is the "UNHANDLED LEVEL" prefix. */
  datatype LogRecord = LogRecord(level: LogLevel, unhandled: bool, messageType: bv32, messageIdName: string, messageIdNumber: int, message: string)

  datatype CallbackResult = CallbackResult(logged: LogRecord, returned: u32)

  /** A possibly null C string, with null read as empty. */
  function OrEmpty(s: Option<string>): (r: string)
    ensures s.None? ==> r == ""
    ensures s.Some? ==> r == s.value
  {
    if s.None? then "" else s.value
  }

  /**
    `vulkan_debug_callback`: logs at the level matching the severity when it
    is exactly one of the four severities, and at error level marked
    unhandled otherwise; the driver is always told not to abort the call.
   */
  function DebugCallback(severity: bv32, messageType: bv32, data: CallbackData): (r: CallbackResult)
    ensures r.returned == False
    ensures r.logged.level == Trace <==> severity == SeverityVerbose
    ensures r.logged.level == Info <==> severity == SeverityInfo
    ensures r.logged.level == Warn <==> severity == SeverityWarning
    ensures r.logged.unhandled <==> severity !in {SeverityVerbose, SeverityInfo, SeverityWarning, SeverityError}
    ensures r.logged.level == Error <==> severity == SeverityError || r.logged.unhandled
    ensures r.logged.messageIdName == OrEmpty(data.messageIdName) && r.logged.message == OrEmpty(data.message)
    ensures r.logged.messageIdNumber == data.messageIdNumber && r.logged.messageType == messageType
  {
    var name := OrEmpty(data.messageIdName);
    var message := OrEmpty(data.message);
    var record := (level: LogLevel, unhandled: bool) =>
      LogRecord(level, unhandled, messageType, name, data.messageIdNumber, message);
    var logged :=
      if severity == SeverityVerbose then record(Trace, false)
      else if severity == SeverityInfo then record(Info, false)
      else if severity == SeverityWarning then record(Warn, false)
      else if severity == SeverityError then record(Error, false)
      else record(Error, true);
    CallbackResult(logged, False)
  }

  /**
    A message carrying several severity bits at once matches none of the
    single severities and is logged as an unhandled error.
   */
  lemma CombinedSeverityUnhandled(severity: bv32, messageType: bv32, data: CallbackData, a: bv32, b: bv32)
    requires a in {SeverityVerbose, SeverityInfo, SeverityWarning, SeverityError}
    requires b in {SeverityVerbose, SeverityInfo, SeverityWarning, SeverityError}
    requires a != b && Contains(severity, a) && Contains(severity, b)
    ensures DebugCallback(severity, messageType, data).logged.unhandled
    ensures DebugCallback(severity, messageType, data).logged.level == Error
  {
  }

  /** The driver's answers to the calls `State::new` makes, in the order it makes them. */
  datatype StateDriver = StateDriver(
    createInstance: VkResult<Handle>,
    createDebugMessenger: VkResult<Handle>,
    enumeratePhysicalDevices: VkResult<seq<PhysicalDevice>>,
    createDevice: (Handle, u32) -> VkResult<Handle>,
    createHeadlessSurface: VkResult<Handle>,
    getDeviceQueue: (u32, u32) -> Handle,
    createCommandPool: CommandPoolCreateInfo -> VkResult<Handle>,
    allocateCommandBuffers: CommandBufferAllocateInfo -> VkResult<seq<Handle>>,
    createImage: ImageCreateInfo -> VkResult<Handle>)

  /** `State`: the renderer's device objects and output size. */
  datatype State = State(
    instance: Handle,
    device: Handle,
    queue: Handle,
    pool: Handle,
    setupCommandBuffer: Handle,
    drawCommandBuffer: Handle,
    width: u32,
    height: u32)

  const CouldNotFindDevice := "could not find device"

  /** The request for the renderer's command buffers: two primary buffers from `pool`. */
  function TwoPrimaryBuffers(pool: Handle): CommandBufferAllocateInfo {
    CommandBufferAllocateInfo(pool, Primary, 2)
  }

  /** The driver answered every call up to device selection, and a device qualified. */
  predicate DeviceSelected(driver: StateDriver) {
    driver.createInstance.VkOk? && driver.createDebugMessenger.VkOk? &&
    driver.enumeratePhysicalDevices.VkOk? && DeviceChoice(driver.enumeratePhysicalDevices.value).Some?
  }

  /** The selected device. */
  function ChosenDevice(driver: StateDriver): Handle
    requires DeviceSelected(driver)
  {
    DeviceChoice(driver.enumeratePhysicalDevices.value).value.0
  }

  /** The selected queue family, cast to `u32`. */
  function ChosenFamily(driver: StateDriver): u32
    requires DeviceSelected(driver)
  {
    TruncateU32(DeviceChoice(driver.enumeratePhysicalDevices.value).value.1)
  }

  /** The resettable command pool request for `family`. */
  function PoolRequest(family: u32): CommandPoolCreateInfo {
    CommandPoolCreateInfo(CommandPoolResetCommandBufferBit, family)
  }

  /** The output image request: RGBA8, two-dimensional. */
  const OutputImage := ImageCreateInfo(R8G8B8A8Unorm, Type2d)

  /**
    Every driver call `State::new` makes succeeds, and the buffer allocation
    yields at least the two buffers it indexes.
   */
  predicate StateCallsSucceed(driver: StateDriver) {
    DeviceSelected(driver) &&
    driver.createDevice(ChosenDevice(driver), ChosenFamily(driver)).VkOk? &&
    driver.createHeadlessSurface.VkOk? &&
    driver.createCommandPool(PoolRequest(ChosenFamily(driver))).VkOk? &&
    var buffers := driver.allocateCommandBuffers(TwoPrimaryBuffers(driver.createCommandPool(PoolRequest(ChosenFamily(driver))).value));
    buffers.VkOk? && |buffers.value| >= 2 &&
    driver.createImage(OutputImage).VkOk?
  }

  /**
    `State::new`: instance, debug messenger, device selection, logical device
    on the chosen family, headless surface, queue 0 of that family, a
    resettable command pool for it, two primary command buffers (setup,
    then draw) and an RGBA8 2D image.
   */
  function NewState(width: u32, height: u32, driver: StateDriver): (r: Outcome<State>)
    ensures r.Ok? ==> r.value.width == width && r.value.height == height
    ensures r.Ok? ==> driver.enumeratePhysicalDevices.VkOk? && DeviceChoice(driver.enumeratePhysicalDevices.value).Some?
    ensures r.Ok? ==> driver.allocateCommandBuffers(TwoPrimaryBuffers(r.value.pool)).VkOk?
    ensures r.Ok? ==> |driver.allocateCommandBuffers(TwoPrimaryBuffers(r.value.pool)).value| >= 2
    ensures r.Ok? ==> r.value.setupCommandBuffer == driver.allocateCommandBuffers(TwoPrimaryBuffers(r.value.pool)).value[0]
    ensures r.Ok? ==> r.value.drawCommandBuffer == driver.allocateCommandBuffers(TwoPrimaryBuffers(r.value.pool)).value[1]
    ensures (driver.createInstance.VkOk? && driver.createDebugMessenger.VkOk? && driver.enumeratePhysicalDevices.VkOk? &&
             DeviceChoice(driver.enumeratePhysicalDevices.value).None?) ==> r == Err(CouldNotFindDevice)
    ensures r.Ok? <==> StateCallsSucceed(driver)
    ensures driver.createInstance.VkErr? ==> r == Err(driver.createInstance.code)
    ensures driver.createInstance.VkOk? && driver.createDebugMessenger.VkErr? ==>
      r == Panic("called `Result::unwrap()` on an `Err` value: " + driver.createDebugMessenger.code)
    ensures driver.createInstance.VkOk? && driver.createDebugMessenger.VkOk? && driver.enumeratePhysicalDevices.VkErr? ==>
      r == Panic("Physical device error: " + driver.enumeratePhysicalDevices.code)
    ensures DeviceSelected(driver) ==>
      var device := driver.createDevice(ChosenDevice(driver), ChosenFamily(driver));
      device.VkErr? ==> r == Panic("called `Result::unwrap()` on an `Err` value: " + device.code)
    ensures DeviceSelected(driver) && driver.createDevice(ChosenDevice(driver), ChosenFamily(driver)).VkOk? ==>
      var pool := driver.createCommandPool(PoolRequest(ChosenFamily(driver)));
      (driver.createHeadlessSurface.VkErr? ==> r == Err(driver.createHeadlessSurface.code)) &&
      (driver.createHeadlessSurface.VkOk? && pool.VkErr? ==> r == Err(pool.code)) &&
      (driver.createHeadlessSurface.VkOk? && pool.VkOk? ==>
        var buffers := driver.allocateCommandBuffers(TwoPrimaryBuffers(pool.value));
        (buffers.VkErr? ==> r == Err(buffers.code)) &&
        (buffers.VkOk? && |buffers.value| == 0 ==> r == Panic("index out of bounds: the len is 0 but the index is 0")) &&
        (buffers.VkOk? && |buffers.value| == 1 ==> r == Panic("index out of bounds: the len is 1 but the index is 1")) &&
        (buffers.VkOk? && |buffers.value| >= 2 && driver.createImage(OutputImage).VkErr? ==>
          r == Err(driver.createImage(OutputImage).code)))
  {
    var instance :- Try(driver.createInstance);
    var _ :- Unwrap(driver.createDebugMessenger);
    var pdevices :- Expect(driver.enumeratePhysicalDevices, "Physical device error");
    var choice := DeviceChoice(pdevices);
    if choice.None? then Err(CouldNotFindDevice)
    else
      var queueFamilyIndex := TruncateU32(choice.value.1);
      var device :- Unwrap(driver.createDevice(choice.value.0, queueFamilyIndex));
      var _ :- Try(driver.createHeadlessSurface);
      var queue := driver.getDeviceQueue(queueFamilyIndex, 0);
      var pool :- Try(driver.createCommandPool(PoolRequest(queueFamilyIndex)));
      var buffers :- Try(driver.allocateCommandBuffers(TwoPrimaryBuffers(pool)));
      if |buffers| == 0 then Panic("index out of bounds: the len is 0 but the index is 0")
      else if |buffers| == 1 then Panic("index out of bounds: the len is 1 but the index is 1")
      else
        var _ :- Try(driver.createImage(OutputImage));
        Ok(State(instance, device, queue, pool, buffers[0], buffers[1], width, height))
  }

  /**
    The device objects of a new state all come from the chosen device and
    family: the logical device is created on them, the queue is queue 0 of
    the family, and the pool is a resettable pool for the family.
   */
  lemma NewStateUsesChosenFamily(width: u32, height: u32, driver: StateDriver)
    requires NewState(width, height, driver).Ok?
    ensures var s := NewState(width, height, driver).value;
      var choice := DeviceChoice(driver.enumeratePhysicalDevices.value).value;
      var family := TruncateU32(choice.1);
      driver.createDevice(choice.0, family) == VkOk(s.device) &&
      s.queue == driver.getDeviceQueue(family, 0) &&
      driver.createCommandPool(CommandPoolCreateInfo(CommandPoolResetCommandBufferBit, family)) == VkOk(s.pool)
  {
  }

  /** `State::save`: not written yet, it always aborts. */
  function Save(path: string): (r: Outcome<()>)
    ensures r == Panic("not yet implemented")
  {
    Panic("not yet implemented")
  }
}
