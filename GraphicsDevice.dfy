/** The abstract `GraphicsDevice`: argument validation, backend selection and
    the creation factory, buffer and texture creation, presenting, and the
    list of tracked resources that is disposed when the device is.

    The backend a device was created for decides what its backend hooks
    (`Destroy`, `FrameCore`, `CreateBufferCore`, `CreateTextureCore`,
    `MainSwapchain`) do. The Vulkan hooks throw. The Direct3D devices are not
    part of this model: their hooks are recorded in the device's event log
    and complete normally. */
module GraphicsDevice {
  import opened Graphics
  import opened ResourceTracking
  import VulkanGraphicsDevice

  /** A `PresentationParameters` object, identified by its reference. */
  datatype PresentationParameters = PresentationParameters(id: nat)

  /** A `Swapchain` object, identified by its reference. */
  datatype Swapchain = Swapchain(id: nat)

  /** `BufferUsage`; only `Unknown` is singled out by the device, the other
      members are illustrative. */
  datatype BufferUsage = UnknownBufferUsage | Vertex | Index | Uniform

  /** `GraphicsResourceUsage`; only `Immutable` is singled out. */
  datatype GraphicsResourceUsage = DefaultUsage | Immutable | Dynamic | Staging

  /** `BufferDescriptor`: size, binding usage and CPU/GPU usage. */
  datatype BufferDescriptor = BufferDescriptor(sizeInBytes: Int32, bufferUsage: BufferUsage, usage: GraphicsResourceUsage)

  /** `TextureType`; only `Unknown` is singled out. */
  datatype TextureType = UnknownTextureType | Texture1D | Texture2D | Texture3D | TextureCube

  /** The parts of `TextureDescription` that `CreateTexture` checks. */
  datatype TextureDescription = TextureDescription(textureType: TextureType, width: Int32, height: Int32, depth: Int32)

  /** A buffer as handed to the backend: its descriptor and whether a
      non-null initial-data pointer came with it. */
  datatype GraphicsBuffer = GraphicsBuffer(descriptor: BufferDescriptor, hasInitialData: bool)

  /** A texture as handed to the backend. */
  datatype Texture = Texture(description: TextureDescription)

  /** What the device does that other objects observe, in order. */
  datatype Event =
    | ResourceDisposed(resource: Resource)                   // GraphicsResource.Dispose()
    | Destroyed                                              // Destroy()
    | SwapchainPresented(swapchain: Swapchain)               // Swapchain.Present()
    | FrameEnded                                             // FrameCore()
    | BufferCreated(buffer: GraphicsBuffer)                  // CreateBufferCore(...)
    | TextureCreated(texture: Texture)                       // CreateTextureCore(...)

  /** The answers of the backends' own support checks. The Direct3D answers
      come from code that is not part of this model; the Vulkan answer is
      what `VulkanGraphicsDevice.SupportCache.IsSupported` returns. */
  datatype Probes = Probes(d3d11: bool, d3d12: bool, vulkan: bool)

  // ---------------------------------------------------------------------
  // Backend selection and the creation factory
  // ---------------------------------------------------------------------

  /** `GetDefaultGraphicsPlatform`: Direct3D 11 on Windows and UWP, OpenGL ES
      on Android and Linux, OpenGL on iOS and macOS; any other platform
      throws an `ArgumentOutOfRangeException` that names no parameter. */
  function GetDefaultGraphicsPlatform(platform: PlatformType): (r: Result<GraphicsBackend>)
    ensures platform in {Windows, UWP} ==> r == Success(Direct3D11)
    ensures platform in {Android, Linux} ==> r == Success(OpenGLES)
    ensures platform in {iOS, macOS} ==> r == Success(OpenGL)
    ensures r.Failure? <==> platform == OtherPlatform
    ensures r.Failure? ==> r.error == ArgumentOutOfRange("")
  {
    match platform
    case Windows | UWP => Success(Direct3D11)
    case Android | Linux => Success(OpenGLES)
    case iOS | macOS => Success(OpenGL)
    case OtherPlatform => Failure(ArgumentOutOfRange(""))
  }

  /** The backend a request names once `Default` is resolved. */
  function ResolveBackend(backend: GraphicsBackend, platform: PlatformType): Result<GraphicsBackend>
  {
    if backend == Default then GetDefaultGraphicsPlatform(platform) else Success(backend)
  }

  /** `IsSupported(backend)`: resolve `Default`, then ask the backend;
      backends compiled out, and every backend other than Direct3D 11,
      Direct3D 12 and Vulkan, are unsupported. */
  function IsSupported(config: BuildConfig, backend: GraphicsBackend, platform: PlatformType, probes: Probes): Result<bool>
  {
    match ResolveBackend(backend, platform)
    case Failure(e) => Failure(e)
    case Success(resolved) =>
      match resolved
      case Direct3D11 => Success(!config.noD3D11 && probes.d3d11)
      case Direct3D12 => Success(!config.noD3D12 && probes.d3d12)
      case Vulkan => Success(!config.noVulkan && probes.vulkan)
      case _ => Success(false)
  }

  /** The backend `Create` builds a device for, or the exception it throws,
      as the code is written: the Vulkan arm is compiled in or out by the
      `VORTICE_NO_D3D12` symbol. */
  function CreateBackendAsWritten(config: BuildConfig, backend: GraphicsBackend, presentationParameters: Option<PresentationParameters>,
                                  platform: PlatformType, probes: Probes): Result<GraphicsBackend>
  {
    if presentationParameters.None? then Failure(ArgumentNull("presentationParameters"))
    else match ResolveBackend(backend, platform)
    case Failure(e) => Failure(e)
    case Success(resolved) =>
      if IsSupported(config, resolved, platform, probes) != Success(true) then Failure(BackendNotSupported(resolved))
      else match resolved
      case Direct3D11 => if config.noD3D11 then Failure(BackendNotSupported(Direct3D11)) else Success(Direct3D11)
      case Direct3D12 => if config.noD3D12 then Failure(BackendNotSupported(Direct3D12)) else Success(Direct3D12)
      case Vulkan => if config.noD3D12 then Failure(BackendNotSupported(Vulkan)) else Success(Vulkan)
      case _ => Failure(InvalidBackend(resolved))
  }

  /** `Create` with the Vulkan arm gated on `VORTICE_NO_VULKAN`, like every
      other arm on its own backend's symbol. */
  function CreateBackend(config: BuildConfig, backend: GraphicsBackend, presentationParameters: Option<PresentationParameters>,
                         platform: PlatformType, probes: Probes): Result<GraphicsBackend>
  {
    if presentationParameters.None? then Failure(ArgumentNull("presentationParameters"))
    else match ResolveBackend(backend, platform)
    case Failure(e) => Failure(e)
    case Success(resolved) =>
      if IsSupported(config, resolved, platform, probes) != Success(true) then Failure(BackendNotSupported(resolved))
      else match resolved
      case Direct3D11 => if config.noD3D11 then Failure(BackendNotSupported(Direct3D11)) else Success(Direct3D11)
      case Direct3D12 => if config.noD3D12 then Failure(BackendNotSupported(Direct3D12)) else Success(Direct3D12)
      case Vulkan => if config.noVulkan then Failure(BackendNotSupported(Vulkan)) else Success(VulkanGraphicsDevice.DeviceBackend)
      case _ => Failure(InvalidBackend(resolved))
  }

  /** Whether `IsSupported` consults the Vulkan backend's cached check. */
  predicate QueriesVulkan(config: BuildConfig, backend: GraphicsBackend)
  {
    backend == Vulkan && !config.noVulkan
  }

  /** The default backend is never `Default` itself, the only failure is an
      unknown platform, and asking about `Default` is asking about the
      platform's default. */
  lemma DefaultBackendResolves(config: BuildConfig, platform: PlatformType, probes: Probes)
    ensures GetDefaultGraphicsPlatform(platform).Failure? <==> platform == OtherPlatform
    ensures GetDefaultGraphicsPlatform(platform).Success? ==>
              GetDefaultGraphicsPlatform(platform).value != Default
              && IsSupported(config, Default, platform, probes)
                 == IsSupported(config, GetDefaultGraphicsPlatform(platform).value, platform, probes)
  {
  }

  /** Only Direct3D 11, Direct3D 12 and Vulkan can be supported. */
  lemma SupportedBackends(config: BuildConfig, backend: GraphicsBackend, platform: PlatformType, probes: Probes)
    ensures IsSupported(config, backend, platform, probes) == Success(true) ==>
              ResolveBackend(backend, platform).value in {Direct3D11, Direct3D12, Vulkan}
  {
  }

  /** Off Windows and UWP the default backend is an OpenGL one, which is
      never supported, so creating a `Default` device there fails. */
  lemma DefaultUnsupportedOffWindows(config: BuildConfig, platform: PlatformType, probes: Probes, pp: PresentationParameters)
    requires platform in {Android, Linux, iOS, macOS}
    ensures IsSupported(config, Default, platform, probes) == Success(false)
    ensures CreateBackend(config, Default, Some(pp), platform, probes).Failure?
    ensures CreateBackend(config, Default, Some(pp), platform, probes).error
            == BackendNotSupported(if platform in {Android, Linux} then OpenGLES else OpenGL)
  {
  }

  /** `Create` succeeds exactly when presentation parameters are given and
      the resolved backend is supported, and then builds a device for the
      resolved backend. */
  lemma CreateSucceedsIffSupported(config: BuildConfig, backend: GraphicsBackend, pp: Option<PresentationParameters>,
                                   platform: PlatformType, probes: Probes)
    ensures CreateBackend(config, backend, pp, platform, probes).Success?
        <==> pp.Some? && IsSupported(config, backend, platform, probes) == Success(true)
    ensures CreateBackend(config, backend, pp, platform, probes).Success? ==>
              CreateBackend(config, backend, pp, platform, probes) == ResolveBackend(backend, platform)
              && CreateBackend(config, backend, pp, platform, probes).value != Default
  {
  }

  /** The code as written and the corrected gate agree in every build except
      one that compiles out Direct3D 12 but not Vulkan. A build without Vulkan
      answers `IsSupported(Vulkan)` with false, so both refuse it. */
  lemma CreateAsWrittenAgrees(config: BuildConfig, backend: GraphicsBackend, pp: Option<PresentationParameters>,
                              platform: PlatformType, probes: Probes)
    ensures !(config.noD3D12 && !config.noVulkan) ==>
              CreateBackendAsWritten(config, backend, pp, platform, probes)
              == CreateBackend(config, backend, pp, platform, probes)
  {
  }

  /** As written, a build without Direct3D 12 but with Vulkan reports Vulkan
      as supported on Windows and then refuses to create a Vulkan device. */
  lemma VulkanGateMismatch(pp: PresentationParameters)
    ensures var config := BuildConfig(false, true, false);
            var probes := Probes(false, false, true);
            IsSupported(config, Vulkan, Windows, probes) == Success(true)
            && CreateBackendAsWritten(config, Vulkan, Some(pp), Windows, probes) == Failure(BackendNotSupported(Vulkan))
  {
  }

  // ---------------------------------------------------------------------
  // Argument validation
  // ---------------------------------------------------------------------

  /** The guards of the device constructor, in order. */
  function CheckDeviceArguments(backend: GraphicsBackend, presentationParameters: Option<PresentationParameters>): Outcome
  {
    if backend == Default then Fail(ArgumentInvalid("backend"))
    else if presentationParameters.None? then Fail(ArgumentNull("presentationParameters"))
    else Pass
  }

  /** The guards of `CreateBuffer(descriptor, initialData)`, in order: the
      usage, the size, then initial data for an immutable buffer. The
      first guard reports the parameter name `Usage`. */
  function CheckBuffer(descriptor: BufferDescriptor, hasInitialData: bool): Outcome
  {
    if descriptor.bufferUsage == UnknownBufferUsage then Fail(ArgumentInvalid("Usage"))
    else if descriptor.sizeInBytes <= 0 then Fail(ArgumentOutOfRange("SizeInBytes"))
    else if descriptor.usage == Immutable && !hasInitialData then Fail(ImmutableWithoutData)
    else Pass
  }

  /** The guards of `CreateTexture`, in order. */
  function CheckTexture(description: TextureDescription): Outcome
  {
    if description.textureType == UnknownTextureType then Fail(ArgumentInvalid("description"))
    else if description.width < 1 then Fail(ArgumentOutOfRange("Width"))
    else if description.height < 1 then Fail(ArgumentOutOfRange("Height"))
    else if description.depth < 1 then Fail(ArgumentOutOfRange("Depth"))
    else Pass
  }

  /** A buffer passes validation exactly when its usage is known, its size
      positive, and an immutable buffer has initial data. */
  lemma CheckBufferAccepts(descriptor: BufferDescriptor, hasInitialData: bool)
    ensures CheckBuffer(descriptor, hasInitialData) == Pass
        <==> descriptor.bufferUsage != UnknownBufferUsage && descriptor.sizeInBytes > 0
             && (descriptor.usage == Immutable ==> hasInitialData)
  {
  }

  /** A texture passes validation exactly when its type is known and each
      dimension is at least one. */
  lemma CheckTextureAccepts(description: TextureDescription)
    ensures CheckTexture(description) == Pass
        <==> description.textureType != UnknownTextureType
             && description.width >= 1 && description.height >= 1 && description.depth >= 1
  {
  }

  /** The descriptor `CreateBuffer<T>(descriptor, data)` passes on: a zero
      size is replaced by `Unsafe.SizeOf<T>() * data.Length`, computed in
      unchecked 32-bit arithmetic; any other size is kept. */
  function DeriveBufferDescriptor(descriptor: BufferDescriptor, elementSize: nat, length: nat): (d: BufferDescriptor)
  {
    if descriptor.sizeInBytes == 0 then descriptor.(sizeInBytes := Wrap32(elementSize * length)) else descriptor
  }

  /** Deriving the size changes nothing but the size, and only a zero size;
      when the product fits in an `int` it is the derived size. */
  lemma DeriveBufferDescriptorSize(descriptor: BufferDescriptor, elementSize: nat, length: nat)
    ensures DeriveBufferDescriptor(descriptor, elementSize, length).bufferUsage == descriptor.bufferUsage
    ensures DeriveBufferDescriptor(descriptor, elementSize, length).usage == descriptor.usage
    ensures descriptor.sizeInBytes != 0 ==> DeriveBufferDescriptor(descriptor, elementSize, length) == descriptor
    ensures descriptor.sizeInBytes == 0 && elementSize * length < 0x8000_0000 ==>
              DeriveBufferDescriptor(descriptor, elementSize, length).sizeInBytes as int == elementSize * length
  {
  }

  /** Non-empty data of a type whose size is at least one byte, and whose
      byte count fits in an `int`, gives a buffer that passes the size guard. */
  lemma DerivedSizePositive(descriptor: BufferDescriptor, elementSize: nat, length: nat)
    requires descriptor.sizeInBytes == 0 && elementSize >= 1 && length >= 1
    requires elementSize * length < 0x8000_0000
    ensures DeriveBufferDescriptor(descriptor, elementSize, length).sizeInBytes > 0
  {
    assert elementSize * length >= length by {
      assert elementSize * length == (elementSize - 1) * length + length;
    }
  }

  // ---------------------------------------------------------------------
  // Dispose order
  // ---------------------------------------------------------------------

  /** The events of disposing a snapshot of the resources, one per entry,
      in the snapshot's order. */
  function DisposalEvents(snapshot: seq<Resource>): (events: seq<Event>)
    ensures |events| == |snapshot|
    ensures forall i :: 0 <= i < |snapshot| ==> events[i] == ResourceDisposed(snapshot[i])
  {
    if snapshot == [] then [] else [ResourceDisposed(snapshot[0])] + DisposalEvents(snapshot[1..])
  }

  /** Disposing a snapshot sorted by type disposes the resources in
      non-decreasing type order. */
  lemma {:induction false} DisposalInTypeOrder(snapshot: seq<Resource>)
    requires SortedByType(snapshot)
    ensures forall i, j :: 0 <= i < j < |snapshot| ==>
              DisposalEvents(snapshot)[i].resource.resourceType <= DisposalEvents(snapshot)[j].resource.resourceType
  {
    var events := DisposalEvents(snapshot);
    forall i, j | 0 <= i < j < |snapshot|
      ensures events[i].resource.resourceType <= events[j].resource.resourceType
    {
      assert events[i].resource == snapshot[i] && events[j].resource == snapshot[j];
    }
  }

  // ---------------------------------------------------------------------
  // The device
  // ---------------------------------------------------------------------

  class Device {
    /** `Backend`. */
    const backend: GraphicsBackend
    /** `PresentationParameters`. */
    const presentationParameters: PresentationParameters
    /** The swap chain a Direct3D backend creates with the device. */
    const mainSwapchain: Swapchain
    /** `_resources`. */
    var resources: seq<Resource>
    /** `IsDisposed`. */
    var isDisposed: bool
    /** What the device has done so far, in order. */
    var events: seq<Event>

    /** The constructor body once its guards have passed: it stores the
        backend and the presentation parameters. */
    constructor (backend: GraphicsBackend, presentationParameters: PresentationParameters, mainSwapchain: Swapchain)
      requires CheckDeviceArguments(backend, Some(presentationParameters)) == Pass
      ensures this.backend == backend && this.presentationParameters == presentationParameters
      ensures this.mainSwapchain == mainSwapchain
      ensures resources == [] && !isDisposed && events == []
    {
      this.backend := backend;
      this.presentationParameters := presentationParameters;
      this.mainSwapchain := mainSwapchain;
      resources := [];
      isDisposed := false;
      events := [];
    }

    /** The constructor with its guards: `Default` and a null
        presentation-parameters object are refused. */
    static method New(backend: GraphicsBackend, presentationParameters: Option<PresentationParameters>, mainSwapchain: Swapchain)
      returns (r: Result<Device>)
      ensures r.Failure? <==> backend == Default || presentationParameters.None?
      ensures r.Failure? ==> Fail(r.error) == CheckDeviceArguments(backend, presentationParameters)
      ensures r.Success? ==> fresh(r.value) && r.value.backend == backend
                             && r.value.presentationParameters == presentationParameters.value
                             && r.value.resources == [] && !r.value.isDisposed && r.value.events == []
    {
      var check := CheckDeviceArguments(backend, presentationParameters);
      if check.Fail? {
        return Failure(check.error);
      }
      var device := new Device(backend, presentationParameters.value, mainSwapchain);
      return Success(device);
    }

    /** `IsSupported(backend)`, with the Vulkan answer taken from (and left
        in) the shared cache. */
    static method QueryIsSupported(config: BuildConfig, backend: GraphicsBackend, platform: PlatformType,
                                   d3d11: bool, d3d12: bool, cache: VulkanGraphicsDevice.SupportCache)
      returns (r: Result<bool>)
      modifies cache
      ensures var vulkan := VulkanGraphicsDevice.SupportAnswer(old(cache.isSupported), platform);
              r == IsSupported(config, backend, platform, Probes(d3d11, d3d12, vulkan))
              && cache.isSupported == if QueriesVulkan(config, backend) then Some(vulkan) else old(cache.isSupported)
    {
      var resolved := ResolveBackend(backend, platform);
      if resolved.Failure? {
        return Failure(resolved.error);
      }
      match resolved.value
      case Direct3D11 =>
        r := Success(!config.noD3D11 && d3d11);
      case Direct3D12 =>
        r := Success(!config.noD3D12 && d3d12);
      case Vulkan =>
        if config.noVulkan {
          r := Success(false);
        } else {
          var vulkan := cache.IsSupported(platform);
          r := Success(vulkan);
        }
      case _ =>
        r := Success(false);
    }

    /** `Create`: check the presentation parameters, resolve `Default`,
        refuse an unsupported backend, then construct the backend's device. */
    static method Create(config: BuildConfig, backend: GraphicsBackend, validation: bool,
                         presentationParameters: Option<PresentationParameters>, platform: PlatformType,
                         d3d11: bool, d3d12: bool, cache: VulkanGraphicsDevice.SupportCache, mainSwapchain: Swapchain)
      returns (r: Result<Device>)
      modifies cache
      ensures var spec := CreateBackend(config, backend, presentationParameters, platform,
                                        Probes(d3d11, d3d12, VulkanGraphicsDevice.SupportAnswer(old(cache.isSupported), platform)));
              && (r.Success? <==> spec.Success?)
              && (r.Failure? ==> r.error == spec.error)
              && (r.Success? ==> fresh(r.value) && r.value.backend == spec.value
                                 && r.value.presentationParameters == presentationParameters.value
                                 && r.value.resources == [] && !r.value.isDisposed && r.value.events == [])
      ensures cache.isSupported
              == if presentationParameters.Some? && QueriesVulkan(config, backend)
                 then Some(VulkanGraphicsDevice.SupportAnswer(old(cache.isSupported), platform))
                 else old(cache.isSupported)
    {
      if presentationParameters.None? {
        return Failure(ArgumentNull("presentationParameters"));
      }
      var resolved := ResolveBackend(backend, platform);
      if resolved.Failure? {
        return Failure(resolved.error);
      }
      var supported := QueryIsSupported(config, resolved.value, platform, d3d11, d3d12, cache);
      if supported != Success(true) {
        return Failure(BackendNotSupported(resolved.value));
      }
      match resolved.value
      case Direct3D11 =>
        if config.noD3D11 {
          return Failure(BackendNotSupported(Direct3D11));
        }
        var device := new Device(Direct3D11, presentationParameters.value, mainSwapchain);
        return Success(device);
      case Direct3D12 =>
        if config.noD3D12 {
          return Failure(BackendNotSupported(Direct3D12));
        }
        var device := new Device(Direct3D12, presentationParameters.value, mainSwapchain);
        return Success(device);
      case Vulkan =>
        if config.noVulkan {
          return Failure(BackendNotSupported(Vulkan));
        }
        // VulkanGraphicsDevice passes its own backend to the base constructor
        // and ignores `validation`.
        var device := new Device(VulkanGraphicsDevice.DeviceBackend, presentationParameters.value, mainSwapchain);
        return Success(device);
      case _ =>
        // `IsSupported` is false for every other backend, so the
        // `InvalidBackend` arm cannot be reached.
        assert false;
    }

    /** Runs a backend hook: a Vulkan device throws, another device records
        the hook's effect. */
    method RunHook(member: VulkanGraphicsDevice.Member, effect: Event) returns (o: Outcome)
      modifies this`events
      ensures backend == Vulkan ==> o == VulkanGraphicsDevice.Invoke(member) && events == old(events)
      ensures backend != Vulkan ==> o == Pass && events == old(events) + [effect]
    {
      if backend == Vulkan {
        return VulkanGraphicsDevice.Invoke(member);
      }
      events := events + [effect];
      return Pass;
    }

    /** `TrackResource`: appends the resource. */
    method TrackResource(resource: Resource)
      modifies this`resources
      ensures resources == old(resources) + [resource]
    {
      resources := resources + [resource];
    }

    /** `UntrackResource`: removes the first occurrence of the resource, if
        any, and nothing else. */
    method UntrackResource(resource: Resource)
      modifies this`resources
      ensures resources == RemoveFirst(old(resources), resource)
      ensures multiset(resources) == multiset(old(resources)) - multiset{resource}
    {
      RemoveFirstMultiset(resources, resource);
      resources := RemoveFirst(resources, resource);
    }

    /** `DestroyAllResources`: sort the list by resource type, then dispose
        every resource of a snapshot of it, in the snapshot's order. */
    method DestroyAllResources()
      modifies this`resources, this`events
      ensures SortedByType(resources) && multiset(resources) == multiset(old(resources))
      ensures events == old(events) + DisposalEvents(resources)
    {
      if |resources| > 0 {
        resources := SortByType(resources);
        var snapshot := resources;
        var copyResourceData := new Resource[|snapshot|](i requires 0 <= i < |snapshot| => snapshot[i]);
        var i := 0;
        while i < copyResourceData.Length
          invariant 0 <= i <= copyResourceData.Length == |snapshot|
          invariant resources == snapshot
          invariant forall k :: 0 <= k < |snapshot| ==> copyResourceData[k] == snapshot[k]
          invariant events == old(events) + DisposalEvents(snapshot[..i])
        {
          var gpuResource := copyResourceData[i];
          assert snapshot[..i + 1] == snapshot[..i] + [gpuResource];
          DisposalEventsAppend(snapshot[..i], gpuResource);
          events := events + [ResourceDisposed(gpuResource)];
          i := i + 1;
        }
        assert snapshot[..i] == snapshot;
      }
    }

    /** `Dispose(disposing)`: the first disposing call disposes every
        tracked resource and then destroys the device. A Vulkan device throws
        from `Destroy`, so it is left not disposed. */
    method Dispose(disposing: bool) returns (o: Outcome)
      modifies this`resources, this`events, this`isDisposed
      ensures !disposing || old(isDisposed) ==>
                o == Pass && isDisposed && resources == old(resources) && events == old(events)
      ensures disposing && !old(isDisposed) ==>
                SortedByType(resources) && multiset(resources) == multiset(old(resources))
                && (backend != Vulkan ==> o == Pass && isDisposed
                                          && events == old(events) + DisposalEvents(resources) + [Destroyed])
                && (backend == Vulkan ==> o == Fail(NotImplemented) && !isDisposed
                                          && events == old(events) + DisposalEvents(resources))
    {
      if disposing && !isDisposed {
        DestroyAllResources();
        o := RunHook(VulkanGraphicsDevice.Destroy, Destroyed);
        if o.Fail? {
          return;
        }
      }
      // DisposableBase.Dispose(disposing) marks the object disposed.
      isDisposed := true;
      o := Pass;
    }

    /** `Present(swapchain)`: present the swap chain, then end the frame. */
    method PresentTo(swapchain: Option<Swapchain>) returns (o: Outcome)
      modifies this`events
      ensures swapchain.None? ==> o == Fail(ArgumentNull("swapchain")) && events == old(events)
      ensures swapchain.Some? && backend != Vulkan ==>
                o == Pass && events == old(events) + [SwapchainPresented(swapchain.value), FrameEnded]
      ensures swapchain.Some? && backend == Vulkan ==>
                o == Fail(NotImplemented) && events == old(events) + [SwapchainPresented(swapchain.value)]
    {
      if swapchain.None? {
        return Fail(ArgumentNull("swapchain"));
      }
      events := events + [SwapchainPresented(swapchain.value)];
      o := RunHook(VulkanGraphicsDevice.FrameCore, FrameEnded);
    }

    /** `Present()`: present the main swap chain, which a Vulkan device
        cannot produce. */
    method Present() returns (o: Outcome)
      modifies this`events
      ensures backend != Vulkan ==> o == Pass && events == old(events) + [SwapchainPresented(mainSwapchain), FrameEnded]
      ensures backend == Vulkan ==> o == Fail(NotImplemented) && events == old(events)
    {
      if backend == Vulkan {
        return VulkanGraphicsDevice.Invoke(VulkanGraphicsDevice.MainSwapchain);
      }
      o := PresentTo(Some(mainSwapchain));
    }

    /** `CreateBuffer(descriptor, initialData)`: validate, then hand the
        descriptor unchanged to the backend. */
    method CreateBuffer(descriptor: BufferDescriptor, hasInitialData: bool) returns (r: Result<GraphicsBuffer>)
      modifies this`events
      ensures CheckBuffer(descriptor, hasInitialData).Fail? ==>
                r == Failure(CheckBuffer(descriptor, hasInitialData).error) && events == old(events)
      ensures CheckBuffer(descriptor, hasInitialData) == Pass && backend != Vulkan ==>
                r == Success(GraphicsBuffer(descriptor, hasInitialData))
                && events == old(events) + [BufferCreated(GraphicsBuffer(descriptor, hasInitialData))]
      ensures CheckBuffer(descriptor, hasInitialData) == Pass && backend == Vulkan ==>
                r == Failure(NotImplemented) && events == old(events)
    {
      var check := CheckBuffer(descriptor, hasInitialData);
      if check.Fail? {
        return Failure(check.error);
      }
      var buffer := GraphicsBuffer(descriptor, hasInitialData);
      var o := RunHook(VulkanGraphicsDevice.CreateBufferCore, BufferCreated(buffer));
      if o.Fail? {
        return Failure(o.error);
      }
      return Success(buffer);
    }

    /** `CreateBuffer(descriptor)`: a buffer without initial data. */
    method CreateBufferWithoutData(descriptor: BufferDescriptor) returns (r: Result<GraphicsBuffer>)
      modifies this`events
      ensures descriptor.usage == Immutable ==> r.Failure? && events == old(events)
      ensures CheckBuffer(descriptor, false).Fail? ==> r == Failure(CheckBuffer(descriptor, false).error) && events == old(events)
      ensures CheckBuffer(descriptor, false) == Pass && backend != Vulkan ==>
                r == Success(GraphicsBuffer(descriptor, false))
                && events == old(events) + [BufferCreated(GraphicsBuffer(descriptor, false))]
      ensures CheckBuffer(descriptor, false) == Pass && backend == Vulkan ==>
                r == Failure(NotImplemented) && events == old(events)
    {
      r := CreateBuffer(descriptor, false);
    }

    /** `CreateBuffer<T>(descriptor, initialData)`: refuse null or empty
        data, derive a missing size from the data, then create the buffer
        with the pinned (non-null) data. */
    method CreateBufferFromData<T>(descriptor: BufferDescriptor, initialData: Option<seq<T>>, elementSize: nat)
      returns (r: Result<GraphicsBuffer>)
      modifies this`events
      ensures initialData.None? ==> r == Failure(ArgumentNull("initialData")) && events == old(events)
      ensures initialData == Some([]) ==> r == Failure(ArgumentOutOfRange("initialData")) && events == old(events)
      ensures initialData.Some? && |initialData.value| > 0 ==>
                var d := DeriveBufferDescriptor(descriptor, elementSize, |initialData.value|);
                (CheckBuffer(d, true).Fail? ==> r == Failure(CheckBuffer(d, true).error) && events == old(events))
                && (CheckBuffer(d, true) == Pass && backend != Vulkan ==>
                      r == Success(GraphicsBuffer(d, true)) && events == old(events) + [BufferCreated(GraphicsBuffer(d, true))])
                && (CheckBuffer(d, true) == Pass && backend == Vulkan ==>
                      r == Failure(NotImplemented) && events == old(events))
    {
      if initialData.None? {
        return Failure(ArgumentNull("initialData"));
      }
      if |initialData.value| <= 0 {
        return Failure(ArgumentOutOfRange("initialData"));
      }
      var descriptor := descriptor;
      if descriptor.sizeInBytes == 0 {
        descriptor := descriptor.(sizeInBytes := Wrap32(elementSize * |initialData.value|));
      }
      r := CreateBuffer(descriptor, true);
    }

    /** `CreateBuffer<T>(bufferUsage, initialData)`: an immutable buffer
        exactly as large as the data. A null array fails on `.Length` before
        any guard runs. */
    method CreateImmutableBuffer<T>(bufferUsage: BufferUsage, initialData: Option<seq<T>>, elementSize: nat)
      returns (r: Result<GraphicsBuffer>)
      modifies this`events
      ensures initialData.None? ==> r == Failure(NullReference) && events == old(events)
      ensures initialData == Some([]) ==> r == Failure(ArgumentOutOfRange("initialData")) && events == old(events)
      ensures initialData.Some? && |initialData.value| > 0 ==>
                var d := BufferDescriptor(Wrap32(elementSize * |initialData.value|), bufferUsage, Immutable);
                (CheckBuffer(d, true).Fail? ==> r == Failure(CheckBuffer(d, true).error) && events == old(events))
                && (CheckBuffer(d, true) == Pass && backend != Vulkan ==>
                      r == Success(GraphicsBuffer(d, true)) && events == old(events) + [BufferCreated(GraphicsBuffer(d, true))])
                && (CheckBuffer(d, true) == Pass && backend == Vulkan ==>
                      r == Failure(NotImplemented) && events == old(events))
    {
      if initialData.None? {
        return Failure(NullReference);
      }
      var descriptor := BufferDescriptor(Wrap32(elementSize * |initialData.value|), bufferUsage, Immutable);
      r := CreateBufferFromData(descriptor, initialData, elementSize);
    }

    /** `CreateTexture`: validate, then hand the description unchanged to
        the backend. */
    method CreateTexture(description: TextureDescription) returns (r: Result<Texture>)
      modifies this`events
      ensures CheckTexture(description).Fail? ==> r == Failure(CheckTexture(description).error) && events == old(events)
      ensures CheckTexture(description) == Pass && backend != Vulkan ==>
                r == Success(Texture(description)) && events == old(events) + [TextureCreated(Texture(description))]
      ensures CheckTexture(description) == Pass && backend == Vulkan ==>
                r == Failure(NotImplemented) && events == old(events)
    {
      var check := CheckTexture(description);
      if check.Fail? {
        return Failure(check.error);
      }
      var texture := Texture(description);
      var o := RunHook(VulkanGraphicsDevice.CreateTextureCore, TextureCreated(texture));
      if o.Fail? {
        return Failure(o.error);
      }
      return Success(texture);
    }
  }

  /** Disposing one more resource appends its event. */
  lemma {:induction false} DisposalEventsAppend(snapshot: seq<Resource>, resource: Resource)
    ensures DisposalEvents(snapshot + [resource]) == DisposalEvents(snapshot) + [ResourceDisposed(resource)]
  {
    var left := DisposalEvents(snapshot + [resource]);
    var right := DisposalEvents(snapshot) + [ResourceDisposed(resource)];
    assert |left| == |right|;
    forall i | 0 <= i < |left|
      ensures left[i] == right[i]
    {
      if i < |snapshot| {
        assert (snapshot + [resource])[i] == snapshot[i];
      }
    }
  }
}
