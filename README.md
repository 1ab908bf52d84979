# Vortice graphics device core, modelled in Dafny

This project models the core of the Vortice graphics engine:

- the hash-code combinators of `HashHelpers`;
- the pixel-format classification of `PixelFormatUtil`;
- the value semantics of `RenderPassDepthStencilAttachmentDescriptor`: its constructor defaults, equality operators and hash code;
- the abstract `GraphicsDevice`. That covers argument guards, the choice of default backend, `IsSupported` and the `Create` factory. It also covers buffer and texture creation, presenting, and the resource list that is sorted and disposed when the device is;
- the Vulkan backend `VulkanGraphicsDevice`, with its cached support check and members that throw.

Modules:

| file | module | models |
|---|---|---|
| `Graphics.dfy` | `Graphics` | backends, platforms, build symbols, exceptions as `Result`/`Outcome` values, the C# `int` |
| `HashHelpers.dfy` | `HashHelpers` | `HashHelpers.Combine` (2, 3 and 4 arguments) on `bv32` |
| `PixelFormatUtil.dfy` | `PixelFormatUtil` | the four format predicates |
| `DepthStencilAttachment.dfy` | `DepthStencilAttachment` | the attachment descriptor struct |
| `ResourceTracking.dfy` | `ResourceTracking` | `List<GraphicsResource>.Remove` and the sort by resource type, as sequence functions |
| `VulkanGraphicsDevice.dfy` | `VulkanGraphicsDevice` | the static `_isSupported` cache and the throwing members |
| `GraphicsDevice.dfy` | `GraphicsDevice` | backend selection and the device class |

Some parts of the device depend on code or state outside this model. Each is a parameter:

- The platform (`Platform.PlatformType`).
- The build symbols `VORTICE_NO_D3D11`, `VORTICE_NO_D3D12` and `VORTICE_NO_VULKAN`. They are a `BuildConfig` value.
- The Direct3D support probes. They are booleans.
- The size of `T` (`Unsafe.SizeOf<T>()`). It is `elementSize`.
- The hash of a `Texture` and the equality and hash of a `float`. They are functions passed in.

The device class `GraphicsDevice.Device` keeps the resource list, the disposed flag and an event log. The log is the observable effect of the backend hooks, of presenting a swap chain, and of disposing each resource. A Vulkan device's hooks throw `NotImplementedException`. The Direct3D devices are not part of this model, so for the other backends a hook is recorded in the log and returns normally.

## Model

| member | source | states |
|---|---|---|
| `HashHelpers.Combine` | src/core/Vortice/Primitives/HashHelpers.cs:14-25 | `((int)rol5 + h1) ^ h2` in wrapping `bv32`; `Rol5IsShiftPair`, `CombineZeroSeed` and `CombineInjective` state its properties |
| `HashHelpers.Rol5IsShiftPair` | src/core/Vortice/Primitives/HashHelpers.cs:22 | `rol5` is the two-shift expression, equals a rotation left by 5, and a rotation right by 5 undoes it |
| `HashHelpers.CombineZeroSeed` | src/core/Vortice/Primitives/HashHelpers.cs:14-25 | combining into a zero hash returns the second hash unchanged |
| `HashHelpers.CombineInjective` | src/core/Vortice/Primitives/HashHelpers.cs:14-25 | for a fixed first hash, two second hashes give the same result if and only if they are equal |
| `HashHelpers.Combine3` | src/core/Vortice/Primitives/HashHelpers.cs:34-37 | combines the first two hashes, then the third; `CombineFolds` states it is the left fold of `Combine` over three hashes, and `CombineLastInjective` that it is injective in the last one |
| `HashHelpers.Combine4` | src/core/Vortice/Primitives/HashHelpers.cs:47-52 | combines four hashes left to right; `CombineFolds` states it is the left fold over four hashes and extends `Combine3`, and `CombineLastInjective` that it is injective in the last one |
| `HashHelpers.CombineFolds` | src/core/Vortice/Primitives/HashHelpers.cs:34-52 | the three- and four-argument overloads are left folds of `Combine`, and the four-argument one extends the three-argument one |
| `HashHelpers.CombineLastInjective` | src/core/Vortice/Primitives/HashHelpers.cs:34-52 | the three- and four-argument overloads are injective in their last argument |
| `PixelFormatUtil.IsDepthFormat` | src/engine/Vortice.Graphics/PixelFormatUtil.cs:16-28 | true on the four depth formats; `ClassificationSets` states it is membership in exactly that set |
| `PixelFormatUtil.IsStencilFormat` | src/engine/Vortice.Graphics/PixelFormatUtil.cs:35-45 | true on the two formats with a stencil part; `ClassificationSets` states it is membership in exactly that set |
| `PixelFormatUtil.IsDepthStencilFormat` | src/engine/Vortice.Graphics/PixelFormatUtil.cs:52-55 | depth or stencil; `StencilImpliesDepth` states it coincides with `IsDepthFormat` |
| `PixelFormatUtil.IsCompressed` | src/engine/Vortice.Graphics/PixelFormatUtil.cs:62-82 | true on the twelve block-compressed formats; `ClassificationSets` states it is membership in exactly that set |
| `PixelFormatUtil.ClassificationSets` | src/engine/Vortice.Graphics/PixelFormatUtil.cs:16-82 | each predicate holds exactly on its set of formats: 4 depth formats, 2 stencil formats, 12 block-compressed formats |
| `PixelFormatUtil.StencilImpliesDepth` | src/engine/Vortice.Graphics/PixelFormatUtil.cs:16-55 | every stencil format is a depth format, so `IsDepthStencilFormat` holds exactly on the depth formats |
| `PixelFormatUtil.CompressedExcludesDepthStencil` | src/engine/Vortice.Graphics/PixelFormatUtil.cs:16-82 | no compressed format is a depth, stencil or depth-stencil format |
| `DepthStencilAttachment.New` | src/engine/Vortice.Graphics/RenderPassDepthStencilAttachmentDescriptor.cs:23-39 | the constructor stores each argument in its property |
| `DepthStencilAttachment.NewDefaults` | src/engine/Vortice.Graphics/RenderPassDepthStencilAttachmentDescriptor.cs:23-30 | the defaults are depth 1.0f, stencil 0, `Clear`, `DontCare`, mip level 0 and slice 0 |
| `DepthStencilAttachment.Equals` | src/engine/Vortice.Graphics/RenderPassDepthStencilAttachmentDescriptor.cs:100-107 | all seven properties equal, the clear depth under the float equality; its properties are stated by `EqualsIsValueEquality`, `EqualsReflexiveIff` and `EqualsSymmetricTransitive` |
| `DepthStencilAttachment.OpEquality` | src/engine/Vortice.Graphics/RenderPassDepthStencilAttachmentDescriptor.cs:81-84 | `operator ==`; `OperatorsAgree` states it is `Equals` |
| `DepthStencilAttachment.OpInequality` | src/engine/Vortice.Graphics/RenderPassDepthStencilAttachmentDescriptor.cs:94-97 | `operator !=`; `OperatorsAgree` states it is the negation of `==` |
| `DepthStencilAttachment.EqualsObject` | src/engine/Vortice.Graphics/RenderPassDepthStencilAttachmentDescriptor.cs:110-113 | `Equals(object)`; `EqualsObjectCases` states its three cases |
| `DepthStencilAttachment.GetHashCode` | src/engine/Vortice.Graphics/RenderPassDepthStencilAttachmentDescriptor.cs:116-129 | the straight-line hash; `GetHashCodeIsFold` states it is a fold over the field hashes and `EqualsImpliesSameHash` that it agrees with `Equals` |
| `DepthStencilAttachment.OperatorsAgree` | src/engine/Vortice.Graphics/RenderPassDepthStencilAttachmentDescriptor.cs:81-97 | `==` is `Equals`, and `!=` is its negation |
| `DepthStencilAttachment.EqualsObjectCases` | src/engine/Vortice.Graphics/RenderPassDepthStencilAttachmentDescriptor.cs:110-113 | `Equals(object)` is false for null and for other types, and is `Equals` on a boxed descriptor |
| `DepthStencilAttachment.EqualsIsValueEquality` | src/engine/Vortice.Graphics/RenderPassDepthStencilAttachmentDescriptor.cs:100-107 | when float equality is identity, `Equals` holds exactly when all seven fields are equal |
| `DepthStencilAttachment.EqualsReflexiveIff` | src/engine/Vortice.Graphics/RenderPassDepthStencilAttachmentDescriptor.cs:100-107 | a descriptor equals itself exactly when its clear depth equals itself, so a NaN depth makes it unequal to itself |
| `DepthStencilAttachment.EqualsSymmetricTransitive` | src/engine/Vortice.Graphics/RenderPassDepthStencilAttachmentDescriptor.cs:100-107 | `Equals` is symmetric and transitive when float equality is |
| `DepthStencilAttachment.HashStep` | src/engine/Vortice.Graphics/RenderPassDepthStencilAttachmentDescriptor.cs:121-126 | one mixing step `(hashCode * 397) ^ fieldHash` in wrapping 32-bit arithmetic; `GetHashCodeIsFold` folds it over the field hashes |
| `DepthStencilAttachment.FieldHashes` | src/engine/Vortice.Graphics/RenderPassDepthStencilAttachmentDescriptor.cs:121-126 | the hashes of the six properties after the texture, in declaration order; there are exactly six |
| `DepthStencilAttachment.GetHashCodeIsFold` | src/engine/Vortice.Graphics/RenderPassDepthStencilAttachmentDescriptor.cs:116-129 | the hash is a fold of `h * 397 ^ field` over the six field hashes, seeded with the texture's hash or 0 for no texture |
| `DepthStencilAttachment.EqualsImpliesSameHash` | src/engine/Vortice.Graphics/RenderPassDepthStencilAttachmentDescriptor.cs:100-129 | equal descriptors have equal hash codes whenever the float hash agrees with float equality |
| `ResourceTracking.IndexOf` | src/engine/Vortice.Graphics/GraphicsDevice.cs:284 | the index of the first occurrence of a resource |
| `ResourceTracking.RemoveFirst` | src/engine/Vortice.Graphics/GraphicsDevice.cs:280-286 | `List.Remove`: an absent resource leaves the list unchanged, otherwise exactly the first occurrence is cut out |
| `ResourceTracking.RemoveFirstMultiset` | src/engine/Vortice.Graphics/GraphicsDevice.cs:280-286 | removal takes exactly one copy of the resource out of the list's multiset |
| `ResourceTracking.RemoveFirstLength` | src/engine/Vortice.Graphics/GraphicsDevice.cs:280-286 | removal shortens the list by one exactly when the resource is present |
| `ResourceTracking.TrackThenUntrack` | src/engine/Vortice.Graphics/GraphicsDevice.cs:272-286 | tracking a new resource and then untracking it restores the list |
| `ResourceTracking.Insert` | src/engine/Vortice.Graphics/GraphicsDevice.cs:294 | inserting into a list sorted by type keeps it sorted and adds exactly that resource |
| `ResourceTracking.SortByType` | src/engine/Vortice.Graphics/GraphicsDevice.cs:294 | the sort by resource type gives a sorted permutation of the list |
| `VulkanGraphicsDevice.SupportAnswer` | src/engine/Vortice.Graphics/Vulkan/VulkanGraphicsDevice.cs:27-51 | a cached answer is returned as is; otherwise Vulkan is supported exactly on Windows, Linux and Android |
| `VulkanGraphicsDevice.SupportAnswerIdempotent` | src/engine/Vortice.Graphics/Vulkan/VulkanGraphicsDevice.cs:27-51 | once an answer is cached, every later check returns it whatever the platform |
| `VulkanGraphicsDevice.DeviceBackend` | src/engine/Vortice.Graphics/Vulkan/VulkanGraphicsDevice.cs:12-13 | the backend a Vulkan device passes to the base constructor; `Device.Create` builds a Vulkan device with it |
| `VulkanGraphicsDevice.Invoke` | src/engine/Vortice.Graphics/Vulkan/VulkanGraphicsDevice.cs:18-21 | every backend member of the Vulkan device throws `NotImplementedException` |
| `VulkanGraphicsDevice.SupportCache.constructor` | src/engine/Vortice.Graphics/Vulkan/VulkanGraphicsDevice.cs:10 | the cache starts empty |
| `VulkanGraphicsDevice.SupportCache.IsSupported` | src/engine/Vortice.Graphics/Vulkan/VulkanGraphicsDevice.cs:27-51 | returns the cached answer if there is one, else the platform test; the cache then holds the returned answer |
| `VulkanGraphicsDevice.CheckTwice` | src/engine/Vortice.Graphics/Vulkan/VulkanGraphicsDevice.cs:27-51 | two checks give the same answer, and the cache holds it |
| `GraphicsDevice.GetDefaultGraphicsPlatform` | src/engine/Vortice.Graphics/GraphicsDevice.cs:171-193 | Direct3D 11 on Windows and UWP, OpenGL ES on Android and Linux, OpenGL on iOS and macOS, and `ArgumentOutOfRangeException` on any other platform and only there |
| `GraphicsDevice.ResolveBackend` | src/engine/Vortice.Graphics/GraphicsDevice.cs:84-87 | `Default` is replaced by the platform's default backend and any other backend is kept; `DefaultBackendResolves` states its properties, and `Create` resolves the same way at lines 128-131 |
| `GraphicsDevice.IsSupported` | src/engine/Vortice.Graphics/GraphicsDevice.cs:82-115 | resolves `Default`, then asks the backend's own check unless its symbol compiles it out; `DefaultBackendResolves` and `SupportedBackends` state its properties |
| `GraphicsDevice.CreateBackendAsWritten` | src/engine/Vortice.Graphics/GraphicsDevice.cs:124-164 | `Create` as written, with the Vulkan arm under `VORTICE_NO_D3D12`; `VulkanGateMismatch` exhibits the discrepancy and `CreateAsWrittenAgrees` bounds it |
| `GraphicsDevice.CreateBackend` | src/engine/Vortice.Graphics/GraphicsDevice.cs:124-164 | the corrected `Create`, with the Vulkan arm under `VORTICE_NO_VULKAN`; `CreateSucceedsIffSupported` states when it succeeds |
| `GraphicsDevice.CheckDeviceArguments` | src/engine/Vortice.Graphics/GraphicsDevice.cs:56-57 | the constructor's two guards in order; `Device.New` states that it fails exactly on `Default` or null parameters |
| `GraphicsDevice.CheckBuffer` | src/engine/Vortice.Graphics/GraphicsDevice.cs:217-224 | the three buffer guards in order; `CheckBufferAccepts` states when it passes |
| `GraphicsDevice.CheckTexture` | src/engine/Vortice.Graphics/GraphicsDevice.cs:264-267 | the four texture guards in order; `CheckTextureAccepts` states when it passes |
| `Graphics.Wrap32` | src/engine/Vortice.Graphics/GraphicsDevice.cs:239 | the unchecked `int` product, as at lines 239 and 258: the result is congruent to the mathematical value modulo 2^32 and equals it when it fits in 32 bits |
| `GraphicsDevice.DeriveBufferDescriptor` | src/engine/Vortice.Graphics/GraphicsDevice.cs:237-240 | the size derivation; `DeriveBufferDescriptorSize` and `DerivedSizePositive` state its properties |
| `GraphicsDevice.CreateAsWrittenAgrees` | src/engine/Vortice.Graphics/GraphicsDevice.cs:124-164 | the code as written and the corrected gate agree in every build except one that compiles out Direct3D 12 but not Vulkan |
| `GraphicsDevice.DefaultBackendResolves` | src/engine/Vortice.Graphics/GraphicsDevice.cs:82-87 | the default backend is a concrete backend, only an unknown platform throws, and `IsSupported(Default)` asks about the platform's default |
| `GraphicsDevice.SupportedBackends` | src/engine/Vortice.Graphics/GraphicsDevice.cs:82-115 | only Direct3D 11, Direct3D 12 and Vulkan can be supported |
| `GraphicsDevice.DefaultUnsupportedOffWindows` | src/engine/Vortice.Graphics/GraphicsDevice.cs:124-193 | on Android, Linux, iOS and macOS the default backend is an OpenGL one, which is unsupported, so `Create(Default)` throws "not supported" for it |
| `GraphicsDevice.CreateSucceedsIffSupported` | src/engine/Vortice.Graphics/GraphicsDevice.cs:124-164 | the corrected `Create` succeeds exactly when presentation parameters are given and `IsSupported` holds, and then builds a device for the resolved backend |
| `GraphicsDevice.VulkanGateMismatch` | src/engine/Vortice.Graphics/GraphicsDevice.cs:105-159 | as written, a build without Direct3D 12 reports Vulkan supported at lines 105-110 and then refuses to create it at lines 154-159 |
| `GraphicsDevice.CheckBufferAccepts` | src/engine/Vortice.Graphics/GraphicsDevice.cs:215-224 | a buffer passes the guards exactly when its usage is known, its size is positive, and an immutable buffer has initial data |
| `GraphicsDevice.CheckTextureAccepts` | src/engine/Vortice.Graphics/GraphicsDevice.cs:262-267 | a texture passes the guards exactly when its type is known and width, height and depth are each at least 1 |
| `GraphicsDevice.DeriveBufferDescriptorSize` | src/engine/Vortice.Graphics/GraphicsDevice.cs:236-240 | only a zero size is replaced, and only the size; it becomes the byte count of the data when that fits in an `int` |
| `GraphicsDevice.DerivedSizePositive` | src/engine/Vortice.Graphics/GraphicsDevice.cs:231-240 | non-empty data whose byte count fits in an `int` gives a size that passes the size guard |
| `GraphicsDevice.DisposalEvents` | src/engine/Vortice.Graphics/GraphicsDevice.cs:296-300 | one dispose per snapshot entry, in the snapshot's order |
| `GraphicsDevice.DisposalEventsAppend` | src/engine/Vortice.Graphics/GraphicsDevice.cs:296-300 | disposing one more entry appends its dispose |
| `GraphicsDevice.DisposalInTypeOrder` | src/engine/Vortice.Graphics/GraphicsDevice.cs:288-303 | resources are disposed in non-decreasing resource-type order |
| `GraphicsDevice.Device.constructor` | src/engine/Vortice.Graphics/GraphicsDevice.cs:54-62 | stores the backend and presentation parameters; no resources are tracked and the device is not disposed |
| `GraphicsDevice.Device.New` | src/engine/Vortice.Graphics/GraphicsDevice.cs:54-62 | the constructor throws exactly for `Default` or null parameters, in that order, and otherwise builds a fresh device |
| `GraphicsDevice.Device.QueryIsSupported` | src/engine/Vortice.Graphics/GraphicsDevice.cs:82-115 | the answer is `IsSupported` with the Vulkan answer taken from the shared cache, which is consulted only for Vulkan |
| `GraphicsDevice.Device.Create` | src/engine/Vortice.Graphics/GraphicsDevice.cs:124-164 | succeeds or throws exactly as the corrected `CreateBackend` says, a new device has the resolved backend, and the shared Vulkan cache changes only when Vulkan is queried |
| `GraphicsDevice.Device.RunHook` | src/engine/Vortice.Graphics/GraphicsDevice.cs:305-309 | a Vulkan device's hook throws `NotImplementedException` with the log unchanged; any other device's hook is logged and returns normally |
| `GraphicsDevice.Device.TrackResource` | src/engine/Vortice.Graphics/GraphicsDevice.cs:272-278 | the resource is appended |
| `GraphicsDevice.Device.UntrackResource` | src/engine/Vortice.Graphics/GraphicsDevice.cs:280-286 | the first occurrence is removed, one copy leaves the multiset, and nothing else changes |
| `GraphicsDevice.Device.DestroyAllResources` | src/engine/Vortice.Graphics/GraphicsDevice.cs:288-303 | the list becomes a sorted permutation of itself, and every entry is disposed once, in the sorted order |
| `GraphicsDevice.Device.Dispose` | src/engine/Vortice.Graphics/GraphicsDevice.cs:65-75 | the first disposing call disposes all resources and then destroys the device. A Vulkan device throws from `Destroy` and stays not disposed. Otherwise the device is disposed |
| `GraphicsDevice.Device.PresentTo` | src/engine/Vortice.Graphics/GraphicsDevice.cs:207-213 | a null swap chain throws `ArgumentNullException`; otherwise the swap chain is presented and then the frame ends |
| `GraphicsDevice.Device.Present` | src/engine/Vortice.Graphics/GraphicsDevice.cs:198-201 | presents the main swap chain; a Vulkan device throws before presenting anything |
| `GraphicsDevice.Device.CreateBuffer` | src/engine/Vortice.Graphics/GraphicsDevice.cs:215-227 | each failed guard throws its own exception with nothing created; otherwise the backend receives the descriptor unchanged |
| `GraphicsDevice.Device.CreateBufferWithoutData` | src/engine/Vortice.Graphics/GraphicsDevice.cs:229 | a buffer without data; an immutable one always throws |
| `GraphicsDevice.Device.CreateBufferFromData` | src/engine/Vortice.Graphics/GraphicsDevice.cs:231-246 | null data throws `ArgumentNullException` and empty data `ArgumentOutOfRangeException`; otherwise the buffer is created with data and the derived size |
| `GraphicsDevice.Device.CreateImmutableBuffer` | src/engine/Vortice.Graphics/GraphicsDevice.cs:255-260 | null data throws `NullReferenceException`; otherwise an immutable buffer sized by the data, with the same outcomes as the data overload |
| `GraphicsDevice.Device.CreateTexture` | src/engine/Vortice.Graphics/GraphicsDevice.cs:262-270 | each failed guard throws its own exception with nothing created; otherwise the backend receives the description unchanged |

## Left out

- The guard helpers: `Guard` and `GraphicsException` are not part of this model. Only the kind of each exception and the parameter it names are kept, as an `Error` value.
- The `Platform` class is not part of this model. The platform is a parameter.
- The Direct3D 11 and Direct3D 12 devices are not part of this model. Their `IsSupported` answers are parameters. Their hooks are recorded in the event log and return normally.
- `GraphicsResource.Dispose` is not part of this model. It is recorded as one event. A resource that untracks itself while being disposed would change `_resources` during the loop; the model keeps only the snapshot.
- `DisposableBase` is not part of this model. Its `Dispose(bool)` is taken to set `IsDisposed`.
- The lock on `_resourceSyncRoot` is left out. The model is single-threaded.
- `Features`, `GraphicsQueue` (its Vulkan getter is covered by `VulkanGraphicsDevice.Invoke`), the `validation` flag, and the `GCHandle` pinning are left out. The pinned pointer is modelled only as "non-null initial data".
- `CommandBuffer.cs` is outside the modelled core.
- Float semantics are left out. A `float` is its bit pattern, and its equality and hash are parameters. The IEEE rules (NaN, positive and negative zero) are not modelled.
- The enum declarations of `PixelFormat`, `LoadAction`, `StoreAction`, `BufferUsage`, `GraphicsResourceUsage` and `TextureType` are not in the modelled sources. Each datatype has the members the code names, plus the illustrative ones listed here. Where the code names only `Unknown` or one other member, further members are added for illustration: `Vertex`, `Index` and `Uniform`; `DefaultUsage`, `Dynamic` and `Staging`; `Texture1D` to `TextureCube`; `Discard`, `Load` and `Store`. `PixelFormat` keeps `Unknown` for illustration and puts every other format the code does not name into `OtherFormat`. The hashes of `LoadAction` and `StoreAction` assume the declaration order `Discard`, `Load`, `Clear` and `Store`, `DontCare`.
- The `GraphicsBackend` enum declares only `Default`, `Direct3D11` and `Direct3D12`. The device code also uses `Vulkan`, `OpenGL` and `OpenGLES`, so the model includes them.
- The `try` block of the Vulkan support check is empty, so its `catch` can never run and is not modelled.
- `ResourceTracking.SortByType`: `List.Sort` is unstable. The contract promises only a sorted permutation, not which order equal-typed resources end up in.
- `HashHelpers.Combine3` and `HashHelpers.Combine4` carry no contract of their own. Their meaning is stated by `CombineFolds` and `CombineLastInjective`.
- `GraphicsDevice.Device.Create` follows the corrected Vulkan gate (`VORTICE_NO_VULKAN`), not the `VORTICE_NO_D3D12` gate the code has at line 155. It therefore differs from the code in a build that compiles out Direct3D 12 but not Vulkan; see "## Findings". `CreateAsWrittenAgrees` proves that every other build behaves the same.
- `GraphicsDevice.DeriveBufferDescriptorSize`: a byte count of 2^31 or more wraps in the 32-bit product (`Wrap32`). The lemma states the size only when it does not wrap.

## Findings

| source | as written | input that shows it | evidently intended | confidence | as-written member | corrected member |
|---|---|---|---|---|---|---|
| src/engine/Vortice.Graphics/GraphicsDevice.cs:155 | The Vulkan arm of `Create` is compiled in or out by `VORTICE_NO_D3D12`. | A build that defines `VORTICE_NO_D3D12` but not `VORTICE_NO_VULKAN`, on Windows, with Vulkan available: `IsSupported(Vulkan)` is true, and `Create(Vulkan, ...)` throws "Vulkan Backend is not supported". | The Vulkan arm is gated on `VORTICE_NO_VULKAN`, as `IsSupported` gates it at line 106. | not executed | `GraphicsDevice.CreateBackendAsWritten`, `GraphicsDevice.VulkanGateMismatch` | `GraphicsDevice.CreateBackend`, `GraphicsDevice.CreateSucceedsIffSupported` |
