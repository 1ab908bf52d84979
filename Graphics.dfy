/** Types shared by the device, the Vulkan backend and their callers:
    backends, platforms, the build configuration, and the errors that the
    C# code raises as exceptions, carried here as values. */
module Graphics {

  /** The backends the engine names. The enum declaration of the repository
      lists only Default, Direct3D11 and Direct3D12, but the device code also
      uses Vulkan, OpenGL and OpenGLES, so all six are members here. */
  datatype GraphicsBackend = Default | Direct3D11 | Direct3D12 | Vulkan | OpenGL | OpenGLES

  /** The platforms the device code distinguishes; `OtherPlatform` stands for
      every platform value not named by a `case` label. */
  datatype PlatformType = Windows | UWP | Android | Linux | iOS | macOS | OtherPlatform

  /** Which backends are compiled out (`VORTICE_NO_D3D11`, `VORTICE_NO_D3D12`,
      `VORTICE_NO_VULKAN`). */
  datatype BuildConfig = BuildConfig(noD3D11: bool, noD3D12: bool, noVulkan: bool)

  /** The exceptions the modelled code throws, by kind and parameter. */
  datatype Error =
    | ArgumentInvalid(param: string)       // Guard.IsTrue failed
    | ArgumentNull(param: string)          // Guard.NotNull failed
    | ArgumentOutOfRange(param: string)    // Guard.MustBeGreaterThan[OrEqualTo] failed, or a switch without a case
    | NullReference                        // a member access on null
    | BackendNotSupported(backend: GraphicsBackend)  // GraphicsException "Backend ... is not supported"
    | InvalidBackend(backend: GraphicsBackend)       // GraphicsException "Invalid ... backend"
    | ImmutableWithoutData                 // GraphicsException "Immutable buffer needs valid initial data."
    | NotImplemented                       // NotImplementedException

  /** A value or the exception that replaced it. */
  datatype Result<+T> = Success(value: T) | Failure(error: Error)

  /** Normal completion or the exception that ended a void member. */
  datatype Outcome = Pass | Fail(error: Error)

  /** A C# `int`. */
  newtype Int32 = x: int | -0x8000_0000 <= x < 0x8000_0000

  /** An `unchecked` C# `int` result: the mathematical value reduced into
      the 32-bit two's complement range. */
  function Wrap32(x: int): (r: Int32)
    ensures (r as int - x) % 0x1_0000_0000 == 0
    ensures -0x8000_0000 <= x < 0x8000_0000 ==> r as int == x
  {
    var m := x % 0x1_0000_0000;
    (if m < 0x8000_0000 then m else m - 0x1_0000_0000) as Int32
  }

  /** The optional value that a nullable reference or a `bool?` holds. */
  datatype Option<+T> = None | Some(value: T)
}
