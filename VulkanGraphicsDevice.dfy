/** The Vulkan backend (`VulkanGraphicsDevice`): a memoised platform check
    held in a static `bool?` field, and a device whose every backend hook
    throws `NotImplementedException`. */
module VulkanGraphicsDevice {
  import opened Graphics

  /** The backend the Vulkan device passes to the base constructor. */
  const DeviceBackend: GraphicsBackend := Vulkan

  /** The platforms on which an uncached check answers true. */
  predicate IsVulkanPlatform(platform: PlatformType)
  {
    platform == Windows || platform == Linux || platform == Android
  }

  /** The answer `IsSupported` gives when the cache holds `cached`. */
  function SupportAnswer(cached: Option<bool>, platform: PlatformType): (r: bool)
    ensures cached.Some? ==> r == cached.value
    ensures cached.None? ==> (r <==> IsVulkanPlatform(platform))
  {
    if cached.Some? then cached.value else IsVulkanPlatform(platform)
  }

  /** Once an answer is cached, every later check gives it back, whatever
      the platform value then is. */
  lemma SupportAnswerIdempotent(cached: Option<bool>, platform: PlatformType, later: PlatformType)
    ensures SupportAnswer(Some(SupportAnswer(cached, platform)), later) == SupportAnswer(cached, platform)
  {
  }

  /** The members of the Vulkan device that throw. */
  datatype Member = Destroy | MainSwapchain | GraphicsQueue | CreateBufferCore | CreateTextureCore | FrameCore

  /** What invoking one of those members does: it throws. */
  function Invoke(member: Member): (o: Outcome)
    ensures o.Fail? && o.error == NotImplemented
  {
    match member
    case Destroy => Fail(NotImplemented)
    case MainSwapchain => Fail(NotImplemented)
    case GraphicsQueue => Fail(NotImplemented)
    case CreateBufferCore => Fail(NotImplemented)
    case CreateTextureCore => Fail(NotImplemented)
    case FrameCore => Fail(NotImplemented)
  }

  /** The static field `_isSupported`: one per process, so one object here
      that every caller shares. */
  class SupportCache {
    var isSupported: Option<bool>

    /** The field before the first check: `null`. */
    constructor ()
      ensures isSupported == None
    {
      isSupported := None;
    }

    /** `IsSupported()`: the cached answer if there is one; otherwise true
        exactly on Windows, Linux and Android (the `try` block that would
        probe the driver is empty, so its `catch` never runs), and the answer
        is cached. */
    method IsSupported(platform: PlatformType) returns (r: bool)
      modifies this
      ensures old(isSupported).Some? ==> r == old(isSupported).value
      ensures old(isSupported).None? ==> (r <==> IsVulkanPlatform(platform))
      ensures r == SupportAnswer(old(isSupported), platform)
      ensures isSupported == Some(r)
    {
      if isSupported.Some? {
        return isSupported.value;
      }
      if platform != Windows && platform != Linux && platform != Android {
        isSupported := Some(false);
        return false;
      }
      isSupported := Some(true);
      return true;
    }
  }

  /** Two checks in a row give the same answer, and the second leaves the
      cache as the first left it. */
  method CheckTwice(cache: SupportCache, platform: PlatformType, later: PlatformType)
    returns (first: bool, second: bool)
    modifies cache
    ensures first == second
    ensures cache.isSupported == Some(first)
  {
    first := cache.IsSupported(platform);
    second := cache.IsSupported(later);
  }
}
