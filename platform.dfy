/** The npm launcher's mapping from a Node.js platform and architecture to a
    .NET runtime identifier. */
module Platform {
  import opened Wrappers

  /** The `win32` case, also reached by falling through from `darwin`. */
  function Win32Rid(arch: string): Option<string> {
    if arch == "x32" || arch == "ia32" then Some("win-x86")
    else if arch == "x64" then Some("win-x64")
    else if arch == "arm64" then Some("win-arm64")
    else None
  }

  /** The `darwin` case, falling through into `win32` when no arch matches. */
  function DarwinRid(arch: string): Option<string> {
    if arch == "x64" then Some("osx-x64")
    else if arch == "arm64" then Some("osx-arm64")
    else Win32Rid(arch)
  }

  /** The `linux` case, falling through into `darwin` when no arch matches. */
  function LinuxRid(arch: string): Option<string> {
    if arch == "x64" then Some("linux-x64")
    else if arch == "arm64" then Some("linux-arm64")
    else DarwinRid(arch)
  }

  /** The seven runtime identifiers the launcher knows. */
  const Rids: set<string> := {"linux-x64", "linux-arm64", "osx-x64", "osx-arm64", "win-x86", "win-x64", "win-arm64"}

  /** The message of the error thrown for an unsupported combination. */
  function UnsupportedMessage(platform: string, arch: string): string {
    "Platform '" + platform + "." + arch + "' is not a supported Node.js environment."
  }

  /** `getNETRid()` with the platform and architecture as parameters. The
      `switch` statements have no `break`, so an unmatched architecture falls
      through to the following platform's cases. */
  function GetNetRid(platform: string, arch: string): (r: Result<string, string>)
    ensures r.Success? ==> r.value in Rids
    ensures r.Failure? <==> platform !in {"linux", "darwin", "win32"} || arch !in {"x32", "ia32", "x64", "arm64"}
    ensures r.Failure? ==> r.error == UnsupportedMessage(platform, arch)
  {
    var rid :=
      if platform == "linux" then LinuxRid(arch)
      else if platform == "darwin" then DarwinRid(arch)
      else if platform == "win32" then Win32Rid(arch)
      else None;
    if rid.Some? then Success(rid.value) else Failure(UnsupportedMessage(platform, arch))
  }

  /** The native mappings. */
  lemma GetNetRidNative()
    ensures GetNetRid("linux", "x64") == Success("linux-x64")
    ensures GetNetRid("linux", "arm64") == Success("linux-arm64")
    ensures GetNetRid("darwin", "x64") == Success("osx-x64")
    ensures GetNetRid("darwin", "arm64") == Success("osx-arm64")
    ensures GetNetRid("win32", "ia32") == Success("win-x86")
    ensures GetNetRid("win32", "x32") == Success("win-x86")
    ensures GetNetRid("win32", "x64") == Success("win-x64")
    ensures GetNetRid("win32", "arm64") == Success("win-arm64")
  {
  }

  /** The fall-through: a 32-bit x86 Linux or macOS gets the Windows
      identifier. */
  lemma GetNetRidFallThrough(platform: string, arch: string)
    requires platform == "linux" || platform == "darwin"
    requires arch == "ia32" || arch == "x32"
    ensures GetNetRid(platform, arch) == Success("win-x86")
  {
  }

  /** Anything else fails with a message naming `platform.arch`. */
  lemma GetNetRidUnsupported(platform: string, arch: string)
    requires platform !in {"linux", "darwin", "win32"}
    ensures GetNetRid(platform, arch) == Failure(UnsupportedMessage(platform, arch))
  {
  }

  // ---------------------------------------------------------------------------
  // The mapping with a `break` after each platform
  // ---------------------------------------------------------------------------

  /** The operating-system part a runtime identifier must start with on a
      Node.js platform. */
  function RidPrefix(platform: string): string {
    if platform == "linux" then "linux-" else if platform == "darwin" then "osx-" else "win-"
  }

  /** The architectures with a native runtime identifier on a platform. */
  predicate Native(platform: string, arch: string) {
    || (platform in {"linux", "darwin"} && arch in {"x64", "arm64"})
    || (platform == "win32" && arch in {"x32", "ia32", "x64", "arm64"})
  }

  /** `getNETRid()` as evidently intended: each platform consults only its own
      architectures, so the identifier always names the platform it runs on. */
  function IntendedNetRid(platform: string, arch: string): (r: Result<string, string>)
    ensures r.Success? <==> Native(platform, arch)
    ensures r.Success? ==> r.value in Rids && |RidPrefix(platform)| <= |r.value| && r.value[..|RidPrefix(platform)|] == RidPrefix(platform)
    ensures r.Failure? ==> r.error == UnsupportedMessage(platform, arch)
  {
    var rid :=
      if platform == "linux" then (if arch == "x64" then Some("linux-x64") else if arch == "arm64" then Some("linux-arm64") else None)
      else if platform == "darwin" then (if arch == "x64" then Some("osx-x64") else if arch == "arm64" then Some("osx-arm64") else None)
      else if platform == "win32" then Win32Rid(arch)
      else None;
    if rid.Some? then Success(rid.value) else Failure(UnsupportedMessage(platform, arch))
  }

  /** The two mappings differ exactly on 32-bit x86 Linux and macOS, where the
      code as written yields the Windows identifier instead of the error. */
  lemma IntendedDiffersOnlyOnFallThrough(platform: string, arch: string)
    ensures IntendedNetRid(platform, arch) != GetNetRid(platform, arch) <==>
              platform in {"linux", "darwin"} && arch in {"x32", "ia32"}
    ensures platform in {"linux", "darwin"} && arch in {"x32", "ia32"} ==>
              GetNetRid(platform, arch) == Success("win-x86") && IntendedNetRid(platform, arch).Failure?
  {
  }
}
