/**
 * The `Platform` enum of the `org.expretio` variant: the two supported platforms, the classpath
 * locations of their native files, and detection from the `os.name` and `os.arch` properties.
 */
module Platforms {
  import opened Wrappers
  import opened Strings

  /** The enum constants. */
  datatype Platform = LINUX64 | WIN32

  /** Detection found no matching constant (`UnsupportedPlatformException`). */
  datatype Unsupported = UnsupportedPlatform(osName: string, osArch: string)

  /** The common prefix of every native resource path. */
  const Base: string := "org/expretio/maven/capnp/"

  /** `Enum.name()`. */
  function EnumName(p: Platform): string
  {
    match p
    case LINUX64 => "LINUX64"
    case WIN32 => "WIN32"
  }

  /** The compiler path the constant is declared with, relative to the compiler directory. */
  function CompilerRelative(p: Platform): string
  {
    match p
    case LINUX64 => "linux/x64/capnp"
    case WIN32 => "windows/x86/capnp.exe"
  }

  /** The java plugin path the constant is declared with, relative to the plugin directory. */
  function PluginRelative(p: Platform): string
  {
    match p
    case LINUX64 => "linux/x64/capnpc-java"
    case WIN32 => "windows/x64/capnpc-java.exe"
  }

  /** `getCapnp()`: the compiler's classpath location. */
  function Capnp(p: Platform): (r: string)
    ensures EndsWith(r, ".exe") <==> p == WIN32
    ensures StartsWith(r, Base + "compiler/")
  {
    var rel := CompilerRelative(p);
    EndsWithAppend(Base + "compiler/", rel, ".exe");
    assert (Base + "compiler/" + rel)[..|Base + "compiler/"|] == Base + "compiler/";
    assert EndsWith(rel, ".exe") <==> rel[|rel| - 4] == '.';
    Base + "compiler/" + CompilerRelative(p)
  }

  /** `getCapnpcJava()`: the java plugin's classpath location. */
  function CapnpcJava(p: Platform): (r: string)
    ensures EndsWith(r, ".exe") <==> p == WIN32
    ensures StartsWith(r, Base + "javaplugin/")
  {
    var rel := PluginRelative(p);
    EndsWithAppend(Base + "javaplugin/", rel, ".exe");
    assert (Base + "javaplugin/" + rel)[..|Base + "javaplugin/"|] == Base + "javaplugin/";
    assert EndsWith(rel, ".exe") <==> rel[|rel| - 4] == '.';
    Base + "javaplugin/" + PluginRelative(p)
  }

  /** `getJavaSchema()`: the same `java.capnp` location for every platform. */
  function JavaSchema(p: Platform): (r: string)
    ensures EndsWith(r, "/java.capnp")
  {
    Base + "javaplugin/java.capnp"
  }

  /**
   * The three resources of a platform lie at three different locations, so staging one never
   * overwrites another; and the java schema is shared by both platforms.
   */
  lemma LocationsDistinct(p: Platform)
    ensures Capnp(p) != CapnpcJava(p) && Capnp(p) != JavaSchema(p) && CapnpcJava(p) != JavaSchema(p)
    ensures JavaSchema(p) == JavaSchema(LINUX64) == JavaSchema(WIN32)
  {
    var n := |Base|;
    var compiler, plugin := Base + "compiler/", Base + "javaplugin/";
    assert compiler[n] == 'c' && plugin[n] == 'j';
    assert Capnp(p)[n] == 'c' by {
      assert Capnp(p) == compiler + CompilerRelative(p);
    }
    assert CapnpcJava(p)[n] == 'j' && CapnpcJava(p)[|plugin|] == PluginRelative(p)[0] by {
      assert CapnpcJava(p) == plugin + PluginRelative(p);
    }
    assert JavaSchema(p)[n] == 'j' && JavaSchema(p)[|plugin|] == 'j' by {
      assert JavaSchema(p) == plugin + "java.capnp";
    }
  }

  /** `getClassifier()`: the lower-cased constant name. */
  function Classifier(p: Platform): (r: string)
    ensures r == ToLower(EnumName(p))
    ensures r == (match p case LINUX64 => "linux64" case WIN32 => "win32")
  {
    LowerEnumName(p);
    ToLower(EnumName(p))
  }

  /** The lower-cased constant names, character by character. */
  lemma LowerEnumName(p: Platform)
    ensures ToLower(EnumName(p)) == (match p case LINUX64 => "linux64" case WIN32 => "win32")
  {
    var r := ToLower(EnumName(p));
    match p
    case LINUX64 => assert r == ['l', 'i', 'n', 'u', 'x', '6', '4'];
    case WIN32 => assert r == ['w', 'i', 'n', '3', '2'];
  }

  /** The lower-cased inputs select `LINUX64`. */
  predicate IsLinux64(osName: string, osArch: string): (r: bool)
    ensures r ==> !IsWindows(osName)
  {
    assert "linux"[0] != "windows"[0];
    StartsWith(ToLower(osName), "linux") && Contains(ToLower(osArch), "64")
  }

  /** The lower-cased OS name selects `WIN32`. */
  predicate IsWindows(osName: string): (r: bool)
    ensures r ==> !StartsWith(ToLower(osName), "linux")
  {
    assert "linux"[0] != "windows"[0];
    StartsWith(ToLower(osName), "windows")
  }

  /**
   * `detect()`: `LINUX64` for a Linux name on a 64-bit architecture, else `WIN32` for any Windows
   * name, else the unsupported-platform exception; never a null or sentinel platform.
   */
  function Detect(osName: string, osArch: string): (r: Result<Platform, Unsupported>)
    ensures r == Success(LINUX64) <==> IsLinux64(osName, osArch)
    ensures r == Success(WIN32) <==> !IsLinux64(osName, osArch) && IsWindows(osName)
    ensures r.Failure? <==> !IsLinux64(osName, osArch) && !IsWindows(osName)
    ensures r.Failure? ==> r.error == UnsupportedPlatform(osName, osArch)
  {
    if IsLinux64(osName, osArch) then Success(LINUX64)
    else if IsWindows(osName) then Success(WIN32)
    else Failure(UnsupportedPlatform(osName, osArch))
  }

  /** Windows is recognised from the OS name alone: the architecture plays no part. */
  lemma WindowsAnyArchitecture(osName: string, osArch: string)
    requires IsWindows(osName)
    ensures Detect(osName, osArch) == Success(WIN32)
  {
    var lower := ToLower(osName);
    assert lower[..5] != "linux" by {
      assert lower[..7] == "windows";
      assert lower[0] == 'w';
    }
  }

  /** Matching ignores case: lower-casing either input first does not change the answer. */
  lemma DetectIgnoresCase(osName: string, osArch: string)
    ensures Detect(ToLower(osName), ToLower(osArch)).Success? == Detect(osName, osArch).Success?
    ensures Detect(osName, osArch).Success? ==> Detect(ToLower(osName), ToLower(osArch)) == Detect(osName, osArch)
  {
    ToLowerIdempotent(osName);
    ToLowerIdempotent(osArch);
  }

  /** A concrete unsupported host: macOS is detected as unsupported whatever the architecture. */
  lemma MacIsUnsupported(osArch: string)
    ensures Detect("Mac OS X", osArch).Failure?
  {
    var lower := ToLower("Mac OS X");
    assert lower[0] == 'm';
  }
}
