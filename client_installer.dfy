/**
 * `FoundationDbClientInstaller`: resolves the host platform to the canonical
 * `linux`/`osx` and `x86_64`/`aarch64` tokens, names the bundled client library
 * `lib/<os>/<arch>/<library file>`, stages it with a `NativeLibraryInstaller` and
 * publishes the staged path in the system property `FDB_LIBRARY_PATH_FDB_C`.
 */
module ClientInstaller {
  import opened Wrappers
  import opened Files
  import opened NativeLibraries

  const CLIENT_PROPERTY_NAME: string := "FDB_LIBRARY_PATH_FDB_C"
  const CLIENT_LIBRARY_NAME: string := "fdb_c"
  const TEMP_DIR_PREFIX: string := "foundationdb-client"
  const UNSUPPORTED_OS: string := "Unknown or unsupported arch os"
  const UNSUPPORTED_ARCH: string := "Unknown or unsupported arch"

  /** The operating-system family the host reports (`OperatingSystem.getCurrent().getFamily()`). */
  datatype OsFamily = LinuxFamily | MacOsFamily | WindowsFamily | SolarisFamily | OtherFamily

  /** A supported operating system, with its token in the resource layout. */
  datatype Os = Linux | Osx
  {
    function Token(): string
    {
      match this
      case Linux => "linux"
      case Osx => "osx"
    }
  }

  /** A supported architecture, with its canonical token. */
  datatype Arch = X86_64 | Aarch64
  {
    function Token(): string
    {
      match this
      case X86_64 => "x86_64"
      case Aarch64 => "aarch64"
    }
  }

  /** `getOs()`: Linux and macOS are supported; every other family throws, with no fallback. */
  function GetOs(family: OsFamily): (r: Result<Os, Exception>)
    ensures r == Ok(Linux) <==> family == LinuxFamily
    ensures r == Ok(Osx) <==> family == MacOsFamily
    ensures r.Err? <==> family !in {LinuxFamily, MacOsFamily}
    ensures r.Err? ==> r.error == IllegalStateException(UNSUPPORTED_OS)
  {
    match family
    case LinuxFamily => Ok(Linux)
    case MacOsFamily => Ok(Osx)
    case _ => Err(IllegalStateException(UNSUPPORTED_OS))
  }

  /**
   * `getArch()` on the `os.arch` property (None when the property is unset, where
   * the `switch` throws a NullPointerException).
   */
  function GetArch(property: Option<string>): (r: Result<Arch, Exception>)
    ensures r == Ok(X86_64) <==> property == Some("x86_64") || property == Some("amd64")
    ensures r == Ok(Aarch64) <==> property == Some("aarch64") || property == Some("arm64")
    ensures r.Err? && property.Some? ==> r.error == IllegalStateException(UNSUPPORTED_ARCH)
  {
    match property
    case None => Err(NullPointerException(""))
    case Some(arch) =>
      if arch == "x86_64" || arch == "amd64" then Ok(X86_64)
      else if arch == "aarch64" || arch == "arm64" then Ok(Aarch64)
      else Err(IllegalStateException(UNSUPPORTED_ARCH))
  }

  /** Normalising a canonical token gives that token back. */
  lemma ArchNormalisationIdempotent(arch: Arch)
    ensures GetArch(Some(arch.Token())) == Ok(arch)
  {
  }

  /**
   * `System.mapLibraryName(name)` on the host, an assumption of the model:
   * `lib<name>.so` on Linux and `lib<name>.dylib` on macOS.
   */
  function MapLibraryName(os: Os, name: string): (r: string)
    ensures '/' !in name ==> '/' !in r
  {
    match os
    case Linux => "lib" + name + ".so"
    case Osx => "lib" + name + ".dylib"
  }

  /** The name elements of the resource for a platform: `lib`, the two tokens and the library file. */
  function ResourceElements(os: Os, arch: Arch, libName: string): Path
  {
    ["lib", os.Token(), arch.Token(), MapLibraryName(os, libName)]
  }

  /**
   * `getResourceName(libName)`: the arguments of `Path.of` are evaluated from left
   * to right, so an unsupported OS is reported before the architecture is read.
   */
  function ResourceName(family: OsFamily, archProperty: Option<string>, libName: string): (r: Result<string, Exception>)
    ensures r.Ok? <==> GetOs(family).Ok? && GetArch(archProperty).Ok?
    ensures GetOs(family).Err? ==> r == Err(GetOs(family).error)
    ensures GetOs(family).Ok? && GetArch(archProperty).Err? ==> r == Err(GetArch(archProperty).error)
  {
    match GetOs(family)
    case Err(e) => Err(e)
    case Ok(os) =>
      match GetArch(archProperty)
      case Err(e) => Err(e)
      case Ok(arch) => Ok(Join(ResourceElements(os, arch, libName)))
  }

  /**
   * The resource name is exactly the four elements `lib`, OS token, arch token and
   * library file name; it fails exactly when the OS or the architecture does.
   */
  lemma ResourceNameElements(family: OsFamily, archProperty: Option<string>, libName: string)
    requires IsElement(libName)
    ensures ResourceName(family, archProperty, libName).Ok? <==> GetOs(family).Ok? && GetArch(archProperty).Ok?
    ensures GetOs(family).Err? ==> ResourceName(family, archProperty, libName) == Err(GetOs(family).error)
    ensures GetOs(family).Ok? && GetArch(archProperty).Err? ==>
              ResourceName(family, archProperty, libName) == Err(GetArch(archProperty).error)
    ensures ResourceName(family, archProperty, libName).Ok? ==>
              Elements(ResourceName(family, archProperty, libName).value) ==
                ResourceElements(GetOs(family).value, GetArch(archProperty).value, libName)
  {
    if GetOs(family).Ok? && GetArch(archProperty).Ok? {
      var p := ResourceElements(GetOs(family).value, GetArch(archProperty).value, libName);
      assert forall i :: 0 <= i < |p| ==> IsElement(p[i]) by {
        assert '/' !in "lib" + libName + ".so" && '/' !in "lib" + libName + ".dylib";
      }
      ElementsOfJoin(p);
    }
  }

  /** On Linux an `aarch64` JVM loads `lib/linux/aarch64/libfdb_c.so`. */
  lemma LinuxAarch64ResourceName()
    ensures ResourceName(LinuxFamily, Some("aarch64"), CLIENT_LIBRARY_NAME) == Ok(Join(["lib", "linux", "aarch64", "libfdb_c.so"]))
  {
    assert GetArch(Some("aarch64")) == Ok(Aarch64);
    assert Linux.Token() == "linux";
    assert Aarch64.Token() == "aarch64";
    assert MapLibraryName(Linux, CLIENT_LIBRARY_NAME) == "libfdb_c.so";
    assert ResourceElements(Linux, Aarch64, CLIENT_LIBRARY_NAME) == ["lib", "linux", "aarch64", "libfdb_c.so"];
  }

  /** On macOS an `amd64` JVM loads the `x86_64` dylib. */
  lemma MacAmd64ResourceName()
    ensures ResourceName(MacOsFamily, Some("amd64"), CLIENT_LIBRARY_NAME) == Ok(Join(["lib", "osx", "x86_64", "libfdb_c.dylib"]))
  {
    assert GetArch(Some("amd64")) == Ok(X86_64);
    assert Osx.Token() == "osx";
    assert X86_64.Token() == "x86_64";
    assert MapLibraryName(Osx, CLIENT_LIBRARY_NAME) == "libfdb_c.dylib";
    assert ResourceElements(Osx, X86_64, CLIENT_LIBRARY_NAME) == ["lib", "osx", "x86_64", "libfdb_c.dylib"];
  }

  /**
   * What `install()` publishes: the string form of the staged path, or the
   * exception that stops it. A fresh installer has nothing staged.
   */
  function Published(family: OsFamily, archProperty: Option<string>, resources: map<string, Bytes>, tempDir: Path): (r: Result<string, Exception>)
    ensures var name := ResourceName(family, archProperty, CLIENT_LIBRARY_NAME);
            && (name.Err? ==> r == Err(name.error))
            && (name.Ok? && name.value !in resources ==> r == Err(NullPointerException(CANNOT_FIND_RESOURCE)))
            && (r.Ok? ==> name.Ok? && name.value in resources)
  {
    match ResourceName(family, archProperty, CLIENT_LIBRARY_NAME)
    case Err(e) => Err(e)
    case Ok(name) =>
      match Stage(resources, tempDir, map[], name).result
      case Err(e) => Err(e)
      case Ok(path) => Ok(Render(path))
  }

  /**
   * The published value is the absolute path of a file directly in the staging
   * directory whose name is the platform's library file; the property is
   * published exactly when the platform resolves and the bundle holds the
   * resource, and otherwise the resolution error or "Cannot find resource" is
   * what is thrown.
   */
  lemma PublishedPath(family: OsFamily, archProperty: Option<string>, resources: map<string, Bytes>, tempDir: Path)
    requires AllElements(tempDir)
    ensures var name := ResourceName(family, archProperty, CLIENT_LIBRARY_NAME);
            && (name.Err? ==> Published(family, archProperty, resources, tempDir) == Err(name.error))
            && (name.Ok? && name.value !in resources ==>
                  Published(family, archProperty, resources, tempDir) == Err(NullPointerException(CANNOT_FIND_RESOURCE)))
            && (Published(family, archProperty, resources, tempDir).Ok? <==> name.Ok? && name.value in resources)
    ensures Published(family, archProperty, resources, tempDir).Ok? ==>
              var library := MapLibraryName(GetOs(family).value, CLIENT_LIBRARY_NAME);
              && Elements(Published(family, archProperty, resources, tempDir).value) == tempDir + [library]
              && FileName(Published(family, archProperty, resources, tempDir).value) == Some(library)
  {
    ResourceNameElements(family, archProperty, CLIENT_LIBRARY_NAME);
    var name := ResourceName(family, archProperty, CLIENT_LIBRARY_NAME);
    if name.Ok? {
      var os, arch := GetOs(family).value, GetArch(archProperty).value;
      var library := MapLibraryName(os, CLIENT_LIBRARY_NAME);
      var p := ResourceElements(os, arch, CLIENT_LIBRARY_NAME);
      assert FileName(name.value) == Some(library);
      if name.value in resources {
        var staged := tempDir + [library];
        assert AllElements(staged) by {
          assert '/' !in "lib" + CLIENT_LIBRARY_NAME + ".so" && '/' !in "lib" + CLIENT_LIBRARY_NAME + ".dylib";
        }
        FileNameOfRender(staged);
        ElementsOfRender(staged);
      }
    }
  }

  /** The JVM's system properties. */
  class SystemProperties {
    var values: map<string, string>

    constructor (initial: map<string, string>)
      ensures values == initial
    {
      values := initial;
    }

    /** `System.setProperty(key, value)`. */
    method SetProperty(key: string, value: string)
      modifies this
      ensures values == old(values)[key := value]
    {
      values := values[key := value];
    }
  }

  /**
   * `install()`, run once at startup. The installer, and with it the staging
   * directory, is created before the platform is resolved; the property changes
   * only when every step succeeds.
   */
  method Install(family: OsFamily, archProperty: Option<string>, resources: map<string, Bytes>,
                 tempRoot: Path, unique: string, system: SystemProperties)
      returns (installer: NativeLibraryInstaller, r: Result<string, Exception>)
    modifies system
    ensures fresh(installer) && installer.Valid()
    ensures installer.tempDir == tempRoot + [TEMP_DIR_PREFIX + unique] && installer.resources == resources
    ensures r == Published(family, archProperty, resources, installer.tempDir)
    ensures r.Ok? ==> system.values == old(system.values)[CLIENT_PROPERTY_NAME := r.value]
    ensures r.Err? ==> system.values == old(system.values)
    ensures ResourceName(family, archProperty, CLIENT_LIBRARY_NAME).Err? ==> installer.staged == map[]
    ensures ResourceName(family, archProperty, CLIENT_LIBRARY_NAME).Ok? ==>
              installer.staged == Stage(resources, installer.tempDir, map[], ResourceName(family, archProperty, CLIENT_LIBRARY_NAME).value).staged
  {
    installer := new NativeLibraryInstaller(TEMP_DIR_PREFIX, tempRoot, unique, resources);
    var resourceName := ResourceName(family, archProperty, CLIENT_LIBRARY_NAME);
    if resourceName.Err? {
      r := Err(resourceName.error);
      return;
    }
    var installed := installer.Install(resourceName.value);
    if installed.Err? {
      r := Err(installed.error);
      return;
    }
    r := Ok(Render(installed.value));
    system.SetProperty(CLIENT_PROPERTY_NAME, r.value);
  }
}
