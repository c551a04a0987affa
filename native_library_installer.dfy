/**
 * `NativeLibraryInstaller`: copies a bundled resource into the one staging
 * directory the installer created, under the resource's file name, and registers
 * the copy for deletion when the process exits.
 */
module NativeLibraries {
  import opened Wrappers
  import opened Files

  const CANNOT_FIND_RESOURCE: string := "Cannot find resource"

  /** The outcome of one `install(resourceName)` call: what it returns or throws, and the staged files after it. */
  datatype Installation = Installation(result: Result<Path, Exception>, staged: map<Path, Bytes>)

  /**
   * One `install(resourceName)` against the bundled `resources`, staging into
   * `tempDir`, which holds `staged` before the call.
   */
  function Stage(resources: map<string, Bytes>, tempDir: Path, staged: map<Path, Bytes>, resourceName: string): (r: Installation)
    ensures resourceName !in resources ==>
              r == Installation(Err(NullPointerException(CANNOT_FIND_RESOURCE)), staged)
    ensures r.result.Ok? <==> resourceName in resources && FileName(resourceName).Some?
    ensures r.result.Ok? ==> r.result.value == tempDir + [FileName(resourceName).value]
    ensures r.result.Ok? ==> r.staged == staged[r.result.value := resources[resourceName]]
    ensures r.result.Err? ==> r.staged == staged
  {
    if resourceName !in resources then
      Installation(Err(NullPointerException(CANNOT_FIND_RESOURCE)), staged)
    else
      match FileName(resourceName)
      case None =>
        // `tempDir.resolve(null)` throws before anything is copied
        Installation(Err(NullPointerException("")), staged)
      case Some(name) =>
        var target := tempDir + [name];
        Installation(Ok(target), staged[target := resources[resourceName]])
  }

  /** A missing resource fails before anything is written to the staging directory. */
  lemma MissingResourceWritesNothing(resources: map<string, Bytes>, tempDir: Path, staged: map<Path, Bytes>, resourceName: string)
    requires resourceName !in resources
    ensures Stage(resources, tempDir, staged, resourceName).result == Err(NullPointerException(CANNOT_FIND_RESOURCE))
    ensures Stage(resources, tempDir, staged, resourceName).staged == staged
  {
  }

  /** A successful install touches only the file it returns; every other staged file is unchanged. */
  lemma StageFrame(resources: map<string, Bytes>, tempDir: Path, staged: map<Path, Bytes>, resourceName: string, q: Path)
    requires Stage(resources, tempDir, staged, resourceName).result.Ok?
    requires q != Stage(resources, tempDir, staged, resourceName).result.value
    ensures var after := Stage(resources, tempDir, staged, resourceName).staged;
            (q in after <==> q in staged) && (q in staged ==> after[q] == staged[q])
  {
  }

  /** Installing the same resource again returns the same path and leaves the same staged files. */
  lemma StageTwice(resources: map<string, Bytes>, tempDir: Path, staged: map<Path, Bytes>, resourceName: string)
    ensures var first := Stage(resources, tempDir, staged, resourceName);
            var second := Stage(resources, tempDir, first.staged, resourceName);
            second.result == first.result && second.staged == first.staged
  {
    var first := Stage(resources, tempDir, staged, resourceName);
    if first.result.Ok? {
      var p := first.result.value;
      assert first.staged[p := resources[resourceName]] == first.staged;
    }
  }

  /**
   * Two resources with the same file name, from different directories, are
   * staged to the same file: the second install overwrites the first.
   */
  lemma SameFileNameCollides(resources: map<string, Bytes>, tempDir: Path, staged: map<Path, Bytes>, a: string, b: string)
    requires a in resources && b in resources
    requires FileName(a).Some? && FileName(a) == FileName(b)
    ensures var first := Stage(resources, tempDir, staged, a);
            var second := Stage(resources, tempDir, first.staged, b);
            second.result == first.result &&
            second.staged == staged[first.result.value := resources[b]]
  {
    var first := Stage(resources, tempDir, staged, a);
    var p := first.result.value;
    assert staged[p := resources[a]][p := resources[b]] == staged[p := resources[b]];
  }

  /**
   * The installer. `tempDir` is fixed when it is created; `staged` is the
   * content of that directory; `deleteOnExit` is the set of paths registered with
   * `File.deleteOnExit`.
   */
  class NativeLibraryInstaller {
    const tempDir: Path
    /** The resources the class loader can find, by name. */
    const resources: map<string, Bytes>
    var staged: map<Path, Bytes>
    ghost var deleteOnExit: set<Path>

    /** Staged files lie directly in `tempDir`, and each of them is registered for deletion. */
    ghost predicate Valid()
      reads this
    {
      && (forall p :: p in staged ==> |p| == |tempDir| + 1 && p[..|tempDir|] == tempDir)
      && deleteOnExit == staged.Keys
    }

    /**
     * `new NativeLibraryInstaller(prefix)`: `Files.createTempDirectory(prefix)`
     * creates the directory `prefix + unique` inside `tempRoot`; the choice of
     * `unique` is the platform's and is an input here.
     */
    constructor (prefix: string, tempRoot: Path, unique: string, resources: map<string, Bytes>)
      ensures Valid()
      ensures tempDir == tempRoot + [prefix + unique]
      ensures this.resources == resources
      ensures staged == map[] && deleteOnExit == {}
    {
      tempDir := tempRoot + [prefix + unique];
      this.resources := resources;
      staged := map[];
      deleteOnExit := {};
    }

    /** `install(resourceName)`. */
    method Install(resourceName: string) returns (r: Result<Path, Exception>)
      requires Valid()
      modifies this
      ensures Valid()
      ensures Installation(r, staged) == Stage(resources, tempDir, old(staged), resourceName)
      ensures r.Ok? ==> deleteOnExit == old(deleteOnExit) + {r.value}
      ensures r.Err? ==> deleteOnExit == old(deleteOnExit)
    {
      if resourceName !in resources {
        r := Err(NullPointerException(CANNOT_FIND_RESOURCE));
        return;
      }
      var name := FileName(resourceName);
      if name.None? {
        r := Err(NullPointerException(""));
        return;
      }
      var outputPath := tempDir + [name.value];
      staged := staged[outputPath := resources[resourceName]];
      deleteOnExit := deleteOnExit + {outputPath};
      r := Ok(outputPath);
    }
  }

  /** Two installs of one resource return the same path, and the staged file holds the resource's bytes. */
  method InstallTwice(installer: NativeLibraryInstaller, resourceName: string)
      returns (first: Result<Path, Exception>, second: Result<Path, Exception>)
    requires installer.Valid()
    requires resourceName in installer.resources && FileName(resourceName).Some?
    modifies installer
    ensures installer.Valid()
    ensures first.Ok? && second == first
    ensures first.value in installer.staged && installer.staged[first.value] == installer.resources[resourceName]
    ensures installer.deleteOnExit == old(installer.deleteOnExit) + {first.value}
  {
    first := installer.Install(resourceName);
    second := installer.Install(resourceName);
  }
}
