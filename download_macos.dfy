/**
 * `DownloadMacOsClientTask`: for each architecture in order, download the
 * release's `FoundationDB-<version>_<arch>.pkg` into `<output>/<arch>/download`,
 * unpack it with `xar` and the clients payload with `tar`, copy
 * `usr/local/lib/libfdb_c.dylib` to `<output>/<arch>/libfdb_c.dylib`, and remove
 * the download directory with `rm -rf`.
 */
module MacOsDownload {
  import opened Wrappers
  import opened Files
  import opened DownloadBase

  const UNKNOWN_ARCH: string := "Unknown arch"
  const DOWNLOAD_DIR: string := "download"
  const PACKAGE_FILE: string := "FoundationDB.pkg"
  const CLIENTS_PACKAGE: string := "FoundationDB-clients.pkg"
  const LIBRARY_FILE: string := "libfdb_c.dylib"
  /** Where the library lies inside the clients payload. */
  const PAYLOAD_LIBRARY: Path := ["usr", "local", "lib", "libfdb_c.dylib"]

  /** The architecture's name in the package file names: the release calls aarch64 `arm64`. */
  function MappedArch(arch: string): (r: Result<string, FetchError>)
    ensures r == Ok("x86_64") <==> arch == "x86_64"
    ensures r == Ok("arm64") <==> arch == "aarch64"
    ensures r.Err? <==> arch != "x86_64" && arch != "aarch64"
    ensures r.Err? ==> r.error == UnknownArch(UNKNOWN_ARCH)
  {
    if arch == "x86_64" then Ok("x86_64")
    else if arch == "aarch64" then Ok("arm64")
    else Err(UnknownArch(UNKNOWN_ARCH))
  }

  /** `getUrl(arch)`. */
  function MacUrl(version: string, arch: string): (r: Result<string, FetchError>)
    ensures r.Err? <==> MappedArch(arch).Err?
    ensures r.Err? ==> r.error == UnknownArch(UNKNOWN_ARCH)
    ensures r.Ok? ==> |r.value| > |BASE_URL| && r.value[..|BASE_URL| + 1] == BASE_URL + "/"
    ensures r.Ok? ==> r.value[|r.value| - 4..] == ".pkg"
  {
    match MappedArch(arch)
    case Err(e) => Err(e)
    case Ok(mapped) => Ok(BASE_URL + "/" + version + "/FoundationDB-" + version + "_" + mapped + ".pkg")
  }

  /** The package of a release for each supported architecture: `aarch64` is published as `arm64`. */
  lemma MacUrlOfArchitectures(version: string)
    ensures MacUrl(version, "x86_64") == Ok(BASE_URL + "/" + version + "/FoundationDB-" + version + "_x86_64.pkg")
    ensures MacUrl(version, "aarch64") == Ok(BASE_URL + "/" + version + "/FoundationDB-" + version + "_arm64.pkg")
  {
    var stem := BASE_URL + "/" + version + "/FoundationDB-" + version;
    assert stem + "_" + "x86_64" + ".pkg" == stem + "_x86_64.pkg";
    assert stem + "_" + "arm64" + ".pkg" == stem + "_arm64.pkg";
  }

  function DownloadPath(output: Path, arch: string): Path
  {
    TargetPath(output, arch) + [DOWNLOAD_DIR]
  }

  function PackagePath(output: Path, arch: string): Path
  {
    DownloadPath(output, arch) + [PACKAGE_FILE]
  }

  function ClientsPath(output: Path, arch: string): Path
  {
    DownloadPath(output, arch) + [CLIENTS_PACKAGE]
  }

  /** The library inside the unpacked payload, the source of `copy(arch)`. */
  function SourcePath(output: Path, arch: string): Path
  {
    ClientsPath(output, arch) + PAYLOAD_LIBRARY
  }

  /** Where `copy(arch)` puts the library. */
  function LibraryPath(output: Path, arch: string): Path
  {
    TargetPath(output, arch) + [LIBRARY_FILE]
  }

  const XAR_LINE: seq<string> := ["xar", "-xf", PACKAGE_FILE]
  const TAR_LINE: seq<string> := ["tar", "-xzf", "Payload", "-C", "."]

  function XarCommand(output: Path, arch: string): Effect
  {
    Exec(DownloadPath(output, arch), XAR_LINE)
  }

  function TarCommand(output: Path, arch: string): Effect
  {
    Exec(ClientsPath(output, arch), TAR_LINE)
  }

  function RmCommand(output: Path, arch: string): Effect
  {
    Exec(TargetPath(output, arch), ["rm", "-rf", Render(DownloadPath(output, arch))])
  }

  /** `getDownloadPath(arch)`: creates the target directory and then `download` in it. */
  function GetDownloadPath(output: Path, arch: string, fs: FileSystem): (r: (Path, FileSystem))
    ensures r.0 == DownloadPath(output, arch)
    ensures r.1.files == fs.files
    ensures forall d :: d in r.1.dirs <==> d in fs.dirs || (d != [] && IsUnder(DownloadPath(output, arch), d))
  {
    var (target, fs1) := GetTargetPath(output, arch, fs);
    var download := target + [DOWNLOAD_DIR];
    (download, CreateDirectories(fs1, download))
  }

  /**
   * `download(arch)`: the URL is built first, so an unknown architecture fails
   * before anything is opened; the stream is opened before the download
   * directory is created, and the package replaces any earlier one.
   */
  function DownloadPackage(host: Host, version: string, output: Path, arch: string, w: World): (r: Run)
    ensures MacUrl(version, arch).Err? ==> r == Run(w, Some(UnknownArch(UNKNOWN_ARCH)))
    ensures MacUrl(version, arch).Ok? ==> r.world.log == w.log + [Open(MacUrl(version, arch).value)]
    ensures r.error.None? <==> MacUrl(version, arch).Ok? && MacUrl(version, arch).value in host.network
    ensures MacUrl(version, arch).Ok? && r.error.Some? ==> r.error.value == DownloadFailed(MacUrl(version, arch).value)
    ensures r.error.Some? ==> r.world.fs == w.fs
    ensures r.error.None? ==>
              && PackagePath(output, arch) in r.world.fs.files
              && r.world.fs.files[PackagePath(output, arch)] == host.network[MacUrl(version, arch).value]
    ensures forall d :: d in r.world.fs.dirs <==>
              d in w.fs.dirs || (r.error.None? && d != [] && IsUnder(DownloadPath(output, arch), d))
    ensures forall q :: q != PackagePath(output, arch) ==>
              (q in r.world.fs.files <==> q in w.fs.files) &&
              (q in w.fs.files ==> r.world.fs.files[q] == w.fs.files[q])
  {
    match MacUrl(version, arch)
    case Err(e) => Run(w, Some(e))
    case Ok(url) =>
      var w1 := Record(w, Open(url));
      if url !in host.network then
        Run(w1, Some(DownloadFailed(url)))
      else
        var (download, fs) := GetDownloadPath(output, arch, w1.fs);
        Run(w1.(fs := Write(fs, download + [PACKAGE_FILE], host.network[url])), None)
  }

  /** `exec` of an extraction tool; what a successful run creates is placed below its working directory. */
  function Unpack(host: Host, command: Effect, w: World): (r: Run)
    requires command.Exec?
    ensures r.world.log == w.log + [command]
    ensures r.error.None? <==> command.dir in w.fs.dirs && command !in host.failing
    ensures r.error.Some? ==> r.error.value == ExecFailed(command.dir, command.commandLine) && r.world.fs == w.fs
    ensures r.error.None? && command !in host.unpacked ==> r.world.fs == w.fs
    ensures r.error.None? && command in host.unpacked ==>
              r.world.fs == Merge(w.fs, command.dir, host.unpacked[command])
  {
    var r := Execute(host, command.dir, command.commandLine, w);
    if r.error.Some? || command !in host.unpacked then r
    else r.(world := r.world.(fs := Merge(r.world.fs, command.dir, host.unpacked[command])))
  }

  /** Whether the clients package directory exists once `xar` has run successfully on `fs`. */
  predicate ClientsDirAfterXar(host: Host, output: Path, arch: string, fs: FileSystem)
  {
    || ClientsPath(output, arch) in fs.dirs
    || (XarCommand(output, arch) in host.unpacked && [CLIENTS_PACKAGE] in host.unpacked[XarCommand(output, arch)].dirs)
  }

  /**
   * The bytes at the payload library after both tools have run on `fs`: what
   * `tar` unpacked there, else what `xar` did, else what was there before.
   */
  function ExtractedLibrary(host: Host, output: Path, arch: string, fs: FileSystem): Option<Bytes>
  {
    var tar := TarCommand(output, arch);
    var xar := XarCommand(output, arch);
    if tar in host.unpacked && PAYLOAD_LIBRARY in host.unpacked[tar].files then
      Some(host.unpacked[tar].files[PAYLOAD_LIBRARY])
    else if xar in host.unpacked && [CLIENTS_PACKAGE] + PAYLOAD_LIBRARY in host.unpacked[xar].files then
      Some(host.unpacked[xar].files[[CLIENTS_PACKAGE] + PAYLOAD_LIBRARY])
    else if SourcePath(output, arch) in fs.files then
      Some(fs.files[SourcePath(output, arch)])
    else
      None
  }

  /** `extract(arch)`: `xar` in the download directory, then `tar` in the clients package directory. */
  function Extract(host: Host, output: Path, arch: string, w: World): (r: Run)
    ensures XarCommand(output, arch) in host.failing ==>
              r.error == Some(ExecFailed(DownloadPath(output, arch), XarCommand(output, arch).commandLine)) &&
              r.world.log == w.log + [XarCommand(output, arch)]
    ensures XarCommand(output, arch) !in host.failing ==>
              r.world.log == w.log + [XarCommand(output, arch), TarCommand(output, arch)]
    ensures r.error.None? <==>
              && XarCommand(output, arch) !in host.failing
              && TarCommand(output, arch) !in host.failing
              && ClientsDirAfterXar(host, output, arch, w.fs)
    ensures r.error.Some? ==>
              r.error.value in {ExecFailed(DownloadPath(output, arch), XarCommand(output, arch).commandLine),
                                ExecFailed(ClientsPath(output, arch), TarCommand(output, arch).commandLine)}
    ensures DownloadPath(output, arch) in r.world.fs.dirs
    ensures forall d :: d in w.fs.dirs ==> d in r.world.fs.dirs
    ensures forall d :: !IsUnder(d, DownloadPath(output, arch)) ==>
              (d in r.world.fs.dirs <==> d in w.fs.dirs || (d != [] && IsUnder(DownloadPath(output, arch), d)))
    ensures forall q :: !IsUnder(q, DownloadPath(output, arch)) ==>
              (q in r.world.fs.files <==> q in w.fs.files) &&
              (q in w.fs.files ==> r.world.fs.files[q] == w.fs.files[q])
    ensures r.error.None? ==>
              (SourcePath(output, arch) in r.world.fs.files <==> ExtractedLibrary(host, output, arch, w.fs).Some?) &&
              (SourcePath(output, arch) in r.world.fs.files ==>
                 r.world.fs.files[SourcePath(output, arch)] == ExtractedLibrary(host, output, arch, w.fs).value)
  {
    var (download, fs) := GetDownloadPath(output, arch, w.fs);
    var xar := XarCommand(output, arch);
    var tar := TarCommand(output, arch);
    var x := Unpack(host, xar, w.(fs := fs));
    XarStep(host, output, arch, w.fs, w.(fs := fs));
    if x.error.Some? then x
    else
      TarStep(host, output, arch, w.fs, x.world);
      Unpack(host, tar, x.world)
  }

  /** `p` below `dir`, which is below `base`, is below `base`. */
  lemma UnderTransitive(p: Path, dir: Path, base: Path)
    requires IsUnder(p, dir) && IsUnder(dir, base)
    ensures IsUnder(p, base)
  {
    assert p[..|base|] == p[..|dir|][..|base|];
  }

  /** What an extraction tool unpacks below `dir` leaves everything outside `base` alone. */
  lemma MergeOutside(fs: FileSystem, dir: Path, tree: FileSystem, base: Path)
    requires IsUnder(dir, base)
    ensures var r := Merge(fs, dir, tree);
            && (forall d :: !IsUnder(d, base) ==> (d in r.dirs <==> d in fs.dirs))
            && (forall q :: !IsUnder(q, base) ==>
                  (q in r.files <==> q in fs.files) && (q in fs.files ==> r.files[q] == fs.files[q]))
  {
    forall p | IsUnder(p, dir) ensures IsUnder(p, base) {
      UnderTransitive(p, dir, base);
    }
  }

  /** The `xar` step of `extract`, on the filesystem `w` that `getDownloadPath` left from `fs0`. */
  lemma XarStep(host: Host, output: Path, arch: string, fs0: FileSystem, w: World)
    requires forall d :: d in w.fs.dirs <==> d in fs0.dirs || (d != [] && IsUnder(DownloadPath(output, arch), d))
    requires w.fs.files == fs0.files
    ensures var x := Unpack(host, XarCommand(output, arch), w);
            && (x.error.None? <==> XarCommand(output, arch) !in host.failing)
            && DownloadPath(output, arch) in x.world.fs.dirs
            && (forall d :: d in w.fs.dirs ==> d in x.world.fs.dirs)
            && (forall d :: !IsUnder(d, DownloadPath(output, arch)) ==> (d in x.world.fs.dirs <==> d in w.fs.dirs))
            && (forall q :: !IsUnder(q, DownloadPath(output, arch)) ==>
                  (q in x.world.fs.files <==> q in w.fs.files) &&
                  (q in w.fs.files ==> x.world.fs.files[q] == w.fs.files[q]))
            && (x.error.None? ==> (ClientsPath(output, arch) in x.world.fs.dirs <==> ClientsDirAfterXar(host, output, arch, fs0)))
            && (x.error.None? ==> (SourcePath(output, arch) in x.world.fs.files <==>
                  || (XarCommand(output, arch) in host.unpacked &&
                      [CLIENTS_PACKAGE] + PAYLOAD_LIBRARY in host.unpacked[XarCommand(output, arch)].files)
                  || SourcePath(output, arch) in fs0.files))
            && (x.error.None? && SourcePath(output, arch) in x.world.fs.files ==>
                  x.world.fs.files[SourcePath(output, arch)] ==
                    if XarCommand(output, arch) in host.unpacked &&
                       [CLIENTS_PACKAGE] + PAYLOAD_LIBRARY in host.unpacked[XarCommand(output, arch)].files
                    then host.unpacked[XarCommand(output, arch)].files[[CLIENTS_PACKAGE] + PAYLOAD_LIBRARY]
                    else fs0.files[SourcePath(output, arch)])
  {
    var download := DownloadPath(output, arch);
    var xar := XarCommand(output, arch);
    assert download in w.fs.dirs;
    assert IsUnder(download, download);
    assert ClientsPath(output, arch) in w.fs.dirs <==> ClientsPath(output, arch) in fs0.dirs;
    assert ClientsPath(output, arch)[|download|..] == [CLIENTS_PACKAGE];
    assert SourcePath(output, arch)[|download|..] == [CLIENTS_PACKAGE] + PAYLOAD_LIBRARY;
    if xar in host.unpacked {
      MergeOutside(w.fs, download, host.unpacked[xar], download);
    }
  }

  /** The `tar` step of `extract`, on the filesystem `w` that a successful `xar` left. */
  lemma TarStep(host: Host, output: Path, arch: string, fs0: FileSystem, w: World)
    requires (ClientsPath(output, arch) in w.fs.dirs <==> ClientsDirAfterXar(host, output, arch, fs0))
    requires SourcePath(output, arch) in w.fs.files <==>
               || (XarCommand(output, arch) in host.unpacked &&
                   [CLIENTS_PACKAGE] + PAYLOAD_LIBRARY in host.unpacked[XarCommand(output, arch)].files)
               || SourcePath(output, arch) in fs0.files
    requires SourcePath(output, arch) in w.fs.files ==>
               w.fs.files[SourcePath(output, arch)] ==
                 if XarCommand(output, arch) in host.unpacked &&
                    [CLIENTS_PACKAGE] + PAYLOAD_LIBRARY in host.unpacked[XarCommand(output, arch)].files
                 then host.unpacked[XarCommand(output, arch)].files[[CLIENTS_PACKAGE] + PAYLOAD_LIBRARY]
                 else fs0.files[SourcePath(output, arch)]
    ensures var t := Unpack(host, TarCommand(output, arch), w);
            && (t.error.None? <==> ClientsDirAfterXar(host, output, arch, fs0) && TarCommand(output, arch) !in host.failing)
            && (forall d :: d in w.fs.dirs ==> d in t.world.fs.dirs)
            && (forall d :: !IsUnder(d, DownloadPath(output, arch)) ==> (d in t.world.fs.dirs <==> d in w.fs.dirs))
            && (forall q :: !IsUnder(q, DownloadPath(output, arch)) ==>
                  (q in t.world.fs.files <==> q in w.fs.files) &&
                  (q in w.fs.files ==> t.world.fs.files[q] == w.fs.files[q]))
            && (t.error.None? ==>
                  (SourcePath(output, arch) in t.world.fs.files <==> ExtractedLibrary(host, output, arch, fs0).Some?) &&
                  (SourcePath(output, arch) in t.world.fs.files ==>
                     t.world.fs.files[SourcePath(output, arch)] == ExtractedLibrary(host, output, arch, fs0).value))
  {
    var clients := ClientsPath(output, arch);
    var tar := TarCommand(output, arch);
    assert SourcePath(output, arch)[|clients|..] == PAYLOAD_LIBRARY;
    assert IsUnder(clients, DownloadPath(output, arch));
    if tar in host.unpacked {
      MergeOutside(w.fs, clients, host.unpacked[tar], DownloadPath(output, arch));
    }
  }

  /** `copy(arch)`: a missing payload library makes `Files.copy` throw. */
  function Copy(output: Path, arch: string, w: World): (r: Run)
    ensures r.world.log == w.log
    ensures r.error.None? <==> SourcePath(output, arch) in w.fs.files
    ensures r.error.Some? ==> r.error.value == NoSuchFile(SourcePath(output, arch))
    ensures r.error.None? ==>
              LibraryPath(output, arch) in r.world.fs.files &&
              r.world.fs.files[LibraryPath(output, arch)] == w.fs.files[SourcePath(output, arch)]
    ensures forall d :: d in r.world.fs.dirs <==> d in w.fs.dirs || (d != [] && IsUnder(DownloadPath(output, arch), d))
    ensures forall q :: q != LibraryPath(output, arch) ==>
              (q in r.world.fs.files <==> q in w.fs.files) &&
              (q in w.fs.files ==> r.world.fs.files[q] == w.fs.files[q])
  {
    var (target, fs1) := GetTargetPath(output, arch, w.fs);
    var (download, fs2) := GetDownloadPath(output, arch, fs1);
    var source := download + [CLIENTS_PACKAGE] + PAYLOAD_LIBRARY;
    if source !in fs2.files then
      Run(w.(fs := fs2), Some(NoSuchFile(source)))
    else
      Run(w.(fs := Write(fs2, target + [LIBRARY_FILE], fs2.files[source])), None)
  }

  /**
   * `clean(arch)`: `rm -rf <download>` run in the target directory; a failing
   * `rm` leaves the download directory, which `getDownloadPath` has just
   * recreated, in place.
   */
  function Clean(host: Host, output: Path, arch: string, w: World): (r: Run)
    ensures r.world.log == w.log + [RmCommand(output, arch)]
    ensures r.error.None? <==> RmCommand(output, arch) !in host.failing
    ensures r.error.Some? ==>
              r.error.value == ExecFailed(TargetPath(output, arch), RmCommand(output, arch).commandLine) &&
              DownloadPath(output, arch) in r.world.fs.dirs
    ensures forall d :: !IsUnder(d, DownloadPath(output, arch)) ==>
              (d in r.world.fs.dirs <==> d in w.fs.dirs || (d != [] && IsUnder(DownloadPath(output, arch), d)))
    ensures r.error.None? ==> forall d :: d in r.world.fs.dirs ==> !IsUnder(d, DownloadPath(output, arch))
    ensures r.error.None? ==> forall q :: q in r.world.fs.files <==> q in w.fs.files && !IsUnder(q, DownloadPath(output, arch))
    ensures r.error.Some? ==> r.world.fs.files == w.fs.files
    ensures forall q :: q in r.world.fs.files ==> q in w.fs.files && r.world.fs.files[q] == w.fs.files[q]
  {
    var (target, fs1) := GetTargetPath(output, arch, w.fs);
    var (download, fs2) := GetDownloadPath(output, arch, fs1);
    var r := Execute(host, target, ["rm", "-rf", Render(download)], w.(fs := fs2));
    if r.error.Some? then r else r.(world := r.world.(fs := RemoveTree(r.world.fs, download)))
  }

  /** One iteration of `download()`'s loop body; the first exception ends it. */
  function FetchArch(host: Host, version: string, output: Path, arch: string, w: World): (r: Run)
    ensures MacUrl(version, arch).Err? ==> r == Run(w, Some(UnknownArch(UNKNOWN_ARCH)))
    ensures w.log <= r.world.log
  {
    var d := DownloadPackage(host, version, output, arch, w);
    if d.error.Some? then d
    else
      var e := Extract(host, output, arch, d.world);
      if e.error.Some? then e
      else
        var c := Copy(output, arch, e.world);
        if c.error.Some? then c else Clean(host, output, arch, c.world)
  }

  /** `download()` over the architectures `archs`, starting from `w`. */
  function FetchFrom(host: Host, version: string, output: Path, archs: seq<string>, w: World): (r: Run)
    ensures w.log <= r.world.log
    decreases |archs|
  {
    if archs == [] then Run(w, None)
    else
      var r := FetchArch(host, version, output, archs[0], w);
      if r.error.Some? then r else FetchFrom(host, version, output, archs[1..], r.world)
  }

  /** `download()`. */
  method Download(host: Host, version: string, output: Path, w0: World) returns (r: Run)
    ensures r == FetchFrom(host, version, output, ARCHITECTURES, w0)
  {
    var w := w0;
    var i := 0;
    while i < |ARCHITECTURES|
      invariant 0 <= i <= |ARCHITECTURES|
      invariant FetchFrom(host, version, output, ARCHITECTURES[i..], w) == FetchFrom(host, version, output, ARCHITECTURES, w0)
    {
      var arch := ARCHITECTURES[i];
      var d := DownloadPackage(host, version, output, arch, w);
      if d.error.Some? {
        return d;
      }
      var e := Extract(host, output, arch, d.world);
      if e.error.Some? {
        return e;
      }
      var c := Copy(output, arch, e.world);
      if c.error.Some? {
        return c;
      }
      var k := Clean(host, output, arch, c.world);
      if k.error.Some? {
        return k;
      }
      w := k.world;
      i := i + 1;
    }
    r := Run(w, None);
  }

  /** What `download()`'s loop body asks of the outside world for `arch`, in order, when every step succeeds. */
  function Steps(version: string, output: Path, arch: string): seq<Effect>
    requires MappedArch(arch).Ok?
  {
    [Open(MacUrl(version, arch).value), XarCommand(output, arch), TarCommand(output, arch), RmCommand(output, arch)]
  }

  /** How many of the `Steps` were asked for before `error` ended the iteration, told by the failing command. */
  function Progress(error: Option<FetchError>): (p: nat)
    ensures p <= 4
  {
    match error
    case None => 4
    case Some(UnknownArch(_)) => 0
    case Some(DownloadFailed(_)) => 1
    case Some(NoSuchFile(_)) => 3
    case Some(ExecFailed(_, commandLine)) =>
      if commandLine == XAR_LINE then 2 else if commandLine == TAR_LINE then 3 else 4
  }

  /** Whether one iteration for `arch`, started on `fs`, runs to the end. */
  predicate Succeeds(host: Host, version: string, output: Path, arch: string, fs: FileSystem)
  {
    && MacUrl(version, arch).Ok?
    && MacUrl(version, arch).value in host.network
    && XarCommand(output, arch) !in host.failing
    && TarCommand(output, arch) !in host.failing
    && ClientsDirAfterXar(host, output, arch, fs)
    && ExtractedLibrary(host, output, arch, fs).Some?
    && RmCommand(output, arch) !in host.failing
  }

  /** Nothing lies below the download directory of `arch`. */
  predicate NoScratch(fs: FileSystem, output: Path, arch: string)
  {
    && (forall d :: d in fs.dirs ==> !IsUnder(d, DownloadPath(output, arch)))
    && (forall q :: q in fs.files ==> !IsUnder(q, DownloadPath(output, arch)))
  }

  /** An architecture without a package name fails before anything is opened or created. */
  lemma UnknownArchChangesNothing(host: Host, version: string, output: Path, arch: string, w: World)
    requires arch != "x86_64" && arch != "aarch64"
    ensures FetchArch(host, version, output, arch, w) == Run(w, Some(UnknownArch(UNKNOWN_ARCH)))
  {
  }

  /** The directories a download step creates lie on the way to `<output>/<arch>/download`. */
  lemma OnTheWayToDownload(output: Path, arch: string, d: Path)
    requires IsUnder(DownloadPath(output, arch), d)
    ensures d == DownloadPath(output, arch) || IsUnder(TargetPath(output, arch), d)
  {
    if d != DownloadPath(output, arch) {
      assert |d| <= |TargetPath(output, arch)|;
      assert TargetPath(output, arch)[..|d|] == DownloadPath(output, arch)[..|d|];
    }
  }

  /**
   * The iteration for `arch` fails with the first failing step, having asked for
   * exactly the steps before it and that step; which step failed can be told
   * from the exception alone.
   */
  lemma FetchArchLog(host: Host, version: string, output: Path, arch: string, w: World)
    requires MappedArch(arch).Ok?
    ensures var r := FetchArch(host, version, output, arch, w);
            r.world.log == w.log + Steps(version, output, arch)[..Progress(r.error)]
  {
    var d := DownloadPackage(host, version, output, arch, w);
    if d.error.Some? {
      PrefixesOfSteps(Steps(version, output, arch));
    } else if Extract(host, output, arch, d.world).error.Some? {
      ExtractFailureLog(host, version, output, arch, w);
    } else {
      ExtractedLog(host, version, output, arch, w);
    }
  }

  /** An iteration that fails in `extract` has asked for the steps up to the failing tool. */
  lemma ExtractFailureLog(host: Host, version: string, output: Path, arch: string, w: World)
    requires MappedArch(arch).Ok?
    requires DownloadPackage(host, version, output, arch, w).error.None?
    requires Extract(host, output, arch, DownloadPackage(host, version, output, arch, w).world).error.Some?
    ensures var r := FetchArch(host, version, output, arch, w);
            r.world.log == w.log + Steps(version, output, arch)[..Progress(r.error)]
  {
    var steps := Steps(version, output, arch);
    var open, xar, tar := steps[0], steps[1], steps[2];
    var e := Extract(host, output, arch, DownloadPackage(host, version, output, arch, w).world);
    PrefixesOfSteps(steps);
    if xar in host.failing {
      assert e.world.log == w.log + [open] + [xar];
    } else {
      assert e.world.log == w.log + [open] + [xar, tar];
    }
  }

  /** An iteration that gets past `extract` has asked for all the steps but `rm`, and for `rm` once `copy` succeeds. */
  lemma ExtractedLog(host: Host, version: string, output: Path, arch: string, w: World)
    requires MappedArch(arch).Ok?
    requires DownloadPackage(host, version, output, arch, w).error.None?
    requires Extract(host, output, arch, DownloadPackage(host, version, output, arch, w).world).error.None?
    ensures var r := FetchArch(host, version, output, arch, w);
            r.world.log == w.log + Steps(version, output, arch)[..Progress(r.error)]
  {
    var steps := Steps(version, output, arch);
    var open, xar, tar := steps[0], steps[1], steps[2];
    var e := Extract(host, output, arch, DownloadPackage(host, version, output, arch, w).world);
    var c := Copy(output, arch, e.world);
    assert c.world.log == w.log + [open] + [xar, tar];
    PrefixesOfSteps(steps);
    if c.error.None? {
      CleanProgress(host, output, arch, c.world);
      LogOfSteps(w.log, open, xar, tar, steps[3]);
    }
  }

  lemma PrefixesOfSteps(steps: seq<Effect>)
    requires |steps| == 4
    ensures steps[..1] == [steps[0]] && steps[..2] == [steps[0], steps[1]]
    ensures steps[..3] == [steps[0], steps[1], steps[2]] && steps[..4] == steps
  {
  }

  /** `rm` is the last of the steps, whether or not it fails. */
  lemma CleanProgress(host: Host, output: Path, arch: string, w: World)
    ensures Progress(Clean(host, output, arch, w).error) == 4
  {
    assert RmCommand(output, arch).commandLine[0] == "rm";
  }

  /** The iteration for `arch` runs to the end exactly when `Succeeds` holds of the filesystem it starts on. */
  lemma FetchArchSucceeds(host: Host, version: string, output: Path, arch: string, w: World)
    ensures FetchArch(host, version, output, arch, w).error.None? <==> Succeeds(host, version, output, arch, w.fs)
  {
    var d := DownloadPackage(host, version, output, arch, w);
    if d.error.None? {
      assert ClientsPath(output, arch) in d.world.fs.dirs <==> ClientsPath(output, arch) in w.fs.dirs;
      assert SourcePath(output, arch) != PackagePath(output, arch) by {
        assert SourcePath(output, arch)[|DownloadPath(output, arch)|] == CLIENTS_PACKAGE;
      }
      assert ExtractedLibrary(host, output, arch, d.world.fs) == ExtractedLibrary(host, output, arch, w.fs);
    }
  }

  /**
   * A complete iteration leaves the library at `<output>/<arch>/libfdb_c.dylib`
   * holding the extracted payload's bytes, having asked for all of the `Steps`.
   */
  lemma FetchArchSuccess(host: Host, version: string, output: Path, arch: string, w: World)
    requires FetchArch(host, version, output, arch, w).error.None?
    ensures var r := FetchArch(host, version, output, arch, w);
            && MappedArch(arch).Ok?
            && r.world.log == w.log + Steps(version, output, arch)
            && LibraryPath(output, arch) in r.world.fs.files
            && Some(r.world.fs.files[LibraryPath(output, arch)]) == ExtractedLibrary(host, output, arch, w.fs)
  {
    var d := DownloadPackage(host, version, output, arch, w);
    var e := Extract(host, output, arch, d.world);
    var c := Copy(output, arch, e.world);
    var k := Clean(host, output, arch, c.world);
    assert FetchArch(host, version, output, arch, w) == k;
    assert ExtractedLibrary(host, output, arch, d.world.fs) == ExtractedLibrary(host, output, arch, w.fs) by {
      assert SourcePath(output, arch)[|DownloadPath(output, arch)|] == CLIENTS_PACKAGE;
    }
    assert Some(c.world.fs.files[LibraryPath(output, arch)]) == ExtractedLibrary(host, output, arch, w.fs);
    LibraryOutsideDownload(output, arch);
    assert MacUrl(version, arch).Ok? && d.world.log == w.log + [Open(MacUrl(version, arch).value)];
    assert XarCommand(output, arch) !in host.failing;
    assert e.world.log == d.world.log + [XarCommand(output, arch), TarCommand(output, arch)];
    assert k.world.log == e.world.log + [RmCommand(output, arch)];
    LogOfSteps(w.log, Open(MacUrl(version, arch).value), XarCommand(output, arch), TarCommand(output, arch), RmCommand(output, arch));
  }

  lemma LogOfSteps(log: seq<Effect>, open: Effect, xar: Effect, tar: Effect, rm: Effect)
    ensures log + [open] + [xar, tar] + [rm] == log + [open, xar, tar, rm]
  {
  }

  /** The copied library does not lie below the download directory, so `clean` keeps it. */
  lemma LibraryOutsideDownload(output: Path, arch: string)
    ensures !IsUnder(LibraryPath(output, arch), DownloadPath(output, arch))
  {
    assert LibraryPath(output, arch)[|TargetPath(output, arch)|] == LIBRARY_FILE;
    assert DownloadPath(output, arch)[|TargetPath(output, arch)|] == DOWNLOAD_DIR;
  }

  /** A complete iteration leaves nothing below the download directory. */
  lemma FetchArchCleansUp(host: Host, version: string, output: Path, arch: string, w: World)
    requires FetchArch(host, version, output, arch, w).error.None?
    ensures NoScratch(FetchArch(host, version, output, arch, w).world.fs, output, arch)
  {
    var d := DownloadPackage(host, version, output, arch, w);
    var e := Extract(host, output, arch, d.world);
    var c := Copy(output, arch, e.world);
    assert FetchArch(host, version, output, arch, w) == Clean(host, output, arch, c.world);
  }

  /**
   * A failure before the stream is read leaves the filesystem as it was; any
   * later failure leaves the download directory behind, since nothing removes
   * it on the failure path.
   */
  lemma FetchArchFailure(host: Host, version: string, output: Path, arch: string, w: World)
    requires FetchArch(host, version, output, arch, w).error.Some?
    ensures var r := FetchArch(host, version, output, arch, w);
            && (r.error.value.UnknownArch? || r.error.value.DownloadFailed? ==> r.world.fs == w.fs)
            && (r.error.value.ExecFailed? || r.error.value.NoSuchFile? ==> DownloadPath(output, arch) in r.world.fs.dirs)
  {
    var d := DownloadPackage(host, version, output, arch, w);
    if d.error.None? {
      var e := Extract(host, output, arch, d.world);
      if e.error.None? {
        var c := Copy(output, arch, e.world);
        assert IsUnder(DownloadPath(output, arch), DownloadPath(output, arch));
      }
    }
  }

  /** An iteration for `arch` changes no file outside `<output>/<arch>`. */
  lemma FetchArchFilesFrame(host: Host, version: string, output: Path, arch: string, w: World)
    ensures var r := FetchArch(host, version, output, arch, w);
            forall q :: !IsUnder(q, TargetPath(output, arch)) ==>
              (q in r.world.fs.files <==> q in w.fs.files) &&
              (q in w.fs.files ==> r.world.fs.files[q] == w.fs.files[q])
  {
    var target := TargetPath(output, arch);
    var download := DownloadPath(output, arch);
    assert IsUnder(PackagePath(output, arch), download);
    assert IsUnder(LibraryPath(output, arch), target);
    forall q | !IsUnder(q, target) ensures !IsUnder(q, download) {
      if IsUnder(q, download) {
        UnderTransitive(q, download, target);
      }
    }
  }

  /**
   * An iteration for `arch` creates or removes no directory outside
   * `<output>/<arch>` other than that directory's missing ancestors.
   */
  lemma FetchArchDirsFrame(host: Host, version: string, output: Path, arch: string, w: World)
    ensures var r := FetchArch(host, version, output, arch, w);
            forall d :: !IsUnder(d, TargetPath(output, arch)) && !IsUnder(TargetPath(output, arch), d) ==>
              (d in r.world.fs.dirs <==> d in w.fs.dirs)
  {
    var target := TargetPath(output, arch);
    var download := DownloadPath(output, arch);
    forall p | IsUnder(p, download) ensures IsUnder(p, target) {
      UnderTransitive(p, download, target);
    }
    forall d | IsUnder(download, d) && !IsUnder(d, target) ensures IsUnder(target, d) {
      OnTheWayToDownload(output, arch, d);
    }
  }

  /**
   * Running an iteration again after a complete one, from a clean start, runs to
   * the end again and leaves the same library bytes: the task is repeatable.
   */
  lemma FetchArchRepeatable(host: Host, version: string, output: Path, arch: string, w: World)
    requires NoScratch(w.fs, output, arch)
    requires FetchArch(host, version, output, arch, w).error.None?
    ensures var first := FetchArch(host, version, output, arch, w);
            var second := FetchArch(host, version, output, arch, first.world);
            && second.error.None?
            && second.world.log == first.world.log + Steps(version, output, arch)
            && LibraryPath(output, arch) in second.world.fs.files
            && second.world.fs.files[LibraryPath(output, arch)] == first.world.fs.files[LibraryPath(output, arch)]
  {
    var first := FetchArch(host, version, output, arch, w);
    FetchArchSuccess(host, version, output, arch, w);
    FetchArchCleansUp(host, version, output, arch, w);
    FetchArchSucceeds(host, version, output, arch, w);
    var fs0, fs1 := w.fs, first.world.fs;
    assert NoScratch(fs1, output, arch);
    CleanStartOutcome(host, output, arch, fs0);
    CleanStartOutcome(host, output, arch, fs1);
    assert Succeeds(host, version, output, arch, fs1);
    FetchArchSucceeds(host, version, output, arch, first.world);
    FetchArchSuccess(host, version, output, arch, first.world);
  }

  /** From a clean start, whether and what the tools extract depends on the oracles alone. */
  lemma CleanStartOutcome(host: Host, output: Path, arch: string, fs: FileSystem)
    requires NoScratch(fs, output, arch)
    ensures ClientsDirAfterXar(host, output, arch, fs) ==
              (XarCommand(output, arch) in host.unpacked && [CLIENTS_PACKAGE] in host.unpacked[XarCommand(output, arch)].dirs)
    ensures ExtractedLibrary(host, output, arch, fs) == ExtractedLibrary(host, output, arch, EmptyFileSystem)
  {
    assert IsUnder(ClientsPath(output, arch), DownloadPath(output, arch));
    assert IsUnder(SourcePath(output, arch), DownloadPath(output, arch));
  }

  /** Paths below one architecture's directory are neither below the other's nor on the way to it. */
  lemma ArchitecturesApart(output: Path, a: string, b: string, p: Path)
    requires a != b && IsUnder(p, TargetPath(output, a))
    ensures !IsUnder(p, TargetPath(output, b))
    ensures |p| > |TargetPath(output, b)| ==> !IsUnder(TargetPath(output, b), p)
  {
    TargetsDisjoint(output, a, b, p);
  }

  /** `download()`: the first failing iteration ends the task, so nothing is asked for `aarch64` once `x86_64` fails. */
  lemma FirstFailureAborts(host: Host, version: string, output: Path, w: World)
    requires FetchArch(host, version, output, "x86_64", w).error.Some?
    ensures FetchFrom(host, version, output, ARCHITECTURES, w) == FetchArch(host, version, output, "x86_64", w)
  {
    FetchTwice(host, version, output, w);
  }

  /** `download()` completes exactly when both iterations would complete from the starting filesystem. */
  lemma DownloadSucceeds(host: Host, version: string, output: Path, w: World)
    ensures FetchFrom(host, version, output, ARCHITECTURES, w).error.None? <==>
              Succeeds(host, version, output, "x86_64", w.fs) && Succeeds(host, version, output, "aarch64", w.fs)
  {
    var first := FetchArch(host, version, output, "x86_64", w);
    FetchTwice(host, version, output, w);
    FetchArchSucceeds(host, version, output, "x86_64", w);
    if first.error.None? {
      SecondUnaffected(host, version, output, w);
      FetchArchSucceeds(host, version, output, "aarch64", first.world);
    }
  }

  /**
   * A complete `download()` leaves both libraries in place, holding what the
   * tools extracted, having asked for the steps in list order, with no download
   * directory left.
   */
  lemma DownloadBothArchitectures(host: Host, version: string, output: Path, w: World)
    requires FetchFrom(host, version, output, ARCHITECTURES, w).error.None?
    ensures var r := FetchFrom(host, version, output, ARCHITECTURES, w);
            && r.world.log == w.log + Steps(version, output, "x86_64") + Steps(version, output, "aarch64")
            && LibraryPath(output, "x86_64") in r.world.fs.files
            && Some(r.world.fs.files[LibraryPath(output, "x86_64")]) == ExtractedLibrary(host, output, "x86_64", w.fs)
            && LibraryPath(output, "aarch64") in r.world.fs.files
            && Some(r.world.fs.files[LibraryPath(output, "aarch64")]) == ExtractedLibrary(host, output, "aarch64", w.fs)
            && NoScratch(r.world.fs, output, "x86_64")
            && NoScratch(r.world.fs, output, "aarch64")
  {
    var x86, arm := "x86_64", "aarch64";
    var first := FetchArch(host, version, output, x86, w);
    FetchTwice(host, version, output, w);
    var second := FetchArch(host, version, output, arm, first.world);
    assert FetchFrom(host, version, output, ARCHITECTURES, w) == Run(second.world, None);
    FetchArchSuccess(host, version, output, x86, w);
    FetchArchCleansUp(host, version, output, x86, w);
    SecondUnaffected(host, version, output, w);
    FetchArchSuccess(host, version, output, arm, first.world);
    FetchArchCleansUp(host, version, output, arm, first.world);
    FirstKept(host, version, output, first.world);
  }

  /** `download()` over the two architectures, unfolded. */
  lemma FetchTwice(host: Host, version: string, output: Path, w: World)
    ensures var first := FetchArch(host, version, output, "x86_64", w);
            var second := FetchArch(host, version, output, "aarch64", first.world);
            FetchFrom(host, version, output, ARCHITECTURES, w) ==
              if first.error.Some? then first else if second.error.Some? then second else Run(second.world, None)
  {
    assert ARCHITECTURES[1..] == ["aarch64"] && ["aarch64"][1..] == [];
  }

  /** The `x86_64` iteration leaves what the `aarch64` one depends on as it was. */
  lemma SecondUnaffected(host: Host, version: string, output: Path, w: World)
    ensures var first := FetchArch(host, version, output, "x86_64", w);
            && Succeeds(host, version, output, "aarch64", first.world.fs) == Succeeds(host, version, output, "aarch64", w.fs)
            && ExtractedLibrary(host, output, "aarch64", first.world.fs) == ExtractedLibrary(host, output, "aarch64", w.fs)
  {
    FetchArchFilesFrame(host, version, output, "x86_64", w);
    FetchArchDirsFrame(host, version, output, "x86_64", w);
    ArchitecturesApart(output, "aarch64", "x86_64", ClientsPath(output, "aarch64"));
    ArchitecturesApart(output, "aarch64", "x86_64", SourcePath(output, "aarch64"));
  }

  /** The `aarch64` iteration keeps the `x86_64` library and adds nothing below the `x86_64` download directory. */
  lemma FirstKept(host: Host, version: string, output: Path, w: World)
    requires LibraryPath(output, "x86_64") in w.fs.files
    requires NoScratch(w.fs, output, "x86_64")
    ensures var r := FetchArch(host, version, output, "aarch64", w);
            && LibraryPath(output, "x86_64") in r.world.fs.files
            && r.world.fs.files[LibraryPath(output, "x86_64")] == w.fs.files[LibraryPath(output, "x86_64")]
            && NoScratch(r.world.fs, output, "x86_64")
  {
    var x86, arm := "x86_64", "aarch64";
    var r := FetchArch(host, version, output, arm, w);
    FetchArchFilesFrame(host, version, output, arm, w);
    FetchArchDirsFrame(host, version, output, arm, w);
    ArchitecturesApart(output, x86, arm, LibraryPath(output, x86));
    forall d | d in r.world.fs.dirs ensures !IsUnder(d, DownloadPath(output, x86)) {
      if IsUnder(d, DownloadPath(output, x86)) {
        UnderTransitive(d, DownloadPath(output, x86), TargetPath(output, x86));
        ArchitecturesApart(output, x86, arm, d);
      }
    }
    forall q | q in r.world.fs.files ensures !IsUnder(q, DownloadPath(output, x86)) {
      if IsUnder(q, DownloadPath(output, x86)) {
        UnderTransitive(q, DownloadPath(output, x86), TargetPath(output, x86));
        ArchitecturesApart(output, x86, arm, q);
      }
    }
  }
}
