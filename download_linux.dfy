/**
 * `DownloadLinuxClientTask`: for each architecture in order, stream the release's
 * `libfdb_c.<arch>.so` into `<output>/<arch>/libfdb_c.so`.
 */
module LinuxDownload {
  import opened Wrappers
  import opened Files
  import opened DownloadBase

  const LIBRARY_FILE: string := "libfdb_c.so"

  /** `getUrl(arch)`: the canonical token goes into the URL unmapped. */
  function LinuxUrl(version: string, arch: string): (url: string)
    ensures |url| > |BASE_URL| && url[..|BASE_URL| + 1] == BASE_URL + "/"
    ensures url[|url| - 3..] == ".so"
  {
    BASE_URL + "/" + version + "/libfdb_c." + arch + ".so"
  }

  lemma LinuxUrlExample()
    ensures LinuxUrl("7.3.69", "x86_64") == "https://github.com/apple/foundationdb/releases/download/7.3.69/libfdb_c.x86_64.so"
  {
  }

  /** Where the library for `arch` is written. */
  function LibraryPath(output: Path, arch: string): Path
  {
    TargetPath(output, arch) + [LIBRARY_FILE]
  }

  /**
   * `download(arch)`: the stream is opened first, so a URL that cannot be opened
   * fails before the target directory is created; then the body replaces
   * whatever `<output>/<arch>/libfdb_c.so` held.
   */
  function DownloadArch(host: Host, version: string, output: Path, arch: string, w: World): (r: Run)
    ensures r.world.log == w.log + [Open(LinuxUrl(version, arch))]
    ensures r.error.None? <==> LinuxUrl(version, arch) in host.network
    ensures r.error.Some? ==> r.error.value == DownloadFailed(LinuxUrl(version, arch)) && r.world.fs == w.fs
    ensures r.error.None? ==>
              && LibraryPath(output, arch) in r.world.fs.files
              && r.world.fs.files[LibraryPath(output, arch)] == host.network[LinuxUrl(version, arch)]
              && TargetPath(output, arch) in r.world.fs.dirs
    ensures forall q :: q != LibraryPath(output, arch) ==>
              (q in r.world.fs.files <==> q in w.fs.files) &&
              (q in w.fs.files ==> r.world.fs.files[q] == w.fs.files[q])
    ensures w.fs.dirs <= r.world.fs.dirs
  {
    var url := LinuxUrl(version, arch);
    var w1 := Record(w, Open(url));
    if url !in host.network then
      Run(w1, Some(DownloadFailed(url)))
    else
      var (target, fs) := GetTargetPath(output, arch, w1.fs);
      Run(w1.(fs := Write(fs, target + [LIBRARY_FILE], host.network[url])), None)
  }

  /** `download()` over the architectures `archs`, starting from `w`: the first exception ends it. */
  function FetchFrom(host: Host, version: string, output: Path, archs: seq<string>, w: World): (r: Run)
    ensures w.log <= r.world.log
    decreases |archs|
  {
    if archs == [] then Run(w, None)
    else
      var r := DownloadArch(host, version, output, archs[0], w);
      if r.error.Some? then r else FetchFrom(host, version, output, archs[1..], r.world)
  }

  /** `download()`. */
  method Download(host: Host, version: string, output: Path, w0: World) returns (r: Run)
    ensures r == FetchFrom(host, version, output, ARCHITECTURES, w0)
  {
    var w := w0;
    var i := 0;
    while i < |ARCHITECTURES|
      invariant 0 <= i <= |ARCHITECTURES|
      invariant FetchFrom(host, version, output, ARCHITECTURES[i..], w) == FetchFrom(host, version, output, ARCHITECTURES, w0)
    {
      var step := DownloadArch(host, version, output, ARCHITECTURES[i], w);
      if step.error.Some? {
        return step;
      }
      w := step.world;
      i := i + 1;
    }
    r := Run(w, None);
  }

  /** The number of architectures, from the front, whose URL can be opened. */
  function Reachable(host: Host, version: string, archs: seq<string>): (k: nat)
    ensures k <= |archs|
    ensures forall j :: 0 <= j < k ==> LinuxUrl(version, archs[j]) in host.network
    ensures k < |archs| ==> LinuxUrl(version, archs[k]) !in host.network
    decreases |archs|
  {
    if archs == [] || LinuxUrl(version, archs[0]) !in host.network then 0
    else 1 + Reachable(host, version, archs[1..])
  }

  /** The streams opened for `archs`, in order. */
  function Opens(version: string, archs: seq<string>): (s: seq<Effect>)
    ensures |s| == |archs|
    ensures forall i :: 0 <= i < |archs| ==> s[i] == Open(LinuxUrl(version, archs[i]))
  {
    seq(|archs|, i requires 0 <= i < |archs| => Open(LinuxUrl(version, archs[i])))
  }

  /** The streams of the first `n + 1` architectures: the first one's, then the next `n` of the rest. */
  lemma OpensOfPrefix(version: string, archs: seq<string>, n: nat)
    requires n < |archs|
    ensures Opens(version, archs[..n + 1]) == [Open(LinuxUrl(version, archs[0]))] + Opens(version, archs[1..][..n])
  {
    assert archs[..n + 1] == [archs[0]] + archs[1..][..n];
  }

  /** The number of architectures `FetchFrom` attempts: up to and including the first failing one. */
  function Attempted(host: Host, version: string, archs: seq<string>): nat
  {
    var k := Reachable(host, version, archs);
    if k < |archs| then k + 1 else k
  }

  /** When the first architecture's stream opens, `download()` carries on with the rest from the new world. */
  lemma FetchOn(host: Host, version: string, output: Path, archs: seq<string>, w: World)
    requires archs != [] && LinuxUrl(version, archs[0]) in host.network
    ensures var step := DownloadArch(host, version, output, archs[0], w);
            && FetchFrom(host, version, output, archs, w) == FetchFrom(host, version, output, archs[1..], step.world)
            && Reachable(host, version, archs) == Reachable(host, version, archs[1..]) + 1
            && Attempted(host, version, archs) == Attempted(host, version, archs[1..]) + 1
            && step.world.log == w.log + [Open(LinuxUrl(version, archs[0]))]
  {
  }

  /** The exception `download()` throws is the failure of the first architecture whose stream cannot be opened. */
  lemma {:induction false} FetchOutcome(host: Host, version: string, output: Path, archs: seq<string>, w: World)
    ensures var k := Reachable(host, version, archs);
            FetchFrom(host, version, output, archs, w).error ==
              (if k < |archs| then Some(DownloadFailed(LinuxUrl(version, archs[k]))) else None)
    decreases |archs|
  {
    if archs != [] && LinuxUrl(version, archs[0]) in host.network {
      var step := DownloadArch(host, version, output, archs[0], w);
      FetchOn(host, version, output, archs, w);
      FetchOutcome(host, version, output, archs[1..], step.world);
    }
  }

  /**
   * One stream is opened per architecture, in list order, up to and including
   * the first one that fails; no later architecture is attempted.
   */
  lemma {:induction false} FetchLog(host: Host, version: string, output: Path, archs: seq<string>, w: World)
    ensures FetchFrom(host, version, output, archs, w).world.log == w.log + Opens(version, archs[..Attempted(host, version, archs)])
    decreases |archs|
  {
    if archs != [] {
      if LinuxUrl(version, archs[0]) in host.network {
        var step := DownloadArch(host, version, output, archs[0], w);
        FetchOn(host, version, output, archs, w);
        FetchLog(host, version, output, archs[1..], step.world);
        OpensOfPrefix(version, archs, Attempted(host, version, archs[1..]));
      } else {
        assert Opens(version, archs[..1]) == [Open(LinuxUrl(version, archs[0]))];
      }
    }
  }

  /** The library paths of the first `k` architectures. */
  function Written(output: Path, archs: seq<string>, k: nat): set<Path>
    requires k <= |archs|
  {
    set j | 0 <= j < k :: LibraryPath(output, archs[j])
  }

  lemma WrittenOfCons(output: Path, archs: seq<string>, k: nat)
    requires 0 < k <= |archs|
    ensures Written(output, archs, k) == {LibraryPath(output, archs[0])} + Written(output, archs[1..], k - 1)
  {
    forall q | q in Written(output, archs, k)
      ensures q in {LibraryPath(output, archs[0])} + Written(output, archs[1..], k - 1)
    {
      var j :| 0 <= j < k && q == LibraryPath(output, archs[j]);
      if j > 0 { assert archs[1..][j - 1] == archs[j]; }
    }
    forall q | q in Written(output, archs[1..], k - 1) ensures q in Written(output, archs, k) {
      var j :| 0 <= j < k - 1 && q == LibraryPath(output, archs[1..][j]);
      assert archs[j + 1] == archs[1..][j];
    }
  }

  /** No file outside the library paths of the architectures before the first failure is touched. */
  lemma {:induction false} FetchKeepsOthers(host: Host, version: string, output: Path, archs: seq<string>, w: World)
    ensures var r := FetchFrom(host, version, output, archs, w);
            forall q :: q !in Written(output, archs, Reachable(host, version, archs)) ==>
              (q in r.world.fs.files <==> q in w.fs.files) &&
              (q in w.fs.files ==> r.world.fs.files[q] == w.fs.files[q])
    decreases |archs|
  {
    if archs != [] && LinuxUrl(version, archs[0]) in host.network {
      var step := DownloadArch(host, version, output, archs[0], w);
      FetchOn(host, version, output, archs, w);
      FetchKeepsOthers(host, version, output, archs[1..], step.world);
      WrittenOfCons(output, archs, Reachable(host, version, archs));
    }
  }

  /**
   * Every architecture before the first failure has its library file holding
   * exactly the body of its URL.
   */
  lemma {:induction false} FetchFiles(host: Host, version: string, output: Path, archs: seq<string>, w: World)
    ensures var r := FetchFrom(host, version, output, archs, w);
            forall j :: 0 <= j < Reachable(host, version, archs) ==>
              LibraryPath(output, archs[j]) in r.world.fs.files &&
              r.world.fs.files[LibraryPath(output, archs[j])] == host.network[LinuxUrl(version, archs[j])]
    decreases |archs|
  {
    if archs != [] && LinuxUrl(version, archs[0]) in host.network {
      var step := DownloadArch(host, version, output, archs[0], w);
      var r := FetchFrom(host, version, output, archs, w);
      var k := Reachable(host, version, archs);
      FetchOn(host, version, output, archs, w);
      FetchFiles(host, version, output, archs[1..], step.world);
      FetchKeepsOthers(host, version, output, archs[1..], step.world);
      forall j | 0 <= j < k
        ensures LibraryPath(output, archs[j]) in r.world.fs.files
        ensures r.world.fs.files[LibraryPath(output, archs[j])] == host.network[LinuxUrl(version, archs[j])]
      {
        if j > 0 {
          assert archs[1..][j - 1] == archs[j];
        } else if LibraryPath(output, archs[0]) in Written(output, archs[1..], k - 1) {
          var i :| 0 <= i < k - 1 && LibraryPath(output, archs[0]) == LibraryPath(output, archs[1..][i]);
          assert archs[0] == LibraryPath(output, archs[0])[|output|] == archs[1..][i];
        }
      }
    }
  }

  /** With both URLs reachable, `download()` opens them in list order and writes both libraries. */
  lemma DownloadBothArchitectures(host: Host, version: string, output: Path, w: World)
    requires LinuxUrl(version, "x86_64") in host.network && LinuxUrl(version, "aarch64") in host.network
    ensures var r := FetchFrom(host, version, output, ARCHITECTURES, w);
            && r.error.None?
            && r.world.log == w.log + [Open(LinuxUrl(version, "x86_64")), Open(LinuxUrl(version, "aarch64"))]
            && output + ["x86_64", LIBRARY_FILE] in r.world.fs.files
            && output + ["aarch64", LIBRARY_FILE] in r.world.fs.files
            && r.world.fs.files[output + ["x86_64", LIBRARY_FILE]] == host.network[LinuxUrl(version, "x86_64")]
            && r.world.fs.files[output + ["aarch64", LIBRARY_FILE]] == host.network[LinuxUrl(version, "aarch64")]
  {
    assert Reachable(host, version, ARCHITECTURES[1..]) == 1;
    assert Reachable(host, version, ARCHITECTURES) == 2;
    FetchOutcome(host, version, output, ARCHITECTURES, w);
    FetchLog(host, version, output, ARCHITECTURES, w);
    FetchFiles(host, version, output, ARCHITECTURES, w);
    assert ARCHITECTURES[..2] == ARCHITECTURES;
    assert LibraryPath(output, ARCHITECTURES[0]) == output + ["x86_64", LIBRARY_FILE];
    assert LibraryPath(output, ARCHITECTURES[1]) == output + ["aarch64", LIBRARY_FILE];
  }

  /** When the first URL fails, `download()` throws it and never opens the second. */
  lemma FirstFailureAborts(host: Host, version: string, output: Path, w: World)
    requires LinuxUrl(version, "x86_64") !in host.network
    ensures FetchFrom(host, version, output, ARCHITECTURES, w) ==
              Run(Record(w, Open(LinuxUrl(version, "x86_64"))), Some(DownloadFailed(LinuxUrl(version, "x86_64"))))
  {
  }
}
