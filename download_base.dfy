/**
 * `BaseDownloadClientTask` and the outside world both download tasks act on:
 * the filesystem, the network and child processes. The network and the tools
 * are oracles (`Host`); what the tasks do to them is recorded in an effect log.
 */
module DownloadBase {
  import opened Wrappers
  import opened Files

  /** The architectures fetched, in this order. */
  const ARCHITECTURES: seq<string> := ["x86_64", "aarch64"]

  const BASE_URL: string := "https://github.com/apple/foundationdb/releases/download"

  /** What a task asks of the outside world, in the order it asks. */
  datatype Effect =
    | Open(url: string)                         // `new URI(url).toURL().openStream()`
    | Exec(dir: Path, commandLine: seq<string>) // `ExecOperations.exec` with a working directory

  datatype World = World(fs: FileSystem, log: seq<Effect>)

  /** The exceptions that end a task. */
  datatype FetchError =
    | DownloadFailed(url: string)                     // the stream could not be opened
    | UnknownArch(message: string)                    // `IllegalArgumentException` from a URL mapping
    | ExecFailed(dir: Path, commandLine: seq<string>) // the child process did not start or exited non-zero
    | NoSuchFile(path: Path)                          // `Files.copy` from a file that does not exist

  /** The world after a step, and the exception it threw, if any; nothing after a throw runs. */
  datatype Run = Run(world: World, error: Option<FetchError>)

  /**
   * The oracles: the body served for each URL that can be opened (any other URL
   * fails), the commands that fail, and the entries an extraction command creates,
   * relative to its working directory.
   */
  datatype Host = Host(network: map<string, Bytes>, failing: set<Effect>, unpacked: map<Effect, FileSystem>)

  lemma ArchitecturesAreTheTwoTokens()
    ensures ARCHITECTURES == ["x86_64", "aarch64"]
    ensures forall i, j :: 0 <= i < j < |ARCHITECTURES| ==> ARCHITECTURES[i] != ARCHITECTURES[j]
    ensures forall i :: 0 <= i < |ARCHITECTURES| ==> IsElement(ARCHITECTURES[i])
  {
  }

  /** `getOutputDirectory()` joined with the architecture. */
  function TargetPath(output: Path, arch: string): Path
  {
    output + [arch]
  }

  /** `getTargetPath(arch)`: the target directory, which the call creates with its missing ancestors. */
  function GetTargetPath(output: Path, arch: string, fs: FileSystem): (r: (Path, FileSystem))
    ensures r.0 == output + [arch]
    ensures r.1.files == fs.files
    ensures forall d :: d in r.1.dirs <==> d in fs.dirs || (d != [] && IsUnder(output + [arch], d))
  {
    var target := TargetPath(output, arch);
    (target, CreateDirectories(fs, target))
  }

  /** Calling `getTargetPath` again returns the same path and changes nothing. */
  lemma GetTargetPathIdempotent(output: Path, arch: string, fs: FileSystem)
    ensures var (target, fs1) := GetTargetPath(output, arch, fs);
            GetTargetPath(output, arch, fs1) == (target, fs1)
  {
    var (target, fs1) := GetTargetPath(output, arch, fs);
    var (_, fs2) := GetTargetPath(output, arch, fs1);
    assert fs2.dirs == fs1.dirs;
  }

  /** Distinct architectures have target directories that share no path. */
  lemma TargetsDisjoint(output: Path, a: string, b: string, p: Path)
    requires a != b
    ensures IsUnder(p, TargetPath(output, a)) ==> !IsUnder(p, TargetPath(output, b))
  {
    if IsUnder(p, TargetPath(output, a)) {
      assert p[|output|] == TargetPath(output, a)[|output|] == a;
    }
  }

  /** The world after `effect` is asked for. */
  function Record(w: World, effect: Effect): World
  {
    w.(log := w.log + [effect])
  }

  /**
   * `exec(dir, commandLine...)`: the command runs when its working directory
   * exists and the oracle does not fail it; its effect on the files is the
   * caller's to apply.
   */
  function Execute(host: Host, dir: Path, commandLine: seq<string>, w: World): (r: Run)
    ensures r.world == Record(w, Exec(dir, commandLine))
    ensures r.error.None? <==> dir in w.fs.dirs && Exec(dir, commandLine) !in host.failing
    ensures r.error.Some? ==> r.error.value == ExecFailed(dir, commandLine)
  {
    var w1 := Record(w, Exec(dir, commandLine));
    if dir in w.fs.dirs && Exec(dir, commandLine) !in host.failing then Run(w1, None)
    else Run(w1, Some(ExecFailed(dir, commandLine)))
  }
}
