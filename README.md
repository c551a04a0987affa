# micronaut-foundationdb, modelled in Dafny

This project models the core of the Micronaut integration for the FoundationDB
Java client. It has three parts.

- **Client installation** (`client_installer.dfy`, `native_library_installer.dfy`).
  At startup, `FoundationDbClientInstaller` maps the host's operating-system
  family and `os.arch` to the tokens `linux`/`osx` and `x86_64`/`aarch64`. It
  names the bundled library `lib/<os>/<arch>/<mapped library name>` and has a
  `NativeLibraryInstaller` copy it into a temporary directory. Then it
  publishes the copy's path in the system property `FDB_LIBRARY_PATH_FDB_C`.
  The installer is a class: its staged files and its delete-on-exit set are
  fields that `Install` updates.
- **Build tasks** (`download_base.dfy`, `download_linux.dfy`, `download_macos.dfy`).
  The Gradle tasks fetch the client library of a release for each of
  `x86_64` and `aarch64`, in that order.
  - The Linux task streams `libfdb_c.<arch>.so` into `<output>/<arch>/libfdb_c.so`.
  - The macOS task downloads a `.pkg` into a scratch directory, unpacks it
    with `xar` and `tar`, copies `libfdb_c.dylib` out, and removes the
    scratch directory with `rm -rf`.

  The filesystem is a value (`Files.FileSystem`). The network and the
  external tools are oracles (`DownloadBase.Host`). Every stream opened and
  every command run is appended to an effect log. Each `download()` loop is
  a method with a `while` loop, proved equal to a fold function
  (`FetchFrom`). The properties are lemmas about that fold: order, the first
  failure aborting the rest, which files change, clean-up, and
  repeatability.
- **Metrics** (`words.dfy`, `meter_names.dfy`, `event_metadata.dfy`,
  `known_events.dfy`, `meters.dfy`, `preregistration.dfy`, `event_keeper.dfy`).
  - `EventMetadataProvider` derives a meter name `foundationdb.<name>` from an
    event name: `_` becomes `.` and letters are lowercased. It also derives
    two descriptions.
  - `MicrometerEventKeeper` is a class holding two maps, event to counter and
    event to timer, over one meter registry. Its constructor registers seven
    counters and one timer with hand-written names. `count` and `timeNanos`
    create a generic meter on demand (`computeIfAbsent`) and add to it.
  - The registry keys meters by name and tags (`Meters.MeterId`). `register`
    hands back the meter already registered under an id of the same type
    and throws `IllegalArgumentException` for an id registered with the other
    type. The exception propagates through `computeIfAbsent`, and the map
    gains no entry.
  - The model proves these things:
    - the hand-written ids equal the generic ones;
    - the constructor throws exactly when one of its ids is already
      registered with the other type;
    - every map entry is its event's generic id, for a meter of the map's
      type;
    - a recording for one event leaves every total held under another id
      unchanged;
    - two events with one generic id share a meter;
    - the fetch-time event cannot be counted and the JNI-call event cannot be
      timed.

`wrappers.dfy` holds `Option`, `Result` and the Java exceptions the code
throws. `files.dfy` models the parts of `java.nio.file` that the code uses.

## Model

| member | source | states |
|---|---|---|
| ClientInstaller.GetOs | foundationdb-client/src/main/java/io/micronaut/foundationdb/client/FoundationDbClientInstaller.java:51-58 | Linux maps to `linux` and macOS to `osx`, each if and only if the family is that one; every other family throws IllegalStateException with the source's message |
| ClientInstaller.GetArch | foundationdb-client/src/main/java/io/micronaut/foundationdb/client/FoundationDbClientInstaller.java:60-67 | `x86_64`/`amd64` give x86_64 and `aarch64`/`arm64` give aarch64, both if and only if; any other set value throws IllegalStateException with the source's message |
| ClientInstaller.ArchNormalisationIdempotent | foundationdb-client/src/main/java/io/micronaut/foundationdb/client/FoundationDbClientInstaller.java:60-67 | normalising a canonical token gives the same architecture back |
| ClientInstaller.MapLibraryName | foundationdb-client/src/main/java/io/micronaut/foundationdb/client/FoundationDbClientInstaller.java:47 | a library name without `/` maps to a file name without `/` |
| ClientInstaller.ResourceName | foundationdb-client/src/main/java/io/micronaut/foundationdb/client/FoundationDbClientInstaller.java:46-49 | succeeds exactly when the OS and the arch resolve; an OS error is reported before an arch error, each unchanged |
| ClientInstaller.ResourceNameElements | foundationdb-client/src/main/java/io/micronaut/foundationdb/client/FoundationDbClientInstaller.java:46-49 | the resource name parses back into exactly `lib`, OS token, arch token, library file; it fails exactly when the OS or the arch does, and an OS error is reported before an arch error |
| ClientInstaller.Published | foundationdb-client/src/main/java/io/micronaut/foundationdb/client/FoundationDbClientInstaller.java:38-44 | a resolution error is thrown unchanged; a missing resource throws "Cannot find resource"; a value is published only when the name resolves and the resource exists |
| ClientInstaller.LinuxAarch64ResourceName | foundationdb-client/src/main/java/io/micronaut/foundationdb/client/FoundationDbClientInstaller.java:36-49 | Linux with `aarch64` names `lib/linux/aarch64/libfdb_c.so` |
| ClientInstaller.MacAmd64ResourceName | foundationdb-client/src/main/java/io/micronaut/foundationdb/client/FoundationDbClientInstaller.java:36-49 | macOS with `amd64` names `lib/osx/x86_64/libfdb_c.dylib` |
| ClientInstaller.PublishedPath | foundationdb-client/src/main/java/io/micronaut/foundationdb/client/FoundationDbClientInstaller.java:38-44 | a value is published exactly when the platform resolves and the resource exists; it is a path directly in the staging directory named after the platform's library file; otherwise the resolution error or "Cannot find resource" is thrown |
| ClientInstaller.Install | foundationdb-client/src/main/java/io/micronaut/foundationdb/client/FoundationDbClientInstaller.java:38-44 | creates the installer first, in a fresh temporary directory; sets `FDB_LIBRARY_PATH_FDB_C` to the published path only on success and leaves every property unchanged on failure; stages the library only once the name resolves |
| ClientInstaller.SystemProperties.SetProperty | foundationdb-client/src/main/java/io/micronaut/foundationdb/client/FoundationDbClientInstaller.java:43 | the property map is updated at that one key |
| NativeLibraries.Stage | foundationdb-client/src/main/java/io/micronaut/foundationdb/client/NativeLibraryInstaller.java:55-64 | a missing resource throws "Cannot find resource" and writes nothing; otherwise the result is `tempDir/<file name>`, which then holds the resource's bytes; success happens if and only if the resource exists and has a file name |
| NativeLibraries.MissingResourceWritesNothing | foundationdb-client/src/main/java/io/micronaut/foundationdb/client/NativeLibraryInstaller.java:56-57 | a missing resource throws before anything is staged |
| NativeLibraries.StageFrame | foundationdb-client/src/main/java/io/micronaut/foundationdb/client/NativeLibraryInstaller.java:58-60 | a successful install changes no staged file but the one it returns |
| NativeLibraries.StageTwice | foundationdb-client/src/main/java/io/micronaut/foundationdb/client/NativeLibraryInstaller.java:60 | installing again (REPLACE_EXISTING) returns the same path and leaves the same files |
| NativeLibraries.SameFileNameCollides | foundationdb-client/src/main/java/io/micronaut/foundationdb/client/NativeLibraryInstaller.java:58-60 | two resources with the same file name go to the same target, and the second overwrites the first |
| NativeLibraries.NativeLibraryInstaller.constructor | foundationdb-client/src/main/java/io/micronaut/foundationdb/client/NativeLibraryInstaller.java:44-46 | the temporary directory is `prefix + unique` in the temporary root, with nothing staged; the `IOException` case is not modelled (see "## Left out") |
| NativeLibraries.NativeLibraryInstaller.Install | foundationdb-client/src/main/java/io/micronaut/foundationdb/client/NativeLibraryInstaller.java:55-64 | the result and new staged files are those of `Stage`; the returned path is registered for delete-on-exit; the staging invariant is kept |
| NativeLibraries.InstallTwice | foundationdb-client/src/main/java/io/micronaut/foundationdb/client/NativeLibraryInstaller.java:55-64 | two installs of one resource return the same path, which holds the resource's bytes |
| Files.Elements | foundationdb-client/src/main/java/io/micronaut/foundationdb/client/NativeLibraryInstaller.java:58 | `Path.of(s)` splits into non-empty elements free of `/`; the empty string, which Java reads as one empty element, has none here (see "## Left out") |
| Files.FileName | foundationdb-client/src/main/java/io/micronaut/foundationdb/client/NativeLibraryInstaller.java:58 | `getFileName` is the last element; it is absent exactly when there are no elements, which here includes the empty string (see "## Left out") |
| Files.ElementsOfJoin | foundationdb-client/src/main/java/io/micronaut/foundationdb/client/FoundationDbClientInstaller.java:47-48 | parsing the string form of a relative path gives back its elements |
| Files.ElementsOfRender | foundationdb-client/src/main/java/io/micronaut/foundationdb/client/FoundationDbClientInstaller.java:43 | parsing the string form of an absolute path gives back its elements |
| Files.CreateDirectories | buildSrc/src/main/groovy/io/micronaut/build/internal/foundationdb/BaseDownloadClientTask.java:30 | afterwards the directories are the old ones plus the path and all its ancestors; files are untouched; the `FileAlreadyExistsException` case is not modelled |
| Files.Write | buildSrc/src/main/groovy/io/micronaut/build/internal/foundationdb/DownloadLinuxClientTask.java:25 | `Files.copy(..., REPLACE_EXISTING)`: the target holds the new bytes and every other file is unchanged; the `DirectoryNotEmptyException` case is not modelled |
| Files.RemoveTree | buildSrc/src/main/groovy/io/micronaut/build/internal/foundationdb/DownloadMacOsClientTask.java:67 | `rm -rf`: exactly the entries below the path are gone |
| Files.Merge | buildSrc/src/main/groovy/io/micronaut/build/internal/foundationdb/DownloadMacOsClientTask.java:53-54 | unpacked entries appear below the working directory and replace files there; nothing else changes |
| DownloadBase.ArchitecturesAreTheTwoTokens | buildSrc/src/main/groovy/io/micronaut/build/internal/foundationdb/BaseDownloadClientTask.java:17 | the architectures are `x86_64` then `aarch64`, distinct and valid path elements |
| DownloadBase.GetTargetPath | buildSrc/src/main/groovy/io/micronaut/build/internal/foundationdb/BaseDownloadClientTask.java:27-32 | returns `<output>/<arch>` and creates it with its missing ancestors; files are untouched |
| DownloadBase.GetTargetPathIdempotent | buildSrc/src/main/groovy/io/micronaut/build/internal/foundationdb/BaseDownloadClientTask.java:27-32 | a second call returns the same path and changes nothing |
| DownloadBase.TargetsDisjoint | buildSrc/src/main/groovy/io/micronaut/build/internal/foundationdb/BaseDownloadClientTask.java:29 | the target directories of distinct architectures share no path |
| DownloadBase.Execute | buildSrc/src/main/groovy/io/micronaut/build/internal/foundationdb/DownloadMacOsClientTask.java:70-75 | the command is logged; it succeeds if and only if its working directory exists and the oracle does not fail it; a failure carries its directory and command line |
| LinuxDownload.LinuxUrl | buildSrc/src/main/groovy/io/micronaut/build/internal/foundationdb/DownloadLinuxClientTask.java:30-33 | the URL is below `BASE_URL/` and ends in `.so` |
| LinuxDownload.LinuxUrlExample | buildSrc/src/main/groovy/io/micronaut/build/internal/foundationdb/DownloadLinuxClientTask.java:29-33 | version 7.3.69 on x86_64 gives the URL in the source's own comment |
| LinuxDownload.DownloadArch | buildSrc/src/main/groovy/io/micronaut/build/internal/foundationdb/DownloadLinuxClientTask.java:22-27 | the stream is opened first; a URL that cannot be opened throws with the filesystem unchanged; otherwise `<output>/<arch>/libfdb_c.so` holds the body and no other file changes |
| LinuxDownload.Download | buildSrc/src/main/groovy/io/micronaut/build/internal/foundationdb/DownloadLinuxClientTask.java:16-20 | the loop's outcome equals the fold `FetchFrom` over the architectures |
| LinuxDownload.FetchFrom | buildSrc/src/main/groovy/io/micronaut/build/internal/foundationdb/DownloadLinuxClientTask.java:16-20 | the effect log of the architectures in order only grows: what was logged before stays logged |
| LinuxDownload.Reachable | buildSrc/src/main/groovy/io/micronaut/build/internal/foundationdb/DownloadLinuxClientTask.java:16-20 | how many architectures, from the front, have a URL that opens |
| LinuxDownload.FetchOutcome | buildSrc/src/main/groovy/io/micronaut/build/internal/foundationdb/DownloadLinuxClientTask.java:16-20 | the exception thrown is the failure of the first unreachable architecture, and there is none if all are reachable |
| LinuxDownload.FetchLog | buildSrc/src/main/groovy/io/micronaut/build/internal/foundationdb/DownloadLinuxClientTask.java:16-20 | streams are opened in list order, up to and including the first failure, and no further |
| LinuxDownload.FetchFiles | buildSrc/src/main/groovy/io/micronaut/build/internal/foundationdb/DownloadLinuxClientTask.java:16-27 | every architecture before the first failure has its library holding exactly its URL's body |
| LinuxDownload.FetchKeepsOthers | buildSrc/src/main/groovy/io/micronaut/build/internal/foundationdb/DownloadLinuxClientTask.java:16-27 | no file is touched except the libraries written before the first failure |
| LinuxDownload.DownloadBothArchitectures | buildSrc/src/main/groovy/io/micronaut/build/internal/foundationdb/DownloadLinuxClientTask.java:16-33 | with both URLs reachable, both are opened in order and both libraries hold their bodies |
| LinuxDownload.FirstFailureAborts | buildSrc/src/main/groovy/io/micronaut/build/internal/foundationdb/DownloadLinuxClientTask.java:16-20 | when the x86_64 URL fails, the task throws that failure without opening the aarch64 URL |
| MacOsDownload.MappedArch | buildSrc/src/main/groovy/io/micronaut/build/internal/foundationdb/DownloadMacOsClientTask.java:42-46 | x86_64 stays x86_64 and aarch64 becomes arm64, both if and only if; anything else throws "Unknown arch" |
| MacOsDownload.MacUrl | buildSrc/src/main/groovy/io/micronaut/build/internal/foundationdb/DownloadMacOsClientTask.java:40-48 | fails exactly when the mapping does; a URL is below `BASE_URL/` and ends in `.pkg` |
| MacOsDownload.MacUrlOfArchitectures | buildSrc/src/main/groovy/io/micronaut/build/internal/foundationdb/DownloadMacOsClientTask.java:39-48 | the two URLs are `.../<v>/FoundationDB-<v>_x86_64.pkg` and `..._arm64.pkg` |
| MacOsDownload.GetDownloadPath | buildSrc/src/main/groovy/io/micronaut/build/internal/foundationdb/DownloadMacOsClientTask.java:77-82 | returns `<output>/<arch>/download` and creates it with its ancestors |
| MacOsDownload.DownloadPackage | buildSrc/src/main/groovy/io/micronaut/build/internal/foundationdb/DownloadMacOsClientTask.java:31-37 | an unknown arch throws before anything is opened; a failed stream leaves the filesystem unchanged; on success the package holds the body, the download directory exists, and no other file changes |
| MacOsDownload.Unpack | buildSrc/src/main/groovy/io/micronaut/build/internal/foundationdb/DownloadMacOsClientTask.java:70-75 | a tool that runs merges what it unpacks below its working directory; a failing one changes nothing |
| MacOsDownload.Extract | buildSrc/src/main/groovy/io/micronaut/build/internal/foundationdb/DownloadMacOsClientTask.java:50-55 | `xar` runs first, and `tar` runs only if `xar` succeeds; it succeeds if and only if neither fails and the clients directory exists after `xar`; afterwards the payload library holds `ExtractedLibrary`; nothing outside the download directory changes except its creation |
| MacOsDownload.XarStep | buildSrc/src/main/groovy/io/micronaut/build/internal/foundationdb/DownloadMacOsClientTask.java:53 | the `xar` step changes nothing outside the download directory and determines the clients directory and the payload library |
| MacOsDownload.TarStep | buildSrc/src/main/groovy/io/micronaut/build/internal/foundationdb/DownloadMacOsClientTask.java:54 | the `tar` step runs exactly when the clients directory exists, and leaves the payload library as `ExtractedLibrary` |
| MacOsDownload.MergeOutside | buildSrc/src/main/groovy/io/micronaut/build/internal/foundationdb/DownloadMacOsClientTask.java:53-54 | what a tool unpacks below a directory changes nothing outside an enclosing one |
| MacOsDownload.Copy | buildSrc/src/main/groovy/io/micronaut/build/internal/foundationdb/DownloadMacOsClientTask.java:57-62 | a missing payload library throws NoSuchFile; otherwise `<output>/<arch>/libfdb_c.dylib` holds its bytes and no other file changes |
| MacOsDownload.Clean | buildSrc/src/main/groovy/io/micronaut/build/internal/foundationdb/DownloadMacOsClientTask.java:64-68 | `rm -rf <download>` runs in the target directory; on success nothing below the download directory is left; on failure the download directory remains; no file is created or changed |
| MacOsDownload.Download | buildSrc/src/main/groovy/io/micronaut/build/internal/foundationdb/DownloadMacOsClientTask.java:21-29 | the loop's outcome equals the fold `FetchFrom` over the architectures |
| MacOsDownload.FetchArch | buildSrc/src/main/groovy/io/micronaut/build/internal/foundationdb/DownloadMacOsClientTask.java:23-28 | an unknown architecture throws before anything happens; otherwise the effect log only grows |
| MacOsDownload.FetchFrom | buildSrc/src/main/groovy/io/micronaut/build/internal/foundationdb/DownloadMacOsClientTask.java:21-29 | the effect log of the architectures in order only grows: what was logged before stays logged |
| MacOsDownload.Progress | buildSrc/src/main/groovy/io/micronaut/build/internal/foundationdb/DownloadMacOsClientTask.java:23-28 | how many of the four steps were asked for, read from the exception that ended the iteration |
| MacOsDownload.UnknownArchChangesNothing | buildSrc/src/main/groovy/io/micronaut/build/internal/foundationdb/DownloadMacOsClientTask.java:31-46 | an unknown architecture throws without opening, running or creating anything |
| MacOsDownload.FetchArchLog | buildSrc/src/main/groovy/io/micronaut/build/internal/foundationdb/DownloadMacOsClientTask.java:23-28 | an iteration asks for exactly the steps up to and including the one that failed, in order |
| MacOsDownload.ExtractFailureLog | buildSrc/src/main/groovy/io/micronaut/build/internal/foundationdb/DownloadMacOsClientTask.java:50-55 | a failure in `extract` logs the steps up to the failing tool |
| MacOsDownload.ExtractedLog | buildSrc/src/main/groovy/io/micronaut/build/internal/foundationdb/DownloadMacOsClientTask.java:26-27 | after `extract`, a missing library stops before `rm`; otherwise `rm` is the last step, whatever its outcome |
| MacOsDownload.CleanProgress | buildSrc/src/main/groovy/io/micronaut/build/internal/foundationdb/DownloadMacOsClientTask.java:64-68 | `clean` is the fourth step, whether or not `rm` fails |
| MacOsDownload.FetchArchSucceeds | buildSrc/src/main/groovy/io/micronaut/build/internal/foundationdb/DownloadMacOsClientTask.java:23-28 | an iteration completes if and only if `Succeeds` holds of the filesystem it starts on |
| MacOsDownload.FetchArchSuccess | buildSrc/src/main/groovy/io/micronaut/build/internal/foundationdb/DownloadMacOsClientTask.java:23-28 | a complete iteration logs all four steps, and the library holds the extracted payload's bytes |
| MacOsDownload.LibraryOutsideDownload | buildSrc/src/main/groovy/io/micronaut/build/internal/foundationdb/DownloadMacOsClientTask.java:57-67 | the copied library is not below the directory that `clean` removes |
| MacOsDownload.FetchArchCleansUp | buildSrc/src/main/groovy/io/micronaut/build/internal/foundationdb/DownloadMacOsClientTask.java:64-68 | a complete iteration leaves nothing below the download directory |
| MacOsDownload.FetchArchFailure | buildSrc/src/main/groovy/io/micronaut/build/internal/foundationdb/DownloadMacOsClientTask.java:21-37 | an unknown arch or a failed stream leaves the filesystem unchanged; any later failure leaves the download directory behind |
| MacOsDownload.FetchArchFilesFrame | buildSrc/src/main/groovy/io/micronaut/build/internal/foundationdb/DownloadMacOsClientTask.java:23-28 | an iteration changes no file outside `<output>/<arch>` |
| MacOsDownload.FetchArchDirsFrame | buildSrc/src/main/groovy/io/micronaut/build/internal/foundationdb/DownloadMacOsClientTask.java:23-28 | an iteration creates or removes no directory outside `<output>/<arch>` other than its ancestors |
| MacOsDownload.FetchArchRepeatable | buildSrc/src/main/groovy/io/micronaut/build/internal/foundationdb/DownloadMacOsClientTask.java:23-28 | from a clean start, a complete iteration run again completes again and leaves the same library bytes |
| MacOsDownload.CleanStartOutcome | buildSrc/src/main/groovy/io/micronaut/build/internal/foundationdb/DownloadMacOsClientTask.java:50-62 | from a clean start, what the tools extract depends on the oracles alone |
| MacOsDownload.ArchitecturesApart | buildSrc/src/main/groovy/io/micronaut/build/internal/foundationdb/BaseDownloadClientTask.java:29 | paths below one architecture's directory are neither below the other's nor an ancestor of it |
| MacOsDownload.FetchTwice | buildSrc/src/main/groovy/io/micronaut/build/internal/foundationdb/DownloadMacOsClientTask.java:21-29 | the fold over the two architectures is x86_64, then aarch64 unless x86_64 failed |
| MacOsDownload.FirstFailureAborts | buildSrc/src/main/groovy/io/micronaut/build/internal/foundationdb/DownloadMacOsClientTask.java:21-29 | a failing x86_64 iteration ends the task, and nothing is asked for aarch64 |
| MacOsDownload.SecondUnaffected | buildSrc/src/main/groovy/io/micronaut/build/internal/foundationdb/DownloadMacOsClientTask.java:21-29 | the x86_64 iteration does not change whether or what the aarch64 one extracts |
| MacOsDownload.FirstKept | buildSrc/src/main/groovy/io/micronaut/build/internal/foundationdb/DownloadMacOsClientTask.java:21-29 | the aarch64 iteration keeps the x86_64 library and leaves no scratch below x86_64 |
| MacOsDownload.DownloadSucceeds | buildSrc/src/main/groovy/io/micronaut/build/internal/foundationdb/DownloadMacOsClientTask.java:21-29 | the task completes if and only if both iterations would complete from the starting filesystem |
| MacOsDownload.DownloadBothArchitectures | buildSrc/src/main/groovy/io/micronaut/build/internal/foundationdb/DownloadMacOsClientTask.java:21-29 | a complete task logs the steps of x86_64, then those of aarch64; both libraries hold their extracted bytes; no download directory is left |
| MeterNames.ToLower | foundationdb/src/main/java/io/micronaut/foundationdb/metrics/EventMetadataProvider.java:42 | an upper-case ASCII letter becomes its lower-case letter; anything else is kept |
| MeterNames.MeterSuffix | foundationdb/src/main/java/io/micronaut/foundationdb/metrics/EventMetadataProvider.java:37-44 | same length as the name; each character is `.` for `_`, and otherwise lowercased |
| MeterNames.BuildGenericName | foundationdb/src/main/java/io/micronaut/foundationdb/metrics/EventMetadataProvider.java:36-45 | the character loop yields `foundationdb.` followed by the transformed name |
| MeterNames.GenericNameShape | foundationdb/src/main/java/io/micronaut/foundationdb/metrics/EventMetadataProvider.java:33-46 | the meter name is `foundationdb.` plus one character per character of the name: `.` exactly where the name has `_` or `.`, lowercase letters for upper-case ones, and no `_` and no upper-case letter anywhere |
| MeterNames.MeterSuffixIdempotent | foundationdb/src/main/java/io/micronaut/foundationdb/metrics/EventMetadataProvider.java:38-44 | transforming a transformed name changes nothing |
| MeterNames.MeterSuffixAppend | foundationdb/src/main/java/io/micronaut/foundationdb/metrics/EventMetadataProvider.java:38-44 | the transform distributes over concatenation |
| MeterNames.MeterSuffixOfWords | foundationdb/src/main/java/io/micronaut/foundationdb/metrics/EventMetadataProvider.java:38-44 | words joined by `_` become the transformed words joined by `.` |
| MeterNames.GenericNameOfWords | foundationdb/src/main/java/io/micronaut/foundationdb/metrics/EventMetadataProvider.java:35-46 | the meter name of words joined by `_` is `foundationdb` and the transformed words, joined by `.` |
| EventMetadata.GetMeterName | foundationdb/src/main/java/io/micronaut/foundationdb/metrics/EventMetadataProvider.java:35-46 | returns the generic meter name of the event's `name()` |
| EventMetadata.CountDescription | foundationdb/src/main/java/io/micronaut/foundationdb/metrics/EventMetadataProvider.java:48-50 | the event's name appears whole, right after the fixed prefix |
| EventMetadata.TimerDescription | foundationdb/src/main/java/io/micronaut/foundationdb/metrics/EventMetadataProvider.java:52-54 | the event's name appears whole, right after the fixed prefix |
| EventMetadata.DescriptionsIdentifyName | foundationdb/src/main/java/io/micronaut/foundationdb/metrics/EventMetadataProvider.java:48-54 | two descriptions are equal if and only if the names are |
| KnownEvents.JniCallMeterName | foundationdb/src/main/java/io/micronaut/foundationdb/metrics/MicrometerEventKeeper.java:46-47 | the generic name of JNI_CALL is `foundationdb.jni.call` |
| KnownEvents.BytesFetchedMeterName | foundationdb/src/main/java/io/micronaut/foundationdb/metrics/MicrometerEventKeeper.java:52-53 | the generic name of BYTES_FETCHED is `foundationdb.bytes.fetched` |
| KnownEvents.RangeQueryDirectBufferHitMeterName | foundationdb/src/main/java/io/micronaut/foundationdb/metrics/MicrometerEventKeeper.java:59-60 | the generic name of RANGE_QUERY_DIRECT_BUFFER_HIT is `foundationdb.range.query.direct.buffer.hit` |
| KnownEvents.RangeQueryDirectBufferMissMeterName | foundationdb/src/main/java/io/micronaut/foundationdb/metrics/MicrometerEventKeeper.java:65-66 | the generic name of RANGE_QUERY_DIRECT_BUFFER_MISS is `foundationdb.range.query.direct.buffer.miss` |
| KnownEvents.RangeQueryFetchesMeterName | foundationdb/src/main/java/io/micronaut/foundationdb/metrics/MicrometerEventKeeper.java:71 | the generic name of RANGE_QUERY_FETCHES is `foundationdb.range.query.fetches` |
| KnownEvents.RangeQueryRecordsFetchedMeterName | foundationdb/src/main/java/io/micronaut/foundationdb/metrics/MicrometerEventKeeper.java:76 | the generic name of RANGE_QUERY_RECORDS_FETCHED is `foundationdb.range.query.records.fetched` |
| KnownEvents.RangeQueryChunkFailedMeterName | foundationdb/src/main/java/io/micronaut/foundationdb/metrics/MicrometerEventKeeper.java:81 | the generic name of RANGE_QUERY_CHUNK_FAILED is `foundationdb.range.query.chunk.failed` |
| KnownEvents.RangeQueryFetchTimeNanosMeterName | foundationdb/src/main/java/io/micronaut/foundationdb/metrics/MicrometerEventKeeper.java:86 | the generic name of RANGE_QUERY_FETCH_TIME_NANOS is `foundationdb.range.query.fetch.time.nanos` |
| KnownEvents.MeterNamesCollide | foundationdb/src/main/java/io/micronaut/foundationdb/metrics/EventMetadataProvider.java:35-46 | distinct events with distinct names can share a meter name (`JNI_CALL` and an event named `jni.call`) |
| Meters.Tags | foundationdb/src/main/java/io/micronaut/foundationdb/metrics/MicrometerEventKeeper.java:128-130 | a single tag, key `event` and value the event's `name()` |
| Meters.Text | foundationdb/src/main/java/io/micronaut/foundationdb/metrics/MicrometerEventKeeper.java:114-126 | a generic counter's description is the count description and a generic timer's the timer description |
| Meters.GenericCounter | foundationdb/src/main/java/io/micronaut/foundationdb/metrics/MicrometerEventKeeper.java:114-119 | a counter with nothing counted, no base unit, and the count description of the event |
| Meters.GenericTimer | foundationdb/src/main/java/io/micronaut/foundationdb/metrics/MicrometerEventKeeper.java:121-126 | a timer with nothing recorded, no base unit, and the timer description of the event |
| Meters.SameNameSameId | foundationdb/src/main/java/io/micronaut/foundationdb/metrics/MicrometerEventKeeper.java:114-130 | the generic id depends on the event's name alone |
| Meters.Register | foundationdb/src/main/java/io/micronaut/foundationdb/metrics/MicrometerEventKeeper.java:50 | an id registered with the other type throws IllegalArgumentException with the type-clash message, and only then; otherwise the id is present with the requested type, every meter already there is kept, and a new id holds the requested meter |
| Meters.RegisterIdempotent | foundationdb/src/main/java/io/micronaut/foundationdb/metrics/MicrometerEventKeeper.java:114-126 | registering the same id and type again returns the registry unchanged |
| Meters.Add | foundationdb/src/main/java/io/micronaut/foundationdb/metrics/MicrometerEventKeeper.java:94 | the meter under the id grows by the amount, keeps its type, and no other meter changes |
| Meters.AddTwice | foundationdb/src/main/java/io/micronaut/foundationdb/metrics/MicrometerEventKeeper.java:94 | two additions are one addition of the sum |
| Meters.RecordThrows | foundationdb/src/main/java/io/micronaut/foundationdb/metrics/MicrometerEventKeeper.java:93-100 | a recording throws exactly when the event has no meter yet and its id is registered with the other type; then nothing changes |
| Meters.RecordSucceeds | foundationdb/src/main/java/io/micronaut/foundationdb/metrics/MicrometerEventKeeper.java:93-100 | a recording that does not throw maps the event to the id, adds the amount to that meter, adds at most that id to the registry, keeps every type and changes no other total |
| Meters.RecordFrame | foundationdb/src/main/java/io/micronaut/foundationdb/metrics/MicrometerEventKeeper.java:93-100 | every other event of the map whose id differs keeps its total, the other map's totals are unchanged when it has the other type, and the other map stays consistent |
| Meters.RecordTwice | foundationdb/src/main/java/io/micronaut/foundationdb/metrics/MicrometerEventKeeper.java:93-100 | a second recording of the same event reuses the meter the first left: both together equal one recording of the sum |
| Meters.OtherKindThrows | foundationdb/src/main/java/io/micronaut/foundationdb/metrics/MicrometerEventKeeper.java:93-100 | after an event is recorded in one map, recording it in the other map under the same id throws the type clash |
| Meters.CrossKindThrows | foundationdb/src/main/java/io/micronaut/foundationdb/metrics/MicrometerEventKeeper.java:93-100 | an event the other map holds under its generic id cannot be recorded for the first time in this map: `register` throws the type clash |
| Meters.SharedMeter | foundationdb/src/main/java/io/micronaut/foundationdb/metrics/MicrometerEventKeeper.java:93-100 | an event not in the map whose id is another event's entry shares that meter: no throw, the other event's total grows by the amount and both read the same |
| Meters.RecordKeepsIndexed | foundationdb/src/main/java/io/micronaut/foundationdb/metrics/MicrometerEventKeeper.java:93-100 | a recording, throw or not, keeps every entry of the recorded map pointing at a registered meter of its type |
| Meters.RecordKeepsOther | foundationdb/src/main/java/io/micronaut/foundationdb/metrics/MicrometerEventKeeper.java:93-100 | a recording in one map, throw or not, keeps every entry of the other map pointing at a registered meter of its type |
| Meters.RecordKeepsNamed | foundationdb/src/main/java/io/micronaut/foundationdb/metrics/MicrometerEventKeeper.java:93-100 | a recording under the generic id keeps every entry of the map its event's generic id |
| Meters.CountConsistent | foundationdb/src/main/java/io/micronaut/foundationdb/metrics/MicrometerEventKeeper.java:92-95 | counting keeps the keeper's state consistent |
| Meters.TimeConsistent | foundationdb/src/main/java/io/micronaut/foundationdb/metrics/MicrometerEventKeeper.java:97-100 | timing keeps the keeper's state consistent |
| Meters.RegisterAllThrows | foundationdb/src/main/java/io/micronaut/foundationdb/metrics/MicrometerEventKeeper.java:46-89 | registering fresh meters of one type throws exactly when one of their ids is registered with the other type, and the exception is the type clash |
| Meters.RegisterAllMeters | foundationdb/src/main/java/io/micronaut/foundationdb/metrics/MicrometerEventKeeper.java:46-89 | after registering without a throw the registry holds exactly the old ids plus the new ones, each new one of the type; old meters and all totals are unchanged |
| Meters.RegisterAllIndex | foundationdb/src/main/java/io/micronaut/foundationdb/metrics/MicrometerEventKeeper.java:46-89 | each registered event maps to its id; the map gains exactly those events and keeps its other entries |
| Meters.RegisterAllIndexed | foundationdb/src/main/java/io/micronaut/foundationdb/metrics/MicrometerEventKeeper.java:46-89 | registering meters of the map's type keeps every entry pointing at a meter of that type |
| Meters.RegisterAllNamed | foundationdb/src/main/java/io/micronaut/foundationdb/metrics/MicrometerEventKeeper.java:46-89 | registering under generic ids keeps every entry its event's generic id |
| Preregistration.PreregisteredCounter | foundationdb/src/main/java/io/micronaut/foundationdb/metrics/MicrometerEventKeeper.java:46-84 | a counter with nothing counted and the hand-written description; only the bytes-fetched counter has the base unit `bytes` |
| Preregistration.PreregisteredTimer | foundationdb/src/main/java/io/micronaut/foundationdb/metrics/MicrometerEventKeeper.java:86-89 | a timer with nothing recorded, no base unit and the hand-written description |
| Preregistration.Entry | foundationdb/src/main/java/io/micronaut/foundationdb/metrics/MicrometerEventKeeper.java:46-89 | the event is registered under its hand-written id with a fresh meter, a counter exactly when it is counted |
| Preregistration.Entries | foundationdb/src/main/java/io/micronaut/foundationdb/metrics/MicrometerEventKeeper.java:46-89 | one registration per event, in the given order |
| Preregistration.PreregisterWithThrows | foundationdb/src/main/java/io/micronaut/foundationdb/metrics/MicrometerEventKeeper.java:46-89 | registering fresh counters then fresh timers under disjoint ids throws exactly when a counter id is registered as a timer or a timer id as a counter |
| Preregistration.PreregisterWithSucceeds | foundationdb/src/main/java/io/micronaut/foundationdb/metrics/MicrometerEventKeeper.java:46-89 | without a throw both maps are consistent, their keys are exactly the registered events, the registry gains exactly their ids, and no old meter or total changes |
| Preregistration.EntriesOf | foundationdb/src/main/java/io/micronaut/foundationdb/metrics/MicrometerEventKeeper.java:46-89 | the registrations for distinct events of one kind are fresh, each event once, under ids equal to their generic ids |
| Preregistration.Orders | foundationdb/src/main/java/io/micronaut/foundationdb/metrics/MicrometerEventKeeper.java:46-89 | the constructor registers each of the seven counted events once, and the timed event once |
| Preregistration.ConstructorEntries | foundationdb/src/main/java/io/micronaut/foundationdb/metrics/MicrometerEventKeeper.java:46-89 | the constructor's registrations are fresh, each event once, under generic ids; their events are exactly the counted and the timed events |
| Preregistration.TimerIdIsNoCounterId | foundationdb/src/main/java/io/micronaut/foundationdb/metrics/MicrometerEventKeeper.java:46-89 | the timer's id is none of the counters' ids |
| Preregistration.TimerIds | foundationdb/src/main/java/io/micronaut/foundationdb/metrics/MicrometerEventKeeper.java:86-89 | the timed events have the fetch-time id alone |
| Preregistration.PreregisterThrows | foundationdb/src/main/java/io/micronaut/foundationdb/metrics/MicrometerEventKeeper.java:42-90 | the constructor throws IllegalArgumentException exactly when a counted event's hand-written id is registered as a timer or the fetch-time id as a counter |
| Preregistration.PreregisterSucceeds | foundationdb/src/main/java/io/micronaut/foundationdb/metrics/MicrometerEventKeeper.java:42-90 | without a throw the counter map holds exactly the counted events and the timer map the timed event, both consistent; the registry gains exactly the hand-written ids and no old meter or total changes |
| Preregistration.PreregisterConsistent | foundationdb/src/main/java/io/micronaut/foundationdb/metrics/MicrometerEventKeeper.java:42-90 | the state the constructor leaves is consistent |
| Preregistration.FreshRegistryAccepted | foundationdb/src/main/java/io/micronaut/foundationdb/metrics/MicrometerEventKeeper.java:42-90 | a registry holding none of the hand-written ids lets the constructor succeed |
| Preregistration.PreregisterOnEmpty | foundationdb/src/main/java/io/micronaut/foundationdb/metrics/MicrometerEventKeeper.java:42-90 | on an empty registry the constructor succeeds and every event reads zero |
| Preregistration.CountedEvents | foundationdb/src/main/java/io/micronaut/foundationdb/metrics/MicrometerEventKeeper.java:46-84 | seven distinct events get a counter |
| Preregistration.FetchTimeNotCounted | foundationdb/src/main/java/io/micronaut/foundationdb/metrics/MicrometerEventKeeper.java:86-89 | the fetch-time event has a timer and no counter |
| Preregistration.PreregisteredIdIsGeneric | foundationdb/src/main/java/io/micronaut/foundationdb/metrics/MicrometerEventKeeper.java:46-89 | each hand-written id is the event's generic name with the `event` tag |
| PreregisteredText.JniCallNameLength | foundationdb/src/main/java/io/micronaut/foundationdb/metrics/MicrometerEventKeeper.java:47 | the hand-written JNI-call name has 21 characters |
| PreregisteredText.BytesFetchedNameLength | foundationdb/src/main/java/io/micronaut/foundationdb/metrics/MicrometerEventKeeper.java:53 | the hand-written bytes-fetched name has 26 characters |
| PreregisteredText.RangeQueryDirectBufferHitNameLength | foundationdb/src/main/java/io/micronaut/foundationdb/metrics/MicrometerEventKeeper.java:60 | the hand-written direct-buffer-hit name has 42 characters |
| PreregisteredText.RangeQueryDirectBufferMissNameLength | foundationdb/src/main/java/io/micronaut/foundationdb/metrics/MicrometerEventKeeper.java:66 | the hand-written direct-buffer-miss name has 43 characters |
| PreregisteredText.RangeQueryFetchesNameLength | foundationdb/src/main/java/io/micronaut/foundationdb/metrics/MicrometerEventKeeper.java:71 | the hand-written fetches name has 32 characters |
| PreregisteredText.RangeQueryRecordsFetchedNameLength | foundationdb/src/main/java/io/micronaut/foundationdb/metrics/MicrometerEventKeeper.java:76 | the hand-written records-fetched name has 40 characters |
| PreregisteredText.RangeQueryChunkFailedNameLength | foundationdb/src/main/java/io/micronaut/foundationdb/metrics/MicrometerEventKeeper.java:81 | the hand-written chunk-failed name has 37 characters |
| PreregisteredText.RangeQueryFetchTimeNanosNameLength | foundationdb/src/main/java/io/micronaut/foundationdb/metrics/MicrometerEventKeeper.java:86 | the hand-written fetch-time name has 41 characters |
| PreregisteredText.TimerNameIsNoCounterName | foundationdb/src/main/java/io/micronaut/foundationdb/metrics/MicrometerEventKeeper.java:46-89 | the timer's name is none of the seven counter names |
| KnownEvents.JniCallAlias | foundationdb/src/main/java/io/micronaut/foundationdb/metrics/MicrometerEventKeeper.java:128-130 | an event other than the JNI-call constant can carry the name `JNI_CALL` |
| EventKeeper.MicrometerEventKeeper.constructor | foundationdb/src/main/java/io/micronaut/foundationdb/metrics/MicrometerEventKeeper.java:42-90 | when the constructor does not throw, the fields are what it registers, and the state is consistent |
| EventKeeper.MicrometerEventKeeper.Create | foundationdb/src/main/java/io/micronaut/foundationdb/metrics/MicrometerEventKeeper.java:42-90 | throws the type clash exactly when the constructor's registrations do, and then there is no keeper; otherwise a new consistent keeper whose counters cover exactly the counted events and whose timers cover the timed one |
| EventKeeper.MicrometerEventKeeper.Count | foundationdb/src/main/java/io/micronaut/foundationdb/metrics/MicrometerEventKeeper.java:92-95 | the new registry, counter map and thrown exception are those of `computeIfAbsent` with the generic counter and then `increment`; the state stays consistent and the timers are untouched |
| EventKeeper.MicrometerEventKeeper.TimeNanos | foundationdb/src/main/java/io/micronaut/foundationdb/metrics/MicrometerEventKeeper.java:97-100 | the new registry, timer map and thrown exception are those of `computeIfAbsent` with the generic timer and then `record`; the state stays consistent and the counters are untouched |
| EventKeeper.MicrometerEventKeeper.GetCount | foundationdb/src/main/java/io/micronaut/foundationdb/metrics/MicrometerEventKeeper.java:102-106 | 0 for an event without a counter, otherwise that counter's total |
| EventKeeper.MicrometerEventKeeper.GetTimeNanos | foundationdb/src/main/java/io/micronaut/foundationdb/metrics/MicrometerEventKeeper.java:108-112 | 0 for an event without a timer, otherwise that timer's total |
| EventKeeper.ClashesAfterConstruction | foundationdb/src/main/java/io/micronaut/foundationdb/metrics/MicrometerEventKeeper.java:86-100 | after a successful construction, counting the fetch-time event and timing the JNI-call event both throw the type clash |
| EventKeeper.SharedCounter | foundationdb/src/main/java/io/micronaut/foundationdb/metrics/MicrometerEventKeeper.java:92-95 | an uncounted event with a counted event's generic id shares its counter: counting it adds to the other event's count, and both read the same |
| EventKeeper.JniCallSharesCounter | foundationdb/src/main/java/io/micronaut/foundationdb/metrics/MicrometerEventKeeper.java:92-95 | an event named `JNI_CALL` other than the constant is uncounted and has the JNI-call generic id |

## Left out

- LinuxDownload.Download, MacOsDownload.Download: there is no `catch` around an architecture's steps, so the first exception ends `download()` and the remaining architectures are not fetched (`FirstFailureAborts` in both task modules).
- MacOsDownload.FetchArch: `clean` is not in a `finally` block, so after a failed step the download directory stays (`MacOsDownload.FetchArchFailure`).
- Interaction with the operating system and the network is simplified:
  - Temporary-directory creation takes the platform's unique suffix as an input. Its uniqueness and the `deleteOnExit` deletion at process exit are not modelled; the registration is kept as a ghost set.
  - The network, the child processes and what `xar`/`tar` unpack are oracles (`Host`).
  - Failures of URL parsing, I/O errors while a stream is read, and a missing working directory for `rm` beyond "the command fails" are not modelled.
  - Partial writes are not modelled either: a copy either writes the whole body or nothing.
- NativeLibraries.NativeLibraryInstaller.constructor: `Files.createTempDirectory` can throw `IOException`; here the constructor always succeeds.
- Files.CreateDirectories: never fails. Java throws `FileAlreadyExistsException` when a path element exists as a regular file; that is not modelled.
- Files.Write: never fails. Java's `DirectoryNotEmptyException` (the target is a non-empty directory) and `NoSuchFileException` (the parent is missing) are not modelled. The file system does not keep directories and files apart either: after a write, a path can be both.
- Files.Elements, Files.FileName: `Path.of("")` has one empty name element, and its `getFileName()` is the empty path. Here `""` has no elements and no file name. So `install("")` throws `NullPointerException` here, where Java would resolve the temporary directory itself. The client installer never passes such a name: its resource name always has four non-empty elements.
- ClientInstaller.MapLibraryName: `System.mapLibraryName` is taken to give `lib<name>.so` on Linux and `lib<name>.dylib` on macOS; the JDK's own mapping is not modelled.
- ClientInstaller.Install: the host's OS family and `os.arch` property are parameters. `OperatingSystem.getCurrent()` and `CachedEnvironment` are not modelled.
- MeterNames.ToLower: `Character.toLowerCase` is modelled on ASCII letters only. Other Unicode upper-case letters are kept unchanged.
- EventMetadata.Event: the client's `Events` constants are datatype constructors whose `name()` is spelled as upper-case words joined by `_`. Other events are known by their name alone, so two distinct `Other` event objects with the same name are one key here, while Java's maps key by object identity. `Other("JNI_CALL")` and the constant `JNI_CALL` are still distinct keys.
- Micrometer's internals are modelled only as far as the keeper depends on them:
  - The registry is a map from id (name and tags) to meter, and the keeper holds it as its own field. Other users of the same `MeterRegistry` are seen only through the registry the constructor is given.
  - `register` is modelled by type, not by the Java meter class. Description and base unit are kept with the meter, but only the first registration's are kept.
  - Totals are unbounded integers. Java uses `double` counters and `long` casts, and a timer drops negative durations; neither is modelled. Thread-safety of the concurrent maps and of `computeIfAbsent` is not modelled either.
- EventKeeper.MicrometerEventKeeper.constructor: requires the constructor's registrations to succeed. The case where `register` throws is modelled by `Create`, which returns the exception instead of a keeper.
- Preregistration.PreregisteredName: the hand-written meter names are written as dotted words (`Joined`), not as one literal string. Their lengths are pinned by the `PreregisteredText` length lemmas. The descriptions are the source's literal strings.
- The health indicator, client status, client configuration, client factory and test-container classes are not part of this model.
