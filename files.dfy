/**
 * The part of `java.nio.file` the modelled code relies on: paths as sequences of
 * name elements, the string form of a path and its parse back (`Path.of`,
 * `toString`, `getFileName`), and a filesystem as a value with the operations
 * `Files.createDirectories`, `Files.copy(..., REPLACE_EXISTING)` and a recursive
 * delete.
 */
module Files {
  import opened Wrappers

  newtype byte = x: int | 0 <= x < 256

  type Bytes = seq<byte>

  /** A path as the sequence of its name elements; an absolute path starts at the root. */
  type Path = seq<string>

  /** A name element: not empty and free of the separator '/'. */
  predicate IsElement(s: string)
  {
    |s| > 0 && '/' !in s
  }

  predicate AllElements(p: Path)
  {
    forall i :: 0 <= i < |p| ==> IsElement(p[i])
  }

  /** `Path.of(first, more...).toString()` of a relative path: the elements joined by '/'. */
  function Join(p: Path): string
  {
    if |p| == 0 then "" else if |p| == 1 then p[0] else p[0] + "/" + Join(p[1..])
  }

  /** `toString()` of an absolute path. */
  function Render(p: Path): string
  {
    "/" + Join(p)
  }

  /**
   * The name elements of `Path.of(s)`, where `current` is the element read so far:
   * the string is cut at every '/', and empty pieces (from a leading, trailing or
   * doubled separator) are dropped, as Unix path normalisation does.
   */
  function ElementsFrom(s: string, current: string): (r: seq<string>)
    requires '/' !in current
    ensures AllElements(r)
    decreases |s|
  {
    if s == [] then
      (if current == "" then [] else [current])
    else if s[0] == '/' then
      (if current == "" then [] else [current]) + ElementsFrom(s[1..], "")
    else
      ElementsFrom(s[1..], current + [s[0]])
  }

  function Elements(s: string): (r: seq<string>)
    ensures AllElements(r)
  {
    ElementsFrom(s, "")
  }

  /** `Path.of(s).getFileName()`: the last name element, None when there is none. */
  function FileName(s: string): (r: Option<string>)
    ensures r.Some? ==> IsElement(r.value)
    ensures r.None? <==> Elements(s) == []
  {
    var e := Elements(s);
    if |e| == 0 then None else Some(e[|e| - 1])
  }

  lemma {:induction false} ElementsFromAppend(segment: string, rest: string, current: string)
    requires '/' !in segment && '/' !in current
    ensures ElementsFrom(segment + rest, current) == ElementsFrom(rest, current + segment)
    decreases |segment|
  {
    if segment == [] {
      assert segment + rest == rest;
      assert current + segment == current;
    } else {
      assert (segment + rest)[0] == segment[0];
      assert (segment + rest)[1..] == segment[1..] + rest;
      ElementsFromAppend(segment[1..], rest, current + [segment[0]]);
      assert current + [segment[0]] + segment[1..] == current + segment;
    }
  }

  /** Parsing a joined relative path gives back its elements. */
  lemma {:induction false} ElementsOfJoin(p: Path)
    requires AllElements(p)
    ensures Elements(Join(p)) == p
  {
    if |p| == 1 {
      ElementsFromAppend(p[0], "", "");
      assert p[0] + "" == p[0];
      assert "" + p[0] == p[0];
    } else if |p| > 1 {
      var rest := Join(p[1..]);
      assert Join(p) == p[0] + ("/" + rest);
      ElementsFromAppend(p[0], "/" + rest, "");
      assert "" + p[0] == p[0];
      assert ("/" + rest)[1..] == rest;
      ElementsOfJoin(p[1..]);
      assert p == [p[0]] + p[1..];
    }
  }

  /** Parsing the string form of an absolute path gives back its elements. */
  lemma ElementsOfRender(p: Path)
    requires AllElements(p)
    ensures Elements(Render(p)) == p
  {
    assert ("/" + Join(p))[1..] == Join(p);
    ElementsOfJoin(p);
  }

  lemma FileNameOfJoin(p: Path)
    requires AllElements(p) && |p| > 0
    ensures FileName(Join(p)) == Some(p[|p| - 1])
  {
    ElementsOfJoin(p);
  }

  lemma FileNameOfRender(p: Path)
    requires AllElements(p) && |p| > 0
    ensures FileName(Render(p)) == Some(p[|p| - 1])
  {
    ElementsOfRender(p);
  }

  /** `p` is `dir` itself or lies below it. */
  predicate IsUnder(p: Path, dir: Path)
  {
    |dir| <= |p| && p[..|dir|] == dir
  }

  /** The filesystem: the set of existing directories and the regular files with their bytes. */
  datatype FileSystem = FileSystem(dirs: set<Path>, files: map<Path, Bytes>)

  const EmptyFileSystem: FileSystem := FileSystem({}, map[])

  /** The directories that `Files.createDirectories(p)` makes sure exist: `p` and its ancestors below the root. */
  function Ancestors(p: Path): set<Path>
  {
    set k | 0 < k <= |p| :: p[..k]
  }

  /** `Files.createDirectories(p)`. */
  function CreateDirectories(fs: FileSystem, p: Path): (r: FileSystem)
    ensures r.files == fs.files
    ensures forall d :: d in r.dirs <==> d in fs.dirs || (d != [] && IsUnder(p, d))
  {
    assert forall d :: d != [] && IsUnder(p, d) ==> d == p[..|d|] && d in Ancestors(p);
    fs.(dirs := fs.dirs + Ancestors(p))
  }

  /** `Files.copy(in, p, REPLACE_EXISTING)`: `p` holds `content`, whatever it held before. */
  function Write(fs: FileSystem, p: Path, content: Bytes): (r: FileSystem)
    ensures r.dirs == fs.dirs
    ensures p in r.files && r.files[p] == content
    ensures forall q :: q != p ==> (q in r.files <==> q in fs.files)
    ensures forall q :: q != p && q in fs.files ==> r.files[q] == fs.files[q]
  {
    fs.(files := fs.files[p := content])
  }

  /** `rm -rf p`: the directory `p` and everything below it are gone. */
  function RemoveTree(fs: FileSystem, p: Path): (r: FileSystem)
    ensures forall d :: d in r.dirs <==> d in fs.dirs && !IsUnder(d, p)
    ensures forall q :: q in r.files <==> q in fs.files && !IsUnder(q, p)
    ensures forall q :: q in r.files ==> r.files[q] == fs.files[q]
  {
    FileSystem(set d | d in fs.dirs && !IsUnder(d, p),
               map q | q in fs.files && !IsUnder(q, p) :: fs.files[q])
  }

  /** The entries `tree`, given relative to `dir`, placed below `dir`; files of `tree` replace existing ones. */
  function Merge(fs: FileSystem, dir: Path, tree: FileSystem): (r: FileSystem)
    ensures forall d :: d in r.dirs <==> d in fs.dirs || (IsUnder(d, dir) && d[|dir|..] in tree.dirs)
    ensures forall q :: q in r.files <==> q in fs.files || (IsUnder(q, dir) && q[|dir|..] in tree.files)
    ensures forall q :: q in r.files && IsUnder(q, dir) && q[|dir|..] in tree.files ==> r.files[q] == tree.files[q[|dir|..]]
    ensures forall q :: q in fs.files && !(IsUnder(q, dir) && q[|dir|..] in tree.files) ==> r.files[q] == fs.files[q]
  {
    assert forall q :: (dir + q)[|dir|..] == q;
    var placed := map q | q in tree.files :: dir + q := tree.files[q];
    assert forall q :: IsUnder(q, dir) ==> q == dir + q[|dir|..];
    FileSystem(fs.dirs + (set d | d in tree.dirs :: dir + d), fs.files + placed)
  }
}
