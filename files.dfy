/** File system paths as `pathlib` builds and compares them, and the part of
    the file system the compiler looks at: which paths exist, what the recursive
    search for `easysam.yaml` files reports under a directory, and the parsed content
    of each YAML file that can be read. */
module Files {
  import opened Outcomes
  import opened Text
  import opened Values

  /** A path as `pathlib` normalises it: absolute or not, and its segments with
      empty and `.` segments dropped; `..` is kept, as `pathlib` keeps it. */
  datatype Path = Path(absolute: bool, parts: seq<string>)

  /** The segments a path string contributes. */
  function Segments(s: string): (r: seq<string>)
    ensures forall i :: 0 <= i < |r| ==> r[i] != "" && r[i] != "." && '/' !in r[i]
  {
    Clean(Split(s, '/'))
  }

  function Clean(pieces: seq<string>): (r: seq<string>)
    requires forall i :: 0 <= i < |pieces| ==> '/' !in pieces[i]
    ensures forall i :: 0 <= i < |r| ==> r[i] != "" && r[i] != "." && '/' !in r[i]
  {
    if |pieces| == 0 then []
    else if pieces[0] == "" || pieces[0] == "." then Clean(pieces[1..])
    else [pieces[0]] + Clean(pieces[1..])
  }

  /** `Path(base, s)`: an absolute `s` replaces the base, a relative one extends it. */
  function Join(base: Path, s: string): (r: Path)
    ensures |s| > 0 && s[0] == '/' ==> r == Path(true, Segments(s))
    ensures !(|s| > 0 && s[0] == '/') ==> r == Path(base.absolute, base.parts + Segments(s))
  {
    if |s| > 0 && s[0] == '/' then Path(true, Segments(s)) else Path(base.absolute, base.parts + Segments(s))
  }

  /** `p.parent`: the last segment dropped; the root and `.` are their own parents. */
  function Parent(p: Path): (r: Path)
    ensures r.absolute == p.absolute
    ensures |p.parts| > 0 ==> r.parts + [p.parts[|p.parts| - 1]] == p.parts
    ensures |p.parts| == 0 ==> r == p
  {
    if |p.parts| == 0 then p else Path(p.absolute, p.parts[..|p.parts| - 1])
  }

  /** `p.relative_to(base)`: the remaining segments when `base` is a leading part
      of `p`; otherwise `pathlib` raises ValueError. */
  function RelativeTo(p: Path, base: Path): (r: Option<seq<string>>)
    ensures r.Some? <==> p.absolute == base.absolute && base.parts <= p.parts
    ensures r.Some? ==> base.parts + r.value == p.parts
  {
    if p.absolute == base.absolute && base.parts <= p.parts then Some(p.parts[|base.parts|..]) else None
  }

  /** `as_posix()` of a relative path: `.` when it has no segments, otherwise
      the segments joined by `/`, which splitting at `/` gives back. */
  function AsPosix(rel: seq<string>): (r: string)
    ensures |rel| == 0 ==> r == "."
    ensures |rel| > 0 && (forall i :: 0 <= i < |rel| ==> '/' !in rel[i]) ==> Split(r, '/') == rel
  {
    if |rel| == 0 then "."
    else
      assert (forall i :: 0 <= i < |rel| ==> '/' !in rel[i]) ==> Split(Text.Join(rel, '/'), '/') == rel by {
        if forall i :: 0 <= i < |rel| ==> '/' !in rel[i] {
          SplitJoin(rel, '/');
        }
      }
      Text.Join(rel, '/')
  }

  /** What the compiler can learn from the file system. */
  datatype FileSystem = FileSystem(
    existing: set<Path>,
    found: map<Path, seq<Path>>,
    documents: map<Path, Value>)

  predicate Exists(fs: FileSystem, p: Path)
  {
    p in fs.existing
  }

  /** The recursive glob for `easysam.yaml` below `dir`, in the order the operating system lists them. */
  function Glob(fs: FileSystem, dir: Path): seq<Path>
  {
    if dir in fs.found then fs.found[dir] else []
  }

  /** The parsed YAML document at `p`; nothing when it cannot be read or parsed. */
  function Read(fs: FileSystem, p: Path): Option<Value>
  {
    if p in fs.documents then Some(fs.documents[p]) else None
  }
}
