/** The read-only view of the filesystem that discovery probes. */
module FileSystems {

  /** A path as the sequence of its segments, root first. */
  type Path = seq<string>

  /** fs::path::parent_path: the path without its last segment. */
  function Parent(p: Path): (q: Path)
    ensures |p| > 0 ==> p == q + [p[|p| - 1]]
    ensures |p| == 0 ==> q == []
  {
    if |p| == 0 then [] else p[..|p| - 1]
  }

  /** fs::path::filename: the last segment, or "" for the empty path. */
  function Filename(p: Path): (name: string)
    ensures |p| > 0 ==> name == p[|p| - 1]
  {
    if |p| == 0 then "" else p[|p| - 1]
  }

  /** A snapshot of the machine: which paths exist, which of them are directories,
      and what a non-recursive listing of a directory returns. */
  datatype FileSystem = FileSystem(
    existing: set<Path>,
    directories: set<Path>,
    children: map<Path, seq<Path>>)

  predicate Exists(fs: FileSystem, p: Path) {
    p in fs.existing
  }

  predicate IsDirectory(fs: FileSystem, p: Path) {
    p in fs.directories
  }

  /** get_files_non_recursive: a path the snapshot cannot list yields no children. */
  function ListChildren(fs: FileSystem, dir: Path): seq<Path> {
    if dir in fs.children then fs.children[dir] else []
  }
}
