/** The file tree the programs read, as an immutable value: each path the programs form
    maps to a directory (with the names it lists, in listing order) or to a regular file
    (with its lines, as PHP's `file()` returns them without their line breaks). */
module FileSystem {
  import opened Base64

  datatype Node = Directory(names: seq<string>) | RegularFile(lines: seq<seq<Byte>>)

  type Tree = map<string, Node>

  /** `file_exists`, `os.path.exists`. */
  predicate Exists(fs: Tree, path: string)
  {
    path in fs
  }

  /** `is_dir`, `os.path.isdir`. */
  predicate IsDir(fs: Tree, path: string)
  {
    path in fs && fs[path].Directory?
  }

  /** `is_file`, `os.path.isfile`. */
  predicate IsFile(fs: Tree, path: string)
  {
    path in fs && fs[path].RegularFile?
  }

  /** The names in a directory, without "." and ".." (`os.listdir`); empty for anything else. */
  function Names(fs: Tree, path: string): seq<string>
  {
    if IsDir(fs, path) then fs[path].names else []
  }
}
