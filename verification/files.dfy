/** An abstract file system and the two shell primitives the init script
    uses on it: `mkdir -p` and output redirection `cat > file`. */
module Files {
  import opened Paths

  /** The contents of a text file: its lines, each without its newline. */
  type Contents = seq<string>

  /** The directories that exist and the regular files with their contents.
      Symbolic links, permissions, owners and timestamps are not modelled. */
  datatype FileSystem = FileSystem(dirs: set<Path>, files: map<Path, Contents>)

  /** The shape every real file system has: the root exists, nothing is both a
      directory and a regular file, and every entry sits in an existing directory. */
  ghost predicate Valid(fs: FileSystem) {
    && [] in fs.dirs
    && (forall p :: p in fs.files ==> p !in fs.dirs)
    && (forall p :: p in fs.dirs && p != [] ==> Parent(p) in fs.dirs)
    && (forall p :: p in fs.files ==> p != [] && Parent(p) in fs.dirs)
  }

  /** The result of one shell command: the file system afterwards and whether
      the command exited with status 0. */
  datatype Step = Step(fs: FileSystem, ok: bool)

  /** Some ancestor of `p`, or `p` itself, is a regular file: `mkdir -p p`
      cannot succeed. */
  predicate Obstructed(fs: FileSystem, p: Path) {
    exists i :: 0 <= i <= |p| && p[..i] in fs.files
  }

  /** `mkdir -p p`: creates `p` and every missing ancestor, succeeds silently
      when `p` is already a directory, and fails without creating anything
      when a regular file stands on the way. */
  function MakeDirs(fs: FileSystem, p: Path): (r: Step)
    ensures r.ok <==> !Obstructed(fs, p)
    ensures r.ok ==> r.fs.dirs == fs.dirs + Ancestors(p)
    ensures !r.ok ==> r.fs == fs
    ensures r.fs.files == fs.files
    ensures fs.dirs <= r.fs.dirs <= fs.dirs + Ancestors(p)
  {
    if Obstructed(fs, p) then Step(fs, false)
    else Step(fs.(dirs := fs.dirs + Ancestors(p)), true)
  }

  /** `cat > p` writing `content`: creates or truncates the regular file `p`;
      fails, changing nothing, when `p` is a directory or its parent directory
      does not exist. */
  function WriteFile(fs: FileSystem, p: Path, content: Contents): (r: Step)
    ensures r.ok <==> p != [] && Parent(p) in fs.dirs && p !in fs.dirs
    ensures r.ok ==> p in r.fs.files && r.fs.files[p] == content
    ensures forall q :: q != p ==> (q in r.fs.files <==> q in fs.files)
    ensures forall q :: q != p && q in fs.files ==> r.fs.files[q] == fs.files[q]
    ensures r.fs.dirs == fs.dirs
    ensures !r.ok ==> r.fs == fs
  {
    if p != [] && Parent(p) in fs.dirs && p !in fs.dirs then
      Step(fs.(files := fs.files[p := content]), true)
    else
      Step(fs, false)
  }

  /** In a valid file system every ancestor of a directory is a directory. */
  lemma {:induction false} AncestorsOfDirAreDirs(fs: FileSystem, p: Path, q: Path)
    requires Valid(fs) && p in fs.dirs && q <= p
    ensures q in fs.dirs
    decreases |p|
  {
    if q != p {
      AncestorsOfDirAreDirs(fs, Parent(p), q);
    }
  }

  /** A directory is never obstructed: `mkdir -p` on an existing directory
      succeeds and changes nothing. */
  lemma MakeDirsOnDirectory(fs: FileSystem, p: Path)
    requires Valid(fs) && p in fs.dirs
    ensures MakeDirs(fs, p) == Step(fs, true)
  {
    forall i | 0 <= i <= |p|
      ensures p[..i] in fs.dirs && p[..i] !in fs.files
    {
      AncestorsOfDirAreDirs(fs, p, p[..i]);
    }
    assert fs.dirs + Ancestors(p) == fs.dirs;
  }

  /** `mkdir -p` twice is `mkdir -p` once. */
  lemma MakeDirsIdempotent(fs: FileSystem, p: Path)
    ensures MakeDirs(MakeDirs(fs, p).fs, p) == MakeDirs(fs, p)
  {
  }

  /** `mkdir -p` keeps a file system valid. */
  lemma MakeDirsPreservesValid(fs: FileSystem, p: Path)
    requires Valid(fs)
    ensures Valid(MakeDirs(fs, p).fs)
  {
  }

  /** Writing a file keeps a file system valid. */
  lemma WriteFilePreservesValid(fs: FileSystem, p: Path, content: Contents)
    requires Valid(fs)
    ensures Valid(WriteFile(fs, p, content).fs)
  {
  }
}
