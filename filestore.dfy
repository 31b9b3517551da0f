/**
 * The abstract filesystem under the tool: regular files with their bytes,
 * and directories with their entries in the order `readdirSync` returns
 * them.  `existsSync` is true of both kinds of path.
 */
module FileStore {
  import opened Wrappers
  import opened Layout

  newtype byte = b: int | 0 <= b < 256

  type Bytes = seq<byte>

  datatype Disk = Disk(files: map<Path, Bytes>, dirs: map<Path, seq<string>>) {

    /** `fs.existsSync(p)`. */
    predicate Exists(p: Path) {
      p in files || p in dirs
    }

    /** No path is both a file and a directory, and every directory entry names something that exists. */
    ghost predicate Valid() {
      && files.Keys !! dirs.Keys
      && forall d, e :: d in dirs && e in dirs[d] ==> Exists(Join(d, e))
    }
  }

  /**
   * `fs.copyFileSync(src, dst)`: the whole of `src` replaces `dst`.  It
   * fails when `src` is not a regular file, when `dst` is a directory, or
   * when the environment refuses the write (`denied`: permissions, a full
   * disk, a missing parent directory), and then nothing changes.
   */
  function Copy(disk: Disk, src: Path, dst: Path, denied: bool): (r: Option<Disk>)
    ensures r.Some? <==> !denied && src in disk.files && dst !in disk.dirs
    ensures r.Some? ==> && r.value.dirs == disk.dirs
                        && r.value.files.Keys == disk.files.Keys + {dst}
                        && r.value.files[dst] == disk.files[src]
                        && forall p :: p in disk.files && p != dst ==> r.value.files[p] == disk.files[p]
  {
    if denied || src !in disk.files || dst in disk.dirs then None
    else Some(disk.(files := disk.files[dst := disk.files[src]]))
  }

  /** A successful copy keeps the filesystem well formed. */
  lemma CopyKeepsValid(disk: Disk, src: Path, dst: Path, denied: bool)
    requires disk.Valid()
    requires Copy(disk, src, dst, denied).Some?
    ensures Copy(disk, src, dst, denied).value.Valid()
  {
    var after := Copy(disk, src, dst, denied).value;
    forall d, e | d in after.dirs && e in after.dirs[d] ensures after.Exists(Join(d, e)) {
      assert disk.Exists(Join(d, e));
    }
  }
}
