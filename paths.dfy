/** The filesystem as the program sees it through `os.path.isfile`, `os.path.isdir`
    and `os.path.join`: two sets of existing paths and POSIX path joining. */
module Paths {

  datatype FileSystem = FileSystem(files: set<string>, dirs: set<string>)

  /** `os.path.isfile(p)`. */
  predicate IsFile(fs: FileSystem, p: string) {
    p in fs.files
  }

  /** `os.path.isdir(p)`. */
  predicate IsDir(fs: FileSystem, p: string) {
    p in fs.dirs
  }

  /** `os.path.join(a, b)` on POSIX: an absolute `b` replaces `a`, otherwise one
      separator is placed between them unless `a` is empty or already ends with one. */
  function Join(a: string, b: string): string
  {
    if |b| > 0 && b[0] == '/' then b
    else if |a| == 0 || a[|a| - 1] == '/' then a + b
    else a + "/" + b
  }
}
