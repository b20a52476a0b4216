/**
 * The part of the file system the repository model touches: paths mapped to
 * plain files (with their content and permission bits), directories, and
 * bare git repositories (directories git recognises, with or without an
 * `origin` remote).
 */
module FileTree {
  import opened Wrappers

  datatype Entry =
    | File(content: string, mode: nat)
    | Directory
    | BareRepo(origin: Option<string>)

  type Tree = map<string, Entry>

  /** `File.file?`. */
  predicate IsFile(t: Tree, p: string) {
    p in t && t[p].File?
  }

  /** `Dir.exists?`: a directory, git repository or not. */
  predicate IsDirectory(t: Tree, p: string) {
    p in t && !t[p].File?
  }

  /** `u` differs from `t` at most at the paths in `changed`. */
  predicate SameOutside(t: Tree, u: Tree, changed: set<string>) {
    && (forall p | p in t && p !in changed :: p in u && u[p] == t[p])
    && (forall p | p in u && p !in changed :: p in t)
  }
}
