/**
 * The five git commands the repository model runs, and what each does to the
 * tree of mirrors. Which remotes answer and where a command fails for reasons
 * outside the model (network, permissions, disk) is decided by a `GitOracle`.
 */
module Git {
  import opened Wrappers
  import opened FileTree

  /** One run of git: the environment it was given and its argument vector. */
  datatype Invocation = Invocation(env: map<string, string>, argv: seq<string>)

  datatype Command =
    | LsRemote(url: string)
    | ConfigGetOrigin(gitDir: string)
    | InitBare(path: string)
    | AddMirrorOrigin(gitDir: string, url: string)
    | FetchAll(gitDir: string)

  /** The argument vector, "git" included. */
  function Argv(c: Command): (argv: seq<string>)
    ensures |argv| >= 4 && argv[0] == "git"
    ensures c.FetchAll? <==> |argv| == 5
  {
    match c
    case LsRemote(url) => ["git", "ls-remote", "-h", url]
    case ConfigGetOrigin(dir) => ["git", "--git-dir", dir, "config", "--get", "remote.origin.url"]
    case InitBare(path) => ["git", "init", "--bare", path]
    case AddMirrorOrigin(dir, url) => ["git", "--git-dir", dir, "remote", "add", "--mirror=fetch", "origin", url]
    case FetchAll(dir) => ["git", "--git-dir", dir, "fetch", "--all"]
  }

  /** Only `fetch --all` of the same directory has the argument vector of
      `fetch --all`. */
  lemma ArgvOfFetchAll(c: Command, dir: string)
    requires Argv(c) == Argv(FetchAll(dir))
    ensures c == FetchAll(dir)
  {
    assert |Argv(c)| == 5;
    assert Argv(c)[2] == dir;
  }

  datatype GitOracle = GitOracle(
    reachable: set<string>,
    initFails: set<string>,
    remoteAddFails: set<string>,
    fetchFails: set<string>)

  /** Exit status, standard output and the tree of mirrors afterwards. */
  datatype GitResult = GitResult(success: bool, output: string, tree: Tree)

  predicate HasOrigin(t: Tree, dir: string) {
    dir in t && t[dir].BareRepo? && t[dir].origin.Some?
  }

  /** Running one command. `config --get` prints the value and a line feed;
      `init --bare` fails where a file is in the way and re-initialises an
      existing repository; `remote add` fails when `origin` exists already;
      `fetch --all` needs a repository. Fetched refs are not modelled. */
  function Run(t: Tree, c: Command, g: GitOracle): (r: GitResult)
    ensures !c.InitBare? && !c.AddMirrorOrigin? ==> r.tree == t
  {
    match c
    case LsRemote(url) => GitResult(url in g.reachable, "", t)
    case ConfigGetOrigin(dir) =>
      if HasOrigin(t, dir) then GitResult(true, t[dir].origin.value + "\n", t) else GitResult(false, "", t)
    case InitBare(path) =>
      if path in g.initFails || IsFile(t, path) then GitResult(false, "", t)
      else if path in t && t[path].BareRepo? then GitResult(true, "", t)
      else GitResult(true, "", t[path := BareRepo(None)])
    case AddMirrorOrigin(dir, url) =>
      if dir !in g.remoteAddFails && dir in t && t[dir] == BareRepo(None)
      then GitResult(true, "", t[dir := BareRepo(Some(url))])
      else GitResult(false, "", t)
    case FetchAll(dir) =>
      GitResult(dir in t && t[dir].BareRepo? && dir !in g.fetchFails, "", t)
  }
}
