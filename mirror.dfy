/**
 * `ensure_possibly_empty_clone_exists`, the reconciler that makes sure a bare
 * mirror of the remote exists at the clone path: check that the remote
 * answers, then either check the origin of the existing directory or create
 * the repository and add the remote as a fetch mirror. Every failure is a
 * returned message, never an exception; the first failure ends the run.
 */
module Mirror {
  import opened Wrappers
  import opened RubyString
  import opened RemoteUrl
  import opened FileTree
  import opened Git

  datatype ReconcileError =
    | Unreachable(url: string)
    | OriginUnreadable(path: string)
    | Drift(path: string, origin: string)
    | InitFailed(path: string)
    | RemoteAddFailed(path: string, url: string)

  /** The message the reconciler returns for each failure. */
  function Message(e: ReconcileError): string {
    match e
    case Unreachable(url) =>
      url + " is not a valid remote or SSH public key is not allowed to access it."
    case OriginUnreadable(path) =>
      "Unable to run: " + "git --git-dir " + path + " config --get remote.origin.url"
    case Drift(path, origin) =>
      "Directory '" + path + "' already exists, but with a different remote url: " + origin + "."
    case InitFailed(path) =>
      "Unable to run: " + "git init --bare " + path
    case RemoteAddFailed(path, url) =>
      "Unable to run: " + "git --git-dir " + path + " remote add --mirror=fetch origin " + url
  }

  /** The returned value: `nil` on success, the message otherwise. */
  function MessageOf(e: Option<ReconcileError>): Option<string> {
    match e
    case None => None
    case Some(err) => Some(Message(err))
  }

  /** The tree of mirrors afterwards, the commands run in order, and the
      failure, if any. */
  datatype Reconciled = Reconciled(tree: Tree, commands: seq<Command>, error: Option<ReconcileError>)

  /** One run of the reconciler for the mirror at `path` of the remote `url`. */
  function Reconcile(t: Tree, path: string, url: string, g: GitOracle): (r: Reconciled)
    ensures |r.commands| >= 1 && r.commands[0] == LsRemote(url)
    ensures forall i | 0 <= i < |r.commands| :: !r.commands[i].FetchAll?
    ensures SameOutside(t, r.tree, {path})
  {
    var ls := Run(t, LsRemote(url), g);
    if !ls.success then Reconciled(t, [LsRemote(url)], Some(Unreachable(url)))
    else if IsDirectory(t, path) then
      var config := Run(t, ConfigGetOrigin(path), g);
      var commands := [LsRemote(url), ConfigGetOrigin(path)];
      if !config.success then Reconciled(t, commands, Some(OriginUnreadable(path)))
      else if !RemotesEqual(config.output, url) then Reconciled(t, commands, Some(Drift(path, config.output)))
      else Reconciled(t, commands, None)
    else
      var init := Run(t, InitBare(path), g);
      if !init.success then Reconciled(init.tree, [LsRemote(url), InitBare(path)], Some(InitFailed(path)))
      else
        var add := Run(init.tree, AddMirrorOrigin(path, url), g);
        var commands := [LsRemote(url), InitBare(path), AddMirrorOrigin(path, url)];
        if !add.success then Reconciled(add.tree, commands, Some(RemoteAddFailed(path, url)))
        else Reconciled(add.tree, commands, None)
  }

  /** A remote that does not answer ends the run before the clone path is
      looked at: nothing but `ls-remote` runs and the tree is untouched. */
  lemma UnreachableLeavesTreeAlone(t: Tree, path: string, url: string, g: GitOracle)
    requires url !in g.reachable
    ensures Reconcile(t, path, url, g) == Reconciled(t, [LsRemote(url)], Some(Unreachable(url)))
  {
  }

  /** An existing directory is only inspected, never changed; the run fails
      exactly when its origin cannot be read or differs from `url` under
      `two_remotes_equal`, and reports the origin git printed. */
  lemma ExistingDirectoryInspectedOnly(t: Tree, path: string, url: string, g: GitOracle)
    requires url in g.reachable && IsDirectory(t, path)
    ensures var r := Reconcile(t, path, url, g);
      && r.tree == t
      && r.commands == [LsRemote(url), ConfigGetOrigin(path)]
      && (r.error == Some(OriginUnreadable(path)) <==> !HasOrigin(t, path))
      && (r.error.None? <==> HasOrigin(t, path) && RemotesEqual(t[path].origin.value + "\n", url))
      && (r.error.Some? && r.error.value.Drift? ==> r.error.value.origin == t[path].origin.value + "\n")
  {
  }

  /** Where there is no directory, `init --bare` runs, and `remote add` runs
      only when `init` succeeded; a failed `remote add` leaves an initialised
      repository without an origin behind. */
  lemma AbsentDirectoryCreated(t: Tree, path: string, url: string, g: GitOracle)
    requires url in g.reachable && !IsDirectory(t, path)
    ensures var r := Reconcile(t, path, url, g);
      && r.commands[..2] == [LsRemote(url), InitBare(path)]
      && (r.error == Some(InitFailed(path)) <==> path in g.initFails || IsFile(t, path))
      && (r.error == Some(InitFailed(path)) ==> r.tree == t && |r.commands| == 2)
      && (r.error != Some(InitFailed(path)) ==> r.commands == [LsRemote(url), InitBare(path), AddMirrorOrigin(path, url)])
      && (r.error == Some(RemoteAddFailed(path, url)) <==>
            path !in g.initFails && !IsFile(t, path) && path in g.remoteAddFails)
      && (r.error.None? <==> path !in g.initFails && !IsFile(t, path) && path !in g.remoteAddFails)
      && (r.error == Some(RemoteAddFailed(path, url)) ==> r.tree == t[path := BareRepo(None)])
      && (r.error.None? ==> r.tree == t[path := BareRepo(Some(url))])
  {
  }

  /** After a successful run the clone path holds a bare repository whose
      origin is `url` itself, or one `two_remotes_equal` accepts. */
  lemma SuccessLeavesMirror(t: Tree, path: string, url: string, g: GitOracle)
    requires Reconcile(t, path, url, g).error.None?
    ensures var r := Reconcile(t, path, url, g);
      && HasOrigin(r.tree, path)
      && (IsDirectory(t, path) ==> RemotesEqual(r.tree[path].origin.value + "\n", url))
      && (!IsDirectory(t, path) ==> r.tree[path].origin.value == url)
  {
    if IsDirectory(t, path) {
      ExistingDirectoryInspectedOnly(t, path, url, g);
    } else {
      AbsentDirectoryCreated(t, path, url, g);
    }
  }

  /** Reconciling a second time after a success changes nothing and reports
      no error: the new mirror's origin is read back with the line feed git
      prints, which `two_remotes_equal` ignores. The URL must not end in a line
      terminator itself, as a stripped URL does not. */
  lemma {:induction false} ReconcileIdempotent(t: Tree, path: string, url: string, g: GitOracle)
    requires !EndsWithLineTerminator(url)
    requires Reconcile(t, path, url, g).error.None?
    ensures var t1 := Reconcile(t, path, url, g).tree;
      Reconcile(t1, path, url, g) == Reconciled(t1, [LsRemote(url), ConfigGetOrigin(path)], None)
  {
    var t1 := Reconcile(t, path, url, g).tree;
    SuccessLeavesMirror(t, path, url, g);
    if !IsDirectory(t, path) {
      ConfigOutputMatchesStoredUrl(url);
    }
    ExistingDirectoryInspectedOnly(t1, path, url, g);
  }

  /** A repository left without an origin by a failed `remote add` is a
      directory from then on, so the next run, while the remote stays
      reachable, reports that its origin cannot be read; it never adds the
      remote again. */
  lemma {:induction false} HalfCreatedMirrorSticks(t: Tree, path: string, url: string, g: GitOracle)
    requires Reconcile(t, path, url, g).error == Some(RemoteAddFailed(path, url))
    ensures var t1 := Reconcile(t, path, url, g).tree;
      Reconcile(t1, path, url, g).error == Some(OriginUnreadable(path))
  {
    var t1 := Reconcile(t, path, url, g).tree;
    assert url in g.reachable && !IsDirectory(t, path);
    AbsentDirectoryCreated(t, path, url, g);
    assert t1[path] == BareRepo(None);
    ExistingDirectoryInspectedOnly(t1, path, url, g);
  }
}
