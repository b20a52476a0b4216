/**
 * SSH credentials of a git-remote repository: where its private key lives
 * (`ssh_key_dir`, `ssh_private_key_path`), how the key file is provisioned
 * (`ensure_ssh_private_key_exists`: create the directory and write the key
 * only when no file is there yet, then `chmod 600` in every case) and the
 * `GIT_SSH_COMMAND` that makes git use that key (`git_ssh_command`).
 */
module Credentials {
  import opened Wrappers
  import opened FileTree
  import opened RubyString

  /** Octal 600: read and write for the owner only. */
  const KeyFileMode: nat := 384

  const NoHostKeyChecking: string := "-oStrictHostKeyChecking=no"
  const NoKnownHosts: string := "-oUserKnownHostsFile=/dev/null"

  /** Everything of `git_ssh_command` before the key path: no user ssh
      config, no host-key checking, an empty known-hosts file. */
  const SshOptions: string := "ssh -F /dev/null " + NoHostKeyChecking + " " + NoKnownHosts + " -i "

  /** `ssh_key_dir`: the keys prefix, which already ends in '/', a second '/'
      and the host. */
  function KeyDir(keysPrefix: string, host: string): string {
    keysPrefix + "/" + host
  }

  /** `ssh_private_key_path`: `<identifier>.key` inside the key directory. */
  function KeyPath(keysPrefix: string, host: string, identifier: string): string {
    KeyDir(keysPrefix, host) + "/" + identifier + ".key"
  }

  /** The key directory is the keys prefix, a '/' and the host. */
  lemma KeyDirShape(keysPrefix: string, host: string)
    ensures var d := KeyDir(keysPrefix, host);
      && |d| == |keysPrefix| + 1 + |host|
      && d[..|keysPrefix|] == keysPrefix && d[|keysPrefix|] == '/' && d[|keysPrefix| + 1..] == host
  {
  }

  /** The key path lies inside the key directory and ends in ".key". */
  lemma KeyPathShape(keysPrefix: string, host: string, identifier: string)
    ensures var d, p := KeyDir(keysPrefix, host), KeyPath(keysPrefix, host, identifier);
      && |p| == |d| + 1 + |identifier| + 4 && p[..|d|] == d && p[|d|] == '/'
      && p[|p| - 4..] == ".key"
  {
    var d, p := KeyDir(keysPrefix, host), KeyPath(keysPrefix, host, identifier);
    assert p == d + ("/" + identifier + ".key");
  }

  /** Hosts as `parse` yields them hold no '/', so two repositories share a key
      file only when they have the same host and the same identifier. */
  lemma KeyPathInjective(keysPrefix: string, h1: string, i1: string, h2: string, i2: string)
    requires '/' !in h1 && '/' !in h2
    requires KeyPath(keysPrefix, h1, i1) == KeyPath(keysPrefix, h2, i2)
    ensures h1 == h2 && i1 == i2
  {
    var p1, p2 := KeyPath(keysPrefix, h1, i1), KeyPath(keysPrefix, h2, i2);
    var n := |keysPrefix| + 1;
    var t := p1[n..];
    assert t == h1 + "/" + i1 + ".key" && t == h2 + "/" + i2 + ".key";
    assert t[..|h1|] == h1 && t[..|h2|] == h2;
    SlashIndexIs(t, |h1|);
    SlashIndexIs(t, |h2|);
    assert t[|h1| + 1..] == i1 + ".key";
    assert (i1 + ".key")[..|i1|] == i1 && (i2 + ".key")[..|i2|] == i2;
  }

  /** `git_ssh_command`: the fixed options followed by the key path. */
  function SshCommand(keyPath: string): string {
    SshOptions + keyPath
  }

  /** The command turns host-key checking off, reads no known-hosts file and
      names the key with `-i` just before the key path; different key paths
      give different commands. */
  lemma SshCommandShape(keyPath: string, other: string)
    ensures SshCommand(keyPath)[17..43] == "-oStrictHostKeyChecking=no"
    ensures SshCommand(keyPath)[44..74] == "-oUserKnownHostsFile=/dev/null"
    ensures SshCommand(keyPath)[75..78] == "-i " && SshCommand(keyPath)[78..] == keyPath
    ensures SshCommand(keyPath) == SshCommand(other) ==> keyPath == other
  {
    var c := SshCommand(keyPath);
    var a, b := "ssh -F /dev/null ", " -i ";
    var front := a + NoHostKeyChecking + " ";
    assert |a| == 17 && |NoHostKeyChecking| == 26 && |NoKnownHosts| == 30 && |front| == 44;
    assert c == front + NoKnownHosts + b + keyPath;
    assert c[17..43] == front[17..43] == NoHostKeyChecking;
    assert c[44..74] == NoKnownHosts;
    assert c[75..78] == b[1..];
  }

  // ---------------------------------------------------------------------------
  // Provisioning the key file
  // ---------------------------------------------------------------------------

  /** What the operating system decides: where `mkdir_p`, the write and
      `chmod` fail, and the mode a newly written file gets (from the umask). */
  datatype KeyOracle = KeyOracle(
    mkdirFails: set<string>,
    writeFails: set<string>,
    chmodFails: set<string>,
    createMode: nat)

  /** The two failures `ensure_ssh_private_key_exists` raises. */
  datatype ProvisionError =
    | DirectoryNotCreated(dir: string)
    | KeyNotWritten(path: string)

  /** The message of the raised exception; `cause` is the text of the
      underlying system error. */
  function ProvisionMessage(e: ProvisionError, cause: string): (m: string)
    ensures |m| > |cause| && m[|m| - |cause|..] == cause
  {
    match e
    case DirectoryNotCreated(dir) => "Failed to create directory " + dir + ": " + cause
    case KeyNotWritten(path) => "Failed to write SSH private key to " + path + ": " + cause
  }

  /** The tree after provisioning, and the failure that was raised, if any.
      A failure does not undo what was done before it. */
  datatype Provisioned = Provisioned(tree: Tree, error: Option<ProvisionError>)

  /** `FileUtils.mkdir_p`: succeeds on an existing directory, fails where a
      file is in the way. */
  function MakeDirectories(t: Tree, dir: string, o: KeyOracle): (r: Option<Tree>)
    ensures r.None? <==> dir in o.mkdirFails || IsFile(t, dir)
    ensures r.Some? ==> IsDirectory(r.value, dir) && SameOutside(t, r.value, {dir})
    ensures r.Some? && dir in t ==> r.value == t
  {
    if dir in o.mkdirFails || IsFile(t, dir) then None
    else if dir in t then Some(t)
    else Some(t[dir := Directory])
  }

  /** `File.open(path, "w") { |f| f.write(content) }`: fails where a directory
      is in the way. */
  function WriteFile(t: Tree, path: string, content: string, o: KeyOracle): (r: Option<Tree>)
    ensures r.None? <==> path in o.writeFails || IsDirectory(t, path)
    ensures r.Some? ==> path in r.value && r.value[path] == File(content, o.createMode)
    ensures r.Some? ==> SameOutside(t, r.value, {path})
  {
    if path in o.writeFails || IsDirectory(t, path) then None
    else Some(t[path := File(content, o.createMode)])
  }

  /** `system "chmod", "600", path`: `system` reports failure by its return
      value, which is not looked at, so a failing chmod changes nothing and
      raises nothing. */
  function ChangeMode(t: Tree, path: string, o: KeyOracle): (r: Tree)
    ensures SameOutside(t, r, {path}) && (path in r <==> path in t)
    ensures IsFile(t, path) && path !in o.chmodFails ==> r[path] == File(t[path].content, KeyFileMode)
    ensures !IsFile(t, path) || path in o.chmodFails ==> r == t
    ensures IsFile(r, path) <==> IsFile(t, path)
  {
    if IsFile(t, path) && path !in o.chmodFails then t[path := t[path].(mode := KeyFileMode)] else t
  }

  /** `ensure_ssh_private_key_exists` on the key tree `t`. */
  function Provision(t: Tree, dir: string, path: string, content: string, o: KeyOracle): (r: Provisioned)
    ensures IsFile(t, path) ==> r == Provisioned(ChangeMode(t, path, o), None)
    ensures !IsFile(t, path) && r.error.None? ==> IsFile(r.tree, path) && r.tree[path].content == content
    ensures r.error.None? && path !in o.chmodFails ==> IsFile(r.tree, path) && r.tree[path].mode == KeyFileMode
    ensures r.error == Some(DirectoryNotCreated(dir)) <==> !IsFile(t, path) && (dir in o.mkdirFails || IsFile(t, dir))
    ensures r.error.Some? && r.error.value.DirectoryNotCreated? ==> r.tree == t
    ensures r.error.Some? && r.error.value.KeyNotWritten? ==> r.error.value.path == path && !IsFile(r.tree, path)
    ensures !IsFile(t, path) && MakeDirectories(t, dir, o).Some? ==>
      (r.error == Some(KeyNotWritten(path)) <==> WriteFile(MakeDirectories(t, dir, o).value, path, content, o).None?)
    ensures r.error.None? ==> IsFile(r.tree, path)
    ensures SameOutside(t, r.tree, {dir, path})
  {
    if IsFile(t, path) then Provisioned(ChangeMode(t, path, o), None)
    else
      match MakeDirectories(t, dir, o)
      case None => Provisioned(t, Some(DirectoryNotCreated(dir)))
      case Some(t1) =>
        match WriteFile(t1, path, content, o)
        case None => Provisioned(t1, Some(KeyNotWritten(path)))
        case Some(t2) => Provisioned(ChangeMode(t2, path, o), None)
  }

  /** The key written first stays: once provisioning has succeeded, a later
      call with any other key content keeps the first content. */
  lemma FirstWriteWins(t: Tree, dir: string, path: string, first: string, second: string, o: KeyOracle)
    requires !IsFile(t, path)
    requires Provision(t, dir, path, first, o).error.None?
    ensures var t1 := Provision(t, dir, path, first, o).tree;
      var r := Provision(t1, dir, path, second, o);
      r.error.None? && r.tree[path].content == first
  {
  }

  /** Provisioning again after a success changes nothing, whatever content it
      is handed, so every git command may repeat it. */
  lemma ProvisionIdempotent(t: Tree, dir: string, path: string, c1: string, c2: string, o: KeyOracle)
    requires Provision(t, dir, path, c1, o).error.None?
    ensures var t1 := Provision(t, dir, path, c1, o).tree;
      Provision(t1, dir, path, c2, o) == Provisioned(t1, None)
  {
    var t1 := Provision(t, dir, path, c1, o).tree;
    if path !in o.chmodFails {
      assert t1[path].(mode := KeyFileMode) == t1[path];
      assert t1[path := t1[path]] == t1;
    }
  }
}
