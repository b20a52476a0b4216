/**
 * Repository::GitRemote: a repository record that keeps a local bare mirror
 * of a remote git repository. The record's fields (`identifier`, `url`, which
 * is the clone path, the `extra_info` hash, the validation errors and the
 * per-request fetch flag) are updated in place; the key files, the tree of
 * mirrors and the git commands run are part of the object's state here so
 * that each operation can say what it does to them.
 */
module Repository {
  import opened Wrappers
  import opened RubyString
  import opened RemoteUrl
  import opened FileTree
  import opened Credentials
  import opened Git
  import opened Mirror

  /** The `extra_info` hash: the clone URL and the SSH key pair, each
      possibly missing. */
  datatype ExtraInfo = ExtraInfo(cloneUrl: Option<string>, sshPublicKey: Option<string>, sshPrivateKey: Option<string>)

  /** What the operations raise: a method called on `nil` (a missing clone URL
      or `extra_info`, or a URL `parse` cannot split), or a failure to set up
      the private key file. */
  datatype Exception =
    | NoMethodError
    | KeySetupFailed(error: ProvisionError)

  datatype Outcome<T> = Normal(value: T) | Raised(exception: Exception)

  /** Everything outside the model that decides how a command ends. */
  datatype World = World(git: GitOracle, os: KeyOracle)

  /** `extra_clone_url`. */
  function CloneUrlOf(e: Option<ExtraInfo>): Option<string> {
    if e.None? then None else e.value.cloneUrl
  }

  /** What `file.write(ssh_private_key)` writes: `nil` writes nothing. */
  function KeyContentOf(e: Option<ExtraInfo>): string {
    if e.Some? && e.value.sshPrivateKey.Some? then e.value.sshPrivateKey.value else ""
  }

  /** The hash with its clone URL replaced, as `strip!` does in place. */
  function WithCloneUrl(e: Option<ExtraInfo>, u: string): (r: Option<ExtraInfo>)
    ensures e.Some? ==> CloneUrlOf(r) == Some(u)
    ensures KeyContentOf(r) == KeyContentOf(e)
    ensures CloneUrlOf(e) == Some(u) ==> r == e
  {
    match e
    case None => None
    case Some(info) => Some(info.(cloneUrl := Some(u)))
  }

  // ---------------------------------------------------------------------------
  // git_env
  // ---------------------------------------------------------------------------

  /** The clone URL once `clone_host` has stripped it: every operation asks
      for the host of an SSH URL before it runs git. */
  function Settle(u: string): (s: string)
    ensures CloneProtocolSsh(u) ==> s == Strip(u)
    ensures !CloneProtocolSsh(u) ==> s == u
    ensures Strip(s) == Strip(u)
  {
    StripIdempotent(u);
    if CloneProtocolSsh(u) then Strip(u) else u
  }

  lemma SettleIdempotent(u: string)
    ensures Settle(Settle(u)) == Settle(u)
  {
    StripIdempotent(u);
  }

  /** The clone URL, the key tree and the environment after `git_env`. */
  datatype EnvSetup = EnvSetup(cloneUrl: string, keys: Tree, env: Outcome<map<string, string>>)

  function SshEnv(keyPath: string): map<string, string> {
    map["GIT_SSH_COMMAND" := SshCommand(keyPath)]
  }

  /** `git_env` for the clone URL `u`: nothing for HTTP; for SSH, the key file
      is provisioned (which strips the URL through `clone_host`) and git is
      told to use it. */
  function GitEnvFor(u: string, keys: Tree, keysPrefix: string, identifier: string, content: string, o: KeyOracle)
    : (r: EnvSetup)
    ensures !CloneProtocolSsh(u) ==> r == EnvSetup(u, keys, Normal(map[]))
    ensures r.cloneUrl == Settle(u)
    ensures CloneProtocolSsh(u) && r.env.Normal? ==> ParseStripped(Strip(u)).Some?
    ensures CloneProtocolSsh(u) && r.env.Normal? ==>
      var path := KeyPath(keysPrefix, ParseStripped(Strip(u)).value.host, identifier);
      && r.env.value == SshEnv(path)
      && IsFile(r.keys, path)
      && (path !in o.chmodFails ==> r.keys[path].mode == KeyFileMode)
  {
    if !CloneProtocolSsh(u) then EnvSetup(u, keys, Normal(map[]))
    else
      var s := Strip(u);
      match ParseStripped(s)
      case None => EnvSetup(s, keys, Raised(NoMethodError))
      case Some(remote) =>
        var path := KeyPath(keysPrefix, remote.host, identifier);
        var prov := Provision(keys, KeyDir(keysPrefix, remote.host), path, content, o);
        match prov.error
        case Some(e) => EnvSetup(s, prov.tree, Raised(KeySetupFailed(e)))
        case None => EnvSetup(s, prov.tree, Normal(SshEnv(path)))
  }

  /** Once the URL is settled, asking for the environment again gives the same
      environment and changes nothing: the key file is already in place. */
  lemma GitEnvRepeats(u: string, keys: Tree, keysPrefix: string, identifier: string, content: string, o: KeyOracle)
    requires Settle(u) == u
    requires GitEnvFor(u, keys, keysPrefix, identifier, content, o).env.Normal?
    ensures var e := GitEnvFor(u, keys, keysPrefix, identifier, content, o);
      GitEnvFor(e.cloneUrl, e.keys, keysPrefix, identifier, content, o) == e
  {
    if CloneProtocolSsh(u) {
      var remote := ParseStripped(Strip(u)).value;
      var dir, path := KeyDir(keysPrefix, remote.host), KeyPath(keysPrefix, remote.host, identifier);
      var prov := Provision(keys, dir, path, content, o);
      GitEnvSshProvisioned(u, keys, keysPrefix, identifier, content, o, remote);
      ProvisionIdempotent(keys, dir, path, content, content, o);
      GitEnvSshProvisioned(u, prov.tree, keysPrefix, identifier, content, o, remote);
    }
  }

  /** `git_env` for an SSH URL whose key provisioning succeeds. */
  lemma GitEnvSshProvisioned(u: string, keys: Tree, keysPrefix: string, identifier: string, content: string, o: KeyOracle, remote: Remote)
    requires CloneProtocolSsh(u) && ParseStripped(Strip(u)) == Some(remote)
    requires Provision(keys, KeyDir(keysPrefix, remote.host), KeyPath(keysPrefix, remote.host, identifier), content, o).error.None?
    ensures var path := KeyPath(keysPrefix, remote.host, identifier);
      GitEnvFor(u, keys, keysPrefix, identifier, content, o)
      == EnvSetup(Strip(u), Provision(keys, KeyDir(keysPrefix, remote.host), path, content, o).tree, Normal(SshEnv(path)))
  {
  }

  // ---------------------------------------------------------------------------
  // ensure_possibly_empty_clone_exists, as one step
  // ---------------------------------------------------------------------------

  /** The invocations of `commands`, all run with `env`. */
  function Logged(env: map<string, string>, commands: seq<Command>): (log: seq<Invocation>)
    ensures |log| == |commands|
    decreases |commands|
  {
    if commands == [] then [] else [Invocation(env, Argv(commands[0]))] + Logged(env, commands[1..])
  }

  /** Whether an invocation is `git --git-dir <dir> fetch --all`. */
  predicate IsFetchAll(inv: Invocation) {
    |inv.argv| == 5 && inv.argv[3] == "fetch" && inv.argv[4] == "--all"
  }

  /** How many times `fetch --all` was run. */
  function FetchCount(log: seq<Invocation>): (n: nat)
    ensures n <= |log|
  {
    if log == [] then 0 else (if IsFetchAll(log[0]) then 1 else 0) + FetchCount(log[1..])
  }

  lemma {:induction false} FetchCountAppend(a: seq<Invocation>, b: seq<Invocation>)
    ensures FetchCount(a + b) == FetchCount(a) + FetchCount(b)
    decreases |a|
  {
    if a == [] {
      assert a + b == b;
    } else {
      assert (a + b)[1..] == a[1..] + b;
      FetchCountAppend(a[1..], b);
    }
  }

  /** The reconciler never fetches: its commands add nothing to the count. */
  lemma {:induction false} LoggedFetchesNothing(env: map<string, string>, commands: seq<Command>)
    requires forall i | 0 <= i < |commands| :: !commands[i].FetchAll?
    ensures FetchCount(Logged(env, commands)) == 0
    decreases |commands|
  {
    if commands != [] {
      LoggedFetchesNothing(env, commands[1..]);
      assert |Argv(commands[0])| != 5;
    }
  }

  /** What one reconciliation does: the clone URL it leaves, the key tree, the
      tree of mirrors, the environment the commands ran with, the commands run
      and the result. */
  datatype Effect = Effect(
    cloneUrl: string,
    keys: Tree,
    clones: Tree,
    env: map<string, string>,
    log: seq<Invocation>,
    result: Outcome<Option<string>>)

  /** `ensure_possibly_empty_clone_exists` for the clone URL `u` and the clone
      path `path`: the URL is settled (for SSH, `add_known_host(clone_host)`
      parses it), then the rest runs on the settled URL. */
  function EnsureEffect(u: string, keys: Tree, clones: Tree, path: string, keysPrefix: string, identifier: string,
                        content: string, w: World): (eff: Effect)
    ensures eff.cloneUrl == Settle(u)
    ensures eff.result.Raised? ==> eff.clones == clones && eff.log == []
    ensures FetchCount(eff.log) == 0
  {
    if CloneProtocolSsh(u) && ParseStripped(Strip(u)).None? then Effect(Strip(u), keys, clones, map[], [], Raised(NoMethodError))
    else
      SettleIdempotent(u);
      SettledEffect(Settle(u), keys, clones, path, keysPrefix, identifier, content, w)
  }

  /** The run on a settled clone URL: the environment is set up by the first
      git command, and the reconciler runs every command with it. */
  function SettledEffect(u: string, keys: Tree, clones: Tree, path: string, keysPrefix: string, identifier: string,
                         content: string, w: World): (eff: Effect)
    ensures eff.cloneUrl == Settle(u)
    ensures eff.result.Raised? ==> eff.clones == clones && eff.log == []
    ensures FetchCount(eff.log) == 0
  {
    var e := GitEnvFor(u, keys, keysPrefix, identifier, content, w.os);
    match e.env
    case Raised(x) => Effect(e.cloneUrl, e.keys, clones, map[], [], Raised(x))
    case Normal(env) =>
      var rec := Reconcile(clones, path, u, w.git);
      LoggedFetchesNothing(env, rec.commands);
      Effect(e.cloneUrl, e.keys, rec.tree, env, Logged(env, rec.commands), Normal(MessageOf(rec.error)))
  }

  /** `fetch` after its reconciliation `eff`: unless the reconciliation
      raised, `fetch --all` runs with the same environment, whatever the
      reconciler returned. */
  function FetchLog(eff: Effect, path: string): (log: seq<Invocation>)
    ensures eff.result.Raised? ==> log == eff.log
    ensures eff.result.Normal? ==>
      (&& |log| == |eff.log| + 1 && log[..|eff.log|] == eff.log
       && log[|eff.log|] == Invocation(eff.env, ["git", "--git-dir", path, "fetch", "--all"]))
  {
    if eff.result.Raised? then eff.log else eff.log + [Invocation(eff.env, Argv(FetchAll(path)))]
  }

  /** A log without `fetch --all` followed by one `fetch` has at most the one
      `fetch --all` of that `fetch`. */
  lemma FetchLogCount(eff: Effect, path: string)
    requires FetchCount(eff.log) == 0
    ensures FetchCount(FetchLog(eff, path)) == if eff.result.Normal? then 1 else 0
  {
    if eff.result.Normal? {
      var inv := Invocation(eff.env, Argv(FetchAll(path)));
      FetchCountAppend(eff.log, [inv]);
      assert [inv][1..] == [];
    }
  }

  /** So one `fetch` runs `fetch --all` exactly once when its reconciliation
      does not raise, and not at all otherwise. */
  lemma FetchRunsFetchAllOnce(u: string, keys: Tree, clones: Tree, path: string, keysPrefix: string,
                              identifier: string, content: string, w: World)
    ensures var eff := EnsureEffect(u, keys, clones, path, keysPrefix, identifier, content, w);
      FetchCount(FetchLog(eff, path)) == if eff.result.Normal? then 1 else 0
  {
    FetchLogCount(EnsureEffect(u, keys, clones, path, keysPrefix, identifier, content, w), path);
  }

  // ---------------------------------------------------------------------------
  // The record's methods, one step each
  // ---------------------------------------------------------------------------

  /** The part of the record that running git changes: the `extra_info` hash
      (whose clone URL `strip!` rewrites), the key files, the mirrors and the
      commands run. */
  datatype Io = Io(extraInfo: Option<ExtraInfo>, keys: Tree, clones: Tree, gitLog: seq<Invocation>)

  /** The hash, the key files and the result after a key-handling method. */
  datatype Keyed<T> = Keyed(extraInfo: Option<ExtraInfo>, keys: Tree, result: Outcome<T>)

  /** `clone_host`: the host of the clone URL, which `parse` strips in place. */
  function CloneHostStep(e: Option<ExtraInfo>): (r: (Option<ExtraInfo>, Outcome<string>))
    ensures CloneUrlOf(e).None? ==> r == (e, Raised(NoMethodError))
    ensures CloneUrlOf(e).Some? ==> CloneUrlOf(r.0) == Some(Strip(CloneUrlOf(e).value))
    ensures r.1.Normal? ==> ParseStripped(CloneUrlOf(r.0).value).Some? && r.1.value == ParseStripped(CloneUrlOf(r.0).value).value.host
  {
    match CloneUrlOf(e)
    case None => (e, Raised(NoMethodError))
    case Some(u) =>
      var s := Strip(u);
      (WithCloneUrl(e, s), match ParseStripped(s) case None => Raised(NoMethodError) case Some(remote) => Normal(remote.host))
  }

  /** `ensure_ssh_private_key_exists`. */
  function KeyStep(e: Option<ExtraInfo>, keys: Tree, keysPrefix: string, identifier: string, o: KeyOracle): Keyed<()> {
    var (e1, host) := CloneHostStep(e);
    match host
    case Raised(x) => Keyed(e1, keys, Raised(x))
    case Normal(h) =>
      var prov := Provision(keys, KeyDir(keysPrefix, h), KeyPath(keysPrefix, h, identifier), KeyContentOf(e), o);
      Keyed(e1, prov.tree, if prov.error.Some? then Raised(KeySetupFailed(prov.error.value)) else Normal(()))
  }

  /** `git_ssh_command`. */
  function SshCommandStep(e: Option<ExtraInfo>, keys: Tree, keysPrefix: string, identifier: string, o: KeyOracle)
    : Keyed<string>
  {
    var k := KeyStep(e, keys, keysPrefix, identifier, o);
    match k.result
    case Raised(x) => Keyed(k.extraInfo, k.keys, Raised(x))
    case Normal(_) =>
      var (e1, host) := CloneHostStep(k.extraInfo);
      Keyed(e1, k.keys, match host
        case Raised(x) => Raised(x)
        case Normal(h) => Normal(SshCommand(KeyPath(keysPrefix, h, identifier))))
  }

  /** `git_env`. */
  function EnvStep(e: Option<ExtraInfo>, keys: Tree, keysPrefix: string, identifier: string, o: KeyOracle)
    : Keyed<map<string, string>>
  {
    match CloneUrlOf(e)
    case None => Keyed(e, keys, Raised(NoMethodError))
    case Some(u) =>
      if !CloneProtocolSsh(u) then Keyed(e, keys, Normal(map[]))
      else
        var k := SshCommandStep(e, keys, keysPrefix, identifier, o);
        Keyed(k.extraInfo, k.keys, match k.result
          case Raised(x) => Raised(x)
          case Normal(command) => Normal(map["GIT_SSH_COMMAND" := command]))
  }

  /** `git_env` as specified: `NoMethodError` without a clone URL, otherwise
      `GitEnvFor`. */
  function EnvOf(e: Option<ExtraInfo>, keys: Tree, keysPrefix: string, identifier: string, o: KeyOracle)
    : Keyed<map<string, string>>
  {
    match CloneUrlOf(e)
    case None => Keyed(e, keys, Raised(NoMethodError))
    case Some(u) =>
      var g := GitEnvFor(u, keys, keysPrefix, identifier, KeyContentOf(e), o);
      Keyed(WithCloneUrl(e, g.cloneUrl), g.keys, g.env)
  }

  /** `execute_git_command` and `capture_git_command`: the environment of
      `git_env` (as `GitEnvFor` states it, which `EnvStepIsGitEnvFor` shows
      the source's own sequence of calls computes), then git runs with it. */
  function RunStep(io: Io, keysPrefix: string, identifier: string, c: Command, w: World): (Io, Outcome<GitResult>) {
    match CloneUrlOf(io.extraInfo)
    case None => (io, Raised(NoMethodError))
    case Some(u) =>
      var g := GitEnvFor(u, io.keys, keysPrefix, identifier, KeyContentOf(io.extraInfo), w.os);
      var io1 := io.(extraInfo := WithCloneUrl(io.extraInfo, g.cloneUrl), keys := g.keys);
      match g.env
      case Raised(x) => (io1, Raised(x))
      case Normal(env) =>
        var res := Run(io.clones, c, w.git);
        (io1.(clones := res.tree, gitLog := io.gitLog + [Invocation(env, Argv(c))]), Normal(res))
  }

  /** `add_known_host(clone_host) if clone_protocol_ssh?`; `add_known_host`
      itself does nothing. */
  function KnownHostStep(e: Option<ExtraInfo>): (r: (Option<ExtraInfo>, Outcome<()>))
    ensures CloneUrlOf(e).None? ==> r.1.Raised?
    ensures CloneUrlOf(e).Some? ==> CloneUrlOf(r.0).Some?
  {
    match CloneUrlOf(e)
    case None => (e, Raised(NoMethodError))
    case Some(u) =>
      if !CloneProtocolSsh(u) then (e, Normal(()))
      else
        var (e1, host) := CloneHostStep(e);
        (e1, if host.Raised? then Raised(host.exception) else Normal(()))
  }

  /** The part of `ensure_possibly_empty_clone_exists` after `ls-remote`
      succeeded, for the clone path `path` and the clone URL `u`. */
  function LocalStep(io: Io, path: string, u: string, keysPrefix: string, identifier: string, w: World)
    : (Io, Outcome<Option<string>>)
  {
    if IsDirectory(io.clones, path) then
      var (io1, config) := RunStep(io, keysPrefix, identifier, ConfigGetOrigin(path), w);
      (io1, match config
        case Raised(x) => Raised(x)
        case Normal(res) =>
          if !res.success then Normal(Some(Message(OriginUnreadable(path))))
          else if !RemotesEqual(res.output, u) then Normal(Some(Message(Drift(path, res.output))))
          else Normal(None))
    else
      var (io1, init) := RunStep(io, keysPrefix, identifier, InitBare(path), w);
      match init
      case Raised(x) => (io1, Raised(x))
      case Normal(ires) =>
        if !ires.success then (io1, Normal(Some(Message(InitFailed(path)))))
        else
          var (io2, add) := RunStep(io1, keysPrefix, identifier, AddMirrorOrigin(path, u), w);
          (io2, match add
            case Raised(x) => Raised(x)
            case Normal(ares) => if !ares.success then Normal(Some(Message(RemoteAddFailed(path, u)))) else Normal(None))
  }

  /** `ensure_possibly_empty_clone_exists` for the clone path `path`. */
  function EnsureStep(io: Io, path: string, keysPrefix: string, identifier: string, w: World)
    : (Io, Outcome<Option<string>>)
  {
    var (e1, known) := KnownHostStep(io.extraInfo);
    if known.Raised? then (io.(extraInfo := e1), Raised(known.exception))
    else ProbeStep(io.(extraInfo := e1), path, keysPrefix, identifier, w)
  }

  /** The rest of `ensure_possibly_empty_clone_exists`: `ls-remote` on the
      clone URL, then the clone path. */
  function ProbeStep(io: Io, path: string, keysPrefix: string, identifier: string, w: World)
    : (Io, Outcome<Option<string>>)
    requires CloneUrlOf(io.extraInfo).Some?
  {
    var u := CloneUrlOf(io.extraInfo).value;
    var (io1, ls) := RunStep(io, keysPrefix, identifier, LsRemote(u), w);
    match ls
    case Raised(x) => (io1, Raised(x))
    case Normal(res) =>
      if !res.success then (io1, Normal(Some(Message(Unreachable(u)))))
      else LocalStep(io1, path, u, keysPrefix, identifier, w)
  }

  // ---------------------------------------------------------------------------
  // The steps against the specification
  // ---------------------------------------------------------------------------

  /** The state after the reconciliation `eff`. */
  function Applied(io: Io, eff: Effect): Io {
    Io(WithCloneUrl(io.extraInfo, eff.cloneUrl), eff.keys, eff.clones, io.gitLog + eff.log)
  }

  /** `ensure_possibly_empty_clone_exists` as specified: `NoMethodError`
      without a clone URL, otherwise the reconciliation `EnsureEffect`. */
  function Ensured(io: Io, path: string, keysPrefix: string, identifier: string, w: World)
    : (Io, Outcome<Option<string>>)
  {
    match CloneUrlOf(io.extraInfo)
    case None => (io, Raised(NoMethodError))
    case Some(u) =>
      var eff := EnsureEffect(u, io.keys, io.clones, path, keysPrefix, identifier, KeyContentOf(io.extraInfo), w);
      (Applied(io, eff), eff.result)
  }

  /** Once stripped, the clone URL parses to the same host without changing
      again. */
  lemma CloneHostOfStripped(e: Option<ExtraInfo>, s: string)
    requires CloneUrlOf(e) == Some(s) && Strip(s) == s
    ensures CloneHostStep(e) == (e, match ParseStripped(s) case None => Raised(NoMethodError) case Some(r) => Normal(r.host))
  {
  }

  /** `ensure_ssh_private_key_exists` when the clone URL strips to `s` and
      parses to `remote`. */
  lemma KeyStepParsed(e: Option<ExtraInfo>, keys: Tree, keysPrefix: string, identifier: string, o: KeyOracle,
                      s: string, remote: Remote)
    requires CloneUrlOf(e).Some? && s == Strip(CloneUrlOf(e).value) && ParseStripped(s) == Some(remote)
    ensures var prov := Provision(keys, KeyDir(keysPrefix, remote.host), KeyPath(keysPrefix, remote.host, identifier),
                                  KeyContentOf(e), o);
      KeyStep(e, keys, keysPrefix, identifier, o) == Keyed(WithCloneUrl(e, s), prov.tree,
        if prov.error.Some? then Raised(KeySetupFailed(prov.error.value)) else Normal(()))
  {
  }

  /** `git_ssh_command` in the same case: the second parse sees the stripped
      URL and finds the same host. */
  lemma SshCommandStepParsed(e: Option<ExtraInfo>, keys: Tree, keysPrefix: string, identifier: string, o: KeyOracle,
                             s: string, remote: Remote)
    requires CloneUrlOf(e).Some? && s == Strip(CloneUrlOf(e).value) && ParseStripped(s) == Some(remote)
    ensures var prov := Provision(keys, KeyDir(keysPrefix, remote.host), KeyPath(keysPrefix, remote.host, identifier),
                                  KeyContentOf(e), o);
      SshCommandStep(e, keys, keysPrefix, identifier, o) == Keyed(WithCloneUrl(e, s), prov.tree,
        if prov.error.Some? then Raised(KeySetupFailed(prov.error.value))
        else Normal(SshCommand(KeyPath(keysPrefix, remote.host, identifier))))
  {
    KeyStepParsed(e, keys, keysPrefix, identifier, o, s, remote);
    StripIdempotent(CloneUrlOf(e).value);
    CloneHostOfStripped(WithCloneUrl(e, s), s);
  }

  /** `git_env` in the same case, for an SSH URL. */
  lemma EnvStepParsed(e: Option<ExtraInfo>, keys: Tree, keysPrefix: string, identifier: string, o: KeyOracle,
                      s: string, remote: Remote)
    requires CloneUrlOf(e).Some? && CloneProtocolSsh(CloneUrlOf(e).value)
    requires s == Strip(CloneUrlOf(e).value) && ParseStripped(s) == Some(remote)
    ensures var prov := Provision(keys, KeyDir(keysPrefix, remote.host), KeyPath(keysPrefix, remote.host, identifier),
                                  KeyContentOf(e), o);
      EnvStep(e, keys, keysPrefix, identifier, o) == Keyed(WithCloneUrl(e, s), prov.tree,
        if prov.error.Some? then Raised(KeySetupFailed(prov.error.value))
        else Normal(SshEnv(KeyPath(keysPrefix, remote.host, identifier))))
  {
    SshCommandStepParsed(e, keys, keysPrefix, identifier, o, s, remote);
  }

  /** `git_env`, step by step as the source computes it, is `GitEnvFor`: the
      repeated parses of the clone URL all see the URL the first one
      stripped. */
  lemma EnvStepIsGitEnvFor(e: Option<ExtraInfo>, keys: Tree, keysPrefix: string, identifier: string, o: KeyOracle)
    requires CloneUrlOf(e).Some?
    ensures var g := GitEnvFor(CloneUrlOf(e).value, keys, keysPrefix, identifier, KeyContentOf(e), o);
      EnvStep(e, keys, keysPrefix, identifier, o) == Keyed(WithCloneUrl(e, g.cloneUrl), g.keys, g.env)
  {
    var u := CloneUrlOf(e).value;
    if CloneProtocolSsh(u) && ParseStripped(Strip(u)).Some? {
      EnvStepParsed(e, keys, keysPrefix, identifier, o, Strip(u), ParseStripped(Strip(u)).value);
    }
  }

  /** A state whose clone URL is settled and whose key file is in place:
      asking for the environment changes nothing and gives `env`. */
  ghost predicate SettledIo(io: Io, keysPrefix: string, identifier: string, o: KeyOracle, env: map<string, string>) {
    && CloneUrlOf(io.extraInfo).Some?
    && var u := CloneUrlOf(io.extraInfo).value;
       GitEnvFor(u, io.keys, keysPrefix, identifier, KeyContentOf(io.extraInfo), o) == EnvSetup(u, io.keys, Normal(env))
  }

  /** On a settled state, a git command runs with `env` and changes only the
      mirrors and the log. */
  lemma RunSettled(io: Io, keysPrefix: string, identifier: string, c: Command, w: World, env: map<string, string>)
    requires SettledIo(io, keysPrefix, identifier, w.os, env)
    ensures var res := Run(io.clones, c, w.git);
      RunStep(io, keysPrefix, identifier, c, w)
        == (io.(clones := res.tree, gitLog := io.gitLog + [Invocation(env, Argv(c))]), Normal(res))
    ensures var res := Run(io.clones, c, w.git);
      SettledIo(io.(clones := res.tree, gitLog := io.gitLog + [Invocation(env, Argv(c))]),
                keysPrefix, identifier, w.os, env)
  {
  }

  /** The log after `ls-remote` when the reconciler ran two commands. */
  lemma LoggedAfterTwo(log: seq<Invocation>, env: map<string, string>, first: Command, second: Command)
    ensures log + [Invocation(env, Argv(second))] == log + Logged(env, [first, second][1..])
  {
    assert [first, second][1..] == [second];
    assert Logged(env, [second]) == [Invocation(env, Argv(second))];
  }

  /** The log after `ls-remote` when the reconciler ran three commands. */
  lemma LoggedAfterThree(log: seq<Invocation>, env: map<string, string>, first: Command, second: Command,
                         third: Command)
    ensures log + [Invocation(env, Argv(second))] + [Invocation(env, Argv(third))]
      == log + Logged(env, [first, second, third][1..])
  {
    assert [first, second, third][1..] == [second, third];
    assert Logged(env, [second, third]) == [Invocation(env, Argv(second)), Invocation(env, Argv(third))];
  }

  /** An existing clone path: its origin is read and compared. */
  lemma LocalStepExisting(io: Io, path: string, u: string, keysPrefix: string, identifier: string, w: World,
                          env: map<string, string>)
    requires SettledIo(io, keysPrefix, identifier, w.os, env)
    requires u in w.git.reachable && IsDirectory(io.clones, path)
    ensures var rec := Reconcile(io.clones, path, u, w.git);
      LocalStep(io, path, u, keysPrefix, identifier, w)
        == (io.(clones := rec.tree, gitLog := io.gitLog + Logged(env, rec.commands[1..])), Normal(MessageOf(rec.error)))
  {
    var rec := Reconcile(io.clones, path, u, w.git);
    RunSettled(io, keysPrefix, identifier, ConfigGetOrigin(path), w, env);
    LoggedAfterTwo(io.gitLog, env, LsRemote(u), ConfigGetOrigin(path));
  }

  /** A missing clone path: a bare repository is made and given its origin. */
  lemma LocalStepAbsent(io: Io, path: string, u: string, keysPrefix: string, identifier: string, w: World,
                        env: map<string, string>)
    requires SettledIo(io, keysPrefix, identifier, w.os, env)
    requires u in w.git.reachable && !IsDirectory(io.clones, path)
    ensures var rec := Reconcile(io.clones, path, u, w.git);
      LocalStep(io, path, u, keysPrefix, identifier, w)
        == (io.(clones := rec.tree, gitLog := io.gitLog + Logged(env, rec.commands[1..])), Normal(MessageOf(rec.error)))
  {
    var rec := Reconcile(io.clones, path, u, w.git);
    RunSettled(io, keysPrefix, identifier, InitBare(path), w, env);
    var init := Run(io.clones, InitBare(path), w.git);
    var io1 := io.(clones := init.tree, gitLog := io.gitLog + [Invocation(env, Argv(InitBare(path)))]);
    if init.success {
      RunSettled(io1, keysPrefix, identifier, AddMirrorOrigin(path, u), w, env);
      LoggedAfterThree(io.gitLog, env, LsRemote(u), InitBare(path), AddMirrorOrigin(path, u));
    } else {
      LoggedAfterTwo(io.gitLog, env, LsRemote(u), InitBare(path));
    }
  }

  /** Logging the first command, then the rest, logs them all. */
  lemma LoggedAfter(log: seq<Invocation>, env: map<string, string>, commands: seq<Command>)
    requires |commands| >= 1
    ensures log + [Invocation(env, Argv(commands[0]))] + Logged(env, commands[1..]) == log + Logged(env, commands)
  {
    assert Logged(env, commands) == [Invocation(env, Argv(commands[0]))] + Logged(env, commands[1..]);
  }

  /** On a settled clone URL whose environment cannot be set up, nothing
      runs. */
  lemma ProbeStepRaised(io: Io, path: string, keysPrefix: string, identifier: string, w: World)
    requires CloneUrlOf(io.extraInfo).Some? && Settle(CloneUrlOf(io.extraInfo).value) == CloneUrlOf(io.extraInfo).value
    requires GitEnvFor(CloneUrlOf(io.extraInfo).value, io.keys, keysPrefix, identifier, KeyContentOf(io.extraInfo),
                       w.os).env.Raised?
    ensures var eff := SettledEffect(CloneUrlOf(io.extraInfo).value, io.keys, io.clones, path, keysPrefix, identifier,
                                     KeyContentOf(io.extraInfo), w);
      ProbeStep(io, path, keysPrefix, identifier, w) == (Applied(io, eff), eff.result)
  {
    assert io.gitLog + [] == io.gitLog;
  }

  /** On a settled clone URL with an environment, `ls-remote` runs with it;
      an unreachable remote ends the run. */
  lemma ProbeStepUnreachable(io: Io, path: string, keysPrefix: string, identifier: string, w: World)
    requires CloneUrlOf(io.extraInfo).Some? && Settle(CloneUrlOf(io.extraInfo).value) == CloneUrlOf(io.extraInfo).value
    requires GitEnvFor(CloneUrlOf(io.extraInfo).value, io.keys, keysPrefix, identifier, KeyContentOf(io.extraInfo),
                       w.os).env.Normal?
    requires CloneUrlOf(io.extraInfo).value !in w.git.reachable
    ensures var eff := SettledEffect(CloneUrlOf(io.extraInfo).value, io.keys, io.clones, path, keysPrefix, identifier,
                                     KeyContentOf(io.extraInfo), w);
      ProbeStep(io, path, keysPrefix, identifier, w) == (Applied(io, eff), eff.result)
  {
    var u := CloneUrlOf(io.extraInfo).value;
    UnreachableLeavesTreeAlone(io.clones, path, u, w.git);
    var env := GitEnvFor(u, io.keys, keysPrefix, identifier, KeyContentOf(io.extraInfo), w.os).env.value;
    assert Logged(env, [LsRemote(u)]) == [Invocation(env, Argv(LsRemote(u)))];
  }

  /** After a dispatching on the clone path, the local part is the
      reconciler's. */
  lemma LocalStepIsReconcile(io: Io, path: string, u: string, keysPrefix: string, identifier: string, w: World,
                             env: map<string, string>)
    requires SettledIo(io, keysPrefix, identifier, w.os, env)
    requires u in w.git.reachable
    ensures var rec := Reconcile(io.clones, path, u, w.git);
      LocalStep(io, path, u, keysPrefix, identifier, w)
        == (io.(clones := rec.tree, gitLog := io.gitLog + Logged(env, rec.commands[1..])), Normal(MessageOf(rec.error)))
  {
    if IsDirectory(io.clones, path) {
      LocalStepExisting(io, path, u, keysPrefix, identifier, w, env);
    } else {
      LocalStepAbsent(io, path, u, keysPrefix, identifier, w, env);
    }
  }

  /** With a reachable remote, `ls-remote` is logged and the local part
      follows, on a settled state. */
  lemma ProbeStepThroughLsRemote(io: Io, path: string, keysPrefix: string, identifier: string, w: World)
    requires CloneUrlOf(io.extraInfo).Some? && Settle(CloneUrlOf(io.extraInfo).value) == CloneUrlOf(io.extraInfo).value
    requires GitEnvFor(CloneUrlOf(io.extraInfo).value, io.keys, keysPrefix, identifier, KeyContentOf(io.extraInfo),
                       w.os).env.Normal?
    requires CloneUrlOf(io.extraInfo).value in w.git.reachable
    ensures var u := CloneUrlOf(io.extraInfo).value;
      var g := GitEnvFor(u, io.keys, keysPrefix, identifier, KeyContentOf(io.extraInfo), w.os);
      var io1 := io.(keys := g.keys, gitLog := io.gitLog + [Invocation(g.env.value, Argv(LsRemote(u)))]);
      && SettledIo(io1, keysPrefix, identifier, w.os, g.env.value)
      && ProbeStep(io, path, keysPrefix, identifier, w) == LocalStep(io1, path, u, keysPrefix, identifier, w)
  {
    var u := CloneUrlOf(io.extraInfo).value;
    var content := KeyContentOf(io.extraInfo);
    GitEnvRepeats(u, io.keys, keysPrefix, identifier, content, w.os);
  }

  /** With a reachable remote, the rest is the reconciler's, every command run
      with the environment the first one set up. */
  lemma ProbeStepReachable(io: Io, path: string, keysPrefix: string, identifier: string, w: World)
    requires CloneUrlOf(io.extraInfo).Some? && Settle(CloneUrlOf(io.extraInfo).value) == CloneUrlOf(io.extraInfo).value
    requires GitEnvFor(CloneUrlOf(io.extraInfo).value, io.keys, keysPrefix, identifier, KeyContentOf(io.extraInfo),
                       w.os).env.Normal?
    requires CloneUrlOf(io.extraInfo).value in w.git.reachable
    ensures var eff := SettledEffect(CloneUrlOf(io.extraInfo).value, io.keys, io.clones, path, keysPrefix, identifier,
                                     KeyContentOf(io.extraInfo), w);
      ProbeStep(io, path, keysPrefix, identifier, w) == (Applied(io, eff), eff.result)
  {
    var u := CloneUrlOf(io.extraInfo).value;
    var g := GitEnvFor(u, io.keys, keysPrefix, identifier, KeyContentOf(io.extraInfo), w.os);
    var env := g.env.value;
    var io1 := io.(keys := g.keys, gitLog := io.gitLog + [Invocation(env, Argv(LsRemote(u)))]);
    ProbeStepThroughLsRemote(io, path, keysPrefix, identifier, w);
    LocalStepIsReconcile(io1, path, u, keysPrefix, identifier, w, env);
    var rec := Reconcile(io.clones, path, u, w.git);
    LoggedAfter(io.gitLog, env, rec.commands);
  }

  /** `add_known_host(clone_host)` settles the clone URL, and raises only for
      an SSH URL that does not parse. */
  lemma KnownHostSettles(e: Option<ExtraInfo>)
    requires CloneUrlOf(e).Some?
    ensures var u := CloneUrlOf(e).value;
      KnownHostStep(e) == (WithCloneUrl(e, Settle(u)),
        if CloneProtocolSsh(u) && ParseStripped(Strip(u)).None? then Raised(NoMethodError) else Normal(()))
  {
  }

  /** On a settled clone URL, the reconciliation is the specified one. */
  lemma ProbeStepIsEffect(io: Io, path: string, keysPrefix: string, identifier: string, w: World)
    requires CloneUrlOf(io.extraInfo).Some? && Settle(CloneUrlOf(io.extraInfo).value) == CloneUrlOf(io.extraInfo).value
    ensures var eff := SettledEffect(CloneUrlOf(io.extraInfo).value, io.keys, io.clones, path, keysPrefix, identifier,
                                     KeyContentOf(io.extraInfo), w);
      ProbeStep(io, path, keysPrefix, identifier, w) == (Applied(io, eff), eff.result)
  {
    var u := CloneUrlOf(io.extraInfo).value;
    if GitEnvFor(u, io.keys, keysPrefix, identifier, KeyContentOf(io.extraInfo), w.os).env.Raised? {
      ProbeStepRaised(io, path, keysPrefix, identifier, w);
    } else if u in w.git.reachable {
      ProbeStepReachable(io, path, keysPrefix, identifier, w);
    } else {
      ProbeStepUnreachable(io, path, keysPrefix, identifier, w);
    }
  }

  /** With the clone URL settled by `add_known_host`, the rest is the probe. */
  lemma EnsureStepSettles(io: Io, path: string, keysPrefix: string, identifier: string, w: World)
    requires CloneUrlOf(io.extraInfo).Some?
    requires var u := CloneUrlOf(io.extraInfo).value; !(CloneProtocolSsh(u) && ParseStripped(Strip(u)).None?)
    ensures EnsureStep(io, path, keysPrefix, identifier, w)
      == ProbeStep(io.(extraInfo := WithCloneUrl(io.extraInfo, Settle(CloneUrlOf(io.extraInfo).value))),
                   path, keysPrefix, identifier, w)
  {
    KnownHostSettles(io.extraInfo);
  }

  /** An SSH URL that does not parse: `add_known_host(clone_host)` raises
      after stripping it, before any git command. */
  lemma EnsureStepUnparsable(io: Io, path: string, keysPrefix: string, identifier: string, w: World)
    requires CloneUrlOf(io.extraInfo).Some?
    requires var u := CloneUrlOf(io.extraInfo).value; CloneProtocolSsh(u) && ParseStripped(Strip(u)).None?
    ensures var eff := EnsureEffect(CloneUrlOf(io.extraInfo).value, io.keys, io.clones, path, keysPrefix, identifier,
                                    KeyContentOf(io.extraInfo), w);
      EnsureStep(io, path, keysPrefix, identifier, w) == (Applied(io, eff), eff.result)
  {
    var u := CloneUrlOf(io.extraInfo).value;
    KnownHostSettles(io.extraInfo);
    var eff := EnsureEffect(u, io.keys, io.clones, path, keysPrefix, identifier, KeyContentOf(io.extraInfo), w);
    assert eff == Effect(Strip(u), io.keys, io.clones, map[], [], Raised(NoMethodError));
    assert io.gitLog + [] == io.gitLog;
  }

  /** Otherwise the probe runs on the settled URL, as `SettledEffect` says. */
  lemma EnsureStepParsable(io: Io, path: string, keysPrefix: string, identifier: string, w: World)
    requires CloneUrlOf(io.extraInfo).Some?
    requires var u := CloneUrlOf(io.extraInfo).value; !(CloneProtocolSsh(u) && ParseStripped(Strip(u)).None?)
    ensures var eff := EnsureEffect(CloneUrlOf(io.extraInfo).value, io.keys, io.clones, path, keysPrefix, identifier,
                                    KeyContentOf(io.extraInfo), w);
      EnsureStep(io, path, keysPrefix, identifier, w) == (Applied(io, eff), eff.result)
  {
    var u := CloneUrlOf(io.extraInfo).value;
    SettleIdempotent(u);
    var io1 := io.(extraInfo := WithCloneUrl(io.extraInfo, Settle(u)));
    EnsureStepSettles(io, path, keysPrefix, identifier, w);
    ProbeStepIsEffect(io1, path, keysPrefix, identifier, w);
    var eff := SettledEffect(Settle(u), io.keys, io.clones, path, keysPrefix, identifier, KeyContentOf(io.extraInfo), w);
    assert Applied(io1, eff) == Applied(io, eff);
  }

  /** `ensure_possibly_empty_clone_exists`, step by step as the source runs
      it, does what `EnsureEffect` specifies: the reconciler's commands, run
      with the environment `git_env` sets up, on the stripped clone URL. */
  lemma EnsureStepIsEffect(io: Io, path: string, keysPrefix: string, identifier: string, w: World)
    requires CloneUrlOf(io.extraInfo).Some?
    ensures var eff := EnsureEffect(CloneUrlOf(io.extraInfo).value, io.keys, io.clones, path, keysPrefix, identifier,
                                    KeyContentOf(io.extraInfo), w);
      EnsureStep(io, path, keysPrefix, identifier, w) == (Applied(io, eff), eff.result)
  {
    var u := CloneUrlOf(io.extraInfo).value;
    if CloneProtocolSsh(u) && ParseStripped(Strip(u)).None? {
      EnsureStepUnparsable(io, path, keysPrefix, identifier, w);
    } else {
      EnsureStepParsable(io, path, keysPrefix, identifier, w);
    }
  }

  /** The reconciliation of a URL `add_known_host` has already settled is the
      reconciliation of the URL itself. */
  lemma EnsureEffectOfSettled(u: string, keys: Tree, clones: Tree, path: string, keysPrefix: string,
                              identifier: string, content: string, w: World)
    requires !(CloneProtocolSsh(u) && ParseStripped(Strip(u)).None?)
    ensures EnsureEffect(Settle(u), keys, clones, path, keysPrefix, identifier, content, w)
      == EnsureEffect(u, keys, clones, path, keysPrefix, identifier, content, w)
  {
    SettleIdempotent(u);
    StripIdempotent(u);
  }

  /** After a reconciliation that did not raise, the clone URL is settled and
      the key file in place: the environment it ran with is the one every
      later command gets. */
  lemma SettledAfterEnsure(io: Io, path: string, keysPrefix: string, identifier: string, w: World)
    requires CloneUrlOf(io.extraInfo).Some?
    requires EnsureEffect(CloneUrlOf(io.extraInfo).value, io.keys, io.clones, path, keysPrefix, identifier,
                          KeyContentOf(io.extraInfo), w).result.Normal?
    ensures var eff := EnsureEffect(CloneUrlOf(io.extraInfo).value, io.keys, io.clones, path, keysPrefix, identifier,
                                    KeyContentOf(io.extraInfo), w);
      SettledIo(Applied(io, eff), keysPrefix, identifier, w.os, eff.env)
  {
    var u := CloneUrlOf(io.extraInfo).value;
    var content := KeyContentOf(io.extraInfo);
    SettleIdempotent(u);
    var u1 := Settle(u);
    var g := GitEnvFor(u1, io.keys, keysPrefix, identifier, content, w.os);
    GitEnvRepeats(u1, io.keys, keysPrefix, identifier, content, w.os);
  }

  /** What one `fetch` leaves after its reconciliation `eff`. */
  function Fetched(io: Io, eff: Effect, path: string): Io {
    Applied(io, eff).(gitLog := io.gitLog + FetchLog(eff, path))
  }

  /** `fetch` whose `add_known_host` raised: nothing else runs. */
  lemma FetchOutcomeKnownHostRaised(io: Io, path: string, keysPrefix: string, identifier: string, w: World)
    requires KnownHostStep(io.extraInfo).1.Raised?
    ensures FetchOutcome(io, path, keysPrefix, identifier, w)
      == (io.(extraInfo := KnownHostStep(io.extraInfo).0), KnownHostStep(io.extraInfo).1)
  {
    if CloneUrlOf(io.extraInfo).Some? {
      KnownHostSettles(io.extraInfo);
      assert io.gitLog + [] == io.gitLog;
    }
  }

  /** Once `add_known_host` has returned, the reconciliation inside `fetch`
      is the one specified for the clone URL as it was before. */
  lemma EnsuredAfterKnownHost(io: Io, path: string, keysPrefix: string, identifier: string, w: World)
    requires KnownHostStep(io.extraInfo).1.Normal?
    ensures CloneUrlOf(io.extraInfo).Some?
    ensures var eff := EnsureEffect(CloneUrlOf(io.extraInfo).value, io.keys, io.clones, path, keysPrefix, identifier,
                                    KeyContentOf(io.extraInfo), w);
      Ensured(io.(extraInfo := KnownHostStep(io.extraInfo).0), path, keysPrefix, identifier, w)
        == (Applied(io, eff), eff.result)
  {
    var u := CloneUrlOf(io.extraInfo).value;
    var content := KeyContentOf(io.extraInfo);
    KnownHostSettles(io.extraInfo);
    EnsureEffectOfSettled(u, io.keys, io.clones, path, keysPrefix, identifier, content, w);
    var eff := EnsureEffect(u, io.keys, io.clones, path, keysPrefix, identifier, content, w);
    assert Applied(io.(extraInfo := WithCloneUrl(io.extraInfo, Settle(u))), eff) == Applied(io, eff);
  }

  /** When the reconciliation returned, `fetch --all` is the one command run
      after it, and it leaves the mirrors as they are. */
  lemma FetchedAfterFetchAll(io: Io, eff: Effect, path: string)
    requires eff.result.Normal?
    ensures Applied(io, eff).(clones := eff.clones,
                              gitLog := io.gitLog + eff.log + [Invocation(eff.env, Argv(FetchAll(path)))])
      == Fetched(io, eff, path)
  {
    assert io.gitLog + eff.log + [Invocation(eff.env, Argv(FetchAll(path)))] == io.gitLog + FetchLog(eff, path);
  }

  /** `fetch` as specified: `NoMethodError` without a clone URL; otherwise
      the reconciliation `EnsureEffect`, then, unless it raised, `fetch --all`
      with the same environment whatever message it returned. */
  function FetchOutcome(io: Io, path: string, keysPrefix: string, identifier: string, w: World): (Io, Outcome<()>) {
    match CloneUrlOf(io.extraInfo)
    case None => (io, Raised(NoMethodError))
    case Some(u) =>
      var eff := EnsureEffect(u, io.keys, io.clones, path, keysPrefix, identifier, KeyContentOf(io.extraInfo), w);
      (Fetched(io, eff, path), if eff.result.Raised? then Raised(eff.result.exception) else Normal(()))
  }

  /** After a reconciliation that returned, the next git command runs with
      the environment the reconciliation set up. */
  lemma RunAfterEnsure(io: Io, path: string, keysPrefix: string, identifier: string, c: Command, w: World)
    requires CloneUrlOf(io.extraInfo).Some?
    requires EnsureEffect(CloneUrlOf(io.extraInfo).value, io.keys, io.clones, path, keysPrefix, identifier,
                          KeyContentOf(io.extraInfo), w).result.Normal?
    ensures var eff := EnsureEffect(CloneUrlOf(io.extraInfo).value, io.keys, io.clones, path, keysPrefix, identifier,
                                    KeyContentOf(io.extraInfo), w);
      var res := Run(eff.clones, c, w.git);
      RunStep(Applied(io, eff), keysPrefix, identifier, c, w)
        == (Applied(io, eff).(clones := res.tree, gitLog := io.gitLog + eff.log + [Invocation(eff.env, Argv(c))]),
            Normal(res))
  {
    var eff := EnsureEffect(CloneUrlOf(io.extraInfo).value, io.keys, io.clones, path, keysPrefix, identifier,
                            KeyContentOf(io.extraInfo), w);
    SettledAfterEnsure(io, path, keysPrefix, identifier, w);
    RunSettled(Applied(io, eff), keysPrefix, identifier, c, w, eff.env);
  }

  /** So `fetch --all` after a reconciliation that returned leaves what
      `Fetched` says and does not raise. */
  lemma FetchAllAfterEnsure(io: Io, path: string, keysPrefix: string, identifier: string, w: World)
    requires CloneUrlOf(io.extraInfo).Some?
    requires EnsureEffect(CloneUrlOf(io.extraInfo).value, io.keys, io.clones, path, keysPrefix, identifier,
                          KeyContentOf(io.extraInfo), w).result.Normal?
    ensures var eff := EnsureEffect(CloneUrlOf(io.extraInfo).value, io.keys, io.clones, path, keysPrefix, identifier,
                                    KeyContentOf(io.extraInfo), w);
      RunStep(Applied(io, eff), keysPrefix, identifier, FetchAll(path), w)
        == (Fetched(io, eff, path), Normal(Run(eff.clones, FetchAll(path), w.git)))
  {
    var eff := EnsureEffect(CloneUrlOf(io.extraInfo).value, io.keys, io.clones, path, keysPrefix, identifier,
                            KeyContentOf(io.extraInfo), w);
    RunAfterEnsure(io, path, keysPrefix, identifier, FetchAll(path), w);
    FetchedAfterFetchAll(io, eff, path);
  }

  // ---------------------------------------------------------------------------
  // The record
  // ---------------------------------------------------------------------------

  class GitRemote {
    /** `PATH_PREFIX` and `KEYS_PREFIX`: the configured roots, each followed
        by '/'. */
    const pathPrefix: string
    const keysPrefix: string

    var identifier: string
    /** The clone path. */
    var url: string
    var extraInfo: Option<ExtraInfo>
    /** The validation errors on `extra_clone_url`. */
    var errors: seq<string>
    /** `@already_fetched`. */
    var alreadyFetched: bool
    /** The key files under the keys root. */
    var keys: Tree
    /** The mirrors under the clones root. */
    var clones: Tree
    /** Every git command run, in order. */
    var gitLog: seq<Invocation>

    function CloneUrl(): Option<string>
      reads this
    {
      CloneUrlOf(extraInfo)
    }

    /** The fields running git changes. */
    function Current(): Io
      reads this
    {
      Io(extraInfo, keys, clones, gitLog)
    }

    /** The fetch guard: `fetch --all` has run at most once, and only once
        the flag is set. */
    ghost predicate FetchedAtMostOnce()
      reads this
    {
      FetchCount(gitLog) <= if alreadyFetched then 1 else 0
    }

    /** A record as loaded for one request: no errors yet, nothing fetched yet. */
    constructor (clonesRoot: string, keysRoot: string, identifier: string, url: string, extraInfo: Option<ExtraInfo>,
                 keys: Tree, clones: Tree)
      ensures pathPrefix == clonesRoot + "/" && keysPrefix == keysRoot + "/"
      ensures this.identifier == identifier && this.url == url && this.extraInfo == extraInfo
      ensures this.keys == keys && this.clones == clones
      ensures errors == [] && !alreadyFetched && gitLog == []
      ensures FetchedAtMostOnce()
    {
      pathPrefix := clonesRoot + "/";
      keysPrefix := keysRoot + "/";
      this.identifier := identifier;
      this.url := url;
      this.extraInfo := extraInfo;
      errors := [];
      alreadyFetched := false;
      this.keys := keys;
      this.clones := clones;
      gitLog := [];
    }

    /** `clone_host`: parses the clone URL, which strips it in place. */
    method CloneHost() returns (r: Outcome<string>)
      modifies this`extraInfo
      ensures (extraInfo, r) == CloneHostStep(old(extraInfo))
    {
      if CloneUrl().None? {
        return Raised(NoMethodError);
      }
      var s := Strip(CloneUrl().value);
      extraInfo := WithCloneUrl(extraInfo, s);
      var remote := ParseStripped(s);
      r := if remote.None? then Raised(NoMethodError) else Normal(remote.value.host);
    }

    /** The body of `ensure_ssh_private_key_exists` once the directory and
        the path are known: make the directory and write the key unless the
        file exists, then `chmod 600`. */
    method WriteKey(dir: string, path: string, content: string, o: KeyOracle) returns (error: Option<ProvisionError>)
      modifies this`keys
      ensures Provisioned(keys, error) == Provision(old(keys), dir, path, content, o)
    {
      if !IsFile(keys, path) {
        var made := MakeDirectories(keys, dir, o);
        if made.None? {
          return Some(DirectoryNotCreated(dir));
        }
        keys := made.value;
        var written := WriteFile(keys, path, content, o);
        if written.None? {
          return Some(KeyNotWritten(path));
        }
        keys := written.value;
      }
      keys := ChangeMode(keys, path, o);
      error := None;
    }

    /** `ensure_ssh_private_key_exists`. The host is computed once; the source
        recomputes it for the directory and for each use of the path, which
        gives the same value since the URL is already stripped. */
    method EnsureSshPrivateKeyExists(o: KeyOracle) returns (r: Outcome<()>)
      modifies this`extraInfo, this`keys
      ensures Keyed(extraInfo, keys, r) == KeyStep(old(extraInfo), old(keys), keysPrefix, identifier, o)
    {
      var content := KeyContentOf(extraInfo);
      var host := CloneHost();
      match host
      case Raised(x) =>
        r := Raised(x);
      case Normal(h) =>
        var error := WriteKey(KeyDir(keysPrefix, h), KeyPath(keysPrefix, h, identifier), content, o);
        r := if error.Some? then Raised(KeySetupFailed(error.value)) else Normal(());
    }

    /** `git_ssh_command`: the key file, then the command that points ssh at
        it. */
    method GitSshCommand(o: KeyOracle) returns (r: Outcome<string>)
      modifies this`extraInfo, this`keys
      ensures Keyed(extraInfo, keys, r) == SshCommandStep(old(extraInfo), old(keys), keysPrefix, identifier, o)
    {
      var ensured := EnsureSshPrivateKeyExists(o);
      if ensured.Raised? {
        return Raised(ensured.exception);
      }
      var host := CloneHost();
      r := match host
        case Raised(x) => Raised(x)
        case Normal(h) => Normal(SshCommand(KeyPath(keysPrefix, h, identifier)));
    }

    /** `git_env`: nothing for an HTTP clone URL; for SSH, `GIT_SSH_COMMAND`
        set to a command using the key file, which is made first. */
    method GitEnv(o: KeyOracle) returns (r: Outcome<map<string, string>>)
      modifies this`extraInfo, this`keys
      ensures Keyed(extraInfo, keys, r) == EnvOf(old(extraInfo), old(keys), keysPrefix, identifier, o)
    {
      ghost var e0, k0 := extraInfo, keys;
      if CloneUrl().None? {
        r := Raised(NoMethodError);
      } else if !CloneProtocolSsh(CloneUrl().value) {
        r := Normal(map[]);
      } else {
        var command := GitSshCommand(o);
        r := match command
          case Raised(x) => Raised(x)
          case Normal(c) => Normal(map["GIT_SSH_COMMAND" := c]);
      }
      assert Keyed(extraInfo, keys, r) == EnvStep(e0, k0, keysPrefix, identifier, o);
      if CloneUrlOf(e0).Some? {
        EnvStepIsGitEnvFor(e0, k0, keysPrefix, identifier, o);
      }
    }

    /** `execute_git_command` and `capture_git_command`: one git run with the
        environment of `git_env`, recorded in the log. */
    method RunGit(c: Command, w: World) returns (r: Outcome<GitResult>)
      modifies this`extraInfo, this`keys, this`clones, this`gitLog
      ensures (Current(), r) == RunStep(old(Current()), keysPrefix, identifier, c, w)
    {
      var env := GitEnv(w.os);
      match env
      case Raised(x) =>
        r := Raised(x);
      case Normal(e) =>
        var res := Run(clones, c, w.git);
        clones := res.tree;
        gitLog := gitLog + [Invocation(e, Argv(c))];
        r := Normal(res);
    }

    /** `Repository::GitRemote.add_known_host(clone_host) if
        clone_protocol_ssh?`; `add_known_host` itself does nothing. */
    method AddKnownHostOfCloneHost() returns (r: Outcome<()>)
      modifies this`extraInfo
      ensures (extraInfo, r) == KnownHostStep(old(extraInfo))
    {
      if CloneUrl().None? {
        return Raised(NoMethodError);
      }
      if !CloneProtocolSsh(CloneUrl().value) {
        return Normal(());
      }
      var host := CloneHost();
      r := if host.Raised? then Raised(host.exception) else Normal(());
    }

    /** The branch of `ensure_possibly_empty_clone_exists` on the clone path,
        once `ls-remote` of `u` succeeded. */
    method ReconcileLocal(u: string, w: World) returns (r: Outcome<Option<string>>)
      modifies this`extraInfo, this`keys, this`clones, this`gitLog
      ensures (Current(), r) == LocalStep(old(Current()), url, u, keysPrefix, identifier, w)
    {
      if IsDirectory(clones, url) {
        var config := RunGit(ConfigGetOrigin(url), w);
        r := match config
          case Raised(x) => Raised(x)
          case Normal(res) =>
            if !res.success then Normal(Some(Message(OriginUnreadable(url))))
            else if !RemotesEqual(res.output, u) then Normal(Some(Message(Drift(url, res.output))))
            else Normal(None);
      } else {
        var init := RunGit(InitBare(url), w);
        if init.Raised? {
          return Raised(init.exception);
        }
        if !init.value.success {
          return Normal(Some(Message(InitFailed(url))));
        }
        var add := RunGit(AddMirrorOrigin(url, u), w);
        r := match add
          case Raised(x) => Raised(x)
          case Normal(res) => if !res.success then Normal(Some(Message(RemoteAddFailed(url, u)))) else Normal(None);
      }
    }

    /** `ls-remote` on the clone URL, then the clone path. */
    method Probe(w: World) returns (r: Outcome<Option<string>>)
      requires CloneUrl().Some?
      modifies this`extraInfo, this`keys, this`clones, this`gitLog
      ensures (Current(), r) == ProbeStep(old(Current()), url, keysPrefix, identifier, w)
    {
      var u := CloneUrl().value;
      var ls := RunGit(LsRemote(u), w);
      if ls.Raised? {
        return Raised(ls.exception);
      }
      if !ls.value.success {
        return Normal(Some(Message(Unreachable(u))));
      }
      r := ReconcileLocal(u, w);
    }

    /** `ensure_possibly_empty_clone_exists`: the validation message, if any.
        For a clone URL, this is the reconciliation `EnsureEffect`
        specifies. */
    method EnsurePossiblyEmptyCloneExists(w: World) returns (r: Outcome<Option<string>>)
      modifies this`extraInfo, this`keys, this`clones, this`gitLog
      ensures (Current(), r) == Ensured(old(Current()), url, keysPrefix, identifier, w)
    {
      ghost var io0 := Current();
      var known := AddKnownHostOfCloneHost();
      if known.Raised? {
        r := Raised(known.exception);
      } else {
        r := Probe(w);
      }
      if CloneUrlOf(io0.extraInfo).Some? {
        assert (Current(), r) == EnsureStep(io0, url, keysPrefix, identifier, w);
        EnsureStepIsEffect(io0, url, keysPrefix, identifier, w);
      }
    }

    /** `fetch`: the known host, the reconciliation (whose message is only
        logged), then `git fetch --all` in the clone path, whose failure only
        warns. */
    method Fetch(w: World) returns (r: Outcome<()>)
      modifies this`extraInfo, this`keys, this`clones, this`gitLog
      ensures (Current(), r) == FetchOutcome(old(Current()), url, keysPrefix, identifier, w)
    {
      ghost var io0 := Current();
      var known := AddKnownHostOfCloneHost();
      if known.Raised? {
        r := Raised(known.exception);
        FetchOutcomeKnownHostRaised(io0, url, keysPrefix, identifier, w);
      } else {
        EnsuredAfterKnownHost(io0, url, keysPrefix, identifier, w);
        var err := EnsurePossiblyEmptyCloneExists(w);
        if err.Raised? {
          r := Raised(err.exception);
        } else {
          var fetched := RunGit(FetchAll(url), w);
          r := if fetched.Raised? then Raised(fetched.exception) else Normal(());
          FetchAllAfterEnsure(io0, url, keysPrefix, identifier, w);
        }
      }
    }

    /** `fetch_changesets`: fetches once per request; a second call does
        nothing. */
    method FetchChangesets(w: World) returns (r: Outcome<()>)
      modifies this`alreadyFetched, this`extraInfo, this`keys, this`clones, this`gitLog
      ensures alreadyFetched
      ensures old(alreadyFetched) ==> r == Normal(()) && Current() == old(Current())
      ensures !old(alreadyFetched) ==> (Current(), r) == FetchOutcome(old(Current()), url, keysPrefix, identifier, w)
      ensures old(FetchedAtMostOnce()) ==> FetchedAtMostOnce()
    {
      if alreadyFetched {
        return Normal(());
      }
      alreadyFetched := true;
      ghost var io0 := Current();
      r := Fetch(w);
      if CloneUrlOf(io0.extraInfo).Some? {
        var eff := EnsureEffect(CloneUrlOf(io0.extraInfo).value, io0.keys, io0.clones, url, keysPrefix, identifier,
                                KeyContentOf(io0.extraInfo), w);
        FetchRunsFetchAllOnce(CloneUrlOf(io0.extraInfo).value, io0.keys, io0.clones, url, keysPrefix, identifier,
                              KeyContentOf(io0.extraInfo), w);
        FetchCountAppend(io0.gitLog, FetchLog(eff, url));
      }
    }

    /** The end of `initialize_clone`: the clone is ensured and its message,
        if any, becomes a validation error on the clone URL. */
    method ValidateClone(w: World) returns (r: Outcome<()>)
      modifies this`errors, this`extraInfo, this`keys, this`clones, this`gitLog
      ensures var (io, res) := Ensured(old(Current()), url, keysPrefix, identifier, w);
        && Current() == io
        && errors == old(errors) + (if res.Normal? && res.value.Some? then [res.value.value] else [])
        && r == (if res.Raised? then Raised(res.exception) else Normal(()))
    {
      var err := EnsurePossiblyEmptyCloneExists(w);
      match err
      case Raised(x) =>
        r := Raised(x);
      case Normal(message) =>
        if message.Some? {
          errors := errors + [message.value];
        }
        r := Normal(());
    }

    /** The part of `initialize_clone` after `parse`: the identifier and the
        clone path are filled in where blank, then the clone is validated. */
    method InitializeParsed(remote: Remote, w: World) returns (r: Outcome<()>)
      modifies this`identifier, this`url, this`errors, this`extraInfo, this`keys, this`clones, this`gitLog
      ensures identifier == if old(identifier) == "" then remote.identifier else old(identifier)
      ensures url == if old(url) == "" then pathPrefix + remote.path else old(url)
      ensures var (io, res) := Ensured(old(Current()), url, keysPrefix, identifier, w);
        && Current() == io
        && errors == old(errors) + (if res.Normal? && res.value.Some? then [res.value.value] else [])
        && r == (if res.Raised? then Raised(res.exception) else Normal(()))
    {
      if identifier == "" {
        identifier := remote.identifier;
      }
      if url == "" {
        url := pathPrefix + remote.path;
      }
      r := ValidateClone(w);
    }

    /** `initialize_clone` on a clone URL: `parse` strips it in place, then
        raises for a URL of slashes only. */
    method InitializeFromCloneUrl(w: World) returns (r: Outcome<()>)
      requires CloneUrl().Some?
      modifies this`identifier, this`url, this`errors, this`extraInfo, this`keys, this`clones, this`gitLog
      ensures ParseStripped(Strip(old(CloneUrl()).value)).None? ==>
        && r == Raised(NoMethodError)
        && identifier == old(identifier) && url == old(url) && errors == old(errors)
        && Current() == old(Current()).(extraInfo := WithCloneUrl(old(extraInfo), Strip(old(CloneUrl()).value)))
      ensures ParseStripped(Strip(old(CloneUrl()).value)).Some? ==>
        var remote := ParseStripped(Strip(old(CloneUrl()).value)).value;
        && identifier == (if old(identifier) == "" then remote.identifier else old(identifier))
        && url == (if old(url) == "" then pathPrefix + remote.path else old(url))
        && var eff := EnsureEffect(remote.url, old(keys), old(clones), url, keysPrefix, identifier,
                                   KeyContentOf(old(extraInfo)), w);
           && Current() == Applied(old(Current()), eff)
           && errors == old(errors) + (if eff.result.Normal? && eff.result.value.Some? then [eff.result.value.value] else [])
           && r == (if eff.result.Raised? then Raised(eff.result.exception) else Normal(()))
    {
      var s := Strip(CloneUrl().value);
      extraInfo := WithCloneUrl(extraInfo, s);
      var parsed := ParseStripped(s);
      match parsed
      case None =>
        r := Raised(NoMethodError);
      case Some(remote) =>
        ghost var io0, io1 := old(Current()), Current();
        r := InitializeParsed(remote, w);
        ghost var eff := EnsureEffect(s, io0.keys, io0.clones, url, keysPrefix, identifier, KeyContentOf(io0.extraInfo), w);
        assert Applied(io1, eff) == Applied(io0, eff);
    }

    /** `initialize_clone`, run before validation: nothing without a clone
        URL, and `NoMethodError` without `extra_info` at all. */
    method InitializeClone(w: World) returns (r: Outcome<()>)
      modifies this`identifier, this`url, this`errors, this`extraInfo, this`keys, this`clones, this`gitLog
      ensures old(CloneUrl()).None? ==>
        && r == (if old(extraInfo).None? then Raised(NoMethodError) else Normal(()))
        && identifier == old(identifier) && url == old(url) && errors == old(errors) && Current() == old(Current())
      ensures old(CloneUrl()).Some? && ParseStripped(Strip(old(CloneUrl()).value)).None? ==>
        && r == Raised(NoMethodError)
        && identifier == old(identifier) && url == old(url) && errors == old(errors)
        && Current() == old(Current()).(extraInfo := WithCloneUrl(old(extraInfo), Strip(old(CloneUrl()).value)))
      ensures old(CloneUrl()).Some? && ParseStripped(Strip(old(CloneUrl()).value)).Some? ==>
        var remote := ParseStripped(Strip(old(CloneUrl()).value)).value;
        && identifier == (if old(identifier) == "" then remote.identifier else old(identifier))
        && url == (if old(url) == "" then pathPrefix + remote.path else old(url))
        && var eff := EnsureEffect(remote.url, old(keys), old(clones), url, keysPrefix, identifier,
                                   KeyContentOf(old(extraInfo)), w);
           && Current() == Applied(old(Current()), eff)
           && errors == old(errors) + (if eff.result.Normal? && eff.result.value.Some? then [eff.result.value.value] else [])
           && r == (if eff.result.Raised? then Raised(eff.result.exception) else Normal(()))
    {
      if extraInfo.None? {
        r := Raised(NoMethodError);
      } else if CloneUrl().None? {
        r := Normal(());
      } else {
        r := InitializeFromCloneUrl(w);
      }
    }
  }
}
