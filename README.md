# redmine_git_remote: the `Repository::GitRemote` model in Dafny

`Repository::GitRemote` is a Redmine repository type that keeps a local bare
mirror of a remote git repository. A record holds:

- a clone URL (`extra_clone_url`, inside the `extra_info` hash), optionally with an SSH key pair;
- the clone path (`url`);
- an `identifier`.

Before validation, `initialize_clone` does three things:

- it parses the clone URL;
- it fills a blank identifier and a blank clone path from the parse;
- it makes sure the mirror exists, turning any problem into a validation error on the clone URL.

When changesets are fetched, `fetch_changesets` runs `fetch` at most once per record. `fetch` reconciles the mirror again and runs `git fetch --all`.

This project models that class in Dafny, in one module per concern:

| file | module | what it holds |
|---|---|---|
| `wrappers.dfy` | `Wrappers` | `Option` |
| `ruby_string.dfy` | `RubyString` | The Ruby `String` operations the class relies on: `strip`, `chomp`, line-anchored `gsub` (`^.*pat` and `suffix$`, applied line by line), `tr`-like `gsub(/:/, '/')`, `split('/')` with trailing empty pieces dropped, ASCII `downcase`. |
| `remote_url.dfy` | `RemoteUrl` | `parse`, `clone_protocol_ssh?` and `two_remotes_equal` as functions, with lemmas about the URL forms git accepts. |
| `file_tree.dfy` | `FileTree` | The file system as a map from path to entry (file with content and mode, directory, bare repository with an optional origin). |
| `git.dfy` | `Git` | The five git commands the class runs, their argument vectors, and what each does to the tree, with the outcomes decided by an oracle. |
| `credentials.dfy` | `Credentials` | `ssh_key_dir`, `ssh_private_key_path`, `git_ssh_command`'s string, and `ensure_ssh_private_key_exists` as a function over the key tree. |
| `mirror.dfy` | `Mirror` | The reconciler of `ensure_possibly_empty_clone_exists` as a pure function, with its messages. |
| `git_remote.dfy` | `Repository` | The record as a class `GitRemote` whose methods update its fields in place, and the specification functions the methods are proved against. |

The record's fields are `identifier`, `url`, `extra_info`, the validation
errors and `@already_fetched`. The class also carries the key files, the
mirrors and the log of git commands run. Each method's `ensures` ties the new
state and the result to a specification function of the old state:

- `EnsureEffect` for `ensure_possibly_empty_clone_exists`;
- `FetchOutcome` for `fetch`;
- `GitEnvFor` for `git_env`.

The lemmas beside them prove what the source promises.

Two pieces of behaviour shape the whole model:

- `parse` strips the clone URL *in place* (`strip!`), and every operation that needs the host calls `parse`. So after the first such call the stored clone URL is the stripped one. `Settle` captures this, and the model keeps the stored URL in step.
- Every git command calls `git_env`, which for SSH URLs provisions the key file again. `GitEnvRepeats` shows that after the first provisioning, every later one changes nothing. That is why the whole reconciliation runs with one environment.

## Model

| member | source | states |
|---|---|---|
| RubyString.Strip | app/models/repository/git_remote.rb:194 | `strip!` leaves a string that neither starts nor ends with whitespace or NUL. It is never longer, and a string with no such edge is kept as it is. Which infix it keeps is stated by `StripCutsSpaces`. |
| RubyString.StripOfSpaces | app/models/repository/git_remote.rb:194 | A blank string strips to the empty string. |
| RubyString.StripCutsSpaces | app/models/repository/git_remote.rb:194 | The stripped string is exactly the infix of the input between its leading and its trailing run of whitespace or NUL, and both runs consist of nothing else. |
| RubyString.StripIdempotent | app/models/repository/git_remote.rb:194 | Stripping twice is stripping once. |
| RubyString.StripKeepsCharacters | app/models/repository/git_remote.rb:194 | Every character of the stripped URL is one of the URL's. |
| RubyString.ChompRemovesOneTerminator | app/models/repository/git_remote.rb:146 | For a string that does not end in a line terminator, `chomp` keeps it, and removes exactly one appended "\n", "\r\n" or "\r". |
| RubyString.ChompOfTerminated | app/models/repository/git_remote.rb:146 | For any string, `chomp` removes an appended "\r\n" or "\r" whole. An appended "\n" goes alone, unless a "\r" stands before it, in which case the pair goes. |
| RubyString.LineEdit.Apply | app/models/repository/git_remote.rb:203-206 | On one line, `^.*pat` keeps a suffix with no further `pat` in it. `suffix$` removes the suffix once or changes nothing. Neither adds characters. |
| RubyString.DropTrailingExact | app/models/repository/git_remote.rb:206 | `suffix$` removes the suffix exactly when the line ends in it, and otherwise leaves the line unchanged. |
| RubyString.DropThroughLastExact | app/models/repository/git_remote.rb:203 | `^.*pat` cuts the line right after the last occurrence of `pat`, and leaves a line without `pat` unchanged. |
| RubyString.LastEnd | app/models/repository/git_remote.rb:203 | The greedy `^.*pat` on one line stops at the end of the last occurrence of `pat`, or does not match when there is none. |
| RubyString.EachLine | app/models/repository/git_remote.rb:203-206 | A line-anchored `gsub` adds no character the string did not have. |
| RubyString.EachLineDropsChar | app/models/repository/git_remote.rb:205 | After `gsub(/^.*@/, '')` no '@' is left on any line. |
| RubyString.ColonsToSlashes | app/models/repository/git_remote.rb:204 | `gsub(/:/, '/')` keeps the length, leaves no ':' and changes each ':' into '/' and nothing else. |
| RubyString.Split | app/models/repository/git_remote.rb:207 | No piece of `split('/')` contains a '/'. |
| RubyString.SplitShape | app/models/repository/git_remote.rb:207-209 | `split('/')` is empty exactly when the string is all slashes. Its first piece is the text before the first '/'. No piece contains '/'. |
| RubyString.Downcase | app/models/repository/git_remote.rb:209 | `downcase` keeps the length and lowers each ASCII capital, leaving every other character alone. |
| RemoteUrl.Sanitize | app/models/repository/git_remote.rb:209 | `gsub(/[^a-z0-9_-]/, '-')` keeps the length, keeps every `[a-z0-9_-]` character and replaces every other character by '-'. |
| RemoteUrl.RemotePath | app/models/repository/git_remote.rb:203-206 | The rewritten path contains no ':' and no '@'. Each of its characters comes from the URL or is a '/'. |
| RemoteUrl.Parse | app/models/repository/git_remote.rb:193-211 | `parse` fails (`NoMethodError` from `nil.downcase`) exactly when the path is all slashes, empty included. Otherwise `url` is the stripped URL and `host` is the first '/'-piece of `path`, a prefix of it with no '/'. The identifier is made only of `[a-z0-9_-]`. |
| RemoteUrl.ParseStripped | app/models/repository/git_remote.rb:196-210 | The same, for an already stripped URL. |
| RemoteUrl.IdentifierOf | app/models/repository/git_remote.rb:209 | The identifier is non-empty and made of `[a-z0-9_-]` only. |
| RemoteUrl.ParseAfterStrip | app/models/repository/git_remote.rb:194 | Parsing the stripped URL gives the same result as parsing the raw one. |
| RemoteUrl.IdentifierKeepsPlainName | app/models/repository/git_remote.rb:209 | A last segment already made of `[a-z0-9_-]` is the identifier unchanged. |
| RemoteUrl.IdentifierOfMixedName | app/models/repository/git_remote.rb:209 | A worked example: "My.Repo" becomes "my-repo". The general rule is `Sanitize`'s contract. |
| RemoteUrl.FormSchemeUser | app/models/repository/git_remote.rb:203-206 | `scheme://user@host/repo` rewrites to `host/repo`, without a trailing ".git". |
| RemoteUrl.FormScheme | app/models/repository/git_remote.rb:203-206 | `scheme://host/repo` rewrites to `host/repo`, without a trailing ".git". |
| RemoteUrl.FormScpUser | app/models/repository/git_remote.rb:203-206 | `user@host:repo` rewrites to `host/repo`, without a trailing ".git". |
| RemoteUrl.FormScp | app/models/repository/git_remote.rb:203-206 | `host:repo` rewrites to `host/repo`, without a trailing ".git". |
| RemoteUrl.EquivalentFormsSamePath | app/models/repository/git_remote.rb:203-206 | The four URL forms of one remote give the same path. |
| RemoteUrl.SamePathSameRemote | app/models/repository/git_remote.rb:207-209 | Host and identifier depend on the path alone. |
| RemoteUrl.ParseByPath | app/models/repository/git_remote.rb:207-209 | A path of the form `host/...` parses to that host. |
| RemoteUrl.FormParses | app/models/repository/git_remote.rb:193-211 | A stripped URL whose path is `host/repo` parses to that path and host. |
| RemoteUrl.ParseSchemeUser | app/models/repository/git_remote.rb:193-211 | `scheme://user@host/repo` parses to path `host/repo` (".git" trimmed) and host `host`. |
| RemoteUrl.ParseScheme | app/models/repository/git_remote.rb:193-211 | Likewise for `scheme://host/repo`. |
| RemoteUrl.ParseScpUser | app/models/repository/git_remote.rb:193-211 | Likewise for `user@host:repo`. |
| RemoteUrl.ParseScp | app/models/repository/git_remote.rb:193-211 | Likewise for `host:repo`. |
| RemoteUrl.EquivalentFormsSameRemote | app/models/repository/git_remote.rb:193-211 | All four forms parse to the same path, the given host and the same identifier. |
| RemoteUrl.NamedRepoIsPlain | app/models/repository/git_remote.rb:206 | `org/name.git` loses exactly its ".git". |
| RemoteUrl.IdentifierOfNamedPath | app/models/repository/git_remote.rb:209 | A path whose last piece is already a valid identifier suggests that piece. |
| RemoteUrl.ScpRemoteOfNamedRepo | app/models/repository/git_remote.rb:193-211 | `user@host:org/name.git` parses to path `host/org/name`, host `host` and identifier `name`. For example, `git@github.com:org/repo.git` gives `github.com` and `repo`. |
| RemoteUrl.IdentifierOfRepoPath | app/models/repository/git_remote.rb:209 | The identifier of `host/org/name` is `name`. |
| RemoteUrl.RemotePathOfEmpty | app/models/repository/git_remote.rb:203-206 | The empty URL rewrites to the empty path. |
| RemoteUrl.ParseBlank | app/models/repository/git_remote.rb:207-209 | An empty or blank URL does not parse. |
| RemoteUrl.RemotePathOfSlashes | app/models/repository/git_remote.rb:203-206 | A URL of slashes only rewrites to itself. |
| RemoteUrl.ParseSlashes | app/models/repository/git_remote.rb:207-209 | A URL of slashes only does not parse. |
| RemoteUrl.ParseSchemeOnly | app/models/repository/git_remote.rb:203-209 | `scheme://` with nothing after it does not parse. |
| RemoteUrl.CloneProtocolSsh | app/models/repository/git_remote.rb:96-103 | On one line, a URL is SSH exactly when it does not start with "http". A URL that starts with "http" is never SSH. |
| RemoteUrl.ProtocolOfForms | app/models/repository/git_remote.rb:96-103 | `http://` and `https://` are HTTP. `git@`, `ssh://`, `HTTPS://` and a leading space are SSH, because the match is case-sensitive and anchored. |
| RemoteUrl.ProtocolLineAnchored | app/models/repository/git_remote.rb:102 | `^` anchors at every line: "http" at the start of a later line makes the URL HTTP. |
| RemoteUrl.DropSlashesAtLineEnd | app/models/repository/git_remote.rb:146 | `gsub(/\/$/, '')` never lengthens the string. |
| RemoteUrl.RemotesEqualIsEquivalence | app/models/repository/git_remote.rb:145-147 | `two_remotes_equal` is reflexive, symmetric and transitive. |
| RemoteUrl.DropSlashAppended | app/models/repository/git_remote.rb:146 | A '/' appended to a string not ending in '/' is removed again. |
| RemoteUrl.DropSlashesNothingToDrop | app/models/repository/git_remote.rb:146 | A line not ending in '/' is unchanged. |
| RemoteUrl.DropSlashesOneSlash | app/models/repository/git_remote.rb:146 | Only the one final '/' of a line is removed. |
| RemoteUrl.ChompKeepsSlash | app/models/repository/git_remote.rb:146 | `chomp` leaves a final '/' alone. |
| RemoteUrl.TrailingSlashIgnored | app/models/repository/git_remote.rb:145-147 | `u` equals `u + "/"`. |
| RemoteUrl.TrailingTerminatorIgnored | app/models/repository/git_remote.rb:145-147 | `u` equals `u` followed by "\n", "\r\n" or "\r". |
| RemoteUrl.TrailingSlashAndTerminatorIgnored | app/models/repository/git_remote.rb:145-147 | `u` equals `u + "/\n"` and `u + "/\r\n"`. |
| RemoteUrl.ConfigOutputMatchesStoredUrl | app/models/repository/git_remote.rb:170-173 | The output of `config --get`, the origin followed by a line feed, equals the origin. |
| RemoteUrl.RemotesEqualOnPlainUrls | app/models/repository/git_remote.rb:145-147 | On one-line URLs ending in neither '/' nor a line terminator, the comparison is plain equality, with or without the line feed git prints. |
| RemoteUrl.RemotesEqualKeepsTrailingSpace | app/models/repository/git_remote.rb:144-147 | A trailing space is not ignored, despite the comment. |
| RemoteUrl.NormalizeDoubleSlash | app/models/repository/git_remote.rb:146 | Of two trailing slashes, only one is removed. |
| RemoteUrl.RemotesEqualKeepsSecondSlash | app/models/repository/git_remote.rb:145-147 | `u` does not equal `u + "//"`. |
| Credentials.KeyDirShape | app/models/repository/git_remote.rb:53-55 | `ssh_key_dir` is the keys prefix, a '/' and the host, in that order and nothing else. |
| Credentials.KeyPathShape | app/models/repository/git_remote.rb:57-59 | `ssh_private_key_path` is the key directory, '/', the identifier and ".key". |
| Credentials.KeyPathInjective | app/models/repository/git_remote.rb:53-59 | For hosts without '/', two key paths are equal only for the same host and identifier. |
| Credentials.SshCommandShape | app/models/repository/git_remote.rb:83-86 | The command disables strict host-key checking, uses `/dev/null` as known-hosts, and ends in `-i <key path>`. Different key paths give different commands. |
| Credentials.ProvisionMessage | app/models/repository/git_remote.rb:66-71 | The message text of the two raises ends with the underlying error's text. The model's `KeySetupFailed` exception carries the `ProvisionError` this text is built from, not the text. |
| Credentials.MakeDirectories | app/models/repository/git_remote.rb:64 | `mkdir_p` fails exactly when the system refuses or a file is in the way. Otherwise the directory exists afterwards. In the model nothing else changes, because missing parent directories are not modelled. |
| Credentials.WriteFile | app/models/repository/git_remote.rb:69 | The write fails exactly when the system refuses or a directory is in the way. Otherwise the file holds the content and nothing else changed. |
| Credentials.ChangeMode | app/models/repository/git_remote.rb:77 | `chmod 600` sets the mode of an existing file unless chmod fails. A failure changes nothing and raises nothing. |
| Credentials.Provision | app/models/repository/git_remote.rb:61-81 | An existing key file is kept, with only its mode tightened. Otherwise the directory is made and the key written. The directory error is raised exactly when `mkdir_p` fails. Once `mkdir_p` has succeeded, the write error is raised exactly when the write fails. On success the file exists with mode 600 unless chmod failed. Nothing outside the directory and the key path changes. |
| Credentials.FirstWriteWins | app/models/repository/git_remote.rb:61-73 | After a successful first provisioning, a second one with other content keeps the first content. |
| Credentials.ProvisionIdempotent | app/models/repository/git_remote.rb:61-81 | After a success, provisioning again changes nothing and raises nothing. |
| Git.Argv | app/models/repository/git_remote.rb:149-159 | Every command runs as `git ...`. Only `fetch --all` has five arguments. |
| Git.ArgvOfFetchAll | app/models/repository/git_remote.rb:221 | An invocation is `fetch --all` of a directory only if its argument vector is. |
| Git.Run | app/models/repository/git_remote.rb:149-159 | Only `init --bare` and `remote add` change the tree of mirrors. |
| Mirror.Reconcile | app/models/repository/git_remote.rb:161-185 | `ls-remote` runs first, for every URL. `fetch --all` never runs. Nothing outside the clone path changes. |
| Mirror.UnreachableLeavesTreeAlone | app/models/repository/git_remote.rb:164-167 | A remote that does not answer ends the run with its message, and the tree is untouched. |
| Mirror.ExistingDirectoryInspectedOnly | app/models/repository/git_remote.rb:169-175 | An existing directory is never changed. The run fails exactly when the origin is unreadable or differs under `two_remotes_equal`. The drift message carries the origin git printed. |
| Mirror.AbsentDirectoryCreated | app/models/repository/git_remote.rb:176-184 | `init --bare` runs. `remote add --mirror=fetch` runs exactly when `init` succeeded. The init error arises exactly when init fails. The remote-add error arises exactly when init succeeds and remote add fails. The run returns nil exactly when both succeed. The resulting tree is given for each outcome. |
| Mirror.SuccessLeavesMirror | app/models/repository/git_remote.rb:161-185 | After success, the clone path is a bare repository whose origin is the URL itself or one `two_remotes_equal` accepts. |
| Mirror.ReconcileIdempotent | app/models/repository/git_remote.rb:161-185 | For a URL that does not end in a line terminator, a second run after a success returns nil and changes nothing. Such a URL is stored as the origin, read back with one added line feed, and `chomp` removes that line feed. |
| Mirror.HalfCreatedMirrorSticks | app/models/repository/git_remote.rb:169-183 | After `remote add` failed, the next run, while the remote stays reachable, reports the origin as unreadable. It never adds the remote again. |
| Repository.WithCloneUrl | app/models/repository/git_remote.rb:194 | Rewriting the clone URL in place changes only the clone URL. |
| Repository.Settle | app/models/repository/git_remote.rb:38-41 | After `clone_host`, an SSH URL is stripped and an HTTP URL is unchanged. |
| Repository.SettleIdempotent | app/models/repository/git_remote.rb:194 | Settling twice is settling once. |
| Repository.GitEnvFor | app/models/repository/git_remote.rb:88-94 | `git_env` is empty for HTTP. For SSH it sets exactly `GIT_SSH_COMMAND` to the command for the key path, which is then a file with mode 600 unless chmod failed. An SSH URL is left stripped and an HTTP URL untouched. |
| Repository.GitEnvRepeats | app/models/repository/git_remote.rb:83-94 | Once the URL is settled and the environment set up, asking again gives the same environment and changes nothing. |
| Repository.FetchCount | app/models/repository/git_remote.rb:221 | The number of `fetch --all` runs is at most the length of the log. |
| Repository.FetchCountAppend | app/models/repository/git_remote.rb:221 | Counts add up over concatenated logs. |
| Repository.LoggedFetchesNothing | app/models/repository/git_remote.rb:161-185 | The reconciler's commands contain no `fetch --all`. |
| Repository.EnsureEffect | app/models/repository/git_remote.rb:161-185 | The reconciliation leaves the settled URL. When it raises it has run no command and left the mirrors alone. It never fetches. |
| Repository.SettledEffect | app/models/repository/git_remote.rb:164-184 | The same, on an already settled URL. |
| Repository.FetchLog | app/models/repository/git_remote.rb:217-223 | Unless the reconciliation raised, `fetch` logs exactly one more command, `git --git-dir <path> fetch --all`, run with the same environment. That holds whatever message was returned. |
| Repository.FetchLogCount | app/models/repository/git_remote.rb:221 | That one more command is the only `fetch --all`. |
| Repository.FetchRunsFetchAllOnce | app/models/repository/git_remote.rb:213-224 | One `fetch` runs `fetch --all` exactly once when its reconciliation does not raise, and never otherwise. |
| Repository.CloneHostStep | app/models/repository/git_remote.rb:38-41 | `clone_host` raises without a clone URL. It stores the stripped URL and returns the host `parse` finds. |
| Repository.KnownHostStep | app/models/repository/git_remote.rb:162 | Without a clone URL, asking for the protocol raises. Otherwise the URL stays present. |
| Repository.CloneHostOfStripped | app/models/repository/git_remote.rb:38-41 | On a stripped URL, `clone_host` changes nothing. |
| Repository.KeyStepParsed | app/models/repository/git_remote.rb:61-81 | `ensure_ssh_private_key_exists` is `Provision` for the parsed host. |
| Repository.SshCommandStepParsed | app/models/repository/git_remote.rb:83-86 | `git_ssh_command` is the provisioning followed by the command for the key path of the same host. |
| Repository.EnvStepParsed | app/models/repository/git_remote.rb:88-94 | For SSH, `git_env` is that command under `GIT_SSH_COMMAND`. |
| Repository.EnvStepIsGitEnvFor | app/models/repository/git_remote.rb:88-94 | `git_env`, computed call by call with its repeated parses, is `GitEnvFor`. |
| Repository.RunSettled | app/models/repository/git_remote.rb:149-159 | On a settled state, a git command runs with the settled environment and changes only the mirrors and the log. |
| Repository.LocalStepExisting | app/models/repository/git_remote.rb:169-175 | For an existing directory, the class's steps are the reconciler's. |
| Repository.LocalStepAbsent | app/models/repository/git_remote.rb:176-184 | For a missing directory, the class's steps are the reconciler's. |
| Repository.LocalStepIsReconcile | app/models/repository/git_remote.rb:169-184 | After `ls-remote`, the local part is the reconciler's, each command logged with one environment. |
| Repository.ProbeStepRaised | app/models/repository/git_remote.rb:164 | When the environment cannot be set up, no command runs. |
| Repository.ProbeStepUnreachable | app/models/repository/git_remote.rb:164-167 | An unreachable remote logs only `ls-remote`. |
| Repository.ProbeStepThroughLsRemote | app/models/repository/git_remote.rb:164 | A reachable remote logs `ls-remote` and leaves a settled state. |
| Repository.ProbeStepReachable | app/models/repository/git_remote.rb:164-185 | With a reachable remote, the run is the reconciler's. |
| Repository.ProbeStepIsEffect | app/models/repository/git_remote.rb:164-185 | On a settled URL, the class's run is `SettledEffect`. |
| Repository.KnownHostSettles | app/models/repository/git_remote.rb:162 | `add_known_host(clone_host) if clone_protocol_ssh?` settles the URL. It raises only for an SSH URL that does not parse. |
| Repository.EnsureStepSettles | app/models/repository/git_remote.rb:162-164 | With the URL settled, the rest is the probe. |
| Repository.EnsureStepUnparsable | app/models/repository/git_remote.rb:162 | An unparsable SSH URL raises before any git command. |
| Repository.EnsureStepParsable | app/models/repository/git_remote.rb:161-185 | Otherwise the run is `EnsureEffect`. |
| Repository.EnsureStepIsEffect | app/models/repository/git_remote.rb:161-185 | `ensure_possibly_empty_clone_exists`, step by step, is `EnsureEffect`. |
| Repository.EnsureEffectOfSettled | app/models/repository/git_remote.rb:215-217 | Reconciling the URL `add_known_host` already settled is reconciling the original URL. |
| Repository.SettledAfterEnsure | app/models/repository/git_remote.rb:217-221 | After a reconciliation that returned, the URL is settled and the key file is in place. |
| Repository.FetchOutcomeKnownHostRaised | app/models/repository/git_remote.rb:215 | When `add_known_host(clone_host)` raises, `fetch` runs nothing. |
| Repository.EnsuredAfterKnownHost | app/models/repository/git_remote.rb:215-217 | The reconciliation inside `fetch` is the one for the URL before it. |
| Repository.FetchedAfterFetchAll | app/models/repository/git_remote.rb:221-223 | `fetch --all` is the one command after the reconciliation, and it leaves the mirrors alone. |
| Repository.RunAfterEnsure | app/models/repository/git_remote.rb:217-221 | The command after a reconciliation runs with the reconciliation's environment. |
| Repository.FetchAllAfterEnsure | app/models/repository/git_remote.rb:221-223 | `fetch --all` leaves the state `Fetched` describes and does not raise. |
| Repository.GitRemote.constructor | app/models/repository/git_remote.rb:10-11 | `PATH_PREFIX` and `KEYS_PREFIX` are their roots followed by '/'. A freshly loaded record keeps its fields, has no errors, has not fetched, and has run no git command. |
| Repository.GitRemote.CloneHost | app/models/repository/git_remote.rb:38-41 | `clone_host` as `CloneHostStep`, updating the stored URL. |
| Repository.GitRemote.WriteKey | app/models/repository/git_remote.rb:62-80 | The writes of `ensure_ssh_private_key_exists`, as `Provision`. |
| Repository.GitRemote.EnsureSshPrivateKeyExists | app/models/repository/git_remote.rb:61-81 | As `KeyStep`: `Provision` at the parsed host's key path, or the parse failure. |
| Repository.GitRemote.GitSshCommand | app/models/repository/git_remote.rb:83-86 | As `SshCommandStep`. |
| Repository.GitRemote.GitEnv | app/models/repository/git_remote.rb:88-94 | `NoMethodError` without a clone URL, otherwise `GitEnvFor`. |
| Repository.GitRemote.RunGit | app/models/repository/git_remote.rb:149-159 | The environment of `git_env`, then the command, logged with that environment. |
| Repository.GitRemote.AddKnownHostOfCloneHost | app/models/repository/git_remote.rb:162 | As `KnownHostStep`. |
| Repository.GitRemote.ReconcileLocal | app/models/repository/git_remote.rb:169-184 | The branch on the clone path, as `LocalStep`. |
| Repository.GitRemote.Probe | app/models/repository/git_remote.rb:164-185 | `ls-remote`, then the branch on the clone path, as `ProbeStep`. |
| Repository.GitRemote.EnsurePossiblyEmptyCloneExists | app/models/repository/git_remote.rb:161-185 | `NoMethodError` without a clone URL, otherwise the reconciliation `EnsureEffect`. |
| Repository.GitRemote.Fetch | app/models/repository/git_remote.rb:213-224 | As `FetchOutcome`: the reconciliation, then `fetch --all` even after a returned message. |
| Repository.GitRemote.FetchChangesets | app/models/repository/git_remote.rb:106-115 | A repeated call changes nothing. The first call is `fetch`. The flag is set afterwards. `fetch --all` has run at most once, and only after the flag was set. |
| Repository.GitRemote.ValidateClone | app/models/repository/git_remote.rb:140-141 | The reconciliation's message, if any, is appended to the errors. |
| Repository.GitRemote.InitializeParsed | app/models/repository/git_remote.rb:137-141 | A blank identifier and a blank clone path are filled from the parse. The others are kept. Then the clone is validated. |
| Repository.GitRemote.InitializeFromCloneUrl | app/models/repository/git_remote.rb:134-141 | The clone URL is stripped in place. An unparsable URL raises and changes nothing else. Otherwise the fields are filled and the reconciliation of the stripped URL is applied. |
| Repository.GitRemote.InitializeClone | app/models/repository/git_remote.rb:132-142 | Nothing happens without a clone URL, and `NoMethodError` is raised without `extra_info`. Otherwise `initialize_clone` fills the blank fields and adds a validation error exactly when the reconciliation returns a message. |

## Left out

- Process execution is abstract. `system`, `capture2`, the `chmod` process and the file system are modelled as outcomes decided by the oracles `GitOracle` and `KeyOracle`, not by how they run. Pipe draining and concurrency are left out.
- `add_known_host` is not modelled, because its body is entirely commented out. Only the `clone_host` call in its argument, which strips the clone URL, is kept.
- `default_branch` is not modelled. It depends on Redmine settings, project state and the scm adapter's branch cache.
- The `super` calls into `Repository::Git#fetch_changesets` and `Repository::Git#default_branch` are not modelled, because they belong to the host application.
- Logging (`puts`, `Rails.logger`) is not modelled, because it has no effect on the state. The message `fetch` logs is discarded in the model, just as it is not returned in the source.
- The commented-out deletion hook, `safe_attributes`, `scm_name`, the `ssh_public_key` accessor, `PLUGIN_ROOT` and the `Setting` reads are left out. The two roots are constructor parameters. lib/redmine_git_remote/patches/repositories_helper_patch.rb and init.rb are not part of this model.
- RubyString.Downcase: only ASCII letters are lowered. Ruby's full Unicode case mapping is left out.
- The record's `identifier` and `url` are strings, never `nil`. The crash `identifier.empty?` would raise on a `nil` identifier is not modelled.
- Repository.GitRemote.EnsureSshPrivateKeyExists: the host is computed once per call. The source recomputes it for the directory and for each use of the path. Each recomputation parses the already stripped URL again and gives the same host, which `CloneHostOfStripped` states.
- Git.Run: what git does is modelled only as far as the class observes it: exit status, `config --get` output and the bare repository with its origin. Fetched refs and object contents are left out.
- RubyString.LineEdit.Apply: its own contract bounds the two edits but does not determine them. The suffix property of `^.*pat` is stated only when the line changes, since an unchanged line is trivially a suffix of itself. The exact results, the cut right after the last `pat` and the removal of a present suffix, are stated by the lemmas `DropThroughLastExact` and `DropTrailingExact`. Putting them into `Apply`'s own ensures makes the solver loop on the sequence-slicing axioms.
- The key files and the mirrors are two separate trees (`keys` and `clones`). In the source they share one file system, and a user-set clone path could point into the keys root. The model does not capture a mirror and a key file touching the same path.
- Credentials.MakeDirectories: `mkdir_p` creates only the key directory itself in the model. Missing parent directories, which the real `mkdir_p` also creates, are not modelled.
- Where the documented behaviour and the code differ, the model follows the code:
  - a failing `chmod` is ignored, because `system` reports failure by its return value and the code does not look at it;
  - `parse` has no invalid-URL error: a blank URL, a URL of slashes and `scheme://` all end in `NoMethodError`;
  - `two_remotes_equal` ignores one line terminator and one trailing '/', not trailing whitespace;
  - a failed `remote add` leaves a bare repository without an origin behind;
  - `fetch` does not rescue, so an unparsable SSH URL or a failed key write raises out of it.
- `KEYS_PREFIX` already ends in '/', and `ssh_key_dir` adds another, so key paths contain "//". The model keeps the doubled slash rather than normalising it.
