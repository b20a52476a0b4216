/**
 * The remote-URL rules of Repository::GitRemote: `parse`, which rewrites a
 * clone URL into a local path, a host and a suggested identifier;
 * `clone_protocol_ssh?`, which tells SSH remotes from HTTP(S) ones; and
 * `two_remotes_equal`, the comparison used to detect that an existing mirror
 * points at a different remote.
 */
module RemoteUrl {
  import opened Wrappers
  import opened RubyString

  /** The hash `parse` returns: the stripped URL, the local path, the host and
      the suggested identifier. */
  datatype Remote = Remote(url: string, path: string, host: string, identifier: string)

  predicate IsIdentifierChar(c: char) {
    'a' <= c <= 'z' || '0' <= c <= '9' || c == '_' || c == '-'
  }

  /** Non-empty and made of `[a-z0-9_-]` only. */
  predicate IsIdentifier(s: string) {
    |s| > 0 && forall i | 0 <= i < |s| :: IsIdentifierChar(s[i])
  }

  /** `gsub(/[^a-z0-9_-]/, '-')`. */
  function Sanitize(s: string): (r: string)
    ensures |r| == |s|
    ensures forall i | 0 <= i < |s| :: IsIdentifierChar(r[i])
    ensures forall i | 0 <= i < |s| && IsIdentifierChar(s[i]) :: r[i] == s[i]
    ensures forall i | 0 <= i < |s| && !IsIdentifierChar(s[i]) :: r[i] == '-'
  {
    seq(|s|, i requires 0 <= i < |s| => if IsIdentifierChar(s[i]) then s[i] else '-')
  }

  /** The four rewrites of `parse`, in order: drop everything through the last
      "://" of a line, turn every ':' into '/', drop everything through the last
      '@' of a line, drop a ".git" that ends a line. */
  function RemotePath(url: string): (path: string)
    ensures ':' !in path && '@' !in path
    ensures forall c | c in path :: c in url || c == '/'
  {
    var noScheme := EachLine(url, DropThroughLast("://"));
    var slashed := ColonsToSlashes(noScheme);
    var noUser := EachLine(slashed, DropThroughLast("@"));
    EachLineDropsChar(slashed, '@');
    assert forall c | c in slashed :: c in url || c == '/' by {
      forall c | c in slashed ensures c in url || c == '/' {
        var i :| 0 <= i < |slashed| && slashed[i] == c;
        assert noScheme[i] in noScheme;
      }
    }
    EachLine(noUser, DropTrailing(".git"))
  }

  /** `parse`: the URL is stripped in place (`strip!`), then taken apart. */
  function Parse(raw: string): (r: Option<Remote>)
    ensures r.None? <==> OnlySlashes(RemotePath(Strip(raw)))
    ensures r.Some? ==> r.value.url == Strip(raw) && r.value.path == RemotePath(r.value.url)
    ensures r.Some? ==> ':' !in r.value.path && '@' !in r.value.path
    ensures r.Some? ==> var Remote(_, path, host, _) := r.value;
      && '/' !in host
      && |host| <= |path| && path[..|host|] == host
      && (|host| < |path| ==> path[|host|] == '/')
    ensures r.Some? ==> IsIdentifier(r.value.identifier)
  {
    ParseStripped(Strip(raw))
  }

  /** The rest of `parse` once the URL is stripped: the path rewrites, the
      split and the identifier. It has no error path of its own: when the path
      is empty or made of slashes only, `split('/').last` is nil and `downcase`
      raises NoMethodError, which is `None` here. */
  function ParseStripped(url: string): (r: Option<Remote>)
    ensures r.None? <==> OnlySlashes(RemotePath(url))
    ensures r.Some? ==> r.value.url == url && r.value.path == RemotePath(url)
    ensures r.Some? ==> ':' !in r.value.path && '@' !in r.value.path
    ensures r.Some? ==> var Remote(_, path, host, _) := r.value;
      && '/' !in host
      && |host| <= |path| && path[..|host|] == host
      && (|host| < |path| ==> path[|host|] == '/')
    ensures r.Some? ==> IsIdentifier(r.value.identifier)
  {
    var path := RemotePath(url);
    var segments := Split(path);
    SplitShape(path);
    if segments == [] then None
    else Some(Remote(url, path, segments[0], IdentifierOf(path)))
  }

  /** The identifier `parse` suggests for a path: its last '/'-separated piece,
      lower-cased, with every character outside `[a-z0-9_-]` replaced by '-'. */
  function IdentifierOf(path: string): (id: string)
    requires Split(path) != []
    ensures IsIdentifier(id)
  {
    SplitShape(path);
    var segments := Split(path);
    Sanitize(Downcase(segments[|segments| - 1]))
  }

  /** `parse` strips its argument in place (`strip!`), and parsing the stripped
      string again gives the same answer. */
  lemma ParseAfterStrip(raw: string)
    ensures Parse(Strip(raw)) == Parse(raw)
  {
    StripIdempotent(raw);
  }

  /** The last path segment of a parsed remote, as the identifier is derived
      from it: an already lower-case name made of `[a-z0-9_-]` is kept as it is. */
  lemma IdentifierKeepsPlainName(s: string)
    requires forall i | 0 <= i < |s| :: IsIdentifierChar(s[i])
    ensures Sanitize(Downcase(s)) == s
  {
    assert Downcase(s) == s;
  }

  /** Upper-case letters are lowered, every other character becomes '-'. */
  lemma IdentifierOfMixedName()
    ensures Sanitize(Downcase("My.Repo")) == "my-repo"
  {
    assert Downcase("My.Repo") == "my.repo";
  }

  // ---------------------------------------------------------------------------
  // The URL forms git accepts all give the same path and host
  // ---------------------------------------------------------------------------

  /** A URL component that holds no ':', no '@' and no strip space (so no line
      feed either). */
  predicate IsPlain(s: string) {
    forall i | 0 <= i < |s| :: s[i] != ':' && s[i] != '@' && !IsStripSpace(s[i])
  }

  function TrimGit(s: string): string {
    DropTrailing(".git").Apply(s)
  }

  lemma {:induction false} LastEndAfterSeparator(a: string, pat: string, b: string)
    requires |pat| > 0 && pat[0] !in pat[1..] && pat[0] !in b
    ensures LastEnd(a + pat + b, pat) == Some(|a| + |pat|)
  {
    var s := a + pat + b;
    assert s[|a|..|a| + |pat|] == pat;
    assert EndsAt(s, pat, |a| + |pat|);
    forall k | |a| + |pat| < k <= |s| ensures !EndsAt(s, pat, k) {
      var start := k - |pat|;
      if start < |a| + |pat| {
        assert s[start] == pat[start - |a|];
        assert pat[start - |a|] in pat[1..];
      } else {
        assert s[start] == b[start - |a| - |pat|];
        assert s[start] in b;
      }
      assert s[start..k][0] == s[start];
    }
  }

  lemma {:induction false} LastEndAbsent(s: string, pat: string)
    requires |pat| > 0 && pat[0] !in s
    ensures LastEnd(s, pat) == None
    decreases |s|
  {
    if |s| >= |pat| {
      var t := s[|s| - |pat|..];
      assert t[0] == s[|s| - |pat|] && s[|s| - |pat|] in s;
      assert t != pat;
      var u := s[..|s| - 1];
      assert forall c | c in u :: c in s by {
        forall c | c in u ensures c in s {
          var j :| 0 <= j < |u| && u[j] == c;
          assert s[j] == c;
        }
      }
      LastEndAbsent(u, pat);
    }
  }

  /** No "://" can occur where every ':' is followed by something other than '/'. */
  lemma NoSchemeSeparator(s: string)
    requires forall i | 0 <= i < |s| - 1 && s[i] == ':' :: s[i + 1] != '/'
    ensures LastEnd(s, "://") == None
  {
    forall k | 0 <= k <= |s| ensures !EndsAt(s, "://", k) {
      if 3 <= k {
        assert s[k - 3..k][0] == s[k - 3] && s[k - 3..k][1] == s[k - 2];
      }
    }
  }

  lemma ColonsToSlashesAt(a: string, b: string)
    requires ':' !in a && ':' !in b
    ensures ColonsToSlashes(a + ":" + b) == a + "/" + b
  {
    var s := a + ":" + b;
    assert forall i | 0 <= i < |s| && i != |a| :: s[i] != ':' by {
      forall i | 0 <= i < |s| && i != |a| ensures s[i] != ':' {
        if i < |a| { assert s[i] == a[i]; } else { assert s[i] == b[i - |a| - 1]; }
      }
    }
  }

  lemma ColonsToSlashesNone(s: string)
    requires ':' !in s
    ensures ColonsToSlashes(s) == s
  {
  }

  lemma TrimGitAfterHost(host: string, repo: string)
    requires '/' !in host
    ensures TrimGit(host + "/" + repo) == host + "/" + TrimGit(repo)
  {
    var s := host + "/" + repo;
    if |repo| >= 4 && repo[|repo| - 4..] == ".git" {
      assert s[|s| - 4..] == repo[|repo| - 4..];
      assert s[..|s| - 4] == host + "/" + repo[..|repo| - 4];
    } else if |repo| >= 4 {
      assert s[|s| - 4..] == repo[|repo| - 4..];
    } else if |s| >= 4 {
      assert s[|s| - 4..][3 - |repo|] == '/';
    }
  }

  lemma HostAndRepoOneLine(host: string, repo: string)
    requires IsPlain(host) && IsPlain(repo)
    ensures var rest := host + "/" + repo; '@' !in rest && '\n' !in rest && ':' !in rest
  {
    var rest := host + "/" + repo;
    forall i | 0 <= i < |rest| ensures rest[i] != '@' && rest[i] != '\n' && rest[i] != ':' {
      if i < |host| { assert rest[i] == host[i]; }
      else if i > |host| { assert rest[i] == repo[i - |host| - 1]; }
    }
  }

  lemma UserDropped(user: string, rest: string)
    requires IsPlain(user) && '@' !in rest && '\n' !in rest
    ensures EachLine(user + "@" + rest, DropThroughLast("@")) == rest
  {
    var t := user + "@" + rest;
    assert '\n' !in t by {
      forall i | 0 <= i < |t| ensures t[i] != '\n' {
        if i < |user| { assert t[i] == user[i]; }
        else if i > |user| { assert t[i] == rest[i - |user| - 1]; }
      }
    }
    EachLineSingleLine(t, DropThroughLast("@"));
    LastEndAfterSeparator(user, "@", rest);
    assert t[|user| + 1..] == rest;
  }

  lemma NoUserKept(rest: string)
    requires '@' !in rest && '\n' !in rest
    ensures EachLine(rest, DropThroughLast("@")) == rest
  {
    EachLineSingleLine(rest, DropThroughLast("@"));
    LastEndAbsent(rest, "@");
  }

  lemma GitTrimmed(host: string, repo: string)
    requires '/' !in host && '\n' !in host + "/" + repo
    ensures EachLine(host + "/" + repo, DropTrailing(".git")) == host + "/" + TrimGit(repo)
  {
    EachLineSingleLine(host + "/" + repo, DropTrailing(".git"));
    TrimGitAfterHost(host, repo);
  }

  lemma UserAndRestOneLine(user: string, rest: string)
    requires IsPlain(user) && ':' !in rest && '\n' !in rest
    ensures var t := user + "@" + rest; ':' !in t && '\n' !in t
  {
    var t := user + "@" + rest;
    forall i | 0 <= i < |t| ensures t[i] != ':' && t[i] != '\n' {
      if i < |user| { assert t[i] == user[i]; }
      else if i > |user| { assert t[i] == rest[i - |user| - 1]; }
    }
  }

  lemma RemotePathBySteps(url: string, noScheme: string, noUser: string, path: string)
    requires EachLine(url, DropThroughLast("://")) == noScheme
    requires EachLine(ColonsToSlashes(noScheme), DropThroughLast("@")) == noUser
    requires EachLine(noUser, DropTrailing(".git")) == path
    ensures RemotePath(url) == path
  {
  }

  lemma SchemeDropped(scheme: string, rest: string)
    requires forall i | 0 <= i < |scheme| :: scheme[i] != '\n'
    requires ':' !in rest && '\n' !in rest
    ensures EachLine(scheme + "://" + rest, DropThroughLast("://")) == rest
  {
    var s := scheme + "://" + rest;
    assert '\n' !in s by {
      assert '\n' !in scheme && '\n' !in "://";
    }
    EachLineSingleLine(s, DropThroughLast("://"));
    LastEndAfterSeparator(scheme, "://", rest);
    assert s[|scheme| + 3..] == rest;
  }

  lemma ScpFormKept(front: string, repo: string)
    requires ':' !in front && '\n' !in front && IsPlain(repo)
    requires repo == [] || repo[0] != '/'
    ensures EachLine(front + ":" + repo, DropThroughLast("://")) == front + ":" + repo
  {
    var s := front + ":" + repo;
    assert '\n' !in s by {
      forall i | 0 <= i < |s| ensures s[i] != '\n' {
        if i < |front| { assert s[i] == front[i]; }
        else if i > |front| { assert s[i] == repo[i - |front| - 1]; }
      }
    }
    forall i | 0 <= i < |s| - 1 ensures s[i] == ':' ==> s[i + 1] != '/' {
      if i < |front| { assert s[i] == front[i]; }
      else if i > |front| { assert s[i] == repo[i - |front| - 1]; }
      else { assert s[i + 1] == repo[0]; }
    }
    NoSchemeSeparator(s);
    EachLineSingleLine(s, DropThroughLast("://"));
  }

  /** `scheme://user@host/repo`. */
  lemma FormSchemeUser(scheme: string, user: string, host: string, repo: string)
    requires forall i | 0 <= i < |scheme| :: scheme[i] != '\n'
    requires IsPlain(user) && IsPlain(host) && IsPlain(repo) && '/' !in host
    ensures RemotePath(scheme + "://" + user + "@" + host + "/" + repo) == host + "/" + TrimGit(repo)
  {
    var rest := host + "/" + repo;
    var withUser := user + "@" + rest;
    HostAndRepoOneLine(host, repo);
    UserAndRestOneLine(user, rest);
    assert scheme + "://" + user + "@" + host + "/" + repo == scheme + "://" + withUser;
    SchemeDropped(scheme, withUser);
    ColonsToSlashesNone(withUser);
    UserDropped(user, rest);
    GitTrimmed(host, repo);
    RemotePathBySteps(scheme + "://" + withUser, withUser, rest, host + "/" + TrimGit(repo));
  }

  /** `scheme://host/repo`. */
  lemma FormScheme(scheme: string, host: string, repo: string)
    requires forall i | 0 <= i < |scheme| :: scheme[i] != '\n'
    requires IsPlain(host) && IsPlain(repo) && '/' !in host
    ensures RemotePath(scheme + "://" + host + "/" + repo) == host + "/" + TrimGit(repo)
  {
    var rest := host + "/" + repo;
    HostAndRepoOneLine(host, repo);
    assert scheme + "://" + host + "/" + repo == scheme + "://" + rest;
    SchemeDropped(scheme, rest);
    ColonsToSlashesNone(rest);
    NoUserKept(rest);
    GitTrimmed(host, repo);
    RemotePathBySteps(scheme + "://" + rest, rest, rest, host + "/" + TrimGit(repo));
  }

  /** `user@host:repo`, the scp-like form. */
  lemma FormScpUser(user: string, host: string, repo: string)
    requires IsPlain(user) && IsPlain(host) && IsPlain(repo) && '/' !in host
    requires repo == [] || repo[0] != '/'
    ensures RemotePath(user + "@" + host + ":" + repo) == host + "/" + TrimGit(repo)
  {
    var rest := host + "/" + repo;
    var front := user + "@" + host;
    HostAndRepoOneLine(host, repo);
    UserAndRestOneLine(user, host);
    ScpFormKept(front, repo);
    ColonsToSlashesAt(front, repo);
    assert front + "/" + repo == user + "@" + rest;
    UserDropped(user, rest);
    GitTrimmed(host, repo);
    RemotePathBySteps(front + ":" + repo, front + ":" + repo, rest, host + "/" + TrimGit(repo));
  }

  /** `host:repo`, the scp-like form without a user. */
  lemma FormScp(host: string, repo: string)
    requires IsPlain(host) && IsPlain(repo) && '/' !in host
    requires repo == [] || repo[0] != '/'
    ensures RemotePath(host + ":" + repo) == host + "/" + TrimGit(repo)
  {
    var rest := host + "/" + repo;
    HostAndRepoOneLine(host, repo);
    assert ':' !in host && '\n' !in host by {
      forall i | 0 <= i < |host| ensures host[i] != ':' && host[i] != '\n' { assert host[i] == rest[i]; }
    }
    ScpFormKept(host, repo);
    ColonsToSlashesAt(host, repo);
    NoUserKept(rest);
    GitTrimmed(host, repo);
    RemotePathBySteps(host + ":" + repo, host + ":" + repo, rest, host + "/" + TrimGit(repo));
  }

  /** The forms of a remote git accepts (`scheme://user@host/repo`,
      `scheme://host/repo`, `user@host:repo` and `host:repo`) all give the
      path `host/repo` with one trailing ".git" removed. */
  lemma EquivalentFormsSamePath(scheme: string, user: string, host: string, repo: string)
    requires forall i | 0 <= i < |scheme| :: scheme[i] != '\n'
    requires IsPlain(user) && IsPlain(host) && IsPlain(repo) && '/' !in host
    requires repo == [] || repo[0] != '/'
    ensures var p := host + "/" + TrimGit(repo);
      && RemotePath(scheme + "://" + user + "@" + host + "/" + repo) == p
      && RemotePath(scheme + "://" + host + "/" + repo) == p
      && RemotePath(user + "@" + host + ":" + repo) == p
      && RemotePath(host + ":" + repo) == p
  {
    FormSchemeUser(scheme, user, host, repo);
    FormScheme(scheme, host, repo);
    FormScpUser(user, host, repo);
    FormScp(host, repo);
  }

  lemma {:induction false} SegmentsAppend(front: string, name: string)
    requires '/' !in name
    ensures Segments(front + "/" + name) == Segments(front) + [name]
    decreases |front|
  {
    var s := front + "/" + name;
    var i := SlashIndex(front);
    assert s[..i] == front[..i];
    if i == |front| {
      assert s[..|front|] == front;
      SlashIndexIs(s, |front|);
      assert s[|front| + 1..] == name;
      SlashIndexIs(name, |name|);
      assert Segments(name) == [name];
      assert Segments(front) == [front];
    } else {
      SlashIndexIs(s, i);
      assert s[i + 1..] == front[i + 1..] + "/" + name;
      SegmentsAppend(front[i + 1..], name);
    }
  }

  /** The identifier comes from the last path segment. */
  lemma LastSegment(front: string, name: string)
    requires '/' !in name && name != ""
    ensures var segs := Split(front + "/" + name); segs != [] && segs[|segs| - 1] == name
  {
    SegmentsAppend(front, name);
  }

  /** The remote a parse yields is determined by its path: host and identifier
      agree whenever paths do. */
  lemma SamePathSameRemote(a: string, b: string)
    requires RemotePath(Strip(a)) == RemotePath(Strip(b))
    ensures Parse(a).Some? <==> Parse(b).Some?
    ensures Parse(a).Some? ==> Parse(a).value.(url := "") == Parse(b).value.(url := "")
  {
  }

  /** A stripped URL whose path starts with a non-empty host and a slash parses
      to that URL, path and host. */
  lemma ParseByPath(raw: string, host: string, p: string)
    requires Strip(raw) == raw && RemotePath(raw) == p
    requires host != "" && '/' !in host && |host| < |p| && p[..|host|] == host && p[|host|] == '/'
    ensures Split(p) != []
    ensures Parse(raw) == Some(Remote(raw, p, host, IdentifierOf(p)))
  {
    assert p[0] == host[0] && host[0] in host;
    SplitShape(p);
    SlashIndexIs(p, |host|);
  }

  lemma FormParses(f: string, host: string, repo: string)
    requires |f| > 0 && !IsStripSpace(f[0]) && !IsStripSpace(f[|f| - 1])
    requires IsPlain(host) && host != "" && '/' !in host
    requires RemotePath(f) == host + "/" + TrimGit(repo)
    ensures Split(host + "/" + TrimGit(repo)) != []
    ensures Parse(f) == Some(Remote(f, host + "/" + TrimGit(repo), host, IdentifierOf(host + "/" + TrimGit(repo))))
  {
    var p := host + "/" + TrimGit(repo);
    assert p[|host|] == '/' && p[..|host|] == host;
    ParseByPath(f, host, p);
  }

  lemma ParseSchemeUser(scheme: string, user: string, host: string, repo: string)
    requires forall i | 0 <= i < |scheme| :: !IsStripSpace(scheme[i])
    requires IsPlain(user) && IsPlain(host) && IsPlain(repo) && '/' !in host
    requires host != "" && repo != ""
    ensures var p := host + "/" + TrimGit(repo); var f := scheme + "://" + user + "@" + host + "/" + repo;
      Split(p) != [] && Parse(f) == Some(Remote(f, p, host, IdentifierOf(p)))
  {
    FormSchemeUser(scheme, user, host, repo);
    var f := scheme + "://" + user + "@" + host + "/" + repo;
    assert f[|f| - 1] == repo[|repo| - 1];
    assert f[0] == (if |scheme| > 0 then scheme[0] else ':');
    FormParses(f, host, repo);
  }

  lemma ParseScheme(scheme: string, host: string, repo: string)
    requires forall i | 0 <= i < |scheme| :: !IsStripSpace(scheme[i])
    requires IsPlain(host) && IsPlain(repo) && '/' !in host
    requires host != "" && repo != ""
    ensures var p := host + "/" + TrimGit(repo); var f := scheme + "://" + host + "/" + repo;
      Split(p) != [] && Parse(f) == Some(Remote(f, p, host, IdentifierOf(p)))
  {
    FormScheme(scheme, host, repo);
    var f := scheme + "://" + host + "/" + repo;
    assert f[|f| - 1] == repo[|repo| - 1];
    assert f[0] == (if |scheme| > 0 then scheme[0] else ':');
    FormParses(f, host, repo);
  }

  lemma ParseScpUser(user: string, host: string, repo: string)
    requires IsPlain(user) && IsPlain(host) && IsPlain(repo) && '/' !in host
    requires host != "" && repo != "" && repo[0] != '/'
    ensures var p := host + "/" + TrimGit(repo); var f := user + "@" + host + ":" + repo;
      Split(p) != [] && Parse(f) == Some(Remote(f, p, host, IdentifierOf(p)))
  {
    FormScpUser(user, host, repo);
    var f := user + "@" + host + ":" + repo;
    assert f[|f| - 1] == repo[|repo| - 1];
    assert f[0] == (if |user| > 0 then user[0] else '@');
    FormParses(f, host, repo);
  }

  lemma ParseScp(host: string, repo: string)
    requires IsPlain(host) && IsPlain(repo) && '/' !in host
    requires host != "" && repo != "" && repo[0] != '/'
    ensures var p := host + "/" + TrimGit(repo); var f := host + ":" + repo;
      Split(p) != [] && Parse(f) == Some(Remote(f, p, host, IdentifierOf(p)))
  {
    FormScp(host, repo);
    var f := host + ":" + repo;
    assert f[|f| - 1] == repo[|repo| - 1] && f[0] == host[0];
    FormParses(f, host, repo);
  }

  /** All four forms parse to the same path, the given host and the same
      identifier; only the stripped URL differs. */
  lemma EquivalentFormsSameRemote(scheme: string, user: string, host: string, repo: string)
    requires forall i | 0 <= i < |scheme| :: !IsStripSpace(scheme[i])
    requires IsPlain(user) && IsPlain(host) && IsPlain(repo) && '/' !in host
    requires host != "" && repo != "" && repo[0] != '/'
    ensures var p := host + "/" + TrimGit(repo);
      && Split(p) != []
      && Parse(scheme + "://" + user + "@" + host + "/" + repo)
         == Some(Remote(scheme + "://" + user + "@" + host + "/" + repo, p, host, IdentifierOf(p)))
      && Parse(scheme + "://" + host + "/" + repo)
         == Some(Remote(scheme + "://" + host + "/" + repo, p, host, IdentifierOf(p)))
      && Parse(user + "@" + host + ":" + repo)
         == Some(Remote(user + "@" + host + ":" + repo, p, host, IdentifierOf(p)))
      && Parse(host + ":" + repo)
         == Some(Remote(host + ":" + repo, p, host, IdentifierOf(p)))
  {
    ParseSchemeUser(scheme, user, host, repo);
    ParseScheme(scheme, host, repo);
    ParseScpUser(user, host, repo);
    ParseScp(host, repo);
  }

  lemma NamedRepoIsPlain(org: string, name: string)
    requires IsPlain(org) && IsIdentifier(name)
    ensures IsPlain(org + "/" + name + ".git")
    ensures TrimGit(org + "/" + name + ".git") == org + "/" + name
  {
    var repo := org + "/" + name + ".git";
    forall i | 0 <= i < |repo| ensures repo[i] != ':' && repo[i] != '@' && !IsStripSpace(repo[i]) {
      if i < |org| { assert repo[i] == org[i]; }
      else if |org| < i < |org| + 1 + |name| { assert repo[i] == name[i - |org| - 1]; }
    }
    assert repo[|repo| - 4..] == ".git" && repo[..|repo| - 4] == org + "/" + name;
  }

  /** A path whose last piece is already a valid identifier suggests exactly
      that identifier. */
  lemma IdentifierOfNamedPath(front: string, name: string)
    requires IsIdentifier(name)
    ensures Split(front + "/" + name) != [] && IdentifierOf(front + "/" + name) == name
  {
    assert '/' !in name by {
      forall i | 0 <= i < |name| ensures name[i] != '/' { assert IsIdentifierChar(name[i]); }
    }
    LastSegment(front, name);
    IdentifierKeepsPlainName(name);
  }

  /** An scp-like remote `user@host:org/name.git`, the usual shape of an SSH
      remote, becomes the path `host/org/name` with `name` as its identifier. */
  lemma ScpRemoteOfNamedRepo(user: string, host: string, org: string, name: string)
    requires IsPlain(user) && IsPlain(host) && IsPlain(org) && '/' !in host
    requires host != "" && org != "" && org[0] != '/' && IsIdentifier(name)
    ensures var url := user + "@" + host + ":" + (org + "/" + name + ".git");
      Parse(url) == Some(Remote(url, host + "/" + (org + "/" + name), host, name))
  {
    var repo := org + "/" + name + ".git";
    NamedRepoIsPlain(org, name);
    assert repo[0] == org[0];
    ParseScpUser(user, host, repo);
    IdentifierOfRepoPath(host, org, name);
  }

  lemma IdentifierOfRepoPath(host: string, org: string, name: string)
    requires IsIdentifier(name)
    ensures Split(host + "/" + (org + "/" + name)) != [] && IdentifierOf(host + "/" + (org + "/" + name)) == name
  {
    assert host + "/" + (org + "/" + name) == (host + "/" + org) + "/" + name;
    IdentifierOfNamedPath(host + "/" + org, name);
  }

  lemma RemotePathOfEmpty()
    ensures RemotePath("") == ""
  {
    EachLineSingleLine("", DropThroughLast("://"));
    EachLineSingleLine("", DropThroughLast("@"));
    EachLineSingleLine("", DropTrailing(".git"));
    RemotePathBySteps("", "", "", "");
  }

  /** Parsing fails (raises NoMethodError, in the source) on an empty or blank
      URL. */
  lemma ParseBlank(blank: string)
    requires forall i | 0 <= i < |blank| :: IsStripSpace(blank[i])
    ensures Parse(blank) == None
  {
    RemotePathOfEmpty();
  }

  lemma RemotePathOfSlashes(u: string)
    requires u != "" && OnlySlashes(u)
    ensures RemotePath(u) == u
  {
    assert ':' !in u && '@' !in u && '\n' !in u;
    EachLineSingleLine(u, DropThroughLast("://"));
    LastEndAbsent(u, "://");
    ColonsToSlashesNone(u);
    NoUserKept(u);
    EachLineSingleLine(u, DropTrailing(".git"));
    assert DropTrailing(".git").Apply(u) == u by {
      if |u| >= 4 { assert u[|u| - 4..][3] == '/'; }
    }
    RemotePathBySteps(u, u, u, u);
  }

  /** ... and on a URL made of nothing but slashes. */
  lemma ParseSlashes(u: string)
    requires u != "" && OnlySlashes(u)
    ensures Parse(u) == None
  {
    assert u[0] == '/' && u[|u| - 1] == '/';
    RemotePathOfSlashes(u);
  }

  /** ... and on a scheme with nothing after its "://". */
  lemma ParseSchemeOnly(scheme: string)
    requires forall i | 0 <= i < |scheme| :: !IsStripSpace(scheme[i])
    ensures Parse(scheme + "://") == None
  {
    var u := scheme + "://";
    assert Strip(u) == u by { assert u[|u| - 1] == '/'; if |scheme| > 0 { assert u[0] == scheme[0]; } }
    SchemeDropped(scheme, "");
    assert u + "" == u;
    ColonsToSlashesNone("");
    RemotePathOfEmpty();
    RemotePathBySteps(u, "", "", "");
  }

  // ---------------------------------------------------------------------------
  // clone_protocol_ssh?
  // ---------------------------------------------------------------------------

  predicate StartsWithHttp(s: string) {
    |s| >= 4 && s[..4] == "http"
  }

  /** `/^http/` matches: some line of `s` starts with "http". */
  predicate HttpAtLineStart(s: string)
    decreases |s|
  {
    StartsWithHttp(s) || (var i := NewlineIndex(s); i < |s| && HttpAtLineStart(s[i + 1..]))
  }

  /** `clone_protocol_ssh?`: anything whose lines do not start with "http" is
      taken for SSH. For a one-line URL that is: it does not start with "http". */
  function CloneProtocolSsh(cloneUrl: string): (ssh: bool)
    ensures '\n' !in cloneUrl ==> (ssh <==> !StartsWithHttp(cloneUrl))
    ensures StartsWithHttp(cloneUrl) ==> !ssh
  {
    !HttpAtLineStart(cloneUrl)
  }

  /** The classification is by a case-sensitive prefix: `http://` and
      `https://` URLs are HTTP; scp-like, `ssh://` and upper-case `HTTPS://`
      ones are SSH, and so is a URL with a leading space until it is stripped. */
  lemma ProtocolOfForms(rest: string)
    requires '\n' !in rest
    ensures !CloneProtocolSsh("https://" + rest) && !CloneProtocolSsh("http://" + rest)
    ensures CloneProtocolSsh("git@" + rest) && CloneProtocolSsh("ssh://" + rest)
    ensures CloneProtocolSsh("HTTPS://" + rest) && CloneProtocolSsh(" https://" + rest)
  {
    assert ("https://" + rest)[..4] == "http";
    assert ("http://" + rest)[..4] == "http";
    OneLine("git@", rest);
    OneLine("ssh://", rest);
    OneLine("HTTPS://", rest);
    OneLine(" https://", rest);
    assert ("git@" + rest)[0] == 'g';
    assert ("ssh://" + rest)[0] == 's';
    assert ("HTTPS://" + rest)[0] == 'H';
    assert (" https://" + rest)[0] == ' ';
  }

  lemma OneLine(front: string, rest: string)
    requires '\n' !in front && '\n' !in rest
    ensures '\n' !in front + rest
  {
  }

  /** `^` anchors at every line: a URL whose second line starts with "http"
      counts as HTTP. */
  lemma ProtocolLineAnchored(first: string, rest: string)
    requires '\n' !in first
    ensures !CloneProtocolSsh(first + "\n" + "http" + rest)
  {
    var s := first + "\n" + "http" + rest;
    assert s[..|first|] == first;
    NewlineIndexIs(s, |first|);
    assert s[|first| + 1..] == "http" + rest;
    assert StartsWithHttp(s[|first| + 1..]);
    assert HttpAtLineStart(s[|first| + 1..]);
    assert HttpAtLineStart(s);
    assert s[|first| + 1..] == "http" + rest;
    assert ("http" + rest)[..4] == "http";
  }

  // ---------------------------------------------------------------------------
  // two_remotes_equal
  // ---------------------------------------------------------------------------

  /** `gsub(/\/$/, '')`: every '/' that ends a line is removed, one per line. */
  function DropSlashesAtLineEnd(s: string): (r: string)
    ensures |r| <= |s|
  {
    if |s| == 0 then ""
    else if s[0] == '/' && (|s| == 1 || s[1] == '\n') then DropSlashesAtLineEnd(s[1..])
    else [s[0]] + DropSlashesAtLineEnd(s[1..])
  }

  /** What `two_remotes_equal` compares: `chomp`, then `gsub(/\/$/, '')`. */
  function NormalizeRemote(s: string): string {
    DropSlashesAtLineEnd(Chomp(s))
  }

  /** `two_remotes_equal`. */
  predicate RemotesEqual(a: string, b: string) {
    NormalizeRemote(a) == NormalizeRemote(b)
  }

  /** `two_remotes_equal` is an equivalence. */
  lemma RemotesEqualIsEquivalence(a: string, b: string, c: string)
    ensures RemotesEqual(a, a)
    ensures RemotesEqual(a, b) ==> RemotesEqual(b, a)
    ensures RemotesEqual(a, b) && RemotesEqual(b, c) ==> RemotesEqual(a, c)
  {
  }

  lemma {:induction false} DropSlashAppended(u: string)
    requires u == [] || u[|u| - 1] != '/'
    ensures DropSlashesAtLineEnd(u + "/") == DropSlashesAtLineEnd(u)
    decreases |u|
  {
    if |u| == 0 {
      assert DropSlashesAtLineEnd("/") == DropSlashesAtLineEnd("");
    } else {
      var s := u + "/";
      assert s[1..] == u[1..] + "/";
      if |u| == 1 {
        assert s[1] == '/';
        assert DropSlashesAtLineEnd(u[1..] + "/") == "";
      } else {
        assert s[1] == u[1];
        DropSlashAppended(u[1..]);
      }
    }
  }

  /** On one line with no slash at its end there is nothing to drop. */
  lemma {:induction false} DropSlashesNothingToDrop(u: string)
    requires '\n' !in u && (u == [] || u[|u| - 1] != '/')
    ensures DropSlashesAtLineEnd(u) == u
    decreases |u|
  {
    if |u| > 0 {
      assert u[1..] == [] || u[1..][|u[1..]| - 1] == u[|u| - 1];
      assert '\n' !in u[1..];
      DropSlashesNothingToDrop(u[1..]);
      assert |u| > 1 ==> u[1] != '\n';
    }
  }

  /** On one line ending in a slash, exactly that slash is dropped. */
  lemma {:induction false} DropSlashesOneSlash(u: string)
    requires '\n' !in u && |u| > 0 && u[|u| - 1] == '/'
    ensures DropSlashesAtLineEnd(u) == u[..|u| - 1]
    decreases |u|
  {
    if |u| > 1 {
      assert u[1..][|u[1..]| - 1] == '/';
      assert '\n' !in u[1..];
      DropSlashesOneSlash(u[1..]);
      assert u[1] != '\n';
      assert u[..|u| - 1] == [u[0]] + u[1..][..|u[1..]| - 1];
    }
  }

  /** One trailing '/', one trailing line terminator, or both, make no
      difference to `two_remotes_equal`, for a URL that ends in neither. */
  lemma ChompKeepsSlash(v: string)
    requires |v| > 0 && v[|v| - 1] == '/'
    ensures Chomp(v) == v
  {
    if |v| >= 2 { assert v[|v| - 2..][1] == '/'; }
  }

  lemma TrailingSlashIgnored(u: string)
    requires !EndsWithLineTerminator(u) && (u == [] || u[|u| - 1] != '/')
    ensures RemotesEqual(u, u + "/")
  {
    ChompRemovesOneTerminator(u);
    ChompKeepsSlash(u + "/");
    DropSlashAppended(u);
    assert NormalizeRemote(u) == DropSlashesAtLineEnd(u);
    assert NormalizeRemote(u + "/") == DropSlashesAtLineEnd(u + "/");
  }

  lemma TrailingTerminatorIgnored(u: string)
    requires !EndsWithLineTerminator(u)
    ensures RemotesEqual(u, u + "\n") && RemotesEqual(u, u + "\r\n") && RemotesEqual(u, u + "\r")
  {
    ChompRemovesOneTerminator(u);
  }

  lemma TrailingSlashAndTerminatorIgnored(u: string)
    requires !EndsWithLineTerminator(u) && (u == [] || u[|u| - 1] != '/')
    ensures RemotesEqual(u, u + "/" + "\n") && RemotesEqual(u, u + "/" + "\r\n")
  {
    TrailingTerminatorIgnored(u + "/");
    TrailingSlashIgnored(u);
  }

  /** What `git config --get` prints is the stored URL and a line feed; it
      compares equal to that URL. */
  lemma ConfigOutputMatchesStoredUrl(u: string)
    requires !EndsWithLineTerminator(u)
    ensures RemotesEqual(u + "\n", u)
  {
    TrailingTerminatorIgnored(u);
  }

  /** For one-line URLs that end in neither '/' nor a line terminator, as
      stripped URLs usually are, `two_remotes_equal` is string equality, with
      or without the line feed `git config` prints. */
  lemma RemotesEqualOnPlainUrls(u: string, v: string)
    requires '\n' !in u && !EndsWithLineTerminator(u) && (u == [] || u[|u| - 1] != '/')
    requires '\n' !in v && !EndsWithLineTerminator(v) && (v == [] || v[|v| - 1] != '/')
    ensures RemotesEqual(u, v) <==> u == v
    ensures RemotesEqual(u + "\n", v) <==> u == v
  {
    ChompRemovesOneTerminator(u);
    ChompRemovesOneTerminator(v);
    DropSlashesNothingToDrop(u);
    DropSlashesNothingToDrop(v);
  }

  /** Only one line terminator and one slash are ignored: a trailing space
      counts ... */
  lemma RemotesEqualKeepsTrailingSpace(u: string)
    requires '\n' !in u && !EndsWithLineTerminator(u) && (u == [] || u[|u| - 1] != '/')
    ensures !RemotesEqual(u, u + " ")
  {
    var sp := u + " ";
    assert '\n' !in sp && sp[|sp| - 1] == ' ';
    RemotesEqualOnPlainUrls(u, sp);
    assert |sp| != |u|;
  }

  lemma NormalizeDoubleSlash(u: string)
    requires '\n' !in u
    ensures NormalizeRemote(u + "/" + "/") == u + "/"
  {
    var w := u + "/" + "/";
    assert '\n' !in w && w[|w| - 1] == '/';
    ChompKeepsSlash(w);
    DropSlashesOneSlash(w);
    assert w[..|w| - 1] == u + "/";
  }

  /** ... and so does a second trailing slash. */
  lemma RemotesEqualKeepsSecondSlash(u: string)
    requires '\n' !in u && !EndsWithLineTerminator(u) && (u == [] || u[|u| - 1] != '/')
    ensures !RemotesEqual(u, u + "/" + "/")
  {
    NormalizeDoubleSlash(u);
    ChompRemovesOneTerminator(u);
    DropSlashesNothingToDrop(u);
    assert NormalizeRemote(u) == u;
    assert |u + "/"| != |u|;
  }
}
