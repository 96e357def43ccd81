/**
 * The `org/repo` full name that repo_name.py derives from the `origin`
 * remote URL. The `git config` call is outside the model: its stripped
 * output is the input, and `None` stands for a failed command.
 */
module RepoName {
  import opened Wrappers
  import opened Text

  /** The test that picks the SSH reading: the URL holds both `:` and `@`. */
  predicate IsSshStyle(url: string) {
    ':' in url && '@' in url
  }

  /**
   * The path before `.git` is dropped: after the last `:` for an SSH remote,
   * otherwise the last two `/`-separated segments rejoined with `/`.
   */
  function RemotePath(url: string): (path: string)
    ensures IsSshStyle(url) ==> AfterLast(url, {':'}, path)
    ensures !IsSshStyle(url) ==> AfterSecondLast(url, '/', path)
  {
    if IsSshStyle(url) then
      var parts := Split(url, ':');
      LastPiece(url, ':');
      parts[|parts| - 1]
    else
      LastTwoPieces(url, '/');
      Join(LastN(Split(url, '/'), 2), "/")
  }

  /** `get_repo_full_name`: `None` when the git command failed, else the path less one trailing `.git`. */
  function FullName(remote: Option<string>): (name: Option<string>)
    ensures name.None? <==> remote.None?
    ensures name.Some? && IsSshStyle(remote.value) ==> ':' !in name.value
    ensures name.Some? && !IsSshStyle(remote.value) ==> multiset(name.value)['/'] <= 1
  {
    match remote
    case None => None
    case Some(url) =>
      var path := RemotePath(url);
      var name := RemoveSuffix(path, ".git");
      PrefixCounts(name, path, ':');
      PrefixCounts(name, path, '/');
      assert IsSshStyle(url) ==> multiset(path)[':'] == 0 by {
        assert forall i :: 0 <= i < |path| ==> IsSshStyle(url) ==> path[i] != ':';
      }
      Some(name)
  }

  /** A prefix holds no more of a character than the whole string. */
  lemma PrefixCounts(p: string, s: string, c: char)
    requires p <= s
    ensures multiset(p)[c] <= multiset(s)[c]
  {
    assert s == p + s[|p|..];
  }

  /** An SSH remote names the text after its last `:`, less a trailing `.git`. */
  lemma SshBranch(url: string, afterColon: string)
    requires IsSshStyle(url) && AfterLast(url, {':'}, afterColon)
    ensures FullName(Some(url)) == Some(RemoveSuffix(afterColon, ".git"))
  {
    AfterLastUnique(url, {':'}, RemotePath(url), afterColon);
  }

  /**
   * Any other remote (an `https://` URL has `:` but no `@`) names its last two
   * segments, less a trailing `.git`.
   */
  lemma PathBranch(url: string, lastTwo: string)
    requires !IsSshStyle(url) && AfterSecondLast(url, '/', lastTwo)
    ensures FullName(Some(url)) == Some(RemoveSuffix(lastTwo, ".git"))
  {
    AfterSecondLastUnique(url, '/', RemotePath(url), lastTwo);
  }

  /** A non-SSH remote without `/` is kept whole, less a trailing `.git`. */
  lemma NoSlashKeepsUrl(url: string)
    requires !IsSshStyle(url) && '/' !in url
    ensures FullName(Some(url)) == Some(RemoveSuffix(url, ".git"))
  {
    assert multiset(url)['/'] == 0;
    assert url[0..] == url;
    PathBranch(url, url);
  }

  /** The SSH form of a GitHub remote gives `org/repo`. */
  lemma SshRemote(url: string)
    requires url == "git@github.com:org/repo.git"
    ensures FullName(Some(url)) == Some("org/repo")
  {
    SshRemotePath(url);
    GitDropped("org/repo.git");
    SshBranch(url, "org/repo.git");
  }

  lemma SshRemotePath(url: string)
    requires url == "git@github.com:org/repo.git"
    ensures IsSshStyle(url) && AfterLast(url, {':'}, "org/repo.git")
  {
    assert url == "git@github.com" + [':'] + "org/repo.git";
    assert url[3] == '@';
    AfterSeparator("git@github.com", ':', {':'}, "org/repo.git");
  }

  lemma GitDropped(path: string)
    requires path == "org/repo.git"
    ensures RemoveSuffix(path, ".git") == "org/repo"
  {
    assert path == "org/repo" + ".git";
    SuffixRemoved("org/repo", ".git");
  }

  /** The HTTPS form of the same remote gives the same full name. */
  lemma HttpsRemote(url: string)
    requires url == "https://github.com/org/repo.git"
    ensures FullName(Some(url)) == Some("org/repo")
  {
    HttpsRemotePath(url, "https://github.com", "org/repo.git");
    GitDropped("org/repo.git");
    PathBranch(url, "org/repo.git");
  }

  lemma HttpsRemotePath(url: string, host: string, path: string)
    requires url == "https://github.com/org/repo.git"
    requires host == "https://github.com" && path == "org/repo.git"
    ensures !IsSshStyle(url) && AfterSecondLast(url, '/', path)
  {
    HttpsParts(url, host, path);
    NoAt(host, path);
    OnePathSeparator(path);
    AfterSecondSeparator(host, '/', path);
  }

  lemma HttpsParts(url: string, host: string, path: string)
    requires url == "https://github.com/org/repo.git"
    requires host == "https://github.com" && path == "org/repo.git"
    ensures url == host + ['/'] + path
  {
  }

  lemma NoAt(host: string, path: string)
    requires host == "https://github.com" && path == "org/repo.git"
    ensures '@' !in host + ['/'] + path
  {
    assert forall i :: 0 <= i < |host| ==> host[i] != '@';
    assert forall i :: 0 <= i < |path| ==> path[i] != '@';
    var s := host + ['/'] + path;
    assert forall i :: 0 <= i < |s| ==> s[i] != '@' by {
      forall i | 0 <= i < |s| ensures s[i] != '@' {
        if i < |host| { assert s[i] == host[i]; }
        else if i > |host| { assert s[i] == path[i - |host| - 1]; }
      }
    }
  }

  lemma OnePathSeparator(path: string)
    requires path == "org/repo.git"
    ensures multiset(path)['/'] == 1
  {
    assert path == "org" + ['/'] + "repo.git";
    SingleSeparator("org", '/', "repo.git");
  }

  /** A failed git command gives no name. */
  lemma FailedCommand()
    ensures FullName(None) == None
  {
  }
}
