/**
 * The repository name the `ghost` launcher derives from the `origin` remote
 * URL before it clones the repository into a sandbox (ghost.py).
 */
module GhostCli {
  import opened Text

  /**
   * `url.removesuffix(".git").replace(":", "/").split("/")[-1]`: the text
   * after the last `/` or `:` once one trailing `.git` is dropped.
   */
  function RepoName(url: string): (name: string)
    ensures AfterLast(RemoveSuffix(url, ".git"), {'/', ':'}, name)
  {
    var bare := RemoveSuffix(url, ".git");
    var slashed := ReplaceChar(bare, ':', '/');
    var parts := Split(slashed, '/');
    LastPiece(slashed, '/');
    ReplacedSuffix(bare, slashed, parts[|parts| - 1]);
    parts[|parts| - 1]
  }

  /** A suffix of the rewritten URL without `/` is the same suffix of the URL, without `/` or `:`. */
  lemma ReplacedSuffix(bare: string, slashed: string, name: string)
    requires slashed == ReplaceChar(bare, ':', '/')
    requires AfterLast(slashed, {'/'}, name)
    ensures AfterLast(bare, {'/', ':'}, name)
  {
    var k := |bare| - |name|;
    forall i | 0 <= i < |name|
      ensures bare[k + i] == name[i] && name[i] !in {'/', ':'}
    {
      assert slashed[k + i] == name[i];
    }
    assert bare[k..] == name;
  }

  /** A remote `head` + `c` + `name` + ".git", with `c` a separator and `name` free of them, names `name`. */
  lemma NamedAfterSeparator(url: string, head: string, c: char, name: string)
    requires c in {'/', ':'}
    requires forall i :: 0 <= i < |name| ==> name[i] !in {'/', ':'}
    requires url == head + [c] + name + ".git"
    ensures RepoName(url) == name
  {
    var bare := head + [c] + name;
    SuffixRemoved(bare, ".git");
    AfterSeparator(head, c, {'/', ':'}, name);
    AfterLastUnique(bare, {'/', ':'}, RepoName(url), name);
  }

  /** The SSH form of a GitHub remote names the repository. */
  lemma SshRemote(url: string)
    requires url == "git@github.com:org/repo.git"
    ensures RepoName(url) == "repo"
  {
    assert url == "git@github.com:org" + ['/'] + "repo" + ".git";
    NamedAfterSeparator(url, "git@github.com:org", '/', "repo");
  }

  /** The HTTPS form of the same remote gives the same name. */
  lemma HttpsRemote(url: string)
    requires url == "https://github.com/org/repo.git"
    ensures RepoName(url) == "repo"
  {
    assert url == "https://github.com/org" + ['/'] + "repo" + ".git";
    NamedAfterSeparator(url, "https://github.com/org", '/', "repo");
  }

  /** Only one trailing `.git` is dropped. */
  lemma OneGitSuffixRemoved(url: string)
    requires url == "x/a.git.git"
    ensures RepoName(url) == "a.git"
  {
    assert url == "x" + ['/'] + "a.git" + ".git";
    NamedAfterSeparator(url, "x", '/', "a.git");
  }

  /** A URL that ends in a separator names nothing. */
  lemma TrailingSeparatorGivesEmpty(url: string)
    requires |url| > 0 && url[|url| - 1] in {'/', ':'}
    ensures RepoName(url) == ""
  {
    var bare := RemoveSuffix(url, ".git");
    assert bare == url;
    AfterLastUnique(bare, {'/', ':'}, RepoName(url), "");
  }

  /** Without `/` or `:` the URL is its own name, less a trailing `.git`. */
  lemma NoSeparatorKeepsUrl(url: string)
    requires '/' !in url && ':' !in url
    ensures RepoName(url) == RemoveSuffix(url, ".git")
  {
    var bare := RemoveSuffix(url, ".git");
    assert forall i :: 0 <= i < |bare| ==> bare[i] == url[i];
    assert bare[0..] == bare;
    AfterLastUnique(bare, {'/', ':'}, RepoName(url), bare);
  }
}
