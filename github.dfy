/** Remote-URL helpers: normalising a git remote to its https form, and reading the owner and
    repository out of it. */
module GitHub {
  import opened Wrappers
  import opened JsString

  /** `remoteToHttps(remoteUrl)`: an absent or empty remote gives null; an ssh remote has its
      first `git@github.com:` rewritten and one trailing `.git` dropped; an https remote only
      loses one trailing `.git`; anything else is returned unchanged. */
  function RemoteToHttps(remote: Option<string>): (r: Option<string>)
    ensures r.None? <==> remote.None? || remote.value == ""
    ensures r.Some? && !StartsWith(remote.value, "git@") && !StartsWith(remote.value, "https://") ==>
      r.value == remote.value
    ensures r.Some? && StartsWith(remote.value, "https://") ==>
      r.value == DropSuffix(remote.value, ".git")
    ensures r.Some? && StartsWith(remote.value, "git@") ==>
      r.value == DropSuffix(ReplaceFirst(remote.value, "git@github.com:", "https://github.com/"), ".git")
  {
    match remote
    case None => None
    case Some(url) =>
      if url == "" then None
      else if StartsWith(url, "git@") then
        SshIsNotHttps(url);
        Some(DropSuffix(ReplaceFirst(url, "git@github.com:", "https://github.com/"), ".git"))
      else if StartsWith(url, "https://") then Some(DropSuffix(url, ".git"))
      else Some(url)
  }

  lemma SshIsNotHttps(url: string)
    ensures StartsWith(url, "git@") ==> !StartsWith(url, "https://")
  {
    if StartsWith(url, "git@") {
      assert url[..4][0] == url[0];
    }
  }

  /** An https remote keeps everything but one trailing `.git`: appending `.git` to the
      result gives the remote back when it had one, and the result is the remote otherwise. */
  lemma HttpsRemoteLosesOneSuffix(url: string)
    requires StartsWith(url, "https://")
    ensures var r := RemoteToHttps(Some(url)).value;
      (EndsWith(url, ".git") ==> r + ".git" == url) && (!EndsWith(url, ".git") ==> r == url)
  {
  }

  /** The ssh remote of a GitHub repository and its https remote normalise to the same URL. */
  lemma SshAndHttpsAgree(owner: string, repo: string)
    ensures RemoteToHttps(Some("git@github.com:" + owner + "/" + repo + ".git"))
         == RemoteToHttps(Some("https://github.com/" + owner + "/" + repo + ".git"))
         == Some("https://github.com/" + owner + "/" + repo)
  {
    var ssh := "git@github.com:" + owner + "/" + repo + ".git";
    var tail := owner + "/" + repo + ".git";
    assert ssh == "git@github.com:" + tail;
    assert StartsWith(ssh, "git@");
    assert OccursAt(ssh, "git@github.com:", 0);
    assert IndexOf(ssh, "git@github.com:") == 0;
    assert ssh[|"git@github.com:"|..] == tail;
    var https := "https://github.com/" + owner + "/" + repo + ".git";
    assert https == "https://github.com/" + tail;
    assert ReplaceFirst(ssh, "git@github.com:", "https://github.com/") == https;
    assert StartsWith(https, "https://");
    assert EndsWith(https, ".git");
    assert https[..|https| - 4] == "https://github.com/" + owner + "/" + repo;
  }

  // ---------------------------------------------------------------- extractRepoInfo

  datatype RepoInfo = RepoInfo(owner: string, repo: string)

  const Host := "github.com/"

  /** The length of the run of characters other than `/` that starts at `i` (what a greedy
      `[^\/]+` consumes there). */
  function RunLength(t: string, i: nat): (n: nat)
    requires i <= |t|
    ensures i + n <= |t|
    ensures forall k :: i <= k < i + n ==> t[k] != '/'
    ensures i + n == |t| || t[i + n] == '/'
    decreases |t| - i
  {
    if i == |t| || t[i] == '/' then 0 else 1 + RunLength(t, i + 1)
  }

  /** `/github\.com\/([^\/]+)\/([^\/]+)/` matches at `i`: the host, a non-empty segment, a
      slash, and another non-empty segment. */
  predicate MatchesAt(t: string, i: nat) {
    OccursAt(t, Host, i)
    && var o := i + |Host|;
       var n1 := RunLength(t, o);
       n1 > 0 && o + n1 < |t| && RunLength(t, o + n1 + 1) > 0
  }

  /** The leftmost match at or after `i`. */
  function FirstMatch(t: string, i: nat): (r: Option<nat>)
    requires i <= |t|
    ensures r.Some? ==> i <= r.value <= |t| && MatchesAt(t, r.value)
    ensures forall j :: i <= j && (r.None? || j < r.value) ==> !MatchesAt(t, j)
    decreases |t| - i
  {
    if i == |t| then None
    else if MatchesAt(t, i) then Some(i)
    else FirstMatch(t, i + 1)
  }

  /** The text of a match is the host, the first run, a slash and the second run. */
  lemma SpelledAt(t: string, i: nat, n1: nat, n2: nat)
    requires OccursAt(t, Host, i)
    requires i + |Host| + n1 + 1 + n2 <= |t| && t[i + |Host| + n1] == '/'
    ensures var o := i + |Host|;
      t[i..o + n1 + 1 + n2] == Host + t[o..o + n1] + "/" + t[o + n1 + 1..o + n1 + 1 + n2]
  {
    var o := i + |Host|;
    var e := o + n1 + 1 + n2;
    assert t[i..e] == t[i..o] + t[o..e];
    assert t[o..e] == t[o..o + n1] + t[o + n1..e];
    assert t[o + n1..e] == t[o + n1..o + n1 + 1] + t[o + n1 + 1..e];
    assert t[o + n1..o + n1 + 1] == "/";
  }

  /** A run that `RunLength` measured holds no slash. */
  lemma RunHasNoSlash(t: string, o: nat)
    requires o <= |t|
    ensures '/' !in t[o..o + RunLength(t, o)]
  {
    var run := t[o..o + RunLength(t, o)];
    forall k | 0 <= k < |run|
      ensures run[k] != '/'
    {
      assert run[k] == t[o + k];
    }
  }

  /** The two captured segments of the match at `i`. */
  function Captures(t: string, i: nat): (info: RepoInfo)
    requires MatchesAt(t, i)
    ensures info.owner != "" && '/' !in info.owner
    ensures info.repo != "" && '/' !in info.repo
    ensures OccursAt(t, Host + info.owner + "/" + info.repo, i)
  {
    var o := i + |Host|;
    var n1 := RunLength(t, o);
    var n2 := RunLength(t, o + n1 + 1);
    SpelledAt(t, i, n1, n2);
    RunHasNoSlash(t, o);
    RunHasNoSlash(t, o + n1 + 1);
    RepoInfo(t[o..o + n1], t[o + n1 + 1..o + n1 + 1 + n2])
  }

  /** `extractRepoInfo(remoteUrl)`: null without a normalised URL or without a match; otherwise
      the owner and repository captured by the leftmost match. */
  function ExtractRepoInfo(remote: Option<string>): (r: Option<RepoInfo>)
    ensures r.Some? ==> RemoteToHttps(remote).Some?
    ensures r.Some? ==> var url := RemoteToHttps(remote).value;
      exists i: nat :: MatchesAt(url, i) && Captures(url, i) == r.value
        && forall j :: 0 <= j < i ==> !MatchesAt(url, j)
    ensures r.None? && RemoteToHttps(remote).Some? ==>
      forall i :: !MatchesAt(RemoteToHttps(remote).value, i)
  {
    match RemoteToHttps(remote)
    case None => None
    case Some(url) =>
      match FirstMatch(url, 0)
      case None => None
      case Some(i) => Some(Captures(url, i))
  }

  /** The ssh remote of any GitHub repository yields that owner and repository. */
  lemma ExtractFromSshRemote(owner: string, repo: string)
    requires owner != "" && '/' !in owner
    requires repo != "" && '/' !in repo
    ensures ExtractRepoInfo(Some("git@github.com:" + owner + "/" + repo + ".git")) == Some(RepoInfo(owner, repo))
  {
    SshAndHttpsAgree(owner, repo);
    ExtractFromHttps(owner, repo);
  }

  lemma ExtractFromHttps(owner: string, repo: string)
    requires owner != "" && '/' !in owner
    requires repo != "" && '/' !in repo
    ensures var url := "https://github.com/" + owner + "/" + repo;
      FirstMatch(url, 0) == Some(8) && Captures(url, 8) == RepoInfo(owner, repo)
  {
    var url := "https://github.com/" + owner + "/" + repo;
    var o := 8 + |Host|;
    assert url[8..o] == Host;
    RunOfSegment(url, o, owner);
    RunOfSegment(url, o + |owner| + 1, repo);
    assert MatchesAt(url, 8);
    forall j | 0 <= j < 8 ensures !MatchesAt(url, j) {
      assert url[j] != 'g';
      assert url[j..j + |Host|][0] == url[j];
    }
    NoMatchBefore(url, 0, 8);
  }

  /** A segment without `/`, followed by `/` or the end, is one run. */
  lemma {:induction false} RunOfSegment(t: string, i: nat, seg: string)
    requires i + |seg| <= |t| && t[i..i + |seg|] == seg && '/' !in seg
    requires i + |seg| == |t| || t[i + |seg|] == '/'
    ensures RunLength(t, i) == |seg|
    decreases |seg|
  {
    if seg != [] {
      assert t[i] == seg[0];
      assert t[i + 1..i + |seg|] == seg[1..];
      RunOfSegment(t, i + 1, seg[1..]);
    }
  }

  lemma {:induction false} NoMatchBefore(t: string, i: nat, k: nat)
    requires i <= k <= |t| && MatchesAt(t, k)
    requires forall j :: i <= j < k ==> !MatchesAt(t, j)
    ensures FirstMatch(t, i) == Some(k)
    decreases k - i
  {
    if i < k {
      NoMatchBefore(t, i + 1, k);
    }
  }
}
