/**
 * `_parse_repo_input`, shared word for word by the project validator and the
 * README generator: a repository given as `owner/repo` or as a GitHub URL
 * becomes an (owner, repository) pair, or fails with the format message.
 *
 * The input is first cleaned (trailing `/` removed, then `.git` removed);
 * `ParseCleaned` is the rest of the function.  The code as written removes
 * `.git` everywhere in the input (`CleanAsWritten`); the model's
 * `ParseRepoInput` removes only a trailing `.git`, which is what a clone URL
 * carries (see `AsWrittenMangles` for an input on which the two differ).
 */
module RepoInput {
  import opened Common
  import opened Text

  datatype Repo = Repo(owner: string, name: string)

  const GithubHost: string := "github.com"
  /** What `github\.com/` matches. */
  const GithubPrefix: string := "github.com/"
  const GitSuffix: string := ".git"
  const InvalidFormat: string := "Invalid repository format. Use 'owner/repo' or GitHub URL"

  /** What `[^/]+` matches greedily at the start of `s` (possibly nothing). */
  function NonSlashPrefix(s: string): (w: string)
    ensures |w| <= |s| && w == s[..|w|]
    ensures '/' !in w
    ensures |w| == |s| || s[|w|] == '/'
  {
    if s == [] || s[0] == '/' then [] else [s[0]] + NonSlashPrefix(s[1..])
  }

  /** `r` is what `github\.com/([^/]+)/([^/]+)` captures when it matches at
      the start of `s`: both groups non-empty runs of non-slash characters,
      the second one ending at the end of `s` or at a `/`. */
  predicate IsMatch(s: string, r: Repo)
  {
    var u := GithubPrefix + r.owner + "/" + r.name;
    r.owner != [] && r.name != [] && '/' !in r.owner && '/' !in r.name &&
    |u| <= |s| && s[..|u|] == u && (|s| == |u| || s[|u|] == '/')
  }

  /** The match anchored at the start of `s`, if any.  The greedy groups
      cannot backtrack usefully, so each is the whole run of non-slash
      characters. */
  function MatchAt(s: string): (m: Option<Repo>)
    ensures m.Some? ==> IsMatch(s, m.value)
  {
    if |s| < |GithubPrefix| || s[..|GithubPrefix|] != GithubPrefix then None
    else
      var t := s[|GithubPrefix|..];
      var owner := NonSlashPrefix(t);
      if owner == [] || |owner| == |t| then None
      else
        var name := NonSlashPrefix(t[|owner| + 1..]);
        if name == [] then None
        else
          MatchShape(s, owner, name);
          Some(Repo(owner, name))
  }

  lemma MatchShape(s: string, owner: string, name: string)
    requires |s| >= |GithubPrefix| && s[..|GithubPrefix|] == GithubPrefix
    requires owner != [] && name != [] && '/' !in owner && '/' !in name
    requires var t := s[|GithubPrefix|..];
      |owner| < |t| && owner == t[..|owner|] && t[|owner|] == '/' &&
      |name| <= |t[|owner| + 1..]| && name == t[|owner| + 1..][..|name|] &&
      (|t[|owner| + 1..]| == |name| || t[|owner| + 1..][|name|] == '/')
    ensures IsMatch(s, Repo(owner, name))
  {
    var t := s[|GithubPrefix|..];
    var u := GithubPrefix + owner + "/" + name;
    assert s[..|u|] == u by {
      assert s == GithubPrefix + t;
      assert t[..|owner| + 1 + |name|] == owner + "/" + name;
    }
  }

  /** `re.search`: the match at the leftmost position where there is one. */
  function Search(s: string): Option<Repo>
    decreases |s|
  {
    if s == [] then None
    else if MatchAt(s).Some? then MatchAt(s)
    else Search(s[1..])
  }

  /** The repository-format rule applied to an already cleaned input. */
  function ParseCleaned(s: string): Result<Repo>
  {
    if Contains(s, GithubHost) && Search(s).Some? then Ok(Search(s).value)
    else if '/' in s then
      var parts := SplitOn(s, '/');
      SplitOnSeveral(s, '/');
      Ok(Repo(parts[|parts| - 2], parts[|parts| - 1]))
    else Err(InvalidFormat)
  }

  /** `s.removesuffix(suffix)` */
  function RemoveSuffix(s: string, suffix: string): (r: string)
    ensures r == s || (r + suffix == s)
    ensures EndsWith(s, suffix) ==> r + suffix == s
  {
    if EndsWith(s, suffix) then s[..|s| - |suffix|] else s
  }

  predicate EndsWith(s: string, suffix: string)
  {
    |suffix| <= |s| && s[|s| - |suffix|..] == suffix
  }

  /** The cleaning step as written: every `.git` is removed. */
  function CleanAsWritten(input: string): string
  {
    RemoveAll(StripRightChar(input, '/'), GitSuffix)
  }

  /** The cleaning step as intended: only a trailing `.git` is removed. */
  function Clean(input: string): string
  {
    RemoveSuffix(StripRightChar(input, '/'), GitSuffix)
  }

  function ParseRepoInputAsWritten(input: string): Result<Repo>
  {
    ParseCleaned(CleanAsWritten(input))
  }

  function ParseRepoInput(input: string): Result<Repo>
  {
    ParseCleaned(Clean(input))
  }

  // ---------------------------------------------------------------------
  // Properties of the format rule

  /** The parse fails exactly when the cleaned input holds no `/`, and then
      with the format message. */
  lemma ParseCleanedFailsIff(s: string)
    ensures ParseCleaned(s).Err? <==> '/' !in s
    ensures ParseCleaned(s).Err? ==> ParseCleaned(s).error == InvalidFormat
  {
    if Search(s).Some? {
      SearchNeedsSlash(s);
    }
  }

  /** A GitHub URL yields the two path segments after the leftmost
      `github.com/` that is followed by two non-empty segments: the
      position `k` of the match is returned. */
  lemma {:induction false} ParseCleanedGithub(s: string) returns (k: nat)
    requires Search(s).Some?
    ensures k < |s| && IsMatch(s[k..], Search(s).value)
    ensures forall j :: 0 <= j < k ==> MatchAt(s[j..]).None?
    ensures ParseCleaned(s) == Ok(Search(s).value)
    decreases |s|
  {
    if MatchAt(s).Some? {
      k := 0;
      assert s[0..] == s;
    } else {
      var k' := ParseCleanedGithub(s[1..]);
      k := k' + 1;
      assert s[k..] == s[1..][k'..];
      forall j | 1 <= j < k
        ensures MatchAt(s[j..]).None?
      {
        assert s[j..] == s[1..][j - 1..];
      }
    }
    MatchHasHost(s[k..], Search(s).value);
    ContainsAt(s, k, GithubHost);
  }

  /** Otherwise an input with a `/` yields its last two `/`-separated
      segments: the input ends in `owner/name`, preceded by nothing or by a `/`. */
  lemma ParseCleanedFallback(s: string)
    requires Search(s).None? && '/' in s
    ensures ParseCleaned(s).Ok?
    ensures var r := ParseCleaned(s).value;
      '/' !in r.owner && '/' !in r.name &&
      exists pre :: s == pre + r.owner + "/" + r.name && (pre == [] || EndsWith(pre, "/"))
  {
    var parts := SplitOn(s, '/');
    SplitOnSeveral(s, '/');
    var n := |parts|;
    assert Join(parts, "/") == s by {
      SplitOnJoin(s, '/');
    }
    assert parts == parts[..n - 2] + [parts[n - 2], parts[n - 1]];
    JoinLastTwo(parts[..n - 2], parts[n - 2], parts[n - 1], "/");
  }

  // ---------------------------------------------------------------------
  // Round trips

  /** `owner/repo`, optionally followed by `.git` or `/`, parses back to
      (owner, repo). */
  lemma RoundTripOwnerSlashName(owner: string, name: string)
    requires owner != [] && name != [] && '/' !in owner && '/' !in name
    requires !EndsWith(name, GitSuffix)
    ensures ParseRepoInput(owner + "/" + name) == Ok(Repo(owner, name))
    ensures ParseRepoInput(owner + "/" + name + GitSuffix) == Ok(Repo(owner, name))
    ensures ParseRepoInput(owner + "/" + name + "/") == Ok(Repo(owner, name))
  {
    CleanedForms(owner, name);
    ParseOneSlash(owner, name);
  }

  /** `github.com/owner/repo` behind any scheme without a `g` (`https://`,
      `http://`, nothing), optionally followed by `.git` or `/`, parses back
      to (owner, repo). */
  lemma RoundTripGithubUrl(scheme: string, owner: string, name: string)
    requires 'g' !in scheme
    requires owner != [] && name != [] && '/' !in owner && '/' !in name
    requires !EndsWith(name, GitSuffix)
    ensures ParseRepoInput(scheme + GithubPrefix + owner + "/" + name) == Ok(Repo(owner, name))
    ensures ParseRepoInput(scheme + GithubPrefix + owner + "/" + name + GitSuffix) == Ok(Repo(owner, name))
    ensures ParseRepoInput(scheme + GithubPrefix + owner + "/" + name + "/") == Ok(Repo(owner, name))
  {
    var s := scheme + GithubPrefix + owner + "/" + name;
    assert ParseCleaned(s) == Ok(Repo(owner, name)) by {
      var u := GithubPrefix + (owner + "/" + name);
      assert s == scheme + u;
      SearchSkip(scheme, u);
      UrlMatch(owner, name);
      var _ := ParseCleanedGithub(s);
    }
    CleanedForms(scheme + GithubPrefix + owner, name);
  }

  // ---------------------------------------------------------------------
  // The `.git` finding

  /** Where no `.git` occurs, the code as written and the intended cleaning
      agree, so the parse is the same. */
  lemma AsWrittenAgrees(input: string)
    requires !Contains(StripRightChar(input, '/'), GitSuffix)
    ensures ParseRepoInputAsWritten(input) == ParseRepoInput(input)
  {
    var s := StripRightChar(input, '/');
    RemoveAllAbsent(s, GitSuffix);
    if EndsWith(s, GitSuffix) {
      assert s[|s| - 4..][..4] == GitSuffix;
      ContainsAt(s, |s| - 4, GitSuffix);
      assert false;
    }
  }

  /** A repository name with `.git` inside it (`octo/octo.github.io`, with
      `a` = `octo` and `b` = `hub.io`): the code as written drops that
      `.git` and reports a different repository (`octohub.io`); the
      intended cleaning keeps the name. */
  lemma AsWrittenMangles(owner: string, name: string, a: string, b: string)
    requires name == a + GitSuffix + b
    requires '/' !in owner && '/' !in a && '/' !in b
    requires '.' !in owner && '.' !in a && !Contains(b, GitSuffix)
    requires owner != [] && !EndsWith(name, GitSuffix)
    ensures ParseRepoInputAsWritten(owner + "/" + name) == Ok(Repo(owner, a + b))
    ensures ParseRepoInput(owner + "/" + name) == Ok(Repo(owner, name))
  {
    assert '/' !in name by {
      assert '/' !in GitSuffix;
    }
    assert ParseRepoInputAsWritten(owner + "/" + name) == Ok(Repo(owner, a + b)) by {
      CleanAsWrittenMidGit(owner, a, b);
      ParseOneSlash(owner, a + b);
    }
    RoundTripOwnerSlashName(owner, name);
  }

  lemma CleanAsWrittenMidGit(owner: string, a: string, b: string)
    requires '/' !in b && '.' !in owner && '.' !in a && !Contains(b, GitSuffix)
    ensures CleanAsWritten(owner + "/" + (a + GitSuffix + b)) == owner + "/" + (a + b)
  {
    var pre := owner + "/" + a;
    var s := owner + "/" + (a + GitSuffix + b);
    assert s == pre + (GitSuffix + b);
    assert pre + b == owner + "/" + (a + b);
    LastNotSlash(pre, b);
    StripRightCharKeeps(s, '/');
    RemoveMidGit(pre, b);
  }

  lemma LastNotSlash(pre: string, b: string)
    requires '/' !in b
    ensures var s := pre + (GitSuffix + b); s[|s| - 1] != '/'
  {
    var s := pre + (GitSuffix + b);
    if b == [] {
      assert s[|s| - 1] == 't';
    } else {
      assert s[|s| - 1] == b[|b| - 1];
    }
  }

  lemma RemoveMidGit(pre: string, b: string)
    requires '.' !in pre && !Contains(b, GitSuffix)
    ensures RemoveAll(pre + (GitSuffix + b), GitSuffix) == pre + b
  {
    RemoveAllSkip(pre, GitSuffix + b, GitSuffix);
    assert (GitSuffix + b)[..4] == GitSuffix && (GitSuffix + b)[4..] == b;
    RemoveAllAbsent(b, GitSuffix);
  }

  // ---------------------------------------------------------------------
  // Helpers

  lemma MatchHasHost(t: string, r: Repo)
    requires IsMatch(t, r)
    ensures |t| > |GithubPrefix| + |r.owner| && t[..|GithubHost|] == GithubHost
    ensures t[|GithubHost|] == '/' && t[|GithubPrefix| + |r.owner|] == '/'
  {
    var u := GithubPrefix + r.owner + "/" + r.name;
    assert t[..|u|] == u;
    assert u[..|GithubHost|] == GithubHost;
    assert t[|GithubHost|] == u[|GithubHost|];
    assert t[|GithubPrefix| + |r.owner|] == u[|GithubPrefix| + |r.owner|];
  }

  lemma NoMatchWithoutG(t: string)
    requires t != [] && t[0] != GithubPrefix[0]
    ensures MatchAt(t).None?
  {
    if |t| >= |GithubPrefix| {
      assert t[..|GithubPrefix|][0] == t[0];
    }
  }

  lemma SearchNeedsSlash(s: string)
    requires Search(s).Some?
    ensures '/' in s
  {
    var k := ParseCleanedGithub(s);
    MatchHasHost(s[k..], Search(s).value);
    assert s[k + |GithubHost|] == s[k..][|GithubHost|];
  }

  /** No match starts inside a prefix without a `g`. */
  lemma {:induction false} SearchSkip(pre: string, t: string)
    requires 'g' !in pre
    ensures Search(pre + t) == Search(t)
    decreases |pre|
  {
    if pre != [] {
      NoMatchWithoutG(pre + t);
      SearchSkip(pre[1..], t);
      assert (pre + t)[1..] == pre[1..] + t;
    } else {
      assert pre + t == t;
    }
  }

  /** With exactly one slash, the fallback applies. */
  lemma ParseOneSlash(owner: string, name: string)
    requires '/' !in owner && '/' !in name
    ensures ParseCleaned(owner + "/" + name) == Ok(Repo(owner, name))
  {
    OneSlashNoMatch(owner, name);
    SplitOnNoSep(owner, '/');
    SplitOnNoSep(name, '/');
    SplitOnAppendSep(owner, name, '/');
    assert owner + "/" + name == owner + ['/'] + name;
  }

  /** The cleaning of `pre/name`, `pre/name.git` and `pre/name/` is `pre/name`. */
  lemma CleanedForms(pre: string, name: string)
    requires name != [] && '/' !in name && !EndsWith(name, GitSuffix)
    ensures var s := pre + "/" + name;
      Clean(s) == s && Clean(s + GitSuffix) == s && Clean(s + "/") == s
  {
    var s := pre + "/" + name;
    StripRightCharKeeps(s, '/');
    StripRightCharKeeps(s + GitSuffix, '/');
    StripRightCharDrops(s, '/');
    assert (s + GitSuffix)[..|s|] == s;
    assert (s + GitSuffix)[|s + GitSuffix| - 4..] == GitSuffix;
    NotEndsWithGit(pre, name);
  }

  lemma UrlMatch(owner: string, name: string)
    requires owner != [] && name != [] && '/' !in owner && '/' !in name
    ensures MatchAt(GithubPrefix + (owner + "/" + name)) == Some(Repo(owner, name))
  {
    var tail := owner + "/" + name;
    var u := GithubPrefix + tail;
    assert u[..|GithubPrefix|] == GithubPrefix;
    assert u[|GithubPrefix|..] == tail;
    NonSlashPrefixOf(owner, "/" + name);
    assert tail == owner + ("/" + name);
    assert tail[|owner| + 1..] == name;
    NonSlashPrefixOf(name, "");
    assert name + "" == name;
  }

  lemma {:induction false} SplitOnSeveral(s: string, c: char)
    ensures c in s <==> |SplitOn(s, c)| >= 2
    decreases |s|
  {
    if s != [] {
      SplitOnSeveral(s[1..], c);
      assert c in s <==> s[0] == c || c in s[1..];
    }
  }

  lemma {:induction false} SplitOnNoSep(s: string, c: char)
    requires c !in s
    ensures SplitOn(s, c) == [s]
    decreases |s|
  {
    if s != [] {
      SplitOnNoSep(s[1..], c);
      assert [s[0]] + s[1..] == s;
    }
  }

  lemma {:induction false} SplitOnAppendSep(a: string, b: string, c: char)
    requires c !in a
    ensures SplitOn(a + [c] + b, c) == [a] + SplitOn(b, c)
    decreases |a|
  {
    if a == [] {
      assert a + [c] + b == [c] + b;
      assert ([c] + b)[1..] == b;
    } else {
      SplitOnAppendSep(a[1..], b, c);
      assert (a + [c] + b)[1..] == a[1..] + [c] + b;
      assert [a[0]] + a[1..] == a;
    }
  }

  lemma {:induction false} JoinLastTwo(pre: seq<string>, x: string, y: string, sep: string)
    ensures exists p :: Join(pre + [x, y], sep) == p + x + sep + y && (p == [] || EndsWith(p, sep))
    decreases |pre|
  {
    if pre == [] {
      assert pre + [x, y] == [x, y];
      assert Join([x, y], sep) == [] + x + sep + y;
    } else {
      JoinLastTwo(pre[1..], x, y, sep);
      var p :| Join(pre[1..] + [x, y], sep) == p + x + sep + y && (p == [] || EndsWith(p, sep));
      assert (pre + [x, y])[1..] == pre[1..] + [x, y];
      var q := pre[0] + sep + p;
      assert Join(pre + [x, y], sep) == q + x + sep + y;
      if p == [] {
        assert q == pre[0] + sep;
        assert q[|q| - |sep|..] == sep;
      } else {
        assert q[|q| - |sep|..] == p[|p| - |sep|..];
      }
    }
  }

  lemma {:induction false} NonSlashPrefixOf(a: string, b: string)
    requires '/' !in a && (b == [] || b[0] == '/')
    ensures NonSlashPrefix(a + b) == a
    decreases |a|
  {
    if a == [] {
      assert a + b == b;
    } else {
      NonSlashPrefixOf(a[1..], b);
      assert (a + b)[1..] == a[1..] + b;
    }
  }

  lemma StripRightCharKeeps(s: string, c: char)
    requires s != [] && s[|s| - 1] != c
    ensures StripRightChar(s, c) == s
  {
  }

  lemma StripRightCharDrops(s: string, c: char)
    requires s != [] && s[|s| - 1] != c
    ensures StripRightChar(s + [c], c) == s
  {
    assert (s + [c])[..|s|] == s;
  }

  /** `pre/name` ends with `.git` only if `name` does. */
  lemma NotEndsWithGit(pre: string, name: string)
    requires '/' !in name && !EndsWith(name, GitSuffix)
    ensures !EndsWith(pre + "/" + name, GitSuffix)
  {
    var s := pre + "/" + name;
    if |name| >= 4 {
      assert s[|s| - 4..] == name[|name| - 4..];
    } else if |s| >= 4 {
      assert s[|s| - 4..][3 - |name|] == s[|s| - |name| - 1] == '/';
    }
  }

  /** In `owner/name` there is one slash, and a match needs two. */
  lemma OneSlashNoMatch(owner: string, name: string)
    requires '/' !in owner && '/' !in name
    ensures Search(owner + "/" + name).None?
  {
    var s := owner + "/" + name;
    if Search(s).Some? {
      var k := ParseCleanedGithub(s);
      MatchHasHost(s[k..], Search(s).value);
      assert s[k + |GithubHost|] == s[k..][|GithubHost|];
      OnlySlash(owner, name, k + |GithubHost|);
      assert false;
    }
  }

  lemma OnlySlash(owner: string, name: string, i: nat)
    requires '/' !in owner && '/' !in name
    requires i < |owner + "/" + name| && (owner + "/" + name)[i] == '/'
    ensures i == |owner|
  {
  }

  lemma {:induction false} ContainsAt(s: string, k: nat, t: string)
    requires k + |t| <= |s| && s[k..][..|t|] == t
    ensures Contains(s, t)
    decreases k
  {
    if k == 0 {
      StartsWithSlice(s, t);
    } else {
      assert s[1..][k - 1..] == s[k..];
      ContainsAt(s[1..], k - 1, t);
    }
  }

  lemma {:induction false} ContainsFirstChar(s: string, t: string)
    requires t != [] && Contains(s, t)
    ensures t[0] in s
    decreases |s|
  {
    if !StartsWith(s, t) {
      ContainsFirstChar(s[1..], t);
    }
  }

  lemma {:induction false} StartsWithSlice(s: string, p: string)
    ensures StartsWith(s, p) <==> |p| <= |s| && s[..|p|] == p
    decreases |p|
  {
    if p != [] && s != [] {
      StartsWithSlice(s[1..], p[1..]);
      if |p| <= |s| && s[..|p|] == p {
        assert s[1..][..|p| - 1] == p[1..];
      }
      if |p| <= |s| && s[0] == p[0] && s[1..][..|p| - 1] == p[1..] {
        assert s[..|p|] == [s[0]] + s[1..][..|p| - 1];
      }
    }
  }

  lemma {:induction false} RemoveAllAbsent(s: string, pat: string)
    requires pat != [] && !Contains(s, pat)
    ensures RemoveAll(s, pat) == s
    decreases |s|
  {
    if |s| >= |pat| {
      StartsWithSlice(s, pat);
      RemoveAllAbsent(s[1..], pat);
    }
  }

  lemma {:induction false} RemoveAllSkip(a: string, b: string, pat: string)
    requires pat != [] && pat[0] !in a
    ensures RemoveAll(a + b, pat) == a + RemoveAll(b, pat)
    decreases |a|
  {
    if a == [] {
      assert a + b == b;
    } else {
      RemoveAllSkip(a[1..], b, pat);
      assert (a + b)[1..] == a[1..] + b;
      assert (a + b)[0] == a[0];
    }
  }
}
