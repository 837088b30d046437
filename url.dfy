/** URL helpers: trailing-slash stripping, normalisation and URL building. */
module Url {
  import opened Strings

  /** `s.replace(/\/+$/, '')`: removes every trailing '/'. */
  function StripTrailingSlash(s: string): (r: string)
    ensures r == [] || r[|r| - 1] != '/'
    ensures |r| <= |s| && r == s[..|r|]
    ensures forall i | |r| <= i < |s| :: s[i] == '/'
  {
    if s != [] && s[|s| - 1] == '/' then StripTrailingSlash(s[..|s| - 1]) else s
  }

  /** Lower-cases the URL after stripping its trailing slashes. */
  function NormalizeUrl(s: string): string {
    Lower(StripTrailingSlash(s))
  }

  predicate UrlsEqual(a: string, b: string) {
    NormalizeUrl(a) == NormalizeUrl(b)
  }

  /** The autolink template for project `key` on the Jira site at `jiraUrl`. */
  function JiraBrowseUrl(jiraUrl: string, key: string): string {
    StripTrailingSlash(jiraUrl) + "/browse/" + key + "-<num>"
  }

  /** A REST URL: the stripped base, a '/' unless the path brings one, then the path. */
  function JiraApiUrl(jiraUrl: string, pathAndQuery: string): string {
    StripTrailingSlash(jiraUrl) + (if StartsWith(pathAndQuery, "/") then "" else "/") + pathAndQuery
  }

  /** The input is the stripped string followed by a run of slashes. */
  lemma StripLeavesSlashRun(s: string)
    ensures s == StripTrailingSlash(s) + Slashes(|s| - |StripTrailingSlash(s)|)
  {
    var r := StripTrailingSlash(s);
    assert forall i | 0 <= i < |s| :: s[i] == (r + Slashes(|s| - |r|))[i];
  }

  lemma StripIdempotent(s: string)
    ensures StripTrailingSlash(StripTrailingSlash(s)) == StripTrailingSlash(s)
  {
  }

  /** Appending slashes does not change what stripping yields. */
  lemma {:induction false} StripIgnoresAddedSlashes(s: string, n: nat)
    ensures StripTrailingSlash(s + Slashes(n)) == StripTrailingSlash(s)
  {
    if n > 0 {
      var t := s + Slashes(n);
      assert t[..|t| - 1] == s + Slashes(n - 1);
      StripIgnoresAddedSlashes(s, n - 1);
    } else {
      assert s + Slashes(0) == s;
    }
  }

  /** Lower-casing never produces or removes a slash, so it commutes with stripping. */
  lemma {:induction false} StripLower(s: string)
    ensures StripTrailingSlash(Lower(s)) == Lower(StripTrailingSlash(s))
  {
    if s != [] && s[|s| - 1] == '/' {
      assert Lower(s)[..|s| - 1] == Lower(s[..|s| - 1]);
      StripLower(s[..|s| - 1]);
    }
  }

  lemma NormalizeIdempotent(s: string)
    ensures NormalizeUrl(NormalizeUrl(s)) == NormalizeUrl(s)
  {
    var r := StripTrailingSlash(s);
    StripLower(r);
    StripIdempotent(s);
    LowerIdempotent(r);
  }

  /** `urlsEqual` is an equivalence relation. */
  lemma UrlsEqualIsEquivalence(a: string, b: string, c: string)
    ensures UrlsEqual(a, a)
    ensures UrlsEqual(a, b) ==> UrlsEqual(b, a)
    ensures UrlsEqual(a, b) && UrlsEqual(b, c) ==> UrlsEqual(a, c)
  {
  }

  /** A URL equals itself with any number of extra trailing slashes, e.g. `a + "///"`. */
  lemma UrlsEqualIgnoresTrailingSlashes(a: string, n: nat)
    ensures UrlsEqual(a, a + Slashes(n))
  {
    StripIgnoresAddedSlashes(a, n);
  }

  /** Two URLs that differ only in ASCII letter case are equal. */
  lemma UrlsEqualIgnoresCase(a: string, b: string)
    requires Lower(a) == Lower(b)
    ensures UrlsEqual(a, b)
  {
    StripLower(a);
    StripLower(b);
  }

  /** The browse template is unaffected by trailing slashes on the site URL. */
  lemma BrowseUrlIgnoresTrailingSlashes(jiraUrl: string, key: string, n: nat)
    ensures JiraBrowseUrl(jiraUrl + Slashes(n), key) == JiraBrowseUrl(jiraUrl, key)
    ensures StartsWith(JiraBrowseUrl(jiraUrl, key), StripTrailingSlash(jiraUrl) + "/browse/")
  {
    StripIgnoresAddedSlashes(jiraUrl, n);
    var p := StripTrailingSlash(jiraUrl) + "/browse/";
    assert JiraBrowseUrl(jiraUrl, key) == p + (key + "-<num>");
  }

  /**
   * A path without a leading '/' is joined to the stripped base by exactly
   * one '/': the base does not end with one and the path does not start with one.
   */
  lemma ApiUrlSingleSeparator(jiraUrl: string, path: string)
    requires !StartsWith(path, "/")
    ensures var base := StripTrailingSlash(jiraUrl);
      && JiraApiUrl(jiraUrl, path) == base + "/" + path
      && (base == [] || base[|base| - 1] != '/')
      && (path == [] || path[0] != '/')
  {
    if path != [] {
      assert path[..1] == [path[0]];
    }
  }

  /** A path that already starts with '/' is appended to the stripped base as it is. */
  lemma ApiUrlKeepsLeadingSlash(jiraUrl: string, path: string)
    requires StartsWith(path, "/")
    ensures JiraApiUrl(jiraUrl, path) == StripTrailingSlash(jiraUrl) + path
  {
  }
}
