/**
 * The dashboard's router (WebInterface/src/pages/index.jsx): which page a
 * location path names. The last path segment, without any query part, is
 * compared case-insensitively with the page keys; an unknown segment falls
 * back to the first page.
 */
module Pages {
  import opened Wrappers
  import opened Text

  /** `Object.keys(PAGES)`, in declaration order. */
  const PageKeys: seq<string> := [
    "APIDocumentation", "Admin", "Analytics", "Dashboard", "Downloads",
    "FileManagement", "Home", "IconDownload", "KnowledgeBase", "Projects"
  ]

  /** `url.endsWith('/') ? url.slice(0, -1) : url`: one trailing slash removed. */
  function DropTrailingSlash(url: string): (r: string)
    ensures EndsWith(url, "/") ==> r == url[..|url| - 1]
    ensures !EndsWith(url, "/") ==> r == url
  {
    if |url| > 0 && url[|url| - 1] == '/' then url[..|url| - 1] else url
  }

  /** `s.split('/').pop()`: what follows the last slash, or all of `s` when it has none. */
  function LastSegment(s: string): (r: string)
    ensures EndsWith(s, r)
    ensures '/' !in r
    ensures |r| < |s| ==> s[|s| - |r| - 1] == '/'
  {
    if s == [] || s[|s| - 1] == '/' then []
    else
      var r := LastSegment(s[..|s| - 1]) + [s[|s| - 1]];
      assert s == s[..|s| - 1] + [s[|s| - 1]];
      r
  }

  /** `s.split('?')[0]`: everything before the first question mark. */
  function BeforeQuery(s: string): (r: string)
    ensures StartsWith(s, r)
    ensures '?' !in r
    ensures |r| < |s| ==> s[|r|] == '?'
  {
    if s == [] || s[0] == '?' then [] else [s[0]] + BeforeQuery(s[1..])
  }

  /** `Object.keys(PAGES).find(page => page.toLowerCase() === part.toLowerCase())`. */
  function FindPage(keys: seq<string>, part: string): (r: Option<string>)
    ensures r.Some? ==> r.value in keys && EqualsIgnoreCase(r.value, part)
    ensures r.None? <==> forall k :: k in keys ==> !EqualsIgnoreCase(k, part)
    ensures r.Some? ==> exists i :: (0 <= i < |keys| && keys[i] == r.value
      && forall j :: 0 <= j < i ==> !EqualsIgnoreCase(keys[j], part))
  {
    if keys == [] then None
    else if EqualsIgnoreCase(keys[0], part) then
      Some(keys[0])
    else
      var r := FindPage(keys[1..], part);
      assert keys == [keys[0]] + keys[1..];
      r
  }

  /** The segment of a path that names its page. */
  function PagePart(url: string): string {
    var lastPart := LastSegment(DropTrailingSlash(url));
    if '?' in lastPart then BeforeQuery(lastPart) else lastPart
  }

  /**
   * `_getCurrentPage(url)`: the key the URL's page segment names, ignoring
   * case, or the first key when none does.
   */
  function CurrentPage(url: string): (page: string)
    ensures page in PageKeys
    ensures page != PageKeys[0] ==> EqualsIgnoreCase(page, PagePart(url))
    ensures (exists k :: k in PageKeys && EqualsIgnoreCase(k, PagePart(url))) ==>
      EqualsIgnoreCase(page, PagePart(url))
    ensures (forall k :: k in PageKeys ==> !EqualsIgnoreCase(k, PagePart(url))) ==> page == PageKeys[0]
  {
    var keys, part := PageKeys, PagePart(url);
    var found := FindPage(keys, part);
    if found.Some? then found.value else keys[0]
  }

  /** No two page keys differ only in case. */
  lemma KeysDistinctIgnoringCase()
    ensures forall i, j :: 0 <= i < j < |PageKeys| ==> !EqualsIgnoreCase(PageKeys[i], PageKeys[j])
  {
    forall i, j | 0 <= i < j < |PageKeys|
      ensures !EqualsIgnoreCase(PageKeys[i], PageKeys[j])
    {
      var a, b := LowerStr(PageKeys[i]), LowerStr(PageKeys[j]);
      if |PageKeys[i]| == |PageKeys[j]| {
        // only "Analytics", "Dashboard" and "Downloads" share a length
        assert a[0] != b[0] || a[1] != b[1];
      }
    }
  }

  /** `find` returns the first match. */
  lemma {:induction false} FindFirst(keys: seq<string>, part: string, k: nat)
    requires k < |keys| && EqualsIgnoreCase(keys[k], part)
    requires forall j :: 0 <= j < k ==> !EqualsIgnoreCase(keys[j], part)
    ensures FindPage(keys, part) == Some(keys[k])
    decreases k
  {
    if k > 0 {
      FindFirst(keys[1..], part, k - 1);
    }
  }

  /** A page's key, spelt in any case, leads back to that page. */
  lemma FindPageCanonical(k: nat, part: string)
    requires k < |PageKeys| && EqualsIgnoreCase(PageKeys[k], part)
    ensures FindPage(PageKeys, part) == Some(PageKeys[k])
  {
    KeysDistinctIgnoringCase();
    FindFirst(PageKeys, part, k);
  }

  /** The last segment of a path ending in "/" and a slash-free name is that name. */
  lemma {:induction false} LastSegmentOf(prefix: string, name: string)
    requires '/' !in name
    ensures LastSegment(prefix + "/" + name) == name
    decreases |name|
  {
    var s := prefix + "/" + name;
    if name != [] {
      var n := name[..|name| - 1];
      assert s[..|s| - 1] == prefix + "/" + n;
      assert s[|s| - 1] == name[|name| - 1];
      LastSegmentOf(prefix, n);
      assert name == n + [name[|name| - 1]];
    }
  }

  /** What precedes the first "?" after a name without one is that name. */
  lemma {:induction false} BeforeQueryOf(name: string, rest: string)
    requires '?' !in name
    ensures BeforeQuery(name + "?" + rest) == name
    decreases |name|
  {
    var s := name + "?" + rest;
    if name != [] {
      assert s[0] == name[0];
      assert s[1..] == name[1..] + "?" + rest;
      BeforeQueryOf(name[1..], rest);
      assert name == [name[0]] + name[1..];
    }
  }

  /** A key has neither slashes nor question marks. */
  lemma KeysArePlain(p: string)
    requires p in PageKeys
    ensures p != [] && '/' !in p && '?' !in p
  {
  }

  /** Resolving "/" followed by any page's key, in any letter case, returns the key itself. */
  lemma ResolvePath(p: string, spelt: string)
    requires p in PageKeys && EqualsIgnoreCase(p, spelt) && '/' !in spelt && '?' !in spelt && spelt != []
    ensures CurrentPage("/" + spelt) == p
    ensures CurrentPage("/" + spelt + "/") == p
  {
    var url := "/" + spelt;
    assert DropTrailingSlash(url) == url;
    assert DropTrailingSlash(url + "/") == url;
    LastSegmentOf([], spelt);
    assert [] + "/" + spelt == url;
    var k :| 0 <= k < |PageKeys| && PageKeys[k] == p;
    FindPageCanonical(k, spelt);
  }

  /** Under any leading path, a last segment that spells a key in any case resolves to that key. */
  lemma ResolveUnderPrefix(prefix: string, p: string, spelt: string)
    requires p in PageKeys && EqualsIgnoreCase(p, spelt) && '/' !in spelt && '?' !in spelt && spelt != []
    ensures CurrentPage(prefix + "/" + spelt) == p
    ensures CurrentPage(prefix + "/" + spelt + "/") == p
  {
    var url := prefix + "/" + spelt;
    assert DropTrailingSlash(url) == url;
    assert DropTrailingSlash(url + "/") == url;
    LastSegmentOf(prefix, spelt);
    var k :| 0 <= k < |PageKeys| && PageKeys[k] == p;
    FindPageCanonical(k, spelt);
  }

  /** In particular each page's own path, and its all-lower-case form, resolves to it. */
  lemma ResolveOwnPath(p: string)
    requires p in PageKeys
    ensures CurrentPage("/" + p) == p
    ensures CurrentPage("/" + LowerStr(p)) == p
  {
    KeysArePlain(p);
    ResolvePath(p, p);
    LowerIdempotent(p);
    var l := LowerStr(p);
    assert '/' !in l && '?' !in l by {
      forall i | 0 <= i < |l| ensures l[i] != '/' && l[i] != '?' {
        assert p[i] != '/' && p[i] != '?';
      }
    }
    ResolvePath(p, l);
  }

  /** A query string after the page name does not change the page. */
  lemma QueryIgnored(p: string, query: string)
    requires p in PageKeys && '/' !in query
    ensures CurrentPage("/" + p + "?" + query) == p
  {
    KeysArePlain(p);
    var url := "/" + p + "?" + query;
    var seg := p + "?" + query;
    assert url == [] + "/" + seg;
    assert '/' !in seg;
    assert DropTrailingSlash(url) == url by {
      if query != [] {
        assert url[|url| - 1] == query[|query| - 1];
      }
    }
    LastSegmentOf([], seg);
    assert seg[|p|] == '?';
    BeforeQueryOf(p, query);
    var k :| 0 <= k < |PageKeys| && PageKeys[k] == p;
    FindPageCanonical(k, p);
  }

  /** "/" and every path naming no page open the first page. */
  lemma UnknownFallsBack(url: string)
    requires forall k :: k in PageKeys ==> !EqualsIgnoreCase(k, PagePart(url))
    ensures CurrentPage(url) == "APIDocumentation"
  {
  }

  lemma RootIsFirstPage()
    ensures CurrentPage("/") == "APIDocumentation"
  {
    assert PagePart("/") == [];
  }
}
