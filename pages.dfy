/** `BasePage`: the base of the page objects. Its URL builder is written
    separately from the navigation helper's; it is stated here against that
    one. */
module Pages {
  import opened Text
  import Navigation

  /** `BuildUrl(path)` for the base URL `baseUrl`. */
  function BuildUrl(baseUrl: string, path: string): (url: string)
    ensures url == Navigation.BuildUrl(baseUrl, path)
    ensures exists k :: 0 <= k < |url| && url[k] == '/' && url[..k] == TrimEnd(baseUrl, '/') && url[k + 1..] == TrimStart(path, '/')
  {
    var trimmedBase := TrimEnd(baseUrl, '/');
    var trimmedPath := TrimStart(path, '/');
    var url := trimmedBase + "/" + trimmedPath;
    assert url[|trimmedBase|] == '/' && url[..|trimmedBase|] == trimmedBase && url[|trimmedBase| + 1..] == trimmedPath;
    url
  }

  /** Exactly one '/' at the junction: the part before it does not end with
      '/' and the part after it does not start with '/'. */
  lemma OneSlashAtJunction(baseUrl: string, path: string)
    ensures var url := BuildUrl(baseUrl, path);
            var k := |TrimEnd(baseUrl, '/')|;
            k < |url| && url[k] == '/' && (k == 0 || url[k - 1] != '/') && (k + 1 == |url| || url[k + 1] != '/')
  {
    var b := TrimEnd(baseUrl, '/');
    var p := TrimStart(path, '/');
    var url := BuildUrl(baseUrl, path);
    assert url == b + "/" + p;
    assert |b| < |url| && url[|b|] == '/';
    if |b| > 0 {
      assert url[|b| - 1] == b[|b| - 1];
    }
    if |b| + 1 < |url| {
      assert url[|b| + 1] == p[0];
    }
  }

  /** Leading slashes on the path and trailing slashes on the base change
      nothing. */
  lemma SlashesAroundJunctionIgnored(baseUrl: string, i: nat, path: string, j: nat)
    ensures BuildUrl(baseUrl + Repeat('/', i), Repeat('/', j) + path) == BuildUrl(baseUrl, path)
  {
    TrimEndIgnoresSuffix(baseUrl, '/', i);
    TrimStartIgnoresPrefix(path, '/', j);
  }
}
