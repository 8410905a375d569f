/** `NavigationHelper`: page navigation relative to the environment's base
    URL. The URL is the base without its trailing slashes, one '/', and the
    path without its leading slashes. */
module Navigation {
  import opened Common
  import opened Text
  import opened World

  /** `BuildUrl(path)` for the base URL `baseUrl`. */
  function BuildUrl(baseUrl: string, path: string): string
  {
    TrimEnd(baseUrl, '/') + "/" + TrimStart(path, '/')
  }

  /** The whole behaviour: a base that does not end with '/' followed by any
      number of slashes, and a path that does not start with '/' preceded by
      any number of slashes, join with exactly one '/'. The path's interior
      and trailing slashes are kept. */
  lemma {:induction false} UrlOfParts(b: string, i: nat, p: string, j: nat)
    requires b == [] || b[|b| - 1] != '/'
    requires p == [] || p[0] != '/'
    ensures BuildUrl(b + Repeat('/', i), Repeat('/', j) + p) == b + "/" + p
  {
    TrimEndIgnoresSuffix(b, '/', i);
    TrimStartIgnoresPrefix(p, '/', j);
  }

  /** Every pair of inputs has that shape: the trimmed base and path are
      exactly the slashes-free ends. */
  lemma EveryUrlHasThatShape(baseUrl: string, path: string)
    ensures var b := TrimEnd(baseUrl, '/');
            var p := TrimStart(path, '/');
            baseUrl == b + Repeat('/', |baseUrl| - |b|) &&
            path == Repeat('/', |path| - |p|) + p &&
            (b == [] || b[|b| - 1] != '/') && (p == [] || p[0] != '/')
  {
    var b := TrimEnd(baseUrl, '/');
    var p := TrimStart(path, '/');
    assert baseUrl == b + Repeat('/', |baseUrl| - |b|);
    assert path == Repeat('/', |path| - |p|) + p;
  }

  /** An extra leading slash on the path changes nothing. */
  lemma LeadingSlashIgnored(baseUrl: string, path: string)
    ensures BuildUrl(baseUrl, "/" + path) == BuildUrl(baseUrl, path)
  {
    TrimStartIgnoresPrefix(path, '/', 1);
    assert Repeat('/', 1) == "/";
  }

  /** An extra trailing slash on the base changes nothing. */
  lemma TrailingSlashIgnored(baseUrl: string, path: string)
    ensures BuildUrl(baseUrl + "/", path) == BuildUrl(baseUrl, path)
  {
    TrimEndIgnoresSuffix(baseUrl, '/', 1);
    assert Repeat('/', 1) == "/";
  }

  class NavigationHelper {
    const world: World
    /** `Settings.Environment.BaseUrl`. */
    const baseUrl: string

    constructor(world: World, baseUrl: string)
      ensures this.world == world && this.baseUrl == baseUrl
    {
      this.world := world;
      this.baseUrl := baseUrl;
    }

    /** `NavigateToAsync`: logs the URL, then goes to it; `gotoFault` is what
        the navigation throws. */
    method NavigateToAsync(path: string, gotoFault: Option<Exception>) returns (thrown: Option<Exception>)
      modifies world
      ensures world.log == old(world.log) + [Logged(Information, "Navigating to " + BuildUrl(baseUrl, path)),
                                             NavigatedTo(BuildUrl(baseUrl, path))]
      ensures thrown == gotoFault
    {
      var url := BuildUrl(baseUrl, path);
      world.log := world.log + [Logged(Information, "Navigating to " + url)];
      world.log := world.log + [NavigatedTo(url)];
      thrown := gotoFault;
    }
  }
}
