/** Image URLs: the build's base URL followed by the image's relative path with
    one leading `/` removed. The base URL is configuration, taken as input. */
module Assets {

  /** `path.startsWith('/') ? path.substring(1) : path` */
  function StripLeadingSlash(path: string): string
  {
    if |path| > 0 && path[0] == '/' then path[1..] else path
  }

  /** `${BASE_URL}${...}` for an image reference. */
  function ResolveAsset(baseUrl: string, path: string): string
  {
    baseUrl + StripLeadingSlash(path)
  }

  /** The URL is the base followed by the path, with exactly one leading `/`
      dropped when there is one and nothing dropped otherwise. */
  lemma ResolveAssetShape(baseUrl: string, path: string)
    ensures var url := ResolveAsset(baseUrl, path);
      && |url| >= |baseUrl| && url[..|baseUrl|] == baseUrl
      && (if |path| > 0 && path[0] == '/'
          then |url| == |baseUrl| + |path| - 1 && ['/'] + url[|baseUrl|..] == path
          else |url| == |baseUrl| + |path| && url[|baseUrl|..] == path)
  {
    var url := ResolveAsset(baseUrl, path);
    assert url[|baseUrl|..] == StripLeadingSlash(path);
    if |path| > 0 && path[0] == '/' {
      assert ['/'] + path[1..] == path;
    }
  }

  /** Only one slash is removed: a path starting with `//` still yields a
      relative part that starts with `/`. */
  lemma ResolveAssetStripsOnce(baseUrl: string, path: string)
    requires |path| >= 2 && path[0] == '/' && path[1] == '/'
    ensures |ResolveAsset(baseUrl, path)| > |baseUrl|
    ensures ResolveAsset(baseUrl, path)[|baseUrl|] == '/'
  {
  }

  /** Two references resolve to the same URL exactly when they agree once their
      leading slash is dropped: `/images/1.png` and `images/1.png` name one file. */
  lemma ResolveAssetSameUrl(baseUrl: string, p1: string, p2: string)
    ensures ResolveAsset(baseUrl, p1) == ResolveAsset(baseUrl, p2)
        <==> StripLeadingSlash(p1) == StripLeadingSlash(p2)
  {
    if ResolveAsset(baseUrl, p1) == ResolveAsset(baseUrl, p2) {
      assert ResolveAsset(baseUrl, p1)[|baseUrl|..] == StripLeadingSlash(p1);
      assert ResolveAsset(baseUrl, p2)[|baseUrl|..] == StripLeadingSlash(p2);
    }
  }
}
