/** `APIClient`: a handle on a base URL whose attribute access yields a new
    handle one path segment further down. The URL is fixed at construction,
    so the handle is a value. */
module ApiClient {
  import opened Strings

  datatype Client = Client(url: string)
  {
    /** `client.<item>`: the base without trailing slashes, one `/`, and the
        item without leading slashes. The receiver is left as it was. */
    function Attr(item: string): (child: Client)
      ensures var p := RStrip(url, '/');
        && |p| < |child.url| && child.url[..|p|] == p && child.url[|p|] == '/'
        && (p == [] || child.url[|p| - 1] != '/')
        && (|child.url| == |p| + 1 || child.url[|p| + 1] != '/')
    {
      Client(RStrip(url, '/') + "/" + LStrip(item, '/'))
    }
  }

  function Slashes(n: nat): (r: string)
    ensures |r| == n && forall i :: 0 <= i < n ==> r[i] == '/'
  {
    if n == 0 then "" else Slashes(n - 1) + "/"
  }

  /** `rstrip('/')` removes a run of slashes and nothing else. */
  lemma RStripRemovesSlashes(s: string)
    ensures s == RStrip(s, '/') + Slashes(|s| - |RStrip(s, '/')|)
  {
    var p := RStrip(s, '/');
    var t := p + Slashes(|s| - |p|);
    assert forall i :: 0 <= i < |s| ==> s[i] == t[i];
  }

  /** `lstrip('/')` removes a run of slashes and nothing else. */
  lemma LStripRemovesSlashes(s: string)
    ensures s == Slashes(|s| - |LStrip(s, '/')|) + LStrip(s, '/')
  {
    var q := LStrip(s, '/');
    var t := Slashes(|s| - |q|) + q;
    assert forall i :: 0 <= i < |s| ==> s[i] == t[i];
  }

  /** However many slashes end the base and begin the item, exactly one
      separates them in the child URL, and nothing else of either is lost. */
  lemma JoinSeparatesOnce(base: string, item: string)
    ensures var p, q := RStrip(base, '/'), LStrip(item, '/');
      && Client(base).Attr(item).url == p + "/" + q
      && (p == [] || p[|p| - 1] != '/')
      && (q == [] || q[0] != '/')
      && base == p + Slashes(|base| - |p|)
      && item == Slashes(|item| - |q|) + q
  {
    RStripRemovesSlashes(base);
    LStripRemovesSlashes(item);
  }

  /** A base that already ends in one slash and an item that begins with
      none are simply concatenated. */
  lemma JoinPlain(base: string, item: string)
    requires base != [] && base[|base| - 1] == '/'
    requires |base| == 1 || base[|base| - 2] != '/'
    requires item == [] || item[0] != '/'
    ensures Client(base).Attr(item).url == base + item
  {
    var p := base[..|base| - 1];
    assert RStrip(p, '/') == p;
    assert base == p + "/";
  }

  /** `client.x.y`: when the first item is a slash-free segment, the chain
      is the base, then `x`, then the second item without leading slashes. */
  lemma ChainedAccess(base: string, x: string, y: string)
    requires x != [] && forall i :: 0 <= i < |x| ==> x[i] != '/'
    ensures Client(base).Attr(x).Attr(y).url == RStrip(base, '/') + "/" + x + "/" + LStrip(y, '/')
  {
    var mid := RStrip(base, '/') + "/" + x;
    assert LStrip(x, '/') == x;
    assert RStrip(mid, '/') == mid;
  }
}
