/** Content transforms: the tag stripper `remove_tags`, the inline-image URL
    extraction of the agent-reply handler, and the image host as an oracle.
    Both regular expressions are modelled as the left-to-right scan that
    `re.sub` and `re.finditer` perform: try a match at the current position;
    on success skip past it, otherwise keep one character and move on. */
module Content {
  import opened Strings
  import opened Effects

  /** Index of the first non-whitespace character at or after `i` (a greedy `\s*`). */
  function SkipSpace(s: string, i: nat): (j: nat)
    requires i <= |s|
    ensures i <= j <= |s|
    ensures forall k :: i <= k < j ==> IsSpace(s[k])
    ensures j == |s| || !IsSpace(s[j])
    decreases |s| - i
  {
    if i < |s| && IsSpace(s[i]) then SkipSpace(s, i + 1) else i
  }

  /** Where the lazy `.*?>` starting at `i` stops: the first `>`, provided no
      line break (which `.` does not match) comes before it. */
  function LineCloseAngle(s: string, i: nat): (e: Option<nat>)
    requires i <= |s|
    ensures e.Some? ==> i <= e.value < |s| && s[e.value] == '>'
    ensures e.Some? ==> forall k :: i <= k < e.value ==> s[k] != '>' && s[k] != '\n'
    ensures e.None? ==> forall k :: i <= k < |s| && s[k] == '>' ==> '\n' in s[i..k]
    decreases |s| - i
  {
    if i == |s| then None
    else if s[i] == '>' then Some(i)
    else if s[i] == '\n' then None
    else LineCloseAngle(s, i + 1)
  }

  // Length of the match of `<\s*/?\s*[a-zA-Z0-9]+.*?>` at the start of `s`,
  // if there is one: `<`, whitespace, an optional `/`, whitespace, at least
  // one ASCII letter or digit, then everything up to the first `>` on the line.
  function TagAt(s: string): (n: Option<nat>)
    ensures n.Some? ==> 3 <= n.value <= |s| && s[0] == '<' && s[n.value - 1] == '>'
    ensures n.Some? ==> forall k :: 1 <= k < n.value - 1 ==> s[k] != '>'
  {
    if s == [] || s[0] != '<' then None
    else
      var i := SkipSpace(s, 1);
      var j := if i < |s| && s[i] == '/' then i + 1 else i;
      var k := SkipSpace(s, j);
      if k < |s| && IsAsciiAlnum(s[k]) then
        match LineCloseAngle(s, k + 1)
        case Some(e) => Some(e + 1)
        case None => None
      else None
  }

  /** `remove_tags(html)`: one pass of `re.sub` deleting every tag match. */
  function RemoveTags(html: string): (r: string)
    ensures |r| <= |html|
    ensures '<' !in html ==> r == html
    decreases |html|
  {
    if html == [] then []
    else match TagAt(html)
      case Some(n) => RemoveTags(html[n..])
      case None => [html[0]] + RemoveTags(html[1..])
  }

  /** `a` can be obtained from `b` by deleting characters. */
  predicate IsSubsequence(a: string, b: string)
    decreases |b|
  {
    a == [] || (b != [] && ((a[0] == b[0] && IsSubsequence(a[1..], b[1..])) || IsSubsequence(a, b[1..])))
  }

  lemma {:induction false} SubsequenceOfSuffix(a: string, b: string, k: nat)
    requires k <= |b| && IsSubsequence(a, b[k..])
    ensures IsSubsequence(a, b)
    decreases k
  {
    if k > 0 {
      assert b[k - 1..][1..] == b[k..];
      SubsequenceOfSuffix(a, b, k - 1);
    }
  }

  /** `remove_tags` only deletes: its output is a subsequence of its input. */
  lemma {:induction false} RemoveTagsSubsequence(html: string)
    ensures IsSubsequence(RemoveTags(html), html)
    decreases |html|
  {
    if html != [] {
      match TagAt(html)
      case Some(n) =>
        RemoveTagsSubsequence(html[n..]);
        SubsequenceOfSuffix(RemoveTags(html), html, n);
      case None =>
        RemoveTagsSubsequence(html[1..]);
        var r := RemoveTags(html);
        assert r[0] == html[0] && r[1..] == RemoveTags(html[1..]);
    }
  }

  lemma {:induction false} LineCloseAngleFinds(s: string, i: nat, e: nat)
    requires i <= e < |s| && s[e] == '>'
    requires forall k :: i <= k < e ==> s[k] != '>' && s[k] != '\n'
    ensures LineCloseAngle(s, i) == Some(e)
    decreases e - i
  {
    if i < e {
      LineCloseAngleFinds(s, i + 1, e);
    }
  }

  /** A plain opening or closing tag `<name>` / `</name>` is removed whole. */
  lemma SimpleTag(tag: string, closing: bool, name: string, rest: string)
    requires name != [] && forall k :: 0 <= k < |name| ==> IsAsciiAlnum(name[k])
    requires tag == "<" + (if closing then "/" else "") + name + ">"
    ensures TagAt(tag + rest) == Some(|tag|)
    ensures RemoveTags(tag + rest) == RemoveTags(rest)
  {
    var s := tag + rest;
    var j := if closing then 2 else 1;
    assert s[j..|tag| - 1] == name;
    assert !IsSpace(s[1]);
    assert SkipSpace(s, j) == j;
    LineCloseAngleFinds(s, j + 1, |tag| - 1);
    assert s[|tag|..] == rest;
  }

  /** Text without `<` passes through unchanged in front of the rest. */
  lemma {:induction false} RemoveTagsText(text: string, rest: string)
    requires '<' !in text
    ensures RemoveTags(text + rest) == text + RemoveTags(rest)
    decreases |text|
  {
    if text != [] {
      var s := text + rest;
      assert s[0] == text[0] != '<';
      assert TagAt(s) == None;
      assert s[1..] == text[1..] + rest;
      assert '<' !in text[1..];
      RemoveTagsText(text[1..], rest);
      assert RemoveTags(s) == [s[0]] + RemoveTags(s[1..]);
      assert [text[0]] + text[1..] == text;
    } else {
      assert text + rest == rest;
    }
  }

  /** What `re.finditer` reports for one `<\s*img\s+src="(http.+?)"\s*>` match:
      the captured URL and the index just past the match. */
  datatype ImgMatch = ImgMatch(url: string, end: nat)

  /** A URL the capture group `(http.+?)` can produce. */
  predicate IsHttpUrl(u: string)
  {
    |u| >= 5 && u[..4] == "http" && '\n' !in u
  }

  /** `"\s*>` matches at index `q` of `s`. */
  predicate ClosesAt(s: string, q: nat)
    requires q < |s|
  {
    s[q] == '"' && SkipSpace(s, q + 1) < |s| && s[SkipSpace(s, q + 1)] == '>'
  }

  /** The closing quote that the lazy `.+?` settles on, scanning from `e`:
      the first `"` after at least one URL character (the group's body starts
      at `v`) that `\s*>` follows, with no line break before it. */
  function UrlEnd(s: string, v: nat, e: nat): (q: Option<nat>)
    requires v <= e <= |s|
    ensures q.Some? ==> e <= q.value < |s| && v < q.value && ClosesAt(s, q.value)
    ensures q.Some? ==> forall m :: e <= m < q.value ==> s[m] != '\n'
    decreases |s| - e
  {
    if e == |s| then None
    else if e > v && ClosesAt(s, e) then Some(e)
    else if s[e] == '\n' then None
    else UrlEnd(s, v, e + 1)
  }

  /** `lit` occurs in `s` at index `i`. */
  predicate HasAt(s: string, i: nat, lit: string)
  {
    i + |lit| <= |s| && s[i..i + |lit|] == lit
  }

  /** The match of the inline-image pattern at the start of `s`, if any. */
  function ImgAt(s: string): (m: Option<ImgMatch>)
    ensures m.Some? ==> IsHttpUrl(m.value.url) && |m.value.url| < m.value.end <= |s|
    ensures m.Some? ==> s[0] == '<' && s[m.value.end - 1] == '>'
  {
    if s == [] || s[0] != '<' then None
    else
      var i := SkipSpace(s, 1);
      if !HasAt(s, i, "img") then None else SrcAt(s, i + 3)
  }

  /** The rest of the pattern after `<\s*img`: `\s+src="http`, then the URL
      and its closing `"\s*>`. */
  function SrcAt(s: string, j: nat): (m: Option<ImgMatch>)
    requires j <= |s|
    ensures m.Some? ==> IsHttpUrl(m.value.url) && |m.value.url| < m.value.end <= |s|
    ensures m.Some? ==> s[m.value.end - 1] == '>'
  {
    var k := SkipSpace(s, j);
    if k == j || !HasAt(s, k, "src=\"") || !HasAt(s, k + 5, "http") then None
    else
      var q := UrlEnd(s, k + 9, k + 9);
      if q.None? then None else UrlMatch(s, k + 5, q.value)
  }

  /** The match whose captured URL is `s[v..q]`, closed by `"\s*>` at `q`. */
  function UrlMatch(s: string, v: nat, q: nat): (m: Option<ImgMatch>)
    requires v + 4 < q < |s| && HasAt(s, v, "http") && ClosesAt(s, q)
    requires forall j :: v + 4 <= j < q ==> s[j] != '\n'
    ensures m.Some? && IsHttpUrl(m.value.url) && |m.value.url| < m.value.end <= |s|
    ensures s[m.value.end - 1] == '>'
  {
    var url := s[v..q];
    assert url[..4] == s[v..v + 4] == "http";
    assert '\n' !in url[..4];
    assert forall j :: 4 <= j < |url| ==> url[j] == s[v + j];
    Some(ImgMatch(url, SkipSpace(s, q + 1) + 1))
  }

  /** `[m.group(1) for m in re.finditer(...)]`: the image URLs in document order. */
  function ImageUrls(html: string): (urls: seq<string>)
    ensures forall i :: 0 <= i < |urls| ==> IsHttpUrl(urls[i])
    ensures |urls| <= |html|
    decreases |html|
  {
    if html == [] then []
    else match ImgAt(html)
      case Some(m) => [m.url] + ImageUrls(html[m.end..])
      case None => ImageUrls(html[1..])
  }

  /** A body with no `<` has no inline images. */
  lemma {:induction false} ImageUrlsNoTag(html: string)
    requires '<' !in html
    ensures ImageUrls(html) == []
    decreases |html|
  {
    if html != [] {
      assert '<' !in html[1..];
      ImageUrlsNoTag(html[1..]);
    }
  }

  /** The canonical inline image an agent's reply carries. */
  function ImgTag(url: string): string
  {
    "<img src=\"" + url + "\">"
  }

  lemma {:induction false} UrlEndFinds(s: string, v: nat, e: nat, q: nat)
    requires v <= e <= q < |s| && v < q && ClosesAt(s, q)
    requires forall m :: e <= m < q ==> s[m] != '"' && s[m] != '\n'
    ensures UrlEnd(s, v, e) == Some(q)
    decreases q - e
  {
    if e < q {
      UrlEndFinds(s, v, e + 1, q);
    }
  }

  /** Where the pieces of `<img src="URL">` sit in the markup. */
  lemma ImgTagLayout(url: string, rest: string)
    requires IsHttpUrl(url)
    ensures var s, q := ImgTag(url) + rest, 10 + |url|;
      && q + 2 <= |s| && s[0] == '<' && HasAt(s, 1, "img") && s[4] == ' '
      && HasAt(s, 5, "src=\"") && HasAt(s, 10, "http") && s[10..q] == url
      && s[q] == '"' && s[q + 1] == '>' && s[q + 2..] == rest
  {
    var s, q := ImgTag(url) + rest, 10 + |url|;
    assert s == "<img src=\"" + url + "\">" + rest;
    assert s[..10] == "<img src=\"";
    assert s[10..14] == url[..4];
  }

  /** Each well-formed inline image contributes its URL, in order, before
      whatever follows it. */
  lemma ImageUrlsOfTag(url: string, rest: string)
    requires IsHttpUrl(url) && '"' !in url
    ensures ImageUrls(ImgTag(url) + rest) == [url] + ImageUrls(rest)
  {
    var s := ImgTag(url) + rest;
    var q := 10 + |url|;
    ImgTagLayout(url, rest);
    assert SkipSpace(s, 1) == 1;
    assert SkipSpace(s, 4) == 5;
    assert SkipSpace(s, q + 1) == q + 1;
    assert forall m :: 14 <= m < q ==> s[m] == url[m - 10];
    UrlEndFinds(s, 14, 14, q);
    assert SrcAt(s, 4) == Some(ImgMatch(url, q + 2));
  }

  /** Text without `<` contributes no image and does not disturb the rest. */
  lemma {:induction false} ImageUrlsText(text: string, rest: string)
    requires '<' !in text
    ensures ImageUrls(text + rest) == ImageUrls(rest)
    decreases |text|
  {
    if text != [] {
      var s := text + rest;
      assert s[0] == text[0] != '<';
      assert ImgAt(s) == None;
      assert s[1..] == text[1..] + rest;
      assert '<' !in text[1..];
      ImageUrlsText(text[1..], rest);
    } else {
      assert text + rest == rest;
    }
  }

  /** The image host's answer to one upload. */
  datatype UploadResponse = UploadResponse(status: int, code: Option<string>, url: string)

  /** `upload_image`: the hosted URL, or None unless the host answered ok
      with code `success`. */
  function UploadImage(r: UploadResponse): (u: Option<string>)
    ensures u.Some? <==> Ok(r.status) && r.code == Some("success")
    ensures u.Some? ==> u.value == r.url
  {
    if Ok(r.status) && r.code == Some("success") then Some(r.url) else None
  }

  /** Python truthiness of `upload_image`'s result: None and `''` are false. */
  predicate HasUrl(u: Option<string>)
  {
    u.Some? && u.value != ""
  }
}
