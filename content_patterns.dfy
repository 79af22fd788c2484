/** The two regular expressions of the content transforms, stated as
    predicates over the input, and the proof that the scanners of `Content`
    find exactly the matches these predicates describe. */
module ContentPatterns {
  import opened Strings
  import opened Effects
  import opened Content

  /** `s[a..b]` is all whitespace (a run of `\s`). */
  predicate Spaces(s: string, a: nat, b: nat)
  {
    a <= b <= |s| && forall m :: a <= m < b ==> IsSpace(s[m])
  }

  lemma {:induction false} SkipSpaceTo(s: string, i: nat, k: nat)
    requires Spaces(s, i, k) && (k == |s| || !IsSpace(s[k]))
    ensures SkipSpace(s, i) == k
    decreases k - i
  {
    if i < k {
      SkipSpaceTo(s, i + 1, k);
    }
  }

  // ------------------------------------------------ `<\s*/?\s*[a-zA-Z0-9]+.*?>`

  /** The opener matches `s[..k]`: `<`, whitespace, at most one `/`, whitespace. */
  predicate TagOpener(s: string, k: nat)
  {
    s != [] && s[0] == '<' && 1 <= k <= |s| &&
    (Spaces(s, 1, k) || exists j: nat :: 1 <= j < k && s[j] == '/' && Spaces(s, 1, j) && Spaces(s, j + 1, k))
  }

  /** After the opener ending at `k`: a letter or digit at `k`, then the
      lazy `.*?>`, which stops at the first `>` and cannot cross a line break. */
  predicate TagFrom(s: string, k: nat, n: nat)
  {
    TagOpener(s, k) && k + 2 <= n <= |s| && IsAsciiAlnum(s[k]) && s[n - 1] == '>' &&
    forall m :: k < m < n - 1 ==> s[m] != '>' && s[m] != '\n'
  }

  /** The tag pattern matches the first `n` characters of `s`. */
  ghost predicate TagMatch(s: string, n: nat)
  {
    exists k: nat :: TagFrom(s, k, n)
  }

  /** What the scanner finds is a match of the pattern. */
  lemma TagAtSound(s: string)
    requires TagAt(s).Some?
    ensures TagMatch(s, TagAt(s).value)
  {
    var i := SkipSpace(s, 1);
    var j := if i < |s| && s[i] == '/' then i + 1 else i;
    var k := SkipSpace(s, j);
    var n := TagAt(s).value;
    if j == i {
      assert Spaces(s, 1, k);
    } else {
      assert Spaces(s, 1, i) && Spaces(s, i + 1, k);
    }
    assert TagFrom(s, k, n);
  }

  /** Where the opener must end: no other position can precede a name. */
  lemma TagOpenerEnd(s: string, k: nat)
    requires TagOpener(s, k) && k < |s| && IsAsciiAlnum(s[k])
    ensures var i := SkipSpace(s, 1);
      var j := if i < |s| && s[i] == '/' then i + 1 else i;
      SkipSpace(s, j) == k
  {
    if Spaces(s, 1, k) {
      SkipSpaceTo(s, 1, k);
    } else {
      var j: nat :| 1 <= j < k && s[j] == '/' && Spaces(s, 1, j) && Spaces(s, j + 1, k);
      SkipSpaceTo(s, 1, j);
      SkipSpaceTo(s, j + 1, k);
    }
  }

  /** The scanner's steps, once each of them is known. */
  lemma TagAtSteps(s: string, k: nat, e: nat)
    requires s != [] && s[0] == '<'
    requires var i := SkipSpace(s, 1);
      var j := if i < |s| && s[i] == '/' then i + 1 else i;
      SkipSpace(s, j) == k
    requires k < |s| && IsAsciiAlnum(s[k]) && LineCloseAngle(s, k + 1) == Some(e)
    ensures TagAt(s) == Some(e + 1)
  {
  }

  /** A match whose name starts at `k` is the one the scanner finds. */
  lemma TagFromScan(s: string, k: nat, n: nat)
    requires TagFrom(s, k, n)
    ensures TagAt(s) == Some(n)
  {
    TagOpenerEnd(s, k);
    LineCloseAngleFinds(s, k + 1, n - 1);
    TagAtSteps(s, k, n - 1);
  }

  /** Every match of the pattern is the one the scanner finds. */
  lemma TagAtComplete(s: string, n: nat)
    requires TagMatch(s, n)
    ensures TagAt(s) == Some(n)
  {
    var k: nat :| TagFrom(s, k, n);
    TagFromScan(s, k, n);
  }

  /** `remove_tags` removes a tag exactly where the pattern matches, and
      the match it removes is the one the pattern determines. */
  lemma TagAtMatches(s: string, n: nat)
    ensures TagAt(s) == Some(n) <==> TagMatch(s, n)
    ensures TagAt(s).None? <==> forall n': nat :: !TagMatch(s, n')
  {
    if TagAt(s).Some? {
      TagAtSound(s);
    }
    if TagMatch(s, n) {
      TagAtComplete(s, n);
    }
    if TagAt(s).None? {
      forall n': nat | TagMatch(s, n')
        ensures false
      {
        TagAtComplete(s, n');
      }
    }
  }

  // ------------------------------------------------ `<\s*img\s+src="(http.+?)"\s*>`

  /** `<\s*img\s+src="` matches `s[..k + 5]`, with `img` at `i` and `src` at `k`. */
  predicate ImgOpen(s: string, i: nat, k: nat)
  {
    s != [] && s[0] == '<' && Spaces(s, 1, i) && HasAt(s, i, "img") &&
    i + 3 < k && Spaces(s, i + 3, k) && HasAt(s, k, "src=\"")
  }

  /** `"\s*>` matches `s[q..e]`. */
  predicate Closing(s: string, q: nat, e: nat)
  {
    q + 2 <= e <= |s| && s[q] == '"' && Spaces(s, q + 1, e - 1) && s[e - 1] == '>'
  }

  /** From `v`, the group `(http.+?)` captures `m.url` and `"\s*>` ends the
      match at `m.end`: `http`, at least one more character, no line break,
      and, the group being lazy, no earlier `"\s*>` after that first character. */
  ghost predicate Capture(s: string, v: nat, m: ImgMatch)
  {
    var q := v + |m.url|;
    v + 4 < q < |s| && s[v..q] == m.url && HasAt(s, v, "http") &&
    (forall j :: v + 4 <= j < q ==> s[j] != '\n') &&
    Closing(s, q, m.end) &&
    (forall p: nat, e: nat :: v + 4 < p < q ==> !Closing(s, p, e))
  }

  /** The inline-image pattern matches at the start of `s`, giving `m`. */
  ghost predicate ImgPattern(s: string, m: ImgMatch)
  {
    exists i: nat, k: nat :: ImgOpen(s, i, k) && Capture(s, k + 5, m)
  }

  /** `ClosesAt` is `"\s*>`, and it fixes where the match ends. */
  lemma ClosesAtClosing(s: string, q: nat)
    requires q < |s|
    ensures ClosesAt(s, q) ==> Closing(s, q, SkipSpace(s, q + 1) + 1)
    ensures forall e: nat :: Closing(s, q, e) ==> ClosesAt(s, q) && e == SkipSpace(s, q + 1) + 1
  {
    forall e: nat | Closing(s, q, e)
      ensures ClosesAt(s, q) && e == SkipSpace(s, q + 1) + 1
    {
      SkipSpaceTo(s, q + 1, e - 1);
    }
  }

  /** The lazy scan stops at the first closing quote. */
  lemma {:induction false} UrlEndFirst(s: string, v: nat, e: nat)
    requires v <= e <= |s| && UrlEnd(s, v, e).Some?
    ensures forall p :: e <= p < UrlEnd(s, v, e).value && v < p ==> !ClosesAt(s, p)
    decreases |s| - e
  {
    if !(e > v && ClosesAt(s, e)) {
      UrlEndFirst(s, v, e + 1);
    }
  }

  /** The scan finds a closing quote that nothing before it pre-empts. */
  lemma {:induction false} UrlEndReaches(s: string, v: nat, e: nat, q: nat)
    requires v <= e <= q < |s| && v < q && ClosesAt(s, q)
    requires forall p :: e <= p < q ==> s[p] != '\n' && (v < p ==> !ClosesAt(s, p))
    ensures UrlEnd(s, v, e) == Some(q)
    decreases q - e
  {
    if e < q {
      UrlEndReaches(s, v, e + 1, q);
    }
  }

  /** Where the scanner finds `img` when it finds an image. */
  lemma ImgAtOpen(s: string) returns (i: nat)
    requires ImgAt(s).Some?
    ensures s != [] && s[0] == '<' && i + 3 <= |s| && SkipSpace(s, 1) == i && HasAt(s, i, "img")
    ensures ImgAt(s) == SrcAt(s, i + 3)
  {
    i := SkipSpace(s, 1);
  }

  /** Where the scanner finds `src="` and the closing quote when it finds an image. */
  lemma SrcAtParts(s: string, j: nat) returns (k: nat, q: nat)
    requires j <= |s| && SrcAt(s, j).Some?
    ensures j < k && k + 9 <= |s| && SkipSpace(s, j) == k && HasAt(s, k, "src=\"") && HasAt(s, k + 5, "http")
    ensures UrlEnd(s, k + 9, k + 9) == Some(q) && SrcAt(s, j) == UrlMatch(s, k + 5, q)
  {
    k := SkipSpace(s, j);
    q := UrlEnd(s, k + 9, k + 9).value;
  }

  /** The URL the lazy scan settles on, after `src="` at `k`, is a capture. */
  lemma ScanCapture(s: string, k: nat, q: nat)
    requires k + 9 <= |s| && HasAt(s, k + 5, "http") && UrlEnd(s, k + 9, k + 9) == Some(q)
    ensures Capture(s, k + 5, UrlMatch(s, k + 5, q).value)
  {
    ClosesAtClosing(s, q);
    UrlEndFirst(s, k + 9, k + 9);
    forall p: nat, e: nat | k + 9 < p < q
      ensures !Closing(s, p, e)
    {
      ClosesAtClosing(s, p);
    }
  }

  /** The scanner's positions make up the opening of the pattern. */
  lemma OpenFromScan(s: string, i: nat, k: nat)
    requires s != [] && s[0] == '<' && i + 3 <= |s| && SkipSpace(s, 1) == i && HasAt(s, i, "img")
    requires i + 3 < k <= |s| && SkipSpace(s, i + 3) == k && HasAt(s, k, "src=\"")
    ensures ImgOpen(s, i, k)
  {
  }

  /** The scanner's positions give a match of the pattern. */
  lemma PatternFromScan(s: string, i: nat, k: nat, q: nat)
    requires s != [] && s[0] == '<' && i + 3 <= |s| && SkipSpace(s, 1) == i && HasAt(s, i, "img")
    requires i + 3 < k && k + 9 <= |s| && SkipSpace(s, i + 3) == k && HasAt(s, k, "src=\"")
    requires HasAt(s, k + 5, "http") && UrlEnd(s, k + 9, k + 9) == Some(q)
    ensures ImgPattern(s, UrlMatch(s, k + 5, q).value)
  {
    OpenFromScan(s, i, k);
    ScanCapture(s, k, q);
    ImgPatternAt(s, i, k, UrlMatch(s, k + 5, q).value);
  }

  /** What the scanner finds is a match of the pattern. */
  lemma ImgAtSound(s: string)
    requires ImgAt(s).Some?
    ensures ImgPattern(s, ImgAt(s).value)
  {
    var i := ImgAtOpen(s);
    var k, q := SrcAtParts(s, i + 3);
    PatternFromScan(s, i, k, q);
  }

  /** A match with `img` at `i` and `src` at `k`. */
  lemma ImgPatternAt(s: string, i: nat, k: nat, m: ImgMatch)
    requires ImgOpen(s, i, k) && Capture(s, k + 5, m)
    ensures ImgPattern(s, m)
  {
  }

  /** The positions of `img` and `src` are forced by the markup. */
  lemma ImgOpenPlaces(s: string, i: nat, k: nat)
    requires ImgOpen(s, i, k)
    ensures SkipSpace(s, 1) == i && SkipSpace(s, i + 3) == k
  {
    assert s[i] == 'i' && s[k] == 's';
    SkipSpaceTo(s, 1, i);
    SkipSpaceTo(s, i + 3, k);
  }

  /** The lazy group of a capture after `src="` at `k` stops where the
      scanner stops, and the scanner builds the same match from it. */
  lemma CaptureEnd(s: string, k: nat, m: ImgMatch)
    requires Capture(s, k + 5, m)
    ensures UrlEnd(s, k + 9, k + 9) == Some(k + 5 + |m.url|)
    ensures UrlMatch(s, k + 5, k + 5 + |m.url|) == Some(m)
  {
    var q := k + 5 + |m.url|;
    ClosesAtClosing(s, q);
    forall p | k + 9 <= p < q
      ensures s[p] != '\n' && (k + 9 < p ==> !ClosesAt(s, p))
    {
      ClosesAtClosing(s, p);
    }
    UrlEndReaches(s, k + 9, k + 9, q);
  }

  /** The steps after `img`, once each of them is known. */
  lemma SrcAtSteps(s: string, j: nat, k: nat, q: nat)
    requires j < k <= |s| && SkipSpace(s, j) == k && HasAt(s, k, "src=\"") && HasAt(s, k + 5, "http")
    requires UrlEnd(s, k + 9, k + 9) == Some(q)
    ensures SrcAt(s, j) == UrlMatch(s, k + 5, q)
  {
  }

  /** The scanner's steps, once each of them is known. */
  lemma ImgAtSteps(s: string, i: nat, k: nat, q: nat)
    requires ImgOpen(s, i, k) && HasAt(s, k + 5, "http") && UrlEnd(s, k + 9, k + 9) == Some(q)
    ensures ImgAt(s) == UrlMatch(s, k + 5, q)
  {
    ImgOpenPlaces(s, i, k);
    SrcAtSteps(s, i + 3, k, q);
  }

  /** A match with `img` at `i` and `src` at `k` is the one the scanner finds. */
  lemma ImgFromScan(s: string, i: nat, k: nat, m: ImgMatch)
    requires ImgOpen(s, i, k) && Capture(s, k + 5, m)
    ensures ImgAt(s) == Some(m)
  {
    CaptureEnd(s, k, m);
    ImgAtSteps(s, i, k, k + 5 + |m.url|);
  }

  /** Every match of the pattern is the one the scanner finds. */
  lemma ImgAtComplete(s: string, m: ImgMatch)
    requires ImgPattern(s, m)
    ensures ImgAt(s) == Some(m)
  {
    var i: nat, k: nat :| ImgOpen(s, i, k) && Capture(s, k + 5, m);
    ImgFromScan(s, i, k, m);
  }

  /** The inline-image extraction reports an image exactly where the pattern
      `<\s*img\s+src="(http.+?)"\s*>` matches, with the URL and end it fixes. */
  lemma ImgAtMatches(s: string, m: ImgMatch)
    ensures ImgAt(s) == Some(m) <==> ImgPattern(s, m)
    ensures ImgAt(s).None? <==> forall m' :: !ImgPattern(s, m')
  {
    if ImgAt(s).Some? {
      ImgAtSound(s);
    }
    if ImgPattern(s, m) {
      ImgAtComplete(s, m);
    }
    if ImgAt(s).None? {
      forall m' | ImgPattern(s, m')
        ensures false
      {
        ImgAtComplete(s, m');
      }
    }
  }
}
