/** Worked examples of the two content scanners on concrete markup. */
module ContentExamples {
  import opened Strings
  import opened Effects
  import opened Content
  import opened ContentPatterns

  /** A plain tag followed by text without `<`: the tag goes, the text stays. */
  lemma TagThenText(tag: string, closing: bool, name: string, text: string, rest: string)
    requires name != [] && forall k :: 0 <= k < |name| ==> IsAsciiAlnum(name[k])
    requires tag == "<" + (if closing then "/" else "") + name + ">"
    requires '<' !in text
    ensures RemoveTags(tag + (text + rest)) == text + RemoveTags(rest)
  {
    SimpleTag(tag, closing, name, text + rest);
    RemoveTagsText(text, rest);
  }

  lemma RemoveTagsWorld(t3: string)
    requires t3 == "<i>" + ("world" + ("</i>" + ""))
    ensures RemoveTags(t3) == "world"
  {
    SimpleTag("</i>", true, "i", "");
    TagThenText("<i>", false, "i", "world", "</i>" + "");
  }

  lemma RemoveTagsSpace(t2: string, t3: string)
    requires t2 == "</b>" + (" " + t3)
    ensures RemoveTags(t2) == " " + RemoveTags(t3)
  {
    TagThenText("</b>", true, "b", " ", t3);
  }

  lemma RemoveTagsHello(t1: string, t3: string)
    requires t1 == "<b>" + ("hello" + ("</b>" + (" " + t3)))
    ensures RemoveTags(t1) == "hello" + (" " + RemoveTags(t3))
  {
    var t2 := "</b>" + (" " + t3);
    RemoveTagsSpace(t2, t3);
    TagThenText("<b>", false, "b", "hello", t2);
  }

  lemma TaggedHelloWorld()
    ensures "<b>" + ("hello" + ("</b>" + (" " + ("<i>" + ("world" + ("</i>" + ""))))))
      == "<b>hello</b> <i>world</i>"
    ensures "hello" + (" " + "world") == "hello world"
  {
  }

  /** The usual case: tags go, the text between them stays. */
  lemma RemoveTagsExample(html: string)
    requires html == "<b>hello</b> <i>world</i>"
    ensures RemoveTags(html) == "hello world"
  {
    var t3 := "<i>" + ("world" + ("</i>" + ""));
    RemoveTagsWorld(t3);
    TaggedHelloWorld();
    RemoveTagsHello(html, t3);
  }

  /** Entities are text: nothing is decoded. */
  lemma RemoveTagsKeepsEntities(html: string)
    requires html == "a &amp; b"
    ensures RemoveTags(html) == html
  {
    assert '<' !in html;
  }

  /** A `<` that does not open a tag is kept with what follows it. */
  lemma KeptOpener(html: string)
    requires html != [] && html[0] == '<' && TagAt(html) == None && '<' !in html[1..]
    ensures RemoveTags(html) == html
  {
    assert [html[0]] + html[1..] == html;
  }

  /** Not tags, so kept: `<>`, a comment opener, a tag with no `>`, and a
      tag whose `>` is on the next line. */
  lemma RemoveTagsKeeps(empty: string, comment: string, open: string, broken: string)
    requires empty == "<>" && comment == "<!--" && open == "<b" && broken == "<b\n>"
    ensures RemoveTags(empty) == empty && RemoveTags(comment) == comment
    ensures RemoveTags(open) == open && RemoveTags(broken) == broken
  {
    KeptNoName(empty);
    KeptNoName(comment);
    KeptUnclosed(open);
    KeptUnclosed(broken);
  }

  /** `<` followed by neither a name nor a `/`. */
  lemma KeptNoName(html: string)
    requires |html| >= 2 && html[0] == '<' && !IsSpace(html[1]) && html[1] != '/' && !IsAsciiAlnum(html[1])
    requires '<' !in html[1..]
    ensures RemoveTags(html) == html
  {
    assert SkipSpace(html, 1) == 1;
    KeptOpener(html);
  }

  /** A tag name with no `>` on its line. */
  lemma KeptUnclosed(html: string)
    requires |html| >= 2 && html[0] == '<' && IsAsciiAlnum(html[1]) && '<' !in html[1..]
    requires LineCloseAngle(html, 2) == None
    ensures RemoveTags(html) == html
  {
    assert !IsSpace(html[1]) && SkipSpace(html, 1) == 1;
    KeptOpener(html);
  }

  /** A `<` followed by a character that cannot start a tag name is kept,
      and the scan goes on from the next character. */
  lemma KeptFirst(html: string)
    requires |html| >= 2 && html[0] == '<'
    requires !IsSpace(html[1]) && html[1] != '/' && !IsAsciiAlnum(html[1])
    ensures RemoveTags(html) == [html[0]] + RemoveTags(html[1..])
  {
    assert SkipSpace(html, 1) == 1;
  }

  lemma InnerTag(inner: string)
    requires inner == "<b>a>"
    ensures RemoveTags(inner) == "a>"
  {
    assert inner == "<b>" + ("a>" + "");
    TagThenText("<b>", false, "b", "a>", "");
  }

  lemma FirstPass(html: string)
    requires html == "<<b>a>"
    ensures RemoveTags(html) == "<a>"
  {
    KeptFirst(html);
    InnerTag(html[1..]);
  }

  lemma SecondPass(html: string)
    requires html == "<a>"
    ensures RemoveTags(html) == ""
  {
    SimpleTag("<a>", false, "a", "");
    assert "<a>" + "" == html;
  }

  /** One pass, no rescan: removing `<b>` from `<<b>a>` leaves a new tag `<a>`
      behind, which a second pass removes too. */
  lemma RemoveTagsNotIdempotent(html: string)
    requires html == "<<b>a>"
    ensures RemoveTags(html) == "<a>"
    ensures RemoveTags(RemoveTags(html)) == ""
  {
    FirstPass(html);
    SecondPass("<a>");
  }

  lemma NotAnImage(rest: string)
    ensures ImageUrls("<p>hi" + rest) == ImageUrls("p>hi" + rest)
  {
    var s := "<p>hi" + rest;
    assert s[0] == '<' && s[1] == 'p';
    assert SkipSpace(s, 1) == 1;
    assert s[1..4] != "img";
    assert ImgAt(s) == None;
    assert s[1..] == "p>hi" + rest;
  }

  /** A closing tag is not an image. */
  lemma ClosingParagraph(tail: string)
    requires tail == "</p>"
    ensures ImageUrls(tail) == []
  {
    assert ImgAt(tail) == None;
    ImageUrlsNoTag(tail[1..]);
  }

  /** Two inline images contribute their URLs in order. */
  lemma TwoImages(a: string, b: string, tail: string)
    requires IsHttpUrl(a) && '"' !in a && IsHttpUrl(b) && '"' !in b
    ensures ImageUrls(ImgTag(a) + (ImgTag(b) + tail)) == [a, b] + ImageUrls(tail)
  {
    ImageUrlsOfTag(b, tail);
    ImageUrlsOfTag(a, ImgTag(b) + tail);
  }

  /** `http://a/b.png` and `http://c/d.jpg` are URLs the group can capture. */
  lemma ExampleUrls(a: string, b: string)
    requires a == "http://a/b.png" && b == "http://c/d.jpg"
    ensures IsHttpUrl(a) && '"' !in a && IsHttpUrl(b) && '"' !in b
  {
  }

  /** Two inline images inside a paragraph come out in document order
      (`ImgTag(u)` is the markup `<img src="u">`). */
  lemma ImageUrlsExample(html: string)
    requires html == "<p>hi" + (ImgTag("http://a/b.png") + (ImgTag("http://c/d.jpg") + "</p>"))
    ensures ImageUrls(html) == ["http://a/b.png", "http://c/d.jpg"]
  {
    var a, b, tail := "http://a/b.png", "http://c/d.jpg", "</p>";
    ExampleUrls(a, b);
    ClosingParagraph(tail);
    TwoImages(a, b, tail);
    var body := ImgTag(a) + (ImgTag(b) + tail);
    ImageUrlsText("p>hi", body);
    NotAnImage(body);
  }

  /** The characters of `http://a" alt="b` that matter to the scan. */
  lemma LazyUrl(u: string)
    requires u == "http://a\" alt=\"b"
    ensures IsHttpUrl(u) && |u| == 16 && u[9] == ' ' && u[10] == 'a' && u[15] == 'b'
    ensures forall j :: 4 <= j < 16 ==> u[j] != '\n' && (u[j] == '"' ==> j == 8 || j == 14)
  {
    assert u[..4] == "http";
  }

  /** In `<img src="http://a" alt="b">` only the last quote is followed by
      `>`, so the scan runs past the first two. */
  lemma LazyCaptureEnd(u: string)
    requires u == "http://a\" alt=\"b"
    ensures UrlEnd(ImgTag(u), 14, 14) == Some(26)
  {
    var s := ImgTag(u);
    LazyUrl(u);
    ImgTagLayout(u, []);
    assert s + [] == s;
    assert forall p :: 10 <= p < 26 ==> s[p] == u[p - 10];
    assert SkipSpace(s, 19) == 20 && SkipSpace(s, 25) == 25 && SkipSpace(s, 27) == 27;
    UrlEndReaches(s, 14, 14, 26);
  }

  /** The group `(http.+?)` is lazy but does not stop at the end of the `src`
      value: in `<img src="http://a" alt="b">` the further attribute ends up
      inside the captured URL. */
  lemma LazyCapture(u: string)
    requires u == "http://a\" alt=\"b"
    ensures ImgAt(ImgTag(u)) == Some(ImgMatch(u, 28))
    ensures ImageUrls(ImgTag(u)) == [u]
  {
    var s := ImgTag(u);
    LazyUrl(u);
    ImgTagLayout(u, []);
    assert s + [] == s;
    LazyCaptureEnd(u);
    assert SkipSpace(s, 1) == 1 && SkipSpace(s, 4) == 5 && SkipSpace(s, 27) == 27;
    SrcAtSteps(s, 4, 5, 26);
    assert s[28..] == [];
  }
}
