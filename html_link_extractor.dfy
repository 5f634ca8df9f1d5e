/*
 * The HTML link extractor: given the tokens of an HTML fragment and the set of
 * enabled tag categories (the `extract.from_*` settings), it returns the URL
 * attribute values found in tags of those categories, verbatim, each value
 * once, in document order of first occurrence.
 *
 * The tokeniser that turns the fragment into tokens is not part of this model,
 * except for the rule that delimits comments (`CommentBody` below).  Tag and
 * attribute names are taken as already lower-cased by that tokeniser.
 */
module HtmlLinkExtractor {
  import opened Wrappers
  import opened Sequences
  import opened Strings

  datatype Token =
    | StartTag(name: string, attrs: map<string, string>)
    | EndTag(name: string)
    | Text(content: string)
    | Comment(content: string)

  /** The seven tag categories, one per `extract.from_*` setting. */
  datatype Category = FromA | FromAudio | FromEmbed | FromIframe | FromImg | FromObject | FromVideo

  /** A URL attribute value together with the category of the tag that carries it. */
  datatype RawUrl = RawUrl(category: Category, url: string)

  /** The elements open at a point of the token stream, innermost first. */
  datatype Open = Top | Inside(tag: string, outer: Open)

  /** Elements that never take an end tag. */
  const VoidElements: set<string> :=
    {"area", "base", "br", "col", "embed", "hr", "img", "input", "link", "meta", "param", "source", "track", "wbr"}

  /** Values of the `name` attribute that make a `<param>` carry a URL in its `value`. */
  const ParamNames: set<string> := {"archive", "filename", "href", "movie", "src", "url"}

  /** Some open element is a `tag`. */
  predicate Within(o: Open, tag: string)
  {
    o.Inside? && (o.tag == tag || Within(o.outer, tag))
  }

  /**
   * The end tag `</tag>` closes the innermost open `tag` together with every
   * element opened inside it; an end tag with no open element of that name is
   * ignored.
   */
  function Close(o: Open, tag: string): Open
  {
    if !Within(o, tag) then o
    else if o.tag == tag then o.outer
    else Close(o.outer, tag)
  }

  /** The value of the attribute `attr`, if present, as a URL of category `c`. */
  function Found(c: Category, attrs: map<string, string>, attr: string): seq<RawUrl>
  {
    if attr in attrs then [RawUrl(c, attrs[attr])] else []
  }

  /** The category a `<source>` belongs to: that of its innermost open `<video>` or `<audio>`. */
  function MediaCategory(o: Open): Option<Category>
  {
    if o.Top? then None
    else if o.tag == "video" then Some(FromVideo)
    else if o.tag == "audio" then Some(FromAudio)
    else MediaCategory(o.outer)
  }

  /** A `<param>` carries a URL when its name is one of `ParamNames` or its `src` is "movie". */
  predicate ParamCarriesUrl(attrs: map<string, string>)
  {
    ("name" in attrs && attrs["name"] in ParamNames) || ("src" in attrs && attrs["src"] == "movie")
  }

  /** The URLs carried by one start tag, given the elements open around it. */
  function TagUrls(name: string, attrs: map<string, string>, o: Open): seq<RawUrl>
  {
    if name == "a" then Found(FromA, attrs, "href")
    else if name == "img" then Found(FromImg, attrs, "src")
    else if name == "iframe" then Found(FromIframe, attrs, "src")
    else if name == "embed" then Found(FromEmbed, attrs, "src")
    else if name == "audio" then Found(FromAudio, attrs, "src")
    else if name == "video" then Found(FromVideo, attrs, "src")
    else if name == "object" then Found(FromObject, attrs, "data") + Found(FromObject, attrs, "codebase")
    else if name == "source" then
      (match MediaCategory(o)
       case Some(c) => Found(c, attrs, "src")
       case None => [])
    else if name == "param" && Within(o, "object") && ParamCarriesUrl(attrs) then
      Found(FromObject, attrs, "value")
    else []
  }

  /** The elements open after a start tag. */
  function Push(name: string, o: Open): Open
  {
    if name in VoidElements then o else Inside(name, o)
  }

  /** The elements open after one token; text and comments change nothing. */
  function Step(t: Token, o: Open): Open
  {
    match t
    case StartTag(name, _) => Push(name, o)
    case EndTag(name) => Close(o, name)
    case Text(_) => o
    case Comment(_) => o
  }

  /** The URLs one token carries; only start tags carry any. */
  function TokenUrls(t: Token, o: Open): seq<RawUrl>
  {
    match t
    case StartTag(name, attrs) => TagUrls(name, attrs, o)
    case EndTag(_) => []
    case Text(_) => []
    case Comment(_) => []
  }

  /** Every URL candidate of the token stream, in document order, with its category. */
  function Candidates(ts: seq<Token>, o: Open): seq<RawUrl>
  {
    if ts == [] then [] else TokenUrls(ts[0], o) + Candidates(ts[1..], Step(ts[0], o))
  }

  /** The elements open after the token stream. */
  function OpenAfter(ts: seq<Token>, o: Open): Open
  {
    if ts == [] then o else OpenAfter(ts[1..], Step(ts[0], o))
  }

  /** The URL values of the candidates whose category is enabled, in order. */
  function Select(cs: seq<RawUrl>, enabled: set<Category>): (r: seq<string>)
    ensures forall u :: u in r <==> exists c :: c in enabled && RawUrl(c, u) in cs
    ensures |r| <= |cs|
  {
    if cs == [] then []
    else if cs[0].category in enabled then [cs[0].url] + Select(cs[1..], enabled)
    else Select(cs[1..], enabled)
  }

  /**
   * The extractor: the values of the enabled categories' URL attributes,
   * verbatim and without duplicates, in document order of first occurrence.
   */
  function Extract(ts: seq<Token>, enabled: set<Category>): (r: seq<string>)
    ensures NoDup(r)
    ensures forall u :: u in r <==> exists c :: c in enabled && RawUrl(c, u) in Candidates(ts, Top)
    ensures forall u :: u in r ==> u in Select(Candidates(ts, Top), enabled)
    ensures forall i, j :: 0 <= i < j < |r| ==>
      IndexOf(Select(Candidates(ts, Top), enabled), r[i]) < IndexOf(Select(Candidates(ts, Top), enabled), r[j])
  {
    FreshOrder(Select(Candidates(ts, Top), enabled), {});
    Unique(Select(Candidates(ts, Top), enabled))
  }

  /** The elements open after a concatenation: the second part starts where the first left them. */
  lemma {:induction false} OpenAfterAppend(a: seq<Token>, b: seq<Token>, o: Open)
    ensures OpenAfter(a + b, o) == OpenAfter(b, OpenAfter(a, o))
    decreases |a|
  {
    if a == [] {
      assert a + b == b;
    } else {
      assert (a + b)[0] == a[0] && (a + b)[1..] == a[1..] + b;
      OpenAfterAppend(a[1..], b, Step(a[0], o));
    }
  }

  /** The stream's contributions under any per-token rule `f`, the open elements kept as `Candidates` keeps them. */
  function Scan(ts: seq<Token>, o: Open, f: (Token, Open) -> seq<RawUrl>): seq<RawUrl>
  {
    if ts == [] then [] else f(ts[0], o) + Scan(ts[1..], Step(ts[0], o), f)
  }

  lemma {:induction false} ScanAppend(a: seq<Token>, b: seq<Token>, o: Open, f: (Token, Open) -> seq<RawUrl>)
    ensures Scan(a + b, o, f) == Scan(a, o, f) + Scan(b, OpenAfter(a, o), f)
    decreases |a|
  {
    if a == [] {
      assert a + b == b;
    } else {
      assert (a + b)[0] == a[0];
      assert (a + b)[1..] == a[1..] + b;
      ScanAppend(a[1..], b, Step(a[0], o), f);
    }
  }

  /** The candidates are the scan under `TokenUrls`. */
  lemma {:induction false} CandidatesScan(ts: seq<Token>, o: Open)
    ensures Candidates(ts, o) == Scan(ts, o, TokenUrls)
    decreases |ts|
  {
    if ts != [] {
      CandidatesScan(ts[1..], Step(ts[0], o));
    }
  }

  /** Candidates of a concatenation: the second part starts where the first left the open elements. */
  lemma CandidatesAppend(a: seq<Token>, b: seq<Token>, o: Open)
    ensures Candidates(a + b, o) == Candidates(a, o) + Candidates(b, OpenAfter(a, o))
    ensures OpenAfter(a + b, o) == OpenAfter(b, OpenAfter(a, o))
  {
    OpenAfterAppend(a, b, o);
    CandidatesScan(a + b, o);
    CandidatesScan(a, o);
    CandidatesScan(b, OpenAfter(a, o));
    ScanAppend(a, b, o, TokenUrls);
  }

  /** Selecting from a concatenation selects from each part. */
  lemma {:induction false} SelectAppend(a: seq<RawUrl>, b: seq<RawUrl>, enabled: set<Category>)
    ensures Select(a + b, enabled) == Select(a, enabled) + Select(b, enabled)
    decreases |a|
  {
    if a == [] {
      assert a + b == b;
    } else {
      assert (a + b)[0] == a[0];
      assert (a + b)[1..] == a[1..] + b;
      SelectAppend(a[1..], b, enabled);
    }
  }

  /** The stream without its text and comment tokens. */
  function Markup(ts: seq<Token>): (r: seq<Token>)
    ensures |r| <= |ts|
    ensures forall t :: t in r ==> t in ts && (t.StartTag? || t.EndTag?)
  {
    if ts == [] then []
    else if ts[0].Text? || ts[0].Comment? then Markup(ts[1..])
    else [ts[0]] + Markup(ts[1..])
  }

  /**
   * Text and comments contribute nothing: whatever a comment says, even a URL,
   * the candidates are those of the markup alone.
   */
  lemma {:induction false} TextAndCommentsIgnored(ts: seq<Token>, o: Open)
    ensures Candidates(Markup(ts), o) == Candidates(ts, o)
    ensures OpenAfter(Markup(ts), o) == OpenAfter(ts, o)
    decreases |ts|
  {
    if ts != [] {
      TextAndCommentsIgnored(ts[1..], Step(ts[0], o));
      if !(ts[0].Text? || ts[0].Comment?) {
        var m := [ts[0]] + Markup(ts[1..]);
        assert m[0] == ts[0] && m[1..] == Markup(ts[1..]);
      }
    }
  }

  /** The attributes of tag `name` that can hold a URL. */
  function UrlAttributes(name: string): set<string>
  {
    if name == "a" then {"href"}
    else if name == "object" then {"data", "codebase"}
    else if name == "param" then {"value"}
    else {"src"}
  }

  /** The tags whose attributes can yield a URL of category `c`. */
  function Carriers(c: Category): set<string>
  {
    match c
    case FromA => {"a"}
    case FromAudio => {"audio", "source"}
    case FromEmbed => {"embed"}
    case FromIframe => {"iframe"}
    case FromImg => {"img"}
    case FromObject => {"object", "param"}
    case FromVideo => {"video", "source"}
  }

  /** Token `t` is a start tag of a carrier of `c` with `u` as the value of one of its URL attributes. */
  predicate Carries(t: Token, c: Category, u: string)
  {
    t.StartTag? && t.name in Carriers(c) && exists k | k in UrlAttributes(t.name) :: k in t.attrs && t.attrs[k] == u
  }

  /** What one start tag yields is the value of one of its own URL attributes, in its own category. */
  lemma TagUrlsAttribution(name: string, attrs: map<string, string>, o: Open, r: RawUrl)
    requires r in TagUrls(name, attrs, o)
    ensures Carries(StartTag(name, attrs), r.category, r.url)
  {
    if name == "source" {
      SourceCategory(o);
    }
  }

  /** A `<source>` takes the category of a media element. */
  lemma {:induction false} SourceCategory(o: Open)
    ensures MediaCategory(o).Some? ==> MediaCategory(o).value in {FromAudio, FromVideo}
  {
    if o.Inside? {
      SourceCategory(o.outer);
    }
  }

  /** Every candidate is attributed to a start tag of the stream that carries it, never to comment text. */
  lemma {:induction false} CandidateAttribution(ts: seq<Token>, o: Open, r: RawUrl)
    requires r in Candidates(ts, o)
    ensures exists i | 0 <= i < |ts| :: Carries(ts[i], r.category, r.url)
    decreases |ts|
  {
    if r in TokenUrls(ts[0], o) {
      TagUrlsAttribution(ts[0].name, ts[0].attrs, o, r);
      assert Carries(ts[0], r.category, r.url);
    } else {
      CandidateAttribution(ts[1..], Step(ts[0], o), r);
      var i :| 0 <= i < |ts[1..]| && Carries(ts[1..][i], r.category, r.url);
      assert Carries(ts[i + 1], r.category, r.url);
    }
  }

  /** Tags whose URLs do not depend on the elements around them. */
  const ContextFree: set<string> := {"a", "audio", "embed", "iframe", "img", "object", "video"}

  /** Every URL of a context-free tag anywhere in the stream is a candidate. */
  lemma {:induction false} CandidatesComplete(ts: seq<Token>, o: Open, i: int, r: RawUrl)
    requires 0 <= i < |ts| && ts[i].StartTag? && ts[i].name in ContextFree
    requires r in TagUrls(ts[i].name, ts[i].attrs, Top)
    ensures r in Candidates(ts, o)
    decreases |ts|
  {
    if i > 0 {
      assert ts[1..][i - 1] == ts[i];
      CandidatesComplete(ts[1..], Step(ts[0], o), i - 1, r);
    }
  }

  /**
   * For the context-free categories the extractor finds exactly the URL
   * attribute values of the category's own tags.
   */
  lemma ExtractContextFree(ts: seq<Token>, c: Category, u: string)
    requires c in {FromA, FromEmbed, FromIframe, FromImg}
    ensures u in Extract(ts, {c}) <==> exists i | 0 <= i < |ts| :: ts[i].StartTag? && ts[i].name in Carriers(c) && RawUrl(c, u) in TagUrls(ts[i].name, ts[i].attrs, Top)
  {
    if u in Extract(ts, {c}) {
      var r := RawUrl(c, u);
      CandidateAttribution(ts, Top, r);
      var i :| 0 <= i < |ts| && Carries(ts[i], c, u);
      assert r in TagUrls(ts[i].name, ts[i].attrs, Top);
    }
    if exists i | 0 <= i < |ts| :: ts[i].StartTag? && ts[i].name in Carriers(c) && RawUrl(c, u) in TagUrls(ts[i].name, ts[i].attrs, Top) {
      var i :| 0 <= i < |ts| && ts[i].StartTag? && ts[i].name in Carriers(c) && RawUrl(c, u) in TagUrls(ts[i].name, ts[i].attrs, Top);
      CandidatesComplete(ts, Top, i, RawUrl(c, u));
    }
  }

  /** The candidates are the URLs each token yields inside the elements open before it. */
  lemma {:induction false} CandidatesAt(ts: seq<Token>, o: Open, r: RawUrl)
    ensures r in Candidates(ts, o) <==> exists i | 0 <= i < |ts| :: r in TokenUrls(ts[i], OpenAfter(ts[..i], o))
    decreases |ts|
  {
    if ts != [] {
      var o1 := Step(ts[0], o);
      CandidatesAt(ts[1..], o1, r);
      forall i | 1 <= i < |ts|
        ensures OpenAfter(ts[..i], o) == OpenAfter(ts[1..][..i - 1], o1)
        ensures ts[i] == ts[1..][i - 1]
      {
        assert ts[..i][0] == ts[0] && ts[..i][1..] == ts[1..][..i - 1];
      }
      assert OpenAfter(ts[..0], o) == o;
      if r in Candidates(ts, o) && r !in TokenUrls(ts[0], o) {
        var k :| 0 <= k < |ts[1..]| && r in TokenUrls(ts[1..][k], OpenAfter(ts[1..][..k], o1));
        assert r in TokenUrls(ts[k + 1], OpenAfter(ts[..k + 1], o));
      }
      if exists i | 0 <= i < |ts| :: r in TokenUrls(ts[i], OpenAfter(ts[..i], o)) {
        var i :| 0 <= i < |ts| && r in TokenUrls(ts[i], OpenAfter(ts[..i], o));
        if i > 0 {
          assert r in TokenUrls(ts[1..][i - 1], OpenAfter(ts[1..][..i - 1], o1));
        }
      }
    }
  }

  /** Every URL a start tag yields, inside the elements open before it, is a candidate. */
  lemma TagFound(ts: seq<Token>, i: int, r: RawUrl)
    requires 0 <= i < |ts| && ts[i].StartTag?
    requires r in TagUrls(ts[i].name, ts[i].attrs, OpenAfter(ts[..i], Top))
    ensures r in Candidates(ts, Top)
  {
    CandidatesAt(ts, Top, r);
  }

  /** A `<param>` with a URL-bearing name, inside an open `<object>`, yields its value as an object URL. */
  lemma ParamFound(ts: seq<Token>, i: int)
    requires 0 <= i < |ts| && ts[i].StartTag? && ts[i].name == "param"
    requires Within(OpenAfter(ts[..i], Top), "object")
    requires ParamCarriesUrl(ts[i].attrs) && "value" in ts[i].attrs
    ensures RawUrl(FromObject, ts[i].attrs["value"]) in Candidates(ts, Top)
  {
    TagFound(ts, i, RawUrl(FromObject, ts[i].attrs["value"]));
  }

  /** A `<source>` whose innermost open media element is a `<video>` yields its `src` as a video URL. */
  lemma VideoSourceFound(ts: seq<Token>, i: int)
    requires 0 <= i < |ts| && ts[i].StartTag? && ts[i].name == "source"
    requires MediaCategory(OpenAfter(ts[..i], Top)) == Some(FromVideo)
    requires "src" in ts[i].attrs
    ensures RawUrl(FromVideo, ts[i].attrs["src"]) in Candidates(ts, Top)
  {
    TagFound(ts, i, RawUrl(FromVideo, ts[i].attrs["src"]));
  }

  /** A `<source>` whose innermost open media element is an `<audio>` yields its `src` as an audio URL. */
  lemma AudioSourceFound(ts: seq<Token>, i: int)
    requires 0 <= i < |ts| && ts[i].StartTag? && ts[i].name == "source"
    requires MediaCategory(OpenAfter(ts[..i], Top)) == Some(FromAudio)
    requires "src" in ts[i].attrs
    ensures RawUrl(FromAudio, ts[i].attrs["src"]) in Candidates(ts, Top)
  {
    TagFound(ts, i, RawUrl(FromAudio, ts[i].attrs["src"]));
  }

  /** The innermost open `<video>` or `<audio>` decides the category of a `<source>`. */
  lemma {:induction false} MediaCategoryInnermost(o: Open, tag: string)
    requires tag in {"video", "audio"}
    ensures MediaCategory(Inside(tag, o)) == Some(if tag == "video" then FromVideo else FromAudio)
    ensures MediaCategory(o).Some? ==> Within(o, "video") || Within(o, "audio")
    decreases o
  {
    if o.Inside? {
      MediaCategoryInnermost(o.outer, tag);
    }
  }

  /**
   * For every category, including those whose tags depend on the elements
   * around them (object params, video and audio sources), a URL is extracted
   * exactly when some start tag yields it in that category, inside the
   * elements open before that tag.
   */
  lemma ExtractExact(ts: seq<Token>, c: Category, u: string)
    ensures u in Extract(ts, {c}) <==>
      exists i | 0 <= i < |ts| :: ts[i].StartTag? && RawUrl(c, u) in TagUrls(ts[i].name, ts[i].attrs, OpenAfter(ts[..i], Top))
  {
    CandidatesAt(ts, Top, RawUrl(c, u));
  }

  /**
   * With one category `c` enabled, the extractor returns exactly the URLs of
   * a duplicate-free list `cases` when the candidates of category `c` are
   * precisely those URLs.
   */
  lemma ExtractOneCategory(ts: seq<Token>, c: Category, found: seq<RawUrl>, cases: seq<string>)
    requires Candidates(ts, Top) == found
    requires forall r :: r in found && r.category == c ==> r.url in cases
    requires forall u :: u in cases ==> RawUrl(c, u) in found
    requires NoDup(cases)
    ensures forall u :: u in cases ==> u in Extract(ts, {c})
    ensures forall u :: u in Extract(ts, {c}) ==> u in cases
    ensures |Extract(ts, {c})| == |cases|
  {
    var r := Extract(ts, {c});
    assert forall u :: u in r ==> RawUrl(c, u) in found;
    SameElementsSameLength(r, cases);
  }

  /** Index of the first `-->` in `s`, or `|s|` when there is none. */
  function FindClose(s: string): (k: nat)
    ensures k <= |s|
    ensures k < |s| ==> OccursAt("-->", s, k)
    ensures forall i :: 0 <= i < k ==> !OccursAt("-->", s, i)
    decreases |s|
  {
    if |s| < 3 then |s|
    else if s[..3] == "-->" then 0
    else
      var k := FindClose(s[1..]);
      OccursAtTail("-->", s);
      assert s[0..3] == s[..3];
      1 + k
  }

  /**
   * The comment at the head of `s`: its content and the text after it.  A
   * comment opens with `<!--` and ends at the first `-->` after that; without
   * one there is no comment token.
   */
  function CommentBody(s: string): (r: Option<(string, string)>)
    ensures r.Some? ==> s == "<!--" + r.value.0 + "-->" + r.value.1 && !Occurs("-->", r.value.0)
  {
    if |s| < 4 || s[..4] != "<!--" then None
    else
      var body := s[4..];
      var k := FindClose(body);
      if k == |body| then None
      else
        NoCloseBefore(body, k);
        assert s == "<!--" + body[..k] + "-->" + body[k + 3..];
        Some((body[..k], body[k + 3..]))
  }

  /** A prefix of `s` shorter than the first `-->` holds no `-->`. */
  lemma NoCloseBefore(s: string, k: nat)
    requires k <= |s|
    requires forall i :: 0 <= i < k ==> !OccursAt("-->", s, i)
    ensures !Occurs("-->", s[..k])
  {
    if Occurs("-->", s[..k]) {
      var i :| 0 <= i <= k && OccursAt("-->", s[..k], i);
      assert s[i..i + 3] == s[..k][i..i + 3];
      assert OccursAt("-->", s, i);
    }
  }

  /** A comment ends at its own first `-->`, whatever follows. */
  lemma CommentEndsAtFirstClose(content: string, rest: string)
    requires !Occurs("-->", content)
    ensures CommentBody("<!--" + content + "-->" + rest) == Some((content, rest))
  {
    var s := "<!--" + content + "-->" + rest;
    var body := content + "-->" + rest;
    assert s[..4] == "<!--" && s[4..] == body;
    var n := |content|;
    assert body[n..n + 3] == "-->";
    forall i | 0 <= i < n
      ensures !OccursAt("-->", body, i)
    {
      if i + 3 <= n {
        assert !OccursAt("-->", content, i);
        assert content[i..i + 3] == body[i..i + 3];
      } else {
        assert body[i + 2] == "-->"[i + 2 - n];
        assert body[i..i + 3][2] == '-';
      }
    }
    assert OccursAt("-->", body, n);
    var k := FindClose(body);
    assert k == n;
    assert body[..n] == content && body[n + 3..] == rest;
  }

  /** The opening of Internet Explorer's downlevel-revealed conditional comment. */
  const IeRevealedOpen: string := "[if gte IE 7]> <!"

  /** The closing of Internet Explorer's downlevel-revealed conditional comment. */
  const IeRevealedClose: string := "<![endif]"

  /**
   * `<!--[if gte IE 7]> <!-->` and `<!--<![endif]-->` are comments of their
   * own: the markup between them is scanned as markup.
   */
  lemma ConditionalCommentsAreShort(rest: string)
    ensures CommentBody("<!--" + IeRevealedOpen + "-->" + rest) == Some((IeRevealedOpen, rest))
    ensures CommentBody("<!--" + IeRevealedClose + "-->" + rest) == Some((IeRevealedClose, rest))
  {
    MissingCharNoOccurrence("-->", IeRevealedOpen, '-');
    MissingCharNoOccurrence("-->", IeRevealedClose, '-');
    CommentEndsAtFirstClose(IeRevealedOpen, rest);
    CommentEndsAtFirstClose(IeRevealedClose, rest);
  }
}
