/*
 * The body of the extractor's kernel test (getTestBody, a page of links,
 * images, iframes, objects with params, videos with sources, HTML comments and
 * Internet Explorer conditional comments) as tokens, and the test's
 * expectations proved about it: with exactly one category enabled, the
 * extractor returns every URL the test table assigns to that category and as
 * many URLs as the table lists for it.
 *
 * The body is cut into blocks of at most two start tags and four tokens; each
 * block's candidates and the elements it leaves open are computed on its own
 * and the blocks are chained with CandidatesAppend.  The whitespace text
 * between tags is not listed: TextAndCommentsIgnored shows text contributes
 * nothing.
 */
module HtmlExtractorFixture {
  import opened Sequences
  import opened HtmlLinkExtractor

  const Block01: seq<Token> := [
    Comment(" UNSUPPORTED for link checking: "),
    StartTag("a", map["href" := "mailto:test@example.com"]),
    EndTag("a"),
    StartTag("a", map["href" := "javascript:foo()"])]

  const Block02: seq<Token> := [
    EndTag("a"),
    Comment(" SUPPORTED for link checking: "),
    Comment(" URL in HTML comment: http://example.com/test-if-url-filter-is-disabled "),
    Comment(" Relative URLs ")]

  const Block03: seq<Token> := [
    StartTag("img", map["src" := "test.png", "alt" := "Test image 1"]),
    StartTag("img", map["src" := "../foo1/test.png", "alt" := "Test image 2"])]

  const Block04: seq<Token> := [
    StartTag("a", map["href" := "../foo1/bar1"]),
    EndTag("a"),
    StartTag("a", map["href" := "./foo2/bar2"]),
    EndTag("a")]

  const Block05: seq<Token> := [
    StartTag("a", map["href" := "../foo3/../foo4/foo5"]),
    EndTag("a"),
    StartTag("a", map["href" := "./foo4/../foo5/foo6"]),
    EndTag("a")]

  const Block06: seq<Token> := [
    StartTag("a", map["href" := "./foo4/./foo5/foo6"]),
    EndTag("a"),
    StartTag("a", map["href" := "./test/foo bar/is_valid-hack.test"]),
    EndTag("a")]

  const Block07: seq<Token> := [
    Comment(" URL with uncommon chars that could potentially fail to extract. See http://drupal.org/node/465462. "),
    StartTag("a", map["href" := "http://www.lagrandeepicerie.fr/#e-boutique/Les_produits_du_moment,2/coffret_vins_doux_naturels,149"]),
    EndTag("a"),
    StartTag("a", map["href" := "http://example.com/foo bar/is_valid-hack.test"])]

  const Block08: seq<Token> := [
    EndTag("a"),
    StartTag("a", map["href" := "http://example.com/ajax.html#key1=value1&key2=value2"]),
    EndTag("a"),
    StartTag("a", map["href" := "http://example.com/test.html#test"])]

  const Block09: seq<Token> := [
    EndTag("a"),
    StartTag("a", map["href" := "http://example.com/test.html#test%20ABC"]),
    EndTag("a"),
    StartTag("a", map["name" := "test ABC"])]

  const Block10: seq<Token> := [
    EndTag("a"),
    Comment(" object tag: Embed SWF files "),
    StartTag("object", map["width" := "150", "height" := "116", "type" := "application/x-shockwave-flash", "data" := "http://wetterservice.msn.de/phclip.swf?zip=60329&ort=Frankfurt"]),
    StartTag("param", map["name" := "movie", "value" := "http://wetterservice.msn.de/phclip.swf?zip=60329&ort=Frankfurt"])]

  const Block11: seq<Token> := [
    StartTag("img", map["src" := "flash.png", "width" := "150", "height" := "116", "alt" := ""]),
    StartTag("br", map[])]

  const Block12: seq<Token> := [
    StartTag("a", map["href" := "http://www.msn.de/"]),
    EndTag("a"),
    StartTag("a", map["href" := "http://www.adobe.com/"]),
    EndTag("a")]

  const Block13: seq<Token> := [
    EndTag("object"),
    Comment(" object tag: Embed Quicktime Movies on HTML pages "),
    StartTag("object", map["width" := "420", "height" := "282", "classid" := "clsid:02BF25D5-8C17-4B23-BC80-D3488ABDDC6B", "codebase" := "http://www.apple.com/qtactivex/qtplugin.cab"]),
    StartTag("param", map["name" := "src", "value" := "http://example.net/video/foo1.mov"])]

  const Block14: seq<Token> := [
    StartTag("param", map["name" := "href", "value" := "http://example.net/video/foo2.mov"]),
    StartTag("param", map["name" := "controller", "value" := "true"])]

  const Block15: seq<Token> := [
    StartTag("param", map["name" := "autoplay", "value" := "false"]),
    StartTag("param", map["name" := "scale", "value" := "aspect"]),
    Comment("[if gte IE 7]> <!")]

  const Block16: seq<Token> := [
    StartTag("object", map["type" := "video/quicktime", "data" := "http://example.net/video/foo3.mov", "width" := "420", "height" := "282"]),
    StartTag("param", map["name" := "controller", "value" := "true"])]

  const Block17: seq<Token> := [
    StartTag("param", map["name" := "autoplay", "value" := "false"]),
    EndTag("object"),
    Comment("<![endif]"),
    EndTag("object")]

  const Block18: seq<Token> := [
    Comment(" object tag: Play MP4 videos on HTML pages "),
    StartTag("object", map["data" := "http://example.org/video/foo1.mp4", "type" := "video/mp4", "width" := "420", "height" := "288"]),
    StartTag("param", map["name" := "src", "value" := "http://example.org/video/foo2.mp4"])]

  const Block19: seq<Token> := [
    StartTag("param", map["name" := "autoplay", "value" := "false"]),
    StartTag("param", map["name" := "autoStart", "value" := "0"])]

  const Block20: seq<Token> := [
    StartTag("a", map["href" := "http://example.org/video/foo3.mp4"]),
    EndTag("a"),
    EndTag("object"),
    Comment(" object tag: Play MP4 videos with Quicktime ")]

  const Block21: seq<Token> := [
    StartTag("object", map["width" := "420", "height" := "282", "codebase" := "http://www.apple.com/qtactivex/qtplugin.cab"]),
    StartTag("param", map["name" := "src", "value" := "http://example.org/video/foo4.mp4"])]

  const Block22: seq<Token> := [
    StartTag("param", map["name" := "href", "value" := "http://example.org/video/foo5.mp4"]),
    StartTag("param", map["name" := "controller", "value" := "true"])]

  const Block23: seq<Token> := [
    StartTag("param", map["name" := "autoplay", "value" := "false"]),
    StartTag("param", map["name" := "scale", "value" := "aspect"]),
    Comment("[if gte IE 7]> <!")]

  const Block24: seq<Token> := [
    StartTag("object", map["type" := "video/quicktime", "data" := "http://example.org/video/foo6.mp4", "width" := "420", "height" := "282"]),
    StartTag("param", map["name" := "controller", "value" := "true"])]

  const Block25: seq<Token> := [
    StartTag("param", map["name" := "autoplay", "value" := "false"]),
    EndTag("object"),
    Comment("<![endif]"),
    EndTag("object")]

  const Block26: seq<Token> := [
    Comment(" object tag: Play flash videos on HTML pages "),
    StartTag("object", map["type" := "application/x-shockwave-flash", "data" := "http://example.org/video/player1.swf", "width" := "420", "height" := "270"]),
    StartTag("param", map["name" := "movie", "value" := "http://example.org/video/player2.swf"])]

  const Block27: seq<Token> := [
    StartTag("param", map["src" := "movie", "value" := "http://example.org/video/player3.swf"]),
    StartTag("param", map["name" := "flashvars", "value" := "file=http://example.org/video/foo1.flv&width=420&height=270"]),
    EndTag("object"),
    Comment(" Embed ActiveX control as objekt ")]

  const Block28: seq<Token> := [
    StartTag("object", map["width" := "267", "height" := "175", "classid" := "CLSID:05589FA1-C356-11CE-BF01-00AA0055595A"]),
    StartTag("param", map["name" := "filename", "value" := "ritmo.mid"]),
    EndTag("object"),
    Comment(" Add inline frames ")]

  const Block29: seq<Token> := [
    StartTag("iframe", map["src" := "http://example.com/iframe/", "name" := "ExampleIFrame", "width" := "300", "height" := "200"]),
    StartTag("p", map[]),
    EndTag("p"),
    EndTag("iframe")]

  const Block30: seq<Token> := [
    Comment(" https://developer.mozilla.org/en/Using_audio_and_video_in_Firefox "),
    Comment(" http://www.theora.org/cortado/ "),
    StartTag("video", map["src" := "my_ogg_video.ogg", "controls" := "", "width" := "320", "height" := "240"]),
    StartTag("object", map["type" := "application/x-java-applet", "width" := "320", "height" := "240"])]

  const Block31: seq<Token> := [
    StartTag("param", map["name" := "archive", "value" := "http://www.theora.org/cortado.jar"]),
    StartTag("param", map["name" := "code", "value" := "com.fluendo.player.Cortado.class"])]

  const Block32: seq<Token> := [
    StartTag("param", map["name" := "url", "value" := "my_ogg_video2.ogg"]),
    StartTag("p", map[]),
    EndTag("p"),
    EndTag("object")]

  const Block33: seq<Token> := [
    EndTag("video"),
    StartTag("video", map["src" := "video.ogv", "controls" := ""]),
    StartTag("object", map["data" := "flvplayer1.swf", "type" := "application/x-shockwave-flash"])]

  const Block34: seq<Token> := [
    StartTag("param", map["name" := "movie", "value" := "flvplayer2.swf"]),
    EndTag("object"),
    EndTag("video"),
    StartTag("video", map["controls" := ""])]

  const Block35: seq<Token> := [
    StartTag("source", map["src" := "http://v2v.cc/~j/theora_testsuite/pixel_aspect_ratio.ogg", "type" := "video/ogg"]),
    StartTag("source", map["src" := "http://v2v.cc/~j/theora_testsuite/pixel_aspect_ratio.mov"])]

  const Block36: seq<Token> := [
    StartTag("code", map[]),
    EndTag("code"),
    EndTag("video"),
    StartTag("video", map["controls" := ""])]

  const Block37: seq<Token> := [
    StartTag("source", map["src" := "foo.ogg", "type" := "video/ogg; codecs=\"dirac, speex\""]),
    StartTag("code", map[]),
    EndTag("code"),
    EndTag("video")]

  const Block38: seq<Token> := [
    StartTag("video", map["src" := "http://v2v.cc/~j/theora_testsuite/320x240.ogg", "controls" := ""]),
    StartTag("code", map[]),
    EndTag("code"),
    EndTag("video")]

  const Prefix01: seq<Token> := Block01
  const Prefix02: seq<Token> := Prefix01 + Block02
  const Prefix03: seq<Token> := Prefix02 + Block03
  const Prefix04: seq<Token> := Prefix03 + Block04
  const Prefix05: seq<Token> := Prefix04 + Block05
  const Prefix06: seq<Token> := Prefix05 + Block06
  const Prefix07: seq<Token> := Prefix06 + Block07
  const Prefix08: seq<Token> := Prefix07 + Block08
  const Prefix09: seq<Token> := Prefix08 + Block09
  const Prefix10: seq<Token> := Prefix09 + Block10
  const Prefix11: seq<Token> := Prefix10 + Block11
  const Prefix12: seq<Token> := Prefix11 + Block12
  const Prefix13: seq<Token> := Prefix12 + Block13
  const Prefix14: seq<Token> := Prefix13 + Block14
  const Prefix15: seq<Token> := Prefix14 + Block15
  const Prefix16: seq<Token> := Prefix15 + Block16
  const Prefix17: seq<Token> := Prefix16 + Block17
  const Prefix18: seq<Token> := Prefix17 + Block18
  const Prefix19: seq<Token> := Prefix18 + Block19
  const Prefix20: seq<Token> := Prefix19 + Block20
  const Prefix21: seq<Token> := Prefix20 + Block21
  const Prefix22: seq<Token> := Prefix21 + Block22
  const Prefix23: seq<Token> := Prefix22 + Block23
  const Prefix24: seq<Token> := Prefix23 + Block24
  const Prefix25: seq<Token> := Prefix24 + Block25
  const Prefix26: seq<Token> := Prefix25 + Block26
  const Prefix27: seq<Token> := Prefix26 + Block27
  const Prefix28: seq<Token> := Prefix27 + Block28
  const Prefix29: seq<Token> := Prefix28 + Block29
  const Prefix30: seq<Token> := Prefix29 + Block30
  const Prefix31: seq<Token> := Prefix30 + Block31
  const Prefix32: seq<Token> := Prefix31 + Block32
  const Prefix33: seq<Token> := Prefix32 + Block33
  const Prefix34: seq<Token> := Prefix33 + Block34
  const Prefix35: seq<Token> := Prefix34 + Block35
  const Prefix36: seq<Token> := Prefix35 + Block36
  const Prefix37: seq<Token> := Prefix36 + Block37
  const Prefix38: seq<Token> := Prefix37 + Block38

  /** The test body, in document order. */
  const TestBody: seq<Token> := Prefix38

  /** The URL candidates of each block, and of the body up to each block. */
  const Found01: seq<RawUrl> := [RawUrl(FromA, "mailto:test@example.com"), RawUrl(FromA, "javascript:foo()")]
  const Found02: seq<RawUrl> := []
  const Found03: seq<RawUrl> := [RawUrl(FromImg, "test.png"), RawUrl(FromImg, "../foo1/test.png")]
  const Found04: seq<RawUrl> := [RawUrl(FromA, "../foo1/bar1"), RawUrl(FromA, "./foo2/bar2")]
  const Found05: seq<RawUrl> := [RawUrl(FromA, "../foo3/../foo4/foo5"), RawUrl(FromA, "./foo4/../foo5/foo6")]
  const Found06: seq<RawUrl> := [RawUrl(FromA, "./foo4/./foo5/foo6"), RawUrl(FromA, "./test/foo bar/is_valid-hack.test")]
  const Found07: seq<RawUrl> := [RawUrl(FromA, "http://www.lagrandeepicerie.fr/#e-boutique/Les_produits_du_moment,2/coffret_vins_doux_naturels,149"), RawUrl(FromA, "http://example.com/foo bar/is_valid-hack.test")]
  const Found08: seq<RawUrl> := [RawUrl(FromA, "http://example.com/ajax.html#key1=value1&key2=value2"), RawUrl(FromA, "http://example.com/test.html#test")]
  const Found09: seq<RawUrl> := [RawUrl(FromA, "http://example.com/test.html#test%20ABC")]
  const Found10: seq<RawUrl> := [RawUrl(FromObject, "http://wetterservice.msn.de/phclip.swf?zip=60329&ort=Frankfurt"), RawUrl(FromObject, "http://wetterservice.msn.de/phclip.swf?zip=60329&ort=Frankfurt")]
  const Found11: seq<RawUrl> := [RawUrl(FromImg, "flash.png")]
  const Found12: seq<RawUrl> := [RawUrl(FromA, "http://www.msn.de/"), RawUrl(FromA, "http://www.adobe.com/")]
  const Found13: seq<RawUrl> := [RawUrl(FromObject, "http://www.apple.com/qtactivex/qtplugin.cab"), RawUrl(FromObject, "http://example.net/video/foo1.mov")]
  const Found14: seq<RawUrl> := [RawUrl(FromObject, "http://example.net/video/foo2.mov")]
  const Found15: seq<RawUrl> := []
  const Found16: seq<RawUrl> := [RawUrl(FromObject, "http://example.net/video/foo3.mov")]
  const Found17: seq<RawUrl> := []
  const Found18: seq<RawUrl> := [RawUrl(FromObject, "http://example.org/video/foo1.mp4"), RawUrl(FromObject, "http://example.org/video/foo2.mp4")]
  const Found19: seq<RawUrl> := []
  const Found20: seq<RawUrl> := [RawUrl(FromA, "http://example.org/video/foo3.mp4")]
  const Found21: seq<RawUrl> := [RawUrl(FromObject, "http://www.apple.com/qtactivex/qtplugin.cab"), RawUrl(FromObject, "http://example.org/video/foo4.mp4")]
  const Found22: seq<RawUrl> := [RawUrl(FromObject, "http://example.org/video/foo5.mp4")]
  const Found23: seq<RawUrl> := []
  const Found24: seq<RawUrl> := [RawUrl(FromObject, "http://example.org/video/foo6.mp4")]
  const Found25: seq<RawUrl> := []
  const Found26: seq<RawUrl> := [RawUrl(FromObject, "http://example.org/video/player1.swf"), RawUrl(FromObject, "http://example.org/video/player2.swf")]
  const Found27: seq<RawUrl> := [RawUrl(FromObject, "http://example.org/video/player3.swf")]
  const Found28: seq<RawUrl> := [RawUrl(FromObject, "ritmo.mid")]
  const Found29: seq<RawUrl> := [RawUrl(FromIframe, "http://example.com/iframe/")]
  const Found30: seq<RawUrl> := [RawUrl(FromVideo, "my_ogg_video.ogg")]
  const Found31: seq<RawUrl> := [RawUrl(FromObject, "http://www.theora.org/cortado.jar")]
  const Found32: seq<RawUrl> := [RawUrl(FromObject, "my_ogg_video2.ogg")]
  const Found33: seq<RawUrl> := [RawUrl(FromVideo, "video.ogv"), RawUrl(FromObject, "flvplayer1.swf")]
  const Found34: seq<RawUrl> := [RawUrl(FromObject, "flvplayer2.swf")]
  const Found35: seq<RawUrl> := [RawUrl(FromVideo, "http://v2v.cc/~j/theora_testsuite/pixel_aspect_ratio.ogg"), RawUrl(FromVideo, "http://v2v.cc/~j/theora_testsuite/pixel_aspect_ratio.mov")]
  const Found36: seq<RawUrl> := []
  const Found37: seq<RawUrl> := [RawUrl(FromVideo, "foo.ogg")]
  const Found38: seq<RawUrl> := [RawUrl(FromVideo, "http://v2v.cc/~j/theora_testsuite/320x240.ogg")]
  const FoundUpTo01: seq<RawUrl> := Found01
  const FoundUpTo02: seq<RawUrl> := FoundUpTo01 + Found02
  const FoundUpTo03: seq<RawUrl> := FoundUpTo02 + Found03
  const FoundUpTo04: seq<RawUrl> := FoundUpTo03 + Found04
  const FoundUpTo05: seq<RawUrl> := FoundUpTo04 + Found05
  const FoundUpTo06: seq<RawUrl> := FoundUpTo05 + Found06
  const FoundUpTo07: seq<RawUrl> := FoundUpTo06 + Found07
  const FoundUpTo08: seq<RawUrl> := FoundUpTo07 + Found08
  const FoundUpTo09: seq<RawUrl> := FoundUpTo08 + Found09
  const FoundUpTo10: seq<RawUrl> := FoundUpTo09 + Found10
  const FoundUpTo11: seq<RawUrl> := FoundUpTo10 + Found11
  const FoundUpTo12: seq<RawUrl> := FoundUpTo11 + Found12
  const FoundUpTo13: seq<RawUrl> := FoundUpTo12 + Found13
  const FoundUpTo14: seq<RawUrl> := FoundUpTo13 + Found14
  const FoundUpTo15: seq<RawUrl> := FoundUpTo14 + Found15
  const FoundUpTo16: seq<RawUrl> := FoundUpTo15 + Found16
  const FoundUpTo17: seq<RawUrl> := FoundUpTo16 + Found17
  const FoundUpTo18: seq<RawUrl> := FoundUpTo17 + Found18
  const FoundUpTo19: seq<RawUrl> := FoundUpTo18 + Found19
  const FoundUpTo20: seq<RawUrl> := FoundUpTo19 + Found20
  const FoundUpTo21: seq<RawUrl> := FoundUpTo20 + Found21
  const FoundUpTo22: seq<RawUrl> := FoundUpTo21 + Found22
  const FoundUpTo23: seq<RawUrl> := FoundUpTo22 + Found23
  const FoundUpTo24: seq<RawUrl> := FoundUpTo23 + Found24
  const FoundUpTo25: seq<RawUrl> := FoundUpTo24 + Found25
  const FoundUpTo26: seq<RawUrl> := FoundUpTo25 + Found26
  const FoundUpTo27: seq<RawUrl> := FoundUpTo26 + Found27
  const FoundUpTo28: seq<RawUrl> := FoundUpTo27 + Found28
  const FoundUpTo29: seq<RawUrl> := FoundUpTo28 + Found29
  const FoundUpTo30: seq<RawUrl> := FoundUpTo29 + Found30
  const FoundUpTo31: seq<RawUrl> := FoundUpTo30 + Found31
  const FoundUpTo32: seq<RawUrl> := FoundUpTo31 + Found32
  const FoundUpTo33: seq<RawUrl> := FoundUpTo32 + Found33
  const FoundUpTo34: seq<RawUrl> := FoundUpTo33 + Found34
  const FoundUpTo35: seq<RawUrl> := FoundUpTo34 + Found35
  const FoundUpTo36: seq<RawUrl> := FoundUpTo35 + Found36
  const FoundUpTo37: seq<RawUrl> := FoundUpTo36 + Found37
  const FoundUpTo38: seq<RawUrl> := FoundUpTo37 + Found38

  /* The URLs the test table (getTestUrlList) assigns to each category, in the table's order. */
  const CasesFromAFirst: seq<string> := ["http://www.lagrandeepicerie.fr/#e-boutique/Les_produits_du_moment,2/coffret_vins_doux_naturels,149", "http://www.msn.de/", "http://www.adobe.com/", "http://example.org/video/foo3.mp4", "http://example.com/foo bar/is_valid-hack.test", "http://example.com/ajax.html#key1=value1&key2=value2", "http://example.com/test.html#test", "http://example.com/test.html#test%20ABC"]

  const CasesFromASecond: seq<string> := ["../foo1/bar1", "./foo2/bar2", "../foo3/../foo4/foo5", "./foo4/../foo5/foo6", "./foo4/./foo5/foo6", "./test/foo bar/is_valid-hack.test", "mailto:test@example.com", "javascript:foo()"]

  const CasesFromA: seq<string> := CasesFromAFirst + CasesFromASecond

  const CasesFromAudio: seq<string> := []

  const CasesFromEmbed: seq<string> := []

  const CasesFromIframe: seq<string> := ["http://example.com/iframe/"]

  const CasesFromImg: seq<string> := ["../foo1/test.png", "test.png", "flash.png"]

  const CasesFromObjectFirst: seq<string> := ["http://wetterservice.msn.de/phclip.swf?zip=60329&ort=Frankfurt", "http://www.apple.com/qtactivex/qtplugin.cab", "http://example.net/video/foo1.mov", "http://example.net/video/foo2.mov", "http://example.net/video/foo3.mov", "http://example.org/video/foo1.mp4", "http://example.org/video/foo2.mp4", "http://example.org/video/foo4.mp4", "http://example.org/video/foo5.mp4"]

  const CasesFromObjectSecond: seq<string> := ["http://example.org/video/foo6.mp4", "http://example.org/video/player1.swf", "http://example.org/video/player2.swf", "http://example.org/video/player3.swf", "http://www.theora.org/cortado.jar", "ritmo.mid", "my_ogg_video2.ogg", "flvplayer1.swf", "flvplayer2.swf"]

  const CasesFromObject: seq<string> := CasesFromObjectFirst + CasesFromObjectSecond

  const CasesFromVideo: seq<string> := ["http://v2v.cc/~j/theora_testsuite/pixel_aspect_ratio.ogg", "http://v2v.cc/~j/theora_testsuite/pixel_aspect_ratio.mov", "http://v2v.cc/~j/theora_testsuite/320x240.ogg", "my_ogg_video.ogg", "video.ogv", "foo.ogg"]

  /** The test cases of one category: the table filtered by that category, as the test does. */
  function TestCases(c: Category): seq<string>
  {
    match c
    case FromA => CasesFromA
    case FromAudio => CasesFromAudio
    case FromEmbed => CasesFromEmbed
    case FromIframe => CasesFromIframe
    case FromImg => CasesFromImg
    case FromObject => CasesFromObject
    case FromVideo => CasesFromVideo
  }

  /** The table lists `r` under its own category. */
  predicate Listed(r: RawUrl)
  {
    r.url in TestCases(r.category)
  }

  lemma Block01Candidates()
    ensures Candidates(Block01, Top) == Found01
  {
  }

  lemma Block01OpenAfter()
    ensures OpenAfter(Block01, Top) == Inside("a", Top)
  {
  }

  lemma Block02Candidates()
    ensures Candidates(Block02, Inside("a", Top)) == Found02
  {
  }

  lemma Block02OpenAfter()
    ensures OpenAfter(Block02, Inside("a", Top)) == Top
  {
  }

  lemma Block03Candidates()
    ensures Candidates(Block03, Top) == Found03
  {
  }

  lemma Block03OpenAfter()
    ensures OpenAfter(Block03, Top) == Top
  {
  }

  lemma Block04Candidates()
    ensures Candidates(Block04, Top) == Found04
  {
  }

  lemma Block04OpenAfter()
    ensures OpenAfter(Block04, Top) == Top
  {
  }

  lemma Block05Candidates()
    ensures Candidates(Block05, Top) == Found05
  {
  }

  lemma Block05OpenAfter()
    ensures OpenAfter(Block05, Top) == Top
  {
  }

  lemma Block06Candidates()
    ensures Candidates(Block06, Top) == Found06
  {
  }

  lemma Block06OpenAfter()
    ensures OpenAfter(Block06, Top) == Top
  {
  }

  lemma Block07Candidates()
    ensures Candidates(Block07, Top) == Found07
  {
  }

  lemma Block07OpenAfter()
    ensures OpenAfter(Block07, Top) == Inside("a", Top)
  {
  }

  lemma Block08Candidates()
    ensures Candidates(Block08, Inside("a", Top)) == Found08
  {
  }

  lemma Block08OpenAfter()
    ensures OpenAfter(Block08, Inside("a", Top)) == Inside("a", Top)
  {
  }

  lemma Block09Candidates()
    ensures Candidates(Block09, Inside("a", Top)) == Found09
  {
  }

  lemma Block09OpenAfter()
    ensures OpenAfter(Block09, Inside("a", Top)) == Inside("a", Top)
  {
  }

  lemma Block10Candidates()
    ensures Candidates(Block10, Inside("a", Top)) == Found10
  {
  }

  lemma Block10OpenAfter()
    ensures OpenAfter(Block10, Inside("a", Top)) == Inside("object", Top)
  {
  }

  lemma Block11Candidates()
    ensures Candidates(Block11, Inside("object", Top)) == Found11
  {
  }

  lemma Block11OpenAfter()
    ensures OpenAfter(Block11, Inside("object", Top)) == Inside("object", Top)
  {
  }

  lemma Block12Candidates()
    ensures Candidates(Block12, Inside("object", Top)) == Found12
  {
  }

  lemma Block12OpenAfter()
    ensures OpenAfter(Block12, Inside("object", Top)) == Inside("object", Top)
  {
  }

  lemma Block13Candidates()
    ensures Candidates(Block13, Inside("object", Top)) == Found13
  {
  }

  lemma Block13OpenAfter()
    ensures OpenAfter(Block13, Inside("object", Top)) == Inside("object", Top)
  {
  }

  lemma Block14Candidates()
    ensures Candidates(Block14, Inside("object", Top)) == Found14
  {
  }

  lemma Block14OpenAfter()
    ensures OpenAfter(Block14, Inside("object", Top)) == Inside("object", Top)
  {
  }

  lemma Block15Candidates()
    ensures Candidates(Block15, Inside("object", Top)) == Found15
  {
  }

  lemma Block15OpenAfter()
    ensures OpenAfter(Block15, Inside("object", Top)) == Inside("object", Top)
  {
  }

  lemma Block16Candidates()
    ensures Candidates(Block16, Inside("object", Top)) == Found16
  {
  }

  lemma Block16OpenAfter()
    ensures OpenAfter(Block16, Inside("object", Top)) == Inside("object", Inside("object", Top))
  {
  }

  lemma Block17Candidates()
    ensures Candidates(Block17, Inside("object", Inside("object", Top))) == Found17
  {
  }

  lemma Block17OpenAfter()
    ensures OpenAfter(Block17, Inside("object", Inside("object", Top))) == Top
  {
  }

  lemma Block18Candidates()
    ensures Candidates(Block18, Top) == Found18
  {
  }

  lemma Block18OpenAfter()
    ensures OpenAfter(Block18, Top) == Inside("object", Top)
  {
  }

  lemma Block19Candidates()
    ensures Candidates(Block19, Inside("object", Top)) == Found19
  {
  }

  lemma Block19OpenAfter()
    ensures OpenAfter(Block19, Inside("object", Top)) == Inside("object", Top)
  {
  }

  lemma Block20Candidates()
    ensures Candidates(Block20, Inside("object", Top)) == Found20
  {
  }

  lemma Block20OpenAfter()
    ensures OpenAfter(Block20, Inside("object", Top)) == Top
  {
  }

  lemma Block21Candidates()
    ensures Candidates(Block21, Top) == Found21
  {
  }

  lemma Block21OpenAfter()
    ensures OpenAfter(Block21, Top) == Inside("object", Top)
  {
  }

  lemma Block22Candidates()
    ensures Candidates(Block22, Inside("object", Top)) == Found22
  {
  }

  lemma Block22OpenAfter()
    ensures OpenAfter(Block22, Inside("object", Top)) == Inside("object", Top)
  {
  }

  lemma Block23Candidates()
    ensures Candidates(Block23, Inside("object", Top)) == Found23
  {
  }

  lemma Block23OpenAfter()
    ensures OpenAfter(Block23, Inside("object", Top)) == Inside("object", Top)
  {
  }

  lemma Block24Candidates()
    ensures Candidates(Block24, Inside("object", Top)) == Found24
  {
  }

  lemma Block24OpenAfter()
    ensures OpenAfter(Block24, Inside("object", Top)) == Inside("object", Inside("object", Top))
  {
  }

  lemma Block25Candidates()
    ensures Candidates(Block25, Inside("object", Inside("object", Top))) == Found25
  {
  }

  lemma Block25OpenAfter()
    ensures OpenAfter(Block25, Inside("object", Inside("object", Top))) == Top
  {
  }

  lemma Block26Candidates()
    ensures Candidates(Block26, Top) == Found26
  {
  }

  lemma Block26OpenAfter()
    ensures OpenAfter(Block26, Top) == Inside("object", Top)
  {
  }

  lemma Block27Candidates()
    ensures Candidates(Block27, Inside("object", Top)) == Found27
  {
  }

  lemma Block27OpenAfter()
    ensures OpenAfter(Block27, Inside("object", Top)) == Top
  {
  }

  lemma Block28Candidates()
    ensures Candidates(Block28, Top) == Found28
  {
  }

  lemma Block28OpenAfter()
    ensures OpenAfter(Block28, Top) == Top
  {
  }

  lemma Block29Candidates()
    ensures Candidates(Block29, Top) == Found29
  {
  }

  lemma Block29OpenAfter()
    ensures OpenAfter(Block29, Top) == Top
  {
  }

  lemma Block30Candidates()
    ensures Candidates(Block30, Top) == Found30
  {
  }

  lemma Block30OpenAfter()
    ensures OpenAfter(Block30, Top) == Inside("object", Inside("video", Top))
  {
  }

  lemma Block31Candidates()
    ensures Candidates(Block31, Inside("object", Inside("video", Top))) == Found31
  {
  }

  lemma Block31OpenAfter()
    ensures OpenAfter(Block31, Inside("object", Inside("video", Top))) == Inside("object", Inside("video", Top))
  {
  }

  lemma Block32Candidates()
    ensures Candidates(Block32, Inside("object", Inside("video", Top))) == Found32
  {
  }

  lemma Block32OpenAfter()
    ensures OpenAfter(Block32, Inside("object", Inside("video", Top))) == Inside("video", Top)
  {
  }

  lemma Block33Candidates()
    ensures Candidates(Block33, Inside("video", Top)) == Found33
  {
  }

  lemma Block33OpenAfter()
    ensures OpenAfter(Block33, Inside("video", Top)) == Inside("object", Inside("video", Top))
  {
  }

  lemma Block34Candidates()
    ensures Candidates(Block34, Inside("object", Inside("video", Top))) == Found34
  {
  }

  lemma Block34OpenAfter()
    ensures OpenAfter(Block34, Inside("object", Inside("video", Top))) == Inside("video", Top)
  {
  }

  lemma Block35Candidates()
    ensures Candidates(Block35, Inside("video", Top)) == Found35
  {
  }

  lemma Block35OpenAfter()
    ensures OpenAfter(Block35, Inside("video", Top)) == Inside("video", Top)
  {
  }

  lemma Block36Candidates()
    ensures Candidates(Block36, Inside("video", Top)) == Found36
  {
  }

  lemma Block36OpenAfter()
    ensures OpenAfter(Block36, Inside("video", Top)) == Inside("video", Top)
  {
  }

  lemma Block37Candidates()
    ensures Candidates(Block37, Inside("video", Top)) == Found37
  {
  }

  lemma Block37OpenAfter()
    ensures OpenAfter(Block37, Inside("video", Top)) == Top
  {
  }

  lemma Block38Candidates()
    ensures Candidates(Block38, Top) == Found38
  {
  }

  lemma Block38OpenAfter()
    ensures OpenAfter(Block38, Top) == Top
  {
  }

  lemma Prefix01Scan()
    ensures Candidates(Prefix01, Top) == FoundUpTo01
    ensures OpenAfter(Prefix01, Top) == Inside("a", Top)
  {
    Block01Candidates();
    Block01OpenAfter();
  }

  lemma Prefix02Scan()
    ensures Candidates(Prefix02, Top) == FoundUpTo02
    ensures OpenAfter(Prefix02, Top) == Top
  {
    Prefix01Scan();
    Block02Candidates();
    Block02OpenAfter();
    CandidatesAppend(Prefix01, Block02, Top);
  }

  lemma Prefix03Scan()
    ensures Candidates(Prefix03, Top) == FoundUpTo03
    ensures OpenAfter(Prefix03, Top) == Top
  {
    Prefix02Scan();
    Block03Candidates();
    Block03OpenAfter();
    CandidatesAppend(Prefix02, Block03, Top);
  }

  lemma Prefix04Scan()
    ensures Candidates(Prefix04, Top) == FoundUpTo04
    ensures OpenAfter(Prefix04, Top) == Top
  {
    Prefix03Scan();
    Block04Candidates();
    Block04OpenAfter();
    CandidatesAppend(Prefix03, Block04, Top);
  }

  lemma Prefix05Scan()
    ensures Candidates(Prefix05, Top) == FoundUpTo05
    ensures OpenAfter(Prefix05, Top) == Top
  {
    Prefix04Scan();
    Block05Candidates();
    Block05OpenAfter();
    CandidatesAppend(Prefix04, Block05, Top);
  }

  lemma Prefix06Scan()
    ensures Candidates(Prefix06, Top) == FoundUpTo06
    ensures OpenAfter(Prefix06, Top) == Top
  {
    Prefix05Scan();
    Block06Candidates();
    Block06OpenAfter();
    CandidatesAppend(Prefix05, Block06, Top);
  }

  lemma Prefix07Scan()
    ensures Candidates(Prefix07, Top) == FoundUpTo07
    ensures OpenAfter(Prefix07, Top) == Inside("a", Top)
  {
    Prefix06Scan();
    Block07Candidates();
    Block07OpenAfter();
    CandidatesAppend(Prefix06, Block07, Top);
  }

  lemma Prefix08Scan()
    ensures Candidates(Prefix08, Top) == FoundUpTo08
    ensures OpenAfter(Prefix08, Top) == Inside("a", Top)
  {
    Prefix07Scan();
    Block08Candidates();
    Block08OpenAfter();
    CandidatesAppend(Prefix07, Block08, Top);
  }

  lemma Prefix09Scan()
    ensures Candidates(Prefix09, Top) == FoundUpTo09
    ensures OpenAfter(Prefix09, Top) == Inside("a", Top)
  {
    Prefix08Scan();
    Block09Candidates();
    Block09OpenAfter();
    CandidatesAppend(Prefix08, Block09, Top);
  }

  lemma Prefix10Scan()
    ensures Candidates(Prefix10, Top) == FoundUpTo10
    ensures OpenAfter(Prefix10, Top) == Inside("object", Top)
  {
    Prefix09Scan();
    Block10Candidates();
    Block10OpenAfter();
    CandidatesAppend(Prefix09, Block10, Top);
  }

  lemma Prefix11Scan()
    ensures Candidates(Prefix11, Top) == FoundUpTo11
    ensures OpenAfter(Prefix11, Top) == Inside("object", Top)
  {
    Prefix10Scan();
    Block11Candidates();
    Block11OpenAfter();
    CandidatesAppend(Prefix10, Block11, Top);
  }

  lemma Prefix12Scan()
    ensures Candidates(Prefix12, Top) == FoundUpTo12
    ensures OpenAfter(Prefix12, Top) == Inside("object", Top)
  {
    Prefix11Scan();
    Block12Candidates();
    Block12OpenAfter();
    CandidatesAppend(Prefix11, Block12, Top);
  }

  lemma Prefix13Scan()
    ensures Candidates(Prefix13, Top) == FoundUpTo13
    ensures OpenAfter(Prefix13, Top) == Inside("object", Top)
  {
    Prefix12Scan();
    Block13Candidates();
    Block13OpenAfter();
    CandidatesAppend(Prefix12, Block13, Top);
  }

  lemma Prefix14Scan()
    ensures Candidates(Prefix14, Top) == FoundUpTo14
    ensures OpenAfter(Prefix14, Top) == Inside("object", Top)
  {
    Prefix13Scan();
    Block14Candidates();
    Block14OpenAfter();
    CandidatesAppend(Prefix13, Block14, Top);
  }

  lemma Prefix15Scan()
    ensures Candidates(Prefix15, Top) == FoundUpTo15
    ensures OpenAfter(Prefix15, Top) == Inside("object", Top)
  {
    Prefix14Scan();
    Block15Candidates();
    Block15OpenAfter();
    CandidatesAppend(Prefix14, Block15, Top);
  }

  lemma Prefix16Scan()
    ensures Candidates(Prefix16, Top) == FoundUpTo16
    ensures OpenAfter(Prefix16, Top) == Inside("object", Inside("object", Top))
  {
    Prefix15Scan();
    Block16Candidates();
    Block16OpenAfter();
    CandidatesAppend(Prefix15, Block16, Top);
  }

  lemma Prefix17Scan()
    ensures Candidates(Prefix17, Top) == FoundUpTo17
    ensures OpenAfter(Prefix17, Top) == Top
  {
    Prefix16Scan();
    Block17Candidates();
    Block17OpenAfter();
    CandidatesAppend(Prefix16, Block17, Top);
  }

  lemma Prefix18Scan()
    ensures Candidates(Prefix18, Top) == FoundUpTo18
    ensures OpenAfter(Prefix18, Top) == Inside("object", Top)
  {
    Prefix17Scan();
    Block18Candidates();
    Block18OpenAfter();
    CandidatesAppend(Prefix17, Block18, Top);
  }

  lemma Prefix19Scan()
    ensures Candidates(Prefix19, Top) == FoundUpTo19
    ensures OpenAfter(Prefix19, Top) == Inside("object", Top)
  {
    Prefix18Scan();
    Block19Candidates();
    Block19OpenAfter();
    CandidatesAppend(Prefix18, Block19, Top);
  }

  lemma Prefix20Scan()
    ensures Candidates(Prefix20, Top) == FoundUpTo20
    ensures OpenAfter(Prefix20, Top) == Top
  {
    Prefix19Scan();
    Block20Candidates();
    Block20OpenAfter();
    CandidatesAppend(Prefix19, Block20, Top);
  }

  lemma Prefix21Scan()
    ensures Candidates(Prefix21, Top) == FoundUpTo21
    ensures OpenAfter(Prefix21, Top) == Inside("object", Top)
  {
    Prefix20Scan();
    Block21Candidates();
    Block21OpenAfter();
    CandidatesAppend(Prefix20, Block21, Top);
  }

  lemma Prefix22Scan()
    ensures Candidates(Prefix22, Top) == FoundUpTo22
    ensures OpenAfter(Prefix22, Top) == Inside("object", Top)
  {
    Prefix21Scan();
    Block22Candidates();
    Block22OpenAfter();
    CandidatesAppend(Prefix21, Block22, Top);
  }

  lemma Prefix23Scan()
    ensures Candidates(Prefix23, Top) == FoundUpTo23
    ensures OpenAfter(Prefix23, Top) == Inside("object", Top)
  {
    Prefix22Scan();
    Block23Candidates();
    Block23OpenAfter();
    CandidatesAppend(Prefix22, Block23, Top);
  }

  lemma Prefix24Scan()
    ensures Candidates(Prefix24, Top) == FoundUpTo24
    ensures OpenAfter(Prefix24, Top) == Inside("object", Inside("object", Top))
  {
    Prefix23Scan();
    Block24Candidates();
    Block24OpenAfter();
    CandidatesAppend(Prefix23, Block24, Top);
  }

  lemma Prefix25Scan()
    ensures Candidates(Prefix25, Top) == FoundUpTo25
    ensures OpenAfter(Prefix25, Top) == Top
  {
    Prefix24Scan();
    Block25Candidates();
    Block25OpenAfter();
    CandidatesAppend(Prefix24, Block25, Top);
  }

  lemma Prefix26Scan()
    ensures Candidates(Prefix26, Top) == FoundUpTo26
    ensures OpenAfter(Prefix26, Top) == Inside("object", Top)
  {
    Prefix25Scan();
    Block26Candidates();
    Block26OpenAfter();
    CandidatesAppend(Prefix25, Block26, Top);
  }

  lemma Prefix27Scan()
    ensures Candidates(Prefix27, Top) == FoundUpTo27
    ensures OpenAfter(Prefix27, Top) == Top
  {
    Prefix26Scan();
    Block27Candidates();
    Block27OpenAfter();
    CandidatesAppend(Prefix26, Block27, Top);
  }

  lemma Prefix28Scan()
    ensures Candidates(Prefix28, Top) == FoundUpTo28
    ensures OpenAfter(Prefix28, Top) == Top
  {
    Prefix27Scan();
    Block28Candidates();
    Block28OpenAfter();
    CandidatesAppend(Prefix27, Block28, Top);
  }

  lemma Prefix29Scan()
    ensures Candidates(Prefix29, Top) == FoundUpTo29
    ensures OpenAfter(Prefix29, Top) == Top
  {
    Prefix28Scan();
    Block29Candidates();
    Block29OpenAfter();
    CandidatesAppend(Prefix28, Block29, Top);
  }

  lemma Prefix30Scan()
    ensures Candidates(Prefix30, Top) == FoundUpTo30
    ensures OpenAfter(Prefix30, Top) == Inside("object", Inside("video", Top))
  {
    Prefix29Scan();
    Block30Candidates();
    Block30OpenAfter();
    CandidatesAppend(Prefix29, Block30, Top);
  }

  lemma Prefix31Scan()
    ensures Candidates(Prefix31, Top) == FoundUpTo31
    ensures OpenAfter(Prefix31, Top) == Inside("object", Inside("video", Top))
  {
    Prefix30Scan();
    Block31Candidates();
    Block31OpenAfter();
    CandidatesAppend(Prefix30, Block31, Top);
  }

  lemma Prefix32Scan()
    ensures Candidates(Prefix32, Top) == FoundUpTo32
    ensures OpenAfter(Prefix32, Top) == Inside("video", Top)
  {
    Prefix31Scan();
    Block32Candidates();
    Block32OpenAfter();
    CandidatesAppend(Prefix31, Block32, Top);
  }

  lemma Prefix33Scan()
    ensures Candidates(Prefix33, Top) == FoundUpTo33
    ensures OpenAfter(Prefix33, Top) == Inside("object", Inside("video", Top))
  {
    Prefix32Scan();
    Block33Candidates();
    Block33OpenAfter();
    CandidatesAppend(Prefix32, Block33, Top);
  }

  lemma Prefix34Scan()
    ensures Candidates(Prefix34, Top) == FoundUpTo34
    ensures OpenAfter(Prefix34, Top) == Inside("video", Top)
  {
    Prefix33Scan();
    Block34Candidates();
    Block34OpenAfter();
    CandidatesAppend(Prefix33, Block34, Top);
  }

  lemma Prefix35Scan()
    ensures Candidates(Prefix35, Top) == FoundUpTo35
    ensures OpenAfter(Prefix35, Top) == Inside("video", Top)
  {
    Prefix34Scan();
    Block35Candidates();
    Block35OpenAfter();
    CandidatesAppend(Prefix34, Block35, Top);
  }

  lemma Prefix36Scan()
    ensures Candidates(Prefix36, Top) == FoundUpTo36
    ensures OpenAfter(Prefix36, Top) == Inside("video", Top)
  {
    Prefix35Scan();
    Block36Candidates();
    Block36OpenAfter();
    CandidatesAppend(Prefix35, Block36, Top);
  }

  lemma Prefix37Scan()
    ensures Candidates(Prefix37, Top) == FoundUpTo37
    ensures OpenAfter(Prefix37, Top) == Top
  {
    Prefix36Scan();
    Block37Candidates();
    Block37OpenAfter();
    CandidatesAppend(Prefix36, Block37, Top);
  }

  lemma Prefix38Scan()
    ensures Candidates(Prefix38, Top) == FoundUpTo38
    ensures OpenAfter(Prefix38, Top) == Top
  {
    Prefix37Scan();
    Block38Candidates();
    Block38OpenAfter();
    CandidatesAppend(Prefix37, Block38, Top);
  }

  lemma Block01Listed()
    ensures forall r :: r in Found01 ==> Listed(r)
  {
    assert CasesFromASecond[6] == "mailto:test@example.com";
    assert CasesFromASecond[7] == "javascript:foo()";
  }

  lemma Block03Listed()
    ensures forall r :: r in Found03 ==> Listed(r)
  {
    assert CasesFromImg[1] == "test.png";
    assert CasesFromImg[0] == "../foo1/test.png";
  }

  lemma Block04Listed()
    ensures forall r :: r in Found04 ==> Listed(r)
  {
    assert CasesFromASecond[0] == "../foo1/bar1";
    assert CasesFromASecond[1] == "./foo2/bar2";
  }

  lemma Block05Listed()
    ensures forall r :: r in Found05 ==> Listed(r)
  {
    assert CasesFromASecond[2] == "../foo3/../foo4/foo5";
    assert CasesFromASecond[3] == "./foo4/../foo5/foo6";
  }

  lemma Block06Listed()
    ensures forall r :: r in Found06 ==> Listed(r)
  {
    assert CasesFromASecond[4] == "./foo4/./foo5/foo6";
    assert CasesFromASecond[5] == "./test/foo bar/is_valid-hack.test";
  }

  lemma Block07Listed()
    ensures forall r :: r in Found07 ==> Listed(r)
  {
    assert CasesFromAFirst[0] == "http://www.lagrandeepicerie.fr/#e-boutique/Les_produits_du_moment,2/coffret_vins_doux_naturels,149";
    assert CasesFromAFirst[4] == "http://example.com/foo bar/is_valid-hack.test";
  }

  lemma Block08Listed()
    ensures forall r :: r in Found08 ==> Listed(r)
  {
    assert CasesFromAFirst[5] == "http://example.com/ajax.html#key1=value1&key2=value2";
    assert CasesFromAFirst[6] == "http://example.com/test.html#test";
  }

  lemma Block09Listed()
    ensures forall r :: r in Found09 ==> Listed(r)
  {
    assert CasesFromAFirst[7] == "http://example.com/test.html#test%20ABC";
  }

  lemma Block10Listed()
    ensures forall r :: r in Found10 ==> Listed(r)
  {
    assert CasesFromObjectFirst[0] == "http://wetterservice.msn.de/phclip.swf?zip=60329&ort=Frankfurt";
    assert CasesFromObjectFirst[0] == "http://wetterservice.msn.de/phclip.swf?zip=60329&ort=Frankfurt";
  }

  lemma Block11Listed()
    ensures forall r :: r in Found11 ==> Listed(r)
  {
    assert CasesFromImg[2] == "flash.png";
  }

  lemma Block12Listed()
    ensures forall r :: r in Found12 ==> Listed(r)
  {
    assert CasesFromAFirst[1] == "http://www.msn.de/";
    assert CasesFromAFirst[2] == "http://www.adobe.com/";
  }

  lemma Block13Listed()
    ensures forall r :: r in Found13 ==> Listed(r)
  {
    assert CasesFromObjectFirst[1] == "http://www.apple.com/qtactivex/qtplugin.cab";
    assert CasesFromObjectFirst[2] == "http://example.net/video/foo1.mov";
  }

  lemma Block14Listed()
    ensures forall r :: r in Found14 ==> Listed(r)
  {
    assert CasesFromObjectFirst[3] == "http://example.net/video/foo2.mov";
  }

  lemma Block16Listed()
    ensures forall r :: r in Found16 ==> Listed(r)
  {
    assert CasesFromObjectFirst[4] == "http://example.net/video/foo3.mov";
  }

  lemma Block18Listed()
    ensures forall r :: r in Found18 ==> Listed(r)
  {
    assert CasesFromObjectFirst[5] == "http://example.org/video/foo1.mp4";
    assert CasesFromObjectFirst[6] == "http://example.org/video/foo2.mp4";
  }

  lemma Block20Listed()
    ensures forall r :: r in Found20 ==> Listed(r)
  {
    assert CasesFromAFirst[3] == "http://example.org/video/foo3.mp4";
  }

  lemma Block21Listed()
    ensures forall r :: r in Found21 ==> Listed(r)
  {
    assert CasesFromObjectFirst[1] == "http://www.apple.com/qtactivex/qtplugin.cab";
    assert CasesFromObjectFirst[7] == "http://example.org/video/foo4.mp4";
  }

  lemma Block22Listed()
    ensures forall r :: r in Found22 ==> Listed(r)
  {
    assert CasesFromObjectFirst[8] == "http://example.org/video/foo5.mp4";
  }

  lemma Block24Listed()
    ensures forall r :: r in Found24 ==> Listed(r)
  {
    assert CasesFromObjectSecond[0] == "http://example.org/video/foo6.mp4";
  }

  lemma Block26Listed()
    ensures forall r :: r in Found26 ==> Listed(r)
  {
    assert CasesFromObjectSecond[1] == "http://example.org/video/player1.swf";
    assert CasesFromObjectSecond[2] == "http://example.org/video/player2.swf";
  }

  lemma Block27Listed()
    ensures forall r :: r in Found27 ==> Listed(r)
  {
    assert CasesFromObjectSecond[3] == "http://example.org/video/player3.swf";
  }

  lemma Block28Listed()
    ensures forall r :: r in Found28 ==> Listed(r)
  {
    assert CasesFromObjectSecond[5] == "ritmo.mid";
  }

  lemma Block29Listed()
    ensures forall r :: r in Found29 ==> Listed(r)
  {
    assert CasesFromIframe[0] == "http://example.com/iframe/";
  }

  lemma Block30Listed()
    ensures forall r :: r in Found30 ==> Listed(r)
  {
    assert CasesFromVideo[3] == "my_ogg_video.ogg";
  }

  lemma Block31Listed()
    ensures forall r :: r in Found31 ==> Listed(r)
  {
    assert CasesFromObjectSecond[4] == "http://www.theora.org/cortado.jar";
  }

  lemma Block32Listed()
    ensures forall r :: r in Found32 ==> Listed(r)
  {
    assert CasesFromObjectSecond[6] == "my_ogg_video2.ogg";
  }

  lemma Block33Listed()
    ensures forall r :: r in Found33 ==> Listed(r)
  {
    assert CasesFromVideo[4] == "video.ogv";
    assert CasesFromObjectSecond[7] == "flvplayer1.swf";
  }

  lemma Block34Listed()
    ensures forall r :: r in Found34 ==> Listed(r)
  {
    assert CasesFromObjectSecond[8] == "flvplayer2.swf";
  }

  lemma Block35Listed()
    ensures forall r :: r in Found35 ==> Listed(r)
  {
    assert CasesFromVideo[0] == "http://v2v.cc/~j/theora_testsuite/pixel_aspect_ratio.ogg";
    assert CasesFromVideo[1] == "http://v2v.cc/~j/theora_testsuite/pixel_aspect_ratio.mov";
  }

  lemma Block37Listed()
    ensures forall r :: r in Found37 ==> Listed(r)
  {
    assert CasesFromVideo[5] == "foo.ogg";
  }

  lemma Block38Listed()
    ensures forall r :: r in Found38 ==> Listed(r)
  {
    assert CasesFromVideo[2] == "http://v2v.cc/~j/theora_testsuite/320x240.ogg";
  }

  lemma Prefix01Listed()
    ensures forall r :: r in FoundUpTo01 ==> Listed(r)
  {
    Block01Listed();
  }

  lemma Prefix02Listed()
    ensures forall r :: r in FoundUpTo02 ==> Listed(r)
  {
    Prefix01Listed();
  }

  lemma Prefix03Listed()
    ensures forall r :: r in FoundUpTo03 ==> Listed(r)
  {
    Prefix02Listed();
    Block03Listed();
  }

  lemma Prefix04Listed()
    ensures forall r :: r in FoundUpTo04 ==> Listed(r)
  {
    Prefix03Listed();
    Block04Listed();
  }

  lemma Prefix05Listed()
    ensures forall r :: r in FoundUpTo05 ==> Listed(r)
  {
    Prefix04Listed();
    Block05Listed();
  }

  lemma Prefix06Listed()
    ensures forall r :: r in FoundUpTo06 ==> Listed(r)
  {
    Prefix05Listed();
    Block06Listed();
  }

  lemma Prefix07Listed()
    ensures forall r :: r in FoundUpTo07 ==> Listed(r)
  {
    Prefix06Listed();
    Block07Listed();
  }

  lemma Prefix08Listed()
    ensures forall r :: r in FoundUpTo08 ==> Listed(r)
  {
    Prefix07Listed();
    Block08Listed();
  }

  lemma Prefix09Listed()
    ensures forall r :: r in FoundUpTo09 ==> Listed(r)
  {
    Prefix08Listed();
    Block09Listed();
  }

  lemma Prefix10Listed()
    ensures forall r :: r in FoundUpTo10 ==> Listed(r)
  {
    Prefix09Listed();
    Block10Listed();
  }

  lemma Prefix11Listed()
    ensures forall r :: r in FoundUpTo11 ==> Listed(r)
  {
    Prefix10Listed();
    Block11Listed();
  }

  lemma Prefix12Listed()
    ensures forall r :: r in FoundUpTo12 ==> Listed(r)
  {
    Prefix11Listed();
    Block12Listed();
  }

  lemma Prefix13Listed()
    ensures forall r :: r in FoundUpTo13 ==> Listed(r)
  {
    Prefix12Listed();
    Block13Listed();
  }

  lemma Prefix14Listed()
    ensures forall r :: r in FoundUpTo14 ==> Listed(r)
  {
    Prefix13Listed();
    Block14Listed();
  }

  lemma Prefix15Listed()
    ensures forall r :: r in FoundUpTo15 ==> Listed(r)
  {
    Prefix14Listed();
  }

  lemma Prefix16Listed()
    ensures forall r :: r in FoundUpTo16 ==> Listed(r)
  {
    Prefix15Listed();
    Block16Listed();
  }

  lemma Prefix17Listed()
    ensures forall r :: r in FoundUpTo17 ==> Listed(r)
  {
    Prefix16Listed();
  }

  lemma Prefix18Listed()
    ensures forall r :: r in FoundUpTo18 ==> Listed(r)
  {
    Prefix17Listed();
    Block18Listed();
  }

  lemma Prefix19Listed()
    ensures forall r :: r in FoundUpTo19 ==> Listed(r)
  {
    Prefix18Listed();
  }

  lemma Prefix20Listed()
    ensures forall r :: r in FoundUpTo20 ==> Listed(r)
  {
    Prefix19Listed();
    Block20Listed();
  }

  lemma Prefix21Listed()
    ensures forall r :: r in FoundUpTo21 ==> Listed(r)
  {
    Prefix20Listed();
    Block21Listed();
  }

  lemma Prefix22Listed()
    ensures forall r :: r in FoundUpTo22 ==> Listed(r)
  {
    Prefix21Listed();
    Block22Listed();
  }

  lemma Prefix23Listed()
    ensures forall r :: r in FoundUpTo23 ==> Listed(r)
  {
    Prefix22Listed();
  }

  lemma Prefix24Listed()
    ensures forall r :: r in FoundUpTo24 ==> Listed(r)
  {
    Prefix23Listed();
    Block24Listed();
  }

  lemma Prefix25Listed()
    ensures forall r :: r in FoundUpTo25 ==> Listed(r)
  {
    Prefix24Listed();
  }

  lemma Prefix26Listed()
    ensures forall r :: r in FoundUpTo26 ==> Listed(r)
  {
    Prefix25Listed();
    Block26Listed();
  }

  lemma Prefix27Listed()
    ensures forall r :: r in FoundUpTo27 ==> Listed(r)
  {
    Prefix26Listed();
    Block27Listed();
  }

  lemma Prefix28Listed()
    ensures forall r :: r in FoundUpTo28 ==> Listed(r)
  {
    Prefix27Listed();
    Block28Listed();
  }

  lemma Prefix29Listed()
    ensures forall r :: r in FoundUpTo29 ==> Listed(r)
  {
    Prefix28Listed();
    Block29Listed();
  }

  lemma Prefix30Listed()
    ensures forall r :: r in FoundUpTo30 ==> Listed(r)
  {
    Prefix29Listed();
    Block30Listed();
  }

  lemma Prefix31Listed()
    ensures forall r :: r in FoundUpTo31 ==> Listed(r)
  {
    Prefix30Listed();
    Block31Listed();
  }

  lemma Prefix32Listed()
    ensures forall r :: r in FoundUpTo32 ==> Listed(r)
  {
    Prefix31Listed();
    Block32Listed();
  }

  lemma Prefix33Listed()
    ensures forall r :: r in FoundUpTo33 ==> Listed(r)
  {
    Prefix32Listed();
    Block33Listed();
  }

  lemma Prefix34Listed()
    ensures forall r :: r in FoundUpTo34 ==> Listed(r)
  {
    Prefix33Listed();
    Block34Listed();
  }

  lemma Prefix35Listed()
    ensures forall r :: r in FoundUpTo35 ==> Listed(r)
  {
    Prefix34Listed();
    Block35Listed();
  }

  lemma Prefix36Listed()
    ensures forall r :: r in FoundUpTo36 ==> Listed(r)
  {
    Prefix35Listed();
  }

  lemma Prefix37Listed()
    ensures forall r :: r in FoundUpTo37 ==> Listed(r)
  {
    Prefix36Listed();
    Block37Listed();
  }

  lemma Prefix38Listed()
    ensures forall r :: r in FoundUpTo38 ==> Listed(r)
  {
    Prefix37Listed();
    Block38Listed();
  }

  /** The table's URLs of category FromA are candidates of the body in that category, each listed once. */
  lemma CoveredFromA()
    ensures forall u :: u in CasesFromA ==> RawUrl(FromA, u) in FoundUpTo38
  {
  }

  lemma DistinctFromAFirst()
    ensures NoDup(CasesFromAFirst)
  {
  }

  lemma DistinctFromASecond()
    ensures NoDup(CasesFromASecond)
  {
  }

  lemma DistinctFromAHalves()
    ensures forall u :: u in CasesFromAFirst ==> u !in CasesFromASecond
  {
  }

  lemma DistinctFromA()
    ensures NoDup(CasesFromA)
  {
    DistinctFromAFirst();
    DistinctFromASecond();
    DistinctFromAHalves();
    NoDupAppend(CasesFromAFirst, CasesFromASecond);
  }

  lemma OnlyFromA()
    ensures forall r :: r in FoundUpTo38 && r.category == FromA ==> r.url in CasesFromA
  {
    Prefix38Listed();
  }

  /** The table's URLs of category FromAudio are candidates of the body in that category, each listed once. */
  lemma CoveredFromAudio()
    ensures forall u :: u in CasesFromAudio ==> RawUrl(FromAudio, u) in FoundUpTo38
  {
  }

  lemma DistinctFromAudio()
    ensures NoDup(CasesFromAudio)
  {
  }

  lemma OnlyFromAudio()
    ensures forall r :: r in FoundUpTo38 && r.category == FromAudio ==> r.url in CasesFromAudio
  {
    Prefix38Listed();
  }

  /** The table's URLs of category FromEmbed are candidates of the body in that category, each listed once. */
  lemma CoveredFromEmbed()
    ensures forall u :: u in CasesFromEmbed ==> RawUrl(FromEmbed, u) in FoundUpTo38
  {
  }

  lemma DistinctFromEmbed()
    ensures NoDup(CasesFromEmbed)
  {
  }

  lemma OnlyFromEmbed()
    ensures forall r :: r in FoundUpTo38 && r.category == FromEmbed ==> r.url in CasesFromEmbed
  {
    Prefix38Listed();
  }

  /** The table's URLs of category FromIframe are candidates of the body in that category, each listed once. */
  lemma CoveredFromIframe()
    ensures forall u :: u in CasesFromIframe ==> RawUrl(FromIframe, u) in FoundUpTo38
  {
  }

  lemma DistinctFromIframe()
    ensures NoDup(CasesFromIframe)
  {
  }

  lemma OnlyFromIframe()
    ensures forall r :: r in FoundUpTo38 && r.category == FromIframe ==> r.url in CasesFromIframe
  {
    Prefix38Listed();
  }

  /** The table's URLs of category FromImg are candidates of the body in that category, each listed once. */
  lemma CoveredFromImg()
    ensures forall u :: u in CasesFromImg ==> RawUrl(FromImg, u) in FoundUpTo38
  {
  }

  lemma DistinctFromImg()
    ensures NoDup(CasesFromImg)
  {
  }

  lemma OnlyFromImg()
    ensures forall r :: r in FoundUpTo38 && r.category == FromImg ==> r.url in CasesFromImg
  {
    Prefix38Listed();
  }

  /** The table's URLs of category FromObject are candidates of the body in that category, each listed once. */
  lemma CoveredFromObject()
    ensures forall u :: u in CasesFromObject ==> RawUrl(FromObject, u) in FoundUpTo38
  {
  }

  lemma DistinctFromObjectFirst()
    ensures NoDup(CasesFromObjectFirst)
  {
  }

  lemma DistinctFromObjectSecond()
    ensures NoDup(CasesFromObjectSecond)
  {
  }

  lemma DistinctFromObjectHalves()
    ensures forall u :: u in CasesFromObjectFirst ==> u !in CasesFromObjectSecond
  {
  }

  lemma DistinctFromObject()
    ensures NoDup(CasesFromObject)
  {
    DistinctFromObjectFirst();
    DistinctFromObjectSecond();
    DistinctFromObjectHalves();
    NoDupAppend(CasesFromObjectFirst, CasesFromObjectSecond);
  }

  lemma OnlyFromObject()
    ensures forall r :: r in FoundUpTo38 && r.category == FromObject ==> r.url in CasesFromObject
  {
    Prefix38Listed();
  }

  /** The table's URLs of category FromVideo are candidates of the body in that category, each listed once. */
  lemma CoveredFromVideo()
    ensures forall u :: u in CasesFromVideo ==> RawUrl(FromVideo, u) in FoundUpTo38
  {
  }

  lemma DistinctFromVideo()
    ensures NoDup(CasesFromVideo)
  {
  }

  lemma OnlyFromVideo()
    ensures forall r :: r in FoundUpTo38 && r.category == FromVideo ==> r.url in CasesFromVideo
  {
    Prefix38Listed();
  }

  lemma ExtractFromA()
    ensures forall u :: u in TestCases(FromA) ==> u in Extract(TestBody, {FromA})
    ensures forall u :: u in Extract(TestBody, {FromA}) ==> u in TestCases(FromA)
    ensures |Extract(TestBody, {FromA})| == |TestCases(FromA)|
  {
    assert TestCases(FromA) == CasesFromA;
    Prefix38Scan();
    OnlyFromA();
    CoveredFromA();
    DistinctFromA();
    ExtractOneCategory(TestBody, FromA, FoundUpTo38, CasesFromA);
  }

  lemma ExtractFromAudio()
    ensures forall u :: u in TestCases(FromAudio) ==> u in Extract(TestBody, {FromAudio})
    ensures forall u :: u in Extract(TestBody, {FromAudio}) ==> u in TestCases(FromAudio)
    ensures |Extract(TestBody, {FromAudio})| == |TestCases(FromAudio)|
    ensures Extract(TestBody, {FromAudio}) == []
  {
    assert TestCases(FromAudio) == CasesFromAudio;
    Prefix38Scan();
    OnlyFromAudio();
    CoveredFromAudio();
    DistinctFromAudio();
    ExtractOneCategory(TestBody, FromAudio, FoundUpTo38, CasesFromAudio);
  }

  lemma ExtractFromEmbed()
    ensures forall u :: u in TestCases(FromEmbed) ==> u in Extract(TestBody, {FromEmbed})
    ensures forall u :: u in Extract(TestBody, {FromEmbed}) ==> u in TestCases(FromEmbed)
    ensures |Extract(TestBody, {FromEmbed})| == |TestCases(FromEmbed)|
    ensures Extract(TestBody, {FromEmbed}) == []
  {
    assert TestCases(FromEmbed) == CasesFromEmbed;
    Prefix38Scan();
    OnlyFromEmbed();
    CoveredFromEmbed();
    DistinctFromEmbed();
    ExtractOneCategory(TestBody, FromEmbed, FoundUpTo38, CasesFromEmbed);
  }

  lemma ExtractFromIframe()
    ensures forall u :: u in TestCases(FromIframe) ==> u in Extract(TestBody, {FromIframe})
    ensures forall u :: u in Extract(TestBody, {FromIframe}) ==> u in TestCases(FromIframe)
    ensures |Extract(TestBody, {FromIframe})| == |TestCases(FromIframe)|
  {
    assert TestCases(FromIframe) == CasesFromIframe;
    Prefix38Scan();
    OnlyFromIframe();
    CoveredFromIframe();
    DistinctFromIframe();
    ExtractOneCategory(TestBody, FromIframe, FoundUpTo38, CasesFromIframe);
  }

  lemma ExtractFromImg()
    ensures forall u :: u in TestCases(FromImg) ==> u in Extract(TestBody, {FromImg})
    ensures forall u :: u in Extract(TestBody, {FromImg}) ==> u in TestCases(FromImg)
    ensures |Extract(TestBody, {FromImg})| == |TestCases(FromImg)|
  {
    assert TestCases(FromImg) == CasesFromImg;
    Prefix38Scan();
    OnlyFromImg();
    CoveredFromImg();
    DistinctFromImg();
    ExtractOneCategory(TestBody, FromImg, FoundUpTo38, CasesFromImg);
  }

  lemma ExtractFromObject()
    ensures forall u :: u in TestCases(FromObject) ==> u in Extract(TestBody, {FromObject})
    ensures forall u :: u in Extract(TestBody, {FromObject}) ==> u in TestCases(FromObject)
    ensures |Extract(TestBody, {FromObject})| == |TestCases(FromObject)|
  {
    assert TestCases(FromObject) == CasesFromObject;
    Prefix38Scan();
    OnlyFromObject();
    CoveredFromObject();
    DistinctFromObject();
    ExtractOneCategory(TestBody, FromObject, FoundUpTo38, CasesFromObject);
  }

  lemma ExtractFromVideo()
    ensures forall u :: u in TestCases(FromVideo) ==> u in Extract(TestBody, {FromVideo})
    ensures forall u :: u in Extract(TestBody, {FromVideo}) ==> u in TestCases(FromVideo)
    ensures |Extract(TestBody, {FromVideo})| == |TestCases(FromVideo)|
  {
    assert TestCases(FromVideo) == CasesFromVideo;
    Prefix38Scan();
    OnlyFromVideo();
    CoveredFromVideo();
    DistinctFromVideo();
    ExtractOneCategory(TestBody, FromVideo, FoundUpTo38, CasesFromVideo);
  }

  /**
   * The test's assertions for every category: with only `c` enabled, every URL
   * the table lists for `c` is extracted, and the number of extracted URLs is
   * the number of table entries for `c`.  Nothing else is extracted then, so
   * the objects' repeated `phclip.swf` and `qtplugin.cab` values are returned
   * once.
   */
  lemma ExtractMatchesTestTable(c: Category)
    ensures forall u :: u in TestCases(c) ==> u in Extract(TestBody, {c})
    ensures forall u :: u in Extract(TestBody, {c}) ==> u in TestCases(c)
    ensures |Extract(TestBody, {c})| == |TestCases(c)|
  {
    match c {
      case FromA => ExtractFromA();
      case FromAudio => ExtractFromAudio();
      case FromEmbed => ExtractFromEmbed();
      case FromIframe => ExtractFromIframe();
      case FromImg => ExtractFromImg();
      case FromObject => ExtractFromObject();
      case FromVideo => ExtractFromVideo();
    }
  }

}
