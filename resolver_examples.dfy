/*
 * The examples of section 5 of RFC 3986.  Paths are checked on their
 * segments: the merged list of section 5.2.3 (the base `/b/c/d;p` loses its
 * last segment) and the list left by remove_dot_segments.
 */
module ResolverExamples {
  import opened Wrappers
  import opened Strings
  import opened UrlResolver

  /** The example base URI `http://a/b/c/d;p?q` of section 5.4, cut into its parts. */
  const Base := Parts("http", "a", "/b/c/d;p", "?q")

  /** The base is well formed and composes back into the example base URI. */
  lemma BaseComposes()
    ensures WellFormed(Base) && Compose(Base) == "http://a/b/c/d;p?q"
  {
  }

  /** The two examples of section 5.2.4. */
  lemma DotRemovalExamples()
    ensures RemoveDots(["a", "b", "c", ".", "..", "..", "g"]) == ["a", "g"]
    ensures RemoveDots(["mid", "content=5", "..", "6"]) == ["mid", "6"]
  {
  }

  /** The normal examples of section 5.4.1 whose reference is a path. */
  lemma NormalPathExamples()
    ensures RemoveDots(["b", "c", "g"]) == ["b", "c", "g"]
    ensures RemoveDots(["b", "c", ".", "g"]) == ["b", "c", "g"]
    ensures RemoveDots(["b", "c", "g", ""]) == ["b", "c", "g", ""]
    ensures RemoveDots(["b", "c", "."]) == ["b", "c", ""]
    ensures RemoveDots(["b", "c", ".."]) == ["b", ""]
    ensures RemoveDots(["b", "c", "..", "g"]) == ["b", "g"]
    ensures RemoveDots(["b", "c", "..", ".."]) == [""]
    ensures RemoveDots(["b", "c", "..", "..", "g"]) == ["g"]
  {
  }

  /** The abnormal examples of section 5.4.2: extra `..` segments stop at the root. */
  lemma AbnormalPathExamples()
    ensures RemoveDots(["b", "c", "..", "..", "..", "g"]) == ["g"]
    ensures RemoveDots(["b", "c", "..", "..", "..", "..", "g"]) == ["g"]
    ensures RemoveDots(["b", "c", "g", ".", ".."]) == ["b", "c", ""]
    ensures RemoveDots(["b", "c", "g;x=1", "..", "y"]) == ["b", "c", "y"]
  {
  }

  /** `#s` keeps the base's path and query. */
  lemma FragmentExample()
    ensures ResolveAgainst("#s", Base) == "http://a/b/c/d;p?q#s"
  {
  }

  /** `?y` keeps the base's path and replaces its query. */
  lemma QueryExample()
    ensures ResolveAgainst("?y", Base) == "http://a/b/c/d;p?y"
  {
  }

  /** `g:h` has a scheme and is returned unchanged. */
  lemma SchemeExample()
    ensures Resolve("g:h", Some("http://a/b/c/d;p?q"), Site("http", "a", [])) == Some("g:h")
  {
    assert ValidScheme("g");
    assert "g:h" == "g" + ":" + "h";
    SchemeOfPrefix("g", "h");
  }

  /** `/g` is taken from the root of the site `http://a`. */
  lemma RootExample()
    ensures Resolve("/g", Some("http://a/b/c/d;p?q"), Site("http", "a", [])) == Some("http://a/g")
  {
    assert FirstIndex("/g", SchemeEnd) == 0;
    assert "/g"[1] != "//"[1];
    assert SiteUrl(Site("http", "a", [])) == "http://a";
    assert "http://a" + "/g" == "http://a/g";
  }

  /** `//g` names another host and keeps the site's scheme. */
  lemma NetworkPathExample()
    ensures Resolve("//g", Some("http://a/b/c/d;p?q"), Site("http", "a", [])) == Some("http://g")
  {
    assert FirstIndex("//g", SchemeEnd) == 0;
    assert "//g"[..2] == "//";
    assert "http" + ":" + "//g" == "http://g";
  }
}
