# Link checker pipeline, modelled in Dafny

This project models the core of the Drupal `linkchecker` module:

- **The HTML link extractor** (`HtmlLinkExtractor`). It takes the tokens of a
  field's HTML and the enabled tag categories (`extract.from_a`, `from_audio`,
  `from_embed`, `from_iframe`, `from_img`, `from_object`, `from_video`). It
  returns the URL attribute values of the enabled tags, verbatim, each value
  once, in document order. Comments and text yield nothing. A URL belongs to
  the category of the tag that carries it. `<param>` inside `<object>` yields
  its `value` for the URL-bearing names. `<source>` takes the category of the
  enclosing `<video>` or `<audio>`.
- **The kernel test of the extractor** (`HtmlExtractorFixture`). The test body
  is written as tokens. For each category alone, the lemmas prove the test's
  assertions: every URL of the test table is extracted, and the counts match.
- **The URL resolver** (`UrlResolver`).
  - Absolute URLs pass unchanged.
  - `//host` references take the site's scheme.
  - Root-relative references are appended to the site's base URL.
  - Other relative references are resolved against the content item's URL.
    This uses the merge of section 5.2.3 of RFC 3986 and remove_dot_segments
    of section 5.2.4, on path segments. `ResolverExamples` checks the
    examples of section 5.4 of RFC 3986.
- **The link-extractor service** (`ExtractorService`).
  - `getLinks` resolves raw URLs. It drops what is not http(s), what is on a
    blacklisted host and what is outside the configured scope (all,
    internal, external). It keeps each link once.
  - `isLinkExists` lives in a class that holds the settings and the stored
    content items. The test changes both between checks.
  - `ServiceFixture`, `ServiceScenarios` and `ExistsScenario` hold the service
    kernel test's URL lists and its three `getLinks` scenarios. They also hold
    its `isLinkExists` decision tables, including an imperative replay of
    `testIsExists` on the class.
- **The Drush commands** (`Commands`).
  - `analyzeCheckParams` decides the base URL: the `uri` option, or
    `default_url_scheme` followed by `base_path`. An empty base URL is
    rejected. A base URL that does not start with `http` is rejected.
  - `analyze`, `clear` and `check` are methods of a class. Each appends the
    calls it makes on its collaborators to an ordered call log.

The site (scheme, host, base path) and the random folder names of the service
test are parameters. The scenario lemmas hold for every site whose host is not
one of the test's own hosts.

## Model

Paths are relative to the module's repository root.

| member | source | states |
|---|---|---|
| HtmlLinkExtractor.Extract | modules/contrib/linkchecker/tests/src/Kernel/LinkcheckerHtmlLinkExtractorTest.php:101-126 | The result has no duplicates. A string is in it exactly when some enabled category has it as a candidate of the stream. The URLs come in document order of their first selected occurrence. |
| HtmlLinkExtractor.Select | modules/contrib/linkchecker/tests/src/Kernel/LinkcheckerHtmlLinkExtractorTest.php:95-104 | Only candidates of enabled categories pass. Every value of an enabled category is kept. |
| HtmlLinkExtractor.Markup | modules/contrib/linkchecker/tests/src/Kernel/LinkcheckerHtmlLinkExtractorTest.php:141-148 | Dropping text and comments keeps only tags of the stream. |
| HtmlLinkExtractor.TextAndCommentsIgnored | modules/contrib/linkchecker/tests/src/Kernel/LinkcheckerHtmlLinkExtractorTest.php:141-148 | Text and comments never contribute a URL, even a URL written inside a comment. They never change which elements are open. |
| HtmlLinkExtractor.CandidatesAppend | modules/contrib/linkchecker/tests/src/Kernel/LinkcheckerHtmlLinkExtractorTest.php:140-269 | The candidates of a concatenated body are those of the first part, then those of the second part read inside the elements the first left open. |
| HtmlLinkExtractor.SelectAppend | modules/contrib/linkchecker/tests/src/Kernel/LinkcheckerHtmlLinkExtractorTest.php:101-126 | Category selection distributes over concatenation. |
| HtmlLinkExtractor.TagUrlsAttribution | modules/contrib/linkchecker/tests/src/Kernel/LinkcheckerHtmlLinkExtractorTest.php:170-230 | A URL yielded by a start tag is the value of one of that tag's own URL attributes. Its category is one the tag can carry. |
| HtmlLinkExtractor.SourceCategory | modules/contrib/linkchecker/tests/src/Kernel/LinkcheckerHtmlLinkExtractorTest.php:240-266 | A `<source>` is only ever attributed to video or audio. |
| HtmlLinkExtractor.CandidateAttribution | modules/contrib/linkchecker/tests/src/Kernel/LinkcheckerHtmlLinkExtractorTest.php:279-324 | Every candidate is carried by a start tag of the stream that has that URL in a URL attribute of that category. |
| HtmlLinkExtractor.CandidatesComplete | modules/contrib/linkchecker/tests/src/Kernel/LinkcheckerHtmlLinkExtractorTest.php:143-167 | Every URL of an `a`, `img`, `iframe`, `embed`, `audio`, `video` or `object` tag anywhere in the stream is a candidate, whatever encloses it. |
| HtmlLinkExtractor.ExtractContextFree | modules/contrib/linkchecker/tests/src/Kernel/LinkcheckerHtmlLinkExtractorTest.php:302-324 | For a, embed, iframe and img alone, a URL is extracted if and only if a tag of that category carries it. Anchors give their `href` verbatim. |
| HtmlLinkExtractor.CandidatesAt | modules/contrib/linkchecker/tests/src/Kernel/LinkcheckerHtmlLinkExtractorTest.php:140-269 | A URL is a candidate exactly when some token yields it inside the elements open before that token. |
| HtmlLinkExtractor.TagFound | modules/contrib/linkchecker/tests/src/Kernel/LinkcheckerHtmlLinkExtractorTest.php:140-269 | Every URL a start tag yields, inside the elements open before it, is a candidate. |
| HtmlLinkExtractor.ParamFound | modules/contrib/linkchecker/tests/src/Kernel/LinkcheckerHtmlLinkExtractorTest.php:170-230 | A `<param>` named src, href, movie, url, archive or filename (or with `src="movie"`) inside an open `<object>` yields its `value` as an object URL. |
| HtmlLinkExtractor.VideoSourceFound | modules/contrib/linkchecker/tests/src/Kernel/LinkcheckerHtmlLinkExtractorTest.php:240-266 | A `<source>` whose innermost open media element is a `<video>` yields its `src` as a video URL. |
| HtmlLinkExtractor.AudioSourceFound | modules/contrib/linkchecker/tests/src/Kernel/LinkcheckerHtmlLinkExtractorTest.php:84-92 | A `<source>` whose innermost open media element is an `<audio>` yields its `src` as an audio URL. |
| HtmlLinkExtractor.MediaCategoryInnermost | modules/contrib/linkchecker/tests/src/Kernel/LinkcheckerHtmlLinkExtractorTest.php:240-266 | The innermost open `<video>` or `<audio>` decides a `<source>`'s category. A `<source>` outside both has none. |
| HtmlLinkExtractor.ExtractExact | modules/contrib/linkchecker/tests/src/Kernel/LinkcheckerHtmlLinkExtractorTest.php:101-126 | For every category alone, a URL is extracted if and only if some start tag yields it in that category, inside the elements open before that tag. |
| HtmlLinkExtractor.ExtractOneCategory | modules/contrib/linkchecker/tests/src/Kernel/LinkcheckerHtmlLinkExtractorTest.php:111-126 | Suppose a category's candidates are exactly a duplicate-free list. With only that category enabled, every listed URL is extracted, nothing else is, and the counts are equal. |
| HtmlLinkExtractor.FindClose | modules/contrib/linkchecker/tests/src/Kernel/LinkcheckerHtmlLinkExtractorTest.php:189-190 | Finds the first `-->` of a string, or reports that there is none. |
| HtmlLinkExtractor.CommentBody | modules/contrib/linkchecker/tests/src/Kernel/LinkcheckerHtmlLinkExtractorTest.php:189-190 | A recognised comment is `<!--`, then a content holding no `-->`, then `-->` and the rest. |
| HtmlLinkExtractor.NoCloseBefore | modules/contrib/linkchecker/tests/src/Kernel/LinkcheckerHtmlLinkExtractorTest.php:189-190 | A prefix shorter than the first `-->` holds no `-->`. |
| HtmlLinkExtractor.CommentEndsAtFirstClose | modules/contrib/linkchecker/tests/src/Kernel/LinkcheckerHtmlLinkExtractorTest.php:189-190 | A comment ends at its own first `-->`, whatever follows. |
| HtmlLinkExtractor.ConditionalCommentsAreShort | modules/contrib/linkchecker/tests/src/Kernel/LinkcheckerHtmlLinkExtractorTest.php:189-213 | `<!--[if gte IE 7]> <!-->` and `<!--<![endif]-->` are comments of their own, so the objects between them are scanned. |
| HtmlExtractorFixture.ExtractMatchesTestTable | modules/contrib/linkchecker/tests/src/Kernel/LinkcheckerHtmlLinkExtractorTest.php:101-126 | On the test body with one category enabled, every URL the table gives that category is extracted. Nothing else is extracted, and the counts are equal. So repeated values such as `phclip.swf` and `qtplugin.cab` come back once. |
| HtmlExtractorFixture.ExtractFromA | modules/contrib/linkchecker/tests/src/Kernel/LinkcheckerHtmlLinkExtractorTest.php:279-324 | from_a alone yields exactly the 16 anchor URLs of the table. These include `mailto:`, `javascript:`, relative paths, spaces, `%20` and `&` in fragments. The `<a>` inside an object counts too. |
| HtmlExtractorFixture.ExtractFromAudio | modules/contrib/linkchecker/tests/src/Kernel/LinkcheckerHtmlLinkExtractorTest.php:84-92 | from_audio alone yields nothing: the body has no audio tag. |
| HtmlExtractorFixture.ExtractFromEmbed | modules/contrib/linkchecker/tests/src/Kernel/LinkcheckerHtmlLinkExtractorTest.php:84-92 | from_embed alone yields nothing: the body has no embed tag. |
| HtmlExtractorFixture.ExtractFromIframe | modules/contrib/linkchecker/tests/src/Kernel/LinkcheckerHtmlLinkExtractorTest.php:279-324 | from_iframe alone yields exactly the iframe's `src`. |
| HtmlExtractorFixture.ExtractFromImg | modules/contrib/linkchecker/tests/src/Kernel/LinkcheckerHtmlLinkExtractorTest.php:279-324 | from_img alone yields exactly the three image sources, including the `img` nested in an object. |
| HtmlExtractorFixture.ExtractFromObject | modules/contrib/linkchecker/tests/src/Kernel/LinkcheckerHtmlLinkExtractorTest.php:279-324 | from_object alone yields exactly the 18 object URLs: `data`, `codebase` and the values of URL-bearing params. Objects inside a video count too. |
| HtmlExtractorFixture.ExtractFromVideo | modules/contrib/linkchecker/tests/src/Kernel/LinkcheckerHtmlLinkExtractorTest.php:279-324 | from_video alone yields exactly the six video and nested `source` URLs. |
| UrlResolver.Resolve | modules/contrib/linkchecker/tests/src/Kernel/LinkcheckerLinkExtractorServiceTest.php:352-370 | The empty string resolves to nothing. A URL with a scheme is returned unchanged. A `//host` reference takes the site's scheme. A root-relative reference such as `/foo2/test.png` becomes the site's base URL followed by the reference, whatever the base. Any other reference resolves exactly when there is a parsable base, to its resolution against that base. |
| UrlResolver.RemoveDots | modules/contrib/linkchecker/tests/src/Kernel/LinkcheckerLinkExtractorServiceTest.php:357-360 | The result of remove_dot_segments holds no `.` or `..` segment. |
| UrlResolver.RemoveDotsIdempotent | modules/contrib/linkchecker/tests/src/Kernel/LinkcheckerLinkExtractorServiceTest.php:357-360 | Removing dot segments twice is the same as once. |
| UrlResolver.RemoveDotsOfClean | modules/contrib/linkchecker/tests/src/Kernel/LinkcheckerLinkExtractorServiceTest.php:354-370 | A path without dot segments is left as it is. |
| UrlResolver.DotsParent | modules/contrib/linkchecker/tests/src/Kernel/LinkcheckerLinkExtractorServiceTest.php:358 | A `..` removes the segment before it. |
| UrlResolver.DotsCurrent | modules/contrib/linkchecker/tests/src/Kernel/LinkcheckerLinkExtractorServiceTest.php:360 | A `.` segment is dropped. |
| UrlResolver.MergeSegments | modules/contrib/linkchecker/tests/src/Kernel/LinkcheckerLinkExtractorServiceTest.php:356 | The merged path is the base path without its last segment, followed by the reference's segments. |
| UrlResolver.ResolveUnderSite | modules/contrib/linkchecker/tests/src/Kernel/LinkcheckerLinkExtractorServiceTest.php:352-370 | A relative path in a page of the site resolves to the site's scheme and host. Its path is the site's base path, the page's directory and the reference, with the dot segments of the reference removed. |
| UrlResolver.ResolveInSitePage | modules/contrib/linkchecker/tests/src/Kernel/LinkcheckerLinkExtractorServiceTest.php:352-370 | The same, before the site's and the directory's clean segments are moved out of the dot removal. |
| UrlResolver.ResolvedIsAbsolute | modules/contrib/linkchecker/tests/src/Kernel/LinkcheckerLinkExtractorServiceTest.php:352-370 | Every resolved URL has a scheme. |
| UrlResolver.ResolveIdempotent | modules/contrib/linkchecker/tests/src/Kernel/LinkcheckerLinkExtractorServiceTest.php:352-370 | Resolving a resolved URL again changes nothing. |
| ExtractorService.Entries | modules/contrib/linkchecker/tests/src/Kernel/LinkcheckerLinkExtractorServiceTest.php:175 | Blacklist entries are never empty. |
| ExtractorService.EntriesOfLines | modules/contrib/linkchecker/tests/src/Kernel/LinkcheckerLinkExtractorServiceTest.php:175 | Clean lines joined with newlines are read back as exactly those entries. |
| ExtractorService.Classify | modules/contrib/linkchecker/tests/src/Kernel/LinkcheckerLinkExtractorServiceTest.php:173-193 | A URL is unsupported exactly when it is not http(s). A supported URL is blacklisted exactly when its host matches an entry. It is internal exactly when it is supported, not blacklisted and on the site's host. |
| ExtractorService.Keep | modules/contrib/linkchecker/tests/src/Kernel/LinkcheckerLinkExtractorServiceTest.php:123-193 | A raw URL contributes at most one link: its resolution, exactly when the settings accept it. |
| ExtractorService.KeptMembers | modules/contrib/linkchecker/tests/src/Kernel/LinkcheckerLinkExtractorServiceTest.php:123-193 | The kept links are exactly the accepted resolutions of the raw URLs. |
| ExtractorService.GetLinks | modules/contrib/linkchecker/tests/src/Kernel/LinkcheckerLinkExtractorServiceTest.php:123-193 | No duplicates, and no more links than raw URLs. A link is returned exactly when some raw URL resolves to it and it is supported, not blacklisted and in scope. |
| ExtractorService.GetLinksDistinct | modules/contrib/linkchecker/tests/src/Kernel/LinkcheckerLinkExtractorServiceTest.php:123-143 | Distinct accepted links come back in their input order. |
| ExtractorService.KeptAppend | modules/contrib/linkchecker/tests/src/Kernel/LinkcheckerLinkExtractorServiceTest.php:413-415 | Filtering a merged list filters each part. |
| ExtractorService.GetLinksSupported | modules/contrib/linkchecker/tests/src/Kernel/LinkcheckerLinkExtractorServiceTest.php:173-193 | Every returned link is http(s) and not on a blacklisted host. Internal scope returns only the site's host, and external scope only other hosts. |
| ExtractorService.ScopePartition | modules/contrib/linkchecker/tests/src/Kernel/LinkcheckerLinkExtractorServiceTest.php:123-168 | The links of scope all are the union of those of internal and external scope, and those two share none. |
| ExtractorService.BlacklistMonotone | modules/contrib/linkchecker/tests/src/Kernel/LinkcheckerLinkExtractorServiceTest.php:173-193 | A larger blacklist only removes links. |
| ExtractorService.KeptAll | modules/contrib/linkchecker/tests/src/Kernel/LinkcheckerLinkExtractorServiceTest.php:139-142 | A list whose every URL is kept as it is passes whole. |
| ExtractorService.KeptNone | modules/contrib/linkchecker/tests/src/Kernel/LinkcheckerLinkExtractorServiceTest.php:190-192 | A list whose every URL is dropped contributes nothing. |
| ExtractorService.GetLinksIdempotent | modules/contrib/linkchecker/tests/src/Kernel/LinkcheckerLinkExtractorServiceTest.php:123-193 | Feeding the returned links back in returns them unchanged. |
| ExtractorService.LiveConditions | modules/contrib/linkchecker/tests/src/Kernel/LinkcheckerLinkExtractorServiceTest.php:243-315 | A stored link exists exactly when all of these hold: its entity and field exist, an extracted URL of the field resolves to it, it is http(s), it is not blacklisted, and it is in scope. |
| ExtractorService.Contains | modules/contrib/linkchecker/tests/src/Kernel/LinkcheckerLinkExtractorServiceTest.php:256 | The search answers true exactly when the URL is in the list. |
| ExtractorService.LinkExtractorService.constructor | modules/contrib/linkchecker/tests/src/Kernel/LinkcheckerLinkExtractorServiceTest.php:88-118 | The service starts with the given site and settings and no content. |
| ExtractorService.LinkExtractorService.SaveSettings | modules/contrib/linkchecker/tests/src/Kernel/LinkcheckerLinkExtractorServiceTest.php:251-253 | The settings are replaced and the content is unchanged. |
| ExtractorService.LinkExtractorService.SaveNode | modules/contrib/linkchecker/tests/src/Kernel/LinkcheckerLinkExtractorServiceTest.php:204-213 | The item is stored under its id, and the settings are unchanged. |
| ExtractorService.LinkExtractorService.DeleteNode | modules/contrib/linkchecker/tests/src/Kernel/LinkcheckerLinkExtractorServiceTest.php:307 | The item is removed, and the settings are unchanged. |
| ExtractorService.LinkExtractorService.IsLinkExists | modules/contrib/linkchecker/tests/src/Kernel/LinkcheckerLinkExtractorServiceTest.php:256 | The answer is whether the link is live under the current settings and content (see LiveConditions). |
| ServiceFixture.HttpUrls | modules/contrib/linkchecker/tests/src/Kernel/LinkcheckerLinkExtractorServiceTest.php:324-343 | The test's absolute URLs are `http://host/path`, entry by entry. |
| ServiceFixture.Pages | modules/contrib/linkchecker/tests/src/Kernel/LinkcheckerLinkExtractorServiceTest.php:352-370 | The expected resolutions are the site's base URL followed by each expected path, entry by entry. |
| ServiceScenarios.KeptUnsupported | modules/contrib/linkchecker/tests/src/Kernel/LinkcheckerLinkExtractorServiceTest.php:399-405 | `mailto:`, `javascript:` and the empty string are never kept, whatever the settings and base. |
| ServiceScenarios.KeepMailto | modules/contrib/linkchecker/tests/src/Kernel/LinkcheckerLinkExtractorServiceTest.php:401 | `mailto:test@example.com` is dropped, whatever the settings and the base. |
| ServiceScenarios.KeepJavascript | modules/contrib/linkchecker/tests/src/Kernel/LinkcheckerLinkExtractorServiceTest.php:402 | `javascript:foo()` is dropped, whatever the settings and the base. |
| ServiceScenarios.UnsupportedNotHttp | modules/contrib/linkchecker/tests/src/Kernel/LinkcheckerLinkExtractorServiceTest.php:399-405 | None of the unsupported URLs is an http URL. |
| ServiceScenarios.InternalAbsoluteDropped | modules/contrib/linkchecker/tests/src/Kernel/LinkcheckerLinkExtractorServiceTest.php:148-168 | With internal scope, every absolute URL on a foreign host is dropped. |
| ServiceScenarios.RelativeWithBase | modules/contrib/linkchecker/tests/src/Kernel/LinkcheckerLinkExtractorServiceTest.php:352-370 | The 16 relative references, in a page at `<base>/<folder1>/<folder2>`, resolve to the 16 expected URLs. Spaces are kept. |
| ServiceScenarios.ExternalUrlsScenario | modules/contrib/linkchecker/tests/src/Kernel/LinkcheckerLinkExtractorServiceTest.php:123-143 | External scope, empty blacklist, no base: getLinks returns exactly the 9 external and 17 example.* URLs, 26 in all. |
| ServiceScenarios.RelativeUrlsScenario | modules/contrib/linkchecker/tests/src/Kernel/LinkcheckerLinkExtractorServiceTest.php:148-168 | Internal scope, empty blacklist: getLinks returns exactly the 16 resolved relative URLs. |
| ServiceScenarios.BlacklistedUrlsScenario | modules/contrib/linkchecker/tests/src/Kernel/LinkcheckerLinkExtractorServiceTest.php:173-193 | Scope all, blacklist example.com/net/org: getLinks returns the external URLs and the resolved relative ones. That is the total minus 17 minus 3, which is 25. No blacklisted or unsupported URL is returned. |
| ExistsScenario.ExtractAnchors | modules/contrib/linkchecker/tests/src/Kernel/LinkcheckerLinkExtractorServiceTest.php:204-213 | A body of distinct anchors yields their hrefs, in order. |
| ExistsScenario.CheckMapLive | modules/contrib/linkchecker/tests/src/Kernel/LinkcheckerLinkExtractorServiceTest.php:255-257 | Entry `i` of a check map is whether link `i` is live. |
| ExistsScenario.LocalResolves | modules/contrib/linkchecker/tests/src/Kernel/LinkcheckerLinkExtractorServiceTest.php:209 | The body's `/existing.local` anchor resolves to the site's page `<base>/existing.local`, whatever the base. |
| ExistsScenario.LiveExisting | modules/contrib/linkchecker/tests/src/Kernel/LinkcheckerLinkExtractorServiceTest.php:221-225 | `https://existing.com` exists exactly when its host is in scope and not blacklisted. |
| ExistsScenario.DeadNotExisting | modules/contrib/linkchecker/tests/src/Kernel/LinkcheckerLinkExtractorServiceTest.php:222 | `https://not-existing.com` never exists: no anchor of the body holds it. |
| ExistsScenario.LiveExampleExisting | modules/contrib/linkchecker/tests/src/Kernel/LinkcheckerLinkExtractorServiceTest.php:223 | `https://example.com/existing` exists exactly when example.com is in scope and not blacklisted. |
| ExistsScenario.LiveLocal | modules/contrib/linkchecker/tests/src/Kernel/LinkcheckerLinkExtractorServiceTest.php:224 | `<base>/existing.local` exists exactly when the settings admit the site's own host. |
| ExistsScenario.TestChecks | modules/contrib/linkchecker/tests/src/Kernel/LinkcheckerLinkExtractorServiceTest.php:243-304 | The four answers under any settings follow from the kinds of the hosts `existing.com`, `example.com` and the site's. |
| ExistsScenario.TableOpen | modules/contrib/linkchecker/tests/src/Kernel/LinkcheckerLinkExtractorServiceTest.php:243-257 | Empty blacklist, scope all: true, false, true, true. |
| ExistsScenario.TableBlacklisted | modules/contrib/linkchecker/tests/src/Kernel/LinkcheckerLinkExtractorServiceTest.php:259-272 | example.com blacklisted, scope all: true, false, false, true. |
| ExistsScenario.TableExternal | modules/contrib/linkchecker/tests/src/Kernel/LinkcheckerLinkExtractorServiceTest.php:274-288 | example.com blacklisted, external scope: true, false, false, false. |
| ExistsScenario.TableInternal | modules/contrib/linkchecker/tests/src/Kernel/LinkcheckerLinkExtractorServiceTest.php:290-304 | example.com blacklisted, internal scope: false, false, false, true. |
| ExistsScenario.TableDeleted | modules/contrib/linkchecker/tests/src/Kernel/LinkcheckerLinkExtractorServiceTest.php:306-315 | Once the entity is gone, none of its links exists, whatever the settings. |
| ExistsScenario.TableGone | modules/contrib/linkchecker/tests/src/Kernel/LinkcheckerLinkExtractorServiceTest.php:306-315 | After the node is deleted: false for all four links. |
| ExistsScenario.CheckLinks | modules/contrib/linkchecker/tests/src/Kernel/LinkcheckerLinkExtractorServiceTest.php:255-257 | Asking the service about each link in turn gives the check map of the current state. |
| ExistsScenario.CheckUnder | modules/contrib/linkchecker/tests/src/Kernel/LinkcheckerLinkExtractorServiceTest.php:251-257 | Saving settings and then asking gives the check map under the new settings. The content is unchanged. |
| ExistsScenario.TestIsExists | modules/contrib/linkchecker/tests/src/Kernel/LinkcheckerLinkExtractorServiceTest.php:198-316 | Replaying the test on the class gives the five maps of the test, on any site not under the test's hosts. |
| Commands.StrPos | modules/contrib/linkchecker/src/Commands/LinkCheckerCommands.php:158 | `mb_strpos` returns the first occurrence at or after the offset, or none. |
| Commands.StrPosZero | modules/contrib/linkchecker/src/Commands/LinkCheckerCommands.php:158 | `mb_strpos(s, n) === 0` holds exactly when `s` starts with `n`. |
| Commands.AnalyzeCheckParams | modules/contrib/linkchecker/src/Commands/LinkCheckerCommands.php:142-161 | An accepted base URL is non-empty and starts with `http`. A rejection carries one of the two messages. |
| Commands.UriOptionVerbatim | modules/contrib/linkchecker/src/Commands/LinkCheckerCommands.php:150-152 | With `--uri` the settings are not consulted, and an accepted base URL is the option verbatim. |
| Commands.DefaultBaseUrl | modules/contrib/linkchecker/src/Commands/LinkCheckerCommands.php:146-149 | Without `--uri`, an accepted base URL is `default_url_scheme` followed by `base_path`. |
| Commands.EmptyBaseUrlRejected | modules/contrib/linkchecker/src/Commands/LinkCheckerCommands.php:154-156 | An empty base URL (`""` or `"0"`) gets the "You MUST configure…" error, before the scheme is checked. |
| Commands.HttpPrefixDecides | modules/contrib/linkchecker/src/Commands/LinkCheckerCommands.php:158-160 | A non-empty base URL is accepted if and only if it starts with `http`. Otherwise the error is the scheme message. |
| Commands.WebSchemesAccepted | modules/contrib/linkchecker/src/Commands/LinkCheckerCommands.php:158-160 | Both `http://…` and `https://…` pass. |
| Commands.AnalyzeRun | modules/contrib/linkchecker/src/Commands/LinkCheckerCommands.php:80-91 | `analyze` fails exactly when validation fails. It batches exactly when there are entities, and it never removes links. |
| Commands.ClearRun | modules/contrib/linkchecker/src/Commands/LinkCheckerCommands.php:102-114 | `clear` fails exactly when validation fails. It removes links and batches exactly when there are entities. |
| Commands.CheckRun | modules/contrib/linkchecker/src/Commands/LinkCheckerCommands.php:123-135 | `check` first logs the start. It runs the checker batch exactly when there are links, and it never extracts or removes. |
| Commands.ValidationFirst | modules/contrib/linkchecker/src/Commands/LinkCheckerCommands.php:80-103 | A failed validation stops `analyze` and `clear` with its message, before any call. |
| Commands.NoContentOnlyWarns | modules/contrib/linkchecker/src/Commands/LinkCheckerCommands.php:83-90 | With zero entities, `analyze` and `clear` only log the warning. |
| Commands.ClearRemovesFirst | modules/contrib/linkchecker/src/Commands/LinkCheckerCommands.php:105-113 | In `clear`, removal comes before the extraction batch and the batch runner comes last. Apart from the removal, `clear` is `analyze`. |
| Commands.LinkCheckerCommands.constructor | modules/contrib/linkchecker/src/Commands/LinkCheckerCommands.php:58-71 | The commands start with the given settings and an empty call log. |
| Commands.LinkCheckerCommands.Analyze | modules/contrib/linkchecker/src/Commands/LinkCheckerCommands.php:80-91 | On failure the log is unchanged and the message is returned. On success the log grows by exactly the calls of `AnalyzeRun`. |
| Commands.LinkCheckerCommands.Clear | modules/contrib/linkchecker/src/Commands/LinkCheckerCommands.php:102-114 | The same, with the calls of `ClearRun`. |
| Commands.LinkCheckerCommands.Check | modules/contrib/linkchecker/src/Commands/LinkCheckerCommands.php:123-135 | The log grows by exactly the calls of `CheckRun`. |

## Left out

- The HTML tokeniser is not part of this model. Input is a token stream with
  lower-cased tag and attribute names. Only the rule that delimits comments
  (`CommentBody`) is modelled at character level.
- The attribute rules for `audio` and `embed` have no fixture: the test body
  holds no such tag. The model's rule is `src` on `embed` and `audio`, and
  `src` on a `source` whose innermost open media element is an `audio`.
- The blacklist matching rule is not pinned down by the tests, which use
  exact hosts only. The model blacklists a host that equals an entry or ends
  with it. There is no case folding.
- `HostOf` is the whole authority, port included. User information and ports
  never occur in the tests.
- getLinks drops blacklisted URLs, because the test at
  LinkcheckerLinkExtractorServiceTest.php:183-192 asserts that none of them is
  returned. The model follows that test.
- ServiceScenarios.ExternalUrlsScenario: the test loop at
  LinkcheckerLinkExtractorServiceTest.php:140 iterates over a PHP array union
  of two numerically keyed lists. That union checks only 9 + 8 of the 26 URLs.
  The lemma proves all 26 present and the result equal to that list, which is
  stronger than the test.
- The test URL lists are written as (host, path) pairs and path segments, and
  the resolved URLs as the site's base URL plus segments. The kernel
  environment's host, the request's base path and the random folder names
  (`randomMachineName`) are parameters. The scenarios assume a site whose host
  is none of the test's hosts and is not under a blacklisted host.
- A relative reference that does not start with `/` stays unresolved, and is
  dropped, when there is no base URL.
- UrlResolver.Resolve: root-relative (`/…`) and network-path (`//…`)
  references are not cleared of dot segments. They are prefixed as written,
  with the site's base URL or the site's scheme. Section 5.2.2 of RFC 3986
  would remove their dot segments too. The tests pin only `/foo2/test.png`
  (LinkcheckerLinkExtractorServiceTest.php:355), which has none.
- Query and fragment of a relative reference: references starting with `?`
  or `#` follow section 5.2.2 of RFC 3986. The test's relative references
  hold neither.
- The Drupal config factory, the request stack, the entity storage and the
  Drush alias context are not modelled. Settings, the `uri` option, the stored
  items and the entity and link counts are parameters or fields.
- The batch, queue and clean-up collaborators (`LinkExtractorBatch`,
  `LinkCheckerBatch`, `LinkCleanUp`) and `drush_backend_batch_process` are
  entries in the call log. The work they do is not modelled.
- Commands.AnalyzeCheckParams: the PHP method returns nothing and throws. The
  model returns the accepted base URL, or the exception's message as an
  error. Translation of the messages (`$this->t`) is not modelled.
- Configuration values that may be NULL in PHP (`default_url_scheme`,
  `base_path`) are strings. A missing value is the empty string.
- The extractor test's table (LinkcheckerHtmlLinkExtractorTest.php:278-324) is
  a 44-entry map from URL to category, filtered with `array_filter` per
  category. The map itself is not modelled. `TestCases(c)` lists, for each
  category, the URLs that filter would return, in the table's order.
- The web tests under `src/Tests` and the site's custom modules and theme are
  outside this model: they are browser or database integration, or
  rendering glue.
