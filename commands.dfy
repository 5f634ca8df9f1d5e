/*
 * The Drush commands of the link checker: the base-URL validation that
 * `linkchecker:analyze` and `linkchecker:clear` run first, and the order in
 * which the three commands call their batch collaborators.
 *
 * The collaborators (the extractor batch, the checker batch, the clean-up
 * service and Drush's batch runner) are not modelled: each call to them is an
 * entry in an ordered call log, and the counts they report are parameters.
 */
module Commands {
  import opened Wrappers
  import opened Strings

  /** The two link checker settings the validation reads. */
  datatype Config = Config(defaultUrlScheme: string, basePath: string)

  /** A call the commands make on a collaborator or a logger. */
  datatype Call =
    | RemoveAllBatch          // LinkCleanUp::removeAllBatch
    | ExtractorBatch          // LinkExtractorBatch::batch
    | CheckerBatch            // LinkCheckerBatch::batch
    | BatchProcess            // drush_backend_batch_process
    | Warning(message: string)
    | Info(message: string)
    | Notice(message: string)

  const NoBaseUrlMessage: string := "You MUST configure the site base_url or provide --uri parameter."
  const NotHttpMessage: string := "Base url should start with http scheme (http:// or https://)"
  const NoContentMessage: string := "No content configured for link analysis."
  const StartingMessage: string := "Starting link checking..."
  const NoLinksMessage: string := "There are no links to check."

  /** PHP's `empty()` on a string: the empty string and "0" are empty. */
  predicate PhpEmpty(s: string)
  {
    s == "" || s == "0"
  }

  /**
   * PHP's `mb_strpos(hay, needle)`: the offset of the first occurrence of
   * `needle` at or after `from`, or None where PHP answers FALSE.
   */
  function StrPos(hay: string, needle: string, from: nat): (r: Option<nat>)
    requires from <= |hay|
    ensures r.Some? ==> from <= r.value && OccursAt(needle, hay, r.value)
    ensures r.Some? ==> forall j :: from <= j < r.value ==> !OccursAt(needle, hay, j)
    ensures r.None? ==> forall j :: from <= j <= |hay| ==> !OccursAt(needle, hay, j)
    decreases |hay| - from
  {
    if OccursAt(needle, hay, from) then Some(from)
    else if from == |hay| then None
    else StrPos(hay, needle, from + 1)
  }

  /** `mb_strpos(s, needle) === 0` holds exactly when `s` starts with `needle`. */
  lemma StrPosZero(s: string, needle: string)
    ensures StrPos(s, needle, 0) == Some(0) <==> needle <= s
  {
    if needle <= s {
      assert s[0..|needle|] == needle;
    }
  }

  /** The base URL: the `uri` option verbatim, or the configured scheme followed by the base path. */
  function BaseUrl(uri: Option<string>, config: Config): string
  {
    match uri
    case Some(u) => u
    case None => config.defaultUrlScheme + config.basePath
  }

  /** `analyzeCheckParams`: the base URL when it is usable, else the message of the exception. */
  function AnalyzeCheckParams(uri: Option<string>, config: Config): (r: Result<string>)
    ensures r.Ok? ==> !PhpEmpty(r.value) && "http" <= r.value
    ensures r.Err? ==> r.message in {NoBaseUrlMessage, NotHttpMessage}
  {
    var baseUrl := BaseUrl(uri, config);
    if PhpEmpty(baseUrl) then Err(NoBaseUrlMessage)
    else if StrPos(baseUrl, "http", 0) != Some(0) then Err(NotHttpMessage)
    else
      StrPosZero(baseUrl, "http");
      Ok(baseUrl)
  }

  /** With a `uri` option the settings are not consulted: the option is the base URL, whatever they hold. */
  lemma UriOptionVerbatim(u: string, config1: Config, config2: Config)
    ensures AnalyzeCheckParams(Some(u), config1) == AnalyzeCheckParams(Some(u), config2)
    ensures AnalyzeCheckParams(Some(u), config1).Ok? ==> AnalyzeCheckParams(Some(u), config1).value == u
  {
  }

  /** Without a `uri` option an accepted base URL is the scheme setting followed by the base path setting. */
  lemma DefaultBaseUrl(config: Config)
    ensures AnalyzeCheckParams(None, config).Ok?
        ==> AnalyzeCheckParams(None, config).value == config.defaultUrlScheme + config.basePath
  {
  }

  /** An empty base URL, "" or "0", is reported as unconfigured, before the scheme is looked at. */
  lemma EmptyBaseUrlRejected(uri: Option<string>, config: Config)
    requires PhpEmpty(BaseUrl(uri, config))
    ensures AnalyzeCheckParams(uri, config) == Err(NoBaseUrlMessage)
  {
  }

  /**
   * A non-empty base URL is accepted exactly when it begins with the four
   * letters `http`: a prefix test, so `http://`, `https://` and also
   * `httpfoo` pass, and `ftp://` or ` http://` do not.
   */
  lemma HttpPrefixDecides(uri: Option<string>, config: Config)
    requires !PhpEmpty(BaseUrl(uri, config))
    ensures AnalyzeCheckParams(uri, config).Ok? <==> "http" <= BaseUrl(uri, config)
    ensures AnalyzeCheckParams(uri, config).Err? ==> AnalyzeCheckParams(uri, config).message == NotHttpMessage
  {
    StrPosZero(BaseUrl(uri, config), "http");
  }

  /** Both web schemes pass the validation, whatever follows them. */
  lemma WebSchemesAccepted(rest: string)
    ensures AnalyzeCheckParams(Some("http://" + rest), Config("", "")) == Ok("http://" + rest)
    ensures AnalyzeCheckParams(Some("https://" + rest), Config("", "")) == Ok("https://" + rest)
  {
    HttpPrefixDecides(Some("http://" + rest), Config("", ""));
    HttpPrefixDecides(Some("https://" + rest), Config("", ""));
  }

  /** `analyze`: validate, then start the extraction batch when there is content, else warn. */
  function AnalyzeRun(uri: Option<string>, config: Config, totalEntities: nat): (r: Result<seq<Call>>)
    ensures r.Err? <==> AnalyzeCheckParams(uri, config).Err?
    ensures r.Ok? ==> (ExtractorBatch in r.value <==> totalEntities > 0)
    ensures r.Ok? ==> (BatchProcess in r.value <==> totalEntities > 0)
    ensures r.Ok? ==> RemoveAllBatch !in r.value
  {
    var v := AnalyzeCheckParams(uri, config);
    if v.Err? then Err(v.message)
    else if totalEntities > 0 then Ok([ExtractorBatch, BatchProcess])
    else Ok([Warning(NoContentMessage)])
  }

  /** `clear`: validate, then remove every link and start the extraction batch when there is content, else warn. */
  function ClearRun(uri: Option<string>, config: Config, totalEntities: nat): (r: Result<seq<Call>>)
    ensures r.Err? <==> AnalyzeCheckParams(uri, config).Err?
    ensures r.Ok? ==> (RemoveAllBatch in r.value <==> totalEntities > 0)
    ensures r.Ok? ==> (ExtractorBatch in r.value <==> totalEntities > 0)
  {
    var v := AnalyzeCheckParams(uri, config);
    if v.Err? then Err(v.message)
    else if totalEntities > 0 then Ok([RemoveAllBatch, ExtractorBatch, BatchProcess])
    else Ok([Warning(NoContentMessage)])
  }

  /** `check`: announce the run, then start the checker batch unless there are no links. */
  function CheckRun(totalLinks: nat): (r: seq<Call>)
    ensures r != [] && r[0] == Info(StartingMessage)
    ensures CheckerBatch in r <==> totalLinks > 0
    ensures BatchProcess in r <==> totalLinks > 0
    ensures ExtractorBatch !in r && RemoveAllBatch !in r
  {
    if totalLinks == 0 then [Info(StartingMessage), Notice(NoLinksMessage)]
    else [Info(StartingMessage), CheckerBatch, BatchProcess]
  }

  /** A failed validation stops `analyze` and `clear` with its message, before any call is made. */
  lemma ValidationFirst(uri: Option<string>, config: Config, totalEntities: nat)
    requires AnalyzeCheckParams(uri, config).Err?
    ensures AnalyzeRun(uri, config, totalEntities) == Err(AnalyzeCheckParams(uri, config).message)
    ensures ClearRun(uri, config, totalEntities) == Err(AnalyzeCheckParams(uri, config).message)
  {
  }

  /** With nothing to process, `analyze` and `clear` only log the warning. */
  lemma NoContentOnlyWarns(uri: Option<string>, config: Config)
    requires AnalyzeCheckParams(uri, config).Ok?
    ensures AnalyzeRun(uri, config, 0) == Ok([Warning(NoContentMessage)])
    ensures ClearRun(uri, config, 0) == Ok([Warning(NoContentMessage)])
  {
  }

  /**
   * `clear` removes the old links before it queues the extraction, and the
   * batch runner comes last; apart from the removal it does what `analyze` does.
   */
  lemma ClearRemovesFirst(uri: Option<string>, config: Config, totalEntities: nat)
    requires ClearRun(uri, config, totalEntities).Ok? && totalEntities > 0
    ensures var calls := ClearRun(uri, config, totalEntities).value;
      exists i, j :: 0 <= i < j < |calls| && calls[i] == RemoveAllBatch && calls[j] == ExtractorBatch
    ensures var calls := ClearRun(uri, config, totalEntities).value;
      calls[|calls| - 1] == BatchProcess
    ensures ClearRun(uri, config, totalEntities).value == [RemoveAllBatch] + AnalyzeRun(uri, config, totalEntities).value
  {
    var calls := ClearRun(uri, config, totalEntities).value;
    assert calls[0] == RemoveAllBatch && calls[1] == ExtractorBatch;
  }

  /** The commands, with the configuration they read and the log of the calls they have made. */
  class LinkCheckerCommands {
    const config: Config
    var log: seq<Call>

    constructor(config: Config)
      ensures this.config == config && log == []
    {
      this.config := config;
      log := [];
    }

    /** `linkchecker:analyze` with the `uri` option and the extractor's entity count. */
    method Analyze(uri: Option<string>, totalEntities: nat) returns (r: Result<()>)
      modifies this
      ensures r.Err? <==> AnalyzeRun(uri, config, totalEntities).Err?
      ensures r.Err? ==> r.message == AnalyzeRun(uri, config, totalEntities).message && log == old(log)
      ensures r.Ok? ==> log == old(log) + AnalyzeRun(uri, config, totalEntities).value
    {
      var v := AnalyzeCheckParams(uri, config);
      if v.Err? {
        return Err(v.message);
      }
      if totalEntities > 0 {
        log := log + [ExtractorBatch];
        log := log + [BatchProcess];
      } else {
        log := log + [Warning(NoContentMessage)];
      }
      return Ok(());
    }

    /** `linkchecker:clear` with the `uri` option and the extractor's entity count. */
    method Clear(uri: Option<string>, totalEntities: nat) returns (r: Result<()>)
      modifies this
      ensures r.Err? <==> ClearRun(uri, config, totalEntities).Err?
      ensures r.Err? ==> r.message == ClearRun(uri, config, totalEntities).message && log == old(log)
      ensures r.Ok? ==> log == old(log) + ClearRun(uri, config, totalEntities).value
    {
      var v := AnalyzeCheckParams(uri, config);
      if v.Err? {
        return Err(v.message);
      }
      if totalEntities > 0 {
        log := log + [RemoveAllBatch];
        log := log + [ExtractorBatch];
        log := log + [BatchProcess];
      } else {
        log := log + [Warning(NoContentMessage)];
      }
      return Ok(());
    }

    /** `linkchecker:check` with the checker's link count. */
    method Check(totalLinks: nat)
      modifies this
      ensures log == old(log) + CheckRun(totalLinks)
    {
      log := log + [Info(StartingMessage)];
      if totalLinks == 0 {
        log := log + [Notice(NoLinksMessage)];
        return;
      }
      log := log + [CheckerBatch];
      log := log + [BatchProcess];
    }
  }
}
