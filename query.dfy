/** The fluent builder of an Instant Answers request, the request string it
    assembles, and the client's error type. */
module Query {

  /** The builder. The texts are set once by `New`; the two flags start false
      and the setters only ever turn them on. The Rust builder takes and
      returns itself by value, so each setter is a function from the old
      builder to the new one. */
  datatype Query = Query(name: string, noHtml: bool, query: string, skipDisambig: bool)
  {
    /** Ask the service to strip HTML markup from the answer texts. */
    function NoHtml(): (r: Query)
      ensures r.noHtml
      ensures r.query == query && r.name == name && r.skipDisambig == skipDisambig
    {
      this.(noHtml := true)
    }

    /** Ask the service to skip disambiguation answers. */
    function SkipDisambig(): (r: Query)
      ensures r.skipDisambig
      ensures r.query == query && r.name == name && r.noHtml == noHtml
    {
      this.(skipDisambig := true)
    }

    /** One setter call in a fluent chain. */
    function Call(setter: FlagSetter): (r: Query)
      ensures r.query == query && r.name == name
      ensures r.noHtml == (noHtml || setter == SetNoHtml)
      ensures r.skipDisambig == (skipDisambig || setter == SetSkipDisambig)
    {
      match setter
      case SetNoHtml => NoHtml()
      case SetSkipDisambig => SkipDisambig()
    }
  }

  /** The builder's derived default: empty texts, both flags off. */
  function Default(): (d: Query)
    ensures d.query == "" && d.name == ""
    ensures !d.noHtml && !d.skipDisambig
  {
    Query("", false, "", false)
  }

  /** A builder for `query` on behalf of the application `name`; the flags
      keep their default. */
  function New(query: string, name: string): (q: Query)
    ensures q.query == query && q.name == name
    ensures !q.noHtml && !q.skipDisambig
  {
    Default().(query := query, name := name)
  }

  /** The two flag-setting calls a fluent chain is made of. */
  datatype FlagSetter = SetNoHtml | SetSkipDisambig

  /** The builder after the calls `calls`, made left to right. */
  function Chain(q: Query, calls: seq<FlagSetter>): Query
    decreases |calls|
  {
    if calls == [] then q else Chain(q.Call(calls[0]), calls[1..])
  }

  /** A flag is on after a chain exactly when it was on before or its setter
      occurs in the chain; the texts never change. */
  lemma {:induction false} ChainSetsCalledFlags(q: Query, calls: seq<FlagSetter>)
    ensures Chain(q, calls)
            == q.(noHtml := q.noHtml || SetNoHtml in calls,
                  skipDisambig := q.skipDisambig || SetSkipDisambig in calls)
    decreases |calls|
  {
    if calls != [] {
      ChainSetsCalledFlags(q.Call(calls[0]), calls[1..]);
      assert forall c :: c in calls <==> c == calls[0] || c in calls[1..];
    }
  }

  /** No chain of setters ever clears a flag. */
  lemma ChainNeverClearsAFlag(q: Query, calls: seq<FlagSetter>)
    ensures q.noHtml ==> Chain(q, calls).noHtml
    ensures q.skipDisambig ==> Chain(q, calls).skipDisambig
  {
    ChainSetsCalledFlags(q, calls);
  }

  /** Only which setters were called matters, not their order or repetition. */
  lemma ChainOrderIrrelevant(q: Query, a: seq<FlagSetter>, b: seq<FlagSetter>)
    requires forall c :: c in a <==> c in b
    ensures Chain(q, a) == Chain(q, b)
  {
    ChainSetsCalledFlags(q, a);
    ChainSetsCalledFlags(q, b);
  }

  /** Calling `NoHtml` a second time changes nothing. */
  lemma NoHtmlIdempotent(q: Query)
    ensures q.NoHtml().NoHtml() == q.NoHtml()
  {
  }

  /** Calling `SkipDisambig` a second time changes nothing. */
  lemma SkipDisambigIdempotent(q: Query)
    ensures q.SkipDisambig().SkipDisambig() == q.SkipDisambig()
  {
  }

  /** The two setters commute. */
  lemma SettersCommute(q: Query)
    ensures q.NoHtml().SkipDisambig() == q.SkipDisambig().NoHtml()
  {
  }

  // ---------------------------------------------------------------------------
  // The request string

  const Endpoint := "https://api.duckduckgo.com/?q="
  const AppNameParam := "&t="
  const FixedParams := "&format=json&no_redirect=1"
  const NoHtmlParam := "&no_html=1"
  const SkipDisambigParam := "&skip_disambig=1"

  /** The formatted start of the request: the query and the application name
      are inserted as they are, without percent-encoding. */
  function BaseUrl(query: string, name: string): (s: string)
    ensures |s| == 59 + |query| + |name|
  {
    Endpoint + query + AppNameParam + name + FixedParams
  }

  /** The flag parameters, `no_html` before `skip_disambig`, each present only
      when its flag is on. */
  function FlagParams(noHtml: bool, skipDisambig: bool): (s: string)
    ensures |s| == (if noHtml then 10 else 0) + (if skipDisambig then 16 else 0)
  {
    (if noHtml then NoHtmlParam else "") + (if skipDisambig then SkipDisambigParam else "")
  }

  /** The request string the builder turns into a URL. */
  function RequestUrl(q: Query): string {
    BaseUrl(q.query, q.name) + FlagParams(q.noHtml, q.skipDisambig)
  }

  /** Assemble the request string: format the fixed parameters around the two
      texts, then append each flag parameter whose flag is on. Parsing the
      string into a URL is left to the URL library. */
  method IntoUrl(q: Query) returns (url: string)
    ensures url == RequestUrl(q)
    ensures |url| == 59 + |q.query| + |q.name|
                     + (if q.noHtml then 10 else 0) + (if q.skipDisambig then 16 else 0)
  {
    url := BaseUrl(q.query, q.name);
    if q.noHtml {
      url := url + NoHtmlParam;
    }
    if q.skipDisambig {
      url := url + SkipDisambigParam;
    }
  }

  /** The request string, piece by piece: the endpoint, the query verbatim,
      the application name verbatim, the fixed parameters, then the flags. */
  lemma UrlLayout(q: Query)
    ensures var u, i := RequestUrl(q), |Endpoint|;
      var j := i + |q.query|;
      var k := j + |AppNameParam|;
      var l := k + |q.name|;
      var m := l + |FixedParams|;
      |u| >= m
      && u[..i] == Endpoint
      && u[i..j] == q.query
      && u[j..k] == AppNameParam
      && u[k..l] == q.name
      && u[l..m] == FixedParams
      && u[m..] == FlagParams(q.noHtml, q.skipDisambig)
  {
  }

  /** There are exactly four possible flag suffixes. */
  lemma FourFlagSuffixes(noHtml: bool, skipDisambig: bool)
    ensures FlagParams(noHtml, skipDisambig) in
      {"", "&no_html=1", "&skip_disambig=1", "&no_html=1&skip_disambig=1"}
  {
    var s := FlagParams(noHtml, skipDisambig);
    if noHtml && skipDisambig {
      assert s == "&no_html=1&skip_disambig=1";
    } else if noHtml {
      assert s == "&no_html=1";
    } else if skipDisambig {
      assert s == "&skip_disambig=1";
    } else {
      assert s == "";
    }
  }

  /** `no_html=1` leads the flag suffix exactly when `noHtml` is set, and
      `skip_disambig=1` ends it exactly when `skipDisambig` is set. */
  lemma FlagParamsIff(noHtml: bool, skipDisambig: bool)
    ensures var s := FlagParams(noHtml, skipDisambig);
      (noHtml <==> |s| >= |NoHtmlParam| && s[..|NoHtmlParam|] == NoHtmlParam)
      && (skipDisambig <==> |s| >= |SkipDisambigParam| && s[|s| - |SkipDisambigParam|..] == SkipDisambigParam)
  {
    var s := FlagParams(noHtml, skipDisambig);
    if !noHtml && skipDisambig {
      assert s[1] == 's';
    }
    if noHtml && !skipDisambig {
      assert s[1] == 'n';
    }
  }

  /** For fixed texts the request string determines the flags: two builders
      with the same query and name give the same string exactly when they are
      the same builder. */
  lemma UrlDeterminesFlags(q1: Query, q2: Query)
    requires q1.query == q2.query && q1.name == q2.name
    ensures RequestUrl(q1) == RequestUrl(q2) <==> q1 == q2
  {
  }

  /** Whatever order the setters were called in, the flags appear as
      `no_html` then `skip_disambig`. */
  lemma FlagOrderFixed(q: Query)
    ensures RequestUrl(q.SkipDisambig().NoHtml())
            == RequestUrl(q.NoHtml().SkipDisambig())
            == BaseUrl(q.query, q.name) + NoHtmlParam + SkipDisambigParam
  {
  }

  /** Because the texts are not escaped, the request string does not determine
      the query: an `&t=` inside the query shifts what reads as the name. */
  lemma UrlNotInjective()
    ensures New("a&t=b", "c") != New("a", "b&t=c")
    ensures RequestUrl(New("a&t=b", "c")) == RequestUrl(New("a", "b&t=c"))
  {
  }

  // ---------------------------------------------------------------------------
  // Errors

  /** The HTTP library's error (the transport, or a URL it could not parse). */
  datatype HttpError = HttpError(description: string)

  /** The JSON library's error. */
  datatype JsonError = JsonError(description: string)

  /** The client's error: either the HTTP side or the JSON side failed. */
  datatype Error = Http(http: HttpError) | SerdeJson(json: JsonError)

  /** Convert an HTTP error, as the `?` operator does. */
  function FromHttpError(e: HttpError): (r: Error)
    ensures r.Http? && r.http == e
  {
    Http(e)
  }

  /** Convert a JSON error, as the `?` operator does. */
  function FromJsonError(e: JsonError): (r: Error)
    ensures r.SerdeJson? && r.json == e
  {
    SerdeJson(e)
  }

  /** The two conversions lose nothing, never produce the same error, and
      between them produce every error. */
  lemma ConversionsPartitionErrors(h1: HttpError, h2: HttpError, j1: JsonError, j2: JsonError, e: Error)
    ensures FromHttpError(h1) == FromHttpError(h2) ==> h1 == h2
    ensures FromJsonError(j1) == FromJsonError(j2) ==> j1 == j2
    ensures FromHttpError(h1) != FromJsonError(j1)
    ensures (e.Http? && e == FromHttpError(e.http)) || (e.SerdeJson? && e == FromJsonError(e.json))
  {
  }
}
