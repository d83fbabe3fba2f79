# ddg: the Instant Answers query builder and the icon dimension rule

This project models two pieces of `ddg`, a Rust client for the DuckDuckGo
Instant Answers API, and proves their properties in Dafny.

- **The query builder** (`query.dfy`, module `Query`). `Query` is a consuming,
  fluent builder. It holds the search text, the application name and two
  flags, `no_html` and `skip_disambig`. `New` sets the texts and leaves both
  flags off. The two setters only ever turn their flag on. The Rust setters
  take the builder by value and hand it back, so the model makes each setter
  a function from the old builder to the new one (`this.(noHtml := true)`).
  `IntoUrl` assembles the request string step by step, as `into_url` does:
  the formatted base first, then `&no_html=1` and `&skip_disambig=1`, each
  only when its flag is on. The lemmas cover the setters, any fluent chain of
  them (`Chain`), and the layout, length and flag suffix of the string. The
  client's `Error` enum and its two `From` conversions are modelled too.
- **The "u64 or empty string" rule** (`icon.dfy`, module `Icon`). The icon
  record's `Height` and `Width` pass through a visitor that overrides only
  `visit_u64` and `visit_str`. An integer is accepted unchanged. The empty
  string means 0. A non-empty string is an invalid value. Every other kind
  of JSON value falls to serde's default and is an invalid type. `DecodeIcon`
  applies the rule to both dimensions and requires `URL` to be a string,
  or null, which serde of this code's era reads as the empty string.
- `json.dfy` (module `Json`) holds the parsed JSON value that a deserializer
  hands to a visitor, the visitor's errors and a `Result` type.

Three facts about the code shape the model:

- The query and the application name are not percent-encoded: `format!`
  interpolates them raw (src/query.rs:93-94). The model inserts them
  verbatim, and `Query.UrlNotInjective` shows what follows: two different
  builders give the same request string.
- `Error` has exactly two variants, `Http` and `SerdeJson`
  (src/query.rs:71-77).
- A `null` dimension is an invalid type, not 0: the visitor overrides only
  `visit_u64` and `visit_str`, so null falls to serde's default rejection
  (src/lib/ddg_response/icon.rs:16-34).

## Model

| member | source | states |
|---|---|---|
| `Query.Default` | src/query.rs:16 | the derived default has empty texts and both flags off |
| `Query.New` | src/query.rs:36-38 | the builder holds the given query and name verbatim, and both flags are off (the derived default) |
| `Query.Query.NoHtml` | src/query.rs:51-54 | the result has `no_html` on; query, name and `skip_disambig` are unchanged |
| `Query.Query.SkipDisambig` | src/query.rs:57-60 | the result has `skip_disambig` on; query, name and `no_html` are unchanged |
| `Query.Query.Call` | src/query.rs:51-60 | one setter call turns on exactly its own flag and keeps the texts |
| `Query.ChainSetsCalledFlags` | src/query.rs:51-60 | after any fluent chain of setters, a flag is on iff it was on before or its setter occurs in the chain; the texts never change |
| `Query.ChainNeverClearsAFlag` | src/query.rs:51-60 | no chain of setters turns a flag off |
| `Query.ChainOrderIrrelevant` | src/query.rs:51-60 | two chains that call the same setters, in any order and any number of times, give equal builders |
| `Query.NoHtmlIdempotent` | src/query.rs:51-54 | calling `no_html` twice equals calling it once |
| `Query.SkipDisambigIdempotent` | src/query.rs:57-60 | calling `skip_disambig` twice equals calling it once |
| `Query.SettersCommute` | src/query.rs:51-60 | `no_html` then `skip_disambig` equals `skip_disambig` then `no_html` |
| `Query.BaseUrl` | src/query.rs:93-94 | the formatted base is 59 characters plus the lengths of the query and the name |
| `Query.FlagParams` | src/query.rs:96-102 | the flag suffix adds 10 characters when `no_html` is on and 16 when `skip_disambig` is on |
| `Query.IntoUrl` | src/query.rs:92-103 | the assembled string is the request string `RequestUrl`: the base, then the flag parameters; its length is base + 10 per `no_html` + 16 per `skip_disambig` |
| `Query.UrlLayout` | src/query.rs:93-102 | the string is the endpoint, the query verbatim, `&t=`, the name verbatim, `&format=json&no_redirect=1`, then the flag suffix, at the positions these lengths give |
| `Query.FourFlagSuffixes` | src/query.rs:96-102 | the flag suffix is one of exactly four strings |
| `Query.FlagParamsIff` | src/query.rs:96-102 | the suffix starts with `&no_html=1` iff `no_html` is on, and ends with `&skip_disambig=1` iff `skip_disambig` is on |
| `Query.UrlDeterminesFlags` | src/query.rs:93-102 | for the same query and name, two builders give the same string iff they are equal |
| `Query.FlagOrderFixed` | src/query.rs:96-102 | whichever order the setters were called in, `no_html=1` comes before `skip_disambig=1` |
| `Query.UrlNotInjective` | src/query.rs:93-94 | the texts are not escaped, so two different builders can produce the same string |
| `Query.FromHttpError` | src/query.rs:79-83 | an HTTP error converts to `Error::Http` carrying that error |
| `Query.FromJsonError` | src/query.rs:85-89 | a JSON error converts to `Error::SerdeJson` carrying that error |
| `Query.ConversionsPartitionErrors` | src/query.rs:71-89 | the conversions are injective, never coincide, and every error comes from exactly one of them |
| `Icon.VisitU64` | src/lib/ddg_response/icon.rs:19-23 | an unsigned integer is accepted unchanged |
| `Icon.VisitStr` | src/lib/ddg_response/icon.rs:25-33 | a string is accepted iff it is empty, and then it gives 0; otherwise the error is "got a non-empty string" |
| `Icon.DeserializeU64OrEmptyString` | src/lib/ddg_response/icon.rs:16-40 | the result is a number iff the value is an unsigned integer or the empty string; integers map to themselves, "" to 0, other strings to an invalid value, every other kind to an invalid type |
| `Icon.DeserializeString` | src/lib/ddg_response/icon.rs:7-8 | the URL field accepts a string, verbatim, or null as the empty string; every other kind is an invalid type |
| `Icon.Field` | src/lib/ddg_response/icon.rs:3-11 | a field is found iff its key is present; otherwise it is a missing-field error |
| `Icon.DecodeIcon` | src/lib/ddg_response/icon.rs:3-11 | an icon decodes iff the value is an object whose Height and Width pass the u64-or-empty rule and whose URL is a string or null; the decoded fields are those values, the URL verbatim (null giving "") |
| `Icon.IntegerDecodesUnchanged` | src/lib/ddg_response/icon.rs:19-23 | every u64 `n` decodes to `n` |
| `Icon.EmptyStringDecodesToZero` | src/lib/ddg_response/icon.rs:28-29 | "" decodes to 0 |
| `Icon.NonEmptyStringRejected` | src/lib/ddg_response/icon.rs:30-31 | every non-empty string is an error, numeric-looking ones included |
| `Icon.OtherKindsRejected` | src/lib/ddg_response/icon.rs:16-34 | null, booleans, negative and fractional numbers, arrays and objects are invalid types |
| `Icon.DecodedFrom` | src/lib/ddg_response/icon.rs:19-31 | `n` is the result exactly for the integer `n`, and also for "" when `n` is 0 |
| `Icon.ZeroAndEmptyStringCollide` | src/lib/ddg_response/icon.rs:19-29 | the rule is not injective: integer 0 and "" both give 0 |
| `Icon.IconRoundTrip` | src/lib/ddg_response/icon.rs:3-11 | an icon sent with integer dimensions decodes back to itself |
| `Icon.UnknownDimensionsDecodeToZero` | src/lib/ddg_response/icon.rs:5-10 | an icon whose dimensions are both "" decodes with height and width 0 and the URL verbatim |
| `Icon.DimensionsDecodedAlike` | src/lib/ddg_response/icon.rs:5-10 | Height and Width use the same rule: swapping their JSON values swaps the decoded dimensions and keeps the outcome |
| `Icon.NullUrlDecodesToEmpty` | src/lib/ddg_response/icon.rs:7-8 | an icon whose URL is null decodes with the empty URL and its dimensions unchanged |
| `Icon.OtherKeysIgnored` | src/lib/ddg_response/icon.rs:3-11 | keys other than Height, URL and Width do not change the outcome |

## Left out

- `Query::execute` (src/query.rs:62-66): it performs the HTTP GET and runs the JSON parser. This is network I/O and foreign code.
- `Url::parse` (src/query.rs:104): a function of the URL library. `Query.IntoUrl` returns the assembled string, and the model does not say whether parsing it succeeds.
- Percent-encoding: the source does not encode the texts, so the model has no encoder and no property about parsing the URL back.
- The choice between the reqwest and hyper types (src/query.rs:3-9): build configuration only. `HttpError` and `JsonError` stand for the libraries' error types and carry only a description.
- The tests (src/query.rs:108-130): they call the live service.
- src/lib.rs holds only module declarations and re-exports. The `response` module (`Response`, `RelatedTopic`, `Type`) is not part of this model.
- serde's `Deserializer` and `Visitor` machinery (src/lib/ddg_response/icon.rs:36-40) is modelled only as the choice of visit method by kind of value. The JSON parser's own behaviour is not modelled: a `Json.Value` is given as input, and a non-integer number is kept as its text because floating point is out of scope.
- `Icon.DeserializeString`: the rule for the URL field comes from serde's own `String` deserializer of the 0.8 era (the visitor signatures at src/lib/ddg_response/icon.rs:19-39 date the code), which is not part of this model. The model takes that a JSON string is used verbatim, null gives "", and everything else is the wrong type.
- `Icon.DecodeIcon`: a JSON object is modelled as a map, so duplicate keys in the document are not modelled. serde's derived struct deserializer also accepts the three fields as a positional array; that generated code is not part of this model, and the model rejects an array. When several fields are bad, the source reports the first one in document order; the model checks Height, URL and Width in declaration order. Only success, failure and the decoded values are claimed.
