# openapi2siege, modelled in Dafny

openapi2siege turns an OpenAPI 3 document into a load-test plan for Siege.
It is meant to produce two things per media type of the request bodies.
The first is a URL file: one line per request, the URL alone for GET and
`URL METHOD PAYLOAD` otherwise. The second is a `.siegerc` configuration
file. As written it produces neither. No request entry is ever given a
media type, `MediaTypes()` leaves out the empty one, and so the loop that
writes the files runs zero times (see "## Findings"). This project models
the conversion as written, and the write step both as written and with a
fallback to the configured file names. It proves what the program
promises:

- `payloads.dfy`, module `Payloads`: the fake-payload synthesizer. It
  covers the precedence chain `default`, `example`, `examples`, `oneOf`,
  `anyOf`, `allOf`, then the type tag, then a structural guess. It also
  covers the five-attempt rebuild loop and the JSON serialization of a
  payload.
- `v3.dfy`, module `V3`: the operation resolver. It covers:
  - parameter resolution and placement;
  - server-variable substitution and server choice;
  - payload collection;
  - the fan-out of one operation into one request per payload;
  - the walk over the sorted paths and the fixed order of methods;
  - the security schemes.
- `url_list.dfy`, module `UrlList`: the request list. It covers
  `mapSlice`, `uniqueSlice`, the line format, the per-media-type
  selection and `MediaTypes`.
- `siege_config.dfy`, module `Siege`:
  - the `SiegeConfig` class with `NewSiegeConfig` as its constructor;
  - the tag parser and the value formatters;
  - the `key = value` emitter over an explicit table of the 48 struct
    fields in declaration order.
- `openapi2siege.dfy`, module `FileNaming`: `prefixFilename` with
  `path.Split`/`path.Join`/`path.Clean`, the media-type prefix, the
  "more than one media type" switch, and the loop that writes one URL file
  and one configuration per media type.
- `strings.dfy`, modules `GoStrings` and `GoSort`: the Go library functions
  the code uses. These are `strings.Index`, `Split`, `SplitN`, `Join`,
  `ReplaceAll`, decimal formatting, and `sort.Strings` as insertion into
  byte-wise lexicographic order.
- `base.dfy`, module `Base`: `Option`, `Result` and the error kinds. Go
  runtime panics are modelled as explicit error outcomes:
  `IndexOutOfRange` and `NilDereference`.

Every loop of the source that can visit more than one element is a
`method` with a `while` loop. Each is proved to return what a recursive
specification function computes. Four loops are modelled otherwise:
- The loops that return or break at their first element are
  conditionals on that element. These are the `examples` loop of
  payloads.go:52, the type-tag loop of payloads.go:85 and the parameter
  `examples` loop of v3.go:331.
- The key copy of payloads.go:76-78 is a map union.

The properties the source promises are lemmas about those functions. The
configuration object is a class whose methods state its new fields.

## Model

| member | source | states |
|---|---|---|
| Payloads.CreateFakePayload | payloads.go:12-35 | the bounded rebuild loop returns exactly the synthesis `Synthesize` specifies (build error returned at once, success or non-retryable error stops the loop) |
| Payloads.CreateFakePayloadFromSchema | payloads.go:37-128 | the precedence chain returns exactly `SynthesizeSchema`, including the in-place `allOf` merge loop and the type loop |
| Payloads.IterateObject | payloads.go:146-159 | filling the object in a loop gives `ObjectPayload`: every property synthesized, first failure returned |
| Payloads.IterateArray | payloads.go:161-176 | the array branch returns `ArrayPayload` |
| Payloads.PayloadFromType | payloads.go:130-144 | an error exactly when the media type is not `application/json`; a string holding `{` or `[` passes through unchanged, anything else is the JSON encoding |
| Payloads.Precedence | payloads.go:44-62 | `default` beats `example`, which beats the first `examples` entry, each returned verbatim; then the first `oneOf` member, then the first `anyOf` member |
| Payloads.AllOfMerge | payloads.go:64-83 | when every `allOf` member yields an object, the merge is the union of their maps with later members overwriting earlier keys |
| Payloads.AllOfPayload | payloads.go:64-85 | with nothing earlier in the precedence chain and every `allOf` member an object, a non-empty union is the payload and an empty one falls through to the type dispatch |
| Payloads.MergeAllOfFrom | payloads.go:65-79 | the merge loop from member `k` with the union of the first `k` maps yields the union of all |
| Payloads.UnionAllLastWins | payloads.go:76-78 | a key takes the value of the last member that has it |
| Payloads.UnionAllKeys | payloads.go:76-78 | the merged keys are exactly the keys of some member |
| Payloads.AllOfNonObjectFails | payloads.go:71-74 | the first `allOf` member that yields a non-object aborts the merge with an error |
| Payloads.PlainSchemaConforms | payloads.go:85-118 | only the first type tag decides; boolean gives `true`, string `"test"`, null nil, number and integer zero, and an unknown tag is an error |
| Payloads.UntypedSchema | payloads.go:120-127 | without a type, properties give an object, `items` an array, and otherwise the retryable `try-rebuild` error |
| Payloads.ObjectKeysArePropertyNames | payloads.go:146-159 | a synthesized object's keys are exactly the property names |
| Payloads.ObjectFieldsKeys | payloads.go:149-156 | the object loop from property `k` adds exactly the remaining property names |
| Payloads.ArrayShape | payloads.go:161-176 | `items: true` gives `[]`, `items: false` an error, and a schema an array of exactly one synthesized element, failing exactly when that element fails |
| Payloads.RetryableNeverEscapes | payloads.go:15-34 | the retry loop never returns the `try-rebuild` error |
| Payloads.ExhaustedRetriesYieldNull | payloads.go:15-34 | five builds that all end in `try-rebuild` give a nil value and no error |
| Payloads.FixedRetryableYieldsNull | payloads.go:15-34 | a reference that always builds the same retryable schema yields nil with no error |
| Payloads.OnlyFirstAttemptsMatter | payloads.go:15 | the outcome depends only on the first five builds |
| Payloads.FirstAttemptFailure | payloads.go:16-31 | a build error, or a non-retryable error on the first build, is returned at once |
| Payloads.PlainStringIsTest | payloads.go:113-114 | a plain string schema synthesizes `"test"` |
| Payloads.BuildAt | payloads.go:16 | the `i`-th build of a reference is structurally smaller than the reference (recursion into it terminates) |
| V3.InterfaceToString | v3.go:434-444 | a string is itself, a Stringer is its `String()` text, anything else is `""` |
| V3.ResolveParam | v3.go:322-346 | the error case is exactly a required, unconfigured parameter with no example, no examples and no empty value allowed; no value exactly for an unconfigured optional parameter |
| V3.GetV3PathParams | v3.go:315-364 | the parameter loop returns `ParamsFrom`: the first unresolvable parameter aborts, every other one is placed |
| V3.ParamsFailIff | v3.go:322-339 | the loop fails if and only if some parameter is unresolvable, and the error names such a parameter |
| V3.ParamsPlacement | v3.go:346-359 | the query pairs and the cookies are exactly those of the query and cookie parameters, in parameter order |
| V3.PathPlacement | v3.go:348-349 | a path parameter replaces every `{name}` of the path and leaves query and cookies alone |
| V3.GetV3PathPayloads | v3.go:366-432 | the media type loop returns `PathPayloads` |
| V3.AddMediaPayloads | v3.go:372-422 | the body of the media type loop, including the examples loop, returns `MediaPayloads` for one media type |
| V3.ExamplesBeforeExample | v3.go:377-418 | for a required, unconfigured JSON body the `examples` payloads come first and the `example` payload after them; synthesis only when there are neither |
| V3.ConfiguredPayload | v3.go:373-421 | a configured payload is used verbatim; an empty one is dropped and a required body with nothing collected is an error |
| V3.ExamplePayloadsJson | v3.go:386-397 | for JSON, the examples loop appends every example's encoding, in order |
| V3.ExamplePayloadsGrow | v3.go:386-397 | the examples loop only appends |
| V3.MediaPayloadsGrow | v3.go:372-422 | a media type only appends, and a required body has at least one payload afterwards |
| V3.PayloadsFromGrow | v3.go:372-423 | the media type loop only appends, and a required body with content has at least one payload |
| V3.PathPayloadsNonEmpty | v3.go:425-431 | the result is never empty: with nothing collected it is the single payload `""` |
| V3.VariableValue | v3.go:284-293 | a server variable takes its configured value unless that is empty or unset, and its default otherwise |
| V3.GetV3BaseUrl | v3.go:280-313 | the server loop returns `BaseUrlFrom` |
| V3.ChosenServer | v3.go:281-309 | a successful choice is the first selectable server (sole server, matching description, or `useFirst`), with its variables substituted; every server before it substituted fine and was not selectable |
| V3.NoSelectableServer | v3.go:307-312 | when no server is selectable the result is an error: ambiguity, or a missing variable on the way |
| V3.SubstituteFailure | v3.go:283-299 | substitution fails if and only if some variable has neither a configured value nor a default |
| V3.OperationServersFirst | v3.go:198-205 | non-empty operation servers replace the document's base URL |
| V3.CookiesAt | v3.go:214-216 | every cookie keeps its name and value and gets the request URL as its path |
| V3.SetCookiePaths | v3.go:214-216 | the cookie loop returns `CookiesAt` |
| V3.EncodeOrderKeepsValues | v3.go:218 | encoding the query keeps, for every key, its values in order |
| V3.GetV3RequestNoPayload | v3.go:190-228 | returns `NoPayloadRequest` |
| V3.NoPayloadShape | v3.go:193-225 | an unconfigured method is an error; otherwise exactly one entry is appended, with the upper-case method, an empty payload and no media type |
| V3.GetV3RequestWithPayload | v3.go:230-278 | returns `PayloadRequests` |
| V3.PayloadRequestsShape | v3.go:233-275 | an unconfigured method is an error; no request body appends nothing; otherwise one entry per payload, all with the same URL and cookies |
| V3.EntriesShape | v3.go:268-275 | the fan-out makes entry `i` from payload `i` |
| V3.ApplyOperation | v3.go:43-94 | one operation slot: absent or deprecated adds nothing, otherwise the matching request builder |
| V3.AddPathRequests | v3.go:43-94 | the seven slots of a path in the order get, post, delete, patch, put, head, options; returns `PathRequests` |
| V3.UpperMethods | v3.go:221 | the method names upper-case to the names in the URL file |
| V3.OpStepAppends | v3.go:43-94 | an operation slot only appends, and only entries of its own method |
| V3.SlotsRanked | v3.go:43-94 | the slots are in the order get, post, delete, patch, put, head, options; trace has no slot |
| V3.PathRequestsOrder | v3.go:43-94 | a path's entries are appended after the earlier ones, grouped by method in that fixed order |
| V3.PathsFromShape | v3.go:36-95 | every entry has one of the seven methods and no media type |
| V3.AddPaths | v3.go:36-95 | the path loop returns `PathsFrom`: the first unconfigured path aborts |
| V3.SortedPathsExist | v3.go:33-34 | the sorted key list names only paths of the document |
| V3.SameKeysSameOrder | v3.go:32-34 | sorting makes the visiting order independent of the map's key order |
| V3.HandleIgnoresKeyOrder | v3.go:32-36 | the whole conversion gives the same result for every order the path map is visited in |
| V3.EveryPathConfigured | v3.go:27-41 | a successful conversion had the paths setting, and it configured every path of the document |
| V3.HandleV3Spec | v3.go:17-188 | the conversion returns the URL list and a fresh configuration exactly as `HandleSpec` says, or the error and no configuration |
| V3.HandlePaths | v3.go:18-187 | with the paths in visiting order: new configuration, URL list, then the security requirements applied to the configuration |
| V3.CollectUrls | v3.go:22-95 | base URL, the paths setting, then the path loop; returns `SortedUrls` |
| V3.HandleRequestsShape | v3.go:43-94 | no entry of the result is TRACE, none has a media type, so `MediaTypes()` of the result is empty |
| V3.SortedRequestsShape | v3.go:43-94 | the same for the paths in visiting order |
| V3.ApplySecurity | v3.go:97-185 | the requirement loop changes the configuration's headers, login and TLS files exactly as `SecurityFrom` says, or reports its error |
| V3.ApplyNames | v3.go:103-184 | the scheme loop of one requirement does the same per `NamesFrom` |
| V3.ApplyScheme | v3.go:104-183 | one scheme per `SchemeStep` |
| V3.StepOkIff | v3.go:104-183 | a scheme succeeds if and only if it is declared and of a supported kind with its settings present |
| V3.NamesFromOkIff | v3.go:103-184 | a requirement succeeds if and only if each of its schemes is accepted |
| V3.SecurityOkIff | v3.go:97-185 | the security step succeeds if and only if there are no requirements, or the auth setting exists and every scheme of every requirement is accepted |
| V3.SchemeEffects | v3.go:110-176 | apiKey in a header adds that header value last; apiKey in the query or a cookie changes nothing; bearer adds `Authorization: Bearer …`; mutualTLS sets the client certificate and key |
| V3.BasicDigestNeverSucceed | v3.go:141-156 | basic and digest credentials never succeed: without `:` it is the credentials error, with `:` the index out of range |
| V3.ParseLogin | v3.go:141-148 | corrected parser: an error exactly when there is no `:` |
| V3.ParseLoginRoundTrip | siege_config.go:168-174 | the corrected parser reads back every credential `SiegeCreds.String` writes |
| V3.IntendedLogin | v3.go:141-156 | with the corrected parser, basic and digest credentials set the login |
| V3.IntendedAgreesElsewhere | v3.go:104-183 | the corrected scheme step agrees with the as-written one on every other scheme |
| V3.InjectApiKey | v3.go:117-131 | corrected injection keeps the list length |
| V3.ApiKeyInjected | v3.go:117-131 | corrected injection adds the key to the query of every entry, or as a cookie, and changes nothing else |
| V3.QueryGainsKey | v3.go:119-121 | adding a key and re-encoding appends the value to that key and leaves every other key alone |
| UrlList.Line | url_list.go:28-34 | a GET entry is its URL alone; any other method is `URL METHOD PAYLOAD` |
| UrlList.LineSplitsBack | url_list.go:28-34 | a non-GET line splits back at the first two spaces into URL, method and payload |
| UrlList.MapSlice | url_list.go:73-84 | the loop returns `Collect`: results in input order, empty strings dropped |
| UrlList.CollectAppend | url_list.go:73-84 | mapping a concatenation is the concatenation of the mappings |
| UrlList.CollectElements | url_list.go:73-84 | no result is empty, and there are at most as many results as inputs |
| UrlList.CollectSource | url_list.go:73-84 | every result is `f` of some input |
| UrlList.CollectKeepsAll | url_list.go:73-84 | when no result is empty, result `k` is `f` of input `k` |
| UrlList.UniqueSlice | url_list.go:86-98 | the loop with its seen-set returns `Dedup` |
| UrlList.DedupSpec | url_list.go:86-98 | the same elements as the input, each once, in order of first occurrence, never longer than the input |
| UrlList.ListStringLines | url_list.go:36-40 | the list text is the entries' lines joined by newlines |
| UrlList.StringByMediaTypeSelects | url_list.go:42-50 | the text for a media type joins the lines of exactly the entries with that media type or none, with no blank lines |
| UrlList.MediaTypesSpec | url_list.go:52-56 | the distinct non-empty media types of the entries, each once, in order of first appearance: every entry of a later media type comes after some entry of each earlier one |
| UrlList.EarlierTypeFirst | url_list.go:52-56 | for media types `i < j` and any entry of type `j`, an earlier entry has type `i` |
| UrlList.UnsetMediaTypes | url_list.go:52-56 | when no entry has a media type, `MediaTypes()` is empty and the text for any media type is the whole list |
| Siege.CredsString | siege_config.go:168-174 | `user:pass:realm` with a realm, `user:pass` without |
| Siege.CredsSplitBack | siege_config.go:168-174 | the text splits back at `:` into user, password and realm |
| Siege.BoolTF | siege_config.go:176-184 | `"true"` exactly when true, `"false"` exactly when false |
| Siege.BoolOO | siege_config.go:186-194 | `"on"` exactly when true, `"off"` exactly when false |
| Siege.ParseOpts | siege_config.go:210-220 | `OmitEmpty` is set if and only if some option is exactly `omitempty` |
| Siege.ParseTagName | siege_config.go:202-208 | the name is the tag up to its first comma, and holds no comma |
| Siege.BareTag | siege_config.go:202-208 | a tag without a comma is its own name with no options |
| Siege.OmitEmptyTag | siege_config.go:202-220 | `name,omitempty` gives `name` with `OmitEmpty` |
| Siege.CanonicalKeyIdempotent | v3.go:124 | canonicalizing a header key twice is canonicalizing it once |
| Siege.AddHeader | v3.go:159-162 | `Header.Add` appends the value under the canonical key and changes no other key |
| Siege.SiegeConfig.AddHeaderValue | v3.go:124 | the configuration's headers become `AddHeader` of the old ones |
| Siege.LinesAppend | siege_config.go:101-147 | the text of two line lists is the concatenation of their texts |
| Siege.LinesSplitBack | siege_config.go:101-147 | the text splits back at newlines into its lines |
| Siege.VarsString | siege_config.go:152-160 | the variable loop writes one `name = value` line per variable |
| Siege.LinesOfAppend | siege_config.go:106-145 | the lines of a concatenated field table are the lines of its parts |
| Siege.TableLinesAppend | siege_config.go:106-145 | the same for the rendered field table |
| Siege.TableLinesAt | siege_config.go:106-145 | field `k`'s lines sit between the lines of the fields before and after it |
| Siege.HiddenFieldsEmitNothing | siege_config.go:110-119 | a field tagged `-`, or an omitempty field at its zero value, adds no line |
| Siege.FieldLineCounts | siege_config.go:124-141 | a string list adds one `name = item` line per item, in order; a header map one line per value |
| Siege.HeaderLinesCount | siege_config.go:135-141 | the header lines are as many as the header values |
| Siege.HeaderLineSource | siege_config.go:135-141 | every header line is `name = key: value` for a key of the map and one of its values |
| Siege.SingleLineField | siege_config.go:122-134 | a visible string or integer field contributes its `name = value` line |
| Siege.SiegeConfig.constructor | siege_config.go:64-98 | `NewSiegeConfig`: Siege's defaults, `gmethod` HEAD and an empty header map |
| Siege.SiegeConfig.FieldsFromEntries | siege_config.go:12-61 | the field table from `k` on lists the fields in declaration order |
| Siege.SiegeConfig.TableEntries | siege_config.go:12-61 | table entry `j` is field `j` of the struct with its tag |
| Siege.SiegeConfig.TableWithFile | siege_config.go:37 | the tables for two URL files differ only in the `file` field |
| Siege.SiegeConfig.String | siege_config.go:100-148 | the variable lines first, then the lines of every field in declaration order |
| Siege.WriteTable | siege_config.go:106-145 | the field loop writes `TableLines` |
| Siege.WriteField | siege_config.go:110-144 | one field's lines, per its type |
| Siege.WriteItems | siege_config.go:124-127 | the element loop writes one line per element |
| Siege.WriteHeader | siege_config.go:135-141 | the key and value loops write one line per header value |
| Siege.DefaultMethodLine | siege_config.go:79 | a fresh configuration writes `gmethod = HEAD` |
| Siege.DefaultConcurrencyLine | siege_config.go:87 | a fresh configuration writes `concurrent = 25` |
| Siege.DefaultProtocolLine | siege_config.go:83 | a fresh configuration writes `protocol = HTTP/1.1` |
| Siege.EmptyHeadersWriteNothing | siege_config.go:135-141 | an empty header map writes no line |
| Siege.HeaderField | siege_config.go:60 | the `header,omitempty` field writes its header lines even when the map is empty (an allocated map is never zero) |
| FileNaming.PrefixKeepsDirectory | openapi2siege.go:220-226 | for a clean relative path of plain elements, `prefixFilename(p, dir/file)` is `dir/p.file`: the directory is kept and only the last element is prefixed |
| FileNaming.PrefixKeepsRootedDirectory | openapi2siege.go:220-226 | for a clean absolute path, `prefixFilename(p, /dir/file)` is `/dir/p.file`, and `/file` gives `/p.file`: the root and directory are kept and only the last element is prefixed |
| FileNaming.CleanDoubleSlash | openapi2siege.go:225 | joining cleans away the doubled slash between the directory and the file |
| FileNaming.SuffixNamesFile | openapi2siege.go:187-189 | a media type with a `+` suffix is named by the suffix (`application/vnd.api+json` gives `json`) |
| FileNaming.SubtypeNamesFile | openapi2siege.go:187-189 | without a suffix the subtype is the prefix (`text/plain` gives `plain`) |
| FileNaming.OutputName | openapi2siege.go:183-193 | with a single media type the configured name is used unchanged |
| FileNaming.WriteOutputs | openapi2siege.go:163-205 | `gmethod` becomes GET, then one URL file and configuration per distinct media type; names are prefixed only when there is more than one media type; each configuration is rendered with its own URL file; with no media type, nothing is written and the URL file setting is unchanged |
| FileNaming.NothingWritten | openapi2siege.go:182-205 | after any conversion that succeeds, the write loop plans no output at all |
| FileNaming.IntendedMediaTypes | openapi2siege.go:182 | the corrected loop visits at least one media type, and exactly the entries' media types when there are any |
| FileNaming.FallbackWritesWholeList | openapi2siege.go:182-205 | with the fallback, a list without media types is written once, under the configured names, with every entry |
| FileNaming.ConversionWritesOnce | openapi2siege.go:163-205 | with the fallback, every successful conversion writes one URL file holding every request and one configuration, under the configured names |
| FileNaming.WriteIntendedOutputs | openapi2siege.go:163-205 | the corrected write step writes at least one pair of files, one per intended media type, each configuration rendered with its own URL file |
| FileNaming.WriteAll | openapi2siege.go:182-206 | the media type loop writes, for type `i`, its name, its entries' text and its configuration |
| FileNaming.WriteOne | openapi2siege.go:183-201 | one media type: its file names, its entries' text, and the configuration with `UrlFile` set first |
| FileNaming.PlanEntries | openapi2siege.go:182-193 | output `i` is named from media type `i` |
| FileNaming.WrittenEntries | openapi2siege.go:195-201 | each written output is its URL file, its URL text and its configuration file |
| GoStrings.FindSpec | siege_config.go:203 | `strings.Index`: the first occurrence, and none before it |
| GoStrings.JoinSplit | siege_config.go:203 | joining a split with its separator gives the text back |
| GoStrings.ReplaceAllIsSplitJoin | v3.go:299 | `ReplaceAll` is split by the old text and join with the new |
| GoStrings.LastPieceAfter | openapi2siege.go:187-189 | the last piece of `a + sep + b` is `b` when `b` holds no separator |
| GoStrings.DecimalRoundTrip | siege_config.go:129 | the decimal text of a natural number reads back as that number |
| GoSort.SortStrings | v3.go:34 | the result is sorted and a permutation of the input |
| GoSort.SortedUnique | v3.go:34 | two sorted permutations of the same strings are equal |
| GoSort.SortIgnoresInputOrder | v3.go:33-34 | sorting gives the same list whatever order the keys came in |

## Left out

- Reading, parsing and validating the document (libopenapi), the CLI flags,
  the configuration-file loading, `os.WriteFile` and all printing and
  logging are left out. These are I/O and framework code. The write loop
  returns the texts it would write.
- `urlList.CookieJar` and the cookie file are left out. The cookie jar is a
  foreign library that writes to disk.
- `handleV2Spec` (v2.go) is not part of this model. It always fails.
- The `encoding/json` flag wrappers (generics.go) are not modelled. The
  settings they produce are the `Settings` record. An absent or mistyped
  generic flag is `None`.
- `json.Marshal` is a parameter `marshal`. Its bytes, and the error it
  could return, are not modelled.
- A URL is the record of base, path and query. It does not model:
  - the errors of `url.Parse`;
  - the path cleaning and escaping of `JoinPath`;
  - the percent-encoding of `url.Values.Encode`.
  Encoding is modelled as sorting by key and keeping each key's values in
  order.
- Go map iteration order is an input sequence. This applies to
  `Content`, `Properties`, `Examples`, `Variables`, `Requirements`, the
  headers and the Siege variables. No property depends on it.
  `examples` of a parameter is taken in that order too.
- `%f` of a float and `time.Duration.String` are parameters in `Formats`.
  The converter never sets those fields away from zero.
- The advisories of `log.Printf` are left out: TRACE skipped, header
  parameters skipped, bearer best-effort, retry messages. No result
  depends on them.
- A schema reference that refers to itself is left out. The datatypes
  are finite, so synthesis always ends. The source would recurse without
  end on such a schema.
- The proxy-port field is an `int16`, a bounded `newtype`. Other
  integers are unbounded; the converter never sets them beyond their
  defaults.
- `V3.HandleV3Spec` keeps the security step as written: basic and
  digest fail, and apiKey in the query or in a cookie has no effect. The
  corrected step, `V3.IntendedSchemeStep`, is proved alongside (see
  Findings) but not used by the conversion.
- `path.Clean` is modelled by the rules Go documents for it, not by its
  code.
- FileNaming.PrefixKeepsDirectory: stated, like its rooted companion
  `FileNaming.PrefixKeepsRootedDirectory`, only for paths that are
  already clean, whose elements are all plain names. For a path with a
  `.`, `..` or empty element, `path.Join` cleans the directory too, so
  `a/./f` becomes `a/p.f`. The directory is then rewritten rather than
  kept, and the promise "keeps the directory" does not apply as stated.
- A number in a document value (a `default`, an `example`) is an exact
  `real` in `Payloads.Value`. Go decodes it as a `float64`, whose
  rounding is not modelled; its text comes from the `marshal` parameter.
- `FileNaming.WriteOutputs` keeps the write loop as written, and so
  writes nothing after any conversion. The corrected step,
  `FileNaming.WriteIntendedOutputs`, falls back to one output under the
  configured names (see Findings). The tagging of payload entries with
  their media type, which the unused `requestData` record suggests, is
  not modelled.
- `V3.AddMediaPayloads`, `V3.ApplyNames`, `V3.CollectUrls`,
  `FileNaming.WriteNext` and `Siege.WriteItems` are the inner loops or
  first halves of single Go functions, split out as their own methods.
- `V3.AddPathRequests` calls the seven operation slots one after another
  as the source does. Its specification folds over the slot list.

## Findings

| source | as written | input that shows it | evidently intended | confidence | as-written member | corrected member |
|---|---|---|---|---|---|---|
| v3.go:141-156 | `strings.SplitN(creds, ":", 2)` gives at most two fields, yet field `[2]` is read for the realm | a `basic` scheme with `creds` = `user:pass` passes the length check and indexes past the end | split into at most three fields and take the realm only when present, so `user:pass[:realm]` sets the login | high (not executed) | V3.BasicDigestNeverSucceed | V3.IntendedLogin |
| v3.go:117-131 | the apiKey query and cookie loops update copies of the entries (`URL` is a value field), so the list is unchanged | an `apiKey` scheme `in: query` over a one-entry list leaves that entry's query without the key | add the key to every entry's query, or as a cookie | high (not executed) | V3.SchemeEffects | V3.ApiKeyInjected |
| openapi2siege.go:182-205 | no entry is given a media type (v3.go:220-225 and 269-274 leave `MediaType` unset), and `MediaTypes()` leaves out the empty one, so the loop over media types runs zero times | any document that converts, e.g. one path with one GET operation: `MediaTypes()` is empty and neither file is written | when no entry has a media type, write the whole list once under the configured names | high (not executed) | FileNaming.NothingWritten | FileNaming.ConversionWritesOnce |
