# pact-broker-cli commands, modelled in Dafny

This project models the Rust core of `pact-broker-cli`, the command-line client
for a Pact Broker. It covers:

- the HAL client: links, link templates, responses and errors;
- the shared helpers in `utils.rs` and `types.rs`;
- the commands built on them: `can-i-deploy`, pact and provider-state retrieval,
  verification publishing, pact publishing, webhooks, environments, deployments
  and releases, pacticipants, versions, tags, branches, and Pactflow
  provider-contract publishing.

The broker is a parameter of type `Client.Broker`. It is a function from a
request (verb, path, optional JSON body) to the reply the HAL client hands back
once the HTTP response has been classified (`Hal.ParseBrokerResponse`). A
command is modelled as a `Client.Run`: its outcome together with every request it
sent, in order. This lets a contract say which writes happen, in which order,
and that nothing is written on an error path. `Client.Send` is the one
primitive: a single request, recorded and answered by the broker; `Client.Fetch`
is a `Send` of a GET without a body.

Outcomes are `Wrappers.Outcome`:

- `Ok(value)` for success;
- `Err(error)` for an error returned to the caller;
- `Halted(halt)` when the program stops instead of returning. A halt is a panic
  from an `unwrap` or `expect` (`Panic(site)`), or `std::process::exit`
  (`Exit(code)`).

Printing to the terminal is not modelled. Where a command's only product is
what it prints, the model returns that text as the command's value.

Modules follow the source files:

| module | file |
|---|---|
| `Wrappers`, `Json`, `Text`, `Percent` | values, JSON documents, string helpers, `urlencoding::encode` |
| `Errors` | the `PactBrokerError` enum (`main.rs`) |
| `Types` | `types.rs` |
| `Hal`, `Client` | `main.rs` (links, templates, responses, the client's requests) |
| `Utils` | `utils.rs` |
| `CanIDeploy` | `can_i_deploy.rs` |
| `GetPacts` | `pacts/get_pacts.rs` |
| `ProviderStates` | `provider_states/list.rs` |
| `Verification` | `verification/mod.rs` |
| `PactPublish` | `pact_publish.rs` |
| `WebhookCreate`, `WebhookDelete` | `webhooks/create.rs`, `webhooks/delete.rs` |
| `Environments` | `environments/create.rs`, `environments/update.rs` |
| `Deployments` | `deployments/record_deployment.rs`, `record_release.rs`, `record_support_ended.rs` |
| `Pacticipants` | `pacticipants/create.rs` |
| `Versions` | `versions/create.rs`, `versions/describe.rs` |
| `Tags` | `tags/create_version_tag.rs`, `tags/delete_tag.rs` |
| `Branches` | `branches/delete_branch.rs` |
| `ProviderContracts` | `pactflow/main/provider_contracts/publish.rs` |

## Model

| member | source | states |
|---|---|---|
| Hal.IsTrue | src/cli/pact_broker/main.rs:44-52 | a field counts as true exactly when it is present and is the JSON boolean `true`; a string "true" or a missing field is false |
| Hal.FindEntry | src/cli/pact_broker/main.rs:85-90 | an entry is found exactly when some key equals the wanted key ignoring ASCII case, and it is reported under the requested key |
| Hal.FindEntryFirst | src/cli/pact_broker/main.rs:85-90 | when several keys match ignoring case, the first one in document order wins |
| Hal.DefaultLink | src/cli/pact_broker/main.rs:200-209 | the default link is named "link", has no href or title and is not templated |
| Hal.LinkFromJson | src/cli/pact_broker/main.rs:168-176 | a link read from JSON is templated only for a literal `true`; it has a title exactly when the key is present; its href comes from the case-insensitive "href" key, with non-string values rendered as JSON text |
| Hal.LinkAsJson | src/cli/pact_broker/main.rs:178-197 | the JSON form of a link carries only href, title and templated; href and title appear exactly when the link has them |
| Hal.LinkRoundTrip | src/cli/pact_broker/main.rs:168-197 | reading back the JSON form of a link gives the same link |
| Hal.WordRun | src/cli/pact_broker/main.rs:511 | the length of the longest prefix of placeholder-name characters (ASCII letters, digits and `_`) |
| Hal.Placeholder | src/cli/pact_broker/main.rs:511 | a placeholder found at the start of the text is `{` word `}` |
| Hal.ExpandUnknownIdentity | src/cli/pact_broker/main.rs:512-524 | a template none of whose placeholder names has a value expands to itself |
| Hal.ExpandPlaceholder | src/cli/pact_broker/main.rs:512-524 | a placeholder with a value is replaced by the percent-encoded value; one without a value is kept as `{name}`; the rest of the text is expanded on its own |
| Hal.ExpandNoBrace | src/cli/pact_broker/main.rs:512-524 | text with no `{` is unchanged by expansion |
| Hal.ParseLinkUrl | src/cli/pact_broker/main.rs:503-535 | a link without href is a LinkError; otherwise the result is the href with its placeholders expanded, and an empty value map gives the href unchanged |
| Hal.FindLink | src/cli/pact_broker/main.rs:268-285 | a link is found exactly when the last fetched resource has `_links` with an object under the name; every failure is a LinkError, and with nothing fetched it gives the "No previous resource" message |
| Hal.ArrayLink | src/cli/pact_broker/main.rs:543-547 | an array element becomes a link: an object is read as a link, a string is the href, any other value's JSON text is the href |
| Hal.IterLinks | src/cli/pact_broker/main.rs:537-558 | links are listed exactly when the named `_links` entry is an array, one link per element in order; every failure is a LinkError |
| Hal.EntryLink | src/cli/pact_broker/main.rs:750-756 | a `_links` entry that is not an object becomes a link with only its name |
| Hal.LinksFromJson | src/cli/pact_broker/main.rs:746-764 | one link per `_links` entry in order, and none when `_links` is missing or not an object |
| Hal.ContentType | src/cli/pact_broker/main.rs:61-66 | a missing or unreadable content-type header reads as "text/plain" |
| Hal.JsonContentType | src/cli/pact_broker/main.rs:68-83 | a response is JSON exactly when its media type parses as application/json or application/hal+json |
| Hal.MissingHeaderIsNotJson | src/cli/pact_broker/main.rs:61-83 | a response without a readable content type is never treated as JSON |
| Hal.ParseBrokerResponse | src/cli/pact_broker/main.rs:439-501 | a 2xx JSON body is returned; 204 without JSON is an empty object; other non-JSON 2xx and unparsable bodies are ContentErrors; 404 is NotFound; a 400 JSON body becomes validation errors; a 400 without JSON and every other status are IoErrors; the NotFound and IoError messages name the path, the URL and the status as the HTTP library displays it (number, space, reason phrase, e.g. "404 Not Found"); only a 2xx succeeds |
| Hal.Texts | src/cli/pact_broker/main.rs:673-675 | each array element of a validation error becomes its text, in order |
| Hal.FieldErrors | src/cli/pact_broker/main.rs:677-688 | a per-field error is "field: message", with array messages joined by ", " |
| Hal.HandleValidationErrors | src/cli/pact_broker/main.rs:668-700 | the body always becomes a ValidationError: a string body is one message; an `errors` array gives one message per element; an `errors` object gives one message per field; any other body or value is its JSON text |
| Client.Setup | src/cli/pact_broker/main.rs:703-744 | a new client keeps the URL, credentials and TLS options, makes three attempts per request, and has fetched nothing yet |
| Client.LinkTarget | src/cli/pact_broker/main.rs:303-327 | a link's target is its expanded template when templated, its href otherwise; a missing href is a LinkError |
| Client.FollowLink | src/cli/pact_broker/main.rs:303-357 | a link without href sends nothing and fails with a LinkError; otherwise one request goes to the link's target |
| Errors.Message | src/cli/pact_broker/main.rs:115-144 | the text an error compares equal to is its message; a single validation error compares as that error, and none as "" |
| Errors.EqualsIgnoresVariant | src/cli/pact_broker/main.rs:115-144 | comparing an error with a string looks only at the message, whichever variant carries it |
| Errors.DebugList | src/cli/pact_broker/main.rs:110-112 | a list of validation errors prints in brackets |
| Errors.Display | src/cli/pact_broker/main.rs:94-113 | an error's text starts with its variant's fixed prefix and, except for validation errors, ends with exactly its message |
| Types.DefaultSslOptions | src/cli/pact_broker/main/types.rs:58-66 | by default certificates are checked, no extra certificate is loaded and the root trust store is used |
| Types.BrokerDetailsFrom | src/cli/pact_broker/main/types.rs:13-27 | the broker URL loses every trailing `/` and nothing else, and the credentials are always present |
| Types.ParseOutputType | src/cli/pact_broker/main/types.rs:40-48 | an output name is accepted exactly when its lower-case form is json, table, text or pretty, and it maps to the type of that name |
| Types.ParseOutputName | src/cli/pact_broker/main/types.rs:40-48 | each output type's name parses back to that type |
| Types.ParseIgnoresCase | src/cli/pact_broker/main/types.rs:41 | two names that differ only in ASCII case parse to the same result |
| Utils.WithRetries | src/cli/pact_broker/main/utils.rs:20-98 | a request that cannot be cloned is sent once; otherwise at most `retries` attempts are made; every attempt but the last saw a 5xx; an early stop means the last result was not a 5xx; the delay before attempt k (k ≥ 2) is 10^k ms; with zero retries the unwrap panics |
| Utils.SslOptionsFrom | src/cli/pact_broker/main/utils.rs:138-152 | TLS options default to checking certificates and using the root trust store; the certificate path is passed through |
| Utils.AuthFrom | src/cli/pact_broker/main/utils.rs:155-184 | a token wins over a username; a username comes with its optional password; with neither there is no authentication |
| Utils.GetBrokerRelation | src/cli/pact_broker/main/utils.rs:186-215 | the relation is read from the index with one GET of "/"; an index error is passed on; a missing `_links` or href panics; a missing relation is NotFound naming it; the href comes back as JSON text without any `"` |
| Utils.PlainRelationHref | src/cli/pact_broker/main/utils.rs:204-209 | a string href without quotes or escapes comes back exactly as written |
| Utils.RelationLink | src/cli/pact_broker/main/utils.rs:222-227 | the link to a plain relation carries its href and is not templated |
| Utils.TemplatedLink | src/cli/pact_broker/main/utils.rs:237-242 | the link to a templated relation carries its href and is templated |
| Utils.FollowBrokerRelation | src/cli/pact_broker/main/utils.rs:217-230 | following a relation is one GET of its href |
| Utils.FollowTemplatedBrokerRelation | src/cli/pact_broker/main/utils.rs:231-244 | following a templated relation is one GET of the expanded template |
| Utils.DeleteTemplatedBrokerRelation | src/cli/pact_broker/main/utils.rs:245-258 | deleting through a templated relation is one DELETE of the expanded template |
| Utils.HandleError | src/cli/pact_broker/main/utils.rs:261-279 | the error handler always ends the process with status 1 |
| Utils.GenerateTable | src/cli/pact_broker/main/utils.rs:113-131 | the table has the given header and one row per element of `pacts`, each cell the JSON text at its column's path; a missing `pacts` or a missing path panics; a `pacts` that is not an array gives no rows |
| Percent.Utf8 | src/cli/pact_broker/main.rs:517 | a character is UTF-8 encoded in one to four bytes, one exactly for ASCII |
| Percent.EncodeByte | src/cli/pact_broker/main.rs:517 | an unreserved byte is kept and any other becomes a three-character `%XX` escape |
| Percent.DecodeEncode | src/cli/pact_broker/main.rs:517 | percent-decoding undoes the encoding of any byte sequence |
| Percent.EncodeInjective | src/cli/pact_broker/main.rs:517 | different byte sequences encode differently |
| Percent.EncodedAlphabet | src/cli/pact_broker/main.rs:517 | encoded text uses only unreserved characters, `%` and hex digits |
| Percent.EncodeUnreservedIdentity | src/cli/pact_broker/main.rs:517 | text made of unreserved characters encodes to itself |
| Percent.EncodedHasNoDelimiters | src/cli/pact_broker/main.rs:512-524 | an encoded value cannot contain `/`, braces, space, `?`, `&` or `=`, so a substituted value never adds a path segment or placeholder |
| Percent.EncodeConcat | src/cli/pact_broker/main.rs:517 | encoding distributes over concatenation |
| CanIDeploy.NewSelector | src/cli/pact_broker/main/can_i_deploy.rs:67-73 | a new selector has only its name: no version, no tags, not latest, not main branch |
| CanIDeploy.Classify | src/cli/pact_broker/main/can_i_deploy.rs:93-108 | a token ends the current selector's options exactly when it is `--pacticipant` or `-a` |
| CanIDeploy.ReadOptionsRest | src/cli/pact_broker/main/can_i_deploy.rs:91-113 | reading options stops at a suffix of the tokens that is empty or starts with a pacticipant flag |
| CanIDeploy.ReadOptionsExtends | src/cli/pact_broker/main/can_i_deploy.rs:91-113 | reading options keeps the selector's name, only appends tags, and never clears `latest` or `main-branch` |
| CanIDeploy.ParseSelectors | src/cli/pact_broker/main/can_i_deploy.rs:75-118 | parsing the command line never returns an error; a pacticipant flag with nothing after it panics |
| CanIDeploy.ParsedNames | src/cli/pact_broker/main/can_i_deploy.rs:80-86 | every selector is named by a token of the command line, and each selector uses at least two tokens |
| CanIDeploy.LeadingTokensIgnored | src/cli/pact_broker/main/can_i_deploy.rs:80-81 | tokens before the first pacticipant flag do not change the selectors |
| CanIDeploy.LaterVersionWins | src/cli/pact_broker/main/can_i_deploy.rs:94-97 | of two `--version` options the later one wins |
| CanIDeploy.ReadTags | src/cli/pact_broker/main/can_i_deploy.rs:98-103 | each `--tag` option appends its value, in order |
| CanIDeploy.ReadStop | src/cli/pact_broker/main/can_i_deploy.rs:108 | reading stops, changing nothing, at the next pacticipant flag or at the end |
| CanIDeploy.ReadOptionTokens | src/cli/pact_broker/main/can_i_deploy.rs:91-113 | the option tokens of a selector read back as that selector |
| CanIDeploy.ParseRender | src/cli/pact_broker/main/can_i_deploy.rs:75-118 | selectors written out as command-line tokens parse back to the same selectors, in order |
| CanIDeploy.TagTerms | src/cli/pact_broker/main/can_i_deploy.rs:159-164 | one `q[][tag]` term per tag, in order |
| CanIDeploy.SelectorTerms | src/cli/pact_broker/main/can_i_deploy.rs:144-166 | a selector's terms start with its pacticipant and use only selector keys |
| CanIDeploy.AllSelectorTerms | src/cli/pact_broker/main/can_i_deploy.rs:144-166 | every selector's pacticipant term is in the query, and only selector keys are used |
| CanIDeploy.SelectorQueryTerms | src/cli/pact_broker/main/can_i_deploy.rs:144-166 | the text built for one selector is its terms, each followed by `&` |
| CanIDeploy.SelectorsQueryTerms | src/cli/pact_broker/main/can_i_deploy.rs:144-166 | the text built for all selectors is their terms in order, each followed by `&` |
| CanIDeploy.MatrixTerms | src/cli/pact_broker/main/can_i_deploy.rs:143-189 | the query's terms start with the selectors' terms, and some option term follows them |
| CanIDeploy.MatrixQueryJoin | src/cli/pact_broker/main/can_i_deploy.rs:143-189 | the matrix path is `/matrix?` followed by the query's terms joined with `&` |
| CanIDeploy.MatrixTermsOptions | src/cli/pact_broker/main/can_i_deploy.rs:167-189 | `latestby=cvp` is sent exactly for one selector and `cvpv` otherwise; `latest=true` exactly for one selector and no environment; `mainBranch=true` exactly for can-i-merge; `environment` and `tag` exactly when given, with their values |
| CanIDeploy.MatrixTermsKeys | src/cli/pact_broker/main/can_i_deploy.rs:143-189 | the query uses only the selector keys and the five option keys |
| CanIDeploy.MatrixQueryDecodes | src/cli/pact_broker/main/can_i_deploy.rs:143-189 | splitting the matrix path at `&` and `=` and percent-decoding gives back every term, in order, so no name, version, tag or environment can add or change a parameter |
| CanIDeploy.Optional | src/cli/pact_broker/main/can_i_deploy.rs:13-65 | an optional field is present only when the key is there and not `null` |
| CanIDeploy.DecodeRows | src/cli/pact_broker/main/can_i_deploy.rs:52-58 | the matrix rows decode exactly when every element decodes, one row per element |
| CanIDeploy.DecodeNotices | src/cli/pact_broker/main/can_i_deploy.rs:23-28 | decoded notices are one per element |
| CanIDeploy.DecodeMatrix | src/cli/pact_broker/main/can_i_deploy.rs:60-65 | a response decodes only when it is an object whose `matrix` is an array, with one row per element |
| CanIDeploy.DecodePartyJson | src/cli/pact_broker/main/can_i_deploy.rs:30-45 | a consumer or provider written as JSON decodes back to itself |
| CanIDeploy.DecodeRowJson | src/cli/pact_broker/main/can_i_deploy.rs:47-58 | a matrix row written as JSON decodes back to itself |
| CanIDeploy.DecodeRowsJson | src/cli/pact_broker/main/can_i_deploy.rs:52-58 | a list of rows written as JSON decodes back to the same list |
| CanIDeploy.DecodeNoticesJson | src/cli/pact_broker/main/can_i_deploy.rs:23-28 | a list of notices written as JSON decodes back to the same list |
| CanIDeploy.DecodeMatrixJson | src/cli/pact_broker/main/can_i_deploy.rs:13-65 | a matrix response written as JSON decodes back to the same summary, notices and rows |
| CanIDeploy.MaxAttempts | src/cli/pact_broker/main/can_i_deploy.rs:196-198 | the retry count is a 32-bit unsigned number, 0 when absent or unreadable |
| CanIDeploy.RetryInterval | src/cli/pact_broker/main/can_i_deploy.rs:199-201 | the retry interval is a 64-bit unsigned number of seconds, 5 when absent or unreadable |
| CanIDeploy.PollingArguments | src/cli/pact_broker/main/can_i_deploy.rs:196-201 | a decimal within range is read as its value, and one out of range falls back to the default |
| CanIDeploy.Poll | src/cli/pact_broker/main/can_i_deploy.rs:203-228 | with no retries there is exactly one fetch; otherwise fetching stops at the first answer with a known `deployable` or after `retries + 1` fetches; every earlier answer was undecided; there is one pause between consecutive fetches |
| CanIDeploy.Ask | src/cli/pact_broker/main/can_i_deploy.rs:203-228 | every fetch is a GET of the same matrix URL, each pause is the retry interval, and the last answer is returned |
| CanIDeploy.Fallback | src/cli/pact_broker/main/can_i_deploy.rs:243-253 | a response that does not decode counts as not deployable, with no rows |
| CanIDeploy.VerdictData | src/cli/pact_broker/main/can_i_deploy.rs:240-254 | the verdict is taken from the decoded response, or from the fallback when it does not decode |
| CanIDeploy.Verdict | src/cli/pact_broker/main/can_i_deploy.rs:315-339 | "Computer says yes" exactly when `deployable` is `true`; otherwise a dry run succeeds with the dry-run message, and any other run fails with NotFound "No deployable version found" |
| CanIDeploy.VerdictOfMatrix | src/cli/pact_broker/main/can_i_deploy.rs:315-339 | for a well-formed response the answer is yes exactly when its summary says deployable, and it fails exactly when it is not a dry run and not deployable |
| CanIDeploy.UndecodableIsNo | src/cli/pact_broker/main/can_i_deploy.rs:240-254 | a response that does not decode gets the same verdict as "not deployable" |
| CanIDeploy.Report | src/cli/pact_broker/main/can_i_deploy.rs:230-357 | a failed fetch exits with status 1; JSON output or no output option returns the response's JSON text; any other output gives the verdict; an unreadable output option is a ValidationError |
| CanIDeploy.SuccessCell | src/cli/pact_broker/main/can_i_deploy.rs:266-269 | the success cell reads "true" exactly for a verification that succeeded, and "false" otherwise |
| CanIDeploy.MatrixTable | src/cli/pact_broker/main/can_i_deploy.rs:256-291 | one table row per matrix row, with six cells: consumer, its version, provider, its version, and the success shown twice |
| CanIDeploy.Command | src/cli/pact_broker/main/can_i_deploy.rs:122-360 | a command line whose selectors panic sends nothing; otherwise the matrix URL (trimmed base URL plus query) is fetched as polling says, and the last answer is reported |
| GetPacts.PactsPathShape | src/cli/pact_broker/main/pacts/get_pacts.rs:78-148 | the template is `/pacts/provider/P`, then `/consumer/C` when a consumer is given, then `/branch`, then `/B` when a branch is given, then `/latest` when latest is asked for |
| GetPacts.RelationNamesFilters | src/cli/pact_broker/main/pacts/get_pacts.rs:84-146 | two requests use the same relation exactly when they agree on whether a consumer is given, whether a branch is given, and latest, so the eight cases have eight different relations |
| GetPacts.RelationLength | src/cli/pact_broker/main/pacts/get_pacts.rs:84-146 | the length of each relation name, one per case |
| GetPacts.TemplateParams | src/cli/pact_broker/main/pacts/get_pacts.rs:35-42 | the template values always hold the provider, and hold the consumer and the branch exactly when they are given |
| GetPacts.PlainNamesFetchPath | src/cli/pact_broker/main/pacts/get_pacts.rs:32-47 | because the names are already written into the path, expanding the template with them changes nothing when the names contain no `{` |
| GetPacts.Normalise | src/cli/pact_broker/main/pacts/get_pacts.rs:50-59 | a response with `_links.pb:pacts` becomes `{"pacts": ...}` holding that value; any other response is kept as it is |
| GetPacts.NormaliseIdempotent | src/cli/pact_broker/main/pacts/get_pacts.rs:50-59 | normalising twice is the same as normalising once |
| GetPacts.DownloadSources | src/cli/pact_broker/main/pacts/get_pacts.rs:161-180 | the pacts to download are the `pacts` array, else the single `pact`, else the `_links.pb:pacts` array; with none of these it is a ContentError "No pacts found to download" |
| GetPacts.NormalisedSources | src/cli/pact_broker/main/pacts/get_pacts.rs:50-59 | after normalising, the downloaded pacts are the elements of the original `_links.pb:pacts` array |
| GetPacts.PactUrl | src/cli/pact_broker/main/pacts/get_pacts.rs:186-196 | a pact is fetched exactly when it has a self href or an href of its own, and the self href wins |
| GetPacts.FileName | src/cli/pact_broker/main/pacts/get_pacts.rs:225 | the file name ends in `.json` |
| GetPacts.FileNameOfLinkedPact | src/cli/pact_broker/main/pacts/get_pacts.rs:202-225 | a downloaded pact that names its consumer, provider and consumer version is saved as `consumer-provider-version.json` |
| GetPacts.FileNameWithoutLinks | src/cli/pact_broker/main/pacts/get_pacts.rs:202-225 | without `_links` in the content, the consumer comes from the listed pact's name and the other two parts are "unknown" |
| GetPacts.Listed | src/cli/pact_broker/main/pacts/get_pacts.rs:184-196 | no more pacts are fetched than are listed |
| GetPacts.Fetches | src/cli/pact_broker/main/pacts/get_pacts.rs:184-199 | one GET per pact that has a URL, and only GETs |
| GetPacts.Save | src/cli/pact_broker/main/pacts/get_pacts.rs:236-238 | a pact file is written exactly when the file system allows it; otherwise the IoError "Failed to write pact file <name>: <error>" |
| GetPacts.Step | src/cli/pact_broker/main/pacts/get_pacts.rs:186-238 | an entry without a URL is skipped with no request; otherwise its URL is fetched once; success means the fetch succeeded and the file, named after the fetched content, was written; an error is the fetch's own or the failed write |
| GetPacts.Download | src/cli/pact_broker/main/pacts/get_pacts.rs:184-243 | the requests sent are a prefix of the full download's GETs, in order; an error comes after at least one request; on success every listed pact was fetched, one file name per pact, and every file named was written |
| GetPacts.DownloadFailures | src/cli/pact_broker/main/pacts/get_pacts.rs:184-243 | the download stops at its first failure: every request before the last was answered successfully, and an error is the last fetch's own error or the failed write of the pact it returned |
| GetPacts.DownloadPacts | src/cli/pact_broker/main/pacts/get_pacts.rs:150-244 | a download directory that cannot be created is an IoError before anything is fetched; otherwise, with nothing to download nothing is fetched and the ContentError is returned, and else the listed pacts are downloaded |
| GetPacts.Render | src/cli/pact_broker/main/pacts/get_pacts.rs:66-71 | JSON and pretty output show the data as JSON; table and text output show the CONSUMER/TITLE/LINK table, and only when the table can be built |
| GetPacts.DownloadAndRender | src/cli/pact_broker/main/pacts/get_pacts.rs:62-74 | only GETs are sent; without download nothing more is sent; a success shows the rendered data |
| GetPacts.GetPacts | src/cli/pact_broker/main/pacts/get_pacts.rs:11-76 | the command sends only GETs; the first is the expanded template; an error from it is returned and nothing more is sent; without download it sends one request; a success renders the normalised response |
| ProviderStates.PathIsJoin | src/cli/pact_broker/main/provider_states/list.rs:83-111 | the provider-states path is its segments joined with `/`: provider, then `branch/B` or `environment/E` when exactly one of them is given |
| ProviderStates.SplitProviderStatesPath | src/cli/pact_broker/main/provider_states/list.rs:83-111 | splitting the path at `/` gives back exactly its segments, so no name can add a path segment |
| ProviderStates.ProviderSegmentDecodes | src/cli/pact_broker/main/provider_states/list.rs:88-91 | the provider segment percent-decodes to the provider name |
| ProviderStates.ScopeSegments | src/cli/pact_broker/main/provider_states/list.rs:93-110 | the path is scoped exactly when one of branch and environment is given, and its last segment decodes to that name; with both or neither it is the main-branch path |
| ProviderStates.DecodeStates | src/cli/pact_broker/main/provider_states/list.rs:12-30 | decoded states are one per element |
| ProviderStates.DecodeResponse | src/cli/pact_broker/main/provider_states/list.rs:24-30 | a response decodes only when `providerStates` is an array, one state per element |
| ProviderStates.DecodeStateJson | src/cli/pact_broker/main/provider_states/list.rs:12-22 | a state written as JSON decodes back to itself; parameters are written only when present |
| ProviderStates.DecodeStatesJson | src/cli/pact_broker/main/provider_states/list.rs:12-30 | a list of states written as the broker writes them decodes back to the same list |
| ProviderStates.DecodeResponseJson | src/cli/pact_broker/main/provider_states/list.rs:12-30 | a list of states written as a response decodes back to the same list |
| ProviderStates.DecodedStatesDecodable | src/cli/pact_broker/main/provider_states/list.rs:12-22 | a decoded state never has `null` parameters |
| ProviderStates.JsonOutputStable | src/cli/pact_broker/main/provider_states/list.rs:57-64 | the JSON output of a decoded response decodes to the same states |
| ProviderStates.StateRow | src/cli/pact_broker/main/provider_states/list.rs:151-160 | a state's row is its name, its consumers joined by ", ", and its parameters' JSON text, empty exactly when it has none |
| ProviderStates.FormatTable | src/cli/pact_broker/main/provider_states/list.rs:120-165 | the text starts with the provider heading and the scope line; with no states it says "No provider states found."; otherwise there is one row per state, in order |
| ProviderStates.ScopeLineCases | src/cli/pact_broker/main/provider_states/list.rs:132-138 | the scope line names the branch when given, else the environment when given, else the main branch |
| ProviderStates.ListProviderStates | src/cli/pact_broker/main/provider_states/list.rs:33-80 | one GET of the provider-states path; a fetch error is returned; a response that does not decode is a ContentError; JSON and pretty output give the states as JSON, table and text the formatted table |
| ProviderStates.HandleListProviderStates | src/cli/pact_broker/main/provider_states/list.rs:168-192 | without a provider, or with both branch and environment, it is a ValidationError and nothing is sent; otherwise it lists the states, as JSON exactly when `--json` is given |
| Verification.CombineIsMax | src/cli/pact_broker/main/verification/mod.rs:87-95 | the level table keeps the more severe level: it is commutative and associative, NOTICE is neutral and ERROR absorbs everything |
| Verification.LevelsOf | src/cli/pact_broker/main/verification/mod.rs:17-23 | the levels of a file's results, one per result, in order |
| Verification.HasErrorsCount | src/cli/pact_broker/main/verification/mod.rs:26-30 | a file has errors exactly when at least one of its results is an ERROR |
| Verification.WorstConcat | src/cli/pact_broker/main/verification/mod.rs:83-96 | the worst level of two lists together combines the worst level of each |
| Verification.FoldLevelsWorst | src/cli/pact_broker/main/verification/mod.rs:84-95 | folding one file's results gives the worst of the start level and the results' levels |
| Verification.FoldReportsWorst | src/cli/pact_broker/main/verification/mod.rs:83-96 | folding all files gives the worst of the start level and every result's level |
| Verification.OverallIsWorst | src/cli/pact_broker/main/verification/mod.rs:83-105 | the overall result is the most severe level of all results: ERROR exactly when some result is an error, OK exactly when there are no errors or warnings |
| Verification.Tally | src/cli/pact_broker/main/verification/mod.rs:107-164 | the summary counts exactly the ERROR results and the WARNING results across all files |
| Verification.EffectiveSpec | src/cli/pact_broker/main/verification/mod.rs:48-54 | a given specification version is kept; an unknown one is determined from the pact's metadata |
| Verification.VerifyJson | src/cli/pact_broker/main/verification/mod.rs:42-72 | V4 pacts use the V4 verifier; other pacts that are objects use the message verifier exactly when they have `messages`, else the request/response verifier; a non-object is a single ERROR at `/` |
| Verification.DisplayResults | src/cli/pact_broker/main/verification/mod.rs:74-167 | JSON output shows the reports as they are; any other output shows the overall level, the number of files, and the error and warning counts |
| PactPublish.LastDot | src/cli/pact_broker/main/pact_publish.rs:602-605 | the position of the last `.` in a file name, or none when there is no `.` |
| PactPublish.JsonExtension | src/cli/pact_broker/main/pact_publish.rs:601-606 | a directory entry's name has the `json` extension exactly when it ends in `.json` after at least one other character |
| PactPublish.AllLoaded | src/cli/pact_broker/main/pact_publish.rs:558-570 | loading succeeds exactly when every collected source has content, and then keeps every source, in order |
| PactPublish.DirSourcesSelected | src/cli/pact_broker/main/pact_publish.rs:598-616 | a directory contributes exactly its regular files with the `json` extension, by file name |
| PactPublish.DirLoaded | src/cli/pact_broker/main/pact_publish.rs:618-629 | a directory loads exactly when every selected file in it has content |
| PactPublish.LoadDir | src/cli/pact_broker/main/pact_publish.rs:595-630 | an unreadable directory fails; otherwise the directory loads exactly when every selected regular `.json` file has content, and then the loaded files are exactly the selected entries with their contents |
| PactPublish.GlobSources | src/cli/pact_broker/main/pact_publish.rs:538-552 | each glob match contributes its path and content, and an unreadable match contributes a failure under the pattern |
| PactPublish.GlobLoaded | src/cli/pact_broker/main/pact_publish.rs:538-552 | a pattern's sources all have content exactly when every match is readable |
| PactPublish.ContributionLoaded | src/cli/pact_broker/main/pact_publish.rs:520-555 | one input's sources all load exactly when the input does not fail: a file that reads, a directory whose JSON files all read, or a pattern whose matches all read |
| PactPublish.CollectedLoaded | src/cli/pact_broker/main/pact_publish.rs:520-558 | all collected sources load exactly when no input fails |
| PactPublish.LoadFiles | src/cli/pact_broker/main/pact_publish.rs:517-571 | loading succeeds exactly when no input fails (one unreadable file anywhere fails the whole load); the loaded files are every source of every input in the order of the inputs, and every file named directly is among them |
| PactPublish.Reports | src/cli/pact_broker/main/pact_publish.rs:147-157 | one report per file, each the file's name and the verifier's results at the file's own specification version |
| PactPublish.HandleMatches | src/cli/pact_broker/main/pact_publish.rs:142-172 | without `--validate` nothing is checked; a load failure or no files gives exit code 1; a display failure 3; otherwise code 2 exactly when some file has an error, else the reports; no other code occurs |
| PactPublish.NonObjectFailsValidation | src/cli/pact_broker/main/pact_publish.rs:142-172 | a loaded pact that is not a JSON object (and not V4) fails validation with code 2 |
| PactPublish.FindKey | src/cli/pact_broker/main/pact_publish.rs:269 | a group is found exactly when some group has the consumer/provider pair |
| PactPublish.SetField | src/cli/pact_broker/main/pact_publish.rs:276-289 | setting a field changes that field and no other |
| PactPublish.AppendInteractions | src/cli/pact_broker/main/pact_publish.rs:276-295 | merging appends the new pact's interactions after the kept ones when both have an `interactions` array; otherwise the kept pact is unchanged; no other field changes |
| PactPublish.MergeInto | src/cli/pact_broker/main/pact_publish.rs:269-304 | a pact for a new pair is added as a new group; one for a known pair is merged into that group |
| PactPublish.Merge | src/cli/pact_broker/main/pact_publish.rs:252-310 | grouping succeeds exactly when every file loads as a pact |
| PactPublish.FirstKeysSpec | src/cli/pact_broker/main/pact_publish.rs:251-310 | every consumer/provider pair appears once, and exactly the pairs of the files appear |
| PactPublish.PactsOfEmpty | src/cli/pact_broker/main/pact_publish.rs:251-310 | a pair has pacts exactly when some file is for that pair |
| PactPublish.MergeAllSnoc | src/cli/pact_broker/main/pact_publish.rs:276-295 | merging one more pact appends its interactions to the merge so far |
| PactPublish.MergeExisting | src/cli/pact_broker/main/pact_publish.rs:269-295 | merging a file for a known pair keeps the groups equal to the merged pacts of each pair |
| PactPublish.MergeNew | src/cli/pact_broker/main/pact_publish.rs:296-304 | inserting a file for a new pair keeps the groups equal to the merged pacts of each pair |
| PactPublish.MergeGroups | src/cli/pact_broker/main/pact_publish.rs:251-310 | when every file loads, there is one group per pair, and each holds the merge of that pair's pacts in file order |
| PactPublish.MergeAllInteractions | src/cli/pact_broker/main/pact_publish.rs:276-295 | a merged pact is the first pact with the interactions of all the pacts concatenated in order; every other field is the first pact's |
| PactPublish.OnConflict | src/cli/pact_broker/main/pact_publish.rs:242-246 | the conflict mode is "merge" exactly with `--merge`, and "overwrite" otherwise |
| PactPublish.VersionProperties | src/cli/pact_broker/main/pact_publish.rs:199-240 | without auto-detect the given version and branch are used; with it, a missing version or branch is taken from git, and it panics when git cannot supply one; a given value always wins |
| PactPublish.Tags | src/cli/pact_broker/main/pact_publish.rs:339-357 | tags are sent when given or when tagging with the git branch; the given tags come first, in order, and the git commit is appended last when asked |
| PactPublish.ContractFields | src/cli/pact_broker/main/pact_publish.rs:359-366 | the contract names the consumer and provider, says "pact" and "application/json", carries the encoded content and the conflict mode |
| PactPublish.ContractLookup | src/cli/pact_broker/main/pact_publish.rs:359-366 | the contract holds exactly the consumer and provider names, the specification, the content type, the content and the conflict mode |
| PactPublish.PayloadFields | src/cli/pact_broker/main/pact_publish.rs:324-366 | the payload names the consumer and version, holds branch, build URL and tags exactly when given, and one contract |
| PactPublish.PayloadLookup | src/cli/pact_broker/main/pact_publish.rs:324-366 | the payload holds the consumer name, the version and the one-element contract list always, the branch, build URL and tags exactly when present, and no other key |
| PactPublish.GroupPayloadPublishes | src/cli/pact_broker/main/pact_publish.rs:313-377 | a group's POST carries the version and the conflict mode in its contract |
| PactPublish.GroupRequest | src/cli/pact_broker/main/pact_publish.rs:313-377 | a group is posted exactly when there is a version and the merged pact loads, and the request is a POST to the publish relation |
| PactPublish.GroupRequestPublishes | src/cli/pact_broker/main/pact_publish.rs:313-377 | every group's request is a publish request with the version and conflict mode |
| PactPublish.PublishGroups | src/cli/pact_broker/main/pact_publish.rs:313-509 | no more posts than groups; every failure is exit code 1; success returns `{}` after posting every group |
| PactPublish.PublishedPosts | src/cli/pact_broker/main/pact_publish.rs:313-508 | the posts are, in order, the requests for the first groups |
| PactPublish.PostsPublish | src/cli/pact_broker/main/pact_publish.rs:313-377 | a post is only made with a version, and each carries that version and the conflict mode |
| PactPublish.PublishedAcceptedBeforeLast | src/cli/pact_broker/main/pact_publish.rs:497-500 | every post before the last was accepted: the first rejected post stops publishing |
| PactPublish.PublishedAll | src/cli/pact_broker/main/pact_publish.rs:313-509 | publishing succeeds exactly when every group was posted and every post was accepted |
| PactPublish.PublishPacts | src/cli/pact_broker/main/pact_publish.rs:174-515 | files that fail to load give exit code 1 with nothing sent; otherwise the first request is the index GET; every failure is code 1; success returns `{}` |
| PactPublish.PublishPactsShape | src/cli/pact_broker/main/pact_publish.rs:174-515 | with the files, the relation, the version properties and the grouping all in order, the command is the index GET followed by the group posts; otherwise at most the index GET is sent |
| PactPublish.PublishPactsPosts | src/cli/pact_broker/main/pact_publish.rs:174-515 | every request after the index GET is a POST to the publish relation with the resolved version and the conflict mode |
| PactPublish.PublishPactsComplete | src/cli/pact_broker/main/pact_publish.rs:174-515 | a successful publish sent the index GET and one POST per consumer/provider pair |
| PactPublish.NoPostOnBadFile | src/cli/pact_broker/main/pact_publish.rs:175-179 | when some input fails to load, or some file is not a pact, nothing is posted and the command does not succeed |
| PactPublish.NoPostWithoutVersion | src/cli/pact_broker/main/pact_publish.rs:326-332 | without a version, given or from git, nothing is posted |
| WebhookCreate.SplitUser | src/cli/pact_broker/main/webhooks/create.rs:48-56 | no user gives no credentials; a user without `:` is the username alone; otherwise the username holds no `:` and username, `:` and password rebuild the user |
| WebhookCreate.SplitUserJoin | src/cli/pact_broker/main/webhooks/create.rs:48-53 | a user written as a `:`-free name, `:` and a password splits back into that name and password |
| WebhookCreate.SelectedMembers | src/cli/pact_broker/main/webhooks/create.rs:145-163 | the selected events are exactly the listed events whose flag is set |
| WebhookCreate.SelectedAscending | src/cli/pact_broker/main/webhooks/create.rs:145-163 | selection keeps the listing order |
| WebhookCreate.EventOrderAscending | src/cli/pact_broker/main/webhooks/create.rs:145-163 | the six events are listed once each, in a fixed order, and every event is listed |
| WebhookCreate.EventsChosen | src/cli/pact_broker/main/webhooks/create.rs:145-164 | the events sent are exactly the flagged ones, in the fixed order, and there are none exactly when no flag is set |
| WebhookCreate.EventsJson | src/cli/pact_broker/main/webhooks/create.rs:145-169 | each event becomes one `{"name": …}` object, in order |
| WebhookCreate.PayloadLookup | src/cli/pact_broker/main/webhooks/create.rs:115-194 | with at least one event the document holds `request` and `events`, and `description`, `consumer`, `provider` and `teamUuid` exactly when those were given non-empty; no other key |
| WebhookCreate.PayloadFields | src/cli/pact_broker/main/webhooks/create.rs:115-194 | the value of each key of the document, as the arguments give it |
| WebhookCreate.PartyFields | src/cli/pact_broker/main/webhooks/create.rs:170-189 | a consumer or provider object holds its name, and its label exactly when the label is non-empty |
| WebhookCreate.RequestLookup | src/cli/pact_broker/main/webhooks/create.rs:115-138 | the `request` object holds method, headers and body always (null when not given), and the URL, username and password exactly when present; no other key |
| WebhookCreate.RequestFields | src/cli/pact_broker/main/webhooks/create.rs:115-138 | a username is sent exactly when a user is given, and a password exactly when that user contains `:` |
| WebhookCreate.SelfHref | src/cli/pact_broker/main/webhooks/create.rs:85-95 | the found webhook's self href, with its quotes removed; a response without one panics rather than failing |
| WebhookCreate.CreateTarget | src/cli/pact_broker/main/webhooks/create.rs:99-112 | creating targets the `pb:webhooks` relation after the index GET, and fails when that relation does |
| WebhookCreate.Choose | src/cli/pact_broker/main/webhooks/create.rs:73-114 | with a uuid the webhook is looked up first: when found, its self href is updated; when not found, or without a uuid, a new webhook is created; any other lookup failure is passed on; only GETs are sent |
| WebhookCreate.Endpoint | src/cli/pact_broker/main/webhooks/create.rs:61-114 | the `pb:webhook` relation is read first and its failure stops the command; then the target is chosen |
| WebhookCreate.Wrap | src/cli/pact_broker/main/webhooks/create.rs:212-215 | every failure is reported as an I/O error starting "Failed to create webhook: " |
| WebhookCreate.Deliver | src/cli/pact_broker/main/webhooks/create.rs:164-203 | without events nothing is written and the command fails; otherwise one PUT (update) or POST (create) of the document to the target, and success returns the response |
| WebhookCreate.CreateWebhook | src/cli/pact_broker/main/webhooks/create.rs:19-217 | every failure is a wrapped I/O error; without events nothing is written; only the last request may write; success means the document was written to the chosen target |
| WebhookCreate.UpdateOnlyWhenFound | src/cli/pact_broker/main/webhooks/create.rs:73-113 | on success the write is a PUT exactly when a uuid was given and the webhook was found; otherwise it is a POST to the `pb:webhooks` relation |
| Json.PathStr | src/cli/pact_broker/main/webhooks/delete.rs:45-52 | the string at a path of keys (the webhook's `_links.self.href`, the pacticipant's `pb:version-tag` href) exactly when the value there is a string, and nothing otherwise |
| WebhookDelete.WebhookPath | src/cli/pact_broker/main/webhooks/delete.rs:54-63 | a href not starting with "http" is used as it is; an absolute one is reduced to its URL path, and one that does not parse is a URL error |
| WebhookDelete.DeleteOutcome | src/cli/pact_broker/main/webhooks/delete.rs:85-100 | a 2xx status succeeds with `{}`; 404 is NotFound; any other status an I/O error with the status and body; a request that cannot be sent an I/O error with its reason |
| WebhookDelete.DeleteFound | src/cli/pact_broker/main/webhooks/delete.rs:44-100 | without a self link nothing is sent and the command fails; at most one DELETE, and success means the DELETE of the joined self path succeeded |
| WebhookDelete.LookupAndDelete | src/cli/pact_broker/main/webhooks/delete.rs:34-100 | the webhook is looked up through the `pb:webhook` template with the uuid; a failed lookup stops the command; otherwise the webhook found is deleted; only the last request may write |
| WebhookDelete.DeleteRun | src/cli/pact_broker/main/webhooks/delete.rs:22-101 | the index GET comes first, and a failure to find the relation stops the command |
| WebhookDelete.DeleteWebhook | src/cli/pact_broker/main/webhooks/delete.rs:12-116 | a missing uuid fails before any request; otherwise the deleted message exactly when the deletion succeeded, the not-found message exactly when something was NotFound, and other failures passed on |
| WebhookDelete.MissingWebhookSucceeds | src/cli/pact_broker/main/webhooks/delete.rs:36-42 | a webhook the lookup does not find is reported as not found, with success, and nothing is deleted |
| WebhookDelete.DeleteNotFoundSucceeds | src/cli/pact_broker/main/webhooks/delete.rs:91-92 | a DELETE answered 404 is reported as not found, with success |
| Environments.EmailLookup | src/cli/pact_broker/main/environments/create.rs:47-89 | the contact holds the contact name, and the email address at the place its style uses, exactly when each is given |
| Environments.PayloadLookup | src/cli/pact_broker/main/environments/create.rs:38-89 | the environment document holds `production` and the name always, `contacts` exactly when a contact name or email is given, `displayName` exactly when given, and no other key |
| Environments.PayloadFields | src/cli/pact_broker/main/environments/create.rs:38-89 | there is a single contact, with the given name and email, exactly when either is given |
| Environments.EmailPlacement | src/cli/pact_broker/main/environments/update.rs:74-92 | creating stores the email under `details.emailAddress` and updating under `email`, never both |
| Environments.CreateEnvironment | src/cli/pact_broker/main/environments/create.rs:13-123 | the `pb:environments` relation is read first and its failure is returned; without a name nothing is posted and the command fails with a validation error; otherwise the document is POSTed; success gives the fixed message, and a failed POST is passed on |
| Environments.EnvironmentHref | src/cli/pact_broker/main/environments/update.rs:19-22 | the environment's URL ends in `/environments/<uuid>` |
| Environments.HrefIgnoresTrailingSlash | src/cli/pact_broker/main/environments/update.rs:19-22 | a trailing `/` on the broker URL does not change the environment's URL |
| Environments.UpdateResult | src/cli/pact_broker/main/environments/update.rs:114-138 | the `json` format returns the response as JSON text; every other format returns the updated message |
| Environments.UpdateEnvironment | src/cli/pact_broker/main/environments/update.rs:10-172 | the environment is fetched first: when missing the error names the uuid (or is `{}` for json), other fetch errors are passed on; then a missing name fails with nothing written; otherwise the document is PUT to the same URL and its failure is passed on |
| Deployments.DecodeEncodeLink | src/cli/pact_broker/main/deployments/record_deployment.rs:45-51 | a link written with its href and name decodes back to itself |
| Deployments.DecodeLinks | src/cli/pact_broker/main/deployments/record_deployment.rs:34-56 | the links decode exactly when each one does, and then in order |
| Deployments.DecodeEncodeLinks | src/cli/pact_broker/main/deployments/record_deployment.rs:34-56 | decoding a written list of links gives the list back |
| Deployments.VersionLinks | src/cli/pact_broker/main/deployments/record_deployment.rs:34-56 | the version decodes exactly when `_links` holds the relation as an array of links that all decode, one link per entry |
| Deployments.FindNamed | src/cli/pact_broker/main/deployments/record_deployment.rs:59 | the first link named after the environment, and none exactly when no link is |
| Deployments.RecordBodyFields | src/cli/pact_broker/main/deployments/record_deployment.rs:67-71 | a release posts `{}`; a deployment posts its target environment, and the application instance exactly when one is given |
| Deployments.RecordedResult | src/cli/pact_broker/main/deployments/record_deployment.rs:76-93 | a deployment returns the response as pretty or compact JSON for those formats and the message otherwise; a release always returns the message |
| Deployments.PostToEnvironment | src/cli/pact_broker/main/deployments/record_deployment.rs:59-104 | no link for the environment is NotFound with nothing posted; otherwise one POST to the first matching link, whose failure is passed on |
| Deployments.Record | src/cli/pact_broker/main/deployments/record_release.rs:26-135 | the version is fetched first and its failure passed on; a response that does not decode is a content error with nothing posted; at most one POST follows |
| Deployments.DecodeEnvironments | src/cli/pact_broker/main/deployments/record_support_ended.rs:49-65 | the environments decode exactly when every entry has a string uuid and name, and then in order |
| Deployments.FindEnvironment | src/cli/pact_broker/main/deployments/record_support_ended.rs:66-68 | the uuid of the first environment with the name, and none exactly when no environment has it |
| Deployments.EndSupportAsWritten | src/cli/pact_broker/main/deployments/record_support_ended.rs:100-126 | the loop as written: the requests are the support-ended PATCHes of the leading versions, each at its own self href and in order, and every version PATCHed is the pacticipant's; success means every version is the pacticipant's and each was PATCHed; the only error is NotFound for released versions, and it comes at the first version of another pacticipant, right after the PATCHes of the versions before it |
| Deployments.EndSupport | src/cli/pact_broker/main/deployments/record_support_ended.rs:100-126 | the corrected loop: success returns "" after PATCHing exactly the pacticipant's versions (`Mine`), each at its own self href and in order, skipping the others, and needs at least one of them; the only error is NotFound for released versions, reported with nothing sent and only when every version names another pacticipant |
| Deployments.EndSupportNotFoundOnlyWhenNoneMatch | src/cli/pact_broker/main/deployments/record_support_ended.rs:100-126 | the corrected loop reports NotFound only when no released version belongs to the pacticipant, and then it PATCHes nothing |
| Deployments.LoopsAgreeWhenAllMatch | src/cli/pact_broker/main/deployments/record_support_ended.rs:100-126 | when every released version belongs to the pacticipant the loop as written and the corrected loop agree |
| Deployments.AsWrittenPatchesThenReportsNotFound | src/cli/pact_broker/main/deployments/record_support_ended.rs:100-126 | for [A's version, B's version] and pacticipant A the loop as written PATCHes A's version and then reports NotFound |
| Deployments.ReleasedVersions | src/cli/pact_broker/main/deployments/record_support_ended.rs:93-137 | `_embedded` that is not an object is a HAL relation error; a missing `releasedVersions` panics; one that is not an array, or is empty, is NotFound; otherwise each version is read in order |
| Deployments.EndFound | src/cli/pact_broker/main/deployments/record_support_ended.rs:89-137 | the loop as written runs over the released versions: nothing is sent when they cannot be read; otherwise the requests are the PATCHes of the leading versions at their self hrefs, in order, all of them the pacticipant's; success returns "" after one PATCH per released version, all the pacticipant's; every error is NotFound, and once the versions are read it comes at the first version of another pacticipant |
| Deployments.EndForEnvironment | src/cli/pact_broker/main/deployments/record_support_ended.rs:72-147 | the environment is fetched first, then the currently-supported versions, then only PATCHes; every error is NotFound |
| Deployments.ListedEnvironments | src/cli/pact_broker/main/deployments/record_support_ended.rs:60-65 | the listed environments when the list is an array of decodable entries; anything else panics rather than failing |
| Deployments.RecordSupportEnded | src/cli/pact_broker/main/deployments/record_support_ended.rs:11-160 | the index GET comes first, and its failure exits with status 1; an unknown environment is NotFound after the two GETs, with nothing written; after four GETs only support-ended PATCHes are sent; every error is NotFound |
| Pacticipants.PayloadLookup | src/cli/pact_broker/main/pacticipants/create.rs:59-74 | the pacticipant document holds the name always, and `displayName`, `mainBranch` and `repositoryUrl` exactly when given; no other key |
| Pacticipants.PayloadFields | src/cli/pact_broker/main/pacticipants/create.rs:100-120 | each key of the document holds the given value |
| Pacticipants.Write | src/cli/pact_broker/main/pacticipants/create.rs:76-89 | one write; success gives the updated or created message; a failure is an I/O error naming the pacticipant and what was attempted |
| Pacticipants.Create | src/cli/pact_broker/main/pacticipants/create.rs:91-135 | the `pb:pacticipants` relation is read and the document POSTed to it; a relation that cannot be read panics after the index GET |
| Pacticipants.Decide | src/cli/pact_broker/main/pacticipants/create.rs:37-138 | the pacticipant is looked up first: when found its self href is PATCHed; when not found it is created; any other lookup failure is passed on |
| Pacticipants.CreateOrUpdate | src/cli/pact_broker/main/pacticipants/create.rs:19-139 | the `pb:pacticipant` relation is read first and its failure passed on; then the lookup decides |
| Pacticipants.PatchIffFound | src/cli/pact_broker/main/pacticipants/create.rs:50-138 | a found pacticipant is PATCHed at its self href (third request); a missing one is POSTed to `pb:pacticipants` (fourth request); any other lookup failure writes nothing and is returned |
| Versions.Plan | src/cli/pact_broker/main/versions/create.rs:28-58 | one PUT per tag, plus one for the branch when given; the branch PUT comes first and the tags follow in order, each with body `{"name": …}` |
| Versions.SendInOrder | src/cli/pact_broker/main/versions/create.rs:36-56 | the requests are sent in order and the first failure stops the run; success means every request was sent and accepted |
| Versions.PutVersion | src/cli/pact_broker/main/versions/create.rs:60-80 | one PUT of the bare version; a failure is an I/O error naming the version |
| Versions.CreateOrUpdateVersion | src/cli/pact_broker/main/versions/create.rs:6-84 | without branch and tags the bare version is PUT; otherwise the branch and tag PUTs are sent in order, and the first failure is returned as it is |
| Versions.VersionPutIffBare | src/cli/pact_broker/main/versions/create.rs:59-80 | every request is a PUT, and the bare version with body `{}` is sent exactly when there is no branch and no tag |
| Versions.DescribeValues | src/cli/pact_broker/main/versions/describe.rs:42-46 | the template values are the pacticipant, the version or "", and the tag or "" |
| Versions.DescribeOutput | src/cli/pact_broker/main/versions/describe.rs:20-23 | the output format as parsed, and table when absent or unreadable |
| Versions.TagNames | src/cli/pact_broker/main/versions/describe.rs:66-76 | the names of the tags are exactly those tags whose `name` is a string |
| Versions.TagNamesOfTags | src/cli/pact_broker/main/versions/describe.rs:66-76 | reading back tags written as `{"name": …}` gives the names in order |
| Versions.View | src/cli/pact_broker/main/versions/describe.rs:51-93 | text output fails with NotFound exactly when chosen; json and pretty give the JSON text; table gives the NAME/TAGS table of one row |
| Versions.DescribeFound | src/cli/pact_broker/main/versions/describe.rs:38-99 | one GET of the version template; a version not found gives the fixed NotFound message; other errors are passed on |
| Versions.DescribeVersion | src/cli/pact_broker/main/versions/describe.rs:13-100 | the index GET comes first; a relation that cannot be read panics; otherwise the version is fetched through it |
| Versions.DescribeReadsOnly | src/cli/pact_broker/main/versions/describe.rs:13-100 | describing a version sends at most two requests, and only GETs |
| Tags.SendEach | src/cli/pact_broker/main/tags/create_version_tag.rs:43-67 | every request is sent in order whatever each answers; only a halt stops the run early |
| Tags.CreateVersionTag | src/cli/pact_broker/main/tags/create_version_tag.rs:6-84 | the version is fetched first; without `--auto-create-version` a version that cannot be fetched is NotFound, with no tag written, and this is the only error; otherwise every tag is PUT in order and the command succeeds |
| Tags.TagFailuresAreIgnored | src/cli/pact_broker/main/tags/create_version_tag.rs:63-66 | when the version exists, failed tag PUTs do not fail the command: it returns the tagged message after one PUT per tag, in order |
| Tags.TagValues | src/cli/pact_broker/main/tags/delete_tag.rs:58-62 | the template values are the pacticipant, the version and the tag |
| Tags.DeleteFromPacticipant | src/cli/pact_broker/main/tags/delete_tag.rs:45-75 | without a `pb:version-tag` link the result is NotFound with no request; otherwise one DELETE of the expanded template |
| Tags.LookupAndDelete | src/cli/pact_broker/main/tags/delete_tag.rs:29-75 | the pacticipant is looked up first, and a failed lookup is passed on with nothing deleted |
| Tags.DeleteRun | src/cli/pact_broker/main/tags/delete_tag.rs:17-76 | the index GET comes first, and a failure to read the relation stops the command |
| Tags.MessagesDiffer | src/cli/pact_broker/main/tags/delete_tag.rs:78-94 | the deleted and the not-found messages are different |
| Tags.Report | src/cli/pact_broker/main/tags/delete_tag.rs:78-96 | success gives the deleted message; NotFound gives the not-found message as a success; other errors are passed on |
| Tags.DeleteVersionTag | src/cli/pact_broker/main/tags/delete_tag.rs:8-97 | the requests are those of the lookup-and-delete run; the command reports the deleted message exactly when that run succeeded, and the not-found message (as a success) exactly when a NotFound stopped it; any other error is passed on unchanged |
| Tags.ReportDistinguishes | src/cli/pact_broker/main/tags/delete_tag.rs:78-96 | the deleted message exactly when the DELETE succeeded; the not-found message exactly when something was NotFound; an error exactly for any other failure |
| Tags.MissingLinkReportsNotFound | src/cli/pact_broker/main/tags/delete_tag.rs:51-55 | a pacticipant without a `pb:version-tag` link gives the not-found message, with only the two GETs sent |
| Tags.DeleteTargetsTemplate | src/cli/pact_broker/main/tags/delete_tag.rs:45-86 | with the link, the requests are the index GET, the lookup and the DELETE of the expanded template, and an accepted DELETE gives the deleted message |
| Branches.ErrorWhenNotFound | src/cli/pact_broker/main/branches/delete_branch.rs:18-22 | a missing branch is an error unless the flag is an explicit `false` |
| Branches.BranchValues | src/cli/pact_broker/main/branches/delete_branch.rs:37-40 | the template values are the pacticipant and the branch |
| Branches.DeleteRun | src/cli/pact_broker/main/branches/delete_branch.rs:25-49 | the index GET comes first and a relation failure stops the command; otherwise one DELETE of the expanded template |
| Branches.Report | src/cli/pact_broker/main/branches/delete_branch.rs:51-73 | success gives the deleted message; NotFound gives the not-found message, as an error or a success as the flag says; other errors are passed on |
| Branches.DeleteBranch | src/cli/pact_broker/main/branches/delete_branch.rs:11-74 | the requests are those of the delete run; the deleted message comes exactly when the DELETE of the expanded branch template succeeded; a NotFound fails the command exactly when the flag is not an explicit false, and either way names the branch; other errors are passed on |
| Branches.NotFoundFailsUnlessDisabled | src/cli/pact_broker/main/branches/delete_branch.rs:60-71 | a branch that is not found fails the command exactly when the flag is not an explicit `false`, and the message names the branch either way |
| Branches.DeletedIffOk | src/cli/pact_broker/main/branches/delete_branch.rs:51-73 | the deleted message is returned exactly when the DELETE succeeded |
| Branches.DeleteTargetsTemplate | src/cli/pact_broker/main/branches/delete_branch.rs:28-48 | with the relation, the only DELETE is of the template expanded with the pacticipant and branch |
| ProviderContracts.Detected | src/cli/pactflow/main/provider_contracts/publish.rs:154-203 | a given version or branch is kept; a missing one is taken from git only when auto-detection is on |
| ProviderContracts.SelfResultsLookup | src/cli/pactflow/main/provider_contracts/publish.rs:223-253 | the self-verification results hold `success` always, the encoded results, content type, format, verifier and verifier version exactly when given, and no other key |
| ProviderContracts.SelfResultsFields | src/cli/pactflow/main/provider_contracts/publish.rs:223-253 | the results content is sent base64-encoded, the rest as given |
| ProviderContracts.ContractLookup | src/cli/pactflow/main/provider_contracts/publish.rs:215-253 | the contract holds the encoded content, the specification and the content type, and the self-verification results exactly when any result, verifier or verifier version is given; no other key |
| ProviderContracts.ContractFields | src/cli/pactflow/main/provider_contracts/publish.rs:158-165 | the specification defaults to "oas" and the content type to "application/yaml" |
| ProviderContracts.TagList | src/cli/pactflow/main/provider_contracts/publish.rs:261-278 | tags are sent exactly when given or when tagging with the git branch; the given tags come first, in order, then the git branch |
| ProviderContracts.Strings | src/cli/pactflow/main/provider_contracts/publish.rs:263-268 | each tag becomes one JSON string, in order |
| ProviderContracts.PayloadLookup | src/cli/pactflow/main/provider_contracts/publish.rs:255-285 | the document holds the version and the contract always, the tags as above, and the branch and build URL exactly when present; no other key |
| ProviderContracts.PayloadFields | src/cli/pactflow/main/provider_contracts/publish.rs:255-285 | the value of each key of the document, as the arguments and git give it |
| ProviderContracts.PostContract | src/cli/pactflow/main/provider_contracts/publish.rs:204-354 | without a version the command panics before the POST; otherwise one POST to the relation with the provider filled in, and the result is `{}` whatever the POST answers |
| ProviderContracts.Publish | src/cli/pactflow/main/provider_contracts/publish.rs:122-361 | an unreadable contract file gives exit code 1 before any request; the index GET comes next, and a failed relation exits with status 1; otherwise the contract is posted |
| ProviderContracts.PostTargetsProvider | src/cli/pactflow/main/provider_contracts/publish.rs:204 | a relation written with one `{provider}` placeholder becomes the provider's own URL |
| ProviderContracts.PostFailureIsIgnored | src/cli/pactflow/main/provider_contracts/publish.rs:350-354 | once the relation is found and a version is known, a failed POST still returns `{}` |

## Left out

- HTTP transport (reqwest, the tokio runtime, headers, authentication on the wire) is left out. The broker is the parameter `Client.Broker`, and `Hal.ParseBrokerResponse` classifies a reply given as status, reason phrase, content type and body.
- Hal.ParseBrokerResponse: the reason phrase of a status (`Response.reason`) is an input from the HTTP library. Its table of canonical reasons is not modelled. Only how `StatusCode`'s display joins number and phrase is modelled, as `Hal.StatusText`.
- URL parsing and joining are left out, along with the broker's context-path handling. A request's path is the string the command builds. In `WebhookDelete`, parsing and joining are parameters (`Net`).
- TLS and certificate loading in `HALClient::setup` are left out. Only the options it reads are modelled.
- The sleeping in `with_retries` is left out. `Utils.WithRetries` returns the delays it would wait, as data.
- Hal.WordRun: placeholder names are read as ASCII letters, digits and `_`. The `regex` crate's `\w` at main.rs:511 also matches Unicode letters and digits, so a template such as `/p/{é}` is expanded by the program but kept as written by the model. The broker's own templates use ASCII names only.
- Utils.WithRetries: `10_u64.pow(attempt)` is modelled on unbounded integers. Its 64-bit overflow, reached only with 20 or more retries, is not modelled.
- Mime parsing, base64 encoding, git detection, glob matching and file reading are parameters or inputs. Their behaviour belongs to other libraries.
- The pact download directory is the parameter `GetPacts.DownloadDir`: it carries the error text for creating the directory and for writing each file name. The files' contents on disk, and the printed paths, are not modelled. `serde_json::to_string_pretty` on a JSON value cannot fail, so the "Failed to serialize pact content" ContentError at get_pacts.rs:231-233 has no model.
- The `pact_models` verifiers and `load_pact_from_json` are left out. Their results are inputs.
- Printing, ANSI colours and table drawing are left out. Tables are modelled as headers and rows (`Utils.GenerateTable`).
- CanIDeploy.Verdict: the "Computer says yes" text is modelled without the ANSI colour codes that `console::Style` puts around `\o/` (can_i_deploy.rs:321-324). When colours are enabled, the text the program returns carries those escapes. The other verdict texts it returns are uncoloured.
- serde's error texts are not modelled. A "Failed to parse response" error carries no serde detail.
- serde_json object key order is not modelled. Objects are entry lists looked up by key.
- Floating-point values are not modelled. JSON numbers are integers.
- The `todo!()` branches of `get_auth`, reached only when clap reports a type mismatch, are not modelled.
- `HALClient::with_doc_context`, `navigate` and `update_path_info` are modelled only through the path information passed in.
- PactPublish.PublishGroups: the source groups pacts in a `HashMap`, so the order of publication is unspecified. The model publishes groups in the order their consumer/provider pair first appears, and states completeness and per-group contents rather than an order.
- `record_undeployment.rs` is not part of this model. It builds its errors, discards them and always returns Ok, relying on process exit, so it states no contract.
- The commands that only fetch and print (environments list, describe and delete; pacticipants list and describe; `list_latest_pact_versions.rs`; `webhooks/test.rs`) are not part of this model.
- The async pipelines `fetch_pacts_from_broker`, `fetch_pacts_dynamically_from_broker` and `fetch_pact_from_url` are not part of this model.
- Not part of this model: clap declarations and dispatch (`subcommands.rs`, `cli.rs`, the client entry points), telemetry (`otel.rs`), the logger and glob wrappers in `src/cli/utils.rs`, and test utilities.
- Errors.Message: for a validation error with two or more messages, the contract does not state the `", "` join. It states the single-message and empty cases only.
- Errors.DebugList: states only that the `Debug` rendering of a list is bracketed. The escaping of each element is not stated.
- CanIDeploy.ParseSelectors: states only that parsing never returns an error (it panics when a flag lacks its value). The selectors it produces are stated by `CanIDeploy.ParsedNames`, `CanIDeploy.LaterVersionWins`, `CanIDeploy.ReadTags` and `CanIDeploy.ReadStop`.

## Notes on the code as written

- `handle_error` (`utils.rs:261-279`) ends the process with status 1, so code written to return after it never does. Some examples:
  - the `Err(1)` after a failed relation lookup in provider-contract publishing (`publish.rs:356-359`);
  - the failed fetches in `record_support_ended`.
  These are modelled as `Halted(Exit(1))`.
- In `record_support_ended`, `_embedded` is read as a map and indexed directly. A missing `releasedVersions` key therefore panics rather than giving NotFound. `_embedded` that is not an object, or `releasedVersions` that is not an array, gives NotFound.
- The support-ended loop returns `""` on success, not its closing message.
- The support-ended command (`Deployments.EndFound`, `Deployments.EndForEnvironment`, `Deployments.RecordSupportEnded`) runs the loop as written, `Deployments.EndSupportAsWritten`. The corrected loop `Deployments.EndSupport` is defined beside it for the finding below and is not part of the command.
- In pact publishing, tagging with the git branch appends the git *commit* to the tags (`pact_publish.rs:348-357`). Provider-contract publishing appends the git branch.
- In pact publishing, auto-detection unwraps git's answer. When git cannot supply a version or branch, the command panics instead of returning an error.
- In provider-contract publishing, a missing version panics at the `unwrap` that prints it, before the POST. `pacticipantVersionNumber: null` is therefore never sent.
- Creating a version tag with `--tag-with-git-branch` only prints a line. No tag is written for the branch.

## Findings

| source | as written | input that shows it | evidently intended | confidence | as-written member | corrected member |
|---|---|---|---|---|---|---|
| src/cli/pact_broker/main/deployments/record_support_ended.rs:100-126 | the loop over released versions returns NotFound "No currently released versions found" at the first version of another pacticipant, even after PATCHing earlier versions of the requested one, and skips the rest | released versions [A with self href /rv/1, B], pacticipant A | skip versions of other pacticipants; report NotFound only when none belongs to the pacticipant | medium; not executed | Deployments.EndSupportAsWritten (Deployments.AsWrittenPatchesThenReportsNotFound) | Deployments.EndSupport (Deployments.EndSupportNotFoundOnlyWhenNoneMatch, Deployments.LoopsAgreeWhenAllMatch) |
