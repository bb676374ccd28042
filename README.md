# confluence-cli, modelled in Dafny

A model of the core of `confluence-cli`, a command-line tool for Confluence
Server / Data Center. It covers:

- the REST client: the request loop with retries and backoff, the error
  taxonomy, page lookup, creation, the optimistic-locking update, and the
  listing and search calls;
- the profile configuration: the TOML writer, the merge that `save_config`
  does and the selection that `load_config` does, and the option resolvers;
- the decisions of the `create`, `author`, `config doctor` and `browse`
  commands.

Modules, one file each:

| module | file | models |
|---|---|---|
| `Wrappers` | wrappers.dfy | `Option` and `Result` |
| `Strings` | strings.dfy | the Python string methods the core uses (ASCII `lower`, `strip`, `in`, `join`, `str(int)`) |
| `JsonValues` | json_values.dfy | JSON/TOML values, Python truthiness, `dict.get`, `d[k] = v`, `or`, `str()` and `repr()` |
| `Errors` | errors.dfy | `errors.py` |
| `Client` | client.dfy | `client.py`: the class `ConfluenceClient` over a scripted HTTP session |
| `ClientProps` | client_props.dfy | properties of the client: retries, errors, the update protocol, paging |
| `Config` | config.dfy | `utils/config.py` |
| `CreateDocument` | create_document.dfy | `commands/create_document.py` |
| `Author` | author.dfy | the LLM choice and the draft slug of `commands/author.py` |
| `ConfigDoctor` | config_cmd.dfy | `config doctor` of `commands/config_cmd.py` |
| `Browse` | browse.dfy | `commands/browse.py`: the CQL, the result rows, the tree depth rule, and the interactive browser as the class `Browser` |

The client is a Dafny class. Its `script` field holds the outcomes the
HTTP session will still produce, one per request. Its `sent` and `slept`
fields record the requests sent and the delays slept. Each method is
specified by a function of the old session (`Exec` for `_request`,
`UpdateSpec` for `update_page`, `AllChildrenSpec` for `list_all_children`).
The properties are proved about those functions in `ClientProps`. Once the
script is exhausted the model fails with `ScriptExhausted`. That is how a
request loop that would otherwise re-send forever ends in the model.

The interactive browser is the class `Browse.Browser`. Its fields are the
state the key handlers share in the source (mode, page id, page size, start,
items, index, back stack, current space), plus an `ended` flag. The
server it talks to is a `Site` value, which gives the answer to each call
`load()` and the handlers make. The homepage lookup and `get_page` are not
always guarded by `except` in the source, so the `Site` can make them raise.
A failure of the homepage lookup or read that `interactive` makes before
starting the application ends the command: the model sets `ended`, and no
key is taken. An exception raised by a key handler does not end the
browser: the application reports it and goes on dispatching keys, so the
model keeps the changes the handler made before the failing call and lets
later keys act on that state. Every key handler is a method whose new
state is a function of the old one, and the lemmas about those functions
prove that the state stays valid.

`update_page` takes the retry rule as a parameter: `TextHas409` is the test
the code uses as written (`"409" in str(e)`), `StatusIs409` the corrected
one (the error is a Conflict). See Findings.

## Model

| member | source | states |
|---|---|---|
| Errors.Classify | src/confluence/errors.py:37-48 | A status raises exactly when it is in 400-599, and the kind raised is the one whose documented statuses cover it |
| Errors.ClassifyIsTheCoveringKind | src/confluence/errors.py:1-26 | Each status in 400-599 belongs to exactly one error class, and that class is the one raised |
| Errors.RaiseForStatus | src/confluence/errors.py:29-48 | Raises exactly for 400-599, with the covering kind and the detail built from the description and the payload |
| Errors.Detail | src/confluence/errors.py:30-35 | Defines the error detail; stated by Errors.DetailWithoutPayloadFields, Errors.DetailPrefersMessage and Errors.DetailStartsWithMessage |
| Errors.DetailWithoutPayloadFields | src/confluence/errors.py:30-35 | With no message, title or reason in the payload, the detail is the request description itself |
| Errors.DetailPrefersMessage | src/confluence/errors.py:31-35 | The payload's `message` is used before `title`, and `reason` follows it; the result is stripped |
| Errors.DetailStartsWithMessage | src/confluence/errors.py:30-35 | A description with no blanks at its ends is always the start of the detail |
| Client.StripSlashes | src/confluence/client.py:14 | The base URL is a prefix of the given one, does not end in '/', and only slashes were removed |
| Client.Url | src/confluence/client.py:29 | The URL is the base URL, one '/', then the path, whether or not the path starts with '/' |
| Client.Attempts | src/confluence/client.py:30-61 | The request loop uses at least one and at most all the outcomes left |
| Client.AttemptsStep | src/confluence/client.py:31-61 | One iteration of the loop: stop with a result, sleep and retry, or re-send at once |
| Client.Exec | src/confluence/client.py:27-61 | One `_request` never adds outcomes, and a success consumes at least one |
| Client.LimitParam | src/confluence/client.py:262 | The page size sent is `limit` clamped to 1..100 |
| Client.StartParam | src/confluence/client.py:263 | The offset sent is `start`, or 0 when negative |
| Client.SelectUnderParent | src/confluence/client.py:183-187 | The loop returns the first result, in order, that has an ancestor with the parent id, and None when no result has one |
| Client.ConfluenceClient.constructor | src/confluence/client.py:12-24 | The base URL loses its trailing slashes; retries and backoff are kept; nothing was sent or slept yet |
| Client.ConfluenceClient.Send | src/confluence/client.py:34 | A request consumes the next outcome and is recorded; with no outcome left nothing changes |
| Client.ConfluenceClient.Sleep | src/confluence/client.py:38 | A sleep is recorded after the earlier ones; nothing else changes |
| Client.ConfluenceClient.Request | src/confluence/client.py:27-61 | The loop's result and new session are those of `Exec` on the old session |
| Client.ConfluenceClient.GetSpaceHomepage | src/confluence/client.py:109-119 | One GET of the space with `expand=homepage`; the homepage id as a string when truthy, else None; a failure propagates |
| Client.ConfluenceClient.CreatePage | src/confluence/client.py:122-138 | One POST of the page payload, expecting 200 or 201 |
| Client.ConfluenceClient.GetPage | src/confluence/client.py:140-145 | One GET of the page with body, version and ancestors expanded |
| Client.ConfluenceClient.GetPageRenderedHtml | src/confluence/client.py:147-163 | One GET of the requested view, giving its HTML value or "" |
| Client.ConfluenceClient.FindPageByTitle | src/confluence/client.py:165-187 | One search by title and space; the first result without a parent id, else the first under the parent |
| Client.ConfluenceClient.UpdatePage | src/confluence/client.py:189-250 | The result and the session are those of the update protocol `UpdateSpec` under the given retry rule, the text test as written or the Conflict test |
| Client.UpdateSpec | src/confluence/client.py:189-250 | Defines the update protocol: read the page, PUT the payload with its version plus one, and on a failure the rule accepts (with `_retry`) read again and PUT the refreshed version plus one; its properties are proved by ClientProps.UpdateProtocol |
| Client.CurrentVersion | src/confluence/client.py:207 | Defines the current version: `number` of the `version` object, 0 when missing; proved with the payloads by ClientProps.UpdatePayloadVersion |
| Client.UpdatePayload | src/confluence/client.py:209-225 | Defines the PUT payload; its fields are stated by ClientProps.UpdatePayloadFields and ClientProps.UpdatePayloadVersion |
| Client.SetVersion | src/confluence/client.py:242 | Defines the payload with only its version number replaced; see ClientProps.SetVersionVersion and ClientProps.SetVersionOfUpdatePayload |
| Client.AllChildrenSpec | src/confluence/client.py:286-300 | Defines the paging of `list_all_children`; proved complete by ClientProps.AllChildrenComplete |
| Client.ConfluenceClient.PageLink | src/confluence/client.py:63-106 | Defines the page link; its branches are stated by ClientProps.PageLinkFromLinks and ClientProps.PageLinkFromId |
| Client.ConfluenceClient.RefetchAndPut | src/confluence/client.py:240-249 | The conflict round: a second read, then a PUT of the first payload with the refreshed version plus one |
| Client.ConfluenceClient.ListPagesInSpace | src/confluence/client.py:253-274 | One GET of the space's pages; with a non-empty title needle, exactly the results whose title contains it ignoring case |
| Client.ConfluenceClient.ListChildren | src/confluence/client.py:276-284 | One GET of the page's child pages; its results, or the failure |
| Client.ConfluenceClient.ListAllChildren | src/confluence/client.py:286-300 | The paging loop does what `AllChildrenSpec` does: chunks of 100 from offset 0 until a short or empty one |
| Client.ConfluenceClient.SearchCql | src/confluence/client.py:302-318 | One search; the contents of the hits whose type is "page", in order |
| ClientProps.TransientFailuresExhaustBudget | src/confluence/client.py:33-54 | Facing only network errors and transient statuses, the loop sends `retries + 1` requests and sleeps backoff doubling (or Retry-After) between them, then raises the last failure |
| ClientProps.RequestGivesUpAfterRetries | src/confluence/client.py:36-61 | The same for one `_request`: `retries + 1` requests sent, `retries` delays slept, the last failure raised |
| ClientProps.TransientStep | src/confluence/client.py:36-54 | A transient failure is retried while `attempt <= retries`, and raised as a real error after |
| ClientProps.SucceedsAfterTransientFailures | src/confluence/client.py:42-54 | After fewer transient failures than the budget allows, the expected response's JSON is returned, with one delay per failure |
| ClientProps.NeutralStatusIsResent | src/confluence/client.py:31-61 | A status neither expected nor in 400-599 is re-sent at once with no delay, for as long as it comes |
| ClientProps.ApiFailureStartsWithMessage | src/confluence/client.py:56-61 | Every raised ConfluenceError's detail starts with "METHOD url" |
| ClientProps.ExecStops | src/confluence/client.py:42-61 | When the first outcome decides the request, exactly that outcome is used and nothing is slept |
| ClientProps.ExecApiFailureStartsWithMessage | src/confluence/client.py:56-61 | A request's raised error carries its own description at the front |
| ClientProps.ErrorStatusRaises | src/confluence/client.py:48-61 | An unexpected status in 400-599 that is not retried raises its kind at once |
| ClientProps.RetryThenSuccessScenario | src/confluence/client.py:42-54 | With two retries, a 500 then a 200 with `{"ok": true}` returns `{"ok": true}` after one delay |
| ClientProps.NotFoundScenario | src/confluence/client.py:56-61 | With no retries, a 404 raises NotFound whose detail is "GET https://x/nope" |
| ClientProps.NotFoundWithoutPayload | src/confluence/errors.py:30-41 | A 404 with an empty payload raises NotFound carrying the description alone |
| ClientProps.UpdatePayloadFields | src/confluence/client.py:198-224 | The update payload carries the page id, the read page's type ("page" when missing), the given title when non-empty and else the read page's title, the minor-edit flag, and the new HTML as its storage value in storage representation |
| ClientProps.UpdatePayloadVersion | src/confluence/client.py:210-224 | The update payload carries the version number it was built with |
| ClientProps.SetVersionVersion | src/confluence/client.py:242 | After `payload["version"]["number"] = v` the payload's version is `v` |
| ClientProps.SetVersionOfUpdatePayload | src/confluence/client.py:242-249 | The second payload is the first with only the version changed |
| ClientProps.UpdateProtocol | src/confluence/client.py:189-250 | Under either rule: at most two reads and two PUTs; each PUT carries the version just read plus one; the result is the last PUT's or the failed read's; a second round happens exactly when `_retry` is set and the rule accepts the first PUT's failure |
| ClientProps.StaleVersionConflictIsNotRetried | src/confluence/client.py:237 | As written, a stale-version 409 whose text has no "409" is raised after a single PUT, with no second read |
| ClientProps.IdWith409RetriesAnyError | src/confluence/client.py:237 | As written, when the page id contains "409", every API error of the first PUT is followed by a second read |
| ClientProps.PutErrorMentionsId | src/confluence/client.py:226-237 | Every error a PUT raises mentions the page id, so an id with "409" fires the text rule |
| ClientProps.StaleVersionConflictIsRetriedByStatus | src/confluence/client.py:235-249 | With the Conflict rule, a stale-version 409 is answered by a second read and a PUT of the refreshed version plus one, whose success is the result |
| ClientProps.ConflictPutFails | src/confluence/client.py:226-233 | A 409 answering a PUT raises Conflict at once, whatever the retry budget |
| ClientProps.AllChildrenComplete | src/confluence/client.py:286-300 | Against a server that pages its children by 100, `list_all_children` returns every child from the offset on, in order, and uses exactly its answers |
| ClientProps.ChildrenAnswerRead | src/confluence/client.py:289-299 | After a chunk, the listing stops when it has fewer than 100 items and goes on from the next offset otherwise |
| ClientProps.PageContentsAreThePages | src/confluence/client.py:312-318 | The search keeps exactly the contents whose type is "page" |
| ClientProps.PageContentsConcat | src/confluence/client.py:312-318 | The pages of two runs of hits are those of the first followed by those of the second, so order and repeats are kept |
| ClientProps.PageContentsOfOne | src/confluence/client.py:314-317 | One hit gives its content exactly when that content's type is "page" |
| ClientProps.TitleFilterKeepsTheMatches | src/confluence/client.py:271-273 | The title filter keeps exactly the pages whose lowercased title contains the lowercased needle |
| ClientProps.TitleFilterConcat | src/confluence/client.py:271-273 | Filtering two runs of pages is filtering each in turn, so order and repeats are kept |
| ClientProps.TitleFilterOfOne | src/confluence/client.py:273 | One page is kept exactly when its title matches |
| ClientProps.TitleMatchesIgnoresNeedleCase | src/confluence/client.py:272 | The needle's case does not change which pages match |
| ClientProps.FirstUnderIsUnique | src/confluence/client.py:183-187 | The contract of the parent scan determines its answer |
| ClientProps.HomepageIdIsNonEmpty | src/confluence/client.py:115-119 | A found homepage id is the non-empty string form of a truthy id |
| ClientProps.CreatePayloadFields | src/confluence/client.py:124-129 | The create payload has type "page", the title, the space key, and the body HTML as `body.storage.value` with representation "storage" |
| ClientProps.CreatePayloadAncestors | src/confluence/client.py:130-131 | The parent is the payload's only ancestor exactly when a non-empty parent id is given |
| ClientProps.RenderedHtmlReadsRequestedView | src/confluence/client.py:157-163 | For any response, the HTML is the text value of the requested view, export_view or view, when it has one; "" for a response without a body |
| ClientProps.RenderedHtmlPicksTheView | src/confluence/client.py:157-163 | For a response with both views, the export flag picks which one is returned |
| ClientProps.StripSlashesIsIdempotent | src/confluence/client.py:14 | Stripping trailing slashes twice is stripping them once |
| ClientProps.PageLinkShape | src/confluence/client.py:63-106 | There is no link only for an empty page or one with neither webui, tinyui nor id; a link not built on the page's own base starts with the base URL |
| ClientProps.PageLinkEnds | src/confluence/client.py:63-106 | The link ends with webui, else tinyui, else "/pages/" and the id |
| ClientProps.PageLinkFromLinks | src/confluence/client.py:74-89 | With webui: `base` + webui when the page gives a base, else the base URL and webui joined by one '/'; else tinyui joined the same way |
| ClientProps.PageLinkFromId | src/confluence/client.py:91-106 | With neither: on a base URL ending in "/wiki" and with a space key, base + "/spaces/{key}/pages/{id}"; otherwise base + "/pages/{id}"; no link without an id |
| Config.UpdateLookup | src/utils/config.py:67-72 | After `d.update(u)` a key reads its value in `u` when `u` has it, and its old value otherwise |
| Config.UpdateOfEmpty | src/utils/config.py:68 | `dict(u)` is `u` itself |
| Config.ResolveRequired | src/utils/config.py:80-85 | Fails exactly when neither the option nor the config gives a non-empty value, with "Missing required option: key" |
| Config.ResolveRequiredPrecedence | src/utils/config.py:80-85 | The option wins over the config; the config is used only when the option is missing |
| Config.ResolveSpaceKey | src/utils/config.py:88-99 | Fails exactly when the option, `space_key` and `default_space_key` are all missing |
| Config.ResolveSpaceKeyPrecedence | src/utils/config.py:88-99 | The option wins, then the legacy `space_key`, then `default_space_key`, as a non-empty string |
| Config.RenderValue | src/utils/config.py:26-34 | Booleans as true/false, integers as decimals, None as `""`, strings quoted |
| Config.TomlText | src/utils/config.py:37 | The text ends in exactly one newline after its last non-blank character |
| Config.TomlDump | src/utils/config.py:21-37 | The loop writes the text of `TomlText` |
| Config.SectionAt | src/utils/config.py:23-36 | Each section is written, in order, as its header, one "key = value" line per key in order, and a blank line |
| Config.TomlLinesAppend | src/utils/config.py:23-36 | The lines of two runs of sections are the lines of the first, then of the second |
| Config.EmptyDump | src/utils/config.py:37 | Empty data is written as a single newline |
| Config.SaveConfig | src/utils/config.py:56-77 | The text written is the TOML of the merged sections; it fails exactly when the profile to update, or a section to write, is not a table |
| Config.SaveKeepsDefault | src/utils/config.py:74-75 | After saving, a "default" section exists |
| Config.SaveFailsOnlyOnNonTable | src/utils/config.py:69-72 | The merge fails only when the profile is updated and exists as a non-table |
| Config.SaveProfileSection | src/utils/config.py:66-72 | The saved profile is the updates alone (replace), or the old profile updated with them |
| Config.SaveReplacesProfile | src/utils/config.py:67-68 | With `replace_profile`, the profile is exactly the updates |
| Config.SaveMergesProfile | src/utils/config.py:69-72 | Without it, each key reads its updated value when given and keeps its old one otherwise |
| Config.SaveKeepsOtherSections | src/utils/config.py:66-75 | Every other section is left as it was |
| Config.LoadConfigSelects | src/utils/config.py:40-53 | `{}` for a missing or unparsable file; the profile section, else "default", else `{}` |
| Config.SavedProfileIsLoaded | src/utils/config.py:40-77 | Selecting the profile from the merged sections that are written reads back the saved profile section |
| Config.SaveMerge | src/utils/config.py:56-75 | Defines the merged sections `save_config` writes; stated by Config.SaveProfileSection, Config.SaveKeepsOtherSections and Config.SaveKeepsDefault |
| Config.LoadConfig | src/utils/config.py:40-53 | Defines the dict `load_config` returns; stated by Config.LoadConfigSelects |
| ConfigDoctor.Missing | src/commands/config_cmd.py:31-33 | Every message is about a key of the list that the table lacks |
| ConfigDoctor.MissingConcat | src/commands/config_cmd.py:31-33 | The messages for two runs of keys are those of the first followed by those of the second |
| ConfigDoctor.MissingOfOne | src/commands/config_cmd.py:32-33 | One key gives exactly one message, prefix + key + suffix, when the table lacks it, and none otherwise |
| ConfigDoctor.DoctorIssues | src/commands/config_cmd.py:27-51 | Defines the report; stated by ConfigDoctor.DoctorCleanIff, ConfigDoctor.RequiredKeyReported and ConfigDoctor.InvalidProviderReported |
| ConfigDoctor.CollectMissing | src/commands/config_cmd.py:31-33 | The loop appends one message per lacking key, in order |
| ConfigDoctor.MissingNamesAbsentKeys | src/commands/config_cmd.py:31-33 | A key is named exactly when it is absent or falsy |
| ConfigDoctor.MissingEmpty | src/commands/config_cmd.py:31-33 | Nothing is reported exactly when every key is present and truthy |
| ConfigDoctor.Doctor | src/commands/config_cmd.py:27-51 | The problems collected and the exit status: 2 with problems, 0 without |
| ConfigDoctor.RequiredKeyReported | src/commands/config_cmd.py:31-33 | Each of base_url and pat is reported exactly when the profile lacks it |
| ConfigDoctor.DoctorCleanIff | src/commands/config_cmd.py:27-51 | Exit 0 exactly when base_url and pat are set and the provider is blank, "ollama" with a model, or "openai_compat" with api_base, api_key and model |
| ConfigDoctor.InvalidProviderReported | src/commands/config_cmd.py:36-37 | An unknown provider is reported last, quoted as `repr` shows it, and the exit is 2 |
| ConfigDoctor.InvalidProviderIssue | src/commands/config_cmd.py:36-37 | For an unknown provider the LLM check gives exactly the one "invalid" message |
| ConfigDoctor.LlmIssuesAreAboutLlm | src/commands/config_cmd.py:34-44 | Every LLM message starts with "llm.", so none is a missing-key message |
| CreateDocument.EffectiveStrategy | src/commands/create_document.py:61-62 | `--update-if-exists` turns exactly "fail" or no strategy into "update" |
| CreateDocument.OverrideKeepsExplicitStrategies | src/commands/create_document.py:61-62 | Explicit strategies other than "fail" are kept |
| CreateDocument.FinalTitle | src/commands/create_document.py:66 | The title, followed by " - " and the run date unless `--no-date` |
| CreateDocument.FirstFree | src/commands/create_document.py:150-158 | The suffix found is within 2..20 and its title is free |
| CreateDocument.FirstFreeIsLeast | src/commands/create_document.py:150-158 | Every suffix before it is taken; no suffix means all up to 20 are taken |
| CreateDocument.SuffixSearch | src/commands/create_document.py:148-179 | The loop looks up "title (2)" onwards until the first free one, and finds the least free suffix |
| CreateDocument.Create | src/commands/create_document.py:46-191 | The command does what `CreateSpec` says |
| CreateDocument.CreateSpec | src/commands/create_document.py:46-191 | Defines the command's outcome; stated by the lemmas on missing options, dry runs and each duplicate strategy below |
| CreateDocument.MissingOptionMakesNoCalls | src/commands/create_document.py:55-58 | A missing option stops the command with its message before any call |
| CreateDocument.DryRunMakesNoCalls | src/commands/create_document.py:87-100 | A dry run looks up, creates and updates nothing, and reports the final title and strategy |
| CreateDocument.NoDuplicateCreatesOnce | src/commands/create_document.py:103-107 | Without a page of that title, exactly one page is created, with the final title |
| CreateDocument.FailAndOpenChangeNothing | src/commands/create_document.py:118-125 | With a duplicate, "fail" exits 2 and "open" exits 0, neither writing anything |
| CreateDocument.UpdateUsesTheExistingPage | src/commands/create_document.py:127-134 | With a duplicate and "update", the existing page is updated with the final title and nothing is created |
| CreateDocument.SuffixCreatesTheFirstFreeTitle | src/commands/create_document.py:148-179 | With a duplicate and "suffix", the first free "title (n)", n in 2..20, is created after looking up those before it; when all are taken it exits 2 |
| CreateDocument.AtMostOneWrite | src/commands/create_document.py:46-191 | No run makes more than one create or update |
| Author.MissingKeys | src/commands/author.py:56 | Names exactly the empty ones among api_base, api_key and model |
| Author.NestedSettingWins | src/commands/author.py:31-34 | The nested `llm` table wins over the flat key, which wins over the default |
| Author.NoProviderIsAUsageError | src/commands/author.py:36-43 | A blank provider is a usage error |
| Author.UnknownProviderIsAUsageError | src/commands/author.py:61 | A provider other than "ollama" and "openai_compat" is a usage error |
| Author.OllamaDefaults | src/commands/author.py:45-50 | "ollama" with nothing set uses the local server and "mistral:latest" |
| Author.OllamaFailsOnlyOnBlankModel | src/commands/author.py:45-50 | With "ollama", the only error is a model that strips to nothing |
| Author.OpenAiCompatNamesTheMissingSettings | src/commands/author.py:52-59 | With "openai_compat", the choice succeeds exactly when the three settings are non-blank, and the error names the blank ones in order |
| Author.PickLlm | src/commands/author.py:25-61 | Defines the LLM choice; stated by the provider lemmas below |
| Author.Slug | src/commands/author.py:181 | Defines the slug; stated by Author.SlugIsSqueezedMask, Author.SlugShape and Author.SlugKeepsLettersAndDigits |
| Author.Dashed | src/commands/author.py:181 | The result uses only `[a-z0-9-]` with no "--", is empty only for an empty input, and starts with a dash exactly when the input starts with another character |
| Author.DashedIsSqueezedMask | src/commands/author.py:181 | Each maximal run of characters outside `[a-z0-9]` becomes exactly one dash in its place: the result is the input with those characters masked as dashes and each run of dashes squeezed to one |
| Author.SlugIsSqueezedMask | src/commands/author.py:181 | The slug is the lowercased title masked and squeezed that way, with dashes stripped at both ends |
| Author.SlugShape | src/commands/author.py:181 | The slug uses only `[a-z0-9-]`, has no "--", and has no dash at either end |
| Author.SlugKeepsLettersAndDigits | src/commands/author.py:181 | The slug keeps every character of `[a-z0-9]` of the lowercased title, in order; other letters, such as "é", are dropped as the regex drops them |
| Author.DashedKeeps | src/commands/author.py:181 | Dashing keeps every slug character, in order |
| Browse.SimpleCqlText | src/commands/browse.py:146-151 | The query CQL is the text clause, pages only, current only, the space clause when given, newest first |
| Browse.InteractiveCqlIsSimpleCql | src/commands/browse.py:460-465 | The `/` key sends the query CQL of `browse search` in the current space |
| Browse.SearchCommand | src/commands/browse.py:136-151 | Defines the search command's CQL or its refusal; stated by Browse.SearchCommandCql |
| Browse.SearchCommandCql | src/commands/browse.py:136-151 | Refused exactly without --cql and --query; --cql is sent as given; a query alone becomes the query CQL |
| Browse.CommandSpaceWhenConfigured | src/commands/browse.py:282 | A space is used exactly when a space key or a default space is configured |
| Browse.PadLeft3Shape | src/commands/browse.py:563 | The number is right-aligned in three columns, padded with spaces |
| Browse.Numbered | src/commands/browse.py:560 | Items are numbered from `start + 1`, in order |
| Browse.NumberResults | src/commands/browse.py:559-563 | The loop numbers the items as `Numbered` does |
| Browse.ResultLines | src/commands/browse.py:559-563 | One printed row per item, the k-th being item k with number start + 1 + k |
| Browse.NumberingContinues | src/commands/browse.py:559-563 | Numbering the next page from the new start continues the numbering |
| Browse.ListRows | src/commands/browse.py:332-345 | "No results", or one row per item numbered from `start + 1`, the selected one marked |
| Browse.TreeRows | src/commands/browse.py:566-577 | Defines the printed tree rows; stated by Browse.UnlimitedTreeListsEveryPage, Browse.LimitCutsTheFullTree and Browse.TreeRowsDepth |
| Browse.TreeLine | src/commands/browse.py:574 | Two spaces per level, then the bullet and a space at column 2·depth, and the line ends with "  [id:" + id + "]" |
| Browse.TreeRowsDepth | src/commands/browse.py:566-577 | Every row is at least as deep as its level; with a limit, no deeper than the limit |
| Browse.UnlimitedTreeListsEveryPage | src/commands/browse.py:566-577 | With no limit the printed pages are the tree's pages in pre-order, so each page once and as many rows as pages |
| Browse.LimitCutsTheFullTree | src/commands/browse.py:566-577 | With a limit, exactly the rows of the full tree no deeper than the limit are printed |
| Browse.Initial | src/commands/browse.py:533-545 | Defines the state before the first key; stated by Browse.InitialLandsOnTheHomepage and Browse.InitialIsValid |
| Browse.AfterUp | src/commands/browse.py:380-384 | Defines ↑; stated by Browse.UpDownStayOnTheList and Browse.UpDownOnEmptyList |
| Browse.AfterDown | src/commands/browse.py:386-390 | Defines ↓; stated by Browse.UpDownStayOnTheList and Browse.UpDownOnEmptyList |
| Browse.AfterRight | src/commands/browse.py:427-437 | Defines →, with its failures; stated by Browse.RightAndLeftOnTheStack, Browse.RightAndLeftFailures and Browse.LeftUndoesRight |
| Browse.AfterLeft | src/commands/browse.py:439-449 | Defines ←, with its failure; stated by the same three lemmas |
| Browse.AfterSearch | src/commands/browse.py:451-472 | Defines /; stated by Browse.SearchInTheCurrentSpace |
| Browse.AfterGotoSpace | src/commands/browse.py:303-316 | Defines `goto_space`, with its failures; stated by Browse.SwitchSpaceClearsTheStack |
| Browse.AfterSwitchSpace | src/commands/browse.py:474-480 | Defines s; stated by Browse.SwitchSpaceClearsTheStack |
| Browse.AfterGoTo | src/commands/browse.py:482-497 | Defines g, whose failure is caught and changes nothing; stated by Browse.GoToListsTheEnteredPage |
| Browse.AfterNext | src/commands/browse.py:499-504 | Defines n; stated by Browse.NextPrevPaging |
| Browse.AfterPrev | src/commands/browse.py:506-511 | Defines p; stated by Browse.NextPrevPaging |
| Browse.AfterSmaller | src/commands/browse.py:513-519 | Defines [; stated by Browse.PageSizeSteps |
| Browse.AfterLarger | src/commands/browse.py:521-527 | Defines ]; stated by Browse.PageSizeSteps |
| Browse.Press | src/commands/browse.py:376-531 | Defines the dispatch of a key; a failing handler leaves its partial changes and later keys act on them; stated by Browse.PressKeepsValid, Browse.NoKeyEnds, Browse.KeysGoOnAfterAFailedRight, Browse.KeysGoOnAfterAFailedSwitch and Browse.LeftAfterAFailedRight |
| Browse.InitialIsValid | src/commands/browse.py:282-289 | The browser starts in a valid state |
| Browse.InitialLandsOnTheHomepage | src/commands/browse.py:533-545 | The browser starts on the start space's homepage from its first page and item; on nothing without a space or homepage; ended when the homepage lookup or read raises |
| Browse.NoKeyEnds | src/commands/browse.py:376-531 | No key handler ends the browser, failing or not |
| Browse.KeysGoOnAfterAFailedRight | src/commands/browse.py:427-433 | After → raises IndexError on an index off the list, the next key acts as if → had not been pressed |
| Browse.KeysGoOnAfterAFailedSwitch | src/commands/browse.py:474-480 | After s on a space whose homepage lookup raises, the next key acts on the state with the stack cleared and the space set |
| Browse.LeftAfterAFailedRight | src/commands/browse.py:427-449 | After → fails to read the selected page, ← pops the pushed place: the browser is back where it was, with its items reloaded, or unchanged when its own page cannot be read |
| Browse.PressKeepsValid | src/commands/browse.py:380-531 | Every key keeps the page size in 5..100 and the offsets and indices non-negative |
| Browse.PressAllKeepsValid | src/commands/browse.py:380-531 | Any sequence of keys keeps the browser valid |
| Browse.UpDownStayOnTheList | src/commands/browse.py:380-390 | ↑ and ↓ move by one and keep the selection on the list |
| Browse.UpDownOnEmptyList | src/commands/browse.py:380-390 | With nothing listed, ↑ and ↓ change nothing |
| Browse.LeftUndoesRight | src/commands/browse.py:427-449 | When both pages can be read, ← after → returns to the same page, start, selection and back stack |
| Browse.RightAndLeftOnTheStack | src/commands/browse.py:427-449 | → on a readable page pushes the current place and lists the selected item's children; ← on an empty stack changes nothing |
| Browse.RightAndLeftFailures | src/commands/browse.py:427-449 | → with an index off the list raises with nothing changed; on an unreadable page it raises with the place pushed; ← to an unreadable page raises with the place popped and restored but the old items kept |
| Browse.GoToListsTheEnteredPage | src/commands/browse.py:482-497 | g without an id or on an unreadable page changes nothing; otherwise it lists the entered page's children from the first page and item, keeping the back stack |
| Browse.NextPrevPaging | src/commands/browse.py:499-511 | n and p step by a page; p never goes before 0 and undoes n |
| Browse.PageSizeSteps | src/commands/browse.py:513-527 | [ and ] step the page size by 5 within 5..100, from the first page |
| Browse.SearchInTheCurrentSpace | src/commands/browse.py:451-472 | / is refused without a current space; with one it shows the space-limited search from its start |
| Browse.SwitchSpaceClearsTheStack | src/commands/browse.py:474-480 | s clears the back stack, makes the space current and lands on its homepage, or on nothing without one; a failing homepage lookup or read leaves exactly the stack cleared and the space set |
| Browse.Browser.constructor | src/commands/browse.py:533-545 | The state is `Initial`: the start space's homepage when it has one, ended when its lookup or read raises |
| Browse.Browser.LoadItems | src/commands/browse.py:318-329 | `load()` reloads the items of the current page |
| Browse.Browser.Up | src/commands/browse.py:380-384 | The new state is `AfterUp` of the old |
| Browse.Browser.Down | src/commands/browse.py:386-390 | The new state is `AfterDown` of the old |
| Browse.Browser.Right | src/commands/browse.py:427-437 | The new state is `AfterRight` of the old, including the IndexError and the `get_page` failure after the push |
| Browse.Browser.Left | src/commands/browse.py:439-449 | The new state is `AfterLeft` of the old, including the `get_page` failure after the pop |
| Browse.Browser.Search | src/commands/browse.py:451-472 | The new state is `AfterSearch` of the old |
| Browse.Browser.GotoSpace | src/commands/browse.py:303-316 | The new state is `AfterGotoSpace` of the old, including the failures after the space is set |
| Browse.Browser.SwitchSpace | src/commands/browse.py:474-480 | The new state is `AfterSwitchSpace` of the old, including the failures after the stack is cleared |
| Browse.Browser.GoTo | src/commands/browse.py:482-497 | The new state is `AfterGoTo` of the old |
| Browse.Browser.Next | src/commands/browse.py:499-504 | The new state is `AfterNext` of the old |
| Browse.Browser.Prev | src/commands/browse.py:506-511 | The new state is `AfterPrev` of the old |
| Browse.Browser.Smaller | src/commands/browse.py:513-519 | The new state is `AfterSmaller` of the old |
| Browse.Browser.Larger | src/commands/browse.py:521-527 | The new state is `AfterLarger` of the old |
| Browse.Browser.Refresh | src/commands/browse.py:529-531 | The new state reloads the items |

## Left out

- HTTP itself is not modelled: timeouts, the auth and content headers, `verbose` printing, and real sleeping. The session is a script of outcomes, and sleeps are recorded rather than slept.
- The backoff is a float in the source; the model counts it in whole delay units. `Retry-After` is taken as already parsed into a number.
- A body that does not parse as JSON is modelled (`Parsed` gives `{"raw": text, "status": code}`), but JSON parsing itself is not.
- Where the source calls a dict or string method on a value of the wrong type (`.get`, `.strip`, iteration), Python raises. The model reads that value as absent. The exceptions are `load_config`, whose `except` is modelled, and `Author`, which reports `NotText`.
- `repr` escaping of quotes and backslashes is not modelled. Lowercasing and stripping cover ASCII only. TOML floats are not modelled.
- The LLM backends, the pandoc and Markdown conversion, the prompt_toolkit terminal UI, `webbrowser`, the pager and the editor are left out. So are the Enter and `v` keys of the browser, and its status and header texts.
- auth.py, cli.py, update_document.py, convert_only.py and `show_config` are not part of this model. Neither is reading or writing files: `save_config` returns the text it would write, and `load_config` takes the file as missing, unparsable or parsed.
- `create_document` does not model adding labels. The run date is an input. `find_page_by_title` is a map from titles to pages, and the update branch is recorded as (page id, title) rather than run through the client.
- `ScriptExhausted` is a failure of the model only. The source's request loop would keep re-sending.
- As in the source, ← restores the remembered index without clamping it to the reloaded items.
- The `tree` command's pages are given as an already fetched tree, and the browser's `Site` value answers in place of the client calls.
- ConfigDoctor.Doctor: an exception while reading the LLM settings ends with None and exit 1, standing for the uncaught exception.
- `_print_results` is modelled as the numbered pairs plus their rendering; `click.echo` itself is not modelled.
- Config.LoadConfigSelects: a section read with `cfg.update` is modelled by `Update`; its exact contents are stated only for a section without duplicate keys.
- Config.RenderValue: for a string holding a double quote, it states only that the value is quoted; the escaping is in its body.
- SavedProfileIsLoaded: it reads back the merged sections, not the TOML text. The text does not always read back: None is written as `""`, a nested table such as `[profile.llm]` is written as the quoted `str()` of the dict, and a backslash or newline in a string makes the text invalid TOML, which `load_config` reads as `{}`. Parsing TOML is not modelled.
- CurrentVersion: a version number given as a string or as null reads as 0. Python's `int()` would parse the string, or raise TypeError for null.
- Browse.Press: a handler's exception is modelled as leaving its partial changes with the browser still running, as the application's default exception handler does; the traceback it shows and the wait for Enter are not modelled. The `ended` flag stands for the exception that ends `interactive` before the application starts.

## Findings

| source | as written | input that shows it | evidently intended | confidence | as-written member | corrected member |
|---|---|---|---|---|---|---|
| src/confluence/client.py:237 | Retries a failed PUT once when `"409" in str(e)` | A stale-version 409 whose body message and reason have no "409": the raised Conflict's text is "PUT url message reason", so the error is raised after one PUT | Retry once after a Conflict error, which status 409 raises | not executed | ClientProps.StaleVersionConflictIsNotRetried | ClientProps.StaleVersionConflictIsRetriedByStatus |
| src/confluence/client.py:237 | The same text test fires on any error whose text holds "409" | A page id such as "140900": a 403 or a 500 from the first PUT mentions the id, so it is followed by a second read and PUT | Only a Conflict error leads to the second round | not executed | ClientProps.IdWith409RetriesAnyError | ClientProps.UpdateProtocol |
