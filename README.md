# webhook-notification-resource, modelled in Dafny

This project models the `out` step of a Concourse CI resource that posts a build notification to a webhook. The repository has two variants of the resource and a Discord adapter:

- **Newer variant.** `WebhookNotificationResource` delivers the message through an injected webhook handler and reports the handler's response.
- **Older variant.** `GitterNotificationResource` has no delivery and reports its metadata values unstringified.
- **Discord adapter.** It chooses between a JSON body and a form body, and builds an embed message for a build status.

The `out` pipeline has these steps:

1. Check that one of the parameters `message`, `message_file` or `status` is present.
2. Resolve the raw message by the precedence message > message_file > status. A status selects the template `<status>.md`, or `unknown.md` when that file does not exist.
3. Publish a synthetic `BUILD_URL` in the process environment. It is composed from the Concourse build metadata variables.
4. Expand `$NAME` and `${NAME}` in the message, in one left-to-right scan.
5. Report an ordered list of name/value metadata pairs with the placeholder version `{"ref" => "none"}`. Unless in dry-run mode, the newer variant also delivers the message once.

The modules follow the structure of the source:

- `EnvExpansion` (env_expander.dfy) models the variable expander.
  - `MatchAt` recognises the token at the start of a string, exactly as the regular expression does.
  - `Expand` models `gsub`: on a match, the replacement is `ENV[name]`, or the matched text when the name is unset. Scanning always resumes after the match.
- `ConcourseEnv` (concourse_env_expander.dfy) has the BUILD_URL template and `WithBuildUrl`, the environment after the write. `ProcessEnv` is a class whose `vars` field is the mutable process environment. Its method `ExpandConcourse` performs `ENV["BUILD_URL"] = ...` and then expands the message.
- `MessageResolution` (message_resolution.dfy) models the source-key guard and the message precedence. Both variants contain this code.
  - The file system is a `Disk`: a map from path to contents, plus the template directory.
  - `ExpandedMessage` is the message that `out` reports.
- `ResourceData` (resource_data.dfy) holds the JSON values of the "source" and "params" hashes. It models Ruby's `to_s`, truthiness and `Hash#fetch`, plus the names of the metadata pairs.
- `WebhookResource` (webhook_notification_resource.dfy) models the newer variant.
  - `New` models the constructor.
  - `WebhookHandler` is a class that records each delivery and answers it with a function of the delivery that gives a response or an error.
  - `Out` is a method that changes the process environment and the handler, and builds the metadata by appending.
- `GitterResource` (gitter_notification_resource.dfy) models the older variant in the same way, without a handler.
- `DiscordAdapter` (discord_adapter.dfy) has `PostBody`, the body decision of `post`, and `StatusMessageFor`.

Errors become values of `Outcomes.Result`. A Ruby `KeyError` becomes `KeyError(message)`. A missing file becomes `FileNotFound(path)`, a nil or boolean path `TypeError(message)`, and a path holding NUL `ArgumentError(message)`. A `gsub` on a message that is not a String becomes `NoMethodError("gsub")`, and the error the webhook handler raises is returned as the result of `Out`.

Where the tests and the code disagree, the model follows the code. The integration test expects the older variant to report a version entry, a stringified `dryrun` and a `response` entry (test/test_integration.rb:65-69). resource/lib/gitter-notification-resource.rb:56-62 produces none of these, and `GitterResource` follows that file.

## Model

| member | source | states |
|---|---|---|
| EnvExpansion.NameCharsLen | resource/lib/webhook-notification-resource.rb:22 | the greedy `[a-zA-Z0-9_]*` run: every counted character is a name character and the next one is not |
| EnvExpansion.NameCharsLenOf | resource/lib/webhook-notification-resource.rb:22 | a run of name characters ended by a non-name character (or the end of the string) is counted exactly |
| EnvExpansion.MatchAt | resource/lib/webhook-notification-resource.rb:22 | a match found at the start of the text is a well-formed `$name` or `${name}` token that is a prefix of the text; a bare match takes the whole run of name characters |
| EnvExpansion.MatchComplete | resource/lib/webhook-notification-resource.rb:22 | every `${name}`, and every `$name` that cannot be extended, at the start of the text is exactly the match found there, so no token is skipped |
| EnvExpansion.LongestName | resource/lib/webhook-notification-resource.rb:22 | when `$name` starts the text, the match is bare and its name extends `name`: the scan never falls back to a shorter name, and never to the braced alternative |
| EnvExpansion.Replacement | resource/lib/webhook-notification-resource.rb:26 | `ENV[$1 || $2] || $&`, the value also when it is "", else the matched text; no ensures of its own, characterised by ExpandBare, ExpandBraced, ExpandEmptyValue and ExpandUnsetReference |
| EnvExpansion.Expand | resource/lib/webhook-notification-resource.rb:24-28 | `gsub` of the pattern over a String; no ensures of its own, characterised by MatchAt with MatchComplete and LongestName (which token is matched), ExpandPlainChar, ExpandStrayDollar and ExpandLiteralPrefix (text outside tokens), ExpandBare and ExpandBraced (a token is replaced), ExpandNotRescanned, ExpandUnset and ExpandAgree |
| EnvExpansion.Refs | resource/lib/webhook-notification-resource.rb:25-26 | the names of the tokens the scan matches, the only names whose values are looked up; no ensures of its own, characterised by ExpandUnset and ExpandAgree |
| EnvExpansion.ExpandValue | resource/lib/webhook-notification-resource.rb:24-28 | `expand` on any value: a String gives its `gsub` expansion, while nil or a boolean raises NoMethodError for `gsub` |
| EnvExpansion.ExpandPlainChar | resource/lib/webhook-notification-resource.rb:25 | a character other than `$` is copied and scanning continues after it |
| EnvExpansion.ExpandLiteralPrefix | resource/lib/webhook-notification-resource.rb:25 | `$`-free text is copied and does not change how the text after it is scanned |
| EnvExpansion.ExpandBare | resource/lib/webhook-notification-resource.rb:22-27 | `$name` followed by a non-name character (or by nothing) becomes `Replacement`: the value, or `$name` itself when unset; scanning resumes right after it |
| EnvExpansion.ExpandBraced | resource/lib/webhook-notification-resource.rb:22-27 | `${name}` becomes `Replacement`: the value, or `${name}` itself when unset, whatever follows it |
| EnvExpansion.ExpandStrayDollar | resource/lib/webhook-notification-resource.rb:22-25 | a `$` that begins no token is copied verbatim |
| EnvExpansion.SplitAtMatch | resource/lib/webhook-notification-resource.rb:25 | a text that begins with a match is the matched text followed by the rest |
| EnvExpansion.ExpandUnset | resource/lib/webhook-notification-resource.rb:26 | when no matched name is set, the expansion is the identity: references stay exactly as written, braces included |
| EnvExpansion.ExpandEmptyEnv | resource/lib/webhook-notification-resource.rb:26 | with an empty environment, the message is unchanged |
| EnvExpansion.ExpandAgree | resource/lib/webhook-notification-resource.rb:25-27 | the expansion depends on the environment only at the names it matches |
| EnvExpansion.ExpandKeepsFirst | resource/lib/webhook-notification-resource.rb:25 | a message that does not start with `$` keeps its first character |
| EnvExpansion.ExpandNoDollar | resource/lib/webhook-notification-resource.rb:25 | text without `$` expands to itself |
| EnvExpansion.ExpandAround | resource/lib/webhook-notification-resource.rb:25-27 | one reference between a `$`-free prefix and the rest is replaced in place |
| EnvExpansion.ExpandLastBraced | resource/lib/webhook-notification-resource.rb:22-27 | `${NAME}` at the end of the text becomes its `Replacement`: the value, or `${NAME}` itself when unset |
| EnvExpansion.ExpandLastBare | resource/lib/webhook-notification-resource.rb:22-27 | `$NAME` at the end of the text becomes its `Replacement`: the value, or `$NAME` itself when unset |
| EnvExpansion.ExpandBareSegment | resource/lib/webhook-notification-resource.rb:22-27 | a `$NAME` followed by `$`-free text that starts with a non-name character is replaced in place, and the text after it is scanned as usual |
| EnvExpansion.ExpandThreeBare | resource/lib/webhook-notification-resource.rb:22-27 | generic helper: three bare references joined by a `$`-free, non-name separator expand reference by reference (the shape of the Discord title) |
| EnvExpansion.ExpandBareTwice | test/test_unit.rb:173-178 | "foo $X $X bar" with X set to v becomes "foo v v bar" |
| EnvExpansion.ExpandBracedTwice | test/test_unit.rb:180-185 | "foo ${X} ${X} bar" with X set to v becomes "foo v v bar" |
| EnvExpansion.ExpandMixedSyntax | test/test_unit.rb:187-192 | "foo $X ${X} bar" with X set to v becomes "foo v v bar" |
| EnvExpansion.ExpandUnsetReference | test/test_unit.rb:194-200 | with X unset, "foo ${X} bar" and "foo $X bar" are left as written |
| EnvExpansion.ExpandEmptyValue | resource/lib/webhook-notification-resource.rb:26 | a variable set to "" is replaced by "", because only an unset variable falls back to the matched text |
| EnvExpansion.ExpandNotRescanned | resource/lib/webhook-notification-resource.rb:25-27 | a value containing `$y` is inserted as it is, and `$y` is not expanded, even when y is set |
| EnvExpansion.ExpandNoShorterName | resource/lib/webhook-notification-resource.rb:22 | with only x set, `$xy` stays as written: x is not matched as a prefix of the longer name |
| ConcourseEnv.MetadataNames | resource/lib/webhook-notification-resource.rb:35-38 | the six metadata variable names are names the pattern matches |
| ConcourseEnv.BuildUrlTemplate | resource/lib/webhook-notification-resource.rb:35 | the constant template `${ATC_EXTERNAL_URL}/teams/${BUILD_TEAM_NAME}/pipelines/${BUILD_PIPELINE_NAME}/jobs/${BUILD_JOB_NAME}/builds/${BUILD_NAME}`; characterised by ExpandTemplate and TemplateIgnoresBuildUrl |
| ConcourseEnv.ExpandTwoSegments | resource/lib/webhook-notification-resource.rb:35 | generic helper for the template: two braced references, each followed by `$`-free text, are each replaced in place |
| ConcourseEnv.ExpandFiveReferences | resource/lib/webhook-notification-resource.rb:35 | generic helper for the template: five braced references with four `$`-free separators expand reference by reference |
| ConcourseEnv.ExpandTemplate | resource/lib/webhook-notification-resource.rb:35-38 | the template expands to the external URL, then /teams/, /pipelines/, /jobs/ and /builds/, each followed by its variable's value (or by `${NAME}` when that is unset) |
| ConcourseEnv.WithBuildUrl | resource/lib/webhook-notification-resource.rb:38 | the environment after `ENV["BUILD_URL"] = expand(template)`; no ensures of its own, characterised by BuildUrlComposed (value, keys, other variables unchanged) and BuildUrlRecomputed |
| ConcourseEnv.BuildUrlComposed | test/test_unit.rb:202-211 | with the five variables set, BUILD_URL is `<ATC_EXTERNAL_URL>/teams/<team>/pipelines/<pipeline>/jobs/<job>/builds/<name>`; BUILD_URL is the only key added, and no other variable changes |
| ConcourseEnv.BuildUrlRecomputed | resource/lib/webhook-notification-resource.rb:38 | the write overwrites any earlier BUILD_URL, and writing twice gives the same environment as writing once |
| ConcourseEnv.TemplateIgnoresBuildUrl | resource/lib/webhook-notification-resource.rb:35-38 | the template's expansion does not depend on BUILD_URL itself |
| ConcourseEnv.ExpandBuildUrlReference | test/test_unit.rb:202-211 | in "foo $BUILD_URL bar", the reference becomes the freshly composed URL |
| ConcourseEnv.ProcessEnv.ExpandConcourse | resource/lib/webhook-notification-resource.rb:37-40 | the environment becomes the old one with BUILD_URL set to the expanded template, even when the message is not a String. The result is `ExpandValue` of the message against that new environment |
| ResourceData.ToS | resource/lib/webhook-notification-resource.rb:95 | Ruby `to_s`: nil gives "", booleans give "true" or "false", and a String is unchanged; no ensures of its own, characterised by WebhookResource.NameValuePair and WebhookResource.MetadataShape |
| ResourceData.Truthy | resource/lib/webhook-notification-resource.rb:84 | Ruby truthiness: only nil and false are false; no ensures of its own, characterised by WebhookResource.DryrunDefault and used in the delivery clauses of WebhookResource.Out |
| ResourceData.Fetch | resource/lib/webhook-notification-resource.rb:55 | `Hash#fetch` returns the value when the key is present, and otherwise raises KeyError with the message `key not found: "<key>"` |
| ResourceData.FetchOr | resource/lib/webhook-notification-resource.rb:56 | `Hash#fetch` with a default returns the value when the key is present, and the default otherwise |
| ResourceData.Names | resource/lib/webhook-notification-resource.rb:78-86 | the names of the metadata entries, in order |
| MessageResolution.ReadFile | resource/lib/webhook-notification-resource.rb:67 | `File.read` gives the contents of an existing file, fails with ENOENT for a missing path, raises ArgumentError "path name contains null byte" for a path holding NUL, and raises TypeError "no implicit conversion of nil/true/false into String" for a value that is not a String, the value named by its helper `Inspect` |
| MessageResolution.Lift | resource/lib/webhook-notification-resource.rb:67 | the contents read from a file, as a String value, and any read error unchanged |
| MessageResolution.ChompSeparators | resource/lib/webhook-notification-resource.rb:69 | the text without its trailing run of "/": a prefix that does not end with "/", and only "/" was removed |
| MessageResolution.Join | resource/lib/webhook-notification-resource.rb:69 | `File.join` of two parts: a name starting with "/" replaces the trailing separators of the directory; otherwise one "/" is added unless the directory already ends with one; no ensures of its own, characterised by JoinProperties |
| MessageResolution.JoinPath | resource/lib/webhook-notification-resource.rb:69 | `File.join` raises ArgumentError "string contains null byte" exactly when either part holds NUL, and otherwise gives `Join` of the parts |
| MessageResolution.JoinProperties | resource/lib/webhook-notification-resource.rb:69 | a join ends with the name. When neither part brings a separator it is `<dir>/<name>`, and an extra leading "/" on the name changes nothing |
| MessageResolution.TemplatePath | resource/lib/webhook-notification-resource.rb:69 | `File.join(MESSAGE_FILES_PATH, "#{status}.md")`, with the interpolation as `to_s`, failing as `JoinPath` does; characterised by ResolveMessage, StatusFallback, StatusLeadingSeparator and StatusWithNul |
| MessageResolution.UnknownTemplate | resource/lib/webhook-notification-resource.rb:73 | the read of `unknown.md`, the fallback of a status without a template; no ensures of its own, used in the status clause of ResolveMessage and in StatusFallback |
| MessageResolution.HasMessageSource | resource/lib/webhook-notification-resource.rb:60 | some key `status`, `message` or `message_file` is present; characterised by the guard clause of ResolveMessage and by OtherKeysIgnored |
| MessageResolution.ResolveMessage | resource/lib/webhook-notification-resource.rb:60-75 | KeyError exactly when none of the three keys is present, whatever other keys exist. Otherwise `message` wins, as whatever value it is; then `message_file` (read, or the read error); then `status` (the File.join error for NUL, else its template, else the unknown template) |
| MessageResolution.ExpandedMessage | resource/lib/webhook-notification-resource.rb:76 | a resolution error passes through unchanged. Otherwise the raw message is expanded exactly once, against the environment with BUILD_URL published, and a non-String message raises NoMethodError |
| MessageResolution.ExpandedMessageErrors | resource/lib/webhook-notification-resource.rb:60-76 | the only failures are: the missing-source KeyError, a missing file, an ArgumentError when the path read or joined holds NUL, a TypeError for a non-String `message_file`, and NoMethodError for a non-String `message`. A String `message` always gives its expansion, whatever else is present |
| MessageResolution.StatusFallback | resource/lib/gitter-notification-resource.rb:46-52 | a status whose path joins without error but has no template resolves exactly as "unknown" does, including the error when unknown.md is missing |
| MessageResolution.StatusWithNul | resource/lib/webhook-notification-resource.rb:68-69 | a status holding NUL raises ArgumentError in File.join rather than falling back to `unknown.md` |
| MessageResolution.StatusLeadingSeparator | resource/lib/webhook-notification-resource.rb:69 | after a directory that does not end with "/", the status "/success" reads the same template path as "success" |
| MessageResolution.OtherKeysIgnored | resource/lib/gitter-notification-resource.rb:38-53 | parameters other than the three source keys do not affect the raw message |
| WebhookResource.New | resource/lib/webhook-notification-resource.rb:54-57 | KeyError `key not found: "url"` exactly when `url` is missing; otherwise the resource keeps `url` as given, and `dryrun` as given or false |
| WebhookResource.DryrunDefault | resource/lib/webhook-notification-resource.rb:56 | without `dryrun` the resource is not in dry-run mode; any string value, even "false", turns dry-run on |
| WebhookResource.NameValuePair | resource/lib/webhook-notification-resource.rb:94-96 | the pair keeps the name, and its value is the value's `to_s` |
| WebhookResource.ResponseText | resource/lib/webhook-notification-resource.rb:86 | the response entry is the code, one space, then the reason phrase |
| WebhookResource.WebhookHandler.Post | resource/lib/webhook-notification-resource.rb:47-49 | the call made at line 85: one delivery attempt of (url, message) is recorded; the endpoint's response, or the error the handler raises, is returned |
| WebhookResource.Metadata | resource/lib/webhook-notification-resource.rb:78-87 | the metadata list `out` builds; no ensures of its own, characterised by MetadataShape and used in the result clauses of Out |
| WebhookResource.MetadataShape | resource/lib/webhook-notification-resource.rb:78-87 | the metadata is version, url, dryrun, message and, after a delivery, response, in that order; every value is a string: "0.1.0", `to_s` of url and dryrun, the message and "<code> <message>" |
| WebhookResource.Out | resource/lib/webhook-notification-resource.rb:59-90 | a resolution error is returned with no environment change and no delivery. Otherwise BUILD_URL is published. A non-String message gives NoMethodError with no delivery. In dry-run there is no delivery and the result is `{"ref" => "none"}` with the metadata. Otherwise there is exactly one delivery of (url, expanded message): the response is added to the metadata, or the handler's error becomes the result |
| GitterResource.New | resource/lib/gitter-notification-resource.rb:32-35 | KeyError `key not found: "webhook"` exactly when `webhook` is missing; otherwise `webhook` as given, and `dryrun` as given or false |
| GitterResource.MissingWebhookNamed | test/test_unit.rb:9-11 | the KeyError message for a missing webhook contains "webhook" |
| GitterResource.NameValuePair | resource/lib/gitter-notification-resource.rb:67-69 | the pair keeps both the name and the value unchanged |
| GitterResource.Metadata | resource/lib/gitter-notification-resource.rb:56-60 | the metadata list `out` builds; no ensures of its own, characterised by MetadataShape and used in the result clause of Out |
| GitterResource.MetadataShape | resource/lib/gitter-notification-resource.rb:56-60 | the metadata is webhook, dryrun and message, in that order; the configured values keep their JSON type, so a boolean dryrun stays boolean |
| GitterResource.Out | resource/lib/gitter-notification-resource.rb:37-63 | a resolution error is returned with no environment change. Otherwise BUILD_URL is published. A non-String message gives NoMethodError; a String message gives `{"ref" => "none"}` with the three-entry metadata for its expansion |
| DiscordAdapter.PostBody | resource/lib/adapters/discord_adapter.rb:8-19 | a JSON body exactly when the first character is "{", and the body is then the message verbatim; otherwise, including for the empty message, a form whose only field is `content` |
| DiscordAdapter.PostBodyCarriesMessage | resource/lib/adapters/discord_adapter.rb:9-17 | either way the message is sent unchanged, and the empty message is sent as a form |
| DiscordAdapter.Upcase | resource/lib/adapters/discord_adapter.rb:26 | ASCII upcase: a lower-case letter becomes its upper-case letter, and any other character is unchanged |
| DiscordAdapter.Downcase | resource/lib/adapters/discord_adapter.rb:26 | ASCII downcase: an upper-case letter becomes its lower-case letter, and any other character is unchanged |
| DiscordAdapter.Downcased | resource/lib/adapters/discord_adapter.rb:26 | every character is downcased, and the length is unchanged |
| DiscordAdapter.Capitalize | resource/lib/adapters/discord_adapter.rb:26 | `String#capitalize`: same length, first character upcased, every later character downcased |
| DiscordAdapter.CapitalizeProperties | resource/lib/adapters/discord_adapter.rb:26 | capitalizing twice gives the same text as once; the first character is not lower case and no later character is upper case; JSON-safe text stays JSON-safe |
| DiscordAdapter.StatusMessageFor | resource/lib/adapters/discord_adapter.rb:21-31 | the embed serialised in key order; no ensures of its own, characterised by StatusMessageIsJson, StatusMessageFixedParts, StatusMessageStatusParts, StatusMessageInjective and TokensExpand |
| DiscordAdapter.StatusMessageIsJson | resource/lib/adapters/discord_adapter.rb:9-31 | the status message starts with "{", so `post` sends it as a JSON body, verbatim |
| DiscordAdapter.ExpandedStatusMessageIsJson | resource/lib/adapters/discord_adapter.rb:9-31 | after variable expansion the status message still takes the JSON branch |
| DiscordAdapter.Slices | resource/lib/adapters/discord_adapter.rb:22-31 | generic helper for any five strings: where each part of the concatenation sits, as used for the serialised embed |
| DiscordAdapter.StatusMessageFixedParts | resource/lib/adapters/discord_adapter.rb:25-27 | the same text is placed before the description's status for every status (opening, fixed title, description start), between the two statuses (fixed link, thumbnail prefix) and at the end |
| DiscordAdapter.StatusMessageStatusParts | resource/lib/adapters/discord_adapter.rb:26-28 | the description holds the capitalised status, and the thumbnail url holds the raw status |
| DiscordAdapter.SlicesInjective | resource/lib/adapters/discord_adapter.rb:28 | generic helper for any strings: two concatenations with the same fixed parts agree on the fourth part, as used to recover the raw status |
| DiscordAdapter.StatusMessageInjective | resource/lib/adapters/discord_adapter.rb:21-31 | different statuses give different messages |
| DiscordAdapter.TokensExpand | resource/lib/adapters/discord_adapter.rb:25-27 | once expanded, the title tokens give `<pipeline>/<job>/<build name>` (an unset one stays as written), and the url token gives the synthesised BUILD_URL |

## Left out

- HTTP: `Net::HTTP.post_form` in the gitter handler and both request kinds in the Discord adapter are network I/O. The handler is a recorded call whose outcome, a response or a raised error, is given by a function of the delivery. Which exceptions Net::HTTP raises, and their messages, are not modelled. Discord `post` is only its body decision.
- Real file system: `File.read`, `File.exist?`, `File.expand_path` and the computed MESSAGE_FILES_PATH are a map lookup in `Disk`. Relative paths, symlinks, directories and read permissions are not modelled. `Join` models `File.join` for "/" only; an alternative separator, as on Windows, is not modelled.
- Injected expanders and handlers other than the defaults: the unit tests pass mocks as `env_expander`. The model always uses the Concourse expander. For the handler, the response function stands for any endpoint.
- The gitter variant's expander (resource/lib/gitter-notification-resource.rb:11-28) is the same text as the newer variant's. Both variants use `EnvExpansion` and `ConcourseEnv`, and the table cites the newer file.
- `Value`: numbers, arrays and objects in the "source" and "params" hashes are not modelled; only nil, booleans and Strings are. Such a value would pass through `to_s` in metadata and in the status path. As a `message` it would also raise NoMethodError, but as a `message_file` its TypeError names its class, which the model does not have.
- Encodings: file contents and all text are sequences of characters, so bytes that are not valid in `Encoding.default_external` cannot occur. Therefore `ReadFile` and `ResolveMessage` never give such contents, and `ExpandedMessageErrors` does not list the ArgumentError "invalid byte sequence" that `gsub` raises on them (webhook-notification-resource.rb:25, 76).
- NoMethodError: the model records only the missing method `gsub`. Ruby's message text varies between versions and is not modelled.
- Ruby truthiness of `dryrun` is modelled exactly: only nil and false are false. The string "false" therefore means dry-run.
- DiscordAdapter.StatusMessageFor: requires the status to be printable ASCII without `"` or `\`. This is because `to_json` escaping is library behaviour. On that text, escaping is the identity and the hash serialises as a plain concatenation, in the hash's key order.
- DiscordAdapter.Capitalize: ASCII only, because Ruby's Unicode case mapping is not modelled. Under the JSON-safe requirement, this is exact.
- The adapter-name lookup, the `in`/`check` scripts and the integration tests (process spawning, a web server on a thread, JSON on stdout) are I/O and concurrency outside this model.
- Concurrent writes to the process environment are not modelled: `ProcessEnv` is a single object owned by the caller.
