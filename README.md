# pylon-cli core, modelled in Dafny

This project models the core of `pylon`, a command-line client for the Pylon
support-platform REST API, and proves properties of that model. The core has
these parts:

- **Credential store**: workspace names mapped to API keys, plus a default
  workspace, kept in one JSON file.
- **Key resolution**: the key is taken from the `--api-key` flag, then the
  `PYLON_API_KEY` environment variable, then the stored key of the default
  workspace.
- **HTTP client**: one authenticated `GET`. It retries on rate limiting and
  on transient failures, with exponential backoff, and normalises the
  response envelope.
- **Pagination**: `list` makes one call, or follows cursors page after page
  with `--all`.
- **Output formatter**: prints JSON or a table.
- **Date-range check** of `issues list`.
- **Auth commands**: `auth login`, `logout`, `list`, `default`, and the auth
  source that `whoami` reports.

Files:

- `common.dfy`: `Option`/`Result`, JavaScript truthiness of an optional
  string, `String(n)` for integers, and plain objects as `Record`s.
  - A `Record` holds distinct keys in insertion order and a value per key.
  - `Lookup`, `Assign` and `Remove` mirror `obj[k]`, `obj[k] = v` and
    `delete obj[k]`.
  - `Keys` mirrors `Object.keys`.
- `errors.dfy`: the error classes.
- `json.dfy`: parsed JSON values.
- `credentials.dfy`: the store, as a class whose methods change it in place.
- `key_resolver.dfy`: the key precedence.
- `http_client.dfy`: the query string, the retry loop and its reference
  definition `Run`, and response normalisation.
- `pagination.dfy`: `list`.
- `formatter.dfy`: `output` and `printTable`.
- `issues.dfy`: `issues list`.
- `auth_commands.dfy`: the auth commands.

Calls to the outside world become inputs:

- **`fetch`**: a script of outcomes, one per call.
- **Pages of a listing**: a script of replies, one per call.
- **Timer**: each sleep is recorded as a delay in milliseconds.
- **Environment variable and flags**: parameters.
- **Parsed dates**: passed in as `Option<int>` milliseconds.
- **Console**: what a command prints is a value (`Printed`, `Report` or
  `LoginOutcome`).

## Model

| member | source | states |
|---|---|---|
| `Common.Lookup` | src/lib/credentials.ts:102-114 | reading a key of a plain object yields a value exactly when the key is one of its keys |
| `Common.Assign` | src/lib/credentials.ts:79 | after `obj[k] = v`, `k` reads `v` and every other key reads as before; a new key goes to the end of the key order and an existing key keeps its place |
| `Common.Remove` | src/lib/credentials.ts:89 | after `delete obj[k]`, `k` is absent, every other key reads as before, and the key order loses only `k` |
| `Common.Without` | src/lib/credentials.ts:89-92 | removing a name from a key list keeps exactly the other names and keeps them distinct |
| `Common.WithoutAt` | src/lib/credentials.ts:92-93 | removing a name keeps the relative order of the others (used for `remaining[0]`) |
| `Common.AssignTwice` | src/lib/pagination.ts:30-36 | writing the same key twice is the same as writing only the second value |
| `Common.AssignSame` | src/lib/pagination.ts:17-30 | writing a key its present value changes nothing |
| `Common.DistinctIndex` | src/commands/auth.ts:93-96 | in a distinct key list, entries at two different positions differ |
| `Common.DecimalString` | src/lib/api-client.ts:35 | `String(n)` is never empty, is all digits for `n >= 0`, and starts with `-` for `n < 0` |
| `Common.DecimalStringDenotes` | src/lib/api-client.ts:35 | `String(n)` is the decimal numeral of `n`: its digits denote `abs(n)`, with no leading zero except in `"0"`, after a `-` exactly when `n < 0` |
| `Common.NatDigits` | src/lib/api-client.ts:35 | the digits of a natural number denote it, and start with `0` only for `0` |
| `JsonModel.Member` | src/lib/api-client.ts:103-113 | a member lookup succeeds exactly when the name is among the object's member names |
| `Credentials.CredentialStore.Load` | src/lib/credentials.ts:36-49 | a parsed file gives its `default` and its `workspaces` (empty when absent); a missing or corrupt file gives an empty store with no default |
| `Credentials.CredentialStore.AddCredential` | src/lib/credentials.ts:72-81 | stores or overwrites the key under the name and leaves every other entry alone; the name is appended to the key order only if new; the first workspace becomes the default, otherwise the default is kept; the store invariant is preserved |
| `Credentials.CredentialStore.RemoveCredential` | src/lib/credentials.ts:87-97 | deletes the entry and leaves the others alone; removing the default makes the first remaining workspace in key order the default, or none; the invariant is preserved |
| `Credentials.CredentialStore.SetDefaultWorkspace` | src/lib/credentials.ts:133-140 | succeeds exactly when the workspace holds a non-empty key and then makes it the default; otherwise fails with `Workspace "<name>" not found in credentials` and changes nothing; the entries never change |
| `Credentials.CredentialStore.ApiKey` | src/lib/credentials.ts:102-114 | a non-empty name reads that workspace's key; otherwise a non-empty default reads the default's key; otherwise none |
| `Credentials.CredentialStore.Workspaces` | src/lib/credentials.ts:126-128 | the names are distinct, and a name is listed exactly when it has an entry |
| `Credentials.DefaultKeyResolution` | src/lib/credentials.ts:109-111 | in a consistent store, a non-empty default always yields its key; a default that names no entry yields nothing |
| `Credentials.InheritedNameBecomesDefault` | src/lib/credentials.ts:133-140 | as written, a name inherited from `Object.prototype` that the store does not hold passes the check and becomes the default, although the own-entry check refuses it |
| `Credentials.DefaultConstructorAccepted` | src/lib/credentials.ts:133-140 | as written, `pylon auth default constructor` with only `a` stored succeeds and makes `constructor` the default |
| `Credentials.IndexAgreesOffPrototype` | src/lib/credentials.ts:135 | for every name that is stored or not inherited, the check as written and the own-entry check agree |
| `Credentials.ProtoNameStoresNothing` | src/lib/credentials.ts:72-81 | as written, adding a key under `__proto__` to an empty store stores nothing, yet makes `__proto__` the default |
| `Credentials.AddAgreesOffProto` | src/lib/credentials.ts:79 | for every name but an unstored `__proto__`, adding as written stores the key exactly as `AddCredential` does |
| `KeyResolver.SourceOf` | src/lib/auth.ts:10-22 | the level used is the first truthy one among flag, environment and stored key, in that order |
| `KeyResolver.ResolveApiKey` | src/lib/auth.ts:10-22 | fails with `AuthError` exactly when all three are absent or empty; otherwise returns the non-empty value of the level `SourceOf` names |
| `KeyResolver.FlagWins` | tests/lib/auth.test.ts:21-33 | a non-empty flag is returned whatever the environment and the store hold |
| `KeyResolver.EnvBeforeStored` | tests/lib/auth.test.ts:25-28 | without a flag, a non-empty environment key comes before the stored key |
| `KeyResolver.EmptyFallsThrough` | src/lib/auth.ts:12-19 | an empty string at any level behaves exactly as an absent one |
| `HttpClient.BuildQuery` | src/lib/api-client.ts:30-38 | the query holds exactly the parameters that are neither undefined nor `""`, as `String(value)`, in parameter order |
| `HttpClient.Normalize` | src/lib/api-client.ts:103-114 | data defaults to null; `request_id` is copied; `has_next_page` is always present and true only when the envelope says so; the cursor is the envelope's |
| `HttpClient.NormalizeEnvelopeOf` | src/lib/api-client.ts:103-114 | normalising the envelope of a normalised response gives that response back |
| `HttpClient.StepOf` | src/lib/api-client.ts:53-93 | an attempt retries exactly on a 429 or a transient failure before the last attempt; a 429 waits `Retry-After` seconds or the backoff; a transient failure waits `2^attempt` seconds; a finish with a response came from a parsed 2xx reply and carries its normalised body; any other finish is an `ApiError` |
| `HttpClient.StepOfFinishes` | src/lib/api-client.ts:53-93 | on every attempt a parsed 2xx reply finishes with its normalised body, and a 401, a 404 or any other non-2xx status except 429 with its own error; on the last attempt a 429 finishes with the rate-limit error and a transient failure with `Request failed after 4 attempts: <message>` |
| `HttpClient.Run` | src/lib/api-client.ts:42-99 | at most four calls; one delay per retry; every call but the last retried with its recorded delay, and the last one finished with the result |
| `HttpClient.CreateClient` | src/lib/api-client.ts:120-122 | a client exists exactly when a key resolves, and it holds that key; otherwise `AuthError` |
| `HttpClient.Get` | src/lib/api-client.ts:26-100 | the request goes to the base URL plus the path, with the bearer key, the user agent and the filtered query, whose keys keep the parameters' order (as `BuildQuery` states); result, call count and delays are those of `Run` |
| `HttpClient.Attempts` | src/lib/api-client.ts:40-99 | the attempt loop's result, call count and delays are those of `Run` |
| `HttpClient.Attempt` | src/lib/api-client.ts:43-93 | one attempt finishes or sleeps exactly as `StepOf` decides, and remembers the message of a transient failure |
| `HttpClient.UnauthorizedIsNotRetried` | src/lib/api-client.ts:65-70 | a 401 on any attempt ends the loop with the invalid-key error: one more call, no sleep |
| `HttpClient.NotFoundNamesPath` | src/lib/api-client.ts:72-74 | a 404 on any attempt ends the loop with `Not found: <path>` |
| `HttpClient.OtherErrorStatusIsNotRetried` | src/lib/api-client.ts:76-82 | any other non-2xx status on any attempt ends the loop with `API error (<status>): <text>`, the status text standing in for an empty body |
| `HttpClient.SuccessIsNotRetried` | tests/lib/api-client.test.ts:26-41 | a parsed 2xx reply on any attempt ends the loop at once with that reply's normalised body |
| `HttpClient.RateLimitedThenOk` | src/lib/api-client.ts:53-61 | a 429 and then a success: two calls, one sleep of `Retry-After` seconds or 1 s, and the second body |
| `HttpClient.TransientFailuresExhaust` | src/lib/api-client.ts:86-99 | when every remaining call fails transiently, the client sleeps `2^i` seconds between calls and fails with status 0 and the last failure's message |
| `HttpClient.FourTransientFailures` | src/lib/api-client.ts:42-99 | four transient failures: four calls, sleeps of 1, 2 and 4 seconds, then `Request failed after 4 attempts: ...` |
| `HttpClient.RateLimitedThroughout` | src/lib/api-client.ts:53-62 | a 429 on every attempt ends on the fourth with `Rate limited. Please try again later.` |
| `HttpClient.SuccessIsLastReply` | src/lib/api-client.ts:84-85 | a successful `get` returns the normalised body of its last call's reply |
| `Pagination.Spread` | src/lib/pagination.ts:14-16 | the spread keeps the filters' keys in order, each with its value (an absent one as undefined) |
| `Pagination.BuildParamsContents` | src/lib/pagination.ts:14-18 | the first request carries the filters in order, then `cursor` exactly when it is truthy, then `limit` as a number exactly when given; every filter keeps its value |
| `Pagination.ParamsAtContents` | src/lib/pagination.ts:30-36 | request `n > 0` carries the cursor of page `n - 1` and otherwise the first request's parameters |
| `Pagination.CallParamsClosedForm` | src/lib/pagination.ts:26-36 | setting the cursor again and again in the one parameters object yields the first request's parameters with only the latest cursor |
| `Pagination.GatheredLength` | src/lib/pagination.ts:31-33 | the gathered items number exactly the items of the pages together |
| `Pagination.GatheredGrows` | src/lib/pagination.ts:33 | each page only appends; earlier items are never changed |
| `Pagination.Requests` | src/lib/pagination.ts:29-30 | the call history has one parameters object per call |
| `Pagination.RequestIsCallParams` | src/lib/pagination.ts:29-30 | every call sent the parameters object as the loop had left it |
| `Pagination.RequestAt` | src/lib/pagination.ts:29-36 | call `j` sent exactly the parameters of `ParamsAt(j)` |
| `Pagination.ChainedAt` | src/lib/pagination.ts:35-36 | every call before the last was answered by a page with a next page and a cursor |
| `Pagination.List` | src/lib/pagination.ts:9-41 | without `all`: one call with the built parameters and its reply handed back; with `all`: calls chained page by page, stopping at the first error or at the first page without a next page or cursor, with the gathered items as the data |
| `Pagination.ListAll` | src/lib/pagination.ts:24-40 | `ListedBy`: the auto-paginating loop makes one call per reply at most, each with the parameters of `Requests` (the previous page's cursor set in the one parameters object); every call but the last led to another; the outcome is `Collected`'s: the first error, or the gathered items of all pages once a page has no next page or no cursor |
| `Pagination.CallStep` | src/lib/pagination.ts:28-37 | one more call extends the history, the gathered items and the chain as the loop body does |
| `Pagination.TwoPages` | tests/lib/pagination.test.ts:22-30 | two pages, the first pointing at the second, gather both pages' items in order |
| `Formatter.PrintTable` | src/lib/formatter.ts:33-75 | prints exactly `TableLines`, or throws what `printTable` throws on a null item: see the lemmas below |
| `Formatter.FillRows` | src/lib/formatter.ts:45-53 | one row per item, in order, unless a column is read from a null item, which throws `Cannot read properties of null (reading '<first column>')` |
| `Formatter.FillEntries` | src/lib/formatter.ts:56-66 | one entry per member, in order |
| `Formatter.Output` | src/lib/formatter.ts:9-31 | prints exactly `OutputLines`, or throws what `printTable` throws: see the lemmas below |
| `Formatter.DefaultFormatIsJson` | src/lib/formatter.ts:13 | without `--format` the output is the JSON output |
| `Formatter.JsonPrintsData` | src/lib/formatter.ts:16-30 | in JSON mode without `--raw`, exactly the data is printed, or `[]` when it is null |
| `Formatter.RawPrintsEnvelope` | src/lib/formatter.ts:14-30 | with `--raw` in JSON mode, one document is printed, and reading it back gives the whole response |
| `Formatter.EnvelopeRoundTrip` | src/lib/formatter.ts:14 | every member of a response survives serialising and parsing back |
| `Formatter.MemberWith` | src/lib/formatter.ts:14 | appending a member changes only that name's lookup |
| `Formatter.TableIgnoresRaw` | src/lib/formatter.ts:14-28 | in table mode `--raw` changes nothing when data is present; with null data, non-raw prints `No results.` while raw prints `null` and any hint |
| `Formatter.EmptyArrayHasNoHint` | src/lib/formatter.ts:37-40 | an empty array prints only `No results.`, even when another page exists |
| `Formatter.ArrayTableThrows` | src/lib/formatter.ts:41-53 | a null first item throws at `Object.keys`; otherwise a null item throws, naming the first column, exactly when the first item has a key to read; nothing else in an array throws |
| `Formatter.ArrayTableShape` | src/lib/formatter.ts:41-53 | when nothing is thrown, the columns are the first `min(6, n)` keys of the first item, in order, with one row per item and one cell per column holding that item's value under that key |
| `Formatter.TableThrowsOnlyOnNull` | src/lib/formatter.ts:33-70 | printing a table throws only for an array holding a null item; data that is not an array always prints a table or a document |
| `Formatter.NullItemsThrow` | src/lib/formatter.ts:41-47 | `[null]` throws `Cannot convert undefined or null to object`; `[{"id": 1}, null]` throws `Cannot read properties of null (reading 'id')` |
| `Formatter.ObjectTableShape` | src/lib/formatter.ts:55-66 | an object never throws, and prints one entry per member, in order, with its cell |
| `Formatter.HintIff` | src/lib/formatter.ts:72-74 | when nothing is thrown, the more-results hint is printed after the table exactly when `has_next_page` is true, the cursor is non-empty and the data was not an empty array; it names the cursor and is printed last |
| `Formatter.CellRule` | src/lib/formatter.ts:47-50 | a cell is empty text exactly for null and `""`, and JSON text exactly for objects and arrays |
| `Issues.ValidateDateRange` | src/commands/issues.ts:8-27 | accepts exactly when both dates parse and `0 <= end - start <= 30 days`; checks the start first, then the end, then a too-long range, then a reversed range, each with its message |
| `Issues.BoundaryRangesAccepted` | src/commands/issues.ts:21-25 | a range of exactly 30 days, and an empty range, are accepted |
| `Issues.ThirtyFiveDaysRefused` | src/commands/issues.ts:19-26 | 2024-01-01 to 2024-02-05 is refused as too long, and the reverse as reversed |
| `Issues.RangeFilters` | src/commands/issues.ts:44-50 | the range becomes the filters `start_time` then `end_time`, with the given texts |
| `Issues.ListIssues` | src/commands/issues.ts:40-55 | a refused range raises its error with no request and no key needed; a missing key raises `AuthError` with no request; otherwise the listing runs as `List` does, and its response is printed, or the error printing throws is raised; every request carries both range filters |
| `Issues.FiltersSent` | src/commands/issues.ts:44-50 | every request of the listing carries `start_time` and `end_time` |
| `AuthCommands.SlugShape` | src/commands/auth.ts:32 | the derived name keeps the length; upper-case ASCII letters become lower case, `a-z0-9-` stay, everything else becomes `-` |
| `AuthCommands.SlugIdempotent` | src/commands/auth.ts:32 | deriving a name from a derived name changes nothing |
| `AuthCommands.SlugFixedPoint` | src/commands/auth.ts:32 | a name is its own derived name exactly when it holds only `a-z0-9-` |
| `AuthCommands.Login` | src/commands/auth.ts:25-52 | fails without touching the store when no key resolves, when `/me` fails or when no name can be derived; otherwise stores the key under `--name` or the derived name, appending a new name to the key order and keeping the order for a known one; says "Set as default workspace" exactly when the store then holds one workspace, and when the loaded store was consistent that workspace is then the default; warns exactly when the environment key is set |
| `AuthCommands.EnvWarningIsAccurate` | src/commands/auth.ts:44-48 | with the environment key set and no flag, the environment key is the one resolved |
| `AuthCommands.Logout` | src/commands/auth.ts:57-77 | targets the argument, else the default; with no target, or one not stored, prints the error and the available names, or `(none)`, exits 1 and leaves the store unchanged; otherwise removes exactly that workspace, and when it was the default the first remaining workspace in key order becomes the default, or none |
| `AuthCommands.ListWorkspaces` | src/commands/auth.ts:82-97 | prints exactly `ListLines` of the stored names and the default |
| `AuthCommands.ExactlyDefaultMarked` | src/commands/auth.ts:92-96 | one line per workspace after the heading; a line starts with `* ` exactly when its workspace is the default, so at most one does |
| `AuthCommands.EmptyListHint` | src/commands/auth.ts:86-90 | an empty store prints `No workspaces configured.` and the login hint |
| `AuthCommands.DefaultCommand` | src/commands/auth.ts:102-119 | without an argument, reports the default or its absence and changes nothing; with one, sets it when it holds a key and reports it, otherwise prints the not-found error and changes nothing |
| `AuthCommands.WhoamiMisreportsFlag` | src/commands/auth.ts:151-157 | with both `--api-key` and `PYLON_API_KEY` set, the client uses the flag's key but `whoami` names the environment variable |
| `AuthCommands.WhoamiSourceIsKeySource` | src/commands/auth.ts:151-157 | the corrected report always names the level whose key the client holds; the code as written agrees with it except when both flag and environment are set |

## Left out

- File system:
  - `getCredentialsPath`, reading and writing the file, directory creation
    and the file modes are not modelled.
  - Loading is the `Load` constructor over a `CredentialFile` value (missing,
    corrupt or parsed).
  - The model keeps one store object through a command, where the source
    loads the file afresh for each operation. That is equivalent, because
    the operations run one after another.
- Network and timers:
  - `fetch`, `sleep`, WHATWG `URL` construction and `encodeURIComponent`
    are not modelled.
  - The URL is modelled as the base URL followed by the path, and the query
    as a record of strings.
- `parseInt` is not modelled:
  - a `Retry-After` header that does not parse (`NaN` delay) is left out,
    because the header is an optional natural number;
  - `--limit` is passed in as the integer `parseInt` returns (`None` when
    absent or empty).
- `Date` parsing is not modelled: each date arrives as optional
  milliseconds.
- Pagination's uses of `get`:
  - `List` takes the replies of successive `get` calls as a script and does
    not call `HttpClient.Get` itself.
  - The auto-paginating `while (true)` loop is bounded by that script.
    Running out of replies is the `PagesExhausted` outcome; the source would
    go on calling.
- Rendering:
  - `cli-table3` and the character text of `JSON.stringify` are not
    modelled.
  - A printed table or document is the value handed to the renderer.
  - A login message carries the organisation's `name` as a JSON value,
    instead of its template-string text.
- Unicode: `toLowerCase` is modelled on ASCII only, and a string is a
  sequence of Unicode scalar values, where JavaScript strings are UTF-16
  code units.
  - Every other character of the Basic Multilingual Plane becomes `-`, as
    in the source.
  - A character outside it is one `-` in the model. The source's pattern
    has no `u` flag, so it replaces each of its two code units, and `😀`
    becomes `--`.
  - Characters that lower-case into ASCII letters (the Kelvin sign) or into
    two characters (`İ`) are not modelled.
- JSON and object details:
  - Numbers are integers only, and unbounded. JavaScript numbers are
    doubles: integers above 2^53 are rounded, and `String` writes numbers
    from 10^21 up in exponent notation (see `Common.DecimalString` below).
  - `null` and `undefined` are both `JNull`.
  - `Object.keys` is modelled as insertion order, so the engine's ordering
    of integer-like keys first is not modelled.
  - `Object.keys` of a first array item that is a number or a boolean gives
    no keys, as in the source. A string or an array first item has index
    keys in the source (`"0"`, `"1"`, ...) and reads as having none here.
  - A null item in an array table is modelled: the model throws where the
    source throws, with V8's message text.
  - A repeated member name in parsed JSON is read as its last value, but
    `Object.entries` and `Object.keys` list it once per occurrence.
- Commands not modelled:
  - `auth token` and `auth status`, and `whoami` apart from the auth source
    it names, only print values computed by modelled members.
  - `handleError` is modelled only as the `Error: <message>` line of
    `Handled`.
  - Registering commands with commander, the resource commands, `install`
    and the build configuration are not part of this model.
- Common.Lookup: reads own keys only. JavaScript's `obj[k]` also finds
  the members every object inherits from `Object.prototype` (`constructor`,
  `toString`, `__proto__`, ...). The program indexes with names that can
  be such a member in two places. In the credential store the name is the
  user's, and the inherited reads are modelled separately, by
  `Credentials.IndexTruthyAsWritten`; see Findings. In an array table the
  name is a column, taken from the first item's own keys; those reads are
  not modelled (see `Formatter.PrintTable` below).
- Common.Assign: always stores the entry. In JavaScript, assigning a string
  to `__proto__` on an object without an own `__proto__` entry is ignored.
  That case is modelled by `Credentials.AddAsWritten`; see Findings.
- Credentials.CredentialStore.AddCredential: models the evidently intended
  behaviour. The source stores nothing for `__proto__`, and then breaks the
  invariant by leaving `__proto__` as the default of an empty store; see
  Findings.
- Credentials.CredentialStore.SetDefaultWorkspace: models the evidently
  intended own-entry check. The source also accepts names inherited from
  `Object.prototype`, and then breaks the invariant by making a name the
  default that no workspace has; see Findings.
- Credentials.CredentialStore.ApiKey: a name, or a default, that names no
  stored workspace reads as no key. In the source, an inherited name reads
  the inherited member: for `constructor` the `Object` function, for
  `__proto__` the object `Object.prototype`. Both are truthy, so
  `resolveApiKey` hands them on as the key. The store reaches such a
  default through either credential-store finding (`setDefaultWorkspace`
  accepting an inherited name, or `addCredential` making `__proto__` the
  default of an empty store without storing its key) or through a
  hand-edited file.
- Credentials.DefaultKeyResolution: "a default that names no entry yields
  nothing" holds for the own-entry reading. In the source it fails for a
  dangling default such as `constructor` or `__proto__`, as for `ApiKey`
  above.
- Common.DecimalString: the model's `int` is exact. `String(n)` of a
  JavaScript number writes `1e+21` from 10^21 up, and an integer above 2^53
  has already been rounded to the nearest double. So
  `--limit 1000000000000000000000` is sent as `limit=1e+21` by the source
  and as all its digits here, and a JSON cell `12345678901234567890` prints
  as `12345678901234567000` in the source and exactly here. What the
  contract states (a non-empty numeral, all digits for `n >= 0`, a leading
  `-` for `n < 0`) holds for every JavaScript integer below 10^21 in
  absolute value; the digits themselves are exact only below 2^53 (see
  `Common.DecimalStringDenotes`).
- Common.DecimalStringDenotes: states the exact decimal numeral of `n`. It
  matches `String(n)` only for integers below 2^53 in absolute value. From
  there `String` writes the shortest digits that identify the double,
  padded with zeros (2^60 prints as `1152921504606847000`), and from 10^21
  it uses exponent notation, as for `Common.DecimalString`.
- Formatter.PrintTable: a cell reads the item's own member only, and is
  empty when the item has none. The source's `item[k]` also reads members
  a later item inherits or has as a primitive. With `[{"constructor": 1}, {}]`
  the second row's cell is `String(Object)`, the text of the `Object`
  function, in the source and empty here. With `[{"length": 1}, "abc"]` the
  second row's cell is `3` in the source and empty here. A string item's
  index columns (`"0"`, ...) are likewise read as empty.
- Formatter.FillRows: the row loop reads cells as `PrintTable` does, so it
  has the same gap for inherited and primitive members.
- Formatter.ArrayTableShape: the rows it states use the same own-member
  reads, so it has the same gap for inherited and primitive members.
- AuthCommands.Login: stores the credential through the corrected
  `AddCredential`. With `--name __proto__` on an empty store, the source
  stores no key and prints no "Set as default workspace" line. The model
  stores the key and reports it as the default; see Findings.
- AuthCommands.DefaultCommand: sets the default through the corrected
  `SetDefaultWorkspace`. With `pylon auth default constructor`, the source
  prints "Default workspace set to: constructor" and makes that name the
  default. The model reports that the workspace is not found and leaves the
  default unchanged; see Findings.
- `Issues.ValidateDateRange`: compares integer milliseconds against
  30 × 86,400,000 where the source divides by the day length in floating
  point. For integer inputs the two comparisons agree.

## Findings

| source | as written | input that shows it | evidently intended | confidence | as-written member | corrected member |
|---|---|---|---|---|---|---|
| src/commands/auth.ts:151-157 | `whoami` names `PYLON_API_KEY` as the auth source whenever that variable is set | `--api-key flag-key` with `PYLON_API_KEY=env-key`: the client authenticates with `flag-key`, but `whoami` prints `Auth source: PYLON_API_KEY environment variable` | name the level whose key the client holds: flag, then environment, then stored credentials, as in src/lib/auth.ts:10-22 | high (not executed) | `AuthCommands.WhoamiSourceAsWritten` (exhibited by `AuthCommands.WhoamiMisreportsFlag`) | `AuthCommands.WhoamiSource` (proved by `AuthCommands.WhoamiSourceIsKeySource`) |
| src/lib/credentials.ts:133-140 | `!creds.workspaces[workspace]` also finds the members every object inherits from `Object.prototype`, so those names pass the check and become the default, although no such workspace is stored | store holding only workspace `a`, then `pylon auth default constructor`: prints `Default workspace set to: constructor`, and `getCredentialApiKey()` then returns the `Object` function | accept only a stored workspace holding a key, so that the default always names a stored workspace | high (not executed) | `Credentials.SetDefaultAsWritten` (exhibited by `Credentials.InheritedNameBecomesDefault` and `Credentials.DefaultConstructorAccepted`) | `Credentials.CredentialStore.SetDefaultWorkspace` (keeps `DefaultConsistent`) |
| src/lib/credentials.ts:72-81 | `creds.workspaces[workspace] = apiKey` with workspace `__proto__` invokes the prototype setter, which ignores a string, so nothing is stored | empty store, then `pylon auth login --key k --name __proto__`: the file ends with default `__proto__` and no workspaces | store the key under the given name | high (not executed) | `Credentials.AddAsWritten` (exhibited by `Credentials.ProtoNameStoresNothing`) | `Credentials.CredentialStore.AddCredential` (stores the key and keeps `DefaultConsistent`) |
