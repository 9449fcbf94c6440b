# harvest-backup: a Dafny model of the backup core

harvest-backup copies every Harvest account a personal access token can see
into a directory tree. It uses the Harvest API v2. The core modelled here has
four parts:

- **The API client.** It throttles requests in a sliding window, retries
  server errors, rate limiting and network failures with a doubling delay,
  and raises authentication failures at once. It builds readable error
  messages from error bodies. It walks page-numbered listings until a page
  says there is no next one.
- **The endpoint table.** Sixteen Harvest resources, in a fixed order. Each
  is a list, a single resource, or a list with nested resources whose path
  templates hold `{id}`.
- **The writer.** It puts JSON documents at
  `harvest_account_<id>/<endpoint>/<file>` and binary artifacts under
  `artifacts/`. It keeps a manifest of artifact hashes
  (`.artifacts_manifest.json`) so that an artifact whose hash has not changed
  is not downloaded or written again.
- **The executor.** It discovers the Harvest accounts (Forecast accounts are
  dropped) and writes `accounts.json`. For each account it walks the endpoint
  table and writes, per endpoint:
  - `list.json`;
  - one file per item;
  - the nested listings of each item;
  - for invoices and estimates, the PDF behind the public client link, keyed
    by a hash of the item that ignores `updated_at`.

  An authentication error stops the run. Any other error skips that endpoint.

Modules, one file each:

| module | contents |
|---|---|
| `Wrappers` | `Option` and `Result` |
| `Strings` | decimal rendering, `str.replace`, and the last path segment |
| `Json` | decoded JSON values with Python's truthiness, `str()` and hashability |
| `Seqs` | subsequences |
| `RateLimit` | the limiter |
| `Client` | error messages, the retry loop, pagination, URLs and headers |
| `Exceptions` | the authentication error |
| `Endpoints` | the endpoint table |
| `Accounts` | accounts and discovery |
| `Writer` | paths, the manifest and the writer class |
| `Backup` | what a run does to the output directory, as functions |
| `Executor` | the executor class, whose methods are proved against `Backup` |

**How the proofs are arranged.** Every state-changing method is a Dafny
method. It changes a class's fields: the limiter's timestamps, or the
writer's files and manifest. Its `ensures` ties the new state to a function
of the old state; for example, `BackupExecutor.BackupEndpoint` leaves the disk
as `Backup.EndpointEffect` says. The lemmas beside those functions state what
the source promises about them.

Where the code does something other than what its own comments, type hints
or tests say, the model follows the code:

- `get_paginated` is declared as `AsyncIterator[dict]` that "Yields:
  Individual items from all pages" (`src/harvest_backup/api/client.py:358-373`),
  and `_extract_items_from_response` returns a bare list as it is. The
  next-page test then calls `.get` on that list and fails, so a bare-list
  response yields its items and then raises (`Client.PageShapes`).
- `_backup_account` expects `company_data` and `subdomain` to be attached to
  the account already (`src/harvest_backup/backup/executor.py:66` and `:70`),
  and `tests/test_account_discovery.py:27-31` asserts that discovery fills
  them. `discover_accounts` does not, and `backup_all` does not either. In a
  full run `company/data.json` therefore holds `null`, and no PDF is
  downloaded (`Backup.PdfStep` needs a subdomain).
- A 429 is retried on every attempt, the final one included. The loop then
  runs out of attempts and raises the 429 it saw last
  (`Client.RateLimitedThroughout`).

Also, errors inside the single-resource, nested-resource and PDF steps are
logged and swallowed, authentication errors included. Only an error from the
main listing (`_collect_items_from_pagination`) can stop an account.

## Model

| member | source | states |
|---|---|---|
| RateLimit.Prune | src/harvest_backup/api/client.py:60-62 | the timestamps kept are exactly those of the input still inside the window, never more of them |
| RateLimit.PruneIsSubsequence | src/harvest_backup/api/client.py:60-62 | pruning keeps the recorded order |
| RateLimit.PruneKeepsRecent | src/harvest_backup/api/client.py:60-62 | nothing is dropped when every timestamp is recent |
| RateLimit.WaitsIffFull | src/harvest_backup/api/client.py:57-75 | the limiter proceeds exactly when the pruned window is below the quota, sleeps exactly when it is full and non-empty, and fails (`min` of an empty list) only when the quota is zero or less |
| RateLimit.WaitOutlastsOldest | src/harvest_backup/api/client.py:64-70 | the wait is window minus the oldest request's age plus 0.1 s; it exceeds the buffer and outlasts the oldest request |
| RateLimit.CarriedOverAreRecent | src/harvest_backup/api/client.py:57-75 | after a call, the carried-over timestamps are an in-order subsequence of the old ones, all within the window of the last pruning; the new stamp comes last |
| RateLimit.QuotaKept | src/harvest_backup/api/client.py:57-75 | when the clock really advanced by the wait, a window holding at most the quota still does after the request is recorded |
| RateLimit.RateLimiter.constructor | src/harvest_backup/api/client.py:41-55 | defaults of 100 requests per 15 s, with no timestamps recorded |
| RateLimit.Step | src/harvest_backup/api/client.py:57-75 | one limiter call on the timestamps; its properties are `WaitsIffFull`, `WaitOutlastsOldest`, `CarriedOverAreRecent` and `QuotaKept` |
| RateLimit.RateLimiter.WaitIfNeeded | src/harvest_backup/api/client.py:57-75 | the outcome and the new timestamps are one `Step` of the old timestamps |
| Client.ExtractFindsFirstResolving | src/harvest_backup/api/client.py:125-148 | a message is found exactly when some key resolves; it is the first resolving key's string, or the first string of its list |
| Client.EmptyStringStopsSearch | src/harvest_backup/api/client.py:136-141 | an empty string under the first key ends the search with the empty string |
| Client.ExtractErrorMessage | src/harvest_backup/api/client.py:150-173 | the result is never empty; it is the body's non-empty message, else the text cut to 200 characters, else the reason, else "HTTP <status>" |
| Client.FormatPageInfo | src/harvest_backup/api/client.py:175-191 | the result is empty exactly when there are no params or no page; otherwise it starts with " page=" |
| Client.FormatPageInfoShape | src/harvest_backup/api/client.py:184-191 | with a page given: " page=" and the page's `str()`, then " per_page=" and the size's `str()` exactly when a size other than 2000 is given |
| Client.HandleHttpError | src/harvest_backup/api/client.py:193-234 | the decision after a rejected response; characterised by `DecideRetries`, `AuthFailsAtOnce` and `OtherStatusRaisedAtOnce` |
| Client.HandleNetworkError | src/harvest_backup/api/client.py:236-253 | retry with the doubled delay while attempts are left, else raise; characterised by `DecideRetries` |
| Client.Decide | src/harvest_backup/api/client.py:291-313 | one pass of the loop body; characterised by `DecideRetries` |
| Client.RequestOutcome | src/harvest_backup/api/client.py:291-317 | the reference the loop is proved against; its shape is `RequestShape` |
| Client.RequestWithRetries | src/harvest_backup/api/client.py:291-317 | the loop returns the result, the number of attempts and the sleeps that `RequestOutcome` gives |
| Client.DecideRetries | src/harvest_backup/api/client.py:193-253 | one attempt is retried exactly when it was a 429 with a valid or missing Retry-After, or a 5xx or network failure with attempts left; the sleep is the header's value or the current delay, and the delay doubles |
| Client.RunShape | src/harvest_backup/api/client.py:291-317 | from any attempt on: at most the remaining budget of attempts; every retried attempt sleeps the doubled delay; the attempt it stops at is not a retried one |
| Client.RequestShape | src/harvest_backup/api/client.py:291-317 | between 1 and maxRetries+1 attempts; sleep j is `SleepFor(attempt j, retryDelay * 2^j)`; with a negative budget, no attempt and "Request failed after retries" |
| Client.FirstSuccessReturned | src/harvest_backup/api/client.py:293-296 | a 2xx first response is returned after one attempt and no sleep |
| Client.AuthFailsAtOnce | src/harvest_backup/api/client.py:217-224 | 401 and 403 raise after one attempt; the error carries the status, the raw body and a text containing the extracted message |
| Client.OtherStatusRaisedAtOnce | src/harvest_backup/api/client.py:233-234 | any other non-2xx status below 500 is raised at once |
| Client.ServerErrorsExhaust | src/harvest_backup/api/client.py:226-231 | 5xx on every attempt gives maxRetries+1 attempts with sleeps retryDelay·2^j, then the last status is raised |
| Client.RateLimitedThenSuccess | src/harvest_backup/api/client.py:209-215 | 429s followed by a success return that success, with one sleep per 429 |
| Client.RateLimitedThroughout | src/harvest_backup/api/client.py:209-215 | 429 on every attempt exhausts the loop and raises the 429 |
| Client.RequestUrl | src/harvest_backup/api/client.py:413-417 | the accounts service URL when no account is given, otherwise the API base followed by the endpoint |
| Client.AccountScopedUrl | src/harvest_backup/api/client.py:413-417 | a call scoped to an account never goes to the accounts service, and its URL does not depend on the account id |
| Client.RequestUrlInjective | src/harvest_backup/api/client.py:417 | distinct endpoints of an account get distinct URLs |
| Client.AccountHeaders | src/harvest_backup/api/client.py:280-282 | the Harvest-Account-Id header is sent exactly when an account is given, carrying its decimal id |
| Client.DecodeBody | src/harvest_backup/api/client.py:384 | a request error propagates; the body decodes exactly when it is JSON |
| Client.FirstItemField | src/harvest_backup/api/client.py:335-339 | the value of the first non-metadata field holding a list, or none when no field does |
| Client.ExtractItems | src/harvest_backup/api/client.py:319-342 | the items found in a response; characterised by `ExtractItemsShapes` |
| Client.ExtractItemsShapes | src/harvest_backup/api/client.py:319-342 | a list as itself, an object's first item field, else the object as one item; any other value fails |
| Client.HasNextPage | src/harvest_backup/api/client.py:344-356 | whether another page exists; characterised by `HasNextPageIff` |
| Client.ReadPage | src/harvest_backup/api/client.py:384-398 | what one page yields, whether the loop goes on, and the error it stops with; a failing page never asks for more (`PageShapes`) |
| Client.HasNextPageIff | src/harvest_backup/api/client.py:344-356 | there is a next page exactly when next_page is not null or links.next is not null; a value that is not an object fails |
| Client.PageShapes | src/harvest_backup/api/client.py:384-398 | a bare list yields its items and then fails, an object without an item field yields itself, and a scalar fails with nothing yielded |
| Client.Drain | src/harvest_backup/api/client.py:379-398 | the page loop from a page on; `DrainFromFirstPage` and `GetPaginated` state what it yields |
| Client.DrainStopsAtFirstLast | src/harvest_backup/api/client.py:379-398 | the listing stops at the first page that does not ask for more, with that page's error |
| Client.DrainIsConcatenation | src/harvest_backup/api/client.py:386-396 | the items yielded are the concatenation, in order, of the pages requested |
| Client.DrainFromFirstPage | src/harvest_backup/api/client.py:358-398 | from page 1: every requested page but the last asks for more; the items are their concatenation; the error is the last page's |
| Client.GetPaginated | src/harvest_backup/api/client.py:358-398 | requests pages 1, 2, … in order and yields and stops exactly as `Drain` of the page outcomes does |
| Client.HarvestClient.constructor | src/harvest_backup/api/client.py:84-111 | 3 retries with a 1 s initial delay by default, and a fresh limiter with default settings |
| Client.HarvestClient.Request | src/harvest_backup/api/client.py:255-317 | one limiter step per logical request (not per attempt); when the limiter fails, nothing is sent and no attempt is made; otherwise the URL and account header are sent and the outcome is the retry loop's |
| Client.HarvestClient.Get | src/harvest_backup/api/client.py:400-420 | the request goes to `RequestUrl` of the endpoint and account, and the result is the decoded body of the request's outcome |
| Exceptions.NewAuthenticationError | src/harvest_backup/api/exceptions.py:7-18 | keeps the status and the body; the text is "Unauthorized (401): …" for 401, otherwise "Forbidden (<status>): …" |
| Exceptions.TextContainsMessage | src/harvest_backup/api/exceptions.py:17-18 | the error text ends with the message, and starts with "Unauthorized" exactly for 401 |
| Endpoints.Plain | src/harvest_backup/api/endpoints.py:6-15 | the dataclass defaults: list and detail, no nested resources |
| Endpoints.TableKeysAreNames | src/harvest_backup/api/endpoints.py:19-84 | each key of the table is its endpoint's name |
| Endpoints.TableKeysDistinct | src/harvest_backup/api/endpoints.py:19-84 | the keys are distinct |
| Endpoints.SingletonsAreUsersMeAndCompany | src/harvest_backup/api/endpoints.py:44-49 | the only entries with neither list nor detail are users_me and company |
| Endpoints.NestedPathsExactlyWhenNested | src/harvest_backup/api/endpoints.py:22-43 | an entry has nested templates exactly when it is marked nested, and only projects and users are |
| Endpoints.TemplatesHoldId | src/harvest_backup/api/endpoints.py:26-42 | every nested template of projects and users holds `{id}` |
| Endpoints.Descriptors | src/harvest_backup/api/endpoints.py:19-84 | the descriptors in insertion order |
| Endpoints.GetEndpoint | src/harvest_backup/api/endpoints.py:87-96 | none exactly when no key matches; otherwise a descriptor of the table with that name |
| Endpoints.GetEndpointFindsEntry | src/harvest_backup/api/endpoints.py:87-96 | looking up a table key returns that key's own entry |
| Endpoints.UsersMeProjectAssignmentsIsListOnly | src/harvest_backup/api/endpoints.py:50-54 | the current user's project assignments are listed but get no per-item files |
| Accounts.HarvestOnly | src/harvest_backup/api/accounts.py:26 | every account kept is a Harvest account of the listing, and every Harvest account is kept |
| Accounts.HarvestOnlyKeepsOrder | src/harvest_backup/api/accounts.py:26 | the filter keeps the listing's order |
| Accounts.HarvestOnlyCounts | src/harvest_backup/api/accounts.py:26 | each Harvest account is kept as often as it occurs, any other never |
| Accounts.NoHarvestAccounts | src/harvest_backup/api/accounts.py:26 | a listing of Forecast accounts only gives nothing |
| Accounts.DiscoverAccounts | src/harvest_backup/api/accounts.py:11-32 | the request's error propagates; otherwise exactly `HarvestOnly` of the listing: every Harvest account, in order, and no other |
| Accounts.DiscoveryRequest | src/harvest_backup/api/accounts.py:22 | discovery goes to the accounts service without an account header |
| Writer.AccountDirInjective | src/harvest_backup/backup/writer.py:106-109 | different accounts get different directories |
| Writer.JsonPathInjective | src/harvest_backup/backup/writer.py:106-109 | distinct (account, endpoint, file) triples get distinct paths |
| Writer.PathKindsDisjoint | src/harvest_backup/backup/writer.py:18-29 | JSON files, artifacts, accounts.json and the manifest never share a path |
| Writer.ManifestKey | src/harvest_backup/backup/writer.py:59-69 | `"<endpoint>:<artifact>"`; `ManifestKeyInjective` states it identifies both parts |
| Writer.ManifestKeyInjective | src/harvest_backup/backup/writer.py:59-69 | for endpoint names without a colon, the key determines the endpoint and the artifact |
| Writer.ManifestHash | src/harvest_backup/backup/writer.py:71-86 | none exactly when the account or the key is missing; otherwise the stored hash |
| Writer.NeedsDownload | src/harvest_backup/backup/writer.py:202-246 | `should_download_binary`; characterised by `DownloadWhenMissing` and `SkipIffNoDownload` |
| Writer.WriteBinaryEffect | src/harvest_backup/backup/writer.py:127-200 | the reference `WriteBinary` is proved against; `SkipChangesNothing`, `WriteRecordsHash` and `SecondWriteSkipped` state its effect |
| Writer.SkipIffNoDownload | src/harvest_backup/backup/writer.py:127-200 | a binary write is skipped exactly when `should_download_binary` would say no |
| Writer.SkipChangesNothing | src/harvest_backup/backup/writer.py:156-167 | a skipped write changes neither the files nor the manifest |
| Writer.WriteRecordsHash | src/harvest_backup/backup/writer.py:169-200 | a write that is not skipped stores the bytes, records the hash under "endpoint:artifact", saves the manifest, and changes no other file and no other entry |
| Writer.WrittenNeedsNoDownload | src/harvest_backup/backup/writer.py:127-246 | after a write, the same artifact with the same hash needs no download |
| Writer.SecondWriteSkipped | src/harvest_backup/backup/writer.py:127-200 | writing the same artifact twice with the same hash skips the second write |
| Writer.DownloadWhenMissing | src/harvest_backup/backup/writer.py:202-246 | a missing file, or a missing manifest entry, means a download is needed |
| Writer.BackupWriter.constructor | src/harvest_backup/backup/writer.py:18-45 | the manifest starts as the one on disk, or empty when it is missing or unreadable |
| Writer.BackupWriter.WriteJson | src/harvest_backup/backup/writer.py:89-125 | the document is stored at its path; nothing else changes |
| Writer.BackupWriter.WriteBinary | src/harvest_backup/backup/writer.py:127-200 | the effect is `WriteBinaryEffect` with the hash supplied, or else the digest of the bytes |
| Writer.BackupWriter.WriteAccountsList | src/harvest_backup/backup/writer.py:248-270 | `{"accounts": [...]}` is stored at accounts.json; nothing else changes |
| Backup.Is422 | src/harvest_backup/backup/executor.py:234-248 | an HTTP status error carrying 422 (`UnprocessableIsStatusError`) |
| Backup.UnprocessableIsStatusError | src/harvest_backup/backup/executor.py:234-248 | a 422 answer is raised at once as the status error `_is_422_error` recognises |
| Backup.Collected | src/harvest_backup/backup/executor.py:105-127 | what collecting a drained listing gives; characterised by `CollectedSpec` |
| Backup.CollectFromOkIff | src/harvest_backup/backup/executor.py:119-127 | collecting succeeds exactly when no dict's truthy id is a list or a dict |
| Backup.CollectFromItems | src/harvest_backup/backup/executor.py:119-127 | the collected items are the dict items, in order |
| Backup.CollectFromIds | src/harvest_backup/backup/executor.py:119-127 | the ids are distinct, and are exactly the truthy ids of the dict items |
| Backup.CollectedSpec | src/harvest_backup/backup/executor.py:105-127 | success exactly when the listing had no error and every id is hashable; then the dict items and their distinct truthy ids; a listing error otherwise propagates |
| Backup.FalsyListIdIgnored | src/harvest_backup/backup/executor.py:122-124 | an empty-list id is falsy, so the item is kept and no id is added |
| Backup.ItemFilesKeep | src/harvest_backup/backup/executor.py:129-158 | item files touch only `<id>.json` paths of that endpoint and never the manifest |
| Backup.ItemFileHoldsItem | src/harvest_backup/backup/executor.py:129-158 | an item with a truthy id ends up in `<id>.json` unless a later item has the same name |
| Backup.NestedPath | src/harvest_backup/backup/executor.py:175 | `template.replace("{id}", str(id))`; `SubstituteId` states the result |
| Backup.NestedStep | src/harvest_backup/backup/executor.py:175-199 | one (template, id) pair; characterised by `NestedStepSpec` and `Nested422Skipped` |
| Backup.NestedSkipped | src/harvest_backup/backup/executor.py:170-171 | nothing is fetched or written without nested templates or without ids |
| Backup.NestedStepSpec | src/harvest_backup/backup/executor.py:175-199 | a failed or empty nested listing writes nothing; otherwise the items are stored as one array, and nothing else changes |
| Backup.Nested422Skipped | src/harvest_backup/backup/executor.py:192-199 | a 422 nested listing is recognised and skipped |
| Backup.SubstituteId | src/harvest_backup/backup/executor.py:175 | the id's `str()` is put in place of `{id}` |
| Backup.NestedNameFromTemplate | src/harvest_backup/backup/executor.py:185-189 | the nested file is `<id>_<last path segment>.json` |
| Backup.NestedNameHasUnderscore | src/harvest_backup/backup/executor.py:185-189 | nested file names hold an underscore, so they never collide with list.json |
| Backup.NestedForTemplatesKeeps | src/harvest_backup/backup/executor.py:160-199 | nested files touch only underscore names of that endpoint and never the manifest |
| Backup.NestedFileHoldsListing | src/harvest_backup/backup/executor.py:173-199 | a nested listing that succeeds with items ends up in its own file whatever the other pairs return (failures included), unless a pair visited after it maps to the same name |
| Backup.NestedForTemplatesHolds | src/harvest_backup/backup/executor.py:173-199 | the same over the templates loop, templates outermost and ids innermost |
| Backup.Fingerprint | src/harvest_backup/backup/executor.py:250-268 | the digest of the item without updated_at; `HashInputIff` and `FingerprintIgnoresUpdatedAt` state what it depends on |
| Backup.ClientLinkUrl | src/harvest_backup/backup/executor.py:270-281 | the public client link; `ClientLinkUrlInjective` |
| Backup.HashInputIff | src/harvest_backup/backup/executor.py:250-268 | two items hash alike exactly when they agree on every key but updated_at |
| Backup.FingerprintIgnoresUpdatedAt | src/harvest_backup/backup/executor.py:260-268 | adding or changing updated_at leaves the fingerprint as it was |
| Backup.ClientLinkUrlInjective | src/harvest_backup/backup/executor.py:270-281 | for one subdomain and endpoint, different client keys give different links |
| Backup.PdfStep | src/harvest_backup/backup/executor.py:291-340 | one item of `_backup_pdfs`; characterised by `PdfStepSpec` and `UnchangedItemNotDownloadedAgain` |
| Backup.PdfStepSpec | src/harvest_backup/backup/executor.py:283-340 | an item without an id, a client key or a subdomain, or with an unchanged hash, writes nothing; a successful download stores the PDF, records the fingerprint, and needs no download again |
| Backup.UnchangedItemNotDownloadedAgain | src/harvest_backup/backup/executor.py:250-340 | once a PDF is stored, a later version of the item that agrees on every key but updated_at (its value changed, added or dropped) needs no download, so no request is made and nothing changes |
| Backup.PdfFilesKeep | src/harvest_backup/backup/executor.py:283-340 | PDFs touch only artifact paths and the manifest |
| Backup.SingleResource | src/harvest_backup/backup/executor.py:87-103 | the single-resource step; characterised by `SingletonSpec` |
| Backup.EndpointEffect | src/harvest_backup/backup/executor.py:201-232 | what one endpoint does to the disk and what it raises; characterised by `SingletonSpec`, `ListingFailureOrEmpty`, `ListFileHoldsItems`, `ManifestOnlyForPdfEndpoints`, `EndpointKeeps` and `EndpointRaisesListingError` |
| Backup.SingletonSpec | src/harvest_backup/backup/executor.py:87-103 | singletons never raise; company stores the account's company data without a request; others store the answer, or nothing on error |
| Backup.ListingFailureOrEmpty | src/harvest_backup/backup/executor.py:201-219 | a listing error is raised with nothing written; an empty listing writes nothing |
| Backup.ListFileHoldsItems | src/harvest_backup/backup/executor.py:222-232 | after a non-empty listing, list.json holds the collected items |
| Backup.ManifestOnlyForPdfEndpoints | src/harvest_backup/backup/executor.py:228-232 | only invoices and estimates change the manifest |
| Backup.EndpointKeeps | src/harvest_backup/backup/executor.py:201-232 | an endpoint leaves every path that is not shaped like a JSON file, an artifact or the manifest as it was (accounts.json among them) |
| Backup.EndpointRaisesListingError | src/harvest_backup/backup/executor.py:201-232 | an endpoint raises exactly its listing's error |
| Backup.AccountEffect | src/harvest_backup/backup/executor.py:62-85 | what one account does; characterised by `AccountRaisesOnlyAuth`, `NoAuthErrorNoRaise` and `AccountKeeps` |
| Backup.AccountRaisesOnlyAuth | src/harvest_backup/backup/executor.py:62-85 | an account raises only an authentication error, and only one raised by some endpoint's listing |
| Backup.NoAuthErrorNoRaise | src/harvest_backup/backup/executor.py:74-83 | with no authentication failure, every endpoint is attempted and nothing is raised |
| Backup.AccountKeeps | src/harvest_backup/backup/executor.py:62-85 | an account leaves every path that is not shaped like a JSON file, an artifact or the manifest as it was (accounts.json among them) |
| Backup.Summaries | src/harvest_backup/backup/executor.py:51-53 | one summary per account, in order |
| Backup.AllKeeps | src/harvest_backup/backup/executor.py:56-58 | the accounts loop leaves every path that is not shaped like a JSON file, an artifact or the manifest as it was (accounts.json among them) |
| Backup.BackupAllEffect | src/harvest_backup/backup/executor.py:37-60 | what a whole run does; characterised by `BackupAllSpec`, `AllKeeps` and `AuthErrorStopsRun` |
| Backup.BackupAllSpec | src/harvest_backup/backup/executor.py:37-60 | a discovery error propagates with nothing written; no Harvest account raises with nothing written; otherwise accounts.json lists the Harvest accounts |
| Backup.AuthErrorStopsRun | src/harvest_backup/backup/executor.py:56-58 | an account that raises ends the run with its authentication error |
| Executor.BackupExecutor.Collect | src/harvest_backup/backup/executor.py:105-127 | the loop computes `Collected` of the drained listing |
| Executor.BackupExecutor.BackupSingleResource | src/harvest_backup/backup/executor.py:87-103 | the disk becomes `SingleResource` of the old one |
| Executor.BackupExecutor.BackupItem | src/harvest_backup/backup/executor.py:142-158 | the disk becomes `ItemStep` of the old one |
| Executor.BackupExecutor.BackupIndividualItems | src/harvest_backup/backup/executor.py:129-158 | the disk becomes `ItemFiles` of the old one |
| Executor.BackupExecutor.BackupNestedTemplate | src/harvest_backup/backup/executor.py:174-199 | the disk becomes `NestedForTemplate` of the old one |
| Executor.BackupExecutor.BackupNestedResources | src/harvest_backup/backup/executor.py:160-199 | the disk becomes `NestedFiles` of the old one |
| Executor.BackupExecutor.BackupPdf | src/harvest_backup/backup/executor.py:291-340 | the disk becomes `PdfStep` of the old one |
| Executor.BackupExecutor.BackupPdfs | src/harvest_backup/backup/executor.py:283-340 | the disk becomes `PdfFiles` of the old one |
| Executor.BackupExecutor.BackupEndpoint | src/harvest_backup/backup/executor.py:201-232 | the disk and the error raised are those of `EndpointEffect` |
| Executor.BackupExecutor.BackupAccount | src/harvest_backup/backup/executor.py:62-85 | the disk and the error raised are those of `AccountEffect` |
| Executor.BackupExecutor.BackupAll | src/harvest_backup/backup/executor.py:37-60 | the disk and the error raised are those of `BackupAllEffect` |
| Strings.NatToStringInjective | src/harvest_backup/backup/writer.py:106-109 | decimal renderings of naturals are injective, so account directories are distinct |
| Strings.ReplaceSingle | src/harvest_backup/backup/executor.py:175 | replacing the single occurrence of a pattern puts the replacement in its place |
| Json.CanonObjectIff | src/harvest_backup/backup/executor.py:260-268 | two objects serialise alike with sorted keys exactly when they agree on every key |

## Left out

- HTTP transport (httpx), timeouts and connection handling: every request's
  outcome is a parameter (`Attempt`, the page outcomes, the `Api` value).
- The clock, `asyncio.sleep` and the limiter's lock: clock readings are
  parameters, sleeps are returned as values, and the model is sequential.
- Floating point: times and delays are integer milliseconds. A `Retry-After`
  header is a whole number of milliseconds, missing, or invalid (`float()`
  fails).
- SHA-256, `json.dumps(sort_keys=True)` and JSON parsing: the digests are
  function parameters, and the serialisation is a canonical value with
  sorted keys (`Json.Canon`).
- `repr()` escapes inside strings: only the quoting of `str()` of a list or
  dict is modelled.
- Python dicts with duplicate keys cannot occur, so a lookup takes the first
  occurrence. `1 == True` and `1 == 1.0` (and hash equality across types) are
  not modelled. The iteration order of the id set is taken as first-seen
  order.
- Ids 1 and "1" have the same file name. An item whose id renders as "list"
  overwrites list.json, so `Backup.ListFileHoldsItems` requires that no item
  is named so (`Backup.NoItemNamedList`).
- `Backup.ItemFileName` and `Backup.NestedFileName` treat the file name as
  one path component. In the source, an id whose `str()` holds "/" names a
  file in a sub-directory (or outside the endpoint directory); the model
  does not capture that.
- `Client.GetPaginated` requires that some page ends the listing. A server
  whose every page announces a next page keeps the source's `while True`
  loop running forever; the model does not cover that run.
- The query parameters of each page request (`{**params, "page": n,
  "per_page": 2000}`) are not carried. The model records the page numbers
  requested, and the outcome of each page is a parameter.
- Filesystem mechanics (mkdir, encoding, indentation, a failing write or an
  unreadable manifest on save): the disk is a map from paths to contents. A
  failing manifest save is not modelled.
- Logging, including the log-level choice that is the only use of
  `_is_422_error` and `_format_page_info`.
- `get_binary`, `get_company` and the mechanics of `download_client_link`:
  a download is `Api.download`, an outcome per URL.
- `Api`: the answers are a pure function of the request, so the same request
  always gets the same answer. `Api.list` is a drained listing as
  `Client.GetPaginated` computes it. The number of pages asked for before a
  failing collection stops is not modelled.
- pydantic validation of the accounts response (`AccountsResponse`): the
  listing is given as parsed accounts or an error.
- `cli.py`, the async context manager of the client, and the tests.
- `Backup.PdfStep` uses the in-memory manifest for the skip check, as
  `should_download_binary` does.
