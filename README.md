# s3t core model

A Dafny model of `internal/s3tables`, the core of s3t. s3t is a command-line tool for Amazon S3 Tables. The model covers five parts:

- **Provisioner** (`creator.go`): `Create` makes sure a table bucket, a namespace in it and a table in that namespace exist. It works in that order and creates whichever is missing.
  - It stops at the first failing call.
  - It fills a `CreateResult` with the two ARNs, one message per level and a `*Created` flag per level.
  - The bucket is looked up by listing buckets with its name as prefix and scanning for the exact name. The namespace and the table are looked up with a direct get, where a NotFound error means "absent".
- **Navigator** (`navigator.go`): a three-level walk, table bucket → namespace → table, driven by a picker.
  - Each level caches its list and shows it in the picker.
  - Select goes one level down, Back one level up, and Exit ends the session.
  - An empty bucket list ends the session. An empty namespace or table list goes back one level.
  - Picking a new parent drops the caches below it.
- **Listing** (`lister.go`): `ListTableBucketsAll`, `ListNamespacesAll` and `ListTablesAll` follow continuation tokens and concatenate the pages in order.
  - On any page error they drop what was collected and return the error.
  - `GetTableBucketARN` takes the first bucket whose name matches exactly.
  - `GetTableDetails` maps one GetTable answer.
- **Error classification** (`errors.go`): `WrapError` turns any remote error into an `S3TablesError` carrying a kind, a message and a suggestion. Every known kind has a fixed suggestion and, except for a BadRequest carrying the service's own message, a fixed message. An Unknown error keeps the service's message (the error code when that message is empty), or a plain error's text, with no suggestion.
  - Typed exceptions are tried first, then service error codes by a fixed table, then credential keywords found by a hand-written ASCII case-insensitive substring search.
  - The `Is*` predicates and `GetErrorType` read the result.
- **Validation** (`validation.go`): the length and character-class rules for table bucket, namespace and table names, and `ValidateAll`, which reports the first failure.

How the model is built:

- **The remote service.** For the provisioner it is a `World` value (module `Remote`): its buckets, namespaces and tables, a script of which operations fail and with what error, and a log of every call made. For the lister it is a `Client`, a record of functions from a request to the answered page or error.
- **The picker** is a `ScriptedSelector` that answers prompts from a fixed sequence of replies.
- **Imperative Go code stays imperative:**
  - `CreateResult`, `NavigationState`, `NavigationController` and `ScriptedSelector` are classes whose methods update their fields.
  - The paging loop, the exact-name scans and the case-insensitive search are `while` loops.
- **Each method is proved equal to a pure function** of the old state (`BucketStep`, `Provision`, `BucketScreen`, `RunNav`, `Listed`, ...). The modules `CreatorProperties`, `ListerProperties` and `NavigatorProperties` prove what the program promises about those functions.
- **Go strings are byte strings.** A `string` here has one `char` per byte, so `|s|` is Go's `len(s)`. Every literal in the program is ASCII.

## Model

Paths are relative to the repository root. The table lists one row per member that states something about the source. Small helper lemmas (sequence associativity, `Resume*`, `LogAppends`) have no row.

| member | source | states |
|---|---|---|
| Errors.TablesError.Error | internal/s3tables/errors.go:40-45 | The text is "Error: <op>: <msg>", followed by " - <suggestion>" exactly when the suggestion is non-empty. |
| Errors.EqualFoldAt | internal/s3tables/errors.go:202-211 | Returns true exactly when `sub` matches `s` from `start` on, byte for byte under ASCII A–Z folding. |
| Errors.ContainsIgnoreCaseHelper | internal/s3tables/errors.go:193-200 | Returns true exactly when `sub` occurs at some offset of `s` under ASCII folding. |
| Errors.ContainsIgnoreCase | internal/s3tables/errors.go:188-191 | Returns true exactly when `sub` occurs in `s` under ASCII folding. It is always true for an empty `sub` and false when `sub` is longer than `s`. |
| Errors.Lower | internal/s3tables/errors.go:213-218 | The folded image of a string: the same length, with `toLower` applied to each byte. |
| Errors.ContainsFoldIsLoweredSubstring | internal/s3tables/errors.go:188-218 | The folded search succeeds exactly when the lower-cased `sub` is an exact substring of the lower-cased `s`. This checks the search against an independent definition. |
| Errors.CheckCredentialText | internal/s3tables/errors.go:170-185 | Returns true exactly when the text contains one of the five credential keywords, ignoring case. |
| Errors.CredentialTextReduces | internal/s3tables/errors.go:170-185 | A text counts as a credential error exactly when it contains "credential" or "SharedConfigProfileNotExist", ignoring case. The other three keywords each contain "credential", so they add nothing (`KeywordsContainCredential`). |
| Errors.HandleApiError | internal/s3tables/errors.go:117-167 | Keeps the operation and the original error. Maps each code to its kind by the fixed table, with both directions of every iff, and any other code to Unknown. Gives each kind its fixed texts: NotFound "resource not found" / "verify the resource name and try again", Conflict "resource already exists" / "use a different name or check existing resources", Forbidden "access denied" / "check your AWS credentials and permissions", InternalServer "AWS service error" / "please retry the operation", Credentials "invalid AWS credentials" / "check your AWS credentials configuration", BadRequest the suggestion "check your input parameters" with the service's message when it is non-empty and "invalid request" otherwise. Unknown uses the message, or else the code, with no suggestion. |
| Errors.Wrap | internal/s3tables/errors.go:57-113 | Keeps the operation and the original error. The kind is known exactly when there is a suggestion. A typed BadRequest gets "invalid request" / "check your input parameters". A plain error is Credentials exactly when its text mentions a credential keyword, and then gets "AWS credentials not configured" / "configure AWS credentials using 'aws configure' or environment variables". Any other plain error is Unknown, with the error's text as message and no suggestion. |
| Errors.WrapError | internal/s3tables/errors.go:52-60 | nil stays nil. Any other error becomes an S3TablesError with the operation and the original error. |
| Errors.WrapPreservesNotFound | internal/s3tables/errors.go:221-236 | Wrapping does not change whether an error is a not-found error. |
| Errors.WrapPreservesPlainCredential | internal/s3tables/errors.go:249-255 | A plain error is a credential error before wrapping exactly when it is one after. |
| Errors.TypedAndCodedAgree | internal/s3tables/errors.go:69-164 | A typed exception and an API error carrying the same code get the same kind and suggestion. Their messages differ exactly for a BadRequest whose service message is neither empty nor "invalid request". |
| Errors.WrapKeepsConflict | internal/s3tables/errors.go:239-246 | A raw conflict error is still a conflict error once wrapped. |
| Errors.CodedConflictRecognisedOnlyWrapped | internal/s3tables/errors.go:239-246 | An API error coded "ConflictException" is a conflict error once wrapped but not before, because the raw check only looks at the type. |
| Errors.FixedTextsPerKind | internal/s3tables/errors.go:69-164 | Every NotFound, Conflict, Forbidden and InternalServer error carries that kind's fixed message and suggestion, whatever the input. |
| Errors.WrappedErrorTextShape | internal/s3tables/errors.go:40-45 | A wrapped error's text ends with a " - suggestion" tail exactly when its kind is known. |
| Errors.ToLower | internal/s3tables/errors.go:213-218 | Adds 32 to the bytes 'A' to 'Z' and leaves every other byte alone, so the result is never an upper-case letter. |
| Errors.IsNotFoundError | internal/s3tables/errors.go:221-236 | A wrapped error decides by its kind (NotFound). A raw error decides by its variant: a typed NotFoundException, or an API error whose code is "NotFoundException". |
| Errors.IsConflictError | internal/s3tables/errors.go:239-246 | A wrapped error decides by its kind (Conflict). A raw error counts only as a typed ConflictException, never as a generic API error, whatever its code. |
| Errors.IsCredentialError | internal/s3tables/errors.go:249-255 | A wrapped error decides by its kind (Credentials). A raw error decides by its text: it counts exactly when the text contains "credential" or "SharedConfigProfileNotExist", ignoring case. |
| Errors.GetErrorType | internal/s3tables/errors.go:258-264 | A raw error is Unknown. The type is NotFound, Conflict or Credentials exactly when the error is wrapped and the matching `Is*` predicate holds. |
| Errors.ErrorTypeOfWrapped | internal/s3tables/errors.go:258-264 | `GetErrorType` returns a wrapped error's kind, and Unknown for any other error. |
| Validation.ValidationError.Error | internal/s3tables/validation.go:23-25 | The text is "invalid ", then the field, then ": ", then the message. |
| Validation.ValidateTableBucket | internal/s3tables/validation.go:30-50 | Accepts a name exactly when it is 3–63 bytes long and every byte is in [0-9a-z-]. Reports too short first, then too long, then bad characters, always with field "table-bucket". |
| Validation.ValidateNamespace | internal/s3tables/validation.go:55-75 | Accepts a name exactly when it is 1–255 bytes long and every byte is in [0-9a-z_]. Reports in the same order, with field "namespace". |
| Validation.ValidateTable | internal/s3tables/validation.go:80-100 | The same rules as for a namespace, with field "table". |
| Validation.ValidateAll | internal/s3tables/validation.go:103-114 | nil exactly when all three names pass. Otherwise the first failure, in the order bucket, namespace, table. |
| Validation.NamespaceAndTableRulesAgree | internal/s3tables/validation.go:55-100 | The namespace and table rules accept the same names. Their errors differ only in the field. |
| Validation.HyphenFreeBucketNameIsValidName | internal/s3tables/validation.go:8-15 | A valid bucket name without a hyphen is also a valid namespace and table name. |
| Lister.FirstPart | internal/s3tables/lister.go:99-102 | A namespace path is named by its first element, or "" when the path is empty. |
| Lister.PrefixParam | internal/s3tables/lister.go:53-55 | The prefix is sent exactly when it is non-empty, and then as given. |
| Lister.DrainStable | internal/s3tables/lister.go:50-76 | Once a listing has ended, allowing more calls changes nothing. |
| Lister.Drained | internal/s3tables/lister.go:50-76 | A listing that ends has one outcome: the outcome reached with any sufficient number of calls. |
| Lister.CollectPages | internal/s3tables/lister.go:45-77 | The shared paging loop returns exactly `Listed`: every item converted, in order, or the first error wrapped. The tokens it sends are the drain's tokens. |
| Lister.ListTableBucketsAll | internal/s3tables/lister.go:45-77 | Returns the converted buckets of every page, or the wrapped first error. |
| Lister.ListNamespacesAll | internal/s3tables/lister.go:80-116 | Returns the converted namespaces of every page, or the wrapped first error. |
| Lister.ListTablesAll | internal/s3tables/lister.go:119-159 | Returns the converted tables of every page, or the wrapped first error. |
| Lister.FirstNamed | internal/s3tables/lister.go:189-195 | Finds the index of the first bucket with the name, or reports that no bucket has it. |
| Lister.GetTableBucketArn | internal/s3tables/lister.go:184-202 | Returns the ARN of the first listed bucket whose name matches exactly. Otherwise returns a NotFound S3TablesError raised by the program itself. A list error is passed on. |
| Lister.GetTableDetails | internal/s3tables/lister.go:162-181 | Fails exactly when GetTable fails, with that error wrapped. Otherwise copies the name and ARN, and takes the namespace as requested rather than read back. |
| ListerProperties.DrainFollowsTokens | internal/s3tables/lister.go:50-76 | The first call carries no token. Each later call carries the previous page's token, and that page was not a last page. A finished drain holds the pages' items in order and ended on a last page. A failed drain ended on that error. |
| ListerProperties.TokenFor | internal/s3tables/lister.go:70-73 | Part of the paged test service, not of the lister: the token for an offset is a string of that length. It is therefore empty only for offset 0, the first page, so a split listing never looks finished early to the lister's empty-token last-page test (lister.go:70-73). |
| ListerProperties.SplitDrainsFrom | internal/s3tables/lister.go:50-76 | A listing served in pages of any positive size, drained from any offset, gives the rest of the listing. |
| ListerProperties.PaginationComplete | internal/s3tables/lister.go:45-77 | For any item count and page size, the listing ends and returns every item in order. |
| ListerProperties.ErrorDropsItems | internal/s3tables/lister.go:57-60 | A page error returns only the wrapped error, with no items. The last call made is the failing one. |
| ListerProperties.FirstRequest | internal/s3tables/lister.go:47-56 | The first request has no token. An empty prefix is not sent. |
| Remote.Matching | internal/s3tables/creator.go:63-65 | Listing by prefix returns only buckets of the world, and no more of them. |
| Creator.IsNotFound | internal/s3tables/creator.go:48-59 | True exactly for a NotFoundException, or an API error whose code is "NotFoundException". |
| Creator.BucketCheck | internal/s3tables/creator.go:63-79 | Makes one ListTableBuckets call, with the name as prefix. An error means "not found" with an empty ARN. Not found always means an empty ARN. |
| Creator.CheckTableBucketExists | internal/s3tables/creator.go:63-79 | The scan loop returns exactly `BucketCheck`. |
| Creator.NamespaceCheck | internal/s3tables/creator.go:82-94 | Makes one GetNamespace call. Without a failure, "found" means the namespace exists. A NotFound failure means absent and is no error. Any other failure is returned wrapped as "GetNamespace". |
| Creator.TableCheck | internal/s3tables/creator.go:97-110 | Makes one GetTable call. Without a failure, "found" means the table exists, and then it comes with its ARN. A NotFound failure means absent. Any other failure is returned wrapped as "GetTable". |
| Creator.CreateResult.constructor | internal/s3tables/creator.go:28-35 | A new result is empty, with no flags set. |
| Creator.EnsureTableBucket | internal/s3tables/creator.go:141-165 | Updates the result and the world exactly as `BucketStep` does. |
| Creator.EnsureNamespace | internal/s3tables/creator.go:168-191 | Updates the result and the world exactly as `NamespaceStep` does. |
| Creator.EnsureTable | internal/s3tables/creator.go:194-221 | Updates the result and the world exactly as `TableStep` does. |
| Creator.Create | internal/s3tables/creator.go:114-138 | Returns a fresh result equal to `Provision`'s, or only `Provision`'s error, and `Provision`'s world. |
| CreatorProperties.MatchingKeepsFirstNamed | internal/s3tables/creator.go:63-76 | Listing by prefix keeps every bucket of the exact name, in order. The first one found is the world's first one. |
| CreatorProperties.SummariesReadBack | internal/s3tables/lister.go:13-17 | Reading a bucket's summary back gives the bucket. |
| CreatorProperties.BucketCheckFindsExactName | internal/s3tables/creator.go:63-79 | A list error is returned wrapped. Otherwise the bucket is found exactly when some bucket has the exact name, and the ARN is that bucket's. |
| CreatorProperties.PrefixOnlyMatchIsAbsent | internal/s3tables/creator.go:70-78 | A bucket called "demo-2" does not make "demo" exist. |
| CreatorProperties.BucketStepWithoutFailure | internal/s3tables/creator.go:141-165 | Without failures, the bucket step finds the bucket or creates it. It returns the ARN used, sets the flag exactly when the bucket was absent, and appends one message. |
| CreatorProperties.NamespaceStepWithoutFailure | internal/s3tables/creator.go:168-191 | Without failures, the namespace step finds the namespace or creates it, setting the flag exactly when it was absent. |
| CreatorProperties.TableStepWithoutFailure | internal/s3tables/creator.go:194-221 | Without failures, the table step finds the table or creates it, setting the flag and the ARN. |
| CreatorProperties.BucketThereAfterStep | internal/s3tables/creator.go:120-132 | After the bucket step, the bucket whose ARN the later steps use exists. |
| CreatorProperties.FlagsWithoutFailures | internal/s3tables/creator.go:141-221 | For all eight combinations of what exists, each `*Created` flag is set exactly when that level was absent. |
| CreatorProperties.ArnsWithoutFailures | internal/s3tables/creator.go:114-221 | The reported bucket ARN is the existing bucket's ARN or the new one. The table ARN is the existing table's ARN or the new one. |
| CreatorProperties.MessagesWithoutFailures | internal/s3tables/creator.go:141-221 | Exactly three messages, in the order bucket, namespace, table, each saying "already exists" or "created". |
| CreatorProperties.ResultWithoutFailures | internal/s3tables/creator.go:114-138 | A run in which no call fails succeeds with the expected result. |
| CreatorProperties.LogWithoutFailures | internal/s3tables/creator.go:114-138 | A run in which no call fails makes each level's check, then that level's create only if the check found it absent, in the order bucket, namespace, table. |
| CreatorProperties.WorldWithoutFailures | internal/s3tables/creator.go:114-138 | After a run in which no call fails, the world holds the three resources, and nothing else has changed. |
| CreatorProperties.RunWithoutFailures | internal/s3tables/creator.go:114-138 | The result, the call log and the world of a run in which no call fails, together. |
| CreatorProperties.AllPresentCreatesNothing | internal/s3tables/creator.go:141-221 | When all three exist, the run makes only the three checks and sets no flag. |
| CreatorProperties.RunLeavesAllThere | internal/s3tables/creator.go:114-138 | After a run without failures, all three exist under the ARNs that run reported. |
| CreatorProperties.AllThereInFinalWorld | internal/s3tables/creator.go:114-138 | A world grown the way such a run grows it holds all three under that run's ARNs. |
| CreatorProperties.SecondRunCreatesNothing | internal/s3tables/creator.go:114-138 | Idempotence: a second run makes no create call, sets no flag, reports the same ARNs and says "already exists" three times. |
| CreatorProperties.ExpectedWhenAllThere | internal/s3tables/creator.go:141-221 | When all three exist, the expected result has no flag set and the expected calls are the three checks. |
| CreatorProperties.BucketStepFailing | internal/s3tables/creator.go:141-165 | For an absent bucket, a failing list or create call is returned wrapped with its operation, and nothing is recorded. |
| CreatorProperties.NamespaceStepFailing | internal/s3tables/creator.go:168-191 | For an absent namespace, a failing get (not NotFound) or a failing create is returned wrapped with its operation. |
| CreatorProperties.TableStepFailing | internal/s3tables/creator.go:194-221 | For an absent table, a failing get (not NotFound) or a failing create is returned wrapped with its operation. |
| CreatorProperties.FailsAtBucket | internal/s3tables/creator.go:115-119 | A failure in the bucket step returns only its error. The log ends at the failing call. |
| CreatorProperties.FailsAtNamespace | internal/s3tables/creator.go:121-125 | A failure in the namespace step returns only its error. The log ends at the failing call. |
| CreatorProperties.FailsAtTable | internal/s3tables/creator.go:127-131 | A failure in the table step returns only its error. The log ends at the failing call. |
| Navigator.Cached | internal/s3tables/lister.go:46-76 | A listing of zero items leaves the cache nil. Any other listing is cached as listed. |
| Navigator.Remaining | internal/s3tables/navigator.go:171 | Each answered prompt uses up one scripted reply. |
| Navigator.ScriptedSelector.constructor | internal/s3tables/navigator.go:66-70 | A new picker holds the replies and has shown no prompt. |
| Navigator.ScriptedSelector.SelectWithFilter | internal/s3tables/navigator.go:171 | Records the prompt and answers the next reply, or Exit when the replies are used up. |
| Navigator.Names | internal/s3tables/navigator.go:164-168 | The names shown are the list's names, in list order. |
| Navigator.BucketScreen | internal/s3tables/navigator.go:149-194 | Shows at most one prompt, "Select Table Bucket", without Back. It never gains replies. A Select uses up a reply. |
| Navigator.NamespaceScreen | internal/s3tables/navigator.go:197-237 | Shows at most one prompt, "Select Namespace", with Back. A Select uses up a reply. |
| Navigator.TableScreen | internal/s3tables/navigator.go:240-283 | Shows at most one prompt, "Select Table", with Back. |
| Navigator.NavigationState.constructor | internal/s3tables/navigator.go:55-63 | A new state is at the bucket level, with no cache and no selection. |
| Navigator.NavigationController.constructor | internal/s3tables/navigator.go:73-79 | A new controller has a fresh, empty state and has fetched nothing. |
| Navigator.NavigationController.SetInitialState | internal/s3tables/navigator.go:87-91 | Writes only the three selection fields. |
| Navigator.NavigationController.NavigateTableBuckets | internal/s3tables/navigator.go:149-194 | Changes the state, the picker and the fetch record exactly as `BucketScreen` does, and returns its action and error. |
| Navigator.NavigationController.ChooseBucket | internal/s3tables/navigator.go:181-191 | Selects the first bucket of the name, if there is one, and clears the namespace and table caches. |
| Navigator.NavigationController.NavigateNamespaces | internal/s3tables/navigator.go:197-237 | Acts exactly as `NamespaceScreen` does. |
| Navigator.NavigationController.NavigateTables | internal/s3tables/navigator.go:240-283 | Acts exactly as `TableScreen` does. |
| Navigator.NavigationController.Navigate | internal/s3tables/navigator.go:94-146 | Sets the start level, then ends exactly as `RunNav` from that level: with the same error and the same final state, prompts and fetches. |
| NavigatorProperties.NavigationFollowsTable | internal/s3tables/navigator.go:101-143 | Each step follows the transition table, and an error ends the session. Bucket: Select goes down, and Back or Exit ends. Namespace: Back goes up, Select goes down, and Exit ends. Table: Back goes up, and Select or Exit ends. |
| NavigatorProperties.BucketsFetchedOnlyWhenUncached | internal/s3tables/navigator.go:151-157 | Buckets are fetched exactly once when the cache is nil, and never otherwise. |
| NavigatorProperties.NamespacesFetchedOnlyWhenUncached | internal/s3tables/navigator.go:199-205 | Namespaces are fetched, for the selected bucket's ARN, exactly when their cache is nil. |
| NavigatorProperties.TablesFetchedOnlyWhenUncached | internal/s3tables/navigator.go:242-248 | Tables are fetched, for the selected bucket and namespace, exactly when their cache is nil. |
| NavigatorProperties.CachedListIsShown | internal/s3tables/navigator.go:149-283 | A cached non-empty list is shown as cached, whatever the service would answer now. |
| NavigatorProperties.BucketScreenKeepsCachesNonEmpty | internal/s3tables/navigator.go:151-162 | The bucket screen never caches an empty list. |
| NavigatorProperties.NamespaceScreenKeepsCachesNonEmpty | internal/s3tables/navigator.go:199-210 | The namespace screen never caches an empty list. |
| NavigatorProperties.TableScreenKeepsCachesNonEmpty | internal/s3tables/navigator.go:242-253 | The table screen never caches an empty list. |
| NavigatorProperties.ScreensKeepCachesNonEmpty | internal/s3tables/navigator.go:149-283 | No screen caches an empty list. |
| NavigatorProperties.RunKeepsCachesNonEmpty | internal/s3tables/navigator.go:94-146 | Throughout a session, no cache ever holds an empty list. |
| NavigatorProperties.PickingBucketDropsLowerCaches | internal/s3tables/navigator.go:181-191 | Selecting a bucket clears the namespace and table caches and keeps the bucket cache. |
| NavigatorProperties.PickingNamespaceDropsTableCache | internal/s3tables/navigator.go:231-234 | Selecting a namespace stores its name and clears only the table cache. The bucket selection and the bucket cache stay. |
| NavigatorProperties.PickedBucketIsFirstOfItsName | internal/s3tables/navigator.go:181-187 | The bucket stored is the first listed bucket with the picked name, with that bucket's ARN. |
| NavigatorProperties.NoBucketsEndsSession | internal/s3tables/navigator.go:159-162 | An empty bucket list ends the session at once, with no error and no prompt. |
| NavigatorProperties.NoNamespacesGoesBack | internal/s3tables/navigator.go:207-210 | A bucket without namespaces goes back to the bucket level, with no prompt. |
| NavigatorProperties.NoTablesGoesBack | internal/s3tables/navigator.go:250-253 | A namespace without tables goes back to the namespace level, with no prompt. |
| NavigatorProperties.ListingFailureEndsSession | internal/s3tables/navigator.go:103-155 | A failed bucket listing ends the session with the lister's error. |
| NavigatorProperties.PickerFailureEndsSession | internal/s3tables/navigator.go:171-265 | A picker failure ends the session with that failure, at any level. |
| NavigatorProperties.ExhaustedScriptEndsSession | internal/s3tables/navigator.go:101-143 | Once the replies are used up, the next prompt ends the session with no error. |
| NavigatorProperties.OnePromptMore | internal/s3tables/navigator.go:171-262 | A prompt log that grows by one prompt obeying the Back rule still obeys it. |
| NavigatorProperties.ScreensOfferBackBelowBuckets | internal/s3tables/navigator.go:171-262 | Every screen keeps the rule that Back is offered exactly on prompts other than the bucket prompt. |
| NavigatorProperties.SessionOffersBackBelowBuckets | internal/s3tables/navigator.go:94-146 | Throughout a session, Back is offered exactly at the namespace and table levels. |
| NavigatorProperties.SameScreenSameRun | internal/s3tables/navigator.go:96-145 | The rest of a session depends only on what its current screen does. |
| NavigatorProperties.FetchedBucketsAsCached | internal/s3tables/navigator.go:151-157 | Fetching a non-empty bucket list acts as if that list had been cached. |
| NavigatorProperties.CachedBucketSelect | internal/s3tables/navigator.go:164-193 | Picking a bucket from a cached list moves to the namespace level with that bucket selected and the lower caches cleared. |
| NavigatorProperties.FetchedBucketSelect | internal/s3tables/navigator.go:151-193 | The same, after fetching the list, which is recorded once. |
| NavigatorProperties.CachedNamespaceStep | internal/s3tables/navigator.go:212-236 | Picking from a cached namespace list: Back returns to the buckets, and Select moves to the tables with the table cache cleared. |
| NavigatorProperties.FetchedNamespaceStep | internal/s3tables/navigator.go:199-205 | A namespace screen that fetches first acts like one with the list cached. |
| NavigatorProperties.FetchedTablesBack | internal/s3tables/navigator.go:242-283 | Going back from a freshly fetched table list keeps that list cached. |
| NavigatorProperties.CachedBucketsExit | internal/s3tables/navigator.go:164-179 | A cached bucket list with no replies left shows the prompt once, then ends. |
| NavigatorProperties.DownToTables | internal/s3tables/navigator.go:94-237 | Two Selects lead from the buckets to the tables, each list fetched once. |
| NavigatorProperties.GoingDown | internal/s3tables/navigator.go:94-283 | Down to the tables and Back: three fetches and three prompts. |
| NavigatorProperties.GoingBack | internal/s3tables/navigator.go:94-237 | Back from the namespaces to the buckets shows the cached lists with no fetch. |
| NavigatorProperties.DownAndBackReusesLists | internal/s3tables/navigator.go:149-248 | For Bucket → Namespace → Table followed by Back, Back: exactly three fetches. The second visit shows the very lists of the first. The selection stays. |

## Left out

- Printing is not modelled. That covers `displayTableDetails`, the "No … found" lines, the `String()` methods of the level and action enums, and the result output of the commands.
- Timestamps and the table `Type` are opaque values that are only copied. Time formatting is left out.
- `selector.go` (the promptui widget) is replaced by `ScriptedSelector`. Its replies are the picker's answers, and it answers Exit once they run out, as the widget does on Ctrl+C.
- The `cmd/` package (SDK configuration, cobra wiring, printing, choosing the start level from the arguments) is not part of this model. `Navigate` takes the start level as a parameter.
- The AWS client has no transport, `context.Context`, retries or timeouts. The lister's client is a record of functions. The provisioner's client is the `World` value, which answers one page for ListTableBuckets and assigns ARNs in a fixed format of its own.
- Go's `errors.As` walks an unwrap chain. The model has one flat `RemoteError` variant per case, and the texts of SDK errors are carried as data.
- `Level` has exactly three values. Go's `NavigationLevel` is an `int`, and on an out-of-range value Go's `Navigate` loops without end, because its switch has no default case. That case cannot arise here.
- Lister.ListTableBucketsAll: the termination of paging is assumed, not proved. It is required of the service as `Drains` (the service stops handing out tokens after finitely many pages); Go's loop has no bound.
- Lister.ListNamespacesAll: requires `Drains` of its listing, as above.
- Lister.ListTablesAll: requires `Drains` of its listing, as above.
- Lister.GetTableBucketArn: requires `Drains` of the bucket listing by its name, as above.
- Lister.CollectPages: requires `Drains` of the listing it drains, as above.
- Navigator.NavigationController.Navigate: requires `Serves`, that is, that every listing the navigator asks for ends.
- Creator.CheckTableBucketExists: reads only the first page of ListTableBuckets, as the source does. The model's service always answers with a single page.
- CreatorProperties.FailsAtBucket: the short-circuit is stated for a world in which none of the three resources exists yet, one lemma per failing step, rather than for every world.
- CreatorProperties.FailsAtNamespace: stated only for a world in which none of the three resources exists yet, as above.
- CreatorProperties.FailsAtTable: stated only for a world in which none of the three resources exists yet, as above.
- A cache that is `None` stands for a nil slice. The model does not tell a nil slice apart from an empty non-nil slice, because the lister never returns the latter.
- `GetState` (navigator.go:82) only returns the state pointer. It is covered by `NavigationController.state`.
