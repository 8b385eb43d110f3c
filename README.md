# SuperDPF sync engine, modelled in Dafny

SuperDPF drives a digital photo frame. It reads a list of photo accounts from its configuration,
and for each account pulls the photos of that account's cloud service into one local directory
per account. The services are Amazon S3 buckets, a Google Photos feed and the Unsplash random
image endpoint. This project models that engine and proves properties of it:

- `Settings`: settings values, the settings-item help text and the coercion step of
  `value_dialog`.
- `Accounts`: the three supported account classes and their `REQUIRED_SETTINGS` tables. Also the
  account key `settings_pk`, the directory name `subdir` and the class lookup `get_account_class`.
- `Reconcile`: the download loop the three `sync` methods share. It skips a file already
  present and downloads the rest. An `IOError` raised inside the loop body's `try` is logged and
  the loop goes on; any other exception, or one raised before the `try`, ends the account's sync.
  Also `verify_local`, and the photo directories as a mutable `PhotoStore` object.
- `Sources`: the S3, Google Photos and Unsplash `sync` methods. The remote services are an oracle
  (`World`). The Google Photos sync is modelled both as written and with its image request
  guarded; see "## Findings".
- `Configurator`: the account list of `DPFConfigurator` with `add_account` and `replace_account`.
- `SuperDpf`: the `SuperDPF.sync` loop over all accounts, which catches the exceptions of each
  account's sync.
- `Common`, `Strings`, `Decimal`: sequences, strings, `os.path.basename`, sorting of names and
  the decimal integer syntax Python's `int()` accepts.

Each `sync` method is a Dafny method that changes a `PhotoStore`. Each is proved equal to a
specification function (`S3Sync`, `GPhotoSync`, `UnsplashSync`, built on `Run` or its single
step `Step`), and the properties are proved about those functions. Examples: an item whose file
is present is a duplicate and any other item gets exactly one download attempt (`Step`,
`RunClassifies`), a file already present is never fetched again, and a second sync after a fully
successful one downloads nothing. `SuperDPF.Sync` is proved equal to `SyncAll`. The
lemmas about `SyncAll` hold for any per-account behaviour.

## Model

| member | source | states |
|---|---|---|
| Settings.Help | super_dpf.py:38-43 | the help text is the item's own text when that is non-empty, otherwise its title |
| Settings.Coerce | super_dpf.py:51-57 | only an integer item can be refused; an accepted integer item holds an integer; an item of any other type gives `None` |
| Settings.CoerceString | super_dpf.py:45-52 | a string setting returns what was typed; an empty answer keeps a truthy previous value and otherwise gives the empty string |
| Settings.CoerceIntRoundTrip | super_dpf.py:53-54 | an integer setting accepts the decimal form of every integer and yields exactly that integer |
| Settings.CoerceIntEmpty | super_dpf.py:46-54 | an integer setting keeps a non-zero previous value on an empty answer; with a falsy previous value an empty answer is a `ValueError` |
| Settings.CoerceIntNeedsDigit | super_dpf.py:53-54 | an integer setting rejects every non-empty answer that holds no digit |
| Decimal.ParseIntRoundTrip | super_dpf.py:54 | `int()` of the decimal form of any integer gives that integer back |
| Decimal.BlankAfterSign | super_dpf.py:54 | `int()` accepts blanks between the sign and the digits, so `int("- 5") == -5` |
| Strings.ContainsOffset | super_dpf.py:145 | `"dpf" in name` holds if and only if "dpf" occurs at some offset of the name |
| Accounts.SortedPrimaryNames | super_dpf.py:81-82 | the primary field names, strictly sorted (so without repeats), are exactly the set of names marked primary |
| Accounts.KeyOf | super_dpf.py:79-87 | the key is the class name followed by one value per distinct primary field in sorted order, each the setting's value or `None` when absent |
| Accounts.SettingsPk | super_dpf.py:79-87 | the key of an account class has one entry more than its key fields, the first being the class name |
| Accounts.SettingsPkShape | super_dpf.py:79-87 | the same shape for each account class's own `REQUIRED_SETTINGS` |
| Accounts.KeyDependsOnlyOnPrimary | super_dpf.py:66-87 | settings that agree on every primary field give the same key and the same directory |
| Accounts.Subdir | super_dpf.py:66-69 | the directory name starts with the class name |
| Accounts.KeyFieldsOfAccountTypes | super_dpf.py:122-127 | S3 is keyed by `bucket`, Google Photos by `user_id`, Unsplash by `category`, each by that one field alone (tables also at super_dpf.py:184-188 and 257-263) |
| Accounts.SubdirOfAccountType | super_dpf.py:66-69 | a supported account's directory is its class name, `_`, then `str` of its key field |
| Accounts.SubdirIdentity | super_dpf.py:66-69 | two accounts of one class share a directory if and only if `str` of their key fields agree |
| Accounts.SubdirSeparatesClasses | super_dpf.py:66-69 | accounts of two different supported classes never share a directory |
| Accounts.GetAccountClass | super_dpf.py:353-357 | a name resolves to the supported class of that name; a name no supported class has gives `None` |
| Accounts.ResolveClassName | super_dpf.py:330-334 | the name stored for a supported class resolves back to that class |
| Reconcile.Step | super_dpf.py:153-163 | after an uncaught exception an item changes nothing; otherwise it is appended to the cloud list. A name already present is recorded as one duplicate, with no attempt, no new file and no exception. Any other name gets exactly one download attempt and is no duplicate; its file is added exactly when the download succeeds, and the sync ends exactly when the download raises an exception other than `IOError`. The directory never loses a file |
| Reconcile.Run | super_dpf.py:151-163 | the loop over a listing, item by item; what it promises is stated by the `Run` lemmas below |
| Reconcile.RunAborted | super_dpf.py:158-161 | an exception other than `IOError` ends the loop; no later item is looked at |
| Reconcile.RunAppend | super_dpf.py:151-153 | the nested loops over buckets and objects are one loop over the concatenated listings |
| Reconcile.RunCloud | super_dpf.py:155 | a loop that ends without an uncaught exception has listed every item in `cloud_filelist`, in order |
| Reconcile.RunCounts | super_dpf.py:155-163 | the cloud list grows by exactly as many entries as the duplicates and the attempted downloads together |
| Reconcile.RunClassifies | super_dpf.py:151-163 | over a listing without repeated names that runs to its end, the duplicates are exactly the listed names present at the start and the attempted downloads exactly the listed names that were absent |
| Reconcile.RunFilesGrow | super_dpf.py:156-161 | the directory keeps its files and gains only names of listed items |
| Reconcile.RunVisitsAll | super_dpf.py:158-161 | an `IOError` does not stop the loop: with no other exception, every item is reached |
| Reconcile.RunNeverRefetches | super_dpf.py:156-163 | a file present when the sync starts is never downloaded again |
| Reconcile.RunAllPresent | super_dpf.py:156-163 | when every listed file exists, all items are duplicates and nothing changes on disk |
| Reconcile.RunFetchesAll | super_dpf.py:156-161 | when every download succeeds, every listed file is local at the end |
| Reconcile.Rerun | super_dpf.py:151-163 | idempotence: after a sync in which every file arrived, a second sync over the same listing downloads nothing and finds every item a duplicate |
| Reconcile.PhotoStore.IsFile | super_dpf.py:156 | `os.path.isfile` holds exactly for names in the directory |
| Reconcile.PhotoStore.Write | super_dpf.py:159 | a completed download adds exactly that name to that directory and changes nothing else |
| Reconcile.PhotoStore.Remove | super_dpf.py:93 | `os.remove` of a listed file takes exactly that name out of that directory and changes nothing else |
| Reconcile.PhotoStore.ListDir | super_dpf.py:171-172 | `os.listdir` returns every file of the directory exactly once |
| Reconcile.Pull | super_dpf.py:151-163 | the shared loop computes `Run` and leaves the directory holding `Run`'s files, other directories untouched |
| Reconcile.VerifyLocal | super_dpf.py:89-93 | the files of the local listing absent from the cloud list are deleted, nothing else; no file in the cloud list is removed |
| Reconcile.PruneListing | super_dpf.py:170-173 | pruning against a full directory listing keeps exactly the files in the cloud list |
| Sources.SelectBuckets | super_dpf.py:142-149 | the loop builds the listed "dpf" buckets, then the configured bucket unless already present |
| Sources.Buckets | super_dpf.py:142-149 | the buckets an S3 sync visits; what they are is stated by `BucketsSelection` |
| Sources.DpfBucketsMembers | super_dpf.py:144-146 | a listed bucket is kept if and only if its name contains "dpf" |
| Sources.BucketsSelection | super_dpf.py:142-149 | the configured bucket is always visited; a bucket is visited if and only if it is the configured one or a listed "dpf" bucket; distinct names give no bucket twice |
| Sources.RunBuckets | super_dpf.py:151-163 | the loop over the buckets and their objects: after an exception it does nothing, and the directory keeps every file it had; a listing that raises ends it, otherwise each bucket's objects go through `Run` (see `RunBucketsIsRun`, `RunBucketsFails`) |
| Sources.RunBucketsIsRun | super_dpf.py:151-163 | when every listing succeeds, the bucket loop is the shared loop over all objects in order |
| Sources.RunBucketsFails | super_dpf.py:153 | a bucket listing that raises ends the S3 sync |
| Sources.Finish | super_dpf.py:170-173 | the tail of a sync changes only the directory, never adds a file, and changes nothing without `verify_local` or after an exception |
| Sources.FinishSync | super_dpf.py:170-173 | the tail of the S3 and feed syncs computes `Finish` on the account directory and changes no other directory |
| Sources.S3Sync | super_dpf.py:133-180 | the S3 sync: non-string credentials, a failed bucket listing or a missing `bucket` setting end it; otherwise the selected buckets are pulled, then `verify_local`; see `AccountSyncFiles` and `AccountRerun` |
| Sources.FeedItems | super_dpf.py:217-221 | the feed yields at most one item per tag |
| Sources.FeedItemsSelects | super_dpf.py:217-221 | the feed yields one item per tag that carries a url; the item of such a tag sits at the number of url-carrying tags before it and is named by the basename of its url's path |
| Sources.FeedItemsPrefix | super_dpf.py:217-221 | reading one tag more appends that tag's item when it carries a url, and adds nothing when it does not |
| Sources.FeedNamesPlain | super_dpf.py:219-220 | every feed item's name is a basename: it holds no '/' |
| Sources.FeedItemsNoRaise | super_dpf.py:225-234 | with the image request guarded, no download raises out of the loop unless saving an image does |
| Sources.TagOutcomeAsWritten | super_dpf.py:225-234 | a tag's download as written: a failed image request raises out of the sync; otherwise what decoding and saving does |
| Sources.TagOutcome | super_dpf.py:225-234 | a tag's download with the request guarded: a failed image request is a logged `IOError` |
| Sources.FeedSync | super_dpf.py:214-246 | the body of `GPhotoResource.sync`, with the per-tag outcome as a parameter: a failed feed request ends it with the directory unchanged; otherwise `Run` over the feed items, then `Finish`, so new files come only from the feed and nothing is deleted without `verify_local` |
| Sources.GPhotoSyncAsWritten | super_dpf.py:208-253 | the Google Photos sync as written; `FailedRequestStopsFeed` shows a failed image request ending it |
| Sources.GPhotoSync | super_dpf.py:208-253 | the Google Photos sync with its image request guarded: a failed feed request ends it; otherwise the feed items are pulled, then `verify_local` |
| Sources.FeedSyncReachesAll | super_dpf.py:217-236 | with the image request guarded, unless saving an image raises, every url-carrying tag is listed and `verify_local` runs |
| Sources.FailedRequestStopsFeed | super_dpf.py:225-234 | a feed whose first image request fails: as written the sync stops and the second image is never fetched; guarded, the second image is fetched |
| Sources.UnsplashUrlEndpoint | super_dpf.py:274-280 | the category `none` selects the random endpoint and only it does; any other category uses the category endpoint |
| Sources.UnsplashUrl | super_dpf.py:274-280 | the request URL; which endpoint it selects is stated by `UnsplashUrlEndpoint` |
| Sources.UnsplashFile | super_dpf.py:283-285 | the file name ends in `.jpg` |
| Sources.UnsplashSync | super_dpf.py:269-304 | the Unsplash sync: a failed request ends it; otherwise one item, never pruned; see `UnsplashOneItem` |
| Sources.UnsplashOneItem | super_dpf.py:282-297 | an Unsplash sync handles one file: present means one duplicate and no download, absent means one download attempt |
| Sources.AccountSync | super_dpf.py:448-449 | `klass(config).sync(verify_local)` for each class, with the Google Photos image request guarded (see "## Findings"); a stub class raises; see `AccountSyncFiles` and `AccountRerun` |
| Sources.AccountSyncFiles | super_dpf.py:89-93 | a sync removes a file only when `verify_local` is set and the file is not in the cloud list |
| Sources.AccountRerun | super_dpf.py:133-304 | idempotence of a whole account sync: after a sync in which every file arrived, a second sync over the same answers downloads nothing |
| Sources.SyncS3 | super_dpf.py:133-180 | `AmazonS3Resource.sync` computes `S3Sync` and leaves the account directory holding its files |
| Sources.SyncGPhoto | super_dpf.py:208-253 | `GPhotoResource.sync`, with its image request guarded, computes `GPhotoSync` and leaves the account directory holding its files |
| Sources.SyncUnsplash | super_dpf.py:269-304 | `UnsplashResource.sync` computes `UnsplashSync` and leaves the account directory holding its files |
| Sources.SyncAccount | super_dpf.py:448-449 | `klass(config).sync(verify_local)`, with the Google Photos image request guarded (see "## Findings"), dispatches on the class and computes `AccountSync` |
| Configurator.Slot | super_dpf.py:379 | a list index is valid if and only if `-n <= index < n`; negative indices count from the end |
| Configurator.DPFConfigurator.AddAccount | super_dpf.py:369-373 | a supported class appends exactly one entry; any other class leaves the list unchanged; every name stays resolvable |
| Configurator.DPFConfigurator.ReplaceAccount | super_dpf.py:375-379 | a supported class overwrites the entry at the index; an out-of-range index is an `IndexError`; length and all other entries are kept |
| SuperDpf.DirsOfAccount | super_dpf.py:426-434 | every resolvable account's directory is among the account directories |
| SuperDpf.Visit1 | super_dpf.py:444-453 | one iteration keeps the set of photo directories |
| SuperDpf.SyncAll | super_dpf.py:441-453 | the whole loop keeps the set of photo directories; its other properties are the `SyncAll` lemmas below |
| SuperDpf.SyncAllCrashedStays | super_dpf.py:445-453 | once the loop has crashed, the remaining accounts change nothing |
| SuperDpf.SyncAllVisitsAll | super_dpf.py:443-453 | when every class name resolves, the loop never crashes and attempts every account, whatever the syncs raise |
| SuperDpf.SyncAllAttempt | super_dpf.py:443-449 | the `k`-th attempt is the `k`-th account, with that account's `settings_pk`, and its pass is that account's sync over its directory as the accounts before it left that directory |
| SuperDpf.SyncAllLast | super_dpf.py:443-449 | the last account is attempted last, after all the others |
| SuperDpf.SyncAllStopsAtUnresolved | super_dpf.py:445-453 | the first unresolvable class name ends the run, with exactly the accounts before it attempted |
| SuperDpf.SyncAllLeavesOthers | super_dpf.py:443-449 | a directory that belongs to no account is left exactly as it was |
| SuperDpf.SuperDPF.Sync | super_dpf.py:441-453 | the loop computes `SyncAll`: its attempts, its crash and the new photo directories; Google Photos accounts run with the image request guarded (see "## Findings") |

## Left out

- boto3, requests, BeautifulSoup and PIL are not modelled. What they answer is the `World` oracle: bucket names, object listings, the feed's media tags, the Unsplash response and each download's outcome (written, `IOError`, or any other exception).
- The environment variables set for the AWS credentials are not modelled. Only their effect is: a credential that is not a string raises `TypeError` and ends the S3 sync.
- `stylize_image` and the image re-encoding are not modelled: a successful download is a written file name.
- `hashlib.md5` is part of the `World` oracle. The Unsplash file name is its answer followed by `.jpg`.
- `_parse_feed_url` is not modelled: it is never called by `sync`.
- Loading and saving the YAML configuration, `DPFConfigurator.__init__` and `_create_photo_dirs` are not modelled. Their effects are two preconditions. `DirsReady`: every resolvable account's directory exists. `AllResolve` on the `DPFConfigurator` and `SuperDPF` constructors: start-up builds each account's `subdir` through `klass(settings)`, which raises `TypeError` when a class name does not resolve.
- SuperDpf.SuperDPF.Sync: it does not require every class name to resolve. It models the method taken alone, including the crash path for a list that changed after start-up. As written, `SuperDPF()` already fails at start-up for such a list, so `SyncAllStopsAtUnresolved` describes a run the program cannot reach through its constructor.
- The interactive dialogs (`settings_dialog`, `add_account_dialog`, `edit_account_dialog`, `configure`) are not modelled. Only the coercion inside `value_dialog` is, with the typed line as a parameter.
- `restart_sdpf` (`killall fim`), argument parsing, logging and `service_name` are not modelled.
- The stub controllers (Dropbox, Flickr, Instagram, HotMedia) appear only as `OtherClass`: their empty settings table gives the key `[name]`, and a sync of such a class aborts.
- Files are names inside the account's directory. A nested or absolute object key is not modelled, and neither is the full path `os.path.join` builds.
- Reconcile.Run: a failed download leaves no partial file behind.
- Sources.UnsplashSync: the pass lists the single file in its cloud list, although the source keeps no such list there; nothing reads it, since Unsplash never prunes.
- Configurator.DPFConfigurator.ReplaceAccount: entries are replaced by list index as the code does. Identity-based replacement is not what `replace_account` implements.
- Sources.SyncAccount: the account directory is passed in as `dir`. `SuperDPF.Sync` passes the account's `Subdir`.
- SuperDpf.SyncAll: after an unresolvable class name, the source's handler itself raises (`None.__name__`), so the whole run stops. The model records this as `crashed`.
- Sources.SyncGPhoto: it follows the corrected behaviour of "## Findings", where a failed image request is a logged `IOError`. `Sources.GPhotoSyncAsWritten` is the behaviour as written.
- Sources.AccountSync: for a Google Photos account it is `GPhotoSync`, the corrected behaviour of "## Findings", not `GPhotoSyncAsWritten`.
- Sources.SyncAccount: for a Google Photos account it runs `SyncGPhoto`, the corrected behaviour of "## Findings".
- SuperDpf.SuperDPF.Sync: through `SyncerOf` and `AccountSync`, its Google Photos accounts follow the corrected behaviour of "## Findings"; the lemmas about `SyncAll` hold for any per-account sync, the behaviour as written included.
- Sources.RunBuckets: `s3bucket.objects.iterator()` fetches its pages lazily, so a listing can raise after objects of earlier pages were already downloaded. The model's listing is all or nothing: `None` ends the sync before any object of that bucket. A listing that raises part-way gives the same directory as a listing that ends in an item whose outcome is `Raised`.
- Concurrency and the clock are not modelled: the oracle answers the same way whenever it is asked.

## Findings

| source | as written | input that shows it | evidently intended | confidence | as-written member | corrected member |
|---|---|---|---|---|---|---|
| super_dpf.py:225-234 | the image request `requests.get(tag['url'], stream=True)` runs before the `try`, so its exception (an `IOError` subclass) leaves `sync`: the remaining tags are skipped and `verify_local` never runs | a feed of two tags whose first image request fails: the sync ends after one attempt and the second image is not fetched | a failed image request is logged like a failed save and the loop goes on, as the S3 loop does for its download (super_dpf.py:158-161) | medium, not executed | Sources.GPhotoSyncAsWritten, Sources.FailedRequestStopsFeed | Sources.GPhotoSync, Sources.FeedSyncReachesAll |
