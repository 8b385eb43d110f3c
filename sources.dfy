/** The three account classes' `sync` methods: `AmazonS3Resource`, `GPhotoResource` and
    `UnsplashResource`. What S3, the feed server and Unsplash answer is given as a `World`;
    each `sync` writes only into the account's own photo directory. */
module Sources {
  import opened Common
  import opened Strings
  import opened Settings
  import opened Accounts
  import opened Reconcile

  /** `UNSPLASH['base']`, `UNSPLASH['random']`, `UNSPLASH['category']` and `IMAGE_EXTENSION`. */
  const UnsplashBase: string := "https://source.unsplash.com"
  const UnsplashRandom: string := "random"
  const UnsplashCategory: string := "category"
  const ImageExtension: string := "jpg"

  /** A `media:content` tag of a feed: its `url` attribute, the path component `urlsplit` gives
      for that url, whether the HTTP request for its image completes, and what decoding and
      saving the image does. */
  datatype MediaTag = MediaTag(url: Option<string>, path: string, requested: bool, image: Outcome)

  /** The answer to the Unsplash request: the path of the final request after redirects, and
      what decoding and saving the image does. */
  datatype Response = Response(pathUrl: string, fetch: Outcome)

  /** What the outside world answers during one run; `None` means the call raises.
      `buckets`: the bucket names `s3.buckets.all()` lists under a key pair;
      `objects`: the objects of a bucket, each with the outcome of downloading it;
      `feed`: the tags of the feed fetched from a `feed_url` setting;
      `unsplash`: the response to a URL; `md5`: the hex digest of a string. */
  datatype World = World(buckets: (string, string) -> Option<seq<string>>,
                         objects: Value -> Option<seq<RemoteItem>>,
                         feed: Value -> Option<seq<MediaTag>>,
                         unsplash: string -> Option<Response>,
                         md5: string -> string)

  // ----- S3 bucket selection -----

  /** The listed bucket names that contain "dpf", in listing order. */
  function DpfBuckets(names: seq<string>): seq<Value>
    decreases |names|
  {
    if names == [] then []
    else
      var last := names[|names| - 1];
      DpfBuckets(names[..|names| - 1]) + (if Contains(last, "dpf") then [Str(last)] else [])
  }

  /** The buckets an S3 sync visits: the "dpf" buckets, then the configured one unless it is
      already among them. */
  function Buckets(names: seq<string>, configured: Value): seq<Value>
  {
    var kept := DpfBuckets(names);
    if configured in kept then kept else kept + [configured]
  }

  /** The bucket selection loop of `AmazonS3Resource.sync`. */
  method SelectBuckets(names: seq<string>, configured: Value) returns (buckets: seq<Value>)
    ensures buckets == Buckets(names, configured)
  {
    buckets := [];
    for k := 0 to |names|
      invariant buckets == DpfBuckets(names[..k])
    {
      assert names[..k + 1][..k] == names[..k];
      if Contains(names[k], "dpf") {
        buckets := buckets + [Str(names[k])];
      }
    }
    assert names[..|names|] == names;
    if configured !in buckets {
      buckets := buckets + [configured];
    }
  }

  /** A listed name is kept exactly when it contains "dpf". */
  lemma {:induction false} DpfBucketsMembers(names: seq<string>, v: Value)
    ensures v in DpfBuckets(names) <==> v.Str? && v.s in names && Contains(v.s, "dpf")
    decreases |names|
  {
    if names != [] {
      var init := names[..|names| - 1];
      DpfBucketsMembers(init, v);
      assert names == init + [names[|names| - 1]];
    }
  }

  /** Distinct listed names give distinct kept buckets. */
  lemma {:induction false} DpfBucketsDistinct(names: seq<string>)
    requires Distinct(names)
    ensures Distinct(DpfBuckets(names))
    decreases |names|
  {
    if names != [] {
      var init := names[..|names| - 1];
      var last := names[|names| - 1];
      assert Distinct(init);
      DpfBucketsDistinct(init);
      DpfBucketsMembers(init, Str(last));
      assert last !in init by {
        forall k | 0 <= k < |init| ensures init[k] != last { assert init[k] == names[k]; }
      }
    }
  }

  /** The configured bucket is always visited, the others visited are exactly the listed "dpf"
      buckets, and with distinct listed names no bucket is visited twice. */
  lemma BucketsSelection(names: seq<string>, configured: Value)
    ensures configured in Buckets(names, configured)
    ensures forall v :: v in Buckets(names, configured) <==>
      v == configured || (v.Str? && v.s in names && Contains(v.s, "dpf"))
    ensures Distinct(names) ==> Distinct(Buckets(names, configured))
  {
    forall v ensures v in Buckets(names, configured) <==>
      v == configured || (v.Str? && v.s in names && Contains(v.s, "dpf"))
    {
      DpfBucketsMembers(names, v);
    }
    if Distinct(names) {
      DpfBucketsDistinct(names);
    }
  }

  // ----- the per-bucket loops -----

  /** The outer loop over buckets: list each bucket's objects (which may raise) and run the
      reconcile loop over them. */
  function RunBuckets(p: Pass, w: World, buckets: seq<Value>): (r: Pass)
    ensures p.aborted ==> r == p
    ensures p.files <= r.files
    decreases |buckets|
  {
    if buckets == [] || p.aborted then p
    else match w.objects(buckets[0])
      case None => p.(aborted := true)
      case Some(items) =>
        RunFilesGrow(p, items);
        RunBuckets(Run(p, items), w, buckets[1..])
  }

  /** All objects of all buckets in visiting order, or `None` when some listing raises. */
  function Listing(w: World, buckets: seq<Value>): Option<seq<RemoteItem>>
    decreases |buckets|
  {
    if buckets == [] then Some([])
    else match (w.objects(buckets[0]), Listing(w, buckets[1..]))
      case (Some(items), Some(rest)) => Some(items + rest)
      case _ => None
  }

  /** When every listing succeeds, the nested loops are one reconcile loop over all objects. */
  lemma {:induction false} RunBucketsIsRun(p: Pass, w: World, buckets: seq<Value>)
    requires Listing(w, buckets).Some?
    ensures RunBuckets(p, w, buckets) == Run(p, Listing(w, buckets).value)
    decreases |buckets|
  {
    if buckets != [] {
      if p.aborted {
        RunAborted(p, Listing(w, buckets).value);
      } else {
        var items := w.objects(buckets[0]).value;
        RunBucketsIsRun(Run(p, items), w, buckets[1..]);
        RunAppend(p, items, Listing(w, buckets[1..]).value);
      }
    }
  }

  /** A listing that raises ends the sync. */
  lemma {:induction false} RunBucketsFails(p: Pass, w: World, buckets: seq<Value>)
    requires Listing(w, buckets).None?
    ensures RunBuckets(p, w, buckets).aborted
    decreases |buckets|
  {
    if !p.aborted && w.objects(buckets[0]).Some? {
      RunBucketsFails(Run(p, w.objects(buckets[0]).value), w, buckets[1..]);
    }
  }

  /** The end of the S3 and feed syncs: with `verify_local` set, a sync that has not raised
      deletes the files the cloud list does not hold. */
  function Finish(p: Pass, verifyLocal: bool): (r: Pass)
    ensures r.(files := p.files) == p
    ensures r.files <= p.files
    ensures !verifyLocal || p.aborted ==> r == p
  {
    if verifyLocal && !p.aborted then p.(files := Prune(p.files, p.cloud)) else p
  }

  /** What `AmazonS3Resource.sync` does to a directory holding `files`. Credentials that are not
      strings make the assignment to `os.environ` raise; a missing `bucket` raises `KeyError`. */
  function S3Sync(settings: SettingsMap, w: World, files: set<string>, verifyLocal: bool): Pass
  {
    var p0 := Start(files);
    var key, secret := Get(settings, "aws_access_key"), Get(settings, "aws_secret");
    if !key.Str? || !secret.Str? then p0.(aborted := true)
    else match w.buckets(key.s, secret.s)
      case None => p0.(aborted := true)
      case Some(names) =>
        if "bucket" !in settings then p0.(aborted := true)
        else Finish(RunBuckets(p0, w, Buckets(names, settings["bucket"])), verifyLocal)
  }

  /** Whether a tag carries a non-empty `url` attribute. */
  predicate HasUrl(t: MediaTag)
  {
    t.url.Some? && t.url.value != ""
  }

  /** What one tag's download does in the loop body as written: the request for the image runs
      before the `try`, so a request that fails raises out of the sync (requests' exceptions are
      `IOError`s, but no handler is active yet); only decoding and saving are guarded. */
  function TagOutcomeAsWritten(t: MediaTag): Outcome
  {
    if t.requested then t.image else Raised
  }

  /** What one tag's download does with the request inside the `try`, as the S3 loop guards its
      download: a failed request is a logged `IOError` like a failed save. */
  function TagOutcome(t: MediaTag): Outcome
  {
    if t.requested then t.image else IOFailure
  }

  /** The tags that carry a url, in feed order, each as the item named by its path's basename,
      with what downloading it does according to `outcome`. */
  function FeedItems(tags: seq<MediaTag>, outcome: MediaTag -> Outcome): (items: seq<RemoteItem>)
    ensures |items| <= |tags|
    decreases |tags|
  {
    if tags == [] then []
    else
      var rest := FeedItems(tags[1..], outcome);
      if HasUrl(tags[0]) then [RemoteItem(Basename(tags[0].path), outcome(tags[0]))] + rest else rest
  }

  /** The positions below `n` of the tags that carry a url. */
  function UrlPositions(tags: seq<MediaTag>, n: nat): set<int>
    requires n <= |tags|
  {
    set j | 0 <= j < n && HasUrl(tags[j])
  }

  lemma {:induction false} FeedItemsAppend(a: seq<MediaTag>, b: seq<MediaTag>, outcome: MediaTag -> Outcome)
    ensures FeedItems(a + b, outcome) == FeedItems(a, outcome) + FeedItems(b, outcome)
    decreases |a|
  {
    if a == [] {
      assert a + b == b;
    } else {
      assert (a + b)[1..] == a[1..] + b;
      FeedItemsAppend(a[1..], b, outcome);
    }
  }

  /** Reading the feed one tag further: a tag with a url appends its item, a tag without one
      adds nothing. */
  lemma FeedItemsPrefix(tags: seq<MediaTag>, outcome: MediaTag -> Outcome, n: nat)
    requires n < |tags|
    ensures FeedItems(tags[..n + 1], outcome) == FeedItems(tags[..n], outcome) +
      (if HasUrl(tags[n]) then [RemoteItem(Basename(tags[n].path), outcome(tags[n]))] else [])
  {
    assert tags[..n + 1] == tags[..n] + [tags[n]];
    FeedItemsAppend(tags[..n], [tags[n]], outcome);
    assert [tags[n]][1..] == [];
  }

  lemma {:induction false} FeedItemsCountPrefix(tags: seq<MediaTag>, outcome: MediaTag -> Outcome, n: nat)
    requires n <= |tags|
    ensures |FeedItems(tags[..n], outcome)| == |UrlPositions(tags, n)|
  {
    if n == 0 {
      assert UrlPositions(tags, 0) == {};
    } else {
      FeedItemsCountPrefix(tags, outcome, n - 1);
      FeedItemsPrefix(tags, outcome, n - 1);
      var before := UrlPositions(tags, n - 1);
      assert n - 1 !in before;
      if HasUrl(tags[n - 1]) {
        assert UrlPositions(tags, n) == before + {n - 1};
      } else {
        assert UrlPositions(tags, n) == before;
      }
    }
  }

  /** The feed yields one item per tag that carries a url, and the item of such a tag sits at the
      number of url-carrying tags before it: the items are those tags' images, in feed order. */
  lemma FeedItemsSelects(tags: seq<MediaTag>, outcome: MediaTag -> Outcome, j: nat)
    requires j < |tags|
    ensures |FeedItems(tags, outcome)| == |UrlPositions(tags, |tags|)|
    ensures HasUrl(tags[j]) ==>
      && |UrlPositions(tags, j)| < |FeedItems(tags, outcome)|
      && FeedItems(tags, outcome)[|UrlPositions(tags, j)|] == RemoteItem(Basename(tags[j].path), outcome(tags[j]))
  {
    FeedItemsCountPrefix(tags, outcome, |tags|);
    assert tags[..|tags|] == tags;
    FeedItemsCountPrefix(tags, outcome, j);
    FeedItemsPrefix(tags, outcome, j);
    assert tags == tags[..j + 1] + tags[j + 1..];
    FeedItemsAppend(tags[..j + 1], tags[j + 1..], outcome);
  }

  /** Every feed item is a plain file name of the account directory: it holds no '/'. */
  lemma {:induction false} FeedNamesPlain(tags: seq<MediaTag>, outcome: MediaTag -> Outcome, k: nat)
    requires k < |FeedItems(tags, outcome)|
    ensures '/' !in FeedItems(tags, outcome)[k].name
    decreases |tags|
  {
    if HasUrl(tags[0]) && k == 0 {
      BasenameSuffix(tags[0].path);
    } else {
      FeedNamesPlain(tags[1..], outcome, if HasUrl(tags[0]) then k - 1 else k);
    }
  }

  /** With the request guarded, no download raises unless saving an image does. */
  lemma {:induction false} FeedItemsNoRaise(tags: seq<MediaTag>)
    requires forall j :: 0 <= j < |tags| ==> tags[j].image != Raised
    ensures forall k :: 0 <= k < |FeedItems(tags, TagOutcome)| ==> FeedItems(tags, TagOutcome)[k].fetch != Raised
    decreases |tags|
  {
    if tags != [] {
      FeedItemsNoRaise(tags[1..]);
    }
  }

  /** What a feed sync does to a directory holding `files`, with `outcome` for each download. */
  function FeedSync(settings: SettingsMap, w: World, files: set<string>, verifyLocal: bool,
                    outcome: MediaTag -> Outcome): (r: Pass)
    ensures w.feed(Get(settings, "feed_url")).None? ==> r.aborted && r.files == files
    ensures w.feed(Get(settings, "feed_url")).Some? ==>
      r.files <= files + Elems(Names(FeedItems(w.feed(Get(settings, "feed_url")).value, outcome)))
    ensures !verifyLocal ==> files <= r.files
  {
    match w.feed(Get(settings, "feed_url"))
    case None => Start(files).(aborted := true)
    case Some(tags) =>
      RunFilesGrow(Start(files), FeedItems(tags, outcome));
      Finish(Run(Start(files), FeedItems(tags, outcome)), verifyLocal)
  }

  /** `GPhotoResource.sync` as written: a failed image request ends the sync. */
  function GPhotoSyncAsWritten(settings: SettingsMap, w: World, files: set<string>, verifyLocal: bool): Pass
  {
    FeedSync(settings, w, files, verifyLocal, TagOutcomeAsWritten)
  }

  /** `GPhotoResource.sync` with the image request guarded like the image save. */
  function GPhotoSync(settings: SettingsMap, w: World, files: set<string>, verifyLocal: bool): Pass
  {
    FeedSync(settings, w, files, verifyLocal, TagOutcome)
  }

  /** A feed whose first image request fails: as written, the sync stops there, the second image
      is never fetched and `verify_local` never runs; with the request guarded, the loop goes on
      and fetches the second image. */
  lemma FailedRequestStopsFeed(settings: SettingsMap, w: World)
    requires w.feed(Get(settings, "feed_url")) ==
      Some([MediaTag(Some("u/a"), "/a", false, Fetched), MediaTag(Some("u/b"), "/b", true, Fetched)])
    ensures GPhotoSyncAsWritten(settings, w, {}, true) == Pass({}, ["a"], [], ["a"], true)
    ensures GPhotoSync(settings, w, {}, true) == Pass({"b"}, ["a", "b"], [], ["a", "b"], false)
  {
    var tags := w.feed(Get(settings, "feed_url")).value;
    TwoTagItems(tags);
    FeedSyncOfTags(settings, w, {}, true, TagOutcomeAsWritten, tags);
    FeedSyncOfTags(settings, w, {}, true, TagOutcome, tags);
    TwoItemRuns();
  }

  lemma FeedSyncOfTags(settings: SettingsMap, w: World, files: set<string>, verifyLocal: bool,
                       outcome: MediaTag -> Outcome, tags: seq<MediaTag>)
    requires w.feed(Get(settings, "feed_url")) == Some(tags)
    ensures FeedSync(settings, w, files, verifyLocal, outcome) ==
      Finish(Run(Start(files), FeedItems(tags, outcome)), verifyLocal)
  {
  }

  lemma TwoItemRuns()
    ensures Finish(Run(Start({}), [RemoteItem("a", Raised), RemoteItem("b", Fetched)]), true) ==
      Pass({}, ["a"], [], ["a"], true)
    ensures Finish(Run(Start({}), [RemoteItem("a", IOFailure), RemoteItem("b", Fetched)]), true) ==
      Pass({"b"}, ["a", "b"], [], ["a", "b"], false)
  {
    var asWritten := [RemoteItem("a", Raised), RemoteItem("b", Fetched)];
    var guarded := [RemoteItem("a", IOFailure), RemoteItem("b", Fetched)];
    assert asWritten[..1] == [RemoteItem("a", Raised)] && asWritten[..1][..0] == [];
    assert guarded[..1] == [RemoteItem("a", IOFailure)] && guarded[..1][..0] == [];
    assert Run(Start({}), asWritten[..1]) == Pass({}, ["a"], [], ["a"], true);
    assert Run(Start({}), guarded[..1]) == Pass({}, ["a"], [], ["a"], false);
    assert Prune({"b"}, ["a", "b"]) == {"b"};
  }

  lemma TwoTagItems(tags: seq<MediaTag>)
    requires tags == [MediaTag(Some("u/a"), "/a", false, Fetched), MediaTag(Some("u/b"), "/b", true, Fetched)]
    ensures FeedItems(tags, TagOutcomeAsWritten) == [RemoteItem("a", Raised), RemoteItem("b", Fetched)]
    ensures FeedItems(tags, TagOutcome) == [RemoteItem("a", IOFailure), RemoteItem("b", Fetched)]
  {
    assert Basename("/a") == "a" by { assert Basename("/") == []; assert "/a"[..1] == "/"; }
    assert Basename("/b") == "b" by { assert Basename("/") == []; assert "/b"[..1] == "/"; }
    assert tags[1..][1..] == [];
  }

  /** With the request guarded, a failed image request never stops the feed sync: unless saving
      an image raises, every tag with a url is reached and `verify_local` runs. */
  lemma FeedSyncReachesAll(settings: SettingsMap, w: World, files: set<string>, verifyLocal: bool)
    requires w.feed(Get(settings, "feed_url")).Some?
    requires var tags := w.feed(Get(settings, "feed_url")).value;
      forall j :: 0 <= j < |tags| ==> tags[j].image != Raised
    ensures var tags := w.feed(Get(settings, "feed_url")).value;
      var r := GPhotoSync(settings, w, files, verifyLocal);
      && !r.aborted
      && r.cloud == Names(FeedItems(tags, TagOutcome))
      && (verifyLocal ==> r.files <= Elems(r.cloud))
  {
    var tags := w.feed(Get(settings, "feed_url")).value;
    var items := FeedItems(tags, TagOutcome);
    FeedItemsNoRaise(tags);
    RunVisitsAll(Start(files), items);
    assert Start(files).cloud + Names(items) == Names(items);
  }

  /** The request URL of `UnsplashResource.sync`. */
  function UnsplashUrl(settings: SettingsMap): string
  {
    if Get(settings, "category") == Str("none") then
      UnsplashBase + "/" + UnsplashRandom + "/" + Show(Get(settings, "preferred_res"))
    else
      UnsplashBase + "/" + UnsplashCategory + "/" + Show(Get(settings, "category")) + "/" +
        Show(Get(settings, "preferred_res"))
  }

  /** The category `none` selects the random endpoint, and only it does: every other category,
      including an absent one, goes to the category endpoint. */
  lemma UnsplashUrlEndpoint(settings: SettingsMap)
    ensures Get(settings, "category") == Str("none") <==>
      StartsWith(UnsplashUrl(settings), UnsplashBase + "/" + UnsplashRandom + "/")
    ensures Get(settings, "category") != Str("none") ==>
      StartsWith(UnsplashUrl(settings), UnsplashBase + "/" + UnsplashCategory + "/" + Show(Get(settings, "category")) + "/")
  {
    var url := UnsplashUrl(settings);
    var n := |UnsplashBase| + 1;
    if Get(settings, "category") != Str("none") {
      assert url[n] == 'c';
      assert (UnsplashBase + "/" + UnsplashRandom + "/")[n] == 'r';
    }
  }

  /** The one file an Unsplash sync stands for: the md5 of the response's path, with `.jpg`. */
  function UnsplashFile(w: World, response: Response): (name: string)
    ensures |name| > |ImageExtension| && name[|name| - |ImageExtension| - 1..] == "." + ImageExtension
  {
    w.md5(response.pathUrl) + "." + ImageExtension
  }

  /** What `UnsplashResource.sync` does to a directory holding `files`; it never prunes. */
  function UnsplashSync(settings: SettingsMap, w: World, files: set<string>): Pass
  {
    match w.unsplash(UnsplashUrl(settings))
    case None => Start(files).(aborted := true)
    case Some(response) => Step(Start(files), RemoteItem(UnsplashFile(w, response), response.fetch))
  }

  /** An Unsplash sync that does not raise handles exactly one file, named `<md5>.jpg`: a
      duplicate when it exists, otherwise one download attempt. */
  lemma UnsplashOneItem(settings: SettingsMap, w: World, files: set<string>)
    requires !UnsplashSync(settings, w, files).aborted
    ensures var r := UnsplashSync(settings, w, files);
      var response := w.unsplash(UnsplashUrl(settings)).value;
      var name := UnsplashFile(w, response);
      && r.cloud == [name]
      && (name in files ==> r.duplicates == [name] && r.attempts == [] && r.files == files)
      && (name !in files ==> r.duplicates == [] && r.attempts == [name])
  {
  }

  /** What `klass(settings).sync(verify_local)` does for an account of class `c`. A class without
      a `sync` method raises `AttributeError`. */
  function AccountSync(c: AccountClass, settings: SettingsMap, w: World, files: set<string>, verifyLocal: bool): Pass
  {
    match c
    case AmazonS3Resource => S3Sync(settings, w, files, verifyLocal)
    case GPhotoResource => GPhotoSync(settings, w, files, verifyLocal)
    case UnsplashResource => UnsplashSync(settings, w, files)
    case OtherClass(_) => Start(files).(aborted := true)
  }

  /** A sync only adds files to its directory unless `verify_local` prunes it, and every file it
      prunes is outside its cloud list. */
  lemma AccountSyncFiles(c: AccountClass, settings: SettingsMap, w: World, files: set<string>, verifyLocal: bool)
    ensures var r := AccountSync(c, settings, w, files, verifyLocal);
      forall f :: f in files && f !in r.files ==> verifyLocal && f !in r.cloud
  {
    var r := AccountSync(c, settings, w, files, verifyLocal);
    match c
    case AmazonS3Resource =>
      var key, secret := Get(settings, "aws_access_key"), Get(settings, "aws_secret");
      if key.Str? && secret.Str? && w.buckets(key.s, secret.s).Some? && "bucket" in settings {
        var bs := Buckets(w.buckets(key.s, secret.s).value, settings["bucket"]);
        RunBucketsGrow(Start(files), w, bs);
      }
    case GPhotoResource =>
      if w.feed(Get(settings, "feed_url")).Some? {
        RunFilesGrow(Start(files), FeedItems(w.feed(Get(settings, "feed_url")).value, TagOutcome));
      }
    case UnsplashResource =>
    case OtherClass(_) =>
  }

  lemma {:induction false} RunBucketsGrow(p: Pass, w: World, buckets: seq<Value>)
    ensures p.files <= RunBuckets(p, w, buckets).files
    ensures p.cloud <= RunBuckets(p, w, buckets).cloud
    decreases |buckets|
  {
    if buckets != [] && !p.aborted && w.objects(buckets[0]).Some? {
      var items := w.objects(buckets[0]).value;
      RunFilesGrow(p, items);
      RunCloudGrows(p, items);
      RunBucketsGrow(Run(p, items), w, buckets[1..]);
    }
  }

  lemma {:induction false} RunCloudGrows(p: Pass, items: seq<RemoteItem>)
    ensures p.cloud <= Run(p, items).cloud
    decreases |items|
  {
    if items != [] {
      RunCloudGrows(p, items[..|items| - 1]);
    }
  }

  /** Idempotence of a whole account sync: after a sync in which every download succeeded, a second
      sync against the same remote state downloads nothing, lists the same files and counts every
      one as a duplicate. */
  lemma AccountRerun(c: AccountClass, settings: SettingsMap, w: World, files: set<string>,
                     firstVerify: bool, secondVerify: bool)
    requires !AccountSync(c, settings, w, files, firstVerify).aborted
    requires Elems(AccountSync(c, settings, w, files, firstVerify).cloud) <= AccountSync(c, settings, w, files, firstVerify).files
    ensures var first := AccountSync(c, settings, w, files, firstVerify);
      var second := AccountSync(c, settings, w, first.files, secondVerify);
      && !second.aborted
      && second.attempts == []
      && second.cloud == first.cloud
      && second.duplicates == first.cloud
      && first.files <= second.files + (first.files - Elems(first.cloud))
  {
    var first := AccountSync(c, settings, w, files, firstVerify);
    match c
    case AmazonS3Resource =>
      var key, secret := Get(settings, "aws_access_key"), Get(settings, "aws_secret");
      var bs := Buckets(w.buckets(key.s, secret.s).value, settings["bucket"]);
      if Listing(w, bs).None? {
        RunBucketsFails(Start(files), w, bs);
      }
      var all := Listing(w, bs).value;
      RunBucketsIsRun(Start(files), w, bs);
      RunBucketsIsRun(Start(first.files), w, bs);
      Rerun(files, first.files, all);
      RunCloud(Start(files), all);
    case GPhotoResource =>
      var items := FeedItems(w.feed(Get(settings, "feed_url")).value, TagOutcome);
      Rerun(files, first.files, items);
      RunCloud(Start(files), items);
    case UnsplashResource =>
      UnsplashOneItem(settings, w, files);
      UnsplashOneItem(settings, w, first.files);
  }

  // ----- the sync methods -----

  /** The tail of the S3 and feed syncs: `verify_local` over a fresh directory listing. */
  method FinishSync(store: PhotoStore, dir: string, p: Pass, verifyLocal: bool) returns (q: Pass)
    requires dir in store.dirs && p.files == store.dirs[dir]
    modifies store
    ensures q == Finish(p, verifyLocal)
    ensures store.dirs == old(store.dirs)[dir := q.files]
  {
    q := p;
    if verifyLocal && !p.aborted {
      var local := store.ListDir(dir);
      VerifyLocal(store, dir, p.cloud, local);
      PruneListing(p.files, p.cloud, local);
      q := p.(files := store.dirs[dir]);
    }
  }

  /** `AmazonS3Resource.sync`, run in the account's directory `dir`. */
  method SyncS3(store: PhotoStore, dir: string, settings: SettingsMap, w: World, verifyLocal: bool) returns (p: Pass)
    requires dir in store.dirs
    modifies store
    ensures p == S3Sync(settings, w, old(store.dirs[dir]), verifyLocal)
    ensures store.dirs == old(store.dirs)[dir := p.files]
  {
    var p0 := Start(store.dirs[dir]);
    p := p0;
    var key, secret := Get(settings, "aws_access_key"), Get(settings, "aws_secret");
    if !key.Str? || !secret.Str? {
      p := p.(aborted := true);
      return;
    }
    var listed := w.buckets(key.s, secret.s);
    if listed.None? {
      p := p.(aborted := true);
      return;
    }
    if "bucket" !in settings {
      p := p.(aborted := true);
      return;
    }
    var buckets := SelectBuckets(listed.value, settings["bucket"]);
    var b := 0;
    while b < |buckets| && !p.aborted
      invariant 0 <= b <= |buckets|
      invariant RunBuckets(p, w, buckets[b..]) == RunBuckets(p0, w, buckets)
      invariant store.dirs == old(store.dirs)[dir := p.files]
    {
      assert buckets[b..][1..] == buckets[b + 1..];
      var objects := w.objects(buckets[b]);
      if objects.None? {
        p := p.(aborted := true);
      } else {
        p := Pull(store, dir, p, objects.value);
      }
      b := b + 1;
    }
    p := FinishSync(store, dir, p, verifyLocal);
  }

  /** `GPhotoResource.sync`, with the image request guarded, run in the account's directory `dir`. */
  method SyncGPhoto(store: PhotoStore, dir: string, settings: SettingsMap, w: World, verifyLocal: bool) returns (p: Pass)
    requires dir in store.dirs
    modifies store
    ensures p == GPhotoSync(settings, w, old(store.dirs[dir]), verifyLocal)
    ensures store.dirs == old(store.dirs)[dir := p.files]
  {
    p := Start(store.dirs[dir]);
    var tags := w.feed(Get(settings, "feed_url"));
    if tags.None? {
      p := p.(aborted := true);
      return;
    }
    p := Pull(store, dir, p, FeedItems(tags.value, TagOutcome));
    p := FinishSync(store, dir, p, verifyLocal);
  }

  /** `UnsplashResource.sync`, run in the account's directory `dir`; it takes `verify_local` and ignores it. */
  method SyncUnsplash(store: PhotoStore, dir: string, settings: SettingsMap, w: World, verifyLocal: bool) returns (p: Pass)
    requires dir in store.dirs
    modifies store
    ensures p == UnsplashSync(settings, w, old(store.dirs[dir]))
    ensures store.dirs == old(store.dirs)[dir := p.files]
  {
    p := Start(store.dirs[dir]);
    var response := w.unsplash(UnsplashUrl(settings));
    if response.None? {
      p := p.(aborted := true);
      return;
    }
    var name := UnsplashFile(w, response.value);
    var present := store.IsFile(dir, name);
    if !present {
      var tried := p.(cloud := [name], attempts := [name]);
      match response.value.fetch
      case Fetched =>
        store.Write(dir, name);
        p := tried.(files := store.dirs[dir]);
      case IOFailure =>
        p := tried;
      case Raised =>
        p := tried.(aborted := true);
    } else {
      p := p.(cloud := [name], duplicates := [name]);
    }
  }

  /** `klass(settings).sync(verify_local)`, run in the directory `dir` (the account's `subdir`). */
  method SyncAccount(store: PhotoStore, dir: string, c: AccountClass, settings: SettingsMap, w: World, verifyLocal: bool)
    returns (p: Pass)
    requires dir in store.dirs
    modifies store
    ensures p == AccountSync(c, settings, w, old(store.dirs[dir]), verifyLocal)
    ensures store.dirs == old(store.dirs)[dir := p.files]
  {
    match c
    case AmazonS3Resource =>
      p := SyncS3(store, dir, settings, w, verifyLocal);
    case GPhotoResource =>
      p := SyncGPhoto(store, dir, settings, w, verifyLocal);
    case UnsplashResource =>
      p := SyncUnsplash(store, dir, settings, w, verifyLocal);
    case OtherClass(_) =>
      p := Start(store.dirs[dir]).(aborted := true);
  }
}
