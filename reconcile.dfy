/** The reconcile loop shared by the `sync` methods, and the local photo directories it works on.
    Each listed remote item is recorded in the cloud file list; an item whose file already exists
    is a duplicate and is skipped; any other item gets one download attempt. An `IOError` raised
    inside the loop body's `try` is logged and the loop goes on; any other exception, and any
    exception raised before the `try` is entered, ends the account's sync. `BaseDPF.verify_local` then deletes the local files the cloud list does not hold. */
module Reconcile {
  import opened Common

  /** What one download attempt does: writes the file, raises an `IOError` the loop body
      catches, or raises an exception it does not catch. */
  datatype Outcome = Fetched | IOFailure | Raised

  /** One listed remote item: the local file name it maps to and what downloading it does. */
  datatype RemoteItem = RemoteItem(name: string, fetch: Outcome)

  /** The state of one account's sync: the file names in its directory, the `cloud_filelist`
      and `duplicates` lists, the names whose download was attempted (the "Downloading" log
      lines), and whether an exception has ended the sync. */
  datatype Pass = Pass(files: set<string>, cloud: seq<string>, duplicates: seq<string>,
                       attempts: seq<string>, aborted: bool)

  function Start(files: set<string>): Pass
  {
    Pass(files, [], [], [], false)
  }

  function Names(items: seq<RemoteItem>): (r: seq<string>)
    ensures |r| == |items|
    ensures forall i :: 0 <= i < |items| ==> r[i] == items[i].name
    decreases |items|
  {
    if items == [] then [] else Names(items[..|items| - 1]) + [items[|items| - 1].name]
  }

  lemma NamesSnoc(items: seq<RemoteItem>)
    requires items != []
    ensures Names(items) == Names(items[..|items| - 1]) + [items[|items| - 1].name]
    ensures Elems(Names(items)) == Elems(Names(items[..|items| - 1])) + {items[|items| - 1].name}
  {
    var m, x := Names(items[..|items| - 1]), items[|items| - 1].name;
    assert forall y :: y in m + [x] <==> y in m || y == x;
  }

  /** One iteration of the loop body for `item`: a name already present is recorded as one
      duplicate and nothing else happens; any other name gets exactly one download attempt, which
      adds the file when it succeeds and ends the sync when it raises uncaught. */
  function Step(p: Pass, item: RemoteItem): (r: Pass)
    ensures p.aborted ==> r == p
    ensures !p.aborted ==> r.cloud == p.cloud + [item.name]
    ensures p.files <= r.files <= p.files + {item.name}
    ensures item.name in p.files ==> r.files == p.files
    ensures !p.aborted && item.name in p.files ==>
      && r.duplicates == p.duplicates + [item.name]
      && r.attempts == p.attempts
      && !r.aborted
    ensures !p.aborted && item.name !in p.files ==>
      && r.duplicates == p.duplicates
      && r.attempts == p.attempts + [item.name]
      && (item.name in r.files <==> item.fetch == Fetched)
      && (r.aborted <==> item.fetch == Raised)
  {
    if p.aborted then p
    else
      var cloud := p.cloud + [item.name];
      if item.name in p.files then p.(cloud := cloud, duplicates := p.duplicates + [item.name])
      else
        var tried := p.(cloud := cloud, attempts := p.attempts + [item.name]);
        match item.fetch
        case Fetched => tried.(files := p.files + {item.name})
        case IOFailure => tried
        case Raised => tried.(aborted := true)
  }

  /** The loop over `items`, from state `p`. */
  function Run(p: Pass, items: seq<RemoteItem>): Pass
    decreases |items|
  {
    if items == [] then p else Step(Run(p, items[..|items| - 1]), items[|items| - 1])
  }

  lemma RunPrefix(p: Pass, items: seq<RemoteItem>, i: nat)
    requires i < |items|
    ensures Run(p, items[..i + 1]) == Step(Run(p, items[..i]), items[i])
  {
    assert items[..i + 1][..i] == items[..i];
  }

  /** Once an exception has ended the sync, no later item is looked at. */
  lemma {:induction false} RunAborted(p: Pass, items: seq<RemoteItem>)
    requires p.aborted
    ensures Run(p, items) == p
    decreases |items|
  {
    if items != [] {
      RunAborted(p, items[..|items| - 1]);
    }
  }

  /** Running over two listings one after the other is running over their concatenation. */
  lemma {:induction false} RunAppend(p: Pass, a: seq<RemoteItem>, b: seq<RemoteItem>)
    ensures Run(p, a + b) == Run(Run(p, a), b)
    decreases |b|
  {
    if b == [] {
      assert a + b == a;
    } else {
      assert (a + b)[..|a + b| - 1] == a + b[..|b| - 1];
      RunAppend(p, a, b[..|b| - 1]);
    }
  }

  /** Whenever the loop ends without an uncaught exception, it has visited every item. */
  lemma {:induction false} RunCloud(p: Pass, items: seq<RemoteItem>)
    requires !Run(p, items).aborted
    ensures Run(p, items).cloud == p.cloud + Names(items)
    decreases |items|
  {
    if items != [] {
      var init := items[..|items| - 1];
      assert !Run(p, init).aborted;
      RunCloud(p, init);
      assert Names(items) == Names(init) + [items[|items| - 1].name];
    }
  }

  /** Every item the loop reaches adds one entry to `duplicates` or to the attempted downloads:
      the cloud list grows by as many entries as the two together. Which of the two an item joins
      is `Step`'s contract and, for a whole listing, `RunClassifies`. */
  lemma {:induction false} RunCounts(p: Pass, items: seq<RemoteItem>)
    ensures var r := Run(p, items);
      |r.cloud| - |p.cloud| == (|r.duplicates| - |p.duplicates|) + (|r.attempts| - |p.attempts|)
    decreases |items|
  {
    if items != [] {
      RunCounts(p, items[..|items| - 1]);
    }
  }

  /** Over a listing without repeated names that runs to its end, the duplicates are exactly the
      listed names already present at the start, and the attempted downloads exactly the listed
      names that were absent. */
  lemma {:induction false} RunClassifies(p: Pass, items: seq<RemoteItem>)
    requires !Run(p, items).aborted && Distinct(Names(items))
    ensures Elems(Run(p, items).duplicates) == Elems(p.duplicates) + (Elems(Names(items)) * p.files)
    ensures Elems(Run(p, items).attempts) == Elems(p.attempts) + (Elems(Names(items)) - p.files)
    decreases |items|
  {
    if items != [] {
      var init := items[..|items| - 1];
      var last := items[|items| - 1];
      var q := Run(p, init);
      assert !q.aborted;
      NamesSnoc(items);
      DistinctSnoc(Names(init), last.name);
      RunClassifies(p, init);
      RunFilesGrow(p, init);
      ClassifyLast(p, q, last, Elems(Names(init)));
    }
  }

  lemma DistinctSnoc(m: seq<string>, x: string)
    requires Distinct(m + [x])
    ensures Distinct(m) && x !in Elems(m)
  {
    forall i, j | 0 <= i < j < |m| ensures m[i] != m[j] {
      assert (m + [x])[i] == m[i] && (m + [x])[j] == m[j];
    }
    forall i | 0 <= i < |m| ensures m[i] != x {
      assert (m + [x])[i] == m[i] && (m + [x])[|m|] == x;
    }
  }

  /** The inductive step of `RunClassifies`: one more item whose name was not listed before. */
  lemma ClassifyLast(p: Pass, q: Pass, last: RemoteItem, listed: set<string>)
    requires !Step(q, last).aborted && last.name !in listed
    requires p.files <= q.files <= p.files + listed
    requires Elems(q.duplicates) == Elems(p.duplicates) + (listed * p.files)
    requires Elems(q.attempts) == Elems(p.attempts) + (listed - p.files)
    ensures Elems(Step(q, last).duplicates) == Elems(p.duplicates) + ((listed + {last.name}) * p.files)
    ensures Elems(Step(q, last).attempts) == Elems(p.attempts) + ((listed + {last.name}) - p.files)
  {
    assert last.name in q.files <==> last.name in p.files;
    assert Elems(q.duplicates + [last.name]) == Elems(q.duplicates) + {last.name};
    assert Elems(q.attempts + [last.name]) == Elems(q.attempts) + {last.name};
  }

  /** The directory only gains names of listed items. */
  lemma {:induction false} RunFilesGrow(p: Pass, items: seq<RemoteItem>)
    ensures p.files <= Run(p, items).files <= p.files + Elems(Names(items))
    decreases |items|
  {
    if items != [] {
      var init := items[..|items| - 1];
      var last := items[|items| - 1];
      RunFilesGrow(p, init);
      NamesSnoc(items);
    }
  }

  /** An `IOError` on one item does not stop the loop: without an uncaught exception every item is
      visited and the cloud list is the listing's names, in order. */
  lemma {:induction false} RunVisitsAll(p: Pass, items: seq<RemoteItem>)
    requires !p.aborted
    requires forall i :: 0 <= i < |items| ==> items[i].fetch != Raised
    ensures !Run(p, items).aborted
    ensures Run(p, items).cloud == p.cloud + Names(items)
    decreases |items|
  {
    if items != [] {
      var init := items[..|items| - 1];
      RunVisitsAll(p, init);
      assert items[|items| - 1].fetch != Raised;
    }
    RunCloud(p, items);
  }

  /** A file that exists when the sync starts is never downloaded again. A name listed twice is
      judged against the directory as the earlier items left it; `Step` states that case. */
  lemma {:induction false} RunNeverRefetches(p: Pass, items: seq<RemoteItem>)
    ensures var r := Run(p, items);
      && p.attempts <= r.attempts
      && p.files <= r.files
      && forall k :: |p.attempts| <= k < |r.attempts| ==> r.attempts[k] !in p.files
    decreases |items|
  {
    if items != [] {
      RunNeverRefetches(p, items[..|items| - 1]);
    }
  }

  /** When every listed file already exists, every item is a duplicate and nothing is downloaded. */
  lemma {:induction false} RunAllPresent(p: Pass, items: seq<RemoteItem>)
    requires !p.aborted
    requires forall i :: 0 <= i < |items| ==> items[i].name in p.files
    ensures Run(p, items) == p.(cloud := p.cloud + Names(items), duplicates := p.duplicates + Names(items))
    decreases |items|
  {
    if items != [] {
      var init := items[..|items| - 1];
      var last := items[|items| - 1];
      RunAllPresent(p, init);
      var r := Run(p, init);
      assert r.files == p.files && !r.aborted;
      StepPresent(r, last);
      NamesSnoc(items);
    }
  }

  lemma StepPresent(q: Pass, item: RemoteItem)
    requires !q.aborted && item.name in q.files
    ensures Step(q, item) == q.(cloud := q.cloud + [item.name], duplicates := q.duplicates + [item.name])
  {
  }

  /** If every download succeeds, every listed file is local when the loop ends. */
  lemma {:induction false} RunFetchesAll(p: Pass, items: seq<RemoteItem>)
    requires !p.aborted && Elems(p.cloud) <= p.files
    requires forall i :: 0 <= i < |items| ==> items[i].fetch == Fetched
    ensures !Run(p, items).aborted
    ensures Elems(Run(p, items).cloud) <= Run(p, items).files
    decreases |items|
  {
    if items != [] {
      var init := items[..|items| - 1];
      RunFetchesAll(p, init);
      RunNeverRefetches(p, init);
      var q := Run(p, init);
      assert Elems(q.cloud + [items[|items| - 1].name]) == Elems(q.cloud) + {items[|items| - 1].name};
    }
  }

  /** Idempotence: after a sync in which every download succeeded, a second sync of the same
      listing downloads nothing and counts every item as a duplicate. */
  lemma Rerun(first: set<string>, second: set<string>, items: seq<RemoteItem>)
    requires !Run(Start(first), items).aborted
    requires Elems(Run(Start(first), items).cloud) <= second
    ensures Run(Start(second), items) == Pass(second, Names(items), Names(items), [], false)
  {
    RunCloud(Start(first), items);
    forall i | 0 <= i < |items| ensures items[i].name in second {
      assert Names(items)[i] in Elems(Names(items));
    }
    RunAllPresent(Start(second), items);
  }

  /** The local files `verify_local` deletes: those listed locally but absent from the cloud list. */
  function Orphans(cloud: seq<string>, local: seq<string>): set<string>
  {
    set f | f in local && f !in cloud
  }

  /** The directory contents `verify_local` leaves: the files that are in the cloud list. */
  function Prune(files: set<string>, cloud: seq<string>): set<string>
  {
    set f | f in files && f in cloud
  }

  /** The photo directories on disk: each account directory name maps to the file names in it. */
  class PhotoStore {
    var dirs: map<string, set<string>>

    constructor (dirs: map<string, set<string>>)
      ensures this.dirs == dirs
    {
      this.dirs := dirs;
    }

    /** `os.path.isfile`. */
    method IsFile(dir: string, name: string) returns (b: bool)
      requires dir in dirs
      ensures b == (name in dirs[dir])
    {
      b := name in dirs[dir];
    }

    /** A download or image save that completes. */
    method Write(dir: string, name: string)
      requires dir in dirs
      modifies this
      ensures dirs == old(dirs)[dir := old(dirs[dir]) + {name}]
    {
      dirs := dirs[dir := dirs[dir] + {name}];
    }

    /** `os.remove`, which raises on a missing file; callers only remove listed files. */
    method Remove(dir: string, name: string)
      requires dir in dirs && name in dirs[dir]
      modifies this
      ensures dirs == old(dirs)[dir := old(dirs[dir]) - {name}]
    {
      dirs := dirs[dir := dirs[dir] - {name}];
    }

    /** `os.listdir`: every file of the directory once, in no particular order. */
    method ListDir(dir: string) returns (names: seq<string>)
      requires dir in dirs
      ensures Elems(names) == dirs[dir]
      ensures Distinct(names)
    {
      names := [];
      var rest := dirs[dir];
      while rest != {}
        invariant Elems(names) + rest == dirs[dir]
        invariant forall n :: n in names ==> n !in rest
        invariant Distinct(names)
        decreases |rest|
      {
        var n :| n in rest;
        names := names + [n];
        rest := rest - {n};
      }
    }
  }

  /** The shared loop of the `sync` methods over one listing, writing into directory `dir`. */
  method Pull(store: PhotoStore, dir: string, start: Pass, items: seq<RemoteItem>) returns (p: Pass)
    requires dir in store.dirs && start.files == store.dirs[dir]
    modifies store
    ensures p == Run(start, items)
    ensures store.dirs == old(store.dirs)[dir := p.files]
  {
    p := start;
    var i := 0;
    while i < |items| && !p.aborted
      invariant 0 <= i <= |items|
      invariant p == Run(start, items[..i])
      invariant store.dirs == old(store.dirs)[dir := p.files]
    {
      var item := items[i];
      var cloud := p.cloud + [item.name];
      var exists_ := store.IsFile(dir, item.name);
      if !exists_ {
        var tried := p.(cloud := cloud, attempts := p.attempts + [item.name]);
        match item.fetch
        case Fetched =>
          store.Write(dir, item.name);
          p := tried.(files := store.dirs[dir]);
        case IOFailure =>
          p := tried;
        case Raised =>
          p := tried.(aborted := true);
      } else {
        p := p.(cloud := cloud, duplicates := p.duplicates + [item.name]);
      }
      RunPrefix(start, items, i);
      i := i + 1;
    }
    if p.aborted {
      RunAborted(p, items[i..]);
      RunAppend(start, items[..i], items[i..]);
      assert items[..i] + items[i..] == items;
    } else {
      assert items[..i] == items;
    }
  }

  /** `BaseDPF.verify_local`: deletes every file of `local` that `cloud` does not hold. */
  method VerifyLocal(store: PhotoStore, dir: string, cloud: seq<string>, local: seq<string>)
    requires dir in store.dirs
    requires Distinct(local)
    requires forall k :: 0 <= k < |local| ==> local[k] in store.dirs[dir]
    modifies store
    ensures store.dirs == old(store.dirs)[dir := old(store.dirs[dir]) - Orphans(cloud, local)]
    ensures forall f :: f in old(store.dirs[dir]) && f in cloud ==> f in store.dirs[dir]
  {
    ghost var before := store.dirs[dir];
    assert Orphans(cloud, local[..0]) == {};
    assert before - {} == before;
    assert store.dirs == store.dirs[dir := before];
    for k := 0 to |local|
      invariant dir in store.dirs
      invariant store.dirs == old(store.dirs)[dir := old(store.dirs[dir]) - Orphans(cloud, local[..k])]
    {
      assert local[..k + 1] == local[..k] + [local[k]];
      if local[k] !in cloud {
        assert local[k] !in local[..k] by {
          forall j | 0 <= j < k ensures local[..k][j] != local[k] { }
        }
        assert Orphans(cloud, local[..k + 1]) == Orphans(cloud, local[..k]) + {local[k]};
        assert (before - Orphans(cloud, local[..k])) - {local[k]} == before - Orphans(cloud, local[..k + 1]);
        store.Remove(dir, local[k]);
      } else {
        assert Orphans(cloud, local[..k + 1]) == Orphans(cloud, local[..k]);
      }
    }
    assert local[..|local|] == local;
  }

  /** Pruning against a full directory listing keeps exactly the files in the cloud list. */
  lemma PruneListing(files: set<string>, cloud: seq<string>, local: seq<string>)
    requires Elems(local) == files
    ensures files - Orphans(cloud, local) == Prune(files, cloud)
  {
  }
}
