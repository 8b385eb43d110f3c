/** `SuperDPF.sync`: every configured account is synced in list order, each inside its own
    exception handler. */
module SuperDpf {
  import opened Common
  import opened Settings
  import opened Accounts
  import opened Reconcile
  import opened Sources
  import opened Configurator

  /** One account the loop reached: its class name, its `settings_pk` and how its sync went. */
  datatype Attempt = Attempt(className: string, pk: seq<Value>, pass: Pass)

  /** The state of a run: the attempts so far, the photo directories, and whether the loop itself
      crashed. */
  datatype Visit = Visit(log: seq<Attempt>, dirs: map<string, set<string>>, crashed: bool)

  /** The photo directory of an entry whose class name resolves. */
  function AccountDir(e: AccountEntry): Option<string>
  {
    match GetAccountClass(e.className)
    case None => None
    case Some(c) => Some(Subdir(c, e.settings))
  }

  /** The photo directories of the accounts whose class names resolve. */
  function Dirs(accounts: seq<AccountEntry>): set<string>
    decreases |accounts|
  {
    if accounts == [] then {}
    else
      Dirs(accounts[..|accounts| - 1]) +
        (match AccountDir(accounts[|accounts| - 1]) case None => {} case Some(d) => {d})
  }

  /** Every resolvable account's directory is among the accounts' directories. */
  lemma {:induction false} DirsOfAccount(accounts: seq<AccountEntry>, k: nat)
    requires k < |accounts| && AccountDir(accounts[k]).Some?
    ensures AccountDir(accounts[k]).value in Dirs(accounts)
    decreases |accounts|
  {
    var init := accounts[..|accounts| - 1];
    var d := AccountDir(accounts[k]).value;
    if k < |init| {
      assert init[k] == accounts[k];
      DirsOfAccount(init, k);
      assert d in Dirs(init);
    } else {
      assert k == |accounts| - 1;
      assert AccountDir(accounts[|accounts| - 1]) == Some(d);
    }
  }

  /** A directory that no account names is not among the accounts' directories. */
  lemma {:induction false} DirsOnlyOfAccounts(accounts: seq<AccountEntry>, d: string)
    requires forall k :: 0 <= k < |accounts| ==> AccountDir(accounts[k]) != Some(d)
    ensures d !in Dirs(accounts)
    decreases |accounts|
  {
    if accounts != [] {
      var init := accounts[..|accounts| - 1];
      forall k | 0 <= k < |init| ensures AccountDir(init[k]) != Some(d) {
        assert init[k] == accounts[k];
      }
      DirsOnlyOfAccounts(init, d);
      assert AccountDir(accounts[|accounts| - 1]) != Some(d);
    }
  }

  /** Every resolvable account's directory exists, as the configurator's start-up guarantees. */
  predicate DirsReady(accounts: seq<AccountEntry>, dirs: map<string, set<string>>)
  {
    Dirs(accounts) <= dirs.Keys
  }

  /** The behaviour of `klass(settings).sync(verify_local)` for every account: the pass it makes
      over a directory holding the given files. The loop dispatches to it without looking inside. */
  type Syncer = (AccountClass, SettingsMap, set<string>) -> Pass

  /** The syncs of the three source classes against the world `w`. */
  function SyncerOf(w: World, verifyLocal: bool): Syncer
  {
    (c: AccountClass, settings: SettingsMap, files: set<string>) => AccountSync(c, settings, w, files, verifyLocal)
  }

  /** One iteration of the loop. An exception from a resolvable account's sync is caught and the
      loop goes on; for a class name that does not resolve, `klass` is `None` and the handler's own
      `klass.__name__` raises, which ends the whole run. */
  function Visit1(v: Visit, e: AccountEntry, sync: Syncer): (r: Visit)
    requires AccountDir(e).Some? ==> AccountDir(e).value in v.dirs
    ensures r.dirs.Keys == v.dirs.Keys
  {
    if v.crashed then v
    else match GetAccountClass(e.className)
      case None => v.(crashed := true)
      case Some(c) =>
        var dir := AccountDir(e).value;
        var pass := sync(c, e.settings, v.dirs[dir]);
        Visit(v.log + [Attempt(e.className, SettingsPk(c, e.settings), pass)], v.dirs[dir := pass.files], false)
  }

  /** What `SuperDPF.sync` does, starting from the photo directories `dirs`. */
  function SyncAll(accounts: seq<AccountEntry>, sync: Syncer, dirs: map<string, set<string>>): (r: Visit)
    requires DirsReady(accounts, dirs)
    ensures r.dirs.Keys == dirs.Keys
    decreases |accounts|
  {
    if accounts == [] then Visit([], dirs, false)
    else
      var v := SyncAll(accounts[..|accounts| - 1], sync, dirs);
      Visit1(v, accounts[|accounts| - 1], sync)
  }

  lemma {:induction false} DirsReadyPrefix(accounts: seq<AccountEntry>, j: nat, dirs: map<string, set<string>>)
    requires j <= |accounts| && DirsReady(accounts, dirs)
    ensures DirsReady(accounts[..j], dirs)
    decreases |accounts| - j
  {
    if j < |accounts| {
      var init := accounts[..|accounts| - 1];
      assert init[..j] == accounts[..j];
      DirsReadyPrefix(init, j, dirs);
    } else {
      assert accounts[..j] == accounts;
    }
  }

  /** One more account is one more iteration of the loop. */
  lemma SyncAllStep(accounts: seq<AccountEntry>, i: nat, sync: Syncer, dirs: map<string, set<string>>)
    requires i < |accounts| && DirsReady(accounts, dirs)
    ensures DirsReady(accounts[..i], dirs) && DirsReady(accounts[..i + 1], dirs)
    ensures SyncAll(accounts[..i + 1], sync, dirs) == Visit1(SyncAll(accounts[..i], sync, dirs), accounts[i], sync)
  {
    DirsReadyPrefix(accounts, i + 1, dirs);
    DirsReadyPrefix(accounts, i, dirs);
    assert accounts[..i + 1][..i] == accounts[..i];
    assert accounts[..i + 1][i] == accounts[i];
  }

  /** Once the loop has crashed, the rest of the accounts change nothing. */
  lemma {:induction false} SyncAllCrashedStays(accounts: seq<AccountEntry>, j: nat, sync: Syncer,
                                               dirs: map<string, set<string>>)
    requires j <= |accounts| && DirsReady(accounts, dirs)
    requires DirsReady(accounts[..j], dirs) && SyncAll(accounts[..j], sync, dirs).crashed
    ensures SyncAll(accounts, sync, dirs) == SyncAll(accounts[..j], sync, dirs)
    decreases |accounts| - j
  {
    if j < |accounts| {
      var init := accounts[..|accounts| - 1];
      assert init[..j] == accounts[..j];
      DirsReadyPrefix(accounts, |accounts| - 1, dirs);
      SyncAllCrashedStays(init, j, sync, dirs);
    } else {
      assert accounts[..j] == accounts;
    }
  }

  /** When every class name resolves, the loop never crashes and reaches every account, whether
      or not earlier syncs raised. */
  lemma {:induction false} SyncAllVisitsAll(accounts: seq<AccountEntry>, sync: Syncer,
                                            dirs: map<string, set<string>>)
    requires DirsReady(accounts, dirs) && AllResolve(accounts)
    ensures !SyncAll(accounts, sync, dirs).crashed
    ensures |SyncAll(accounts, sync, dirs).log| == |accounts|
    decreases |accounts|
  {
    if accounts != [] {
      var init := accounts[..|accounts| - 1];
      DirsReadyPrefix(accounts, |accounts| - 1, dirs);
      AllResolvePrefix(accounts, |init|);
      SyncAllVisitsAll(init, sync, dirs);
    }
  }

  /** The last account of a fully resolving list is attempted last, after all the others. */
  lemma SyncAllLast(accounts: seq<AccountEntry>, sync: Syncer, dirs: map<string, set<string>>)
    requires DirsReady(accounts, dirs) && AllResolve(accounts) && accounts != []
    requires DirsReady(accounts[..|accounts| - 1], dirs)
    ensures var log := SyncAll(accounts, sync, dirs).log;
      var e := accounts[|accounts| - 1];
      && |log| == |accounts|
      && log[..|accounts| - 1] == SyncAll(accounts[..|accounts| - 1], sync, dirs).log
      && log[|accounts| - 1].className == e.className
      && log[|accounts| - 1].pk == SettingsPk(GetAccountClass(e.className).value, e.settings)
    ensures AccountDir(accounts[|accounts| - 1]).Some?
    ensures AccountDir(accounts[|accounts| - 1]).value in dirs
    ensures var e := accounts[|accounts| - 1];
      SyncAll(accounts, sync, dirs).log[|accounts| - 1].pass ==
        sync(GetAccountClass(e.className).value, e.settings,
             SyncAll(accounts[..|accounts| - 1], sync, dirs).dirs[AccountDir(e).value])
  {
    var init := accounts[..|accounts| - 1];
    AllResolvePrefix(accounts, |init|);
    SyncAllVisitsAll(init, sync, dirs);
    var v := SyncAll(init, sync, dirs);
    var e := accounts[|init|];
    var c := GetAccountClass(e.className).value;
    var step := Attempt(e.className, SettingsPk(c, e.settings), sync(c, e.settings, v.dirs[AccountDir(e).value]));
    var log := SyncAll(accounts, sync, dirs).log;
    assert log == v.log + [step];
    assert log[|init|] == step;
    DirsOfAccount(accounts, |init|);
  }

  /** An attempt made before the last account stays where it was once the last one is attempted. */
  lemma SyncAllKeepsEarlier(accounts: seq<AccountEntry>, sync: Syncer, dirs: map<string, set<string>>, k: nat)
    requires DirsReady(accounts, dirs) && AllResolve(accounts) && k < |accounts| - 1
    requires DirsReady(accounts[..|accounts| - 1], dirs)
    ensures |SyncAll(accounts, sync, dirs).log| == |accounts|
    ensures |SyncAll(accounts[..|accounts| - 1], sync, dirs).log| == |accounts| - 1
    ensures SyncAll(accounts, sync, dirs).log[k] == SyncAll(accounts[..|accounts| - 1], sync, dirs).log[k]
  {
    SyncAllLast(accounts, sync, dirs);
    var log := SyncAll(accounts, sync, dirs).log;
    assert log[k] == log[..|accounts| - 1][k];
  }

  /** With every class name resolving, the `k`-th attempt is the `k`-th account, under its own
      key, and its pass is that account's sync over its directory as the accounts before it left
      that directory: accounts are attempted in list order. */
  lemma {:induction false} SyncAllAttempt(accounts: seq<AccountEntry>, sync: Syncer,
                                          dirs: map<string, set<string>>, k: nat)
    requires DirsReady(accounts, dirs) && AllResolve(accounts) && k < |accounts|
    ensures |SyncAll(accounts, sync, dirs).log| == |accounts|
    ensures SyncAll(accounts, sync, dirs).log[k].className == accounts[k].className
    ensures SyncAll(accounts, sync, dirs).log[k].pk ==
      SettingsPk(GetAccountClass(accounts[k].className).value, accounts[k].settings)
    ensures DirsReady(accounts[..k], dirs)
    ensures AccountDir(accounts[k]).Some? && AccountDir(accounts[k]).value in dirs
    ensures SyncAll(accounts, sync, dirs).log[k].pass ==
      sync(GetAccountClass(accounts[k].className).value, accounts[k].settings,
           SyncAll(accounts[..k], sync, dirs).dirs[AccountDir(accounts[k]).value])
    decreases |accounts|
  {
    var n := |accounts| - 1;
    DirsReadyPrefix(accounts, n, dirs);
    if k < n {
      AllResolvePrefix(accounts, n);
      SyncAllAttempt(accounts[..n], sync, dirs, k);
      SyncAllKeepsEarlier(accounts, sync, dirs, k);
      assert accounts[..n][k] == accounts[k];
    } else {
      SyncAllLast(accounts, sync, dirs);
      assert k == n;
    }
    SyncAllPassUpTo(accounts, sync, dirs, k, |accounts|);
    assert accounts[..|accounts|] == accounts;
  }

  /** The pass of the `k`-th attempt in the run over the first `j` accounts, by induction on `j`:
      the account's sync over its directory as the accounts before it left that directory. */
  lemma {:induction false} SyncAllPassUpTo(accounts: seq<AccountEntry>, sync: Syncer,
                                           dirs: map<string, set<string>>, k: nat, j: nat)
    requires DirsReady(accounts, dirs) && AllResolve(accounts) && k < j <= |accounts|
    ensures DirsReady(accounts[..j], dirs) && DirsReady(accounts[..k], dirs)
    ensures |SyncAll(accounts[..j], sync, dirs).log| == j
    ensures AccountDir(accounts[k]).Some? && AccountDir(accounts[k]).value in dirs
    ensures SyncAll(accounts[..j], sync, dirs).log[k].pass ==
      sync(GetAccountClass(accounts[k].className).value, accounts[k].settings,
           SyncAll(accounts[..k], sync, dirs).dirs[AccountDir(accounts[k]).value])
    decreases j
  {
    var i := j - 1;
    SyncAllStep(accounts, i, sync, dirs);
    assert accounts[..i + 1] == accounts[..j];
    AllResolvePrefix(accounts, i);
    SyncAllVisitsAll(accounts[..i], sync, dirs);
    DirsOfAccount(accounts, i);
    DirsOfAccount(accounts, k);
    var prev := SyncAll(accounts[..i], sync, dirs);
    var e := accounts[i];
    var c := GetAccountClass(e.className).value;
    var pass := sync(c, e.settings, prev.dirs[AccountDir(e).value]);
    assert SyncAll(accounts[..j], sync, dirs).log == prev.log + [Attempt(e.className, SettingsPk(c, e.settings), pass)];
    if k < i {
      SyncAllPassUpTo(accounts, sync, dirs, k, i);
    } else {
      assert k == i;
    }
  }

  /** The first class name that does not resolve ends the run: exactly the accounts before it are
      attempted, and the rest are never reached. */
  lemma SyncAllStopsAtUnresolved(accounts: seq<AccountEntry>, j: nat, sync: Syncer,
                                 dirs: map<string, set<string>>)
    requires DirsReady(accounts, dirs)
    requires j < |accounts| && GetAccountClass(accounts[j].className).None?
    requires AllResolve(accounts[..j])
    ensures SyncAll(accounts, sync, dirs).crashed
    ensures |SyncAll(accounts, sync, dirs).log| == j
  {
    var prefix := accounts[..j + 1];
    DirsReadyPrefix(accounts, j + 1, dirs);
    DirsReadyPrefix(accounts, j, dirs);
    assert prefix[..j] == accounts[..j];
    SyncAllVisitsAll(accounts[..j], sync, dirs);
    assert prefix[j] == accounts[j];
    SyncAllCrashedStays(accounts, j + 1, sync, dirs);
  }

  /** A directory that is no account's directory is left exactly as it was. */
  lemma {:induction false} SyncAllLeavesOthers(accounts: seq<AccountEntry>, sync: Syncer,
                                               dirs: map<string, set<string>>, d: string)
    requires DirsReady(accounts, dirs) && d in dirs
    requires forall k :: 0 <= k < |accounts| ==> AccountDir(accounts[k]) != Some(d)
    ensures SyncAll(accounts, sync, dirs).dirs[d] == dirs[d]
    decreases |accounts|
  {
    DirsOnlyOfAccounts(accounts, d);
    if accounts != [] {
      var init := accounts[..|accounts| - 1];
      forall k | 0 <= k < |init| ensures AccountDir(init[k]) != Some(d) {
        assert init[k] == accounts[k];
      }
      SyncAllLeavesOthers(init, sync, dirs, d);
    }
  }

  class SuperDPF {
    const config: DPFConfigurator
    const photos: PhotoStore

    /** `SuperDPF()`: its configurator has come through start-up, so every class name resolved
        then. */
    constructor(config: DPFConfigurator, photos: PhotoStore)
      requires AllResolve(config.accounts)
      ensures this.config == config && this.photos == photos
    {
      this.config := config;
      this.photos := photos;
    }

    /** `SuperDPF.sync`: the attempts made, in order, and whether the loop crashed. */
    method Sync(w: World, verifyLocal: bool) returns (log: seq<Attempt>, crashed: bool)
      requires DirsReady(config.accounts, photos.dirs)
      modifies photos
      ensures Visit(log, photos.dirs, crashed) == SyncAll(config.accounts, SyncerOf(w, verifyLocal), old(photos.dirs))
    {
      var accounts := config.accounts;
      ghost var start := photos.dirs;
      log, crashed := [], false;
      var i := 0;
      while i < |accounts| && !crashed
        invariant 0 <= i <= |accounts|
        invariant DirsReady(accounts[..i], start)
        invariant Visit(log, photos.dirs, crashed) == SyncAll(accounts[..i], SyncerOf(w, verifyLocal), start)
      {
        var e := accounts[i];
        SyncAllStep(accounts, i, SyncerOf(w, verifyLocal), start);
        ghost var before := Visit(log, photos.dirs, crashed);
        var klass := GetAccountClass(e.className);
        if klass.None? {
          crashed := true;
        } else {
          var c := klass.value;
          var pk := SettingsPk(c, e.settings);
          var dir := Subdir(c, e.settings);
          assert AccountDir(e) == Some(dir);
          var pass := SyncAccount(photos, dir, c, e.settings, w, verifyLocal);
          assert pass == SyncerOf(w, verifyLocal)(c, e.settings, before.dirs[dir]);
          log := log + [Attempt(e.className, pk, pass)];
        }
        assert Visit(log, photos.dirs, crashed) == Visit1(before, e, SyncerOf(w, verifyLocal));
        i := i + 1;
      }
      if crashed {
        SyncAllCrashedStays(accounts, i, SyncerOf(w, verifyLocal), start);
      } else {
        assert accounts[..i] == accounts;
      }
    }
  }
}
