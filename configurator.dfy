/** The account registry of `DPFConfigurator`: the list of `(class name, settings)` entries that
    `add_account` appends to and `replace_account` overwrites. */
module Configurator {
  import opened Common
  import opened Settings
  import opened Accounts

  /** One entry of the `accounts` list: a class name and that account's settings. */
  datatype AccountEntry = AccountEntry(className: string, settings: SettingsMap)

  /** How a registry update ends: done, refused because the class is not in `ACCOUNT_TYPES`
      (a message is printed and nothing changes), or the `IndexError` of an out-of-range index. */
  datatype Status = Done | UnsupportedAccountType | IndexOutOfRange

  /** Every entry names a class that `get_account_class` resolves. */
  predicate AllResolve(accounts: seq<AccountEntry>)
  {
    forall k :: 0 <= k < |accounts| ==> GetAccountClass(accounts[k].className).Some?
  }

  /** Every prefix of a fully resolving list resolves. */
  lemma AllResolvePrefix(accounts: seq<AccountEntry>, n: nat)
    requires n <= |accounts| && AllResolve(accounts)
    ensures AllResolve(accounts[..n])
  {
    forall j | 0 <= j < n ensures accounts[..n][j] == accounts[j] { }
  }

  /** The position a Python list index denotes in a list of length `n`: negative indices count
      from the end; anything else out of range is an `IndexError` (`None`). */
  function Slot(index: int, n: nat): (r: Option<nat>)
    ensures r.Some? <==> 0 <= index + n && index < n
    ensures r.Some? ==> r.value < n && (r.value == index || r.value == index + n)
  {
    if 0 <= index < n then Some(index)
    else if 0 <= index + n && index < 0 then Some(index + n)
    else None
  }

  class DPFConfigurator {
    /** `config_dict['accounts']`. */
    var accounts: seq<AccountEntry>

    /** A configurator over the accounts read from the configuration file. Start-up builds each
        account's directory from `klass(settings).subdir`; with a class name that does not
        resolve, `klass` is `None` and that call raises `TypeError`, so no configurator exists. */
    constructor(accounts: seq<AccountEntry>)
      requires AllResolve(accounts)
      ensures this.accounts == accounts
    {
      this.accounts := accounts;
    }

    /** `add_account`: append one entry for a supported class; refuse any other class. */
    method AddAccount(klass: AccountClass, settings: SettingsMap) returns (status: Status)
      modifies this
      ensures klass in AccountTypes ==> status == Done && accounts == old(accounts) + [AccountEntry(ClassName(klass), settings)]
      ensures klass !in AccountTypes ==> status == UnsupportedAccountType && accounts == old(accounts)
      ensures old(AllResolve(accounts)) ==> AllResolve(accounts)
    {
      if klass !in AccountTypes {
        return UnsupportedAccountType;
      }
      ResolveClassName(klass);
      accounts := accounts + [AccountEntry(ClassName(klass), settings)];
      status := Done;
    }

    /** `replace_account`: overwrite the entry at `index` (Python indexing) for a supported class;
        the list keeps its length and every other entry. */
    method ReplaceAccount(klass: AccountClass, settings: SettingsMap, index: int) returns (status: Status)
      modifies this
      ensures klass !in AccountTypes ==> status == UnsupportedAccountType && accounts == old(accounts)
      ensures klass in AccountTypes && Slot(index, |old(accounts)|).None? ==>
        status == IndexOutOfRange && accounts == old(accounts)
      ensures klass in AccountTypes && Slot(index, |old(accounts)|).Some? ==>
        var k := Slot(index, |old(accounts)|).value;
        status == Done && accounts == old(accounts)[k := AccountEntry(ClassName(klass), settings)]
      ensures |accounts| == |old(accounts)|
      ensures forall j :: 0 <= j < |accounts| && Slot(index, |accounts|) != Some(j) ==> accounts[j] == old(accounts)[j]
      ensures old(AllResolve(accounts)) ==> AllResolve(accounts)
    {
      if klass !in AccountTypes {
        return UnsupportedAccountType;
      }
      var slot := Slot(index, |accounts|);
      if slot.None? {
        return IndexOutOfRange;
      }
      ResolveClassName(klass);
      accounts := accounts[slot.value := AccountEntry(ClassName(klass), settings)];
      status := Done;
    }
  }
}
