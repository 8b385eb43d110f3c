/** The account classes, their settings tables, and the identity an account derives from its
    settings: the primary key `settings_pk` and the photo directory name `subdir`. */
module Accounts {
  import opened Common
  import opened Strings
  import opened Settings

  /** A Python class passed where an account class is expected. The three source classes are
      the supported ones; `OtherClass` is any other subclass of `BaseDPF` (the stub controllers,
      for instance), which inherits an empty settings table. */
  datatype AccountClass = AmazonS3Resource | GPhotoResource | UnsplashResource | OtherClass(name: string)

  /** `DPFConfigurator.ACCOUNT_TYPES`. */
  const AccountTypes: seq<AccountClass> := [AmazonS3Resource, GPhotoResource, UnsplashResource]

  /** `cls.__name__`. */
  function ClassName(c: AccountClass): string
  {
    match c
    case AmazonS3Resource => "AmazonS3Resource"
    case GPhotoResource => "GPhotoResource"
    case UnsplashResource => "UnsplashResource"
    case OtherClass(name) => name
  }

  /** `cls.REQUIRED_SETTINGS`. */
  function RequiredSettings(c: AccountClass): seq<SettingsItem>
  {
    match c
    case AmazonS3Resource =>
      [ SettingsItem("aws_access_key", "AWS Access Key", StrType, None, false),
        SettingsItem("aws_secret", "AWS Secret", StrType, None, false),
        SettingsItem("bucket", "Bucket containing *only* dpf pics", StrType, None, true) ]
    case GPhotoResource =>
      [ SettingsItem("feed_url", "Feed URL", StrType, None, false),
        SettingsItem("user_id", "Google Photos Username", StrType, None, true),
        SettingsItem("album_id", "Album ID", StrType, None, false) ]
    case UnsplashResource =>
      [ SettingsItem("preferred_res", "Preferred Resolution", StrType, Some("eg 1600x900"), false),
        SettingsItem("category", "Unsplash Category", StrType,
                     Some("choices: buildings, food, nature, people, technology, objects, none"), true) ]
    case OtherClass(_) => []
  }

  /** The names of the primary fields of a settings table, as a set. */
  function PrimaryNames(items: seq<SettingsItem>): set<string>
  {
    set it | it in items && it.primary :: it.name
  }

  /** `sorted({i.name for i in items if i.primary})`. */
  function SortedPrimaryNames(items: seq<SettingsItem>): (r: seq<string>)
    ensures StrictlySorted(r)
    ensures Elems(r) == PrimaryNames(items)
    decreases |items|
  {
    if items == [] then []
    else
      var init := items[..|items| - 1];
      var last := items[|items| - 1];
      var rest := SortedPrimaryNames(init);
      assert items == init + [last];
      assert PrimaryNames(items) == PrimaryNames(init) + (if last.primary then {last.name} else {});
      if last.primary then Insert(last.name, rest) else rest
  }

  /** The field names that make up the key of an account of class `c`, in sorted order. */
  function KeyFields(c: AccountClass): seq<string>
  {
    SortedPrimaryNames(RequiredSettings(c))
  }

  /** `[settings.get(n) for n in names]`. */
  function Lookup(settings: SettingsMap, names: seq<string>): (r: seq<Value>)
    ensures |r| == |names|
    ensures forall i :: 0 <= i < |names| ==> r[i] == Get(settings, names[i])
    decreases |names|
  {
    if names == [] then [] else [Get(settings, names[0])] + Lookup(settings, names[1..])
  }

  /** The key built from a class name and a settings table: the name, then one value per
      distinct primary field name, in sorted name order; an absent setting gives `None`. */
  function KeyOf(className: string, items: seq<SettingsItem>, settings: SettingsMap): (pk: seq<Value>)
    ensures |pk| == 1 + |SortedPrimaryNames(items)| == 1 + |PrimaryNames(items)|
    ensures pk[0] == Str(className)
    ensures forall i :: 1 <= i < |pk| ==> pk[i] == Get(settings, SortedPrimaryNames(items)[i - 1])
  {
    var keys := SortedPrimaryNames(items);
    SortedIsDistinct(keys);
    DistinctCard(keys);
    [Str(className)] + Lookup(settings, keys)
  }

  /** `cls.settings_pk(settings)`. */
  function SettingsPk(c: AccountClass, settings: SettingsMap): (pk: seq<Value>)
    ensures |pk| == 1 + |KeyFields(c)|
    ensures pk[0] == Str(ClassName(c))
  {
    KeyOf(ClassName(c), RequiredSettings(c), settings)
  }

  /** The key of an account: its class name, then the value of each primary field (`None` when
      absent) in sorted field-name order, one per distinct primary field name. */
  lemma SettingsPkShape(c: AccountClass, settings: SettingsMap)
    ensures var pk := SettingsPk(c, settings);
      && |pk| == 1 + |KeyFields(c)| == 1 + |PrimaryNames(RequiredSettings(c))|
      && pk[0] == Str(ClassName(c))
      && forall i :: 1 <= i < |pk| ==> pk[i] == Get(settings, KeyFields(c)[i - 1])
  {
  }

  function ShowAll(vs: seq<Value>): (r: seq<string>)
    ensures |r| == |vs|
    ensures forall i :: 0 <= i < |vs| ==> r[i] == Show(vs[i])
    decreases |vs|
  {
    if vs == [] then [] else [Show(vs[0])] + ShowAll(vs[1..])
  }

  /** The `subdir` property: the account's photo directory, `'_'.join(str(v) for v in pk)`. */
  function Subdir(c: AccountClass, settings: SettingsMap): (dir: string)
    ensures StartsWith(dir, ClassName(c))
  {
    Join(ShowAll(SettingsPk(c, settings)), "_")
  }

  /** Two settings dictionaries that agree on every primary field have the same key, hence the
      same photo directory, whatever their other fields hold. */
  lemma KeyDependsOnlyOnPrimary(c: AccountClass, s1: SettingsMap, s2: SettingsMap)
    requires forall n :: n in PrimaryNames(RequiredSettings(c)) ==> Get(s1, n) == Get(s2, n)
    ensures SettingsPk(c, s1) == SettingsPk(c, s2)
    ensures Subdir(c, s1) == Subdir(c, s2)
  {
    KeyOfDependsOnlyOnPrimary(ClassName(c), RequiredSettings(c), s1, s2);
  }

  lemma KeyOfDependsOnlyOnPrimary(className: string, items: seq<SettingsItem>, s1: SettingsMap, s2: SettingsMap)
    requires forall n :: n in PrimaryNames(items) ==> Get(s1, n) == Get(s2, n)
    ensures KeyOf(className, items, s1) == KeyOf(className, items, s2)
  {
    var keys := SortedPrimaryNames(items);
    var pk1, pk2 := KeyOf(className, items, s1), KeyOf(className, items, s2);
    forall i | 1 <= i < |pk1| ensures pk1[i] == pk2[i] {
      assert keys[i - 1] in Elems(keys);
    }
  }

  /** The single primary field of each supported account class. */
  function KeyField(c: AccountClass): string
    requires c in AccountTypes
  {
    match c
    case AmazonS3Resource => "bucket"
    case GPhotoResource => "user_id"
    case UnsplashResource => "category"
  }

  /** Each supported class has exactly one key field: `bucket`, `user_id` or `category`. */
  lemma KeyFieldsOfAccountTypes(c: AccountClass)
    requires c in AccountTypes
    ensures KeyFields(c) == [KeyField(c)]
  {
    var items := RequiredSettings(c);
    assert PrimaryNames(items) == {KeyField(c)} by {
      assert items[|items| - 1].primary || items[1].primary;
      forall it | it in items && it.primary ensures it.name == KeyField(c) {
        var k :| 0 <= k < |items| && items[k] == it;
      }
    }
    assert Elems([KeyField(c)]) == {KeyField(c)};
    SortedUnique(KeyFields(c), [KeyField(c)]);
  }

  /** A supported account's directory is its class name, '_', and `str` of its key field. */
  lemma SubdirOfAccountType(c: AccountClass, settings: SettingsMap)
    requires c in AccountTypes
    ensures Subdir(c, settings) == ClassName(c) + "_" + Show(Get(settings, KeyField(c)))
  {
    KeyFieldsOfAccountTypes(c);
    SettingsPkShape(c, settings);
    var parts := ShowAll(SettingsPk(c, settings));
    assert parts == [ClassName(c), Show(Get(settings, KeyField(c)))];
    assert parts[1..] == [Show(Get(settings, KeyField(c)))];
    assert Join(parts, "_") == parts[0] + "_" + Join(parts[1..], "_");
  }

  /** Two accounts of one supported class share a directory exactly when `str` of their key
      fields agree. */
  lemma SubdirIdentity(c: AccountClass, s1: SettingsMap, s2: SettingsMap)
    requires c in AccountTypes
    ensures Subdir(c, s1) == Subdir(c, s2) <==> Show(Get(s1, KeyField(c))) == Show(Get(s2, KeyField(c)))
  {
    SubdirOfAccountType(c, s1);
    SubdirOfAccountType(c, s2);
    var prefix := ClassName(c) + "_";
    if Subdir(c, s1) == Subdir(c, s2) {
      assert Subdir(c, s1)[|prefix|..] == Show(Get(s1, KeyField(c)));
      assert Subdir(c, s2)[|prefix|..] == Show(Get(s2, KeyField(c)));
    }
  }

  /** Accounts of two different supported classes never share a directory. */
  lemma SubdirSeparatesClasses(c1: AccountClass, c2: AccountClass, s1: SettingsMap, s2: SettingsMap)
    requires c1 in AccountTypes && c2 in AccountTypes && c1 != c2
    ensures Subdir(c1, s1) != Subdir(c2, s2)
  {
    ClassNamesDiffer(c1, c2);
    PrefixesSeparate(Subdir(c1, s1), Subdir(c2, s2), ClassName(c1), ClassName(c2));
  }

  /** The supported class names already differ in their first letter. */
  lemma ClassNamesDiffer(c1: AccountClass, c2: AccountClass)
    requires c1 in AccountTypes && c2 in AccountTypes && c1 != c2
    ensures |ClassName(c1)| > 0 && |ClassName(c2)| > 0 && ClassName(c1)[0] != ClassName(c2)[0]
  {
  }

  lemma PrefixesSeparate(d1: string, d2: string, n1: string, n2: string)
    requires StartsWith(d1, n1) && StartsWith(d2, n2)
    requires |n1| > 0 && |n2| > 0 && n1[0] != n2[0]
    ensures d1 != d2
  {
    assert d1[0] == d1[..|n1|][0] && d2[0] == d2[..|n2|][0];
  }

  /** `get_account_class(name)`: the supported class of that name, or `None`. */
  function GetAccountClass(name: string): (r: Option<AccountClass>)
    ensures r.Some? ==> r.value in AccountTypes && ClassName(r.value) == name
    ensures r.None? ==> forall c :: c in AccountTypes ==> ClassName(c) != name
  {
    if name == "AmazonS3Resource" then Some(AmazonS3Resource)
    else if name == "GPhotoResource" then Some(GPhotoResource)
    else if name == "UnsplashResource" then Some(UnsplashResource)
    else None
  }

  /** The name stored for a supported class resolves back to that class. */
  lemma ResolveClassName(c: AccountClass)
    requires c in AccountTypes
    ensures GetAccountClass(ClassName(c)) == Some(c)
  {
  }
}
