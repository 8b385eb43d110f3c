/** Setting values and the `SettingsItem` schema entry: its help text and the coercion
    `value_dialog` applies to what the user types. */
module Settings {
  import opened Common
  import opened Decimal

  /** A value held in an account's settings dictionary: a string, an integer or Python's `None`. */
  datatype Value = Str(s: string) | Int(i: int) | Nothing

  /** An account's settings dictionary. */
  type SettingsMap = map<string, Value>

  /** `settings.get(name)`: `None` for an absent key. */
  function Get(settings: SettingsMap, name: string): Value
  {
    if name in settings then settings[name] else Nothing
  }

  /** Python's `str(v)`. */
  function Show(v: Value): string
  {
    match v
    case Str(s) => s
    case Int(i) => IntToString(i)
    case Nothing => "None"
  }

  /** Python truthiness: the empty string, zero and `None` are false. */
  predicate Truthy(v: Value)
  {
    match v
    case Str(s) => s != ""
    case Int(i) => i != 0
    case Nothing => false
  }

  /** The declared type of a setting: `str` (or another string class), `int`, or anything else. */
  datatype ValueType = StrType | IntType | OtherType

  /** One configurable parameter of an account class; `primary` marks a field of the account's key. */
  datatype SettingsItem = SettingsItem(name: string, title: string, valueType: ValueType,
                                       helpText: Option<string>, primary: bool)

  /** The help text shown for an item: its own text when that is non-empty, else its title. */
  function Help(item: SettingsItem): (r: string)
    ensures item.helpText.Some? && item.helpText.value != "" ==> r == item.helpText.value
    ensures item.helpText.None? || item.helpText.value == "" ==> r == item.title
  {
    if item.helpText.Some? && item.helpText.value != "" then item.helpText.value else item.title
  }

  /** What `value_dialog` returns: a value, or the `ValueError`/`TypeError` that `int()` raises. */
  datatype Entry = Accepted(value: Value) | InvalidSettingValue

  /** Python's `int(v)` applied to a setting value. */
  function IntOf(v: Value): Entry
  {
    match v
    case Str(s) => (match ParseInt(s) case Some(n) => Accepted(Int(n)) case None => InvalidSettingValue)
    case Int(i) => Accepted(Int(i))
    case Nothing => InvalidSettingValue
  }

  /** The value the dialog settles on before coercion: with a truthy previous value, an empty answer keeps it. */
  function Answer(previous: Value, input: string): Value
  {
    if Truthy(previous) && input == "" then previous else Str(input)
  }

  /** The coercion part of `value_dialog`, with the line the user typed as `input`. */
  function Coerce(item: SettingsItem, previous: Value, input: string): (r: Entry)
    ensures item.valueType != IntType ==> r.Accepted?
    ensures item.valueType == IntType && r.Accepted? ==> r.value.Int?
    ensures item.valueType == OtherType ==> r.value == Nothing
  {
    match item.valueType
    case StrType => Accepted(Answer(previous, input))
    case IntType => IntOf(Answer(previous, input))
    case OtherType => Accepted(Nothing)
  }

  /** A string setting returns what was typed, unchanged; an empty answer keeps a truthy previous value
      and otherwise yields the empty string. */
  lemma CoerceString(item: SettingsItem, previous: Value, input: string)
    requires item.valueType == StrType
    ensures input != "" ==> Coerce(item, previous, input) == Accepted(Str(input))
    ensures input == "" && Truthy(previous) ==> Coerce(item, previous, input) == Accepted(previous)
    ensures input == "" && !Truthy(previous) ==> Coerce(item, previous, input) == Accepted(Str(""))
  {
  }

  /** An integer setting accepts the decimal form of every integer and yields that integer. */
  lemma CoerceIntRoundTrip(item: SettingsItem, previous: Value, n: int)
    requires item.valueType == IntType
    ensures Coerce(item, previous, IntToString(n)) == Accepted(Int(n))
  {
    ParseIntRoundTrip(n);
    assert IntToString(n) != "";
  }

  /** An integer setting keeps its previous value on an empty answer, and rejects an empty answer
      when there is nothing to keep. */
  lemma CoerceIntEmpty(item: SettingsItem, previous: Value)
    requires item.valueType == IntType
    ensures previous.Int? && previous.i != 0 ==> Coerce(item, previous, "") == Accepted(previous)
    ensures !Truthy(previous) ==> Coerce(item, previous, "") == InvalidSettingValue
  {
    assert ParseInt("") == None;
  }

  /** An integer setting rejects an answer holding no digit. */
  lemma CoerceIntNeedsDigit(item: SettingsItem, previous: Value, input: string)
    requires item.valueType == IntType && input != ""
    requires forall k :: 0 <= k < |input| ==> !IsDigit(input[k])
    ensures Coerce(item, previous, input) == InvalidSettingValue
  {
    StripKeepsNoDigit(input);
  }

  lemma {:induction false} StripKeepsNoDigit(s: string)
    requires forall k :: 0 <= k < |s| ==> !IsDigit(s[k])
    ensures ParseInt(s) == None
  {
    var t := StripRight(StripLeft(s));
    StripIsInfix(s);
    if |t| > 0 {
      var c := t[|t| - 1];
      assert c in t;
      var k :| 0 <= k < |s| && s[k] == c;
      assert !IsDigit(c);
      var digits := StripLeft(t[1..]);
      StripLeftSuffix(t[1..]);
      if |digits| > 0 {
        var d := digits[0];
        assert d in t[1..];
        assert d in t;
        var j :| 0 <= j < |s| && s[j] == d;
        assert !IsDigit(d);
      }
    }
  }

  lemma {:induction false} StripIsInfix(s: string)
    ensures forall c :: c in StripRight(StripLeft(s)) ==> c in s
  {
    StripLeftSuffix(s);
    StripRightPrefix(StripLeft(s));
  }

  lemma {:induction false} StripLeftSuffix(s: string)
    ensures forall c :: c in StripLeft(s) ==> c in s
    decreases |s|
  {
    if s != [] && IsSpace(s[0]) {
      StripLeftSuffix(s[1..]);
    }
  }

  lemma {:induction false} StripRightPrefix(s: string)
    ensures forall c :: c in StripRight(s) ==> c in s
    decreases |s|
  {
    if s != [] && IsSpace(s[|s| - 1]) {
      StripRightPrefix(s[..|s| - 1]);
    }
  }
}
