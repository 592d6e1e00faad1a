/**
 * The user-settings page: a list of setting entries, some shown as text
 * inputs and some as toggles. The handlers copy the list shallowly and write
 * the `value` of the entry object at an index, so the entry objects themselves
 * are updated in place.
 */
module Settings {

  /** A setting's value: `string | boolean`. */
  datatype SettingValue = Text(s: string) | Flag(b: bool)

  /** How the page renders the entry. */
  datatype Kind = TextInput | Toggle

  /** JavaScript truthiness of a setting value: a non-empty string or `true`. */
  predicate Truthy(v: SettingValue) {
    match v
    case Text(s) => s != ""
    case Flag(b) => b
  }

  /** `!value`: always a boolean, the negated truthiness. */
  function Negate(v: SettingValue): SettingValue {
    Flag(!Truthy(v))
  }

  /** The list of values after a toggle at `index`. */
  function ToggleAt(values: seq<SettingValue>, index: nat): (r: seq<SettingValue>)
    requires index < |values|
    ensures |r| == |values|
    ensures r[index].Flag? && r[index].b == !Truthy(values[index])
    ensures forall j :: 0 <= j < |values| && j != index ==> r[j] == values[j]
  {
    values[index := Negate(values[index])]
  }

  /** The list of values after typing `input` into the text entry at `index`. */
  function EditAt(values: seq<SettingValue>, index: nat, input: string): (r: seq<SettingValue>)
    requires index < |values|
    ensures |r| == |values| && r[index] == Text(input)
    ensures forall j :: 0 <= j < |values| && j != index ==> r[j] == values[j]
  {
    values[index := Text(input)]
  }

  class Setting {
    /** `label` on the page: the translation key passed to the translation function, which is not modelled. */
    const labelKey: string
    const key: string
    const kind: Kind
    var value: SettingValue

    constructor (labelKey: string, key: string, kind: Kind, value: SettingValue)
      ensures this.labelKey == labelKey && this.key == key && this.kind == kind && this.value == value
    {
      this.labelKey := labelKey;
      this.key := key;
      this.kind := kind;
      this.value := value;
    }
  }

  function ValuesOf(es: seq<Setting>): (r: seq<SettingValue>)
    reads es
    ensures |r| == |es| && forall i :: 0 <= i < |es| ==> r[i] == es[i].value
  {
    if es == [] then [] else [es[0].value] + ValuesOf(es[1..])
  }

  function KeysOf(es: seq<Setting>): (r: seq<string>)
    ensures |r| == |es| && forall i :: 0 <= i < |es| ==> r[i] == es[i].key
  {
    if es == [] then [] else [es[0].key] + KeysOf(es[1..])
  }

  lemma ValuesOfFive(es: seq<Setting>)
    requires |es| == 5
    ensures ValuesOf(es) == [es[0].value, es[1].value, es[2].value, es[3].value, es[4].value]
  {
    var vs := ValuesOf(es);
    assert vs[0] == es[0].value && vs[1] == es[1].value && vs[2] == es[2].value;
    assert vs[3] == es[3].value && vs[4] == es[4].value;
  }

  lemma KeysOfFive(es: seq<Setting>)
    requires |es| == 5
    ensures KeysOf(es) == [es[0].key, es[1].key, es[2].key, es[3].key, es[4].key]
  {
    var ks := KeysOf(es);
    assert ks[0] == es[0].key && ks[1] == es[1].key && ks[2] == es[2].key;
    assert ks[3] == es[3].key && ks[4] == es[4].key;
  }

  /** Five pairwise different objects, as a list with no repeated object. */
  lemma DistinctFive(es: seq<Setting>)
    requires |es| == 5
    requires es[0] != es[1] && es[0] != es[2] && es[0] != es[3] && es[0] != es[4]
    requires es[1] != es[2] && es[1] != es[3] && es[1] != es[4]
    requires es[2] != es[3] && es[2] != es[4] && es[3] != es[4]
    ensures forall i, j :: 0 <= i < j < |es| ==> es[i] != es[j]
  {
  }

  const INITIAL_KEYS: seq<string> := ["username", "email", "notifications", "darkMode", "language"]

  const INITIAL_VALUES: seq<SettingValue> :=
    [Text("GG_developer"), Text("gg.developer.full@gmail.com"), Flag(true), Flag(false), Text("es")]

  /** The five entry objects the page's state starts with, each a new object. */
  method InitialEntries() returns (es: seq<Setting>)
    ensures fresh(es)
    ensures forall i, j :: 0 <= i < j < |es| ==> es[i] != es[j]
    ensures KeysOf(es) == INITIAL_KEYS
    ensures |es| == 5
    ensures es[0].value == INITIAL_VALUES[0] && es[1].value == INITIAL_VALUES[1] && es[2].value == INITIAL_VALUES[2]
    ensures es[3].value == INITIAL_VALUES[3] && es[4].value == INITIAL_VALUES[4]
  {
    var username := new Setting("username", "username", TextInput, INITIAL_VALUES[0]);
    var email := new Setting("email", "email", TextInput, INITIAL_VALUES[1]);
    var notifications := new Setting("notifications", "notifications", Toggle, INITIAL_VALUES[2]);
    var dark := new Setting("darkMode", "darkMode", Toggle, INITIAL_VALUES[3]);
    var language := new Setting("language", "language", TextInput, INITIAL_VALUES[4]);
    es := [username, email, notifications, dark, language];
    DistinctFive(es);
    KeysOfFive(es);
  }

  class SettingsPage {
    var entries: seq<Setting>
    /** The global store's dark-mode flag, which the darkMode row dispatches to. */
    var isDarkMode: bool

    /** Every index holds its own entry object, so writing one entry leaves the others alone. */
    ghost predicate Valid()
      reads this
    {
      forall i, j :: 0 <= i < j < |entries| ==> entries[i] != entries[j]
    }

    function Values(): seq<SettingValue>
      reads this, entries
    {
      ValuesOf(entries)
    }

    /** The page's initial list; `darkMode` is the store's flag at mount. */
    constructor (darkMode: bool)
      ensures Valid() && fresh(entries)
      ensures KeysOf(entries) == INITIAL_KEYS
      ensures Values() == INITIAL_VALUES
      ensures isDarkMode == darkMode
    {
      var es := InitialEntries();
      ValuesOfFive(es);
      entries := es;
      isDarkMode := darkMode;
    }

    /** handleToggleChange: the entry at `index` gets the negation of its value, in place. */
    method HandleToggleChange(index: nat)
      requires Valid() && index < |entries|
      modifies entries[index]
      ensures Valid() && entries == old(entries)
      ensures Values() == ToggleAt(old(Values()), index)
    {
      entries[index].value := Negate(entries[index].value);
      assert forall j :: 0 <= j < |entries| && j != index ==> entries[j] != entries[index];
    }

    /** The text input's onChange: the entry at `index` gets the typed string, in place. */
    method EditText(index: nat, input: string)
      requires Valid() && index < |entries|
      modifies entries[index]
      ensures Valid() && entries == old(entries)
      ensures Values() == EditAt(old(Values()), index, input)
    {
      entries[index].value := Text(input);
      assert forall j :: 0 <= j < |entries| && j != index ==> entries[j] != entries[index];
    }

    /** A toggle row's onChange: the darkMode row flips the store's flag; any other row toggles its entry. */
    method OnToggleRow(index: nat)
      requires Valid() && index < |entries|
      modifies this`isDarkMode, entries[index]
      ensures Valid() && entries == old(entries)
      ensures entries[index].key == "darkMode" ==> Values() == old(Values()) && isDarkMode == !old(isDarkMode)
      ensures entries[index].key != "darkMode" ==> Values() == ToggleAt(old(Values()), index) && isDarkMode == old(isDarkMode)
    {
      if entries[index].key == "darkMode" {
        isDarkMode := !isDarkMode;
      } else {
        HandleToggleChange(index);
      }
    }
  }

  // ---------------------------------------------------------------------------
  // Properties

  /** Toggling the same boolean entry twice restores the list. */
  lemma ToggleAtTwice(values: seq<SettingValue>, index: nat)
    requires index < |values| && values[index].Flag?
    ensures ToggleAt(ToggleAt(values, index), index) == values
  {
  }

  /** On a text entry the toggle does not give back the text: it stores whether the text was empty. */
  lemma ToggleOnText(values: seq<SettingValue>, index: nat)
    requires index < |values| && values[index].Text?
    ensures ToggleAt(values, index)[index] == Flag(values[index].s == "")
  {
  }

  /** The initial keys are pairwise distinct. */
  lemma InitialKeysDistinct()
    ensures forall i, j :: 0 <= i < j < |INITIAL_KEYS| ==> INITIAL_KEYS[i] != INITIAL_KEYS[j]
  {
  }
}
