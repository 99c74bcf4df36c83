/** The notification-preferences hook: three switches, all on by default,
    read once from browser storage (the stored JSON object overlaid on the
    defaults) and written back after every change. Storage is a map from
    keys to strings; `parse` stands for `JSON.parse` followed by reading the
    boolean keys of the object (`None` when it throws) and `stringify` for
    `JSON.stringify`. */
module NotificationPreferences {
  import opened Common

  datatype Preferences = Preferences(newInspections: bool, inspectionUpdates: bool, highPriorityIssues: bool)

  datatype Key = NewInspections | InspectionUpdates | HighPriorityIssues

  const Defaults: Preferences := Preferences(true, true, true)

  const StorageKey: string := "notification-preferences"

  function Get(p: Preferences, key: Key): bool {
    match key
    case NewInspections => p.newInspections
    case InspectionUpdates => p.inspectionUpdates
    case HighPriorityIssues => p.highPriorityIssues
  }

  /** `{ ...prev, [key]: value }`. */
  function Set(p: Preferences, key: Key, value: bool): (q: Preferences)
    ensures Get(q, key) == value
    ensures forall k :: k != key ==> Get(q, k) == Get(p, k)
  {
    match key
    case NewInspections => p.(newInspections := value)
    case InspectionUpdates => p.(inspectionUpdates := value)
    case HighPriorityIssues => p.(highPriorityIssues := value)
  }

  /** `{ ...base, ...stored }` for the keys the stored object has. */
  function Overlay(base: Preferences, stored: map<Key, bool>): (p: Preferences)
    ensures forall k :: Get(p, k) == if k in stored then stored[k] else Get(base, k)
  {
    Preferences(
      if NewInspections in stored then stored[NewInspections] else base.newInspections,
      if InspectionUpdates in stored then stored[InspectionUpdates] else base.inspectionUpdates,
      if HighPriorityIssues in stored then stored[HighPriorityIssues] else base.highPriorityIssues)
  }

  /** The state initialiser: an absent or empty stored value, or one that
      does not parse, gives the defaults. */
  function InitialPreferences(storage: map<string, string>, parse: string -> Option<map<Key, bool>>): (p: Preferences)
    ensures StorageKey !in storage || storage[StorageKey] == "" ==> p == Defaults
    ensures StorageKey in storage && storage[StorageKey] != "" && parse(storage[StorageKey]).None? ==> p == Defaults
    ensures StorageKey in storage && storage[StorageKey] != "" && parse(storage[StorageKey]).Some? ==>
      forall k :: Get(p, k) == (var m := parse(storage[StorageKey]).value; if k in m then m[k] else true)
  {
    if StorageKey in storage && storage[StorageKey] != "" then
      match parse(storage[StorageKey])
      case Some(stored) => Overlay(Defaults, stored)
      case None => Defaults
    else Defaults
  }

  /** Every key with its value, as `JSON.stringify` writes them. */
  function AsMap(p: Preferences): map<Key, bool> {
    map[NewInspections := p.newInspections, InspectionUpdates := p.inspectionUpdates,
        HighPriorityIssues := p.highPriorityIssues]
  }

  /** The hook's state together with the browser storage it writes. */
  class PreferencesHook {
    var preferences: Preferences
    var storage: map<string, string>

    /** Mounting: initialise from storage, then the effect writes the
        preferences back. */
    constructor(storage0: map<string, string>, parse: string -> Option<map<Key, bool>>,
                stringify: Preferences -> string)
      ensures preferences == InitialPreferences(storage0, parse)
      ensures storage == storage0[StorageKey := stringify(preferences)]
    {
      preferences := InitialPreferences(storage0, parse);
      storage := storage0[StorageKey := stringify(InitialPreferences(storage0, parse))];
    }

    /** `updatePreference`, followed by the effect it triggers. */
    method UpdatePreference(key: Key, value: bool, stringify: Preferences -> string)
      modifies this
      ensures Get(preferences, key) == value
      ensures forall k :: k != key ==> Get(preferences, k) == Get(old(preferences), k)
      ensures storage == old(storage)[StorageKey := stringify(preferences)]
    {
      preferences := Set(preferences, key, value);
      storage := storage[StorageKey := stringify(preferences)];
    }
  }

  // ---------------------------------------------------------------------------
  // Properties

  /** Two preference records that agree on every key are equal. */
  lemma PreferencesExtensional(p: Preferences, q: Preferences)
    requires forall k :: Get(p, k) == Get(q, k)
    ensures p == q
  {
    assert Get(p, NewInspections) == Get(q, NewInspections);
    assert Get(p, InspectionUpdates) == Get(q, InspectionUpdates);
    assert Get(p, HighPriorityIssues) == Get(q, HighPriorityIssues);
  }

  /** A reload reads back what was written: when parsing inverts
      stringifying on the written value, the preferences after a reload are
      the ones stored. */
  lemma ReloadRestores(p: Preferences, storage: map<string, string>,
                       parse: string -> Option<map<Key, bool>>, stringify: Preferences -> string)
    requires stringify(p) != "" && parse(stringify(p)) == Some(AsMap(p))
    ensures InitialPreferences(storage[StorageKey := stringify(p)], parse) == p
  {
    var q := InitialPreferences(storage[StorageKey := stringify(p)], parse);
    PreferencesExtensional(q, p);
  }

  /** Updating a key to the value it already has changes nothing. */
  lemma UpdateSameValue(p: Preferences, key: Key)
    ensures Set(p, key, Get(p, key)) == p
  {
    PreferencesExtensional(Set(p, key, Get(p, key)), p);
  }
}
