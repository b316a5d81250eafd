/** The settings key state (src/hooks/useApiKeys.ts): a record of keys held by
    the hook and persisted as JSON in the browser storage entry
    "mood-wallpaper-api-keys". */
module ApiKeys {
  import opened Wrappers
  import opened Text

  const STORAGE_KEY: string := "mood-wallpaper-api-keys"
  const UNSPLASH_KEY: string := "unsplashKey"
  const OPENAI_KEY: string := "openaiKey"

  /** The key record as a JavaScript object: field name to string value. The
      state starts with two fields, and a parsed record has whatever fields the
      stored text had. */
  type KeyRecord = map<string, string>

  /** The initial state `{ unsplashKey: '', openaiKey: '' }`. */
  const DEFAULT_KEYS: KeyRecord := map[UNSPLASH_KEY := "", OPENAI_KEY := ""]

  /** `Boolean(apiKeys[name].trim())`: `None` when the field is absent, because
      `trim` is then called on `undefined` and throws; otherwise whether the key
      holds anything besides whitespace. */
  function HasKeyIn(keys: KeyRecord, name: string): (r: Option<bool>)
    ensures r.Some? <==> name in keys
    ensures r.Some? ==> (r.value <==> !IsBlank(keys[name]))
  {
    if name in keys then Some(Truthy(Trim(keys[name]))) else None
  }

  /** A key counts as present exactly when the quote hook would use it. */
  lemma HasKeyIsUsableKey(keys: KeyRecord, name: string)
    requires name in keys
    ensures HasKeyIn(keys, name) == Some(HasUsableKey(Some(keys[name])))
  {
    UsableKeyIsNotBlank(Some(keys[name]));
  }

  /** The defaults hold both fields, and neither counts as a key. */
  lemma DefaultsHaveNoKeys()
    ensures HasKeyIn(DEFAULT_KEYS, UNSPLASH_KEY) == Some(false)
    ensures HasKeyIn(DEFAULT_KEYS, OPENAI_KEY) == Some(false)
  {
  }

  /** A key of spaces only does not count; one with text around spaces does. */
  lemma WhitespaceIsNoKey(keys: KeyRecord, name: string, n: nat)
    requires name in keys
    ensures HasKeyIn(keys[name := seq(n, _ => ' ')], name) == Some(false)
    ensures HasKeyIn(keys[name := " k "], name) == Some(true)
  {
    assert !IsJsSpace(" k "[1]);
  }

  /** The state of one `useApiKeys()` hook, next to the storage entry it uses:
      `stored` is what a read of "mood-wallpaper-api-keys" finds. */
  class ApiKeysHook {
    var apiKeys: KeyRecord
    var stored: Slot<KeyRecord>

    /** The first render: the defaults, whatever the storage holds. */
    constructor (stored: Slot<KeyRecord>)
      ensures apiKeys == DEFAULT_KEYS
      ensures this.stored == stored
    {
      apiKeys := DEFAULT_KEYS;
      this.stored := stored;
    }

    /** The mount effect: a stored record that parses replaces the whole state,
        with nothing merged over the defaults; an absent entry or one that does
        not parse leaves the state as it was. */
    method Mount()
      modifies this
      ensures old(stored).Holds? ==> apiKeys == old(stored).value
      ensures !old(stored).Holds? ==> apiKeys == old(apiKeys)
      ensures old(apiKeys) == DEFAULT_KEYS ==> apiKeys == Loaded(stored)
      ensures stored == old(stored)
    {
      match stored {
        case Holds(keys) => apiKeys := keys;
        case Empty =>
        case Unparsable =>
      }
    }

    /** `saveApiKeys(keys)`: the state becomes exactly `keys` and so does the
        stored entry, so a later mount reads the same record back. */
    method SaveApiKeys(keys: KeyRecord)
      modifies this
      ensures apiKeys == keys
      ensures stored == Holds(keys)
    {
      apiKeys := keys;
      stored := Holds(keys);
    }

    /** `clearApiKeys()`: the defaults again, and the entry removed, so a later
        mount keeps the defaults. */
    method ClearApiKeys()
      modifies this
      ensures apiKeys == DEFAULT_KEYS
      ensures stored == Empty
    {
      apiKeys := DEFAULT_KEYS;
      stored := Empty;
    }

    /** `hasUnsplashKey`. */
    function HasUnsplashKey(): (r: Option<bool>)
      reads this
      ensures r.Some? <==> UNSPLASH_KEY in apiKeys
      ensures r.Some? ==> (r.value <==> !IsBlank(apiKeys[UNSPLASH_KEY]))
    {
      HasKeyIn(apiKeys, UNSPLASH_KEY)
    }

    /** `hasOpenaiKey`. */
    function HasOpenaiKey(): (r: Option<bool>)
      reads this
      ensures r.Some? <==> OPENAI_KEY in apiKeys
      ensures r.Some? ==> (r.value <==> !IsBlank(apiKeys[OPENAI_KEY]))
    {
      HasKeyIn(apiKeys, OPENAI_KEY)
    }
  }

  /** What a fresh hook holds after its mount effect, for a storage entry. */
  function Loaded(stored: Slot<KeyRecord>): (keys: KeyRecord)
    ensures stored.Holds? ==> keys == stored.value
    ensures !stored.Holds? ==> keys == DEFAULT_KEYS
  {
    if stored.Holds? then stored.value else DEFAULT_KEYS
  }

  /** Saving and then remounting gives back the saved record; clearing and then
      remounting gives the defaults, with no key present. */
  lemma SaveAndClearSurviveReload(keys: KeyRecord)
    ensures Loaded(Holds(keys)) == keys
    ensures Loaded(Empty) == DEFAULT_KEYS
    ensures HasKeyIn(Loaded(Empty), UNSPLASH_KEY) == Some(false)
    ensures HasKeyIn(Loaded(Empty), OPENAI_KEY) == Some(false)
  {
    DefaultsHaveNoKeys();
  }
}
