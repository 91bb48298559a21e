/** The settings store `save_config` writes to, and what it writes. */
module Settings {

  import opened PyValues

  /** A `QSettings` object: the values set so far, and what `sync()` has
      written to the configuration file. */
  class Store {
    var values: map<string, Value>
    var persisted: map<string, Value>

    /** A store opened on a configuration file holding `saved`. */
    constructor (saved: map<string, Value>)
      ensures values == saved && persisted == saved
    {
      values := saved;
      persisted := saved;
    }

    /** `settings.setValue(key, value)`. */
    method SetValue(key: string, value: Value)
      modifies this
      ensures values == old(values)[key := value]
      ensures persisted == old(persisted)
    {
      values := values[key := value];
    }

    /** `settings.sync()`. */
    method Sync()
      modifies this
      ensures persisted == values
      ensures values == old(values)
    {
      persisted := values;
    }
  }

  /** The entries of `device` among `keys` that differ from the defaults
      (a key the device lacks counts as None). */
  function NonDefaultOn(device: Fields, defaults: Fields, keys: set<string>): (r: map<string, Value>)
    ensures r.Keys <= keys * defaults.Keys
    ensures forall k :: k in keys && k in defaults ==> (k in r <==> Get(device, k) != defaults[k])
    ensures forall k :: k in r ==> r[k] == Get(device, k)
  {
    map k | k in keys && k in defaults && Get(device, k) != defaults[k] :: Get(device, k)
  }

  /** Looking at one more default key writes that key's device value on top
      of what was written before, when it differs from its default. */
  lemma NonDefaultOnAdd(before: map<string, Value>, device: Fields, defaults: Fields, done: set<string>, key: string)
    requires key in defaults && key !in done
    ensures before + NonDefaultOn(device, defaults, done + {key}) ==
              if Get(device, key) != defaults[key] then (before + NonDefaultOn(device, defaults, done))[key := Get(device, key)]
              else before + NonDefaultOn(device, defaults, done)
  {
    var now := NonDefaultOn(device, defaults, done + {key});
    var was := NonDefaultOn(device, defaults, done);
    if Get(device, key) != defaults[key] {
      assert now == was[key := Get(device, key)];
    } else {
      assert now == was;
    }
  }

  /** What `save_config` writes: every key of the defaults whose device value differs. */
  function NonDefault(device: Fields, defaults: Fields): map<string, Value> {
    NonDefaultOn(device, defaults, defaults.Keys)
  }

  /** `settings.value(key, default)` on the store: the stored value, or the default. */
  function ReadBack(stored: map<string, Value>, defaults: Fields, key: string): (r: Value)
    requires key in defaults
    ensures key in stored ==> r == stored[key]
    ensures key !in stored ==> r == defaults[key]
  {
    if key in stored then stored[key] else defaults[key]
  }

  /** Saving then reading every default key back with its default gives the
      device's values: writing only the differences loses nothing, as long
      as the store held no stale value for a default key. */
  lemma SaveThenRead(before: map<string, Value>, device: Fields, defaults: Fields)
    requires forall k :: k in defaults && k in before ==> before[k] == defaults[k]
    ensures forall k :: k in defaults ==> ReadBack(before + NonDefault(device, defaults), defaults, k) == Get(device, k)
  {
    var after := before + NonDefault(device, defaults);
    forall k | k in defaults ensures ReadBack(after, defaults, k) == Get(device, k) {
      if k in NonDefault(device, defaults) {
        assert after[k] == Get(device, k);
      }
    }
  }

  /** The converse of `SaveThenRead`'s condition: a key whose device value
      equals its default is not written, so a different value already in
      the store survives the save and is what reads back. */
  lemma SaveKeepsStale(before: map<string, Value>, device: Fields, defaults: Fields, key: string)
    requires key in defaults && key in before && Get(device, key) == defaults[key]
    ensures ReadBack(before + NonDefault(device, defaults), defaults, key) == before[key]
  {
  }

  /** A device equal to the defaults on every default key writes nothing. */
  lemma DefaultsWriteNothing(device: Fields, defaults: Fields)
    requires forall k :: k in defaults ==> k in device && device[k] == defaults[k]
    ensures NonDefault(device, defaults) == map[]
  {
    assert NonDefault(device, defaults).Keys == {};
  }
}
