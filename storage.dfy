/** The browser's `localStorage` as the core uses it: string keys holding JSON account records. */
module Storage {
  import opened Wrappers
  import opened Types

  /**
   * What a stored value is, as the core's reads see it:
   * - `Record`: the JSON of an object, read as an account (a missing string field
   *   reads as the empty string);
   * - `Blank`: the empty string, which is falsy, so every read treats it like a
   *   missing key;
   * - `Scalar`: the JSON of a number, string or boolean: it parses, each field reads
   *   as `undefined`, and assigning a field throws (module code is strict);
   * - `Malformed`: text on which `JSON.parse` throws, or `null`, on which reading a
   *   field throws.
   */
  datatype Entry = Record(user: User) | Blank | Scalar | Malformed

  class Store {
    var entries: map<string, Entry>

    constructor (init: map<string, Entry>)
      ensures entries == init
    {
      entries := init;
    }

    /** `getItem`: the value under `key`, or none. */
    function GetItem(key: string): Option<Entry>
      reads this
    {
      if key in entries then Some(entries[key]) else None
    }

    /** `setItem`: `key` now holds `e`; every other key is unchanged. */
    method SetItem(key: string, e: Entry)
      modifies this
      ensures entries == old(entries)[key := e]
    {
      entries := entries[key := e];
    }

    /** `removeItem`: `key` is gone; every other key is unchanged. */
    method RemoveItem(key: string)
      modifies this
      ensures entries == old(entries) - {key}
    {
      entries := entries - {key};
    }
  }
}
