/** The browser's `localStorage`: one string-keyed store shared by the progress
    provider and the chat hook. What `JSON.stringify` and `toISOString` would
    write is kept as structured values instead of text. */
module Storage {
  import opened Wrappers
  import opened Achievements

  /** A stored value: plain text, a serialized achievement list, a serialized
      list of scenario ids, or a serialized date (milliseconds since the epoch). */
  datatype StoredValue =
    | Text(text: string)
    | AchievementList(achievements: seq<Achievement>)
    | IdList(ids: seq<string>)
    | Instant(ms: int)

  type Entries = map<string, StoredValue>

  /** `localStorage.getItem(key)` for a text entry: `None` when the key is absent
      or holds something else. */
  function TextAt(entries: Entries, key: string): Option<string> {
    if key in entries && entries[key].Text? then Some(entries[key].text) else None
  }

  class Store {
    var entries: Entries

    constructor (initial: Entries)
      ensures entries == initial
    {
      entries := initial;
    }

    /** `localStorage.setItem(key, value)`: last write wins. */
    method SetItem(key: string, value: StoredValue)
      modifies this
      ensures entries == old(entries)[key := value]
    {
      entries := entries[key := value];
    }
  }
}
