/** The song record a decoded input line becomes (`SongEntry` in utils.py). */
module Songs {
  import opened PyText

  /** A decoded input line: a JSON object, keyed by field name. */
  type Record = map<string, Value>

  /** The four fields the pipeline reads; each may be absent (`Null`). */
  datatype SongEntry = SongEntry(rapperName: Value, songTitle: Value, songYear: Value, songLyrics: Value)

  /** Python's `d.get(key)`: the value under `key`, or `None` when the key is missing. */
  function Get(d: Record, key: string): Value
  {
    if key in d then d[key] else Null
  }

  /**
   * `SongEntry.from_dict`: never fails; each field is the value under its key
   * ("rapper", "title", "year", "lyrics") when present and `None` otherwise.
   */
  function FromDict(d: Record): (e: SongEntry)
    ensures "rapper" in d ==> e.rapperName == d["rapper"]
    ensures "title" in d ==> e.songTitle == d["title"]
    ensures "year" in d ==> e.songYear == d["year"]
    ensures "lyrics" in d ==> e.songLyrics == d["lyrics"]
    ensures "rapper" !in d ==> e.rapperName == Null
    ensures "title" !in d ==> e.songTitle == Null
    ensures "year" !in d ==> e.songYear == Null
    ensures "lyrics" !in d ==> e.songLyrics == Null
  {
    SongEntry(Get(d, "rapper"), Get(d, "title"), Get(d, "year"), Get(d, "lyrics"))
  }

  /** The keys `FromDict` looks at. */
  const RecognizedKeys: set<string> := {"rapper", "title", "year", "lyrics"}

  /** Keys other than the four recognized ones do not affect the entry. */
  lemma FromDictIgnoresOtherKeys(d: Record, key: string, v: Value)
    requires key !in RecognizedKeys
    ensures FromDict(d[key := v]) == FromDict(d)
    ensures FromDict(d - {key}) == FromDict(d)
  {
  }
}
