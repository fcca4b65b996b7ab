/** Access to the sections of a tutorial configuration: the root mapping
    holds the sections `dashboard`, `webservice`, `terminal` and `ide`,
    each a mapping of fields, and the list `states`. */
module Config {
  import opened Values

  const Sections: seq<string> := ["dashboard", "webservice", "terminal", "ide"]

  /** `v[k]` exists and is a mapping. */
  predicate HasDict(v: Value, k: string) {
    v.Dict? && HasKey(v.entries, k) && Get(v.entries, k).Dict?
  }

  /** The fields of section `k`, none when there is no such mapping. */
  function Section(v: Value, k: string): seq<Entry> {
    if HasDict(v, k) then Get(v.entries, k).entries else []
  }

  /** `v[section][field]` exists. */
  predicate HasField(v: Value, section: string, field: string) {
    HasDict(v, section) && HasKey(Section(v, section), field)
  }

  function Field(v: Value, section: string, field: string): Value
    requires HasField(v, section, field)
  {
    Get(Section(v, section), field)
  }

  /** `v in ['terminal', 'console']`. */
  predicate IsMenuItem(v: Value) {
    v == Str("terminal") || v == Str("console")
  }
}
