/** The settings record and its persistence under the storage key
    `sheet_prompt_settings`. Browser storage and JSON are abstract: a stored
    entry is described by what reading it and `JSON.parse` make of it. */
module Config {
  import opened Options

  /** The two-field settings record. */
  datatype Settings = Settings(enabled: bool, sheetContent: string)

  /** `defaultSettings`: enabled, with no sheet content. */
  const DefaultSettings := Settings(true, "")

  /** The fields a parsed stored object carries; an absent field is None. */
  datatype StoredRecord = StoredRecord(enabled: Option<bool>, sheetContent: Option<string>)

  /** What `JSON.parse` makes of a non-empty stored string. */
  datatype Parse = Malformed | Parsed(record: StoredRecord)

  /** The outcome of `localStorage.getItem(settingsKey)`: the read throws, the
      key is absent (null), the value is the empty string, or it is a non-empty
      string, described by its parse. */
  datatype Stored = ReadError | Missing | EmptyString | Value(parse: Parse)

  /** `loadSettings`: a parsed record is shallow-merged over the defaults;
      every other outcome leaves the current settings as they are. */
  function Load(current: Settings, stored: Stored): Settings {
    match stored
    case ReadError => current
    case Missing => current
    case EmptyString => current
    case Value(Malformed) => current
    case Value(Parsed(rec)) =>
      Settings(rec.enabled.GetOr(DefaultSettings.enabled),
               rec.sheetContent.GetOr(DefaultSettings.sheetContent))
  }

  /** `saveSettings` on a successful write: the serialised record is a
      non-empty string that parses back to both fields. */
  function Save(s: Settings): Stored {
    Value(Parsed(StoredRecord(Some(s.enabled), Some(s.sheetContent))))
  }

  /** A failed read, an absent or empty entry, or a parse failure leaves
      `settings` exactly as it was. */
  lemma LoadKeepsOnFailure(current: Settings, stored: Stored)
    requires stored.ReadError? || stored.Missing? || stored.EmptyString? || stored == Value(Malformed)
    ensures Load(current, stored) == current
  {
  }

  /** A parsed record: each present field overrides the default, each absent
      field takes the default, and nothing of the current settings survives. */
  lemma LoadMergesOverDefaults(current: Settings, rec: StoredRecord)
    ensures var s := Load(current, Value(Parsed(rec)));
      (rec.enabled.Some? ==> s.enabled == rec.enabled.value)
      && (rec.enabled.None? ==> s.enabled == DefaultSettings.enabled)
      && (rec.sheetContent.Some? ==> s.sheetContent == rec.sheetContent.value)
      && (rec.sheetContent.None? ==> s.sheetContent == DefaultSettings.sheetContent)
  {
  }

  /** What was saved is what is loaded, whatever the settings were before. */
  lemma LoadSaveRoundTrip(current: Settings, s: Settings)
    ensures Load(current, Save(s)) == s
  {
  }

  /** Loading the same entry a second time changes nothing. */
  lemma LoadIdempotent(current: Settings, stored: Stored)
    ensures Load(Load(current, stored), stored) == Load(current, stored)
  {
  }
}
