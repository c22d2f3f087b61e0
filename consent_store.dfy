/** The storage side of the consent manager: the single versioned consent
    record kept under the browser storage key `ia_consent`, what reading the
    key yields, what a write leaves behind, and the `hasConsent` query. */
module ConsentStore {

  datatype Option<+T> = None | Some(value: T)

  /** The schema version of the record kept under `ia_consent`. */
  const ConsentVersion: int := 1

  /** The ISO-8601 time of the write; the clock is a parameter of the model. */
  type Timestamp = string

  datatype ConsentRecord = ConsentRecord(
    version: int,
    essential: bool,
    analytics: bool,
    marketing: bool,
    timestamp: Timestamp)

  /** What the storage key holds, as seen by a read: nothing (or the empty
      string), something that does not read back as an object (bad JSON,
      `null`, or storage that throws on access), or a parsed record. */
  datatype Slot = Absent | Malformed | Stored(record: ConsentRecord)

  /** The three consent categories. */
  datatype Category = Essential | Analytics | Marketing

  /** The flag a record holds for a category. */
  function Flag(rec: ConsentRecord, c: Category): bool
  {
    match c
    case Essential => rec.essential
    case Analytics => rec.analytics
    case Marketing => rec.marketing
  }

  /** `getConsent`: the stored record when it carries the current schema
      version, and nothing in every other case (fail-open to "no consent"). */
  function GetConsent(slot: Slot): (r: Option<ConsentRecord>)
    ensures r.Some? <==> slot.Stored? && slot.record.version == ConsentVersion
    ensures r.Some? ==> r.value == slot.record
  {
    match slot
    case Absent => None
    case Malformed => None
    case Stored(rec) => if rec.version != ConsentVersion then None else Some(rec)
  }

  /** The record `saveConsent(analytics, marketing)` builds at time `now`. */
  function NewRecord(analytics: bool, marketing: bool, now: Timestamp): ConsentRecord
  {
    ConsentRecord(ConsentVersion, true, analytics, marketing, now)
  }

  /** The slot after an attempt to store `rec`: a write replaces the whole
      record; a write that throws is swallowed and leaves the slot as it was. */
  function Persist(slot: Slot, writable: bool, rec: ConsentRecord): Slot
  {
    if writable then Stored(rec) else slot
  }

  /** `ConsentManager.hasConsent(c)`: false without a valid record, otherwise
      the record's flag for `c`. */
  function HasConsent(slot: Slot, c: Category): (r: bool)
    ensures r <==> slot.Stored? && slot.record.version == ConsentVersion && Flag(slot.record, c)
  {
    match GetConsent(slot)
    case None => false
    case Some(rec) => Flag(rec, c)
  }

  /** What a user choice (analytics, marketing) grants for each category. */
  function Chosen(analytics: bool, marketing: bool, c: Category): bool
  {
    match c
    case Essential => true
    case Analytics => analytics
    case Marketing => marketing
  }

  /** Round trip: a successful write followed by a read yields the record
      with exactly the chosen flags, `essential` set and the current version. */
  lemma SaveThenRead(slot: Slot, analytics: bool, marketing: bool, now: Timestamp)
    ensures GetConsent(Persist(slot, true, NewRecord(analytics, marketing, now)))
         == Some(ConsentRecord(ConsentVersion, true, analytics, marketing, now))
  {
  }

  /** A write that fails leaves whatever a read returned before. */
  lemma FailedSaveKeepsPrevious(slot: Slot, rec: ConsentRecord)
    ensures GetConsent(Persist(slot, false, rec)) == GetConsent(slot)
  {
  }

  /** A record of any other schema version reads back as no consent. */
  lemma VersionMismatchIsNoConsent(rec: ConsentRecord)
    requires rec.version != ConsentVersion
    ensures GetConsent(Stored(rec)) == None
    ensures forall c :: !HasConsent(Stored(rec), c)
  {
  }

  /** After a successful save, `hasConsent` answers with the choice made,
      and `essential` is granted whatever the choice. */
  lemma HasConsentAfterSave(slot: Slot, analytics: bool, marketing: bool, now: Timestamp, c: Category)
    ensures HasConsent(Persist(slot, true, NewRecord(analytics, marketing, now)), c)
         == Chosen(analytics, marketing, c)
    ensures HasConsent(Persist(slot, true, NewRecord(analytics, marketing, now)), Essential)
  {
  }
}
