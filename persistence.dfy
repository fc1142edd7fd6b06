/** The persistent state the stores share. The Core Data managed object
    context becomes one object holding three tables of rows whose attributes
    are optional, as Core Data attributes are: categories, trackers and
    completion records. A tracker row links to its category by object
    identity, which a synthetic object id stands for. */
module Persistence {
  import opened Domain
  import opened Seqs
  import opened Sorting
  import opened Text

  /** The identity of a managed object. */
  type ObjectId = nat

  /** TrackerCategoryCoreData. */
  datatype CategoryRow = CategoryRow(oid: ObjectId, title: Option<string>)

  /** TrackerCoreData: `color` holds the hex string and `schedule` the archived
      raw values (None when there is no data or it does not unarchive to [String]). */
  datatype TrackerRow = TrackerRow(
    id: Option<Uuid>,
    name: Option<string>,
    color: Option<string>,
    emoji: Option<string>,
    schedule: Option<seq<string>>,
    category: Option<ObjectId>)

  /** TrackerRecordCoreData. */
  datatype RecordRow = RecordRow(trackerId: Option<Uuid>, date: Option<Instant>)

  /** No two category rows are the same object. */
  predicate UniqueObjectIds(rows: seq<CategoryRow>) {
    forall i, j :: 0 <= i < j < |rows| ==> rows[i].oid != rows[j].oid
  }

  /** No two category rows carry the same title (rows without a title may repeat). */
  predicate UniqueTitles(rows: seq<CategoryRow>) {
    forall i, j :: 0 <= i < j < |rows| && rows[i].title.Some? ==> rows[i].title != rows[j].title
  }

  /** Category rows have distinct object ids below `next`, and no two rows share a title. */
  predicate CategoriesWellFormed(rows: seq<CategoryRow>, next: ObjectId) {
    && (forall i :: 0 <= i < |rows| ==> rows[i].oid < next)
    && UniqueObjectIds(rows)
    && UniqueTitles(rows)
  }

  /** NSManagedObjectContext, reduced to its tables. */
  class Context {
    var categories: seq<CategoryRow>
    var trackers: seq<TrackerRow>
    var records: seq<RecordRow>
    /** The object id the next inserted category receives. */
    var nextObjectId: ObjectId
    /** `persistentStoreCoordinator != nil`. */
    const hasStoreCoordinator: bool

    ghost predicate Valid()
      reads this
    {
      CategoriesWellFormed(categories, nextObjectId)
    }

    /** A context over the tables as they are loaded from the store. */
    constructor (categories: seq<CategoryRow>, trackers: seq<TrackerRow>, records: seq<RecordRow>,
                 nextObjectId: ObjectId, hasStoreCoordinator: bool)
      requires CategoriesWellFormed(categories, nextObjectId)
      ensures Valid()
      ensures this.categories == categories && this.trackers == trackers && this.records == records
      ensures this.nextObjectId == nextObjectId && this.hasStoreCoordinator == hasStoreCoordinator
    {
      this.categories := categories;
      this.trackers := trackers;
      this.records := records;
      this.nextObjectId := nextObjectId;
      this.hasStoreCoordinator := hasStoreCoordinator;
    }
  }

  /** What createTracker archives: `tracker.schedule.map { $0.rawValue }`. */
  function EncodeSchedule(schedule: seq<Weekday>): (raw: seq<string>)
    ensures |raw| == |schedule| && forall i :: 0 <= i < |raw| ==> raw[i] == RawValue(schedule[i])
  {
    MapSeq(schedule, RawValue)
  }

  /** `scheduleArray.compactMap { Weekday(rawValue: $0) }`. */
  function DecodeRawValues(raw: seq<string>): (schedule: seq<Weekday>)
    ensures |schedule| <= |raw|
  {
    CompactMap(raw, WeekdayFromRawValue)
  }

  /** The schedule read back from a row; no decodable data reads as an empty schedule. */
  function DecodeSchedule(data: Option<seq<string>>): seq<Weekday> {
    match data
    case None => []
    case Some(raw) => DecodeRawValues(raw)
  }

  /** Decoding the archived raw values gives back the schedule. */
  lemma ScheduleRoundTrip(schedule: seq<Weekday>)
    ensures DecodeRawValues(EncodeSchedule(schedule)) == schedule
  {
    forall w ensures WeekdayFromRawValue(RawValue(w)) == Some(w) {
      RawValueRoundTrip(w);
    }
    CompactMapInverse(schedule, RawValue, WeekdayFromRawValue);
  }

  /** A raw value that names no weekday is skipped, wherever it stands. */
  lemma DecodeSkipsUnknown(before: seq<string>, unknown: string, after: seq<string>)
    requires forall w: Weekday :: RawValue(w) != unknown
    ensures DecodeRawValues(before + [unknown] + after) == DecodeRawValues(before + after)
  {
    CompactMapAppend(before + [unknown], after, WeekdayFromRawValue);
    CompactMapAppend(before, [unknown], WeekdayFromRawValue);
    CompactMapAppend(before, after, WeekdayFromRawValue);
  }

  /** The guard of fetchTrackers(): a row missing its id, name, color or emoji gives no tracker. */
  function TrackerFromRow(row: TrackerRow): (t: Option<Tracker>)
    ensures t.Some? <==> row.id.Some? && row.name.Some? && row.color.Some? && row.emoji.Some?
  {
    if row.id.Some? && row.name.Some? && row.color.Some? && row.emoji.Some? then
      Some(Tracker(row.id.value, row.name.value, Color(row.color.value), DecodeSchedule(row.schedule), row.emoji.value))
    else None
  }

  /** The row createTracker fills in for a tracker linked to `category`. */
  function RowFromTracker(t: Tracker, category: Option<ObjectId>): TrackerRow {
    TrackerRow(Some(t.id), Some(t.name), Some(t.color.hex), Some(t.emoji), Some(EncodeSchedule(t.schedule)), category)
  }

  /** A stored tracker reads back as itself. */
  lemma StoredTrackerRoundTrip(t: Tracker, category: Option<ObjectId>)
    ensures TrackerFromRow(RowFromTracker(t, category)) == Some(t)
  {
    ScheduleRoundTrip(t.schedule);
  }

  /** The sort key `name` of the trackers' fetch; rows without a name are
      dropped after the fetch, so where they sort does not matter. */
  predicate RowNameLe(a: TrackerRow, b: TrackerRow) {
    StrLe(a.name.GetOr(""), b.name.GetOr(""))
  }

  lemma RowNameLeIsTotalPreorder()
    ensures TotalPreorder(RowNameLe)
  {
    forall a: TrackerRow, b: TrackerRow ensures RowNameLe(a, b) || RowNameLe(b, a) {
      StrLeTotal(a.name.GetOr(""), b.name.GetOr(""));
    }
    forall a: TrackerRow, b: TrackerRow, c: TrackerRow | RowNameLe(a, b) && RowNameLe(b, c)
      ensures RowNameLe(a, c)
    {
      StrLeTransitive(a.name.GetOr(""), b.name.GetOr(""), c.name.GetOr(""));
    }
  }
}
