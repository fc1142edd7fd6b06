/** TrackerRecordStore: the completion records. A record is a tracker id and
    an instant; adding stores the start of the given day, removing deletes the
    first record of that tracker inside the day's window, and the queries
    count a tracker's records, look for one inside a day's window, or collect
    all complete records into a set. */
module RecordStore {
  import opened Domain
  import opened Seqs
  import opened Persistence

  /** The fetch `trackerId == %@ AND date >= startOfDay AND date < endOfDay` matches `row`. */
  predicate InWindow(row: RecordRow, trackerId: Uuid, day: Instant) {
    row.trackerId == Some(trackerId) && row.date.Some? && InDayOf(row.date.value, day)
  }

  /** The table after addRecord(for:date:): one more row, holding the start of the day. */
  function AppendRecord(rows: seq<RecordRow>, trackerId: Uuid, date: Instant): seq<RecordRow> {
    rows + [RecordRow(Some(trackerId), Some(StartOfDay(date)))]
  }

  /** The first row of the day-window fetch. */
  function FirstInWindow(rows: seq<RecordRow>, trackerId: Uuid, day: Instant): (r: Option<nat>)
    ensures r.Some? ==> r.value < |rows| && InWindow(rows[r.value], trackerId, day)
    ensures r.Some? ==> forall k :: 0 <= k < r.value ==> !InWindow(rows[k], trackerId, day)
    ensures r.None? <==> forall k :: 0 <= k < |rows| ==> !InWindow(rows[k], trackerId, day)
  {
    FirstIndexWhere(rows, (row: RecordRow) => InWindow(row, trackerId, day))
  }

  /** The table after removeRecord(for:date:): the first row in the window is gone, if there was one. */
  function RemoveFirstInWindow(rows: seq<RecordRow>, trackerId: Uuid, day: Instant): (r: seq<RecordRow>)
    ensures FirstInWindow(rows, trackerId, day).None? ==> r == rows
    ensures FirstInWindow(rows, trackerId, day).Some? ==> |r| == |rows| - 1
  {
    match FirstInWindow(rows, trackerId, day)
    case None => rows
    case Some(i) => rows[..i] + rows[i + 1..]
  }

  /** On a day the tracker has a record, removeRecord deletes its first row inside the day's
      window and keeps every other row, in order. */
  lemma RemovesFirstInWindow(rows: seq<RecordRow>, trackerId: Uuid, day: Instant)
    requires CompletedOn(rows, trackerId, day)
    ensures exists i :: (
      && 0 <= i < |rows| && InWindow(rows[i], trackerId, day)
      && (forall k :: 0 <= k < i ==> !InWindow(rows[k], trackerId, day))
      && RemoveFirstInWindow(rows, trackerId, day) == rows[..i] + rows[i + 1..])
  {
    var i := FirstInWindow(rows, trackerId, day).value;
    assert InWindow(rows[i], trackerId, day);
  }

  /** The rows of the fetch `trackerId == %@`, in table order. */
  function RowsOf(rows: seq<RecordRow>, trackerId: Uuid): (mine: seq<RecordRow>)
    ensures |mine| <= |rows|
    ensures forall i :: 0 <= i < |mine| ==> mine[i].trackerId == Some(trackerId) && mine[i] in rows
    ensures forall i :: 0 <= i < |rows| && rows[i].trackerId == Some(trackerId) ==> rows[i] in mine
  {
    if |rows| == 0 then []
    else (if rows[0].trackerId == Some(trackerId) then [rows[0]] else []) + RowsOf(rows[1..], trackerId)
  }

  lemma {:induction false} RowsOfAppend(a: seq<RecordRow>, b: seq<RecordRow>, trackerId: Uuid)
    ensures RowsOf(a + b, trackerId) == RowsOf(a, trackerId) + RowsOf(b, trackerId)
  {
    if |a| == 0 {
      assert a + b == b;
    } else {
      assert (a + b)[1..] == a[1..] + b;
      RowsOfAppend(a[1..], b, trackerId);
    }
  }

  /** The rows of a tracker around a deleted position. */
  lemma RowsOfAround(rows: seq<RecordRow>, i: nat, trackerId: Uuid)
    requires i < |rows|
    ensures RowsOf(rows, trackerId) == RowsOf(rows[..i], trackerId) + RowsOf([rows[i]], trackerId) + RowsOf(rows[i + 1..], trackerId)
    ensures RowsOf(rows[..i] + rows[i + 1..], trackerId) == RowsOf(rows[..i], trackerId) + RowsOf(rows[i + 1..], trackerId)
  {
    assert rows == rows[..i] + [rows[i]] + rows[i + 1..];
    RowsOfAppend(rows[..i] + [rows[i]], rows[i + 1..], trackerId);
    RowsOfAppend(rows[..i], [rows[i]], trackerId);
    RowsOfAppend(rows[..i], rows[i + 1..], trackerId);
  }

  /** completedDaysCount(for:): how many rows the tracker has. */
  function RecordCount(rows: seq<RecordRow>, trackerId: Uuid): (n: nat)
    ensures n <= |rows|
  {
    |RowsOf(rows, trackerId)|
  }

  function RowTrackerId(row: RecordRow): Option<Uuid> {
    row.trackerId
  }

  /** The count is the number of rows whose trackerId is the tracker's id. */
  lemma {:induction false} RecordCountIsMultiplicity(rows: seq<RecordRow>, trackerId: Uuid)
    ensures RecordCount(rows, trackerId) == multiset(MapSeq(rows, RowTrackerId))[Some(trackerId)]
  {
    if |rows| > 0 {
      RecordCountIsMultiplicity(rows[1..], trackerId);
      assert MapSeq(rows, RowTrackerId) == [rows[0].trackerId] + MapSeq(rows[1..], RowTrackerId);
    }
  }

  /** isTrackerCompleted(_:on:): some row of the tracker falls inside the day. */
  predicate CompletedOn(rows: seq<RecordRow>, trackerId: Uuid, day: Instant)
    ensures CompletedOn(rows, trackerId, day) <==> exists k :: 0 <= k < |rows| && InWindow(rows[k], trackerId, day)
  {
    FirstInWindow(rows, trackerId, day).Some?
  }

  /** fetchCompletedTrackers(): every row with both an id and a date, as a record; equal rows collapse. */
  function CompletedRecords(rows: seq<RecordRow>): set<TrackerRecord> {
    set i | 0 <= i < |rows| && rows[i].trackerId.Some? && rows[i].date.Some? ::
      TrackerRecord(rows[i].trackerId.value, rows[i].date.value)
  }

  /** A record is in the set exactly when some row holds it. */
  lemma CompletedRecordsMembers(rows: seq<RecordRow>, rec: TrackerRecord)
    ensures rec in CompletedRecords(rows) <==> RecordRow(Some(rec.trackerId), Some(rec.date)) in rows
  {
    if RecordRow(Some(rec.trackerId), Some(rec.date)) in rows {
      var i :| 0 <= i < |rows| && rows[i] == RecordRow(Some(rec.trackerId), Some(rec.date));
      assert TrackerRecord(rows[i].trackerId.value, rows[i].date.value) == rec;
    }
  }

  /** Rows that repeat add nothing to the set: storing the same rows twice gives the same records. */
  lemma CompletedRecordsCollapse(rows: seq<RecordRow>)
    ensures CompletedRecords(rows + rows) == CompletedRecords(rows)
  {
    forall rec ensures rec in CompletedRecords(rows + rows) <==> rec in CompletedRecords(rows) {
      CompletedRecordsMembers(rows, rec);
      CompletedRecordsMembers(rows + rows, rec);
    }
  }

  /** Storing a row that is already there again, as a second addRecord on the same day does,
      leaves the set of records as it was. */
  lemma RepeatedRowCollapses(rows: seq<RecordRow>, i: nat)
    requires i < |rows|
    ensures CompletedRecords(rows + [rows[i]]) == CompletedRecords(rows)
  {
    forall rec ensures rec in CompletedRecords(rows + [rows[i]]) <==> rec in CompletedRecords(rows) {
      CompletedRecordsMembers(rows, rec);
      CompletedRecordsMembers(rows + [rows[i]], rec);
    }
  }

  /** Each stored date is a start of day, so it lies inside its own day. */
  lemma StartOfDayInOwnDay(date: Instant)
    ensures InDayOf(StartOfDay(date), date)
    ensures StartOfDay(StartOfDay(date)) == StartOfDay(date)
  {
    StartOfDayUnique(StartOfDay(date), StartOfDay(date));
  }

  /** Adding a record raises the tracker's count by one and leaves every other tracker's rows as they were. */
  lemma AppendRecordCounts(rows: seq<RecordRow>, trackerId: Uuid, date: Instant, other: Uuid)
    ensures RecordCount(AppendRecord(rows, trackerId, date), trackerId) == RecordCount(rows, trackerId) + 1
    ensures other != trackerId ==> RowsOf(AppendRecord(rows, trackerId, date), other) == RowsOf(rows, other)
  {
    var row := RecordRow(Some(trackerId), Some(StartOfDay(date)));
    RowsOfAppend(rows, [row], trackerId);
    RowsOfAppend(rows, [row], other);
    assert [row][1..] == [];
  }

  /** addRecord never looks for an existing row: adding the same day twice counts twice. */
  lemma AddTwiceCountsTwice(rows: seq<RecordRow>, trackerId: Uuid, date: Instant)
    ensures RecordCount(AppendRecord(AppendRecord(rows, trackerId, date), trackerId, date), trackerId)
      == RecordCount(rows, trackerId) + 2
  {
    AppendRecordCounts(rows, trackerId, date, trackerId);
    AppendRecordCounts(AppendRecord(rows, trackerId, date), trackerId, date, trackerId);
  }

  /** After adding a record the tracker is completed on that day. */
  lemma AddedIsCompleted(rows: seq<RecordRow>, trackerId: Uuid, date: Instant)
    ensures CompletedOn(AppendRecord(rows, trackerId, date), trackerId, date)
  {
    StartOfDayInOwnDay(date);
    var added := AppendRecord(rows, trackerId, date);
    assert InWindow(added[|rows|], trackerId, date);
  }

  /** The added record is among the fetched records, under the start of its day. */
  lemma AddedIsFetched(rows: seq<RecordRow>, trackerId: Uuid, date: Instant)
    ensures TrackerRecord(trackerId, StartOfDay(date)) in CompletedRecords(AppendRecord(rows, trackerId, date))
  {
    CompletedRecordsMembers(AppendRecord(rows, trackerId, date), TrackerRecord(trackerId, StartOfDay(date)));
  }

  /** The rows of one tracker in a one-row table. */
  lemma RowsOfSingle(row: RecordRow, trackerId: Uuid)
    ensures RowsOf([row], trackerId) == if row.trackerId == Some(trackerId) then [row] else []
  {
    assert [row][1..] == [];
  }

  /** Removing deletes exactly one of the tracker's rows when it is completed that day, and nothing otherwise. */
  lemma RemoveCounts(rows: seq<RecordRow>, trackerId: Uuid, day: Instant)
    ensures CompletedOn(rows, trackerId, day) ==>
      RecordCount(RemoveFirstInWindow(rows, trackerId, day), trackerId) == RecordCount(rows, trackerId) - 1
    ensures !CompletedOn(rows, trackerId, day) ==> RemoveFirstInWindow(rows, trackerId, day) == rows
  {
    var found := FirstInWindow(rows, trackerId, day);
    if found.Some? {
      var i := found.value;
      RowsOfAround(rows, i, trackerId);
      RowsOfSingle(rows[i], trackerId);
    }
  }

  /** Removing a record of one tracker leaves every other tracker's rows as they were. */
  lemma RemoveKeepsOthers(rows: seq<RecordRow>, trackerId: Uuid, day: Instant, other: Uuid)
    requires other != trackerId
    ensures RowsOf(RemoveFirstInWindow(rows, trackerId, day), other) == RowsOf(rows, other)
  {
    var found := FirstInWindow(rows, trackerId, day);
    if found.Some? {
      var i := found.value;
      assert RemoveFirstInWindow(rows, trackerId, day) == rows[..i] + rows[i + 1..];
      assert RowsOf([rows[i]], other) == [] by {
        assert rows[i].trackerId != Some(other);
        RowsOfSingle(rows[i], other);
      }
      RowsOfAround(rows, i, other);
    }
  }

  /** Removing the record of a day that had none undoes adding it. */
  lemma AddThenRemove(rows: seq<RecordRow>, trackerId: Uuid, date: Instant)
    requires !CompletedOn(rows, trackerId, date)
    ensures RemoveFirstInWindow(AppendRecord(rows, trackerId, date), trackerId, date) == rows
  {
    var added := AppendRecord(rows, trackerId, date);
    StartOfDayInOwnDay(date);
    assert InWindow(added[|rows|], trackerId, date);
    FirstIndexWhereIs(added, (row: RecordRow) => InWindow(row, trackerId, date), |rows|);
    assert added[..|rows|] == rows;
  }

  class TrackerRecordStore {
    const context: Context

    constructor (context: Context)
      ensures this.context == context
    {
      this.context := context;
    }

    method AddRecord(trackerId: Uuid, date: Instant)
      modifies context`records
      ensures context.records == AppendRecord(old(context.records), trackerId, date)
    {
      var normalizedDate := StartOfDay(date);
      context.records := context.records + [RecordRow(Some(trackerId), Some(normalizedDate))];
    }

    method RemoveRecord(trackerId: Uuid, date: Instant)
      modifies context`records
      ensures context.records == RemoveFirstInWindow(old(context.records), trackerId, date)
    {
      var results := FirstInWindow(context.records, trackerId, date);
      if results.Some? {
        var i := results.value;
        context.records := context.records[..i] + context.records[i + 1..];
      }
    }

    /** Collects the complete rows into a set, one row at a time. */
    method FetchCompletedTrackers() returns (records: set<TrackerRecord>)
      ensures records == CompletedRecords(context.records)
    {
      var results := context.records;
      records := {};
      var n := 0;
      while n < |results|
        invariant 0 <= n <= |results|
        invariant records == CompletedRecords(results[..n])
      {
        var row := results[n];
        if row.trackerId.Some? && row.date.Some? {
          records := records + {TrackerRecord(row.trackerId.value, row.date.value)};
        }
        assert results[..n + 1] == results[..n] + [row];
        forall rec ensures rec in CompletedRecords(results[..n + 1]) <==>
          (rec in CompletedRecords(results[..n]) ||
           (row.trackerId.Some? && row.date.Some? && rec == TrackerRecord(row.trackerId.value, row.date.value)))
        {
          CompletedRecordsMembers(results[..n + 1], rec);
          CompletedRecordsMembers(results[..n], rec);
        }
        n := n + 1;
      }
      assert results[..n] == results;
    }

    function CompletedDaysCount(trackerId: Uuid): nat
      reads context
    {
      RecordCount(context.records, trackerId)
    }

    predicate IsTrackerCompleted(trackerId: Uuid, date: Instant)
      reads context
    {
      CompletedOn(context.records, trackerId, date)
    }
  }
}
