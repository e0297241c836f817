/** The `ingested_files` metadata table: one row per filename, written by
    an upsert, a status update whose SET clause is built from keyword
    arguments, and a delete; read by filename or as a list ordered by
    time. The database connection is replaced by a map keyed by filename,
    and the clock by a timestamp parameter. */
module FileTable {
  import opened Common
  import opened Strings

  /** A value stored in or bound to the table. */
  datatype SqlValue = SqlNull | SqlInt(i: int) | SqlText(s: string) | SqlTime(t: int)

  /** The columns besides the filename, which is the key. */
  datatype FileRow = FileRow(
    filepath: string, filesize: int, ingestionStatus: string, ingestedAt: int,
    chunkCount: SqlValue, entitiesAdded: SqlValue, relationshipsAdded: SqlValue, errorMessage: SqlValue)

  datatype FileEntry = FileEntry(filename: string, row: FileRow)

  /** One `update_file_status(filename, status, **kwargs)` call as the
      ingestion pipeline issues it: keyword arguments in call order. */
  datatype StatusUpdate = StatusUpdate(status: string, kwargs: seq<(string, SqlValue)>)

  const DefaultStatus: string := "Pending"

  /** The keyword arguments that may become SET clauses. */
  predicate IsUpdatableColumn(key: string) {
    key == "chunk_count" || key == "entities_added" || key == "relationships_added" || key == "error_message"
  }

  /** The clauses and parameters contributed by the keyword arguments:
      those with an updatable key, in order. */
  function KwargClauses(kwargs: seq<(string, SqlValue)>): (r: seq<(string, SqlValue)>)
    ensures |r| <= |kwargs|
    ensures forall i :: 0 <= i < |r| ==> IsUpdatableColumn(r[i].0)
    ensures forall kv :: kv in r ==> kv in kwargs
  {
    if kwargs == [] then []
    else
      var last := kwargs[|kwargs| - 1];
      KwargClauses(kwargs[..|kwargs| - 1]) + (if IsUpdatableColumn(last.0) then [last] else [])
  }

  /** One more keyword argument adds its clause when its key is updatable. */
  lemma KwargClausesStep(kwargs: seq<(string, SqlValue)>, n: nat)
    requires n < |kwargs|
    ensures IsUpdatableColumn(kwargs[n].0) ==>
      && Clauses(KwargClauses(kwargs[..n + 1])) == Clauses(KwargClauses(kwargs[..n])) + [Clause(kwargs[n].0)]
      && Values(KwargClauses(kwargs[..n + 1])) == Values(KwargClauses(kwargs[..n])) + [kwargs[n].1]
    ensures !IsUpdatableColumn(kwargs[n].0) ==> KwargClauses(kwargs[..n + 1]) == KwargClauses(kwargs[..n])
  {
    assert kwargs[..n + 1][..n] == kwargs[..n];
  }

  /** The text of one SET clause. */
  function Clause(column: string): string {
    column + " = ?"
  }

  lemma ClauseHasOnePlaceholder(column: string)
    requires '?' !in column
    ensures Count(Clause(column), '?') == 1
  {
    NoPlaceholderIn(" = ");
    assert '?' !in column + " = ";
    CountOneAtEnd(column + " = ", '?');
    assert Clause(column) == column + " = " + ['?'];
  }

  lemma WhereClauseText()
    ensures " WHERE filename = ?" == Clause(" WHERE filename")
  {
  }

  /** The fixed texts around the placeholders. */
  lemma NoPlaceholderIn(s: string)
    requires s in {" = ", ", ", "UPDATE ingested_files SET ", " WHERE filename", "ingestion_status", "ingested_at",
                   "chunk_count", "entities_added", "relationships_added", "error_message"}
    ensures '?' !in s
  {
  }

  /** The `update_file_status` query builder. The status clause comes
      first, the timestamp clause last; the parameters line up with the
      clauses and end with the filename for the WHERE clause. */
  method BuildStatusUpdate(filename: string, status: string, kwargs: seq<(string, SqlValue)>, now: int)
    returns (query: string, params: seq<SqlValue>)
    ensures params == [SqlText(status)] + Values(KwargClauses(kwargs)) + [SqlTime(now), SqlText(filename)]
    ensures params[0] == SqlText(status)
    ensures params[|params| - 1] == SqlText(filename) && params[|params| - 2] == SqlTime(now)
    ensures query == UpdateQuery(Fields(KwargClauses(kwargs)))
    ensures Count(query, '?') == |params|
  {
    var fieldsToUpdate: seq<string> := [Clause("ingestion_status")];
    params := [SqlText(status)];
    var n := 0;
    while n < |kwargs|
      invariant 0 <= n <= |kwargs|
      invariant fieldsToUpdate == [Clause("ingestion_status")] + Clauses(KwargClauses(kwargs[..n]))
      invariant params == [SqlText(status)] + Values(KwargClauses(kwargs[..n]))
    {
      var (key, value) := kwargs[n];
      KwargClausesStep(kwargs, n);
      if IsUpdatableColumn(key) {
        fieldsToUpdate := fieldsToUpdate + [Clause(key)];
        params := params + [value];
      }
      n := n + 1;
    }
    assert kwargs[..n] == kwargs;
    fieldsToUpdate := fieldsToUpdate + [Clause("ingested_at")];
    params := params + [SqlTime(now)];
    params := params + [SqlText(filename)];
    query := UpdateQuery(fieldsToUpdate);
    ghost var clauses := KwargClauses(kwargs);
    assert fieldsToUpdate == Fields(clauses);
    assert |params| == |clauses| + 3 == |fieldsToUpdate| + 1;
    FieldPlaceholders(clauses);
    PlaceholderCount(fieldsToUpdate);
  }

  /** The SET clauses: status first, the given columns, timestamp last. */
  function Fields(kvs: seq<(string, SqlValue)>): seq<string> {
    [Clause("ingestion_status")] + Clauses(kvs) + [Clause("ingested_at")]
  }

  /** The UPDATE statement for the given SET clauses. */
  function UpdateQuery(fields: seq<string>): string {
    "UPDATE ingested_files SET " + Join(fields, ", ") + " WHERE filename = ?"
  }

  function Clauses(kvs: seq<(string, SqlValue)>): (r: seq<string>)
    ensures |r| == |kvs|
    ensures forall i :: 0 <= i < |kvs| ==> r[i] == Clause(kvs[i].0)
  {
    seq(|kvs|, i requires 0 <= i < |kvs| => Clause(kvs[i].0))
  }

  function Values(kvs: seq<(string, SqlValue)>): (r: seq<SqlValue>)
    ensures |r| == |kvs|
    ensures forall i :: 0 <= i < |kvs| ==> r[i] == kvs[i].1
  {
    seq(|kvs|, i requires 0 <= i < |kvs| => kvs[i].1)
  }

  /** Every SET clause carries exactly one placeholder. */
  lemma FieldPlaceholders(kvs: seq<(string, SqlValue)>)
    requires forall i :: 0 <= i < |kvs| ==> IsUpdatableColumn(kvs[i].0)
    ensures forall i :: 0 <= i < |Fields(kvs)| ==> Count(Fields(kvs)[i], '?') == 1
  {
    var fields := Fields(kvs);
    forall i | 0 <= i < |fields| ensures Count(fields[i], '?') == 1 {
      var key := if i == 0 then "ingestion_status" else if i == |fields| - 1 then "ingested_at" else kvs[i - 1].0;
      assert fields[i] == Clause(key);
      NoPlaceholderIn(key);
      ClauseHasOnePlaceholder(key);
    }
  }

  /** The fixed text around the SET clauses adds one placeholder, the one
      of the WHERE clause. */
  lemma QueryFramePlaceholders(joined: string)
    ensures Count("UPDATE ingested_files SET " + joined + " WHERE filename = ?", '?') == Count(joined, '?') + 1
  {
    NoPlaceholderIn("UPDATE ingested_files SET ");
    CountAbsent("UPDATE ingested_files SET ", '?');
    CountAppend("UPDATE ingested_files SET ", joined, '?');
    CountAppend("UPDATE ingested_files SET " + joined, " WHERE filename = ?", '?');
    NoPlaceholderIn(" WHERE filename");
    ClauseHasOnePlaceholder(" WHERE filename");
    WhereClauseText();
  }

  /** With one placeholder per SET clause, the query has one placeholder
      per clause plus the one of the WHERE clause. */
  lemma PlaceholderCount(fields: seq<string>)
    requires |fields| >= 1
    requires forall i :: 0 <= i < |fields| ==> Count(fields[i], '?') == 1
    ensures Count(UpdateQuery(fields), '?') == |fields| + 1
  {
    var joined := Join(fields, ", ");
    NoPlaceholderIn(", ");
    CountAbsent(", ", '?');
    CountAllOnes(fields);
    CountJoin(fields, ", ", '?');
    assert Count(joined, '?') == |fields| by {
      assert (|fields| - 1) * Count(", ", '?') == 0;
    }
    QueryFramePlaceholders(joined);
  }

  lemma {:induction false} CountAllOnes(parts: seq<string>)
    requires forall i :: 0 <= i < |parts| ==> Count(parts[i], '?') == 1
    ensures CountAll(parts, '?') == |parts|
    decreases |parts|
  {
    if parts != [] {
      CountAllOnes(parts[1..]);
    }
  }

  /** The row after an update: the status and timestamp are set, and each
      updatable keyword argument sets its column; later arguments win. */
  function ApplyKwargs(row: FileRow, kvs: seq<(string, SqlValue)>): (r: FileRow)
    ensures r.filepath == row.filepath && r.filesize == row.filesize
    decreases |kvs|
  {
    if kvs == [] then row
    else
      var (key, value) := kvs[|kvs| - 1];
      var r := ApplyKwargs(row, kvs[..|kvs| - 1]);
      if key == "chunk_count" then r.(chunkCount := value)
      else if key == "entities_added" then r.(entitiesAdded := value)
      else if key == "relationships_added" then r.(relationshipsAdded := value)
      else if key == "error_message" then r.(errorMessage := value)
      else r
  }

  function UpdatedRow(row: FileRow, status: string, kwargs: seq<(string, SqlValue)>, now: int): (r: FileRow)
    ensures r.ingestionStatus == status && r.ingestedAt == now
    ensures r.filepath == row.filepath && r.filesize == row.filesize
  {
    ApplyKwargs(row, KwargClauses(kwargs)).(ingestionStatus := status, ingestedAt := now)
  }

  /** A keyword argument that is not an updatable column never changes the row. */
  lemma {:induction false} IgnoredKwargs(row: FileRow, kwargs: seq<(string, SqlValue)>)
    requires forall i :: 0 <= i < |kwargs| ==> !IsUpdatableColumn(kwargs[i].0)
    ensures KwargClauses(kwargs) == []
    ensures ApplyKwargs(row, KwargClauses(kwargs)) == row
    decreases |kwargs|
  {
    if kwargs != [] {
      IgnoredKwargs(row, kwargs[..|kwargs| - 1]);
    }
  }

  /** A new row: the given columns, zero counters and no error message. */
  function NewRow(filepath: string, filesize: int, status: string, now: int): (r: FileRow)
    ensures r.chunkCount == SqlInt(0) && r.entitiesAdded == SqlInt(0) && r.relationshipsAdded == SqlInt(0)
    ensures r.errorMessage == SqlNull
  {
    FileRow(filepath, filesize, status, now, SqlInt(0), SqlInt(0), SqlInt(0), SqlNull)
  }

  predicate SortedByTimeDesc(entries: seq<FileEntry>) {
    forall i, j :: 0 <= i < j < |entries| ==> entries[i].row.ingestedAt >= entries[j].row.ingestedAt
  }

  /** Inserts an entry before the first one with an earlier timestamp. */
  function InsertByTime(entries: seq<FileEntry>, e: FileEntry): (r: seq<FileEntry>)
    requires SortedByTimeDesc(entries)
    ensures |r| == |entries| + 1
    ensures forall x :: x in r <==> x in entries || x == e
    ensures SortedByTimeDesc(r)
    decreases |entries|
  {
    if entries == [] || entries[0].row.ingestedAt < e.row.ingestedAt then [e] + entries
    else
      var rest := InsertByTime(entries[1..], e);
      assert entries == [entries[0]] + entries[1..];
      assert forall x :: x in rest ==> x.row.ingestedAt <= entries[0].row.ingestedAt;
      [entries[0]] + rest
  }

  class FileTable {
    var rows: map<string, FileRow>

    /** `initialize_schema` on a fresh database: the table exists and is empty. */
    constructor ()
      ensures rows == map[]
    {
      rows := map[];
    }

    /** `add_file_record`: inserts a row, or on an existing filename replaces
        its path, size, status and timestamp while keeping its counters and
        error message. Reports success. */
    method AddFileRecord(filename: string, filepath: string, filesize: int, now: int, status: string := DefaultStatus)
      returns (ok: bool)
      modifies this
      ensures ok
      ensures filename !in old(rows) ==> rows == old(rows)[filename := NewRow(filepath, filesize, status, now)]
      ensures filename in old(rows) ==>
        rows == old(rows)[filename := old(rows)[filename].(filepath := filepath, filesize := filesize,
                                                          ingestionStatus := status, ingestedAt := now)]
    {
      if filename in rows {
        var row := rows[filename];
        rows := rows[filename := row.(filepath := filepath, filesize := filesize,
                                      ingestionStatus := status, ingestedAt := now)];
      } else {
        rows := rows[filename := NewRow(filepath, filesize, status, now)];
      }
      return true;
    }

    /** `update_file_status`: updates the row of `filename` if there is one.
        A failing statement (`fails`) is logged and leaves the table as it
        was; nothing is raised. */
    method UpdateFileStatus(filename: string, status: string, kwargs: seq<(string, SqlValue)>, now: int, fails: bool)
      modifies this
      ensures fails || filename !in old(rows) ==> rows == old(rows)
      ensures !fails && filename in old(rows) ==>
        rows == old(rows)[filename := UpdatedRow(old(rows)[filename], status, kwargs, now)]
    {
      var query, params := BuildStatusUpdate(filename, status, kwargs, now);
      if !fails && filename in rows {
        rows := rows[filename := UpdatedRow(rows[filename], status, kwargs, now)];
      }
    }

    /** `get_file_record`: the row, or None for an unknown filename. */
    function GetFileRecord(filename: string): (r: Option<FileRow>)
      reads this
      ensures r.Some? <==> filename in rows
      ensures r.Some? ==> r.value == rows[filename]
    {
      if filename in rows then Some(rows[filename]) else None
    }

    /** `delete_file_record`: the row is gone, every other row is untouched. */
    method DeleteFileRecord(filename: string)
      modifies this
      ensures rows == old(rows) - {filename}
      ensures GetFileRecord(filename) == None
    {
      rows := rows - {filename};
    }

    /** `list_all_files`: every row once, newest first. */
    method ListAllFiles() returns (r: seq<FileEntry>)
      ensures SortedByTimeDesc(r)
      ensures |r| == |rows|
      ensures forall e :: e in r ==> e.filename in rows && rows[e.filename] == e.row
      ensures forall f :: f in rows ==> FileEntry(f, rows[f]) in r
    {
      var remaining := rows.Keys;
      var done: set<string> := {};
      r := [];
      while remaining != {}
        invariant done !! remaining && done + remaining == rows.Keys
        invariant SortedByTimeDesc(r)
        invariant forall e :: e in r ==> e.filename in done && rows[e.filename] == e.row
        invariant forall f :: f in done ==> FileEntry(f, rows[f]) in r
        invariant |r| == |done|
        decreases |remaining|
      {
        var f :| f in remaining;
        r := InsertByTime(r, FileEntry(f, rows[f]));
        remaining := remaining - {f};
        done := done + {f};
      }
      assert done == rows.Keys;
    }
  }

  /** The value the last keyword argument named `key` carries, or `default`
      when none is named so. */
  function LastValue(kvs: seq<(string, SqlValue)>, key: string, default: SqlValue): SqlValue
    decreases |kvs|
  {
    if kvs == [] then default
    else if kvs[|kvs| - 1].0 == key then kvs[|kvs| - 1].1
    else LastValue(kvs[..|kvs| - 1], key, default)
  }

  /** Column by column: each counter and the error message take the value
      of the last keyword argument naming them and otherwise keep the old
      value; path and size never change. */
  lemma {:induction false} UpdatedRowColumns(row: FileRow, status: string, kwargs: seq<(string, SqlValue)>, now: int)
    ensures var r := UpdatedRow(row, status, kwargs, now);
      && r.chunkCount == LastValue(kwargs, "chunk_count", row.chunkCount)
      && r.entitiesAdded == LastValue(kwargs, "entities_added", row.entitiesAdded)
      && r.relationshipsAdded == LastValue(kwargs, "relationships_added", row.relationshipsAdded)
      && r.errorMessage == LastValue(kwargs, "error_message", row.errorMessage)
    decreases |kwargs|
  {
    if kwargs != [] {
      var init := kwargs[..|kwargs| - 1];
      var last := kwargs[|kwargs| - 1];
      UpdatedRowColumns(row, status, init, now);
      var k := KwargClauses(init);
      if IsUpdatableColumn(last.0) {
        assert KwargClauses(kwargs) == k + [last];
        assert (k + [last])[..|k|] == k;
      } else {
        assert KwargClauses(kwargs) == k;
      }
    }
  }

  /** A status update whose keyword arguments name none of the updatable
      columns changes only the status and the timestamp. */
  lemma StatusOnlyUpdate(row: FileRow, status: string, kwargs: seq<(string, SqlValue)>, now: int)
    requires forall i :: 0 <= i < |kwargs| ==> !IsUpdatableColumn(kwargs[i].0)
    ensures UpdatedRow(row, status, kwargs, now) == row.(ingestionStatus := status, ingestedAt := now)
  {
    IgnoredKwargs(row, kwargs);
  }
}
