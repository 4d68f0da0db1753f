/**
 * The log-file transform: keep the records whose page is "NextSong", insert
 * one time row per kept record, then one user row per kept record, then for
 * each kept record look its song up and insert one songplay row.
 */
module LogFile {
  import opened Records
  import opened Calendar
  import opened Database

  /** A record that passed the filter, with its 0-based line in the file
      (the row label pandas keeps through the filter). */
  datatype Kept = Kept(index: nat, record: LogRecord)

  predicate IsNextSong(r: LogRecord) {
    r.page == Text("NextSong")
  }

  /** Every row of `rows` is a "NextSong" record of `file` at or after line `start`, at its own line. */
  ghost predicate FromFile(file: seq<LogRecord>, start: nat, rows: seq<Kept>) {
    forall k :: 0 <= k < |rows| ==>
      start <= rows[k].index < |file| && file[rows[k].index] == rows[k].record && IsNextSong(rows[k].record)
  }

  /** The rows appear in file order, each line at most once. */
  ghost predicate InFileOrder(rows: seq<Kept>) {
    forall k, l :: 0 <= k < l < |rows| ==> rows[k].index < rows[l].index
  }

  /** Every "NextSong" line of `file` from `start` on has a row. */
  ghost predicate Covers(file: seq<LogRecord>, start: nat, rows: seq<Kept>) {
    forall i :: start <= i < |file| && IsNextSong(file[i]) ==> exists k :: 0 <= k < |rows| && rows[k].index == i
  }

  /** The "NextSong" records of `file` from line `start` on, in file order, with their lines. */
  function KeptFrom(file: seq<LogRecord>, start: nat): (rows: seq<Kept>)
    requires start <= |file|
    ensures |rows| <= |file| - start
    decreases |file| - start
  {
    if start == |file| then []
    else if IsNextSong(file[start]) then [Kept(start, file[start])] + KeptFrom(file, start + 1)
    else KeptFrom(file, start + 1)
  }

  /** The kept rows are the "NextSong" lines from `start` on, each once, in file order. */
  lemma {:induction false} KeptFromFacts(file: seq<LogRecord>, start: nat)
    requires start <= |file|
    ensures var rows := KeptFrom(file, start);
      FromFile(file, start, rows) && InFileOrder(rows) && Covers(file, start, rows)
    decreases |file| - start
  {
    if start < |file| {
      KeptFromFacts(file, start + 1);
      var rest := KeptFrom(file, start + 1);
      if IsNextSong(file[start]) {
        KeptCons(file, start, rest);
      } else {
        assert Covers(file, start, rest) by { assert !IsNextSong(file[start]); }
      }
    }
  }

  lemma KeptCons(file: seq<LogRecord>, start: nat, rest: seq<Kept>)
    requires start < |file| && IsNextSong(file[start])
    requires FromFile(file, start + 1, rest) && InFileOrder(rest) && Covers(file, start + 1, rest)
    ensures var rows := [Kept(start, file[start])] + rest;
      FromFile(file, start, rows) && InFileOrder(rows) && Covers(file, start, rows)
  {
    var rows := [Kept(start, file[start])] + rest;
    assert forall k :: 0 < k < |rows| ==> rows[k] == rest[k - 1];
    assert FromFile(file, start, rows);
    assert InFileOrder(rows);
    forall i | start <= i < |file| && IsNextSong(file[i])
      ensures exists k :: 0 <= k < |rows| && rows[k].index == i
    {
      if i == start {
        assert rows[0].index == i;
      } else {
        var k :| 0 <= k < |rest| && rest[k].index == i;
        assert rows[k + 1].index == i;
      }
    }
  }

  /** The filtered frame: df[df['page'] == 'NextSong']. */
  function NextSongRows(file: seq<LogRecord>): seq<Kept> {
    KeptFrom(file, 0)
  }

  /** The time row: (start_time, hour, day, week, month, year, weekday). */
  function TimeParams(t: TimeRow): seq<Value> {
    [Timestamp(t.instant), Int(t.hour), Int(t.day), Int(t.week), Int(t.month), Int(t.year), Int(t.weekday)]
  }

  /** The user row: (userId, firstName, lastName, gender, level). */
  function UserParams(r: LogRecord): seq<Value> {
    [r.userId, r.firstName, r.lastName, r.gender, r.level]
  }

  /** The song lookup's parameters: (song, artist, length). */
  function SongKey(r: LogRecord): seq<Value> {
    [r.song, r.artist, r.length]
  }

  /** The songplay row: (index, ts, userId, level, songid, artistid, sessionId,
      location, userAgent); both ids are null when the lookup found nothing. */
  function SongplayParams(row: Kept, found: Option<SongMatch>): seq<Value> {
    var songId := if found.Some? then found.value.songId else Null;
    var artistId := if found.Some? then found.value.artistId else Null;
    [Int(row.index), Int(row.record.ts), row.record.userId, row.record.level, songId, artistId,
     row.record.sessionId, row.record.location, row.record.userAgent]
  }

  /** The time row of a kept record; it depends on the record's ts alone. */
  function TimeRowParams(row: Kept): seq<Value> {
    TimeParams(TimeOf(row.record.ts))
  }

  function UserRowParams(row: Kept): seq<Value> {
    UserParams(row.record)
  }

  /** The three calls for one songplay: lookup, fetch, insert. */
  function SongplayCalls(row: Kept, catalog: map<seq<Value>, SongMatch>): seq<Effect> {
    [Executed(SongSelect, SongKey(row.record)),
     FetchedOne,
     Executed(SongplayTableInsert, SongplayParams(row, Lookup(catalog, SongKey(row.record))))]
  }

  /** One `statement` per row, in row order, with the parameters `params` gives it. */
  function InsertEach(statement: Statement, rows: seq<Kept>, params: Kept -> seq<Value>): seq<Effect> {
    if rows == [] then []
    else InsertEach(statement, rows[..|rows| - 1], params) + [Executed(statement, params(rows[|rows| - 1]))]
  }

  function TimeInserts(rows: seq<Kept>): seq<Effect> {
    InsertEach(TimeTableInsert, rows, TimeRowParams)
  }

  function UserInserts(rows: seq<Kept>): seq<Effect> {
    InsertEach(UserTableInsert, rows, UserRowParams)
  }

  function SongplayInserts(rows: seq<Kept>, catalog: map<seq<Value>, SongMatch>): seq<Effect> {
    if rows == [] then []
    else SongplayInserts(rows[..|rows| - 1], catalog) + SongplayCalls(rows[|rows| - 1], catalog)
  }

  /** pandas can convert every kept ts to a timestamp. The conversion is done for
      the whole column at once, so one ts out of range fails all of it. */
  predicate TimestampsInRange(rows: seq<Kept>) {
    forall j :: 0 <= j < |rows| ==> InDatetimeRange(rows[j].record.ts)
  }

  /** What processing a log file does. A file with no records has no columns,
      so reading its page column fails before any call. A kept ts that pandas
      cannot convert fails the file, also before any call. */
  function LogFileRun(file: seq<LogRecord>, catalog: map<seq<Value>, SongMatch>): Run {
    if |file| == 0 then Run(Fail(ColumnNotFound), [])
    else
      var rows := NextSongRows(file);
      if !TimestampsInRange(rows) then Run(Fail(OutOfBoundsDatetime), [])
      else Run(Pass, TimeInserts(rows) + UserInserts(rows) + SongplayInserts(rows, catalog))
  }

  method ProcessLogFile(s: Session, file: seq<LogRecord>) returns (o: Outcome)
    modifies s
    ensures o == LogFileRun(file, s.catalog).outcome
    ensures s.trace == old(s.trace) + LogFileRun(file, s.catalog).effects
  {
    if |file| == 0 {
      return Fail(ColumnNotFound);
    }
    var df := NextSongRows(file);
    if !TimestampsInRange(df) {
      return Fail(OutOfBoundsDatetime);
    }
    ghost var t0 := s.trace;
    InsertTimeRows(s, df);
    ghost var t1 := s.trace;
    InsertUserRows(s, df);
    ghost var t2 := s.trace;
    InsertSongplayRows(s, df);
    AppendAssoc(t0, TimeInserts(df), UserInserts(df));
    AppendAssoc(t0, TimeInserts(df) + UserInserts(df), SongplayInserts(df, s.catalog));
    return Pass;
  }

  /** The loop over the time frame: one time insert per kept record. */
  method InsertTimeRows(s: Session, df: seq<Kept>)
    modifies s
    ensures s.trace == old(s.trace) + TimeInserts(df)
  {
    var i := 0;
    while i < |df|
      invariant 0 <= i <= |df|
      invariant s.trace == old(s.trace) + TimeInserts(df[..i])
    {
      var t := TimeOf(df[i].record.ts);
      s.Execute(TimeTableInsert, [Timestamp(t.instant), Int(t.hour), Int(t.day), Int(t.week),
                                  Int(t.month), Int(t.year), Int(t.weekday)]);
      assert df[..i + 1][..i] == df[..i];
      assert s.trace == old(s.trace) + TimeInserts(df[..i]) + [Executed(TimeTableInsert, TimeRowParams(df[i]))];
      i := i + 1;
    }
    assert df[..i] == df;
  }

  /** The loop over the user frame: one user insert per kept record, no deduplication. */
  method InsertUserRows(s: Session, df: seq<Kept>)
    modifies s
    ensures s.trace == old(s.trace) + UserInserts(df)
  {
    var i := 0;
    while i < |df|
      invariant 0 <= i <= |df|
      invariant s.trace == old(s.trace) + UserInserts(df[..i])
    {
      var row := df[i].record;
      s.Execute(UserTableInsert, [row.userId, row.firstName, row.lastName, row.gender, row.level]);
      assert df[..i + 1][..i] == df[..i];
      i := i + 1;
    }
    assert df[..i] == df;
  }

  /** The loop over the filtered frame: look the song up, fetch, insert the songplay. */
  method InsertSongplayRows(s: Session, df: seq<Kept>)
    modifies s
    ensures s.trace == old(s.trace) + SongplayInserts(df, s.catalog)
  {
    var i := 0;
    while i < |df|
      invariant 0 <= i <= |df|
      invariant s.trace == old(s.trace) + SongplayInserts(df[..i], s.catalog)
    {
      ghost var before := s.trace;
      var index, row := df[i].index, df[i].record;
      s.Execute(SongSelect, [row.song, row.artist, row.length]);
      var results := s.FetchOne();
      var songId, artistId;
      if results.Some? {
        songId, artistId := results.value.songId, results.value.artistId;
      } else {
        songId, artistId := Null, Null;
      }
      s.Execute(SongplayTableInsert, [Int(index), Int(row.ts), row.userId, row.level, songId, artistId,
                                      row.sessionId, row.location, row.userAgent]);
      assert s.trace == before + SongplayCalls(df[i], s.catalog);
      assert df[..i + 1][..i] == df[..i];
      i := i + 1;
    }
    assert df[..i] == df;
  }

  /** The plain filter on records: what df['page'] == 'NextSong' keeps. */
  function NextSongRecords(file: seq<LogRecord>): seq<LogRecord> {
    if file == [] then []
    else if IsNextSong(file[0]) then [file[0]] + NextSongRecords(file[1..])
    else NextSongRecords(file[1..])
  }

  function RecordsOf(rows: seq<Kept>): seq<LogRecord> {
    if rows == [] then [] else [rows[0].record] + RecordsOf(rows[1..])
  }

  /** The kept rows carry exactly the "NextSong" records, in file order. */
  lemma {:induction false} KeptRecords(file: seq<LogRecord>, start: nat)
    requires start <= |file|
    ensures RecordsOf(KeptFrom(file, start)) == NextSongRecords(file[start..])
    decreases |file| - start
  {
    if start < |file| {
      KeptRecords(file, start + 1);
      assert file[start..][1..] == file[start + 1..];
      var rest := KeptFrom(file, start + 1);
      if IsNextSong(file[start]) {
        assert ([Kept(start, file[start])] + rest)[1..] == rest;
      }
    }
  }

  lemma {:induction false} InsertEachAt(statement: Statement, rows: seq<Kept>, params: Kept -> seq<Value>)
    ensures |InsertEach(statement, rows, params)| == |rows|
    ensures forall j :: 0 <= j < |rows| ==> InsertEach(statement, rows, params)[j] == Executed(statement, params(rows[j]))
  {
    if rows != [] {
      var front := rows[..|rows| - 1];
      InsertEachAt(statement, front, params);
      assert forall j :: 0 <= j < |front| ==> front[j] == rows[j];
    }
  }

  /** The lookup, the fetch and the songplay insert of kept row `row`. */
  ghost predicate SongplayCallsAt(e: seq<Effect>, p: int, row: Kept, catalog: map<seq<Value>, SongMatch>) {
    && 0 <= p && p + 3 <= |e|
    && e[p] == Executed(SongSelect, SongKey(row.record))
    && e[p + 1] == FetchedOne
    && e[p + 2] == Executed(SongplayTableInsert, SongplayParams(row, Lookup(catalog, SongKey(row.record))))
  }

  lemma {:induction false} SongplayInsertsAt(rows: seq<Kept>, catalog: map<seq<Value>, SongMatch>)
    ensures |SongplayInserts(rows, catalog)| == 3 * |rows|
    ensures forall j :: 0 <= j < |rows| ==> SongplayCallsAt(SongplayInserts(rows, catalog), 3 * j, rows[j], catalog)
  {
    if rows != [] {
      var front := rows[..|rows| - 1];
      SongplayInsertsAt(front, catalog);
      var e0 := SongplayInserts(front, catalog);
      var e := SongplayInserts(rows, catalog);
      assert e == e0 + SongplayCalls(rows[|rows| - 1], catalog);
      forall j | 0 <= j < |rows|
        ensures SongplayCallsAt(e, 3 * j, rows[j], catalog)
      {
        if j < |front| {
          assert SongplayCallsAt(e0, 3 * j, front[j], catalog);
          assert front[j] == rows[j];
        }
      }
    }
  }

  /** The calls of a log file with kept rows `rows`, in order: one time insert per
      row, then one user insert per row, then per row the song lookup, its fetch
      and the songplay insert. */
  ghost predicate CallLayout(rows: seq<Kept>, e: seq<Effect>, catalog: map<seq<Value>, SongMatch>) {
    && |e| == 5 * |rows|
    && (forall j :: 0 <= j < |rows| ==> e[j] == Executed(TimeTableInsert, TimeRowParams(rows[j])))
    && (forall j :: 0 <= j < |rows| ==> e[|rows| + j] == Executed(UserTableInsert, UserParams(rows[j].record)))
    && (forall j :: 0 <= j < |rows| ==> SongplayCallsAt(e, 2 * |rows| + 3 * j, rows[j], catalog))
  }

  /** The calls a non-empty log file makes: first a time insert per kept
      record, then a user insert per kept record, then per kept record the
      song lookup, the fetch and the songplay insert. */
  lemma LogFileCalls(file: seq<LogRecord>, catalog: map<seq<Value>, SongMatch>)
    requires |file| > 0
    ensures LogFileRun(file, catalog).outcome == Pass <==> TimestampsInRange(NextSongRows(file))
    ensures LogFileRun(file, catalog).outcome == Pass ==>
              CallLayout(NextSongRows(file), LogFileRun(file, catalog).effects, catalog)
  {
    var rows := NextSongRows(file);
    if TimestampsInRange(rows) {
      var t, u, p := TimeInserts(rows), UserInserts(rows), SongplayInserts(rows, catalog);
      InsertEachAt(TimeTableInsert, rows, TimeRowParams);
      InsertEachAt(UserTableInsert, rows, UserRowParams);
      SongplayInsertsAt(rows, catalog);
      LayoutOfParts(rows, t, u, p, catalog);
    }
  }

  /** Three parts laid out one after the other give the whole layout. */
  lemma LayoutOfParts(rows: seq<Kept>, t: seq<Effect>, u: seq<Effect>, p: seq<Effect>,
                      catalog: map<seq<Value>, SongMatch>)
    requires |t| == |rows| && |u| == |rows| && |p| == 3 * |rows|
    requires forall j :: 0 <= j < |rows| ==> t[j] == Executed(TimeTableInsert, TimeRowParams(rows[j]))
    requires forall j :: 0 <= j < |rows| ==> u[j] == Executed(UserTableInsert, UserParams(rows[j].record))
    requires forall j :: 0 <= j < |rows| ==> SongplayCallsAt(p, 3 * j, rows[j], catalog)
    ensures CallLayout(rows, t + u + p, catalog)
  {
    FirstPart(t, u + p, TimeTableInsert, rows, TimeRowParams);
    assert t + u + p == t + (u + p);
    MiddlePart(t, u, p, rows);
    LastPart(t + u, p, rows, catalog);
  }

  lemma FirstPart(a: seq<Effect>, b: seq<Effect>, statement: Statement, rows: seq<Kept>, params: Kept -> seq<Value>)
    requires |a| == |rows|
    requires forall j :: 0 <= j < |rows| ==> a[j] == Executed(statement, params(rows[j]))
    ensures forall j :: 0 <= j < |rows| ==> (a + b)[j] == Executed(statement, params(rows[j]))
  {
  }

  lemma MiddlePart(t: seq<Effect>, u: seq<Effect>, p: seq<Effect>, rows: seq<Kept>)
    requires |t| == |rows| && |u| == |rows|
    requires forall j :: 0 <= j < |rows| ==> u[j] == Executed(UserTableInsert, UserParams(rows[j].record))
    ensures forall j :: 0 <= j < |rows| ==> (t + u + p)[|rows| + j] == Executed(UserTableInsert, UserParams(rows[j].record))
  {
    forall j | 0 <= j < |rows|
      ensures (t + u + p)[|rows| + j] == u[j]
    {
    }
  }

  lemma LastPart(a: seq<Effect>, p: seq<Effect>, rows: seq<Kept>, catalog: map<seq<Value>, SongMatch>)
    requires |a| == 2 * |rows| && |p| == 3 * |rows|
    requires forall j :: 0 <= j < |rows| ==> SongplayCallsAt(p, 3 * j, rows[j], catalog)
    ensures forall j :: 0 <= j < |rows| ==> SongplayCallsAt(a + p, 2 * |rows| + 3 * j, rows[j], catalog)
  {
    var n, e := |rows|, a + p;
    forall j | 0 <= j < n
      ensures SongplayCallsAt(e, 2 * n + 3 * j, rows[j], catalog)
    {
      assert SongplayCallsAt(p, 3 * j, rows[j], catalog);
      assert e[2 * n + 3 * j] == p[3 * j];
      assert e[2 * n + 3 * j + 1] == p[3 * j + 1];
      assert e[2 * n + 3 * j + 2] == p[3 * j + 2];
    }
  }

  /** A non-empty log file makes five calls per kept record. */
  lemma LogFileCallCount(file: seq<LogRecord>, catalog: map<seq<Value>, SongMatch>)
    requires |file| > 0
    ensures |LogFileRun(file, catalog).effects|
         == if TimestampsInRange(NextSongRows(file)) then 5 * |NextSongRows(file)| else 0
  {
    var rows := NextSongRows(file);
    InsertEachAt(TimeTableInsert, rows, TimeRowParams);
    InsertEachAt(UserTableInsert, rows, UserRowParams);
    SongplayInsertsAt(rows, catalog);
  }

  /** A log file makes no call at all exactly when it fails or has no "NextSong" record. */
  lemma NoNextSongNoCalls(file: seq<LogRecord>, catalog: map<seq<Value>, SongMatch>)
    ensures LogFileRun(file, catalog).effects == []
        <==> LogFileRun(file, catalog).outcome.Fail? || forall i :: 0 <= i < |file| ==> !IsNextSong(file[i])
  {
    if |file| > 0 {
      LogFileCallCount(file, catalog);
      KeptFromFacts(file, 0);
      var rows := NextSongRows(file);
      if exists i :: 0 <= i < |file| && IsNextSong(file[i]) {
        var i :| 0 <= i < |file| && IsNextSong(file[i]);
        assert exists k :: 0 <= k < |rows| && rows[k].index == i;
      }
    }
  }

  /** A non-empty log file fails on its timestamps exactly when one of its
      "NextSong" records has a ts pandas cannot convert; a ts on a dropped
      line is never converted. */
  lemma OutOfRangeFails(file: seq<LogRecord>, catalog: map<seq<Value>, SongMatch>)
    requires |file| > 0
    ensures LogFileRun(file, catalog).outcome == Fail(OutOfBoundsDatetime)
        <==> exists i :: 0 <= i < |file| && IsNextSong(file[i]) && !InDatetimeRange(file[i].ts)
  {
    KeptFromFacts(file, 0);
    var rows := NextSongRows(file);
    if !TimestampsInRange(rows) {
      var j :| 0 <= j < |rows| && !InDatetimeRange(rows[j].record.ts);
      var i := rows[j].index;
      assert 0 <= i < |file| && IsNextSong(file[i]) && !InDatetimeRange(file[i].ts);
    }
    if exists i :: 0 <= i < |file| && IsNextSong(file[i]) && !InDatetimeRange(file[i].ts) {
      var i :| 0 <= i < |file| && IsNextSong(file[i]) && !InDatetimeRange(file[i].ts);
      var k :| 0 <= k < |rows| && rows[k].index == i;
      assert !InDatetimeRange(rows[k].record.ts);
    }
  }

  lemma {:induction false} SongplayCursorCalls(rows: seq<Kept>, catalog: map<seq<Value>, SongMatch>)
    ensures CursorCallsOnly(SongplayInserts(rows, catalog))
  {
    if rows != [] {
      SongplayCursorCalls(rows[..|rows| - 1], catalog);
    }
  }

  lemma CursorCallsJoin(a: seq<Effect>, b: seq<Effect>)
    requires CursorCallsOnly(a) && CursorCallsOnly(b)
    ensures CursorCallsOnly(a + b)
  {
    forall k | 0 <= k < |a + b|
      ensures (a + b)[k].Executed? || (a + b)[k].FetchedOne?
    {
      if k >= |a| {
        assert (a + b)[k] == b[k - |a|];
      }
    }
  }

  /** A log file makes only cursor calls, and none when it fails. It fails on a
      missing column exactly when it has no lines, and on its timestamps exactly
      when it has lines and a kept ts out of range. */
  lemma LogFileCursorCallsOnly(file: seq<LogRecord>, catalog: map<seq<Value>, SongMatch>)
    ensures CursorCallsOnly(LogFileRun(file, catalog).effects)
    ensures LogFileRun(file, catalog).outcome == Fail(ColumnNotFound) <==> |file| == 0
    ensures LogFileRun(file, catalog).outcome == Fail(OutOfBoundsDatetime)
        <==> |file| > 0 && !TimestampsInRange(NextSongRows(file))
    ensures LogFileRun(file, catalog).outcome.Fail? ==> LogFileRun(file, catalog).effects == []
  {
    if |file| > 0 && TimestampsInRange(NextSongRows(file)) {
      var rows := NextSongRows(file);
      InsertEachAt(TimeTableInsert, rows, TimeRowParams);
      InsertEachAt(UserTableInsert, rows, UserRowParams);
      SongplayCursorCalls(rows, catalog);
      CursorCallsJoin(TimeInserts(rows), UserInserts(rows));
      CursorCallsJoin(TimeInserts(rows) + UserInserts(rows), SongplayInserts(rows, catalog));
    }
  }

  /** Song and artist ids of a songplay come from the same lookup row, or are both null
      when the lookup finds none. */
  lemma SongplayIdsTogether(row: Kept, catalog: map<seq<Value>, SongMatch>)
    ensures var p, key := SongplayParams(row, Lookup(catalog, SongKey(row.record))), SongKey(row.record);
      || (key in catalog && p[4] == catalog[key].songId && p[5] == catalog[key].artistId)
      || (key !in catalog && p[4] == Null && p[5] == Null)
  {
  }

  /** When the song table holds no null ids, a songplay's song id is null exactly
      when its artist id is. */
  lemma SongplayNullsTogether(row: Kept, catalog: map<seq<Value>, SongMatch>)
    requires forall key :: key in catalog ==> catalog[key].songId != Null && catalog[key].artistId != Null
    ensures var p := SongplayParams(row, Lookup(catalog, SongKey(row.record)));
      p[4] == Null <==> p[5] == Null
  {
  }

  /** The songplay index is the record's own line in the file: it names a
      "NextSong" line and grows strictly along the songplays, skipping the
      lines that were dropped. */
  lemma SongplayIndices(file: seq<LogRecord>, catalog: map<seq<Value>, SongMatch>)
    ensures var rows := NextSongRows(file);
      && (forall j :: 0 <= j < |rows| ==>
            && SongplayParams(rows[j], Lookup(catalog, SongKey(rows[j].record)))[0] == Int(rows[j].index)
            && rows[j].index < |file| && IsNextSong(file[rows[j].index]) && file[rows[j].index] == rows[j].record)
      && (forall j, l :: 0 <= j < l < |rows| ==> rows[j].index < rows[l].index)
  {
    KeptFromFacts(file, 0);
  }

  /** Two kept records with the same ts get the same time row. */
  lemma SameTsSameTimeRow(file: seq<LogRecord>, catalog: map<seq<Value>, SongMatch>, j: nat, l: nat)
    requires |file| > 0
    requires j < |NextSongRows(file)| && l < |NextSongRows(file)|
    requires NextSongRows(file)[j].record.ts == NextSongRows(file)[l].record.ts
    ensures LogFileRun(file, catalog).outcome == Pass ==>
      var e := LogFileRun(file, catalog).effects; j < |e| && l < |e| && e[j] == e[l]
  {
    LogFileCalls(file, catalog);
  }

  /** A skipped line before a "NextSong" line: five calls, and the songplay
      carries the line number 1, not its place 0 among the kept records; or no
      call at all when pandas cannot convert the kept ts. */
  lemma SkippedLineKeepsIndex(a: LogRecord, b: LogRecord, catalog: map<seq<Value>, SongMatch>)
    requires !IsNextSong(a) && IsNextSong(b)
    ensures !InDatetimeRange(b.ts) ==> LogFileRun([a, b], catalog) == Run(Fail(OutOfBoundsDatetime), [])
    ensures InDatetimeRange(b.ts) ==> var e := LogFileRun([a, b], catalog).effects;
      && LogFileRun([a, b], catalog).outcome == Pass
      && |e| == 5
      && e[0] == Executed(TimeTableInsert, TimeParams(TimeOf(b.ts)))
      && e[1] == Executed(UserTableInsert, UserParams(b))
      && e[2] == Executed(SongSelect, SongKey(b))
      && e[3] == FetchedOne
      && e[4] == Executed(SongplayTableInsert, SongplayParams(Kept(1, b), Lookup(catalog, SongKey(b))))
  {
    var file := [a, b];
    assert NextSongRows(file) == [Kept(1, b)] by {
      assert KeptFrom(file, 2) == [];
      assert KeptFrom(file, 1) == [Kept(1, b)];
      assert KeptFrom(file, 0) == KeptFrom(file, 1);
    }
    LogFileCalls(file, catalog);
  }
}
