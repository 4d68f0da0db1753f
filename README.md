# Sparkify ETL in Dafny

A model of the ETL job `etl.py`, which loads a music-streaming service's song files and
listening-log files into a PostgreSQL star schema. The model covers three operations:

- **The song-file transform** (`process_song_file`). It takes the first record of a song file and
  inserts one song row and one artist row.
- **The log-file transform** (`process_log_file`). It keeps the `NextSong` events and inserts
  three kinds of rows:
  - one time row per kept event, with the calendar fields derived from its millisecond
    timestamp;
  - one user row per kept event;
  - one songplay row per kept event, after looking its song up by (title, artist, length).
- **The batch loop** (`process_data`). It prints how many files were found. Then, for each file
  in order, it runs the transform, commits and prints an `i/n files processed.` line.

The database cursor, the connection and the console are one `Database.Session` object. Every
call on it is appended to its `trace`:

- an `execute` with its statement and parameters;
- a `fetchone`;
- a `commit`;
- a printed line.

Each imperative operation is specified by a function that gives the calls it makes, as a `Run`
value: an outcome and a list of effects. The properties are lemmas about those functions. The
song lookup is a map injected into the session: from the lookup's parameters to the
(song_id, artist_id) row it finds.

Modules:

- `Records`: values, records, statements and effects.
- `Database`: the session.
- `Decimal`: how Python writes a non-negative integer.
- `Calendar`: turns milliseconds since 1970 into date, hour, ISO week and weekday, using the
  Gregorian 400/100/4/1-year cycles.
- `SongFile`, `LogFile` and `Batch`: the three operations.

The songplay index is the event's 0-based line in the file, not its running number among the
kept events. The code (`etl.py:68`, `etl.py:81`) iterates over the filtered frame, whose row
labels survive the filter. So the index increases strictly but skips the dropped lines
(`LogFile.SongplayIndices`, `LogFile.SkippedLineKeepsIndex`).

The conversion of the kept timestamps (`etl.py:46`) fails when a timestamp does not fit pandas'
64-bit nanosecond count, that is, for any ts above 9223372036854 ms (2262-04-11). The
log-file transform then stops with `OutOfBoundsDatetime` before any call, and the batch stops
without committing that file.

## Model

| member | source | states |
|---|---|---|
| SongFile.ProcessSongFile | etl.py:8-27 | The calls it makes and its outcome are those of `SongFileRun`: no call and a missing-column failure for a file with no records, otherwise the song insert then the artist insert |
| SongFile.SongFileCalls | etl.py:22-27 | A non-empty song file makes exactly two calls: the song insert with (song_id, title, artist_id, year, duration) of the first record, then the artist insert with (artist_id, artist_name, artist_location, artist_latitude, artist_longitude), values unchanged and in that order |
| SongFile.LaterRecordsIgnored | etl.py:22 | Records after the first one have no effect on what is inserted |
| SongFile.SongRefersToArtist | etl.py:22-26 | The artist id of the song row is the artist id of the artist row |
| SongFile.SongFileFails | etl.py:19-22 | A song file fails exactly when it has no records, it then makes no call, and it only ever makes cursor calls |
| LogFile.ProcessLogFile | etl.py:30-82 | The calls it makes and its outcome are those of `LogFileRun`. A file with no lines fails on a missing column, and a kept ts out of pandas' range fails the conversion, both before any call. Otherwise the calls are the time inserts, then the user inserts, then lookup, fetch and songplay insert per kept event |
| LogFile.InsertTimeRows | etl.py:57-58 | The loop appends one time insert per kept event, in order, with that event's time row |
| LogFile.InsertUserRows | etl.py:61-65 | The loop appends one user insert per kept event, in order, with (userId, firstName, lastName, gender, level) and no deduplication |
| LogFile.InsertSongplayRows | etl.py:68-82 | The loop appends, per kept event, the lookup by (song, artist, length), the fetch and the songplay insert |
| LogFile.KeptFrom | etl.py:43 | The kept events are never more than the lines of the file |
| LogFile.KeptFromFacts | etl.py:43 | Every kept row is a `NextSong` line of the file at its own line number, the rows are in file order, and every `NextSong` line has a row |
| LogFile.KeptRecords | etl.py:43 | The kept records are exactly the records whose page is `NextSong`, in file order |
| LogFile.LogFileCalls | etl.py:46-82 | A non-empty log file passes exactly when every kept ts is in pandas' range. When it passes, its calls are: one time insert per kept event, with that event's time row; then one user insert per kept event; then, for the j-th kept event, the lookup, the fetch and the songplay insert, at positions 2n+3j to 2n+3j+2 |
| LogFile.LogFileCallCount | etl.py:46-82 | A non-empty log file makes exactly five calls per kept event when its kept timestamps are in range, and none otherwise |
| LogFile.NoNextSongNoCalls | etl.py:43-82 | Any log file makes no call exactly when it fails or none of its lines is a `NextSong` event |
| LogFile.OutOfRangeFails | etl.py:43-46 | A non-empty log file fails on the timestamp conversion exactly when one of its `NextSong` lines has a ts pandas cannot convert. A ts on a dropped line does not matter |
| LogFile.LogFileCursorCallsOnly | etl.py:40-82 | A log file only makes cursor calls. It fails on a missing column exactly when it has no lines. It fails on the timestamp conversion exactly when it has lines and a kept ts out of range. When it fails, it makes no call |
| LogFile.SongplayIdsTogether | etl.py:71-77 | A songplay's song id and artist id both come from the lookup's row, or both are null when the lookup finds nothing |
| LogFile.SongplayNullsTogether | etl.py:74-77 | When the song table holds no null ids, a songplay's song id is null exactly when its artist id is |
| LogFile.SongplayIndices | etl.py:43-81 | A songplay's index is the 0-based line of its event in the file, that line is a `NextSong` event, and the indices strictly increase along the songplays |
| LogFile.SameTsSameTimeRow | etl.py:46-58 | In a log file that passes, two kept events with the same ts get the same time insert |
| LogFile.SkippedLineKeepsIndex | etl.py:43-82 | A non-`NextSong` line followed by a `NextSong` line with a ts in range gives five calls in time, user, lookup, fetch, songplay order, and the songplay's index is 1. With a ts out of range it fails with no call |
| Calendar.TimeOf | etl.py:46-55 | The time row of a timestamp keeps the instant. Its hour is the hour of the day, in 0..23. Its date is the valid calendar date, from 1970 on, that lies as many days after 1970-01-01 as the timestamp has whole days. The week is in 1..53, the month in 1..12, the day in 1..31 and the weekday in 0..6 |
| Calendar.YearOfDay | etl.py:46 | A day count since 0001-01-01 splits into a year and a day of that year that add back up to the count |
| Calendar.CycleDays | etl.py:46 | The closed form of days before a year agrees with the 400/100/4/1-year cycle lengths |
| Calendar.CycleLeap | etl.py:46 | Within the cycles, a year is a leap year exactly when it is the last year of a four-year cycle that is not the last one of a century, unless that century is the last one of its 400 years |
| Calendar.SplitOfCycles | etl.py:46 | Splitting a day count into cycles gives back the year and day it was built from |
| Calendar.YearOfDayInverse | etl.py:46 | `YearOfDay` inverts "days before the year plus day of the year" |
| Calendar.MonthAndDay | etl.py:49 | A day of the year splits into a valid month and day that add back up to it |
| Calendar.MonthAndDayInverse | etl.py:49 | `MonthAndDay` inverts "days before the month plus day of the month" |
| Calendar.CivilFromDays | etl.py:46-49 | Days since 1970-01-01 give a valid date from 1970 on that lies exactly that many days after 1970-01-01 |
| Calendar.CivilFromDaysInverse | etl.py:46-49 | Every valid date from 1970 on is the date of its own day count |
| Calendar.CivilFromDaysInjective | etl.py:46-49 | Different day counts give different dates |
| Calendar.DaysBeforeYearMonotone | etl.py:46 | Later years start later |
| Calendar.Weekday | etl.py:49 | The weekday is in 0..6 |
| Calendar.IsoWeek | etl.py:49 | The ISO week number is in 1..53 |
| Calendar.WeekdayNextDay | etl.py:49 | The weekday advances by one each day and wraps from Sunday (6) to Monday (0) |
| Calendar.IsoWeekNextDay | etl.py:49 | The ISO week stays the same from Monday to Sunday. After a Sunday it goes up by one or restarts at 1 |
| Calendar.JanuaryFourthInWeekOne | etl.py:49 | January 4th is always in ISO week 1 |
| Calendar.IsoWeekFromWeekOne | etl.py:49 | The ISO week number of a day: the ISO year is the calendar year of the Thursday of the day's Monday-to-Sunday week. Week 1 starts on the Monday of the week that holds January 4th of that year. The week number is one more than the whole weeks from that Monday to the day |
| Calendar.IsoWeekOne | etl.py:49 | A day is in ISO week 1 exactly when it lies within seven days from the Monday of week 1 of its ISO year |
| Calendar.WeekLater | etl.py:49 | Seven days later, the Thursday-based week of the year goes up by one or starts over in the next year |
| Calendar.EpochTimeRow | etl.py:46-55 | ts = 0 gives 1970-01-01, hour 0, ISO week 1, weekday 3 (Thursday) |
| Calendar.SampleTimeRow | etl.py:46-55 | ts = 1541105830796 gives 2018-11-01, hour 20, ISO week 44, weekday 3 |
| Calendar.MillenniumSaturday | etl.py:49 | 2000-01-01 is a Saturday (weekday 5) |
| Calendar.LatestTimestamp | etl.py:46 | The last millisecond pandas can convert is 9223372036854, which is 2262-04-11 at hour 23. The next one is out of range |
| Decimal.NatTextDigits | etl.py:104-112 | The decimal text of a number is a non-empty run of digits, and it starts with 0 only for 0 itself |
| Decimal.NatTextRoundTrip | etl.py:104-112 | Reading the decimal text of a number back gives the number |
| Decimal.NatTextInjective | etl.py:104-112 | Different numbers have different decimal texts |
| Database.Fetched | etl.py:71-72 | A fetch returns a row only right after a song lookup, and that row is the lookup table's row for the lookup's parameters |
| Database.Session.Execute | etl.py:23 | An execute appends exactly that statement and its parameters to the trace |
| Database.Session.FetchOne | etl.py:72 | A fetch returns the last lookup's row and records the fetch |
| Database.Session.Commit | etl.py:111 | A commit appends one commit to the trace |
| Database.Session.Print | etl.py:104 | A console line is appended to the trace |
| Batch.RunTransform | etl.py:110 | Calling the transform on a file makes the calls and gives the outcome of `FileRun`. A transform given a file of the other kind fails, before any call, on a missing column |
| Batch.ProcessData | etl.py:103-112 | The calls and the outcome of the whole batch are those of `ProcessDataRun`: the header line, then per file its calls, a commit and its progress line, stopping at the first failure |
| Batch.ProcessFiles | etl.py:107-112 | The loop over the files makes the calls and gives the outcome of `Combine` over the files' runs |
| Batch.ProcessOneFile | etl.py:110-112 | One turn of the loop makes the file's calls. Unless they failed, it then commits and prints "i+1/n files processed." |
| Batch.FileRunsAt | etl.py:107-110 | The j-th per-file run is the transform run on the j-th file |
| Batch.StopAtFailure | etl.py:107-112 | The batch ends at the first failing file, right after its calls, with its failure |
| Batch.FailureSticks | etl.py:107-112 | After a failure, later files change nothing |
| Batch.FirstFailure | etl.py:107-112 | When the k-th file is the first to fail, the batch is the first k files' batch plus that file's calls, with no commit or progress line for it |
| Batch.CombinePasses | etl.py:107-112 | The batch passes exactly when every file's transform passes |
| Batch.CommitThenProgress | etl.py:110-112 | In a batch that passes, the commits and console lines alternate: one commit, then "j/total files processed." for j = 1, 2, ... |
| Batch.ProgressAfterEachFile | etl.py:103-112 | In a batch of n files that passes: the header "n files found in path" comes first. Each file is followed by exactly one commit and then "j/n files processed.", with j going from 1 to n in order. Nothing else commits or prints |
| Batch.FileRunCursorCalls | etl.py:110 | A transform only makes cursor calls: it never commits or prints |
| Batch.ProgressLinesDistinct | etl.py:112 | Different files get different progress lines |
| Batch.NoFiles | etl.py:103-112 | With no files there is only the line "0 files found in path": nothing is committed |
| Batch.MarkersAppend | etl.py:104-112 | The commits and console lines of two traces one after the other are those of the first, then those of the second |

## Left out

- Reading the JSON lines (`pd.read_json`, etl.py:19 and etl.py:40) is library parsing. A file is given as the sequence of its records, already parsed, with named fields.
- A file with no lines gives pandas a frame with no columns, so the first column selection raises `KeyError`. This is modelled as a `ColumnNotFound` failure before any call. The same failure models a transform given a file of the other kind, whose columns it lacks. Other pandas errors are not modelled: a record missing one field, or a value of the wrong type.
- `Database.Session.Execute` does not model database errors: a failed statement, a constraint violation, a lost connection. Every statement succeeds and the trace records it. The SQL text of the statements lives in `sql_queries.py`, which is not part of this model. Statements are opaque names.
- Opening and closing the psycopg2 connection and the credentials in `main` (etl.py:115-126) are configuration. They are not part of this model.
- The file discovery with `os.walk` and `glob` (etl.py:96-100) is filesystem I/O. `Batch.ProcessData` takes the list of files it found, in order, and the path it searched.
- `Database.Session`: the song lookup is a fixed map, injected when the session is built. It does not see the rows the batch itself inserts.
- Floating-point columns (duration, length, latitude, longitude) are opaque 64-bit values. They pass through unchanged and no arithmetic is done on them.
- Calendar.TimeOf: takes a non-negative millisecond count and reads it in UTC. Negative timestamps and time zones are not modelled. `TimeOf` itself is defined for every such count. The upper bound of pandas is checked by the log-file transform, which fails before it uses `TimeOf` on a count beyond the bound.
- The timestamp column of the time row is the instant itself. The pandas `Timestamp` object is not modelled.
- The three loops of the log-file transform are separate methods (`InsertTimeRows`, `InsertUserRows`, `InsertSongplayRows`). Likewise, the batch loop body is `Batch.ProcessOneFile`. The order of the calls is unchanged.
