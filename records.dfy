/**
 * The values the ETL job moves around: parsed JSON records of the two file
 * kinds, the parameters handed to the database, and the effects the job has
 * on its cursor, its connection and the console.
 */
module Records {

  datatype Option<+T> = None | Some(value: T)

  /** An IEEE-754 double carried as its bit pattern: the job only passes these through. */
  datatype Float = Float(bits: bv64)

  /** A value as handed to the database in a statement's parameter list. */
  datatype Value =
    | Null
    | Text(s: string)
    | Int(i: int)
    | Real(f: Float)
    | Timestamp(ms: nat)   // a pandas timestamp, as milliseconds since 1970-01-01 UTC

  /** The columns of one song-file record that the job reads. */
  datatype SongRecord = SongRecord(
    songId: Value,
    title: Value,
    artistId: Value,
    year: Value,
    duration: Value,
    artistName: Value,
    artistLocation: Value,
    artistLatitude: Value,
    artistLongitude: Value)

  /** The columns of one log-file record (one user action) that the job reads. */
  datatype LogRecord = LogRecord(
    page: Value,
    ts: nat,             // milliseconds since 1970-01-01 UTC
    userId: Value,
    firstName: Value,
    lastName: Value,
    gender: Value,
    level: Value,
    song: Value,
    artist: Value,
    length: Value,
    sessionId: Value,
    location: Value,
    userAgent: Value)

  /** The statements imported from the query module; their SQL text is not part of this model. */
  datatype Statement =
    | SongTableInsert
    | ArtistTableInsert
    | TimeTableInsert
    | UserTableInsert
    | SongSelect
    | SongplayTableInsert

  /** One observable call of the job, in the order it happens. */
  datatype Effect =
    | Executed(statement: Statement, params: seq<Value>)  // cursor.execute
    | FetchedOne                                          // cursor.fetchone
    | Committed                                           // connection.commit
    | Printed(line: string)                               // a progress line on the console

  /** Why a file's transform stops: pandas finds no such column (a file with no
      records has no columns at all), or a kept timestamp lies outside the range
      of a pandas timestamp. */
  datatype Error = ColumnNotFound | OutOfBoundsDatetime

  datatype Outcome = Pass | Fail(error: Error)

  /** What processing one input does: how it ends and the calls it makes. */
  datatype Run = Run(outcome: Outcome, effects: seq<Effect>)

  /** Joining sequences does not depend on the grouping. */
  lemma AppendAssoc<T>(a: seq<T>, b: seq<T>, c: seq<T>)
    ensures a + b + c == a + (b + c)
  {
  }

  /** Cursor calls only: no commit and no console output. */
  predicate CursorCallsOnly(effects: seq<Effect>) {
    forall k :: 0 <= k < |effects| ==> effects[k].Executed? || effects[k].FetchedOne?
  }
}
