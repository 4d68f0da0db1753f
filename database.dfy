/**
 * The database session the job writes through (a psycopg2 cursor and its
 * connection) together with the console it reports to. Every call is
 * appended to one trace, so the order of statements, commits and progress
 * lines can be stated. The song lookup is an injected table from the
 * lookup's parameters to the first (song_id, artist_id) row it matches.
 */
module Database {
  import opened Records

  /** The (song_id, artist_id) row the song lookup returns. */
  datatype SongMatch = SongMatch(songId: Value, artistId: Value)

  /** The row the lookup with parameters `key` returns, if any. */
  function Lookup(catalog: map<seq<Value>, SongMatch>, key: seq<Value>): Option<SongMatch> {
    if key in catalog then Some(catalog[key]) else None
  }

  /** The row a fetch returns after `trace`: the lookup's row when the last
      call was the song lookup and nothing has fetched it yet. */
  function Fetched(catalog: map<seq<Value>, SongMatch>, trace: seq<Effect>): (row: Option<SongMatch>)
    ensures row.Some? ==> |trace| > 0 && trace[|trace| - 1].Executed?
                          && trace[|trace| - 1].statement == SongSelect
                          && trace[|trace| - 1].params in catalog
                          && row.value == catalog[trace[|trace| - 1].params]
  {
    if |trace| > 0 && trace[|trace| - 1].Executed? && trace[|trace| - 1].statement == SongSelect
    then Lookup(catalog, trace[|trace| - 1].params)
    else None
  }

  class Session {
    /** The song table's contents as the lookup sees them. */
    const catalog: map<seq<Value>, SongMatch>
    /** Every call made so far, oldest first. */
    var trace: seq<Effect>

    constructor (catalog: map<seq<Value>, SongMatch>)
      ensures this.catalog == catalog && trace == []
    {
      this.catalog := catalog;
      trace := [];
    }

    method Execute(statement: Statement, params: seq<Value>)
      modifies this
      ensures trace == old(trace) + [Executed(statement, params)]
    {
      trace := trace + [Executed(statement, params)];
    }

    method FetchOne() returns (row: Option<SongMatch>)
      modifies this
      ensures row == Fetched(catalog, old(trace))
      ensures trace == old(trace) + [FetchedOne]
    {
      row := Fetched(catalog, trace);
      trace := trace + [FetchedOne];
    }

    method Commit()
      modifies this
      ensures trace == old(trace) + [Committed]
    {
      trace := trace + [Committed];
    }

    method Print(line: string)
      modifies this
      ensures trace == old(trace) + [Printed(line)]
    {
      trace := trace + [Printed(line)];
    }
  }
}
