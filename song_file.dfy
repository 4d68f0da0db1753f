/**
 * The song-file transform: the first record of a song file gives one song row
 * and one artist row, inserted in that order.
 */
module SongFile {
  import opened Records
  import opened Database

  /** The song row: (song_id, title, artist_id, year, duration). */
  function SongParams(r: SongRecord): seq<Value> {
    [r.songId, r.title, r.artistId, r.year, r.duration]
  }

  /** The artist row: (artist_id, artist_name, artist_location, artist_latitude, artist_longitude). */
  function ArtistParams(r: SongRecord): seq<Value> {
    [r.artistId, r.artistName, r.artistLocation, r.artistLatitude, r.artistLongitude]
  }

  /** What processing a song file does. A file with no records has no
      columns, so selecting the song columns fails before any call. */
  function SongFileRun(file: seq<SongRecord>): Run {
    if |file| == 0 then Run(Fail(ColumnNotFound), [])
    else Run(Pass, [Executed(SongTableInsert, SongParams(file[0])),
                    Executed(ArtistTableInsert, ArtistParams(file[0]))])
  }

  method ProcessSongFile(s: Session, file: seq<SongRecord>) returns (o: Outcome)
    modifies s
    ensures o == SongFileRun(file).outcome
    ensures s.trace == old(s.trace) + SongFileRun(file).effects
  {
    if |file| == 0 {
      return Fail(ColumnNotFound);
    }
    var songData := [file[0].songId, file[0].title, file[0].artistId, file[0].year, file[0].duration];
    s.Execute(SongTableInsert, songData);
    var artistData := [file[0].artistId, file[0].artistName, file[0].artistLocation,
                       file[0].artistLatitude, file[0].artistLongitude];
    s.Execute(ArtistTableInsert, artistData);
    return Pass;
  }

  /** A non-empty song file makes exactly two calls: the song insert with the
      first record's song columns, then the artist insert with its artist
      columns, values unchanged and in column order. */
  lemma SongFileCalls(file: seq<SongRecord>)
    requires |file| > 0
    ensures SongFileRun(file).outcome == Pass
    ensures var e := SongFileRun(file).effects;
      && |e| == 2
      && e[0] == Executed(SongTableInsert, [file[0].songId, file[0].title, file[0].artistId,
                                            file[0].year, file[0].duration])
      && e[1] == Executed(ArtistTableInsert, [file[0].artistId, file[0].artistName,
                                              file[0].artistLocation, file[0].artistLatitude,
                                              file[0].artistLongitude])
  {
  }

  /** Only the first record matters: whatever follows it is ignored. */
  lemma LaterRecordsIgnored(first: SongRecord, rest: seq<SongRecord>, other: seq<SongRecord>)
    ensures SongFileRun([first] + rest) == SongFileRun([first] + other)
  {
  }

  /** The artist row inserted is the artist the song row refers to. */
  lemma SongRefersToArtist(file: seq<SongRecord>)
    requires |file| > 0
    ensures SongFileRun(file).effects[0].params[2] == SongFileRun(file).effects[1].params[0]
  {
  }

  /** A song file fails exactly when it has no records, and then makes no call. */
  lemma SongFileFails(file: seq<SongRecord>)
    ensures SongFileRun(file).outcome.Fail? <==> |file| == 0
    ensures SongFileRun(file).outcome.Fail? ==> SongFileRun(file).effects == []
    ensures CursorCallsOnly(SongFileRun(file).effects)
  {
  }
}
