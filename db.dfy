/**
 * The record shapes of the catalog: artists, albums and the tracks embedded
 * in an album's JSON column, together with the validator that normalises the
 * track list when an album is parsed.
 */
module Db {
  import opened Wrappers

  /** A calendar date, compared as a date is: by year, then month, then day. */
  datatype Date = Date(year: int, month: int, day: int)

  /** `a` lies strictly before `b`. */
  predicate Before(a: Date, b: Date)
  {
    || a.year < b.year
    || (a.year == b.year && a.month < b.month)
    || (a.year == b.year && a.month == b.month && a.day < b.day)
  }

  /** Dates are totally ordered: exactly one of before, equal, after holds. */
  lemma DateTrichotomy(a: Date, b: Date)
    ensures Before(a, b) || a == b || Before(b, a)
    ensures !(Before(a, b) && Before(b, a))
    ensures !Before(a, a)
  {
  }

  lemma DateTransitive(a: Date, b: Date, c: Date)
    requires Before(a, b) && Before(b, c)
    ensures Before(a, c)
  {
  }

  /** A track has no identity: only an optional title and an optional duration. */
  datatype Track = Track(title: Option<string>, durationMs: Option<int>)

  /**
   * An artist. `id` is absent until the store assigns one; `albums` is the
   * relationship to the artist's albums, which is not a column of the row.
   */
  datatype Artist = Artist(id: Option<int>, name: string, albums: Option<seq<Album>>)

  /**
   * An album. `artist` is the relationship to the owning artist (not a
   * column); `tracks` is the embedded track list, which is either absent or a
   * list, possibly empty. Prices are exact decimals.
   */
  datatype Album = Album(
    id: Option<int>,
    artistId: Option<int>,
    artist: Option<Artist>,
    name: string,
    releaseDate: Date,
    price: real,
    tracks: Option<seq<Track>>)

  /** The request body of a new album that omits every optional field. */
  function AlbumWithDefaults(artistId: int, name: string, releaseDate: Date, price: real): Album
  {
    Album(None, Some(artistId), None, name, releaseDate, price, None)
  }

  /** A track turned into its dictionary form: its two fields and nothing else. */
  function AsDict(t: Track): (d: Track)
  {
    Track(t.title, t.durationMs)
  }

  /** Every track of a list in dictionary form, in order. */
  function Dicts(ts: seq<Track>): (ds: seq<Track>)
    ensures |ds| == |ts|
    ensures forall i :: 0 <= i < |ts| ==> ds[i].title == ts[i].title && ds[i].durationMs == ts[i].durationMs
  {
    if ts == [] then [] else [AsDict(ts[0])] + Dicts(ts[1..])
  }

  /**
   * The validator of the `tracks` field: an absent list stays absent, a list
   * (also an empty one) becomes the list of its tracks' dictionaries.
   */
  function ValTrack(val: Option<seq<Track>>): (r: Option<seq<Track>>)
    ensures r.None? <==> val.None?
    ensures r.Some? ==> |r.value| == |val.value|
    ensures r.Some? ==> forall i :: 0 <= i < |r.value| ==>
                          r.value[i].title == val.value[i].title &&
                          r.value[i].durationMs == val.value[i].durationMs
  {
    if val.Some? then Some(Dicts(val.value)) else None
  }

  /** Validation loses nothing: the value comes out exactly as it went in. */
  lemma ValTrackKeeps(val: Option<seq<Track>>)
    ensures ValTrack(val) == val
  {
    if val.Some? {
      var ds := Dicts(val.value);
      assert forall i :: 0 <= i < |ds| ==> ds[i] == val.value[i];
      assert ds == val.value;
    }
  }

  /** In particular the absent list and the empty list stay apart. */
  lemma ValTrackNullVersusEmpty()
    ensures ValTrack(None) == None
    ensures ValTrack(Some([])) == Some([])
    ensures ValTrack(None) != ValTrack(Some([]))
  {
  }
}
