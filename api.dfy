/**
 * The request handlers of the catalog over an in-memory store that stands in
 * for the relational session: listing artists, listing an artist's albums
 * with range filters and the track toggle, and the two create endpoints with
 * their input guards.
 */
module Api {
  import opened Wrappers
  import opened Db
  import opened AlbumQuery

  /** A handler's outcome: a value, or one of the two client-error kinds with its message. */
  datatype Result<+T> = Ok(value: T) | InvalidInput(msg: string) | InvalidRange(msg: string)

  const PriceRangeMsg := "price_gte must be less than price_lte"
  const DateRangeMsg := "date_gte must be less than date_lte"
  const SuppliedIdMsg := "Cannot supply id"
  const NestedAlbumsMsg := "Cannot create albums with this endpoint"
  const NestedArtistMsg := "Cannot create artist with this endpoint"

  /** Truthiness of an artist's album list: given and non-empty. */
  predicate HasAlbums(a: Artist)
  {
    a.albums.Some? && |a.albums.value| > 0
  }

  /** The row of the k-th artist: id k, no embedded albums. */
  predicate ArtistRow(a: Artist, k: int)
  {
    a.id == Some(k) && a.albums.None?
  }

  /** The row of the k-th album: id k, no embedded artist. */
  predicate AlbumRow(a: Album, k: int)
  {
    a.id == Some(k) && a.artist.None?
  }

  class CatalogStore {
    var artists: seq<Artist>
    var albums: seq<Album>
    var nextArtistId: int
    var nextAlbumId: int

    /** Rows are numbered from 1 in creation order and the counters name the next id. */
    ghost predicate Valid()
      reads this
    {
      && nextArtistId == |artists| + 1
      && nextAlbumId == |albums| + 1
      && (forall i :: 0 <= i < |artists| ==> ArtistRow(artists[i], i + 1))
      && (forall i :: 0 <= i < |albums| ==> AlbumRow(albums[i], i + 1))
    }

    constructor ()
      ensures Valid()
      ensures artists == [] && albums == []
    {
      artists, albums := [], [];
      nextArtistId, nextAlbumId := 1, 1;
    }

    /** All artists in creation order; the k-th has id k and no embedded albums. */
    method ListArtists() returns (r: seq<Artist>)
      requires Valid()
      ensures r == artists
      ensures forall i :: 0 <= i < |r| ==> r[i].id == Some(i + 1) && r[i].albums.None?
    {
      r := artists;
    }

    /**
     * The albums of one artist. An inverted price pair, then an inverted date
     * pair, is rejected before anything is read; otherwise the result is the
     * in-range albums in store order, each shown with or without its tracks.
     * Nothing in the store changes.
     */
    method GetAlbums(artistId: int, priceGte: Option<real>, priceLte: Option<real>,
                     dateGte: Option<Date>, dateLte: Option<Date>, includeTracks: bool)
      returns (r: Result<seq<Album>>)
      ensures var p := Params(priceGte, priceLte, dateGte, dateLte);
        PriceInverted(p) ==> r == InvalidRange(PriceRangeMsg)
      ensures var p := Params(priceGte, priceLte, dateGte, dateLte);
        !PriceInverted(p) && DateInverted(p) ==> r == InvalidRange(DateRangeMsg)
      ensures var p := Params(priceGte, priceLte, dateGte, dateLte);
        !PriceInverted(p) && !DateInverted(p) ==>
          && r.Ok?
          && |r.value| == |Matching(albums, artistId, p)|
          && forall i :: 0 <= i < |r.value| ==> r.value[i] == Shown(Matching(albums, artistId, p)[i], includeTracks)
    {
      var p := Params(priceGte, priceLte, dateGte, dateLte);
      if PriceInverted(p) {
        return InvalidRange(PriceRangeMsg);
      }
      if DateInverted(p) {
        return InvalidRange(DateRangeMsg);
      }
      var q := BuildQuery(artistId, p);
      var fetched := Select(albums, q);
      ghost var rows := fetched;
      if !includeTracks {
        var i := 0;
        while i < |fetched|
          invariant 0 <= i <= |fetched| == |rows|
          invariant forall k :: 0 <= k < i ==> fetched[k] == rows[k].(tracks := None)
          invariant forall k :: i <= k < |fetched| ==> fetched[k] == rows[k]
        {
          fetched := fetched[i := fetched[i].(tracks := None)];
          i := i + 1;
        }
      }
      SelectIsMatching(albums, artistId, p);
      r := Ok(fetched);
    }

    /**
     * Creates an artist. A supplied id, or a non-empty album list, is
     * rejected and the store is left as it was; otherwise one row with the
     * next id is appended and returned.
     */
    method CreateArtist(artist: Artist) returns (r: Result<Artist>)
      requires Valid()
      modifies this
      ensures Valid()
      ensures albums == old(albums)
      ensures artist.id.Some? ==> r == InvalidInput(SuppliedIdMsg) && artists == old(artists)
      ensures artist.id.None? && HasAlbums(artist) ==>
                r == InvalidInput(NestedAlbumsMsg) && artists == old(artists)
      ensures artist.id.None? && !HasAlbums(artist) ==>
                && r == Ok(Artist(Some(|old(artists)| + 1), artist.name, None))
                && artists == old(artists) + [r.value]
    {
      if artist.id.Some? {
        return InvalidInput(SuppliedIdMsg);
      }
      if HasAlbums(artist) {
        return InvalidInput(NestedAlbumsMsg);
      }
      var row := Artist(Some(nextArtistId), artist.name, None);
      artists := artists + [row];
      nextArtistId := nextArtistId + 1;
      r := Ok(row);
    }

    /**
     * Creates an album. A supplied id, or a nested artist, is rejected and
     * the store is left as it was; otherwise one row with the next id is
     * appended and returned, its tracks exactly as supplied. Whether the
     * artist exists is not checked.
     */
    method CreateAlbum(album: Album) returns (r: Result<Album>)
      requires Valid()
      modifies this
      ensures Valid()
      ensures artists == old(artists)
      ensures album.id.Some? ==> r == InvalidInput(SuppliedIdMsg) && albums == old(albums)
      ensures album.id.None? && album.artist.Some? ==>
                r == InvalidInput(NestedArtistMsg) && albums == old(albums)
      ensures album.id.None? && album.artist.None? ==>
                && r == Ok(album.(id := Some(|old(albums)| + 1)))
                && albums == old(albums) + [r.value]
    {
      if album.id.Some? {
        return InvalidInput(SuppliedIdMsg);
      }
      if album.artist.Some? {
        return InvalidInput(NestedArtistMsg);
      }
      var row := album.(id := Some(nextAlbumId), tracks := ValTrack(album.tracks));
      ValTrackKeeps(album.tracks);
      albums := albums + [row];
      nextAlbumId := nextAlbumId + 1;
      r := Ok(row);
    }
  }

  /** The store's album table is in id order, so every listing is too. */
  lemma StoreListingInIdOrder(rows: seq<Album>, artistId: int, p: Params)
    requires forall i :: 0 <= i < |rows| ==> AlbumRow(rows[i], i + 1)
    ensures IdsIncreasing(Matching(rows, artistId, p))
  {
    MatchingIdsIncreasing(rows, artistId, p);
  }

  // ---------------------------------------------------------------------------
  // The two request sequences of the repository's tests, replayed on a fresh store.

  /** Two artists created one after the other get ids 1 and 2 and are listed in that order. */
  method ArtistsScenario() returns (before: seq<Artist>, first: Result<Artist>, second: Result<Artist>, after: seq<Artist>)
    ensures before == []
    ensures first == Ok(Artist(Some(1), "the first ones", None))
    ensures second == Ok(Artist(Some(2), "number two", None))
    ensures after == [first.value, second.value]
  {
    var store := new CatalogStore();
    before := store.ListArtists();
    first := store.CreateArtist(Artist(None, "the first ones", None));
    second := store.CreateArtist(Artist(None, "number two", None));
    after := store.ListArtists();
  }

  /** The listing of a two-row table, row by row. */
  lemma MatchingOfTwo(a: Album, b: Album, artistId: int, p: Params)
    ensures Matching([a, b], artistId, p) ==
              (if InRange(artistId, p, a) then [a] else []) + (if InRange(artistId, p, b) then [b] else [])
  {
    assert [a, b][1..] == [b];
    assert [b][1..] == [];
    calc {
      Matching([a, b], artistId, p);
      (if InRange(artistId, p, a) then [a] else []) + Matching([b], artistId, p);
      (if InRange(artistId, p, a) then [a] else []) + ((if InRange(artistId, p, b) then [b] else []) + Matching([], artistId, p));
    }
  }

  /**
   * One artist with two albums, the second with two tracks: creation
   * answers, the default and the track-including listings, one filter on each
   * field, and the two inverted ranges.
   */
  method AlbumsScenario()
    returns (empty: Result<seq<Album>>, created1: Result<Album>, created2: Result<Album>,
             noTracks: Result<seq<Album>>, withTracks: Result<seq<Album>>,
             byPrice: Result<seq<Album>>, byDate: Result<seq<Album>>,
             badPrice: Result<seq<Album>>, badDate: Result<seq<Album>>)
    ensures empty == Ok([])
    ensures created1 == Ok(Album(Some(1), Some(1), None, "the first part", Date(2023, 5, 15), 50.0, None))
    ensures created2 == Ok(Album(Some(2), Some(1), None, "the second part", Date(2023, 6, 1), 100.0,
                                 Some([Track(Some("intro"), Some(400)), Track(Some("the body of the work"), Some(400000))])))
    ensures noTracks == Ok([created1.value, created2.value.(tracks := None)])
    ensures withTracks == Ok([created1.value, created2.value])
    ensures byPrice == Ok([created2.value.(tracks := None)])
    ensures byDate == Ok([created2.value.(tracks := None)])
    ensures badPrice == InvalidRange(PriceRangeMsg)
    ensures badDate == InvalidRange(DateRangeMsg)
  {
    var store := new CatalogStore();
    var _ := store.CreateArtist(Artist(None, "the first ones", None));
    empty := store.GetAlbums(1, None, None, None, None, false);
    var tracks := [Track(Some("intro"), Some(400)), Track(Some("the body of the work"), Some(400000))];
    var album1 := AlbumWithDefaults(1, "the first part", Date(2023, 5, 15), 50.0);
    var album2 := AlbumWithDefaults(1, "the second part", Date(2023, 6, 1), 100.0).(tracks := Some(tracks));
    created1 := store.CreateAlbum(album1);
    created2 := store.CreateAlbum(album2);
    assert store.albums == [created1.value, created2.value];
    MatchingOfTwo(created1.value, created2.value, 1, NoBounds);
    MatchingOfTwo(created1.value, created2.value, 1, Params(Some(75.0), None, None, None));
    MatchingOfTwo(created1.value, created2.value, 1, Params(None, None, Some(Date(2023, 5, 25)), None));
    noTracks := store.GetAlbums(1, None, None, None, None, false);
    assert noTracks.value == [created1.value, created2.value.(tracks := None)] by {
      assert |noTracks.value| == 2 && noTracks.value[0] == created1.value;
    }
    withTracks := store.GetAlbums(1, None, None, None, None, true);
    assert withTracks.value == [created1.value, created2.value] by {
      assert |withTracks.value| == 2;
    }
    byPrice := store.GetAlbums(1, Some(75.0), None, None, None, false);
    assert byPrice.value == [created2.value.(tracks := None)] by {
      var p := Params(Some(75.0), None, None, None);
      assert !InRange(1, p, created1.value) && InRange(1, p, created2.value);
      assert |byPrice.value| == 1;
    }
    byDate := store.GetAlbums(1, None, None, Some(Date(2023, 5, 25)), None, false);
    assert byDate.value == [created2.value.(tracks := None)] by {
      var p := Params(None, None, Some(Date(2023, 5, 25)), None);
      assert !InRange(1, p, created1.value) && InRange(1, p, created2.value);
      assert |byDate.value| == 1;
    }
    badPrice := store.GetAlbums(1, Some(75.0), Some(50.0), None, None, false);
    badDate := store.GetAlbums(1, None, None, Some(Date(2023, 5, 25)), Some(Date(2023, 5, 15)), false);
  }
}
