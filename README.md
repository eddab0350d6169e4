# Catalog service: artists, albums and filtered album listings

This project models the core of a small catalog web service. The service
stores artists and albums. An album may embed a list of tracks. The service
has four endpoints:

- list all artists;
- create an artist;
- create an album;
- list one artist's albums, with optional inclusive price and release-date
  bounds and a switch that says whether tracks are shown.

The model is written in Dafny and has four modules:

- `Wrappers` (`wrappers.dfy`): the `Option` type, used for every nullable
  field and optional parameter.
- `Db` (`db.dfy`): the record shapes `Track`, `Artist` and `Album`, the
  `Date` order, and the `val_track` validator (`ValTrack`). The validator
  keeps an absent track list absent, and maps a list, even an empty one, to
  the list of its tracks' dictionaries.
- `AlbumQuery` (`album_query.dfy`): the pure part of the album listing.
  - The range checks: `PriceInverted` and `DateInverted`.
  - The query the handler builds from the bounds that are present:
    `BuildQuery`, which yields a list of `Cond` values.
  - The query's evaluation over the album table, in table order: `Select`.
  - The listing's contract, stated directly: `InRange` and `Matching`.
  - The response projection: `Shown`.
- `Api` (`api.dfy`): the `Result` type (`Ok`, `InvalidInput`,
  `InvalidRange`, each error with its message) and the class
  `CatalogStore`. The class holds the artist table, the album table and the
  two next-id counters, standing in for the relational session. Its methods
  are the four handlers. Two scenario methods replay the repository's test
  request sequences on a fresh store.

Modelling decisions:

- Prices are exact decimals modelled as `real`.
- Dates are `(year, month, day)` triples, ordered lexicographically.
- A price bound counts as given when it is non-null and non-zero, because
  the handler tests the bound's Python truthiness. A zero bound is therefore
  ignored both by the range check and by the filter. This is modelled as
  written and stated by `ZeroPriceIgnored`. A date object is always truthy,
  so a date bound counts as given whenever it is non-null.
- `GetAlbums` has no `modifies` clause, so it cannot change the store. The
  track stripping runs as a loop over the fetched copy only.
- Stored rows carry no relationships. An artist row has `albums == None`
  and an album row has `artist == None`, because relationships are not
  columns and the serialised responses never embed them.
- `create_album` takes no path parameter: the stored `artist_id` is the
  one in the body, and the id in the path is ignored. `CreateAlbum` does not
  check that the artist exists.
- No artist id is checked for existence. A listing for an id that names no
  artist returns whatever albums were filed under that id, which is empty
  only when no album carries it.

## Model

| member | source | states |
|---|---|---|
| `Db.DateTrichotomy` | src/db.py:33 | release dates are totally ordered: either before, equal or after, never both before and after |
| `Db.DateTransitive` | src/db.py:33 | the date order is transitive |
| `Db.Dicts` | src/db.py:41 | the comprehension keeps the list's length and, position by position, each track's title and duration_ms |
| `Db.ValTrack` | src/db.py:38-41 | the validator's result is absent exactly when its input is; a list maps to a list of the same length with titles and durations kept in order |
| `Db.ValTrackKeeps` | src/db.py:38-41 | validation returns the track field unchanged, so what is supplied is what is stored |
| `Db.ValTrackNullVersusEmpty` | src/db.py:36-41 | absent tracks stay absent, an empty list stays empty, and the two remain distinct |
| `AlbumQuery.BuildQuery` | src/api.py:60-62 | every query starts with the condition that the album belongs to the path's artist |
| `AlbumQuery.Select` | src/api.py:73 | evaluating a query returns no more rows than the table has, and each returned row satisfies every condition |
| `AlbumQuery.QueryMeansInRange` | src/api.py:60-71 | the built query holds of an album exactly when the album is the artist's and lies inclusively within each present bound (both directions) |
| `AlbumQuery.SelectIsMatching` | src/api.py:60-73 | running the built query over any table gives the contract's listing, `Matching` |
| `AlbumQuery.MatchingMembers` | src/api.py:60-73 | an album is listed if and only if it is stored and in range |
| `AlbumQuery.MatchingAppend` | src/api.py:60-73 | the listing keeps store order: the listing of a concatenated table is the concatenation of the listings |
| `AlbumQuery.MatchingIdsIncreasing` | src/api.py:73 | a listing taken from a table in id order is itself in id order |
| `AlbumQuery.MatchingNoBounds` | src/api.py:60-62 | on any table, with no bounds the listing equals the query holding only the artist condition: an album is listed if and only if it is stored under that artist id, in table order |
| `AlbumQuery.MatchingUnknownArtist` | src/api.py:58-62 | when no stored album carries the artist id, the listing is the empty list and not an error |
| `AlbumQuery.ZeroPriceIgnored` | src/api.py:47-67 | a price bound of zero behaves exactly like an absent one, both in the range check and in the filter |
| `AlbumQuery.EqualBoundsAccepted` | src/api.py:47-56 | equal lower and upper bounds are not rejected, and then select exactly one price point or one day |
| `AlbumQuery.Shown` | src/api.py:75-77 | with tracks requested the stored album is returned unchanged; otherwise its tracks are absent; every other field is always the stored one |
| `Api.CatalogStore.constructor` | src/api.py:20-22 | the store starts with empty artist and album tables and id counters at 1 |
| `Api.CatalogStore.ListArtists` | src/api.py:31-35 | returns every stored artist in creation order; the k-th has id k and no embedded albums |
| `Api.CatalogStore.GetAlbums` | src/api.py:38-78 | an inverted price pair gives the price message; otherwise an inverted date pair gives the date message; otherwise the result is exactly the in-range stored albums in store order, each projected by the track switch; the store is not modified |
| `Api.CatalogStore.CreateArtist` | src/api.py:82-101 | a supplied id gives "Cannot supply id" and a non-empty album list gives "Cannot create albums with this endpoint", both leaving the store unchanged; otherwise exactly one artist row with id count+1 is appended and returned |
| `Api.CatalogStore.CreateAlbum` | src/api.py:104-122 | a supplied id gives "Cannot supply id" and a nested artist gives "Cannot create artist with this endpoint", both leaving the store unchanged; otherwise exactly one album row with id count+1 and the supplied tracks is appended and returned, without checking that the artist exists |
| `Api.StoreListingInIdOrder` | src/api.py:58-73 | every listing of the store's album table is in ascending id order |
| `Api.ArtistsScenario` | test/test_api.py:65-78 | on a fresh store the artist list is empty; two creations return ids 1 and 2; the list is then those two artists in order |
| `Api.AlbumsScenario` | test/test_api.py:81-128 | replays the album test: empty listing first, the full creation answers (ids 1 and 2, artist id, name, date, price, and tracks absent or exactly the two supplied tracks), default and track-including listings, price_gte=75 and date_gte=2023-05-25 each selecting only the second album, and both inverted ranges rejected with their messages |

## Left out

- The web framework: routing, `read_root`, the startup hook, logging and
  HTTP status codes. The two client-error kinds remain as `InvalidInput`
  and `InvalidRange`.
- Request parsing and response rendering: coercion of `include_tracks=1`,
  parsing of ISO date strings, and decimals rendered as JSON numbers. These
  belong to the framework, not to the code modelled here.
- The database engine, sessions, `get_session`, `create_db`, the database
  URL and the JSON encoding of the track column. An in-memory table in
  `CatalogStore` replaces them.
- Delivery order. The SQL query has no `ORDER BY`. The model returns rows in
  table order, which is id order because ids are assigned in creation order
  and nothing is deleted.
- Store failures. The model has no unavailable-storage error.
- Async handlers and concurrent requests. The model is sequential.
- Floating-point prices (the model uses exact reals), and decimal
  special values such as NaN and infinity.
- Calendar validity of dates, such as month ranges and leap days. Only the
  order of dates matters to the code.
- The test fixtures and the test client setup.
