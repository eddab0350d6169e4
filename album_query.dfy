/**
 * The pure part of the album listing: validation of the two range pairs, the
 * conjunctive query built from the bounds that are present, its evaluation
 * over the album table, the contract it meets, and the track projection.
 *
 * Presence follows Python truthiness: a price bound is present when it is
 * given and non-zero (a zero decimal is false); a date is always true, so a
 * date bound is present exactly when it is given.
 */
module AlbumQuery {
  import opened Wrappers
  import opened Db

  /** The optional query parameters of the listing besides the artist and the track toggle. */
  datatype Params = Params(
    priceGte: Option<real>,
    priceLte: Option<real>,
    dateGte: Option<Date>,
    dateLte: Option<Date>)

  const NoBounds := Params(None, None, None, None)

  /** Truthiness of an optional decimal: absent and zero are both false. */
  predicate PriceGiven(p: Option<real>)
  {
    p.Some? && p.value != 0.0
  }

  /** Truthiness of an optional date: only the absent value is false. */
  predicate DateGiven(d: Option<Date>)
  {
    d.Some?
  }

  /** Both price bounds are present and the lower one exceeds the upper one. */
  predicate PriceInverted(p: Params)
  {
    PriceGiven(p.priceGte) && PriceGiven(p.priceLte) && p.priceGte.value > p.priceLte.value
  }

  /** Both date bounds are present and the lower one is after the upper one. */
  predicate DateInverted(p: Params)
  {
    DateGiven(p.dateGte) && DateGiven(p.dateLte) && Before(p.dateLte.value, p.dateGte.value)
  }

  // ---------------------------------------------------------------------------
  // The query as the handler builds it: one `where` condition per present bound.

  datatype Cond =
    | ArtistIs(artistId: int)
    | PriceAtLeast(low: real)
    | PriceAtMost(high: real)
    | DateFrom(first: Date)
    | DateUntil(last: Date)

  /** One SQL condition on one row; a NULL artist id equals no artist. */
  predicate Holds(c: Cond, a: Album)
  {
    match c
    case ArtistIs(id) => a.artistId == Some(id)
    case PriceAtLeast(low) => a.price >= low
    case PriceAtMost(high) => a.price <= high
    case DateFrom(first) => !Before(a.releaseDate, first)
    case DateUntil(last) => !Before(last, a.releaseDate)
  }

  predicate SatisfiesAll(q: seq<Cond>, a: Album)
  {
    forall i :: 0 <= i < |q| ==> Holds(q[i], a)
  }

  /** Starts from the artist condition and appends a condition for each present bound. */
  function BuildQuery(artistId: int, p: Params): (q: seq<Cond>)
    ensures |q| >= 1 && q[0] == ArtistIs(artistId)
  {
    var q := [ArtistIs(artistId)];
    var q := if PriceGiven(p.priceGte) then q + [PriceAtLeast(p.priceGte.value)] else q;
    var q := if PriceGiven(p.priceLte) then q + [PriceAtMost(p.priceLte.value)] else q;
    var q := if DateGiven(p.dateGte) then q + [DateFrom(p.dateGte.value)] else q;
    var q := if DateGiven(p.dateLte) then q + [DateUntil(p.dateLte.value)] else q;
    q
  }

  /** Runs a query over the table: the rows satisfying every condition, in table order. */
  function Select(rows: seq<Album>, q: seq<Cond>): (r: seq<Album>)
    ensures |r| <= |rows|
    ensures forall i :: 0 <= i < |r| ==> SatisfiesAll(q, r[i])
  {
    if rows == [] then []
    else (if SatisfiesAll(q, rows[0]) then [rows[0]] else []) + Select(rows[1..], q)
  }

  // ---------------------------------------------------------------------------
  // The contract of the listing, stated directly.

  /** The album is the artist's and lies inclusively within every present bound. */
  predicate InRange(artistId: int, p: Params, a: Album)
  {
    && a.artistId == Some(artistId)
    && (PriceGiven(p.priceGte) ==> p.priceGte.value <= a.price)
    && (PriceGiven(p.priceLte) ==> a.price <= p.priceLte.value)
    && (DateGiven(p.dateGte) ==> !Before(a.releaseDate, p.dateGte.value))
    && (DateGiven(p.dateLte) ==> !Before(p.dateLte.value, a.releaseDate))
  }

  /** The albums of `rows` that are in range, in the order of `rows`. */
  function Matching(rows: seq<Album>, artistId: int, p: Params): (r: seq<Album>)
  {
    if rows == [] then []
    else (if InRange(artistId, p, rows[0]) then [rows[0]] else []) + Matching(rows[1..], artistId, p)
  }

  /** The built query holds of an album exactly when the album is in range. */
  lemma QueryMeansInRange(artistId: int, p: Params, a: Album)
    ensures SatisfiesAll(BuildQuery(artistId, p), a) <==> InRange(artistId, p, a)
  {
    var q := BuildQuery(artistId, p);
    if SatisfiesAll(q, a) {
      assert Holds(q[0], a);
      if PriceGiven(p.priceGte) {
        assert q[1] == PriceAtLeast(p.priceGte.value);
        assert Holds(q[1], a);
      }
      var k := if PriceGiven(p.priceGte) then 2 else 1;
      if PriceGiven(p.priceLte) {
        assert q[k] == PriceAtMost(p.priceLte.value);
        assert Holds(q[k], a);
      }
      var m := if PriceGiven(p.priceLte) then k + 1 else k;
      if DateGiven(p.dateGte) {
        assert q[m] == DateFrom(p.dateGte.value);
        assert Holds(q[m], a);
      }
      var n := if DateGiven(p.dateGte) then m + 1 else m;
      if DateGiven(p.dateLte) {
        assert q[n] == DateUntil(p.dateLte.value);
        assert Holds(q[n], a);
      }
    }
  }

  /** Running the built query gives exactly the contract's albums. */
  lemma {:induction false} SelectIsMatching(rows: seq<Album>, artistId: int, p: Params)
    ensures Select(rows, BuildQuery(artistId, p)) == Matching(rows, artistId, p)
  {
    if rows != [] {
      QueryMeansInRange(artistId, p, rows[0]);
      SelectIsMatching(rows[1..], artistId, p);
    }
  }

  /** An album is listed exactly when it is stored and in range. */
  lemma {:induction false} MatchingMembers(rows: seq<Album>, artistId: int, p: Params, a: Album)
    ensures a in Matching(rows, artistId, p) <==> a in rows && InRange(artistId, p, a)
  {
    if rows != [] {
      MatchingMembers(rows[1..], artistId, p, a);
      assert rows == [rows[0]] + rows[1..];
    }
  }

  /** The listing keeps store order: it distributes over concatenation of the table. */
  lemma {:induction false} MatchingAppend(xs: seq<Album>, ys: seq<Album>, artistId: int, p: Params)
    ensures Matching(xs + ys, artistId, p) == Matching(xs, artistId, p) + Matching(ys, artistId, p)
  {
    if xs == [] {
      assert xs + ys == ys;
    } else {
      assert (xs + ys)[1..] == xs[1..] + ys;
      MatchingAppend(xs[1..], ys, artistId, p);
    }
  }

  /** Ids strictly increase along the sequence (every row has one). */
  predicate IdsIncreasing(rows: seq<Album>)
  {
    && (forall i :: 0 <= i < |rows| ==> rows[i].id.Some?)
    && (forall i, j :: 0 <= i < j < |rows| ==> rows[i].id.value < rows[j].id.value)
  }

  /** A listing taken from a table in id order is in id order. */
  lemma {:induction false} MatchingIdsIncreasing(rows: seq<Album>, artistId: int, p: Params)
    requires IdsIncreasing(rows)
    ensures IdsIncreasing(Matching(rows, artistId, p))
  {
    if rows != [] {
      var tail := rows[1..];
      assert IdsIncreasing(tail) by {
        forall i, j | 0 <= i < j < |tail| ensures tail[i].id.value < tail[j].id.value {
          assert tail[i] == rows[i + 1] && tail[j] == rows[j + 1];
        }
      }
      MatchingIdsIncreasing(tail, artistId, p);
      var rest := Matching(tail, artistId, p);
      forall b | b in rest ensures b.id.Some? && rows[0].id.value < b.id.value {
        MatchingMembers(tail, artistId, p, b);
        var k :| 0 <= k < |tail| && tail[k] == b;
        assert rows[k + 1] == b;
      }
      var head: seq<Album> := if InRange(artistId, p, rows[0]) then [rows[0]] else [];
      var r := head + rest;
      assert r == Matching(rows, artistId, p);
      forall i, j | 0 <= i < j < |r| ensures r[i].id.value < r[j].id.value {
        if |head| == 1 && i == 0 {
          assert r[j] == rest[j - 1];
          assert rest[j - 1] in rest;
        } else {
          assert r[i] == rest[i - |head|] && r[j] == rest[j - |head|];
        }
      }
    }
  }

  /**
   * With no bounds, the listing is every album filed under the artist, in
   * table order: the query holding only the artist condition.
   */
  lemma {:induction false} MatchingNoBounds(rows: seq<Album>, artistId: int)
    ensures Matching(rows, artistId, NoBounds) == Select(rows, [ArtistIs(artistId)])
    ensures forall a :: a in Matching(rows, artistId, NoBounds) <==> a in rows && a.artistId == Some(artistId)
  {
    if rows != [] {
      var only := [ArtistIs(artistId)];
      assert SatisfiesAll(only, rows[0]) <==> Holds(only[0], rows[0]);
      MatchingNoBounds(rows[1..], artistId);
    }
    forall a ensures a in Matching(rows, artistId, NoBounds) <==> a in rows && a.artistId == Some(artistId) {
      MatchingMembers(rows, artistId, NoBounds, a);
    }
  }

  /** An artist with no stored albums (or no such artist) gets the empty list. */
  lemma {:induction false} MatchingUnknownArtist(rows: seq<Album>, artistId: int, p: Params)
    requires forall i :: 0 <= i < |rows| ==> rows[i].artistId != Some(artistId)
    ensures Matching(rows, artistId, p) == []
  {
    if rows != [] {
      MatchingUnknownArtist(rows[1..], artistId, p);
    }
  }

  /**
   * A price bound of zero counts as not given, both in the range check and
   * in the filter.
   */
  lemma {:induction false} ZeroPriceIgnored(rows: seq<Album>, artistId: int, p: Params)
    ensures PriceInverted(p.(priceGte := Some(0.0))) == PriceInverted(p.(priceGte := None))
    ensures PriceInverted(p.(priceLte := Some(0.0))) == PriceInverted(p.(priceLte := None))
    ensures Matching(rows, artistId, p.(priceGte := Some(0.0))) == Matching(rows, artistId, p.(priceGte := None))
    ensures Matching(rows, artistId, p.(priceLte := Some(0.0))) == Matching(rows, artistId, p.(priceLte := None))
  {
    if rows != [] {
      ZeroPriceIgnored(rows[1..], artistId, p);
    }
  }

  /** Equal bounds are not an inverted range; they select one price point or one day. */
  lemma EqualBoundsAccepted(artistId: int, p: Params, a: Album)
    requires p.priceGte == p.priceLte && p.dateGte == p.dateLte
    ensures !PriceInverted(p) && !DateInverted(p)
    ensures PriceGiven(p.priceGte) && InRange(artistId, p, a) ==> a.price == p.priceGte.value
    ensures DateGiven(p.dateGte) && InRange(artistId, p, a) ==> a.releaseDate == p.dateGte.value
  {
    if DateGiven(p.dateGte) && InRange(artistId, p, a) {
      DateTrichotomy(a.releaseDate, p.dateGte.value);
    }
  }

  // ---------------------------------------------------------------------------
  // The projection of the response.

  /**
   * An album as the listing shows it: with its stored tracks when they were
   * asked for, with absent tracks otherwise; every other field as stored.
   */
  function Shown(a: Album, includeTracks: bool): (r: Album)
    ensures includeTracks ==> r == a
    ensures !includeTracks ==> r.tracks.None?
    ensures r.(tracks := a.tracks) == a
  {
    if includeTracks then a else a.(tracks := None)
  }
}
