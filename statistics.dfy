/** The dataset-wide summary shown on the overview page, computed from the
    loaded table. */
module Statistics {
  import opened Wrappers
  import opened Dataset
  import Artists

  /** The summary's entries, in the order of the summary dictionary:
      total_tracks, total_artists, total_albums, total_genres,
      duracao_media_min, popularidade_media, track_mais_popular,
      artista_track_mais_popular, genero_mais_comum, tracks_explicitas,
      percentual_explicitas. Means and the percentage are exact (unrounded). */
  datatype Summary = Summary(
    totalTracks: nat,
    totalArtists: nat,
    totalAlbums: nat,
    totalGenres: nat,
    meanDurationMin: real,
    meanPopularity: real,
    mostPopularTrack: string,
    mostPopularArtist: string,
    mostCommonGenre: string,
    explicitTracks: nat,
    explicitPercent: real)

  /** The summary of an empty table is undefined: the row of maximum
      popularity and the most common genre do not exist. */
  datatype StatsError = EmptyTable

  // ---------------------------------------------------------------- column accessors

  function IsExplicit(r: Row): bool { r.explicit }
  function PopularityOf(r: Row): real { r.popularity as real }
  function DurationMinOf(r: Row): real { r.durationMin }
  function FirstArtistOf(r: Row): string { r.firstArtist }
  function AlbumOf(r: Row): string { r.albumName }
  function GenreOf(r: Row): string { r.trackGenre }

  // ---------------------------------------------------------------- aggregations

  /** How many rows satisfy p (the sum of a boolean column). */
  function Count(rows: seq<Row>, p: Row -> bool): (n: nat)
    ensures n <= |rows|
  {
    if rows == [] then 0
    else Count(rows[..|rows| - 1], p) + (if p(rows[|rows| - 1]) then 1 else 0)
  }

  /** The sum of a numeric column. */
  function Total(rows: seq<Row>, f: Row -> real): real
  {
    if rows == [] then 0.0
    else Total(rows[..|rows| - 1], f) + f(rows[|rows| - 1])
  }

  /** The mean of a numeric column over a non-empty table. */
  function Mean(rows: seq<Row>, f: Row -> real): (m: real)
    requires |rows| > 0
    ensures m * |rows| as real == Total(rows, f)
  {
    Total(rows, f) / |rows| as real
  }

  /** `part / whole * 100`: the share of part in whole, in percent. */
  function Percent(part: nat, whole: nat): (pct: real)
    requires 0 < whole && part <= whole
    ensures 0.0 <= pct <= 100.0
    ensures pct * whole as real == 100.0 * part as real
  {
    var q := part as real / whole as real;
    assert q * whole as real == part as real;
    assert q <= 1.0 by {
      assert part as real / whole as real <= whole as real / whole as real;
    }
    q * 100.0
  }

  /** The distinct values of a column (`nunique` counts them). */
  function Distinct(rows: seq<Row>, f: Row -> string): set<string>
  {
    set r | r in rows :: f(r)
  }

  /** The distinct values of a column are every row's value, and only values
      some row has. */
  lemma DistinctMembers(rows: seq<Row>, f: Row -> string)
    ensures forall i :: 0 <= i < |rows| ==> f(rows[i]) in Distinct(rows, f)
    ensures forall v :: v in Distinct(rows, f) <==> exists i :: 0 <= i < |rows| && f(rows[i]) == v
  {
    forall v | v in Distinct(rows, f) ensures exists i :: 0 <= i < |rows| && f(rows[i]) == v {
      var r :| r in rows && f(r) == v;
      var i :| 0 <= i < |rows| && rows[i] == r;
    }
  }

  /** How many rows have the given genre code (its entry in
      `value_counts`): the number of positions holding that genre. */
  function Occurrences(rows: seq<Row>, genre: string): (n: nat)
    ensures n == |set i | 0 <= i < |rows| && rows[i].trackGenre == genre|
  {
    var isGenre := (r: Row) => r.trackGenre == genre;
    CountIsPositions(rows, isGenre);
    assert (set i | 0 <= i < |rows| && isGenre(rows[i])) == (set i | 0 <= i < |rows| && rows[i].trackGenre == genre);
    Count(rows, isGenre)
  }

  /** `idxmax` of the popularity column: the first row of maximum
      popularity. */
  function FirstMostPopular(rows: seq<Row>): (i: nat)
    requires |rows| > 0
    ensures i < |rows|
    ensures forall j :: 0 <= j < |rows| ==> rows[j].popularity <= rows[i].popularity
    ensures forall j :: 0 <= j < i ==> rows[j].popularity < rows[i].popularity
  {
    if |rows| == 1 then 0
    else
      var k := FirstMostPopular(rows[1..]) + 1;
      if rows[0].popularity >= rows[k].popularity then 0 else k
  }

  /** A row whose genre is the most frequent among the first n rows'
      genres (on ties, the first such row). */
  function MostFrequentGenreAmong(rows: seq<Row>, n: nat): (i: nat)
    requires 0 < n <= |rows|
    ensures i < n
    ensures forall j :: 0 <= j < n ==> Occurrences(rows, rows[j].trackGenre) <= Occurrences(rows, rows[i].trackGenre)
  {
    if n == 1 then 0
    else
      var b := MostFrequentGenreAmong(rows, n - 1);
      if Occurrences(rows, rows[n - 1].trackGenre) > Occurrences(rows, rows[b].trackGenre) then n - 1 else b
  }

  /** `value_counts().index[0]`: a genre no other genre outnumbers. */
  function MostCommonGenre(rows: seq<Row>): (g: string)
    requires |rows| > 0
    ensures g in Distinct(rows, GenreOf)
    ensures forall r :: r in rows ==> Occurrences(rows, r.trackGenre) <= Occurrences(rows, g)
  {
    var i := MostFrequentGenreAmong(rows, |rows|);
    assert GenreOf(rows[i]) == rows[i].trackGenre;
    rows[i].trackGenre
  }

  // ---------------------------------------------------------------- the summary

  /** The summary of a table. It fails exactly on the empty table; otherwise
      it counts every row and the distinct artists, albums and genres, takes
      the mean duration and popularity, names the track and artist of one row
      of maximum popularity and a genre no other outnumbers, and gives the
      explicit count and its share of the rows in percent. */
  function Stats(rows: seq<Row>): (r: Result<Summary, StatsError>)
    ensures r.Failure? <==> rows == []
    ensures r.Success? ==> r.value.totalTracks == |rows|
    ensures r.Success? ==>
              exists i :: 0 <= i < |rows|
                && rows[i].trackName == r.value.mostPopularTrack
                && rows[i].firstArtist == r.value.mostPopularArtist
                && forall j :: 0 <= j < |rows| ==> rows[j].popularity <= rows[i].popularity
    ensures r.Success? ==> forall x :: x in rows ==> Occurrences(rows, x.trackGenre) <= Occurrences(rows, r.value.mostCommonGenre)
    ensures r.Success? ==>
              && r.value.totalArtists == |Distinct(rows, FirstArtistOf)|
              && r.value.totalAlbums == |Distinct(rows, AlbumOf)|
              && r.value.totalGenres == |Distinct(rows, GenreOf)|
    ensures r.Success? ==>
              && 1 <= r.value.totalArtists <= |rows|
              && 1 <= r.value.totalAlbums <= |rows|
              && 1 <= r.value.totalGenres <= |rows|
    ensures r.Success? ==>
              && r.value.meanDurationMin == Mean(rows, DurationMinOf)
              && r.value.meanPopularity == Mean(rows, PopularityOf)
    ensures r.Success? ==>
              && r.value.explicitTracks == Count(rows, IsExplicit)
              && r.value.explicitPercent == Percent(r.value.explicitTracks, |rows|)
              && 0.0 <= r.value.explicitPercent <= 100.0
  {
    if rows == [] then Failure(EmptyTable)
    else
      var top := FirstMostPopular(rows);
      var explicitCount := Count(rows, IsExplicit);
      var pct := Percent(explicitCount, |rows|);
      var meanDuration := Mean(rows, DurationMinOf);
      var meanPopularity := Mean(rows, PopularityOf);
      DistinctBounds(rows, FirstArtistOf);
      DistinctBounds(rows, AlbumOf);
      DistinctBounds(rows, GenreOf);
      Success(Summary(
        totalTracks := |rows|,
        totalArtists := |Distinct(rows, FirstArtistOf)|,
        totalAlbums := |Distinct(rows, AlbumOf)|,
        totalGenres := |Distinct(rows, GenreOf)|,
        meanDurationMin := meanDuration,
        meanPopularity := meanPopularity,
        mostPopularTrack := rows[top].trackName,
        mostPopularArtist := rows[top].firstArtist,
        mostCommonGenre := MostCommonGenre(rows),
        explicitTracks := explicitCount,
        explicitPercent := pct))
  }

  /** The loader followed by the summary, as the summary function calls the
      loader. Every entry that does not depend on row order equals the one
      computed over the normalized raw rows in source order, and the most
      popular track and its artist come from one raw row of maximum
      popularity. */
  method BasicStatistics(raws: seq<RawRow>) returns (r: Result<Summary, StatsError>)
    ensures r.Failure? <==> raws == []
    ensures r.Success? ==> var rows := NormalizeAll(raws);
      && r.value.totalTracks == |raws|
      && r.value.totalArtists == |Distinct(rows, FirstArtistOf)|
      && r.value.totalAlbums == |Distinct(rows, AlbumOf)|
      && r.value.totalGenres == |Distinct(rows, GenreOf)|
      && r.value.meanDurationMin == Mean(rows, DurationMinOf)
      && r.value.meanPopularity == Mean(rows, PopularityOf)
      && r.value.explicitTracks == Count(rows, IsExplicit)
      && r.value.explicitPercent == Percent(Count(rows, IsExplicit), |rows|)
      && forall x :: x in rows ==> Occurrences(rows, x.trackGenre) <= Occurrences(rows, r.value.mostCommonGenre)
    ensures r.Success? ==>
              exists i :: 0 <= i < |raws|
                && raws[i].trackName == r.value.mostPopularTrack
                && Artists.FirstArtist(raws[i].artists) == r.value.mostPopularArtist
                && forall j :: 0 <= j < |raws| ==> raws[j].popularity <= raws[i].popularity
  {
    var table := Load(raws);
    r := Stats(table);
    if r.Success? {
      OrderFreeEntries(table, NormalizeAll(raws));
      NormalizeAllKeepsRanking(raws);
      MostPopularOfRaws(raws, NormalizeAll(raws), table);
    }
  }

  /** The entries that do not depend on row order agree on two orderings of
      the same rows. */
  lemma OrderFreeEntries(s: seq<Row>, t: seq<Row>)
    requires |s| > 0 && multiset(s) == multiset(t)
    ensures |t| == |s|
    ensures var v := Stats(s).value;
      && v.totalArtists == |Distinct(t, FirstArtistOf)|
      && v.totalAlbums == |Distinct(t, AlbumOf)|
      && v.totalGenres == |Distinct(t, GenreOf)|
      && v.meanDurationMin == Mean(t, DurationMinOf)
      && v.meanPopularity == Mean(t, PopularityOf)
      && v.explicitTracks == Count(t, IsExplicit)
      && v.explicitPercent == Percent(Count(t, IsExplicit), |t|)
      && forall x :: x in t ==> Occurrences(t, x.trackGenre) <= Occurrences(t, v.mostCommonGenre)
  {
    assert |s| == |multiset(s)| == |multiset(t)| == |t|;
    DistinctPerm(s, t, FirstArtistOf);
    DistinctPerm(s, t, AlbumOf);
    DistinctPerm(s, t, GenreOf);
    TotalPerm(s, t, DurationMinOf);
    TotalPerm(s, t, PopularityOf);
    CountPerm(s, t, IsExplicit);
    var g := Stats(s).value.mostCommonGenre;
    OccurrencesPerm(s, t, g);
    forall x | x in t ensures Occurrences(t, x.trackGenre) <= Occurrences(t, g) {
      assert x in multiset(s);
      OccurrencesPerm(s, t, x.trackGenre);
    }
  }

  /** A genre's count does not depend on the order of the rows. */
  lemma OccurrencesPerm(s: seq<Row>, t: seq<Row>, genre: string)
    requires multiset(s) == multiset(t)
    ensures Occurrences(s, genre) == Occurrences(t, genre)
  {
    CountPerm(s, t, (r: Row) => r.trackGenre == genre);
  }

  /** Rows that keep, position by position, the popularity and track name
      of the raw rows they were derived from, with the first artist of their
      artists field. */
  ghost predicate KeepsRanking(raws: seq<RawRow>, rows: seq<Row>)
  {
    && |rows| == |raws|
    && forall j :: 0 <= j < |raws| ==>
         && rows[j].popularity == raws[j].popularity
         && rows[j].trackName == raws[j].trackName
         && rows[j].firstArtist == Artists.FirstArtist(raws[j].artists)
  }

  lemma NormalizeAllKeepsRanking(raws: seq<RawRow>)
    ensures KeepsRanking(raws, NormalizeAll(raws))
  {
  }

  /** The most popular row of a reordering of the derived rows comes from a
      raw row of maximum popularity. */
  lemma MostPopularOfRaws(raws: seq<RawRow>, rows: seq<Row>, table: seq<Row>)
    requires KeepsRanking(raws, rows)
    requires |table| > 0 && multiset(table) == multiset(rows)
    ensures exists i :: 0 <= i < |raws|
                && raws[i].trackName == table[FirstMostPopular(table)].trackName
                && Artists.FirstArtist(raws[i].artists) == table[FirstMostPopular(table)].firstArtist
                && forall j :: 0 <= j < |raws| ==> raws[j].popularity <= raws[i].popularity
  {
    var i := MaxOfReordering(table, rows);
  }

  /** The row of maximum popularity of one ordering is a row of maximum
      popularity of any other ordering; returns its position there. */
  lemma MaxOfReordering(s: seq<Row>, t: seq<Row>) returns (i: nat)
    requires |s| > 0 && multiset(s) == multiset(t)
    ensures i < |t| && t[i] == s[FirstMostPopular(s)]
    ensures forall j :: 0 <= j < |t| ==> t[j].popularity <= t[i].popularity
  {
    var top := FirstMostPopular(s);
    assert s[top] in multiset(t);
    i :| 0 <= i < |t| && t[i] == s[top];
    forall j | 0 <= j < |t| ensures t[j].popularity <= t[i].popularity {
      assert t[j] in multiset(s);
      var k :| 0 <= k < |s| && s[k] == t[j];
    }
  }

  // ---------------------------------------------------------------- lemmas

  /** A non-empty table has at least one and at most one distinct value per
      row. */
  lemma {:induction false} DistinctBounds(rows: seq<Row>, f: Row -> string)
    ensures |Distinct(rows, f)| <= |rows|
    ensures |rows| > 0 ==> |Distinct(rows, f)| >= 1
  {
    if rows != [] {
      var init := rows[..|rows| - 1];
      DistinctBounds(init, f);
      assert Distinct(rows, f) == Distinct(init, f) + {f(rows[|rows| - 1])} by {
        assert rows == init + [rows[|rows| - 1]];
      }
      assert f(rows[0]) in Distinct(rows, f);
    }
  }

  /** The count of rows satisfying p is the size of the set of their
      positions. */
  lemma {:induction false} CountIsPositions(rows: seq<Row>, p: Row -> bool)
    ensures Count(rows, p) == |set i | 0 <= i < |rows| && p(rows[i])|
  {
    if rows != [] {
      var n := |rows| - 1;
      var init := rows[..n];
      CountIsPositions(init, p);
      var before := set i | 0 <= i < n && p(init[i]);
      var all := set i | 0 <= i < |rows| && p(rows[i]);
      if p(rows[n]) {
        assert all == before + {n};
      } else {
        assert all == before;
      }
    }
  }

  lemma {:induction false} CountConcat(a: seq<Row>, b: seq<Row>, p: Row -> bool)
    ensures Count(a + b, p) == Count(a, p) + Count(b, p)
  {
    if b != [] {
      var n := |b| - 1;
      CountConcat(a, b[..n], p);
      assert (a + b)[..|a + b| - 1] == a + b[..n];
    } else {
      assert a + b == a;
    }
  }

  lemma {:induction false} TotalConcat(a: seq<Row>, b: seq<Row>, f: Row -> real)
    ensures Total(a + b, f) == Total(a, f) + Total(b, f)
  {
    if b != [] {
      var n := |b| - 1;
      TotalConcat(a, b[..n], f);
      assert (a + b)[..|a + b| - 1] == a + b[..n];
    } else {
      assert a + b == a;
    }
  }

  /** Taking one element out of the middle of a sequence takes it out of the
      multiset. */
  lemma {:induction false} MultisetAround<T>(a: seq<T>, x: T, b: seq<T>)
    ensures multiset(a + [x] + b) == multiset(a + b) + multiset{x}
  {
    calc {
      multiset(a + [x] + b);
      multiset(a + [x]) + multiset(b);
      multiset(a) + multiset{x} + multiset(b);
      multiset(a + b) + multiset{x};
    }
  }

  /** Two multisets equal once the same element is added to each were
      equal before. */
  lemma MultisetCancel<T>(a: multiset<T>, b: multiset<T>, x: T)
    requires a + multiset{x} == b + multiset{x}
    ensures a == b
  {
    forall y ensures a[y] == b[y] {
      assert (a + multiset{x})[y] == a[y] + multiset{x}[y];
      assert (b + multiset{x})[y] == b[y] + multiset{x}[y];
    }
  }

  /** Splits t around a position holding the last element of s. */
  lemma RemoveAt<T>(s: seq<T>, t: seq<T>) returns (k: nat)
    requires |s| > 0 && multiset(s) == multiset(t)
    ensures k < |t| && t[k] == s[|s| - 1]
    ensures t == t[..k] + [t[k]] + t[k + 1..]
    ensures multiset(s[..|s| - 1]) == multiset(t[..k] + t[k + 1..])
  {
    var x := s[|s| - 1];
    var init := s[..|s| - 1];
    assert s == init + [x] + [];
    MultisetAround(init, x, []);
    assert init + [] == init;
    assert x in multiset(t);
    k :| 0 <= k < |t| && t[k] == x;
    assert t == t[..k] + [x] + t[k + 1..];
    MultisetAround(t[..k], x, t[k + 1..]);
    MultisetCancel(multiset(init), multiset(t[..k] + t[k + 1..]), x);
  }

  /** A count does not depend on the order of the rows. */
  lemma {:induction false} CountPerm(s: seq<Row>, t: seq<Row>, p: Row -> bool)
    requires multiset(s) == multiset(t)
    ensures Count(s, p) == Count(t, p)
    decreases |s|
  {
    if s == [] {
      assert |t| == |multiset(t)| == 0;
    } else {
      var k := RemoveAt(s, t);
      CountPerm(s[..|s| - 1], t[..k] + t[k + 1..], p);
      CountConcat(t[..k], t[k + 1..], p);
      CountConcat(t[..k] + [t[k]], t[k + 1..], p);
      CountConcat(t[..k], [t[k]], p);
      assert Count([t[k]], p) == Count([], p) + (if p(t[k]) then 1 else 0) by {
        assert [t[k]][..0] == [];
      }
    }
  }

  /** A sum does not depend on the order of the rows. */
  lemma {:induction false} TotalPerm(s: seq<Row>, t: seq<Row>, f: Row -> real)
    requires multiset(s) == multiset(t)
    ensures Total(s, f) == Total(t, f)
    decreases |s|
  {
    if s == [] {
      assert |t| == |multiset(t)| == 0;
    } else {
      var k := RemoveAt(s, t);
      TotalPerm(s[..|s| - 1], t[..k] + t[k + 1..], f);
      TotalConcat(t[..k], t[k + 1..], f);
      TotalConcat(t[..k] + [t[k]], t[k + 1..], f);
      TotalConcat(t[..k], [t[k]], f);
      assert Total([t[k]], f) == Total([], f) + f(t[k]) by {
        assert [t[k]][..0] == [];
      }
    }
  }

  /** The distinct values of a column do not depend on the order of the
      rows. */
  lemma DistinctPerm(s: seq<Row>, t: seq<Row>, f: Row -> string)
    requires multiset(s) == multiset(t)
    ensures Distinct(s, f) == Distinct(t, f)
  {
    forall r ensures r in s <==> r in t {
      assert r in s <==> r in multiset(s);
      assert r in t <==> r in multiset(t);
    }
  }

  /** On a table ordered by popularity, the first row is the most popular:
      the summary names the track of row 0. */
  lemma MostPopularOfSorted(rows: seq<Row>)
    requires |rows| > 0 && ByPopularityDesc(rows)
    ensures FirstMostPopular(rows) == 0
  {
  }

  /** A sum of values between lo and hi lies between lo and hi times the
      number of rows. */
  lemma {:induction false} TotalBetween(rows: seq<Row>, f: Row -> real, lo: real, hi: real)
    requires forall i :: 0 <= i < |rows| ==> lo <= f(rows[i]) <= hi
    ensures lo * |rows| as real <= Total(rows, f) <= hi * |rows| as real
  {
    if rows != [] {
      var n := |rows| - 1;
      var init := rows[..n];
      assert forall i :: 0 <= i < |init| ==> init[i] == rows[i];
      TotalBetween(init, f, lo, hi);
      var m := n as real;
      var before := Total(init, f);
      var last := f(rows[n]);
      assert lo * m <= before <= hi * m;
      assert lo <= last <= hi;
      assert Total(rows, f) == before + last;
      var k := |rows| as real;
      assert k == m + 1.0;
      calc {
        lo * k;
        lo * (m + 1.0);
        lo * m + lo;
      }
      calc {
        hi * k;
        hi * (m + 1.0);
        hi * m + hi;
      }
    }
  }

  /** With popularities in 0..100, the mean popularity is in 0..100. */
  lemma MeanPopularityInRange(rows: seq<Row>)
    requires |rows| > 0
    requires forall i :: 0 <= i < |rows| ==> 0 <= rows[i].popularity <= 100
    ensures 0.0 <= Mean(rows, PopularityOf) <= 100.0
  {
    TotalBetween(rows, PopularityOf, 0.0, 100.0);
    var n := |rows| as real;
    var t := Total(rows, PopularityOf);
    assert 0.0 <= t / n <= 100.0 by {
      assert t <= 100.0 * n;
      assert t / n <= (100.0 * n) / n;
    }
  }

  lemma DistinctOfOne(x: Row, f: Row -> string)
    ensures Distinct([x], f) == {f(x)}
  {
  }

  /** A one-row table summarizes to that row's own values. */
  lemma OneRowSummary(x: Row)
    ensures Stats([x]) == Success(Summary(
      1, 1, 1, 1, x.durationMin, x.popularity as real, x.trackName, x.firstArtist,
      x.trackGenre, if x.explicit then 1 else 0, if x.explicit then 100.0 else 0.0))
  {
    assert [x][..0] == [];
    DistinctOfOne(x, FirstArtistOf);
    DistinctOfOne(x, AlbumOf);
    DistinctOfOne(x, GenreOf);
    assert Total([x], DurationMinOf) == x.durationMin;
    assert Total([x], PopularityOf) == x.popularity as real;
    var v := Stats([x]).value;
    assert v.totalTracks == 1;
    assert v.totalArtists == 1;
    assert v.meanDurationMin == x.durationMin;
    assert v.meanPopularity == x.popularity as real;
    assert v.mostPopularTrack == x.trackName;
    assert v.mostCommonGenre == x.trackGenre;
    assert v.explicitTracks == if x.explicit then 1 else 0;
    assert v.explicitPercent == if x.explicit then 100.0 else 0.0;
  }
}
