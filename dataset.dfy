/** The loader: each raw track row gets its derived columns, and the table is
    sorted by popularity, most popular first. */
module Dataset {
  import opened Wrappers
  import Buckets
  import Taxonomy
  import Artists

  /** One row of the CSV file as read, the columns the loader uses. The first
      field is the file's leftover positional index, the column 'Unnamed: 0'. */
  datatype RawRow = RawRow(
    unnamedIndex: int,
    artists: string,
    albumName: string,
    trackName: string,
    popularity: int,
    durationMs: int,
    explicit: bool,
    danceability: real,
    energy: real,
    key: int,
    mode: int,
    tempo: real,
    trackGenre: string)

  /** A row of the loaded table: the raw columns without the index, then the
      derived ones, in the order the loader adds them (duration_sec,
      duration_min, categoria_popularidade, categoria_energia,
      categoria_dancabilidade, categoria_duracao, chave_musical,
      modo_musical, primeiro_artista, tem_feat, genero_principal,
      categoria_tempo). */
  datatype Row = Row(
    artists: string,
    albumName: string,
    trackName: string,
    popularity: int,
    durationMs: int,
    explicit: bool,
    danceability: real,
    energy: real,
    key: int,
    mode: int,
    tempo: real,
    trackGenre: string,
    durationSec: real,
    durationMin: real,
    popularityCategory: string,
    energyCategory: string,
    danceabilityCategory: string,
    durationCategory: string,
    keyName: Option<string>,
    modeName: Option<string>,
    firstArtist: string,
    hasFeat: bool,
    mainGenre: string,
    tempoCategory: string)

  /** `duration_sec`: milliseconds over 1000. */
  function DurationSeconds(ms: int): (sec: real)
    ensures sec * 1000.0 == ms as real
  {
    ms as real / 1000.0
  }

  /** `duration_min`: seconds over 60, so milliseconds over 60000. */
  function DurationMinutes(ms: int): (min: real)
    ensures min * 60000.0 == ms as real
    ensures ms > 0 ==> min > 0.0
  {
    DurationSeconds(ms) / 60.0
  }

  /** Every derived column of one row, computed from that row alone. The
      contract keeps to the facts the summary and the loader's callers use:
      the columns it reads are kept, the duration is converted, key and mode
      names exist exactly for the codes in their tables, the first artist is
      a separator-free prefix of the artists field and the feature flag says
      whether more follows, the main genre is a family name, and every
      category is one of its scale's labels. NormalizeColumns and
      NormalizeCategories give every column's exact value. */
  function Normalize(raw: RawRow): (row: Row)
    ensures row.popularity == raw.popularity && row.explicit == raw.explicit
    ensures row.trackName == raw.trackName && row.trackGenre == raw.trackGenre
    ensures row.artists == raw.artists && row.albumName == raw.albumName
    ensures row.durationMin * 60000.0 == raw.durationMs as real
    ensures row.keyName.Some? <==> 0 <= raw.key < 12
    ensures row.modeName.Some? <==> raw.mode == 0 || raw.mode == 1
    ensures row.firstArtist <= raw.artists && Artists.Separator !in row.firstArtist
    ensures row.hasFeat <==> row.firstArtist != raw.artists
    ensures row.mainGenre in Taxonomy.GroupNames
    ensures row.popularityCategory in Buckets.PopularityScale.labels
    ensures row.energyCategory in Buckets.EnergyScale.labels
    ensures row.danceabilityCategory in Buckets.DanceabilityScale.labels
    ensures row.durationCategory in Buckets.DurationScale.labels
    ensures row.tempoCategory in Buckets.TempoScale.labels
  {
    Artists.HasFeatIffSeveral(raw.artists);
    var minutes := DurationMinutes(raw.durationMs);
    Row(
      raw.artists, raw.albumName, raw.trackName, raw.popularity, raw.durationMs,
      raw.explicit, raw.danceability, raw.energy, raw.key, raw.mode, raw.tempo,
      raw.trackGenre,
      DurationSeconds(raw.durationMs),
      minutes,
      Buckets.CategorizePopularity(raw.popularity),
      Buckets.CategorizeEnergy(raw.energy),
      Buckets.CategorizeDanceability(raw.danceability),
      Buckets.CategorizeDuration(minutes),
      Taxonomy.KeyName(raw.key),
      Taxonomy.ModeName(raw.mode),
      Artists.FirstArtist(raw.artists),
      Artists.HasFeat(raw.artists),
      Taxonomy.MainGenre(raw.trackGenre),
      Buckets.CategorizeTempo(raw.tempo))
  }

  /** A normalized row keeps every raw column but the index, names the key
      from the key table and the mode as 'Menor' or 'Maior', takes the first
      artist up to the first ';' with the flag set exactly when the field
      holds a ';', and takes the first-match genre family. */
  lemma NormalizeColumns(raw: RawRow)
    ensures var row := Normalize(raw);
      && row.artists == raw.artists && row.albumName == raw.albumName
      && row.trackName == raw.trackName && row.popularity == raw.popularity
      && row.durationMs == raw.durationMs && row.explicit == raw.explicit
      && row.danceability == raw.danceability && row.energy == raw.energy
      && row.key == raw.key && row.mode == raw.mode
      && row.tempo == raw.tempo && row.trackGenre == raw.trackGenre
    ensures var row := Normalize(raw);
      && row.durationSec * 1000.0 == raw.durationMs as real
      && row.durationMin * 60.0 == row.durationSec
    ensures var row := Normalize(raw);
      && (0 <= raw.key < 12 ==> row.keyName == Some(Taxonomy.KeyNames[raw.key]))
      && (row.keyName.None? <==> raw.key < 0 || raw.key >= 12)
      && (row.modeName == Some("Menor") <==> raw.mode == 0)
      && (row.modeName == Some("Maior") <==> raw.mode == 1)
      && (row.modeName.None? <==> raw.mode != 0 && raw.mode != 1)
    ensures var row := Normalize(raw);
      && row.firstArtist <= raw.artists
      && Artists.Separator !in row.firstArtist
      && (row.firstArtist == raw.artists || raw.artists[|row.firstArtist|] == Artists.Separator)
      && (row.hasFeat <==> Artists.Separator in raw.artists)
    ensures Normalize(raw).mainGenre == Taxonomy.MainGenre(raw.trackGenre)
    ensures Normalize(raw).mainGenre == Taxonomy.Other <==>
              forall j :: 0 <= j < |Taxonomy.GenreGroups| ==> raw.trackGenre !in Taxonomy.GenreGroups[j].1
  {
    Taxonomy.MainGenreByTable(raw.trackGenre);
  }

  /** Each category of a normalized row is the label its scale gives to the
      row's value (popularity for every non-negative popularity). */
  lemma NormalizeCategories(raw: RawRow)
    ensures var row := Normalize(raw);
      && (raw.popularity >= 0 ==>
            row.popularityCategory == Buckets.LabelOf(Buckets.PopularityScale, raw.popularity as real))
      && row.energyCategory == Buckets.LabelOf(Buckets.EnergyScale, raw.energy)
      && row.danceabilityCategory == Buckets.LabelOf(Buckets.DanceabilityScale, raw.danceability)
      && row.durationCategory == Buckets.LabelOf(Buckets.DurationScale, row.durationMin)
      && row.tempoCategory == Buckets.LabelOf(Buckets.TempoScale, raw.tempo)
  {
    Buckets.PopularityMatchesScale(raw.popularity);
    Buckets.EnergyMatchesScale(raw.energy);
    Buckets.DanceabilityMatchesScale(raw.danceability);
    Buckets.DurationMatchesScale(Normalize(raw).durationMin);
    Buckets.TempoMatchesScale(raw.tempo);
  }

  /** Every raw row normalized, in source order. */
  function NormalizeAll(raws: seq<RawRow>): (rows: seq<Row>)
    ensures |rows| == |raws|
    ensures forall i :: 0 <= i < |raws| ==> rows[i] == Normalize(raws[i])
  {
    seq(|raws|, i requires 0 <= i < |raws| => Normalize(raws[i]))
  }

  /** Popularity never increases along the table. */
  ghost predicate ByPopularityDesc(rows: seq<Row>)
  {
    forall i, j :: 0 <= i < j < |rows| ==> rows[i].popularity >= rows[j].popularity
  }

  /** Exchanges two neighbouring rows. */
  method SwapWithPrevious(a: array<Row>, j: int)
    requires 0 < j < a.Length
    modifies a
    ensures a[..] == old(a[..])[j - 1 := old(a[j])][j := old(a[j - 1])]
    ensures multiset(a[..]) == multiset(old(a[..]))
  {
    a[j - 1], a[j] := a[j], a[j - 1];
  }

  /** The first n rows of the array are ordered by popularity, most popular
      first. */
  ghost predicate SortedPrefix(a: array<Row>, n: int)
    reads a
  {
    forall p, q :: 0 <= p < q < n && q < a.Length ==> a[p].popularity >= a[q].popularity
  }

  /** Moves row i left past the less popular rows before it, so that the
      first i + 1 rows are ordered; the rows after i are untouched. */
  method InsertRow(a: array<Row>, i: int)
    requires 0 <= i < a.Length
    requires SortedPrefix(a, i)
    modifies a
    ensures SortedPrefix(a, i + 1)
    ensures forall k :: i < k < a.Length ==> a[k] == old(a[k])
    ensures multiset(a[..]) == multiset(old(a[..]))
  {
    var j := i;
    while j > 0 && a[j - 1].popularity < a[j].popularity
      invariant 0 <= j <= i
      invariant forall k :: i < k < a.Length ==> a[k] == old(a[k])
      invariant multiset(a[..]) == multiset(old(a[..]))
      invariant forall p, q :: 0 <= p < q <= i && p != j && q != j ==> a[p].popularity >= a[q].popularity
      invariant forall q :: j < q <= i ==> a[j].popularity > a[q].popularity
    {
      SwapWithPrevious(a, j);
      j := j - 1;
    }
  }

  /** Sorts the rows in place, most popular first (insertion sort; the
      relative order of equal popularities is not part of the contract). */
  method SortByPopularity(a: array<Row>)
    modifies a
    ensures ByPopularityDesc(a[..])
    ensures multiset(a[..]) == multiset(old(a[..]))
  {
    var i := 0;
    while i < a.Length
      invariant 0 <= i <= a.Length
      invariant SortedPrefix(a, i)
      invariant multiset(a[..]) == multiset(old(a[..]))
    {
      InsertRow(a, i);
      i := i + 1;
    }
  }

  /** Applies the row derivation to every raw row, filling a new array in
      source order. */
  method NormalizeInto(raws: seq<RawRow>) returns (a: array<Row>)
    ensures fresh(a)
    ensures a[..] == NormalizeAll(raws)
  {
    a := new Row[|raws|];
    var i := 0;
    while i < |raws|
      invariant 0 <= i <= |raws|
      invariant a[..i] == NormalizeAll(raws)[..i]
    {
      a[i] := Normalize(raws[i]);
      i := i + 1;
    }
    assert a[..] == a[..|raws|];
  }

  /** The loader: drop the index column, derive every row's columns, and sort
      by popularity, most popular first. The result has one row per raw row,
      holds exactly the normalized rows, and is ordered by popularity. */
  method Load(raws: seq<RawRow>) returns (table: seq<Row>)
    ensures |table| == |raws|
    ensures multiset(table) == multiset(NormalizeAll(raws))
    ensures ByPopularityDesc(table)
  {
    var a := NormalizeInto(raws);
    SortByPopularity(a);
    table := a[..];
  }
}
