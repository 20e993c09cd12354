# Spotify tracks dashboard: data preparation, modelled in Dafny

The dashboard reads a CSV of Spotify tracks once and prepares it in
`utils/carrega_dados.py`. Every page then reads the prepared table. This
project models that preparation and proves what it guarantees.

- **Row derivation.** Each raw row gets its derived columns. Duration is
  converted to seconds and minutes. Five threshold bucketizers label
  popularity, energy, danceability, duration and tempo. Key and mode codes
  are looked up in fixed tables. The artists field is split on `;` into the
  first artist and a "has featuring" flag. A first-match scan over an ordered
  table assigns a main-genre family, falling back to `'Outros'`.
- **Loading** (`carregar_dados`). The leftover index column is dropped,
  every row is derived, and the table is sorted by popularity, most popular
  first.
- **Summary** (`obter_estatisticas_basicas`). Row count, distinct counts,
  means, the most popular track and its artist, the most common genre, and
  the explicit count and percentage.

Labels are the loader's own Portuguese strings, `≤` included.

## Files

- `wrappers.dfy`: `Option` (an absent value, NaN in pandas) and `Result`.
- `buckets.dfy` (module `Buckets`): the five bucketizers, written as the
  loader's if-chains. They are checked against one general definition. A
  `Scale` has ascending upper bounds and one label per bucket. A value's
  bucket is the number of bounds strictly below it (`Rank`), so every bucket
  is closed on its upper bound. The lemmas prove four things: the chains agree
  with their scales, each value gets exactly one label, the bucket index never
  decreases as the value grows, and boundary values go to the lower bucket.
- `taxonomy.dfy` (module `Taxonomy`): the key and mode maps, and the genre
  family table in the loader's order. `ClassifyGenre` is the loop with an
  early return. It is proved equal to the recursive first-match definition
  `FirstGroup`.
- `artists.dfy` (module `Artists`): Python's `str.split` and `join`, round
  trips in both directions, and the first-artist and featuring facts.
- `dataset.dfy` (module `Dataset`): raw and derived rows, `Normalize`, and
  `Load`. `Load` fills an array, then runs an in-place insertion sort on
  popularity.
- `statistics.dfy` (module `Statistics`): the summary over a table.
  `BasicStatistics` runs `Load` and then `Stats`, as the summary
  function in the code calls the loader. It is proved against the unsorted rows through
  lemmas showing that counts, sums and distinct sets do not depend on row
  order.

A negative popularity is outside the dataset's 0–100 range. The loader's
chain still labels it `'Baixa (1-20)'`, because it tests `== 0` before
`<= 20`. `PopularityMatchesScale` states this case separately.

Other behaviour of the code worth noting:

- Labels are the code's Portuguese strings.
- A key or mode outside its table gives an absent value (`None`), as
  pandas' `Series.map` does.
- The sort gives no tie order. The code uses pandas' default unstable
  sort, so no stable tie-break is claimed.
- The summary of an empty table is `Failure(EmptyTable)`, where the code's
  `idxmax` raises.

## Model

| member | source | states |
|---|---|---|
| Buckets.RankInBucket | utils/carrega_dados.py:42-74 | over ascending bounds, a value lies in the bucket its rank names: above the previous bound and at or below its own (upper-inclusive thresholds) |
| Buckets.ExactlyOneLabel | utils/carrega_dados.py:42-74 | for a valid scale, a value gets label i if and only if it lies in bucket i, so every input has exactly one label |
| Buckets.Monotone | utils/carrega_dados.py:42-74 | a larger value never gets a lower bucket index |
| Buckets.CategorizePopularity | utils/carrega_dados.py:25-37 | the popularity category is always one of the six popularity labels |
| Buckets.PopularityScaleValid | utils/carrega_dados.py:25-37 | the popularity bounds 0/20/40/60/80 ascend and the six labels are distinct |
| Buckets.PopularityMatchesScale | utils/carrega_dados.py:25-37 | for popularity ≥ 0 the chain gives the scale's label ('Sem dados' exactly at 0); a negative popularity gets 'Baixa (1-20)' |
| Buckets.CategorizeEnergy | utils/carrega_dados.py:42-48 | the energy category is one of the three energy labels |
| Buckets.EnergyScaleValid | utils/carrega_dados.py:42-48 | the energy bounds 0.3/0.6 ascend and the labels are distinct |
| Buckets.EnergyMatchesScale | utils/carrega_dados.py:42-48 | the energy chain agrees with its scale for every value |
| Buckets.CategorizeDanceability | utils/carrega_dados.py:53-59 | the danceability category is one of the three danceability labels |
| Buckets.DanceabilityScaleValid | utils/carrega_dados.py:53-59 | the danceability bounds 0.3/0.6 ascend and the labels are distinct |
| Buckets.DanceabilityMatchesScale | utils/carrega_dados.py:53-59 | the danceability chain agrees with its scale for every value |
| Buckets.CategorizeDuration | utils/carrega_dados.py:64-74 | the duration category is one of the five duration labels |
| Buckets.DurationScaleValid | utils/carrega_dados.py:64-74 | the duration bounds 2/3.5/5/7 minutes ascend and the labels are distinct |
| Buckets.DurationMatchesScale | utils/carrega_dados.py:64-74 | the duration chain agrees with its scale for every value |
| Buckets.CategorizeTempo | utils/carrega_dados.py:119-129 | the tempo category is one of the five tempo labels |
| Buckets.TempoScaleValid | utils/carrega_dados.py:119-129 | the tempo bounds 70/100/120/140 BPM ascend and the labels are distinct |
| Buckets.TempoMatchesScale | utils/carrega_dados.py:119-129 | the tempo chain agrees with its scale for every value |
| Buckets.BoundariesGoDown | utils/carrega_dados.py:25-129 | boundary values fall in the lower-named bucket; tempos 65/71/140/141 give 'Muito Lento', 'Lento', 'Rápido', 'Muito Rápido'; 2.0 minutes is 'Muito curta (≤2min)' |
| Taxonomy.Lookup | utils/carrega_dados.py:83-86 | a mapped code gives a value exactly when the code is in the map, and that value is the one the map holds for the code |
| Taxonomy.KeyName | utils/carrega_dados.py:79-83 | a key name exists exactly for key codes 0 to 11, and it is the key table's name for the code; other codes give an absent value |
| Taxonomy.KeyNamesDistinct | utils/carrega_dados.py:79-82 | the twelve key codes name twelve pairwise-distinct pitch classes |
| Taxonomy.ModeName | utils/carrega_dados.py:86 | mode 0 gives 'Menor', mode 1 gives 'Maior', and any other code gives an absent value |
| Taxonomy.FirstGroup | utils/carrega_dados.py:110-114 | the result is 'Outros' or the name of an entry that lists the genre |
| Taxonomy.ClassifyGenre | utils/carrega_dados.py:110-114 | the scan with early return yields exactly the first-match main genre |
| Taxonomy.GroupNamesOfTable | utils/carrega_dados.py:93-108 | the table's entries are the eleven family names, in order |
| Taxonomy.FirstMatchWins | utils/carrega_dados.py:110-114 | a genre listed under entry i and under no earlier entry gets entry i's name |
| Taxonomy.UnlistedIsOther | utils/carrega_dados.py:110-114 | a genre listed under no entry gets 'Outros' |
| Taxonomy.OtherOnlyByFallback | utils/carrega_dados.py:107-114 | when the entries named 'Outros' list nothing, the result is 'Outros' if and only if no entry lists the genre |
| Taxonomy.MainGenre | utils/carrega_dados.py:93-116 | the main genre is always one of the eleven family names |
| Taxonomy.MainGenreByTable | utils/carrega_dados.py:93-116 | on the loader's table: 'Outros' if and only if the genre is unlisted, otherwise the first family listing it |
| Taxonomy.MainGenreOfKPop | utils/carrega_dados.py:94 | 'k-pop' is in the 'Pop' family |
| Taxonomy.MainGenreOfGrindcore | utils/carrega_dados.py:97 | 'grindcore' is in the 'Metal' family |
| Artists.Split | utils/carrega_dados.py:89 | splitting gives at least one piece and no piece contains the separator |
| Artists.JoinSplit | utils/carrega_dados.py:89 | joining the pieces of a split with the separator gives back the field |
| Artists.SplitJoin | utils/carrega_dados.py:89 | splitting separator-free pieces joined by the separator gives back the pieces |
| Artists.SplitNoSep | utils/carrega_dados.py:89 | a field without ';' splits into itself alone |
| Artists.SplitFirstIsPrefix | utils/carrega_dados.py:89 | the first piece of a split is a prefix of the string, holds no separator, and is followed by the separator unless it is the whole string |
| Artists.FirstArtist | utils/carrega_dados.py:89 | the first artist is a prefix of the field, holds no ';', and is followed by ';' unless it is the whole field |
| Artists.HasFeat | utils/carrega_dados.py:90 | the featuring flag is set exactly when the field splits into more than one artist |
| Artists.HasFeatIffSeveral | utils/carrega_dados.py:89-90 | the featuring flag is set exactly when the first artist differs from the field; with no ';' the first artist is the field |
| Artists.FeatExamples | utils/carrega_dados.py:89-90 | 'A;B' gives first artist 'A' with the flag set; 'A' gives 'A' with the flag clear |
| Dataset.DurationSeconds | utils/carrega_dados.py:21 | seconds times 1000 equal the milliseconds |
| Dataset.DurationMinutes | utils/carrega_dados.py:22 | minutes times 60000 equal the milliseconds, positive for a positive duration |
| Dataset.Normalize | utils/carrega_dados.py:16-131 | the derived row keeps popularity, explicit flag, track, genre, artists and album; minutes times 60000 equal the milliseconds; key and mode names exist exactly for codes in their tables; the first artist is a ';'-free prefix and the flag is set exactly when it is not the whole field; the main genre is a family name; each category is one of its scale's labels |
| Dataset.NormalizeColumns | utils/carrega_dados.py:16-131 | the derived row keeps all twelve raw columns but the index; seconds times 1000 equal the milliseconds and minutes times 60 the seconds; a key in 0..11 gets its name from the key table, any other key none; mode 0 gives 'Menor', mode 1 'Maior', any other none; the first artist is the prefix before the first ';' (the whole field when there is none) and the flag is set exactly when the field holds ';'; the main genre is the first-match family, and 'Outros' exactly when no family lists the genre |
| Dataset.NormalizeCategories | utils/carrega_dados.py:39-131 | each category column of a derived row is the label its scale gives to the row's value (popularity when it is ≥ 0; a negative popularity gets 'Baixa (1-20)', see PopularityMatchesScale) |
| Dataset.NormalizeAll | utils/carrega_dados.py:21-131 | one derived row per raw row, at the same position |
| Dataset.SwapWithPrevious | utils/carrega_dados.py:134 | exchanges two neighbouring rows, keeping the multiset of rows |
| Dataset.InsertRow | utils/carrega_dados.py:134 | extends the popularity-ordered prefix by one row, leaving later rows and the multiset of rows unchanged |
| Dataset.SortByPopularity | utils/carrega_dados.py:134 | the array ends ordered by non-increasing popularity and is a permutation of its old contents |
| Dataset.NormalizeInto | utils/carrega_dados.py:21-131 | a new array holds the derived rows in source order |
| Dataset.Load | utils/carrega_dados.py:16-134 | as many rows as raw rows, a permutation of the derived raw rows, and popularity non-increasing along the table |
| Statistics.Count | utils/carrega_dados.py:158 | the number of rows satisfying a condition never exceeds the row count |
| Statistics.CountConcat | utils/carrega_dados.py:158 | the count over two tables put together is the sum of their counts |
| Statistics.TotalConcat | utils/carrega_dados.py:153-154 | the column sum over two tables put together is the sum of their sums |
| Statistics.Mean | utils/carrega_dados.py:153-154 | `.mean()`: the mean times the row count equals the column sum |
| Statistics.DistinctMembers | utils/carrega_dados.py:150-152 | `nunique` counts a set that holds every row's value and only values some row has |
| Statistics.Occurrences | utils/carrega_dados.py:157 | a genre's `value_counts` entry is the number of positions holding that genre |
| Statistics.CountIsPositions | utils/carrega_dados.py:158 | the sum of a boolean column is the number of positions where it holds |
| Statistics.Percent | utils/carrega_dados.py:159 | the percentage lies between 0 and 100 and times the whole equals 100 times the part |
| Statistics.FirstMostPopular | utils/carrega_dados.py:155-156 | `idxmax`: a row of maximum popularity with every earlier row strictly less popular |
| Statistics.MostFrequentGenreAmong | utils/carrega_dados.py:157 | among the first n rows, one whose genre no other of them outnumbers |
| Statistics.MostCommonGenre | utils/carrega_dados.py:157 | the most common genre occurs in the table and no genre of the table occurs more often |
| Statistics.Stats | utils/carrega_dados.py:148-160 | fails exactly on the empty table; otherwise the row count, the distinct first artists, albums and genres (each between 1 and the row count), the means of duration and popularity, the track and first artist of one row of maximum popularity, a genre no other outnumbers, the explicit count, and its percentage of the rows (between 0 and 100) |
| Statistics.BasicStatistics | utils/carrega_dados.py:139-162 | the summary of the loaded table: fails exactly on no rows; row count, distinct counts, means, explicit count and explicit percentage equal those over the derived raw rows in source order, and no genre outnumbers the most common one; the most popular track and its artist both come from one raw row of maximum popularity |
| Statistics.OrderFreeEntries | utils/carrega_dados.py:150-159 | distinct counts, means, explicit count, explicit percentage and most-common-genre maximality agree across two orderings of the same rows |
| Statistics.MaxOfReordering | utils/carrega_dados.py:155 | the most popular row of one ordering has maximum popularity in any reordering |
| Statistics.MostPopularOfRaws | utils/carrega_dados.py:146-156 | the track and first artist of the most popular row of the loaded table come from one raw row of maximum popularity |
| Statistics.DistinctBounds | utils/carrega_dados.py:150-152 | a column of a non-empty table has between 1 and row-count distinct values |
| Statistics.CountPerm | utils/carrega_dados.py:158 | a count does not depend on the order of the rows |
| Statistics.TotalPerm | utils/carrega_dados.py:153-154 | a column sum does not depend on the order of the rows |
| Statistics.OccurrencesPerm | utils/carrega_dados.py:157 | a genre's count does not depend on the order of the rows |
| Statistics.DistinctPerm | utils/carrega_dados.py:150-152 | the distinct values of a column do not depend on the order of the rows |
| Statistics.MostPopularOfSorted | utils/carrega_dados.py:134-155 | on the popularity-ordered table, `idxmax` is row 0 |
| Statistics.TotalBetween | utils/carrega_dados.py:153-154 | a sum of values between lo and hi lies between lo and hi times the row count |
| Statistics.MeanPopularityInRange | utils/carrega_dados.py:154 | with popularities in 0..100, the mean popularity is in 0..100 |
| Statistics.OneRowSummary | utils/carrega_dados.py:148-160 | a one-row table summarizes to that row's own values |

## Left out

- Reading the CSV file and its fixed path (line 13) are I/O. The loader takes the raw rows as a sequence. The index column is a field of the raw row that the derived row drops. A file without that column, where pandas' `drop` would raise, cannot be represented.
- The `@st.cache_data` memoization (lines 4 and 138) is framework caching with no logic of its own.
- Statistics.Stats: the means and the explicit percentage are exact and unrounded. The code applies `round(..., 2)` and `round(..., 1)` to floating-point values (lines 153-154 and 159).
- Floating point: thresholds are compared over exact reals. The duration conversion is exact division, so rounding in `(ms / 1000) / 60` is not modelled.
- Missing values (NaN) in the artists, album or genre columns are not modelled: every raw row has every field. Only an unmapped key or mode code gives an absent value.
- Columns the loader never reads (track id, valence, loudness and the rest) pass through unchanged. They are not part of the rows here.
- The loader assigns derived columns one at a time over the whole table. The model derives each row in one step. Because no column depends on another row, the result is the same.
- The tie order of equal popularities after the sort, and the choice among equally common genres, are left open. pandas fixes neither.
- The presentation page `01_Principal.py`, the other pages, and the filter, group and top-N logic they hold are not part of this model.
