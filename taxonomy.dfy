/** Lookup tables of the loader: musical key, mode and main-genre group. */
module Taxonomy {
  import opened Wrappers

  // ---------------------------------------------------------------- key and mode

  /** Pitch-class names by key code (the loader's key map). */
  const KeyNames: map<int, string> := map[
    0 := "C", 1 := "C#/D♭", 2 := "D", 3 := "D#/E♭", 4 := "E", 5 := "F",
    6 := "F#/G♭", 7 := "G", 8 := "G#/A♭", 9 := "A", 10 := "A#/B♭", 11 := "B"]

  /** Mode names by mode code. */
  const ModeNames: map<int, string> := map[0 := "Menor", 1 := "Maior"]

  /** A code looked up in a map, as pandas `Series.map` does: a code outside
      the map gives an absent value. */
  function Lookup(m: map<int, string>, code: int): (r: Option<string>)
    ensures r.Some? <==> code in m
    ensures r.Some? ==> r.value in m.Values
    ensures code in m ==> r == Some(m[code])
  {
    if code in m then Some(m[code]) else None
  }

  /** The key name is present exactly for the codes 0 to 11. */
  function KeyName(key: int): (r: Option<string>)
    ensures r.Some? <==> 0 <= key < 12
    ensures 0 <= key < 12 ==> r == Some(KeyNames[key])
  {
    Lookup(KeyNames, key)
  }

  /** The mode name is 'Menor' for 0, 'Maior' for 1 and absent otherwise. */
  function ModeName(mode: int): (r: Option<string>)
    ensures mode == 0 <==> r == Some("Menor")
    ensures mode == 1 <==> r == Some("Maior")
    ensures r.None? <==> mode != 0 && mode != 1
  {
    Lookup(ModeNames, mode)
  }

  /** The twelve key codes name twelve different pitch classes. */
  lemma KeyNamesDistinct(k1: int, k2: int)
    requires 0 <= k1 < 12 && 0 <= k2 < 12 && k1 != k2
    ensures KeyName(k1) != KeyName(k2)
  {
  }

  // ---------------------------------------------------------------- genre groups

  /** A genre family and the genre codes listed under it. */
  type GroupEntry = (string, seq<string>)

  /** The name every genre listed under no family receives. */
  const Other: string := "Outros"

  /** The genre families in the order the loader lists them; the last one,
      'Outros', lists nothing and is reached only by the fallback. */
  const GenreGroups: seq<GroupEntry> := [
    ("Pop", ["pop", "pop-film", "power-pop", "indie-pop", "k-pop", "j-pop", "mandopop", "cantopop"]),
    ("Rock", ["rock", "alt-rock", "alternative", "hard-rock", "punk-rock", "punk", "rock-n-roll",
              "grunge", "psych-rock", "rockabilly"]),
    ("Metal", ["metal", "black-metal", "death-metal", "heavy-metal", "metalcore", "grindcore"]),
    ("Eletrônica", ["electronic", "edm", "electro", "house", "techno", "trance", "dubstep",
                    "drum-and-bass", "detroit-techno", "deep-house", "progressive-house", "minimal-techno"]),
    ("Hip-Hop/R&B", ["hip-hop", "r-n-b"]),
    ("Jazz/Blues", ["jazz", "blues"]),
    ("Latino", ["latin", "latino", "samba", "salsa", "reggaeton", "tango", "sertanejo"]),
    ("Folk/Acoustic", ["folk", "acoustic", "singer-songwriter", "songwriter", "country"]),
    ("Clássico/Opera", ["classical", "opera", "piano"]),
    ("Mundial", ["world-music", "afrobeat", "brazilian", "french", "german", "indian",
                 "iranian", "turkish", "spanish", "swedish", "malay"]),
    (Other, [])
  ]

  /** The eleven family names, in table order. */
  const GroupNames: seq<string> :=
    ["Pop", "Rock", "Metal", "Eletrônica", "Hip-Hop/R&B", "Jazz/Blues", "Latino",
     "Folk/Acoustic", "Clássico/Opera", "Mundial", Other]

  /** Specification of the first-match scan: the name of the first entry of
      `table` that lists `genre`, or 'Outros' when none does. */
  function FirstGroup(table: seq<GroupEntry>, genre: string): (group: string)
    ensures group == Other || exists i :: 0 <= i < |table| && table[i].0 == group && genre in table[i].1
  {
    if table == [] then Other
    else if genre in table[0].1 then table[0].0
    else FirstGroup(table[1..], genre)
  }

  /** The main-genre group of a genre code: always one of the eleven family
      names. */
  function MainGenre(genre: string): (group: string)
    ensures group in GroupNames
  {
    FirstGroup(GenreGroups, genre)
  }

  /** The loader's scan over the family table, returning at the first family
      that lists the genre. */
  method ClassifyGenre(genre: string) returns (group: string)
    ensures group == MainGenre(genre)
  {
    var i := 0;
    while i < |GenreGroups|
      invariant 0 <= i <= |GenreGroups|
      invariant FirstGroup(GenreGroups[i..], genre) == MainGenre(genre)
    {
      var (name, genres) := GenreGroups[i];
      if genre in genres {
        return name;
      }
      assert GenreGroups[i..][1..] == GenreGroups[i + 1..];
      i := i + 1;
    }
    return Other;
  }

  /** The table's own names are exactly the eleven family names. */
  lemma GroupNamesOfTable()
    ensures |GenreGroups| == |GroupNames|
    ensures forall i :: 0 <= i < |GenreGroups| ==> GenreGroups[i].0 == GroupNames[i]
  {
  }

  /** A genre listed under entry i and under no earlier entry gets entry i's
      name: the first match in table order wins. */
  lemma {:induction false} FirstMatchWins(table: seq<GroupEntry>, genre: string, i: nat)
    requires i < |table| && genre in table[i].1
    requires forall j :: 0 <= j < i ==> genre !in table[j].1
    ensures FirstGroup(table, genre) == table[i].0
  {
    if i > 0 {
      FirstMatchWins(table[1..], genre, i - 1);
    }
  }

  /** A genre listed under no entry gets 'Outros'. */
  lemma {:induction false} UnlistedIsOther(table: seq<GroupEntry>, genre: string)
    requires forall j :: 0 <= j < |table| ==> genre !in table[j].1
    ensures FirstGroup(table, genre) == Other
  {
    if table != [] {
      UnlistedIsOther(table[1..], genre);
    }
  }

  /** When every entry named 'Outros' lists nothing, 'Outros' comes only from
      the fallback: the result is 'Outros' exactly when no entry lists the
      genre. */
  lemma {:induction false} OtherOnlyByFallback(table: seq<GroupEntry>, genre: string)
    requires forall j :: 0 <= j < |table| && table[j].0 == Other ==> table[j].1 == []
    ensures FirstGroup(table, genre) == Other <==> forall j :: 0 <= j < |table| ==> genre !in table[j].1
  {
    if table != [] {
      OtherOnlyByFallback(table[1..], genre);
      assert forall j :: 1 <= j < |table| ==> table[j] == table[1..][j - 1];
    }
  }

  /** The concrete table: a listed genre gets the first family listing it, an
      unlisted one gets 'Outros', and 'Outros' means unlisted. */
  lemma MainGenreByTable(genre: string)
    ensures MainGenre(genre) == Other <==> forall j :: 0 <= j < |GenreGroups| ==> genre !in GenreGroups[j].1
    ensures forall i :: 0 <= i < |GenreGroups| && genre in GenreGroups[i].1
              && (forall j :: 0 <= j < i ==> genre !in GenreGroups[j].1)
              ==> MainGenre(genre) == GenreGroups[i].0
  {
    OtherOnlyByFallback(GenreGroups, genre);
    forall i | 0 <= i < |GenreGroups| && genre in GenreGroups[i].1
        && (forall j :: 0 <= j < i ==> genre !in GenreGroups[j].1)
      ensures MainGenre(genre) == GenreGroups[i].0
    {
      FirstMatchWins(GenreGroups, genre, i);
    }
  }

  /** Examples from the table. */
  lemma MainGenreOfKPop()
    ensures MainGenre("k-pop") == "Pop"
  {
  }

  lemma MainGenreOfGrindcore()
    ensures MainGenre("grindcore") == "Metal"
  {
    FirstMatchWins(GenreGroups, "grindcore", 2);
  }
}
