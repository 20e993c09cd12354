/** The artists column lists collaborators separated by ';'. The loader keeps
    the first of them and flags whether there were others. */
module Artists {

  /** The collaboration separator. */
  const Separator: char := ';'

  /** Python's `str.split(sep)`: the pieces between occurrences of sep, always
      at least one (an empty string splits into one empty piece). */
  function Split(s: string, sep: char): (parts: seq<string>)
    ensures |parts| >= 1
    ensures forall p :: p in parts ==> sep !in p
  {
    if s == [] then [[]]
    else
      var rest := Split(s[1..], sep);
      if s[0] == sep then [[]] + rest
      else [[s[0]] + rest[0]] + rest[1..]
  }

  /** Python's `sep.join(parts)`. */
  function Join(parts: seq<string>, sep: char): string
    requires |parts| >= 1
  {
    if |parts| == 1 then parts[0] else parts[0] + [sep] + Join(parts[1..], sep)
  }

  /** Joining the pieces of a split gives back the original string. */
  lemma {:induction false} JoinSplit(s: string, sep: char)
    ensures Join(Split(s, sep), sep) == s
  {
    if s != [] {
      var rest := Split(s[1..], sep);
      JoinSplit(s[1..], sep);
      if s[0] != sep {
        var parts := Split(s, sep);
        assert parts[1..] == rest[1..];
        if |rest| > 1 {
          assert rest[1..] == Split(s[1..], sep)[1..];
        }
      }
    }
  }

  /** Splitting pieces joined by a separator they do not contain gives the
      pieces back. */
  lemma {:induction false} SplitJoin(parts: seq<string>, sep: char)
    requires |parts| >= 1
    requires forall i :: 0 <= i < |parts| ==> sep !in parts[i]
    ensures Split(Join(parts, sep), sep) == parts
  {
    if |parts| == 1 {
      SplitNoSep(parts[0], sep);
    } else {
      SplitJoin(parts[1..], sep);
      SplitPrefix(parts[0], Join(parts[1..], sep), sep);
      assert parts[0] + [sep] + Join(parts[1..], sep) == parts[0] + ([sep] + Join(parts[1..], sep));
    }
  }

  /** A string without the separator splits into itself alone. */
  lemma {:induction false} SplitNoSep(s: string, sep: char)
    requires sep !in s
    ensures Split(s, sep) == [s]
  {
    if s != [] {
      SplitNoSep(s[1..], sep);
      assert [s[0]] + s[1..] == s;
    }
  }

  /** A separator-free prefix before a separator becomes the first piece. */
  lemma {:induction false} SplitPrefix(p: string, t: string, sep: char)
    requires sep !in p
    ensures Split(p + ([sep] + t), sep) == [p] + Split(t, sep)
  {
    if p == [] {
      assert p + ([sep] + t) == [sep] + t;
      assert ([sep] + t)[1..] == t;
    } else {
      SplitPrefix(p[1..], t, sep);
      assert (p + ([sep] + t))[1..] == p[1..] + ([sep] + t);
      assert [p[0]] + p[1..] == p;
    }
  }

  /** The first piece of a split is the prefix up to the first separator:
      it holds no separator and is followed by one unless it is the whole
      string. */
  lemma {:induction false} SplitFirstIsPrefix(s: string, sep: char)
    ensures var first := Split(s, sep)[0];
      && first <= s
      && sep !in first
      && (|first| == |s| || s[|first|] == sep)
  {
    if s != [] {
      SplitFirstIsPrefix(s[1..], sep);
    }
  }

  /** `primeiro_artista`: the first piece of the artists field, that is the
      prefix up to the first ';'. It holds no ';' and is followed by ';'
      unless it is the whole field. */
  function FirstArtist(artists: string): (first: string)
    ensures first <= artists
    ensures Separator !in first
    ensures |first| == |artists| || artists[|first|] == Separator
  {
    SplitFirstIsPrefix(artists, Separator);
    Split(artists, Separator)[0]
  }

  /** `tem_feat`: whether the artists field contains the separator, that is
      whether it splits into more than one artist. */
  function HasFeat(artists: string): (feat: bool)
    ensures feat <==> |Split(artists, Separator)| > 1
  {
    if Separator in artists then
      JoinSplit(artists, Separator);
      true
    else
      SplitNoSep(artists, Separator);
      false
  }

  /** The flag is set exactly when the first artist is not the whole field,
      and a field without ';' is its own first artist. */
  lemma {:induction false} HasFeatIffSeveral(artists: string)
    ensures !HasFeat(artists) ==> FirstArtist(artists) == artists
    ensures HasFeat(artists) <==> FirstArtist(artists) != artists
  {
    if !HasFeat(artists) {
      SplitNoSep(artists, Separator);
    }
  }

  /** 'A;B' gives first artist 'A' with a feature; 'A' alone has none. */
  lemma FeatExamples()
    ensures FirstArtist("A;B") == "A" && HasFeat("A;B")
    ensures FirstArtist("A") == "A" && !HasFeat("A")
  {
  }
}
