/**
 * The analysis function's keyword classifier: every track's lowercased `"name artist"` text is
 * searched for the keywords of each genre and each mood. A genre is counted at most once per
 * track; a mood is collected into an insertion-ordered set.
 */
module KeywordClassifier {
  import opened JsString
  import opened Tracks

  datatype Genre = Rock | Pop | HipHop | Electronic | Jazz | Classical | Country | RnB | Indie | Alternative

  /** The key under which a genre appears in the analysis. */
  function GenreName(g: Genre): string
  {
    match g
    case Rock => "Rock"
    case Pop => "Pop"
    case HipHop => "Hip Hop"
    case Electronic => "Electronic"
    case Jazz => "Jazz"
    case Classical => "Classical"
    case Country => "Country"
    case RnB => "R&B"
    case Indie => "Indie"
    case Alternative => "Alternative"
  }

  /** The genre table, in the order its entries are visited for each track. */
  const Genres: seq<Genre> := [Rock, Pop, HipHop, Electronic, Jazz, Classical, Country, RnB, Indie, Alternative]

  /** A genre's position in the genre table. */
  function TableIndex(g: Genre): (k: nat)
    ensures k < |Genres| && Genres[k] == g
  {
    match g
    case Rock => 0
    case Pop => 1
    case HipHop => 2
    case Electronic => 3
    case Jazz => 4
    case Classical => 5
    case Country => 6
    case RnB => 7
    case Indie => 8
    case Alternative => 9
  }

  function GenreKeywords(g: Genre): seq<string>
  {
    match g
    case Rock => ["rock", "metal", "punk", "grunge", "alternative"]
    case Pop => ["pop", "mainstream", "chart", "hit"]
    case HipHop => ["rap", "hip hop", "trap", "drill"]
    case Electronic => ["electronic", "edm", "techno", "house", "synth"]
    case Jazz => ["jazz", "blues", "swing", "bebop"]
    case Classical => ["classical", "symphony", "orchestra", "concerto"]
    case Country => ["country", "folk", "americana", "bluegrass"]
    case RnB => ["r&b", "soul", "motown", "funk"]
    case Indie => ["indie", "independent", "underground"]
    case Alternative => ["alternative", "alt", "experimental"]
  }

  datatype Mood = Energetic | Melancholic | Romantic | Rebellious | Peaceful | Nostalgic

  function MoodName(m: Mood): string
  {
    match m
    case Energetic => "Energetic"
    case Melancholic => "Melancholic"
    case Romantic => "Romantic"
    case Rebellious => "Rebellious"
    case Peaceful => "Peaceful"
    case Nostalgic => "Nostalgic"
  }

  /** The mood table, in the order its entries are visited for each track. */
  const Moods: seq<Mood> := [Energetic, Melancholic, Romantic, Rebellious, Peaceful, Nostalgic]

  function MoodKeywords(m: Mood): seq<string>
  {
    match m
    case Energetic => ["energy", "pump", "power", "dynamic", "electric"]
    case Melancholic => ["sad", "melancholy", "blue", "tears", "lonely"]
    case Romantic => ["love", "heart", "romance", "kiss", "together"]
    case Rebellious => ["rebel", "fight", "revolution", "break", "wild"]
    case Peaceful => ["peace", "calm", "quiet", "gentle", "soft"]
    case Nostalgic => ["memory", "remember", "past", "yesterday", "time"]
  }

  /**
   * The text a track is searched in: its name and artist separated by a space, lowercased, so no
   * upper-case ASCII letter is left and the matching ignores ASCII case.
   */
  function SearchText(t: Track): (text: string)
    ensures |text| == |t.name| + 1 + |t.artist|
    ensures forall i :: 0 <= i < |text| ==> !('A' <= text[i] <= 'Z')
  {
    ToLower(t.name + " " + t.artist)
  }

  /** `keywords.some(keyword => text.includes(keyword))`. */
  predicate AnyIncludes(text: string, keywords: seq<string>)
  {
    |keywords| > 0 && (Includes(text, keywords[0]) || AnyIncludes(text, keywords[1..]))
  }

  predicate GenreMatches(t: Track, g: Genre)
  {
    AnyIncludes(SearchText(t), GenreKeywords(g))
  }

  predicate MoodMatches(t: Track, m: Mood)
  {
    AnyIncludes(SearchText(t), MoodKeywords(m))
  }

  /** Every genre has an entry in the genre table. */
  lemma GenresListed()
    ensures forall g: Genre :: g in Genres
  {
    forall g: Genre ensures g in Genres {
      assert Genres[TableIndex(g)] == g;
    }
  }

  /** Every mood has an entry in the mood table. */
  lemma MoodsListed()
    ensures forall m: Mood :: m in Moods
  {
    forall m: Mood ensures m in Moods {
      assert m == Moods[match m case Energetic => 0 case Melancholic => 1 case Romantic => 2
                          case Rebellious => 3 case Peaceful => 4 case Nostalgic => 5];
    }
  }

  /** The genres whose keywords the track's text contains. */
  function MatchedGenres(t: Track): (hit: set<Genre>)
    ensures forall g :: g in hit <==> GenreMatches(t, g)
  {
    GenresListed();
    set g | g in Genres && GenreMatches(t, g)
  }

  /** The moods whose keywords the track's text contains. */
  function MatchedMoods(t: Track): (hit: set<Mood>)
    ensures forall m :: m in hit <==> MoodMatches(t, m)
  {
    MoodsListed();
    set m | m in Moods && MoodMatches(t, m)
  }

  /** For each track, the genres it matches. */
  function GenreHits(tracks: seq<Track>): seq<set<Genre>>
  {
    seq(|tracks|, i requires 0 <= i < |tracks| => MatchedGenres(tracks[i]))
  }

  // ---------------------------------------------------------------------------------------------
  // Genre counts: an insertion-ordered dictionary from genre to count. The counting is stated over
  // `hits`, the genres each track seen so far matched.

  type GenreCounts = seq<(Genre, nat)>

  function Keys(counts: GenreCounts): seq<Genre>
  {
    seq(|counts|, i requires 0 <= i < |counts| => counts[i].0)
  }

  predicate DistinctKeys(counts: GenreCounts)
  {
    forall i, j :: 0 <= i < j < |counts| ==> counts[i].0 != counts[j].0
  }

  /**
   * `counts[g] = (counts[g] || 0) + 1`: bump an existing entry in place, or add `g` at the end.
   * The dictionary grows by at most one entry, and a new entry is `g` with count 1, at the end.
   */
  function Increment(counts: GenreCounts, g: Genre): (r: GenreCounts)
    ensures |counts| <= |r| <= |counts| + 1
    ensures |r| == |counts| + 1 ==> r[|counts|] == (g, 1)
  {
    if |counts| == 0 then [(g, 1)]
    else if counts[0].0 == g then [(g, counts[0].1 + 1)] + counts[1..]
    else [counts[0]] + Increment(counts[1..], g)
  }

  /** An existing key keeps its place and gains one; a new key is appended with count 1. */
  lemma IncrementSpec(counts: GenreCounts, g: Genre)
    requires DistinctKeys(counts)
    ensures g in Keys(counts) ==>
      |Increment(counts, g)| == |counts| &&
      forall i :: 0 <= i < |counts| ==>
        Increment(counts, g)[i] == (counts[i].0, counts[i].1 + if counts[i].0 == g then 1 else 0)
    ensures g !in Keys(counts) ==> Increment(counts, g) == counts + [(g, 1)]
  {
    if g in Keys(counts) {
      IncrementExisting(counts, g);
    } else {
      IncrementNew(counts, g);
    }
  }

  lemma {:induction false} IncrementExisting(counts: GenreCounts, g: Genre)
    requires DistinctKeys(counts) && g in Keys(counts)
    ensures |Increment(counts, g)| == |counts|
    ensures forall i :: 0 <= i < |counts| ==>
      Increment(counts, g)[i] == (counts[i].0, counts[i].1 + if counts[i].0 == g then 1 else 0)
  {
    var r := Increment(counts, g);
    if counts[0].0 != g {
      var rest := counts[1..];
      assert Keys(counts) == [counts[0].0] + Keys(rest);
      assert DistinctKeys(rest);
      IncrementExisting(rest, g);
      var tail := Increment(rest, g);
      assert r == [counts[0]] + tail;
      forall i | 0 <= i < |counts|
        ensures r[i] == (counts[i].0, counts[i].1 + if counts[i].0 == g then 1 else 0)
      {
        if i > 0 {
          var k := i - 1;
          assert r[i] == tail[k] && counts[i] == rest[k];
        }
      }
    } else {
      assert r == [(g, counts[0].1 + 1)] + counts[1..];
      forall i | 0 <= i < |counts|
        ensures r[i] == (counts[i].0, counts[i].1 + if counts[i].0 == g then 1 else 0)
      {
        if i > 0 {
          assert counts[i].0 != counts[0].0;
          assert r[i] == counts[i];
        }
      }
    }
  }

  lemma {:induction false} IncrementNew(counts: GenreCounts, g: Genre)
    requires g !in Keys(counts)
    ensures Increment(counts, g) == counts + [(g, 1)]
  {
    if |counts| == 0 {
      assert counts + [(g, 1)] == [(g, 1)];
    } else {
      var rest := counts[1..];
      assert Keys(counts)[0] == counts[0].0;
      assert Keys(counts) == [counts[0].0] + Keys(rest);
      IncrementNew(rest, g);
      assert counts + [(g, 1)] == [counts[0]] + (rest + [(g, 1)]);
    }
  }

  /** The number of tracks that matched the genre. */
  function CountMatching(hits: seq<set<Genre>>, g: Genre): (n: nat)
    ensures n <= |hits|
  {
    if |hits| == 0 then 0
    else CountMatching(hits[..|hits| - 1], g) + if g in hits[|hits| - 1] then 1 else 0
  }

  /** The index of the first track that matched the genre, or the number of tracks if none did. */
  function FirstMatch(hits: seq<set<Genre>>, g: Genre): (k: nat)
    ensures k <= |hits|
    ensures k < |hits| ==> g in hits[k]
    ensures forall i :: 0 <= i < k ==> g !in hits[i]
  {
    if |hits| == 0 then 0
    else
      var prefix := hits[..|hits| - 1];
      var k := FirstMatch(prefix, g);
      assert forall i :: 0 <= i < |prefix| ==> prefix[i] == hits[i];
      if k < |hits| - 1 || g in hits[|hits| - 1] then k else |hits|
  }

  lemma {:induction false} FirstMatchFound(hits: seq<set<Genre>>, g: Genre)
    ensures FirstMatch(hits, g) < |hits| <==> CountMatching(hits, g) > 0
  {
    if |hits| > 0 {
      FirstMatchFound(hits[..|hits| - 1], g);
    }
  }

  /**
   * The order of the dictionary's keys: by the first track that matches them, and for the same
   * track by their place in the genre table.
   */
  predicate Before(hits: seq<set<Genre>>, g: Genre, h: Genre)
  {
    FirstMatch(hits, g) < FirstMatch(hits, h) ||
    (FirstMatch(hits, g) == FirstMatch(hits, h) && TableIndex(g) < TableIndex(h))
  }

  /** The inner loop over the genre table for a track that matched `hit`, after its first `j` entries. */
  function TallyGenres(counts: GenreCounts, hit: set<Genre>, j: nat): GenreCounts
    requires j <= |Genres|
  {
    if j == 0 then counts
    else
      var c := TallyGenres(counts, hit, j - 1);
      if Genres[j - 1] in hit then Increment(c, Genres[j - 1]) else c
  }

  /** The genre counts after all the tracks. */
  function TallyHits(hits: seq<set<Genre>>): GenreCounts
  {
    if |hits| == 0 then []
    else TallyGenres(TallyHits(hits[..|hits| - 1]), hits[|hits| - 1], |Genres|)
  }

  /** The genre counts of a list of tracks: every count is between 1 and the number of tracks. */
  function Tally(tracks: seq<Track>): (counts: GenreCounts)
    ensures forall i :: 0 <= i < |counts| ==> 1 <= counts[i].1 <= |tracks|
  {
    var hits := GenreHits(tracks);
    var c := TallyHits(hits);
    assert forall i :: 0 <= i < |c| ==> 1 <= c[i].1 <= |tracks| by {
      TallySpec(hits);
      forall i | 0 <= i < |c| ensures 1 <= c[i].1 {
        assert Keys(c)[i] == c[i].0;
      }
    }
    c
  }

  /** One more track: its matched genres are counted into the counts of the tracks before it. */
  lemma TallyAppend(tracks: seq<Track>, t: Track)
    ensures Tally(tracks + [t]) == TallyGenres(Tally(tracks), MatchedGenres(t), |Genres|)
  {
    var hits := GenreHits(tracks + [t]);
    assert hits[..|tracks|] == GenreHits(tracks);
  }

  /**
   * What the counts hold once `hits` are done and the current track, which matched `hit`, has been
   * checked against the first `j` genres: one entry per genre matched so far, holding how often it
   * matched, in order of first match.
   */
  ghost predicate Summarizes(counts: GenreCounts, hits: seq<set<Genre>>, hit: set<Genre>, j: nat)
  {
    var seen := hits + [hit];
    DistinctKeys(counts) &&
    (forall i :: 0 <= i < |counts| ==>
      counts[i].1 == CountMatching(hits, counts[i].0) + Partial(hit, counts[i].0, j)) &&
    (forall g :: g in Keys(counts) <==> CountMatching(hits, g) + Partial(hit, g, j) > 0) &&
    (forall i, k :: 0 <= i < k < |counts| ==> Before(seen, counts[i].0, counts[k].0))
  }

  /** Whether the current track has already been counted for `g` after `j` table entries. */
  function Partial(hit: set<Genre>, g: Genre, j: nat): nat
  {
    if TableIndex(g) < j && g in hit then 1 else 0
  }

  lemma FirstMatchAppend(hits: seq<set<Genre>>, hit: set<Genre>, g: Genre)
    ensures CountMatching(hits, g) > 0 ==> FirstMatch(hits + [hit], g) == FirstMatch(hits, g)
    ensures CountMatching(hits, g) == 0 && g in hit ==> FirstMatch(hits + [hit], g) == |hits|
  {
    FirstMatchFound(hits, g);
    assert (hits + [hit])[..|hits|] == hits;
  }

  lemma GenresIndexed(j: nat)
    requires j < |Genres|
    ensures TableIndex(Genres[j]) == j
  {
  }

  lemma PartialStep(hit: set<Genre>, j: nat)
    requires j < |Genres|
    ensures forall h :: Partial(hit, h, j + 1) == Partial(hit, h, j) + if h == Genres[j] && h in hit then 1 else 0
  {
    forall h ensures Partial(hit, h, j + 1) == Partial(hit, h, j) + if h == Genres[j] && h in hit then 1 else 0 {
      GenresIndexed(j);
    }
  }

  lemma KeyAt(counts: GenreCounts, i: nat)
    requires i < |counts|
    ensures counts[i].0 in Keys(counts)
  {
    assert Keys(counts)[i] == counts[i].0;
  }

  /** Checking a genre the track did not match changes nothing. */
  lemma StepNoMatch(counts: GenreCounts, hits: seq<set<Genre>>, hit: set<Genre>, j: nat)
    requires j < |Genres| && Genres[j] !in hit
    requires Summarizes(counts, hits, hit, j)
    ensures Summarizes(counts, hits, hit, j + 1)
  {
    PartialStep(hit, j);
  }

  /** A matched genre that already has an entry gains one in place. */
  lemma StepExisting(counts: GenreCounts, hits: seq<set<Genre>>, hit: set<Genre>, j: nat)
    requires j < |Genres| && Genres[j] in hit && Genres[j] in Keys(counts)
    requires Summarizes(counts, hits, hit, j)
    ensures Summarizes(Increment(counts, Genres[j]), hits, hit, j + 1)
  {
    var c := Increment(counts, Genres[j]);
    IncrementSpec(counts, Genres[j]);
    assert |c| == |counts| && forall i :: 0 <= i < |c| ==> c[i].0 == counts[i].0;
    SameKeys(counts, c, hits + [hit]);
    ExistingKeyCounts(counts, hits, hit, j);
  }

  /** Counts with the same keys at the same places keep distinct keys in the same order. */
  lemma SameKeys(counts: GenreCounts, c: GenreCounts, seen: seq<set<Genre>>)
    requires |c| == |counts| && forall i :: 0 <= i < |c| ==> c[i].0 == counts[i].0
    requires DistinctKeys(counts) && forall i, k :: 0 <= i < k < |counts| ==> Before(seen, counts[i].0, counts[k].0)
    ensures Keys(c) == Keys(counts)
    ensures DistinctKeys(c) && forall i, k :: 0 <= i < k < |c| ==> Before(seen, c[i].0, c[k].0)
  {
    forall i, k | 0 <= i < k < |c| ensures c[i].0 != c[k].0 && Before(seen, c[i].0, c[k].0) {
      assert c[i].0 == counts[i].0 && c[k].0 == counts[k].0;
    }
  }

  lemma ExistingKeyCounts(counts: GenreCounts, hits: seq<set<Genre>>, hit: set<Genre>, j: nat)
    requires j < |Genres| && Genres[j] in hit && Genres[j] in Keys(counts)
    requires Summarizes(counts, hits, hit, j)
    ensures var c := Increment(counts, Genres[j]);
      forall i :: 0 <= i < |c| ==> c[i].1 == CountMatching(hits, c[i].0) + Partial(hit, c[i].0, j + 1)
    ensures forall h :: h in Keys(Increment(counts, Genres[j])) <==> CountMatching(hits, h) + Partial(hit, h, j + 1) > 0
  {
    var g := Genres[j];
    var c := Increment(counts, g);
    IncrementSpec(counts, g);
    assert Keys(c) == Keys(counts);
    PartialStep(hit, j);
    forall i | 0 <= i < |c| ensures c[i].1 == CountMatching(hits, c[i].0) + Partial(hit, c[i].0, j + 1) {
      assert c[i].0 == counts[i].0;
    }
  }

  /** A matched genre without an entry is appended with count 1, after every key already there. */
  lemma StepNew(counts: GenreCounts, hits: seq<set<Genre>>, hit: set<Genre>, j: nat)
    requires j < |Genres| && Genres[j] in hit && Genres[j] !in Keys(counts)
    requires Summarizes(counts, hits, hit, j)
    ensures Summarizes(Increment(counts, Genres[j]), hits, hit, j + 1)
  {
    IncrementSpec(counts, Genres[j]);
    AppendedKeyOrder(counts, hits, hit, j);
    AppendedKeyCounts(counts, hits, hit, j);
  }

  lemma AppendedKeyOrder(counts: GenreCounts, hits: seq<set<Genre>>, hit: set<Genre>, j: nat)
    requires j < |Genres| && Genres[j] in hit && Genres[j] !in Keys(counts)
    requires Summarizes(counts, hits, hit, j)
    ensures DistinctKeys(counts + [(Genres[j], 1)])
    ensures forall i, k :: 0 <= i < k < |counts| + 1 ==>
      Before(hits + [hit], (counts + [(Genres[j], 1)])[i].0, (counts + [(Genres[j], 1)])[k].0)
  {
    var g := Genres[j];
    var c := counts + [(g, 1)];
    GenresIndexed(j);
    assert CountMatching(hits, g) == 0;
    var seen := hits + [hit];
    forall i, k | 0 <= i < k < |c| ensures c[i].0 != c[k].0 && Before(seen, c[i].0, c[k].0) {
      assert c[i] == counts[i];
      if k < |counts| {
        assert c[k] == counts[k];
      } else {
        KeyAt(counts, i);
        EarlierKeyBefore(hits, hit, j, counts[i].0);
      }
    }
  }

  lemma AppendedKeyCounts(counts: GenreCounts, hits: seq<set<Genre>>, hit: set<Genre>, j: nat)
    requires j < |Genres| && Genres[j] in hit && Genres[j] !in Keys(counts)
    requires Summarizes(counts, hits, hit, j)
    ensures forall i :: 0 <= i < |counts| + 1 ==>
      (counts + [(Genres[j], 1)])[i].1 ==
        CountMatching(hits, (counts + [(Genres[j], 1)])[i].0) + Partial(hit, (counts + [(Genres[j], 1)])[i].0, j + 1)
    ensures forall h :: h in Keys(counts + [(Genres[j], 1)]) <==> CountMatching(hits, h) + Partial(hit, h, j + 1) > 0
  {
    var g := Genres[j];
    var c := counts + [(g, 1)];
    PartialStep(hit, j);
    GenresIndexed(j);
    assert CountMatching(hits, g) == 0;
    assert Keys(c) == Keys(counts) + [g];
    forall i | 0 <= i < |c| ensures c[i].1 == CountMatching(hits, c[i].0) + Partial(hit, c[i].0, j + 1) {
      if i < |counts| {
        assert c[i] == counts[i];
        KeyAt(counts, i);
      }
    }
  }

  /** A key present before the current track reaches table entry `j` comes before that entry. */
  lemma EarlierKeyBefore(hits: seq<set<Genre>>, hit: set<Genre>, j: nat, h: Genre)
    requires j < |Genres| && Genres[j] in hit && CountMatching(hits, Genres[j]) == 0
    requires CountMatching(hits, h) + Partial(hit, h, j) > 0
    ensures h != Genres[j] && Before(hits + [hit], h, Genres[j])
  {
    var g := Genres[j];
    GenresIndexed(j);
    FirstMatchAppend(hits, hit, g);
    FirstMatchAppend(hits, hit, h);
    FirstMatchFound(hits, h);
  }

  /** One step of the inner loop, checking table entry `i`, from `counts` to `next`, keeps the summary. */
  lemma TallyGenresStep(counts: GenreCounts, next: GenreCounts, hits: seq<set<Genre>>, hit: set<Genre>, i: nat, j: nat)
    requires i < |Genres| && j == i + 1
    requires Summarizes(counts, hits, hit, i)
    requires next == if Genres[i] in hit then Increment(counts, Genres[i]) else counts
    ensures Summarizes(next, hits, hit, j)
  {
    if Genres[i] !in hit {
      StepNoMatch(counts, hits, hit, i);
    } else if Genres[i] in Keys(counts) {
      StepExisting(counts, hits, hit, i);
    } else {
      StepNew(counts, hits, hit, i);
    }
  }

  lemma {:induction false} TallyGenresSummarizes(counts: GenreCounts, hits: seq<set<Genre>>, hit: set<Genre>, j: nat)
    requires j <= |Genres|
    requires Summarizes(counts, hits, hit, 0)
    ensures Summarizes(TallyGenres(counts, hit, j), hits, hit, j)
  {
    if j > 0 {
      TallyGenresSummarizes(counts, hits, hit, j - 1);
      TallyGenresStep(TallyGenres(counts, hit, j - 1), TallyGenres(counts, hit, j), hits, hit, j - 1, j);
    }
  }

  /** The counts after all tracks, described without the dictionary of the previous tracks. */
  ghost predicate TallyOf(counts: GenreCounts, hits: seq<set<Genre>>)
  {
    DistinctKeys(counts) &&
    (forall i :: 0 <= i < |counts| ==> counts[i].1 == CountMatching(hits, counts[i].0)) &&
    (forall g :: g in Keys(counts) <==> CountMatching(hits, g) > 0) &&
    (forall i, k :: 0 <= i < k < |counts| ==> Before(hits, counts[i].0, counts[k].0))
  }

  lemma {:induction false} TallySpec(hits: seq<set<Genre>>)
    ensures TallyOf(TallyHits(hits), hits)
  {
    if |hits| > 0 {
      var prefix, hit := hits[..|hits| - 1], hits[|hits| - 1];
      assert hits == prefix + [hit];
      var c := TallyHits(prefix);
      TallySpec(prefix);
      forall i, k | 0 <= i < k < |c| ensures Before(hits, c[i].0, c[k].0) {
        assert Keys(c)[i] == c[i].0 && Keys(c)[k] == c[k].0;
        FirstMatchAppend(prefix, hit, c[i].0);
        FirstMatchAppend(prefix, hit, c[k].0);
      }
      assert Summarizes(c, prefix, hit, 0);
      TallyGenresSummarizes(c, prefix, hit, |Genres|);
      forall g ensures CountMatching(prefix, g) + Partial(hit, g, |Genres|) == CountMatching(hits, g) {
        assert TableIndex(g) < |Genres|;
      }
    }
  }

  /**
   * The genre counts before any fallback: one entry per genre that matches at least one track,
   * holding the number of tracks it matches, so every count is between 1 and the number of tracks;
   * the entries are in order of the first track that matches them, ties in table order.
   */
  lemma GenreCountsMeaning(tracks: seq<Track>)
    ensures DistinctKeys(Tally(tracks))
    ensures forall i :: 0 <= i < |Tally(tracks)| ==>
      Tally(tracks)[i].1 == CountMatching(GenreHits(tracks), Tally(tracks)[i].0) &&
      1 <= Tally(tracks)[i].1 <= |tracks|
    ensures forall g :: g in Keys(Tally(tracks)) <==> CountMatching(GenreHits(tracks), g) > 0
    ensures forall i, k :: 0 <= i < k < |Tally(tracks)| ==>
      Before(GenreHits(tracks), Tally(tracks)[i].0, Tally(tracks)[k].0)
  {
    var hits := GenreHits(tracks);
    TallySpec(hits);
    var c := Tally(tracks);
    forall i | 0 <= i < |c| ensures 1 <= c[i].1 {
      assert Keys(c)[i] == c[i].0;
    }
  }

  /** No genre was detected exactly when no track matches any genre keyword. */
  lemma NoGenreDetected(tracks: seq<Track>)
    ensures Tally(tracks) == [] <==> forall t, g :: t in tracks ==> !GenreMatches(t, g)
  {
    var hits := GenreHits(tracks);
    TallySpec(hits);
    var c := Tally(tracks);
    if c != [] {
      var g := c[0].0;
      assert Keys(c)[0] == g;
      FirstMatchFound(hits, g);
      var k := FirstMatch(hits, g);
      assert g in MatchedGenres(tracks[k]);
      assert tracks[k] in tracks;
    } else {
      forall t, g | t in tracks ensures !GenreMatches(t, g) {
        assert g !in Keys(c);
        FirstMatchFound(hits, g);
        var k :| 0 <= k < |tracks| && tracks[k] == t;
        assert g !in hits[k];
      }
    }
  }

  // ---------------------------------------------------------------------------------------------
  // Moods: an insertion-ordered set.

  /** The inner loop over the mood table for a track that matched `hit`, after its first `j` entries. */
  function AddMoods(moods: seq<Mood>, hit: set<Mood>, j: nat): seq<Mood>
    requires j <= |Moods|
  {
    if j == 0 then moods
    else
      var ms := AddMoods(moods, hit, j - 1);
      if Moods[j - 1] in hit && Moods[j - 1] !in ms then ms + [Moods[j - 1]] else ms
  }

  /** The detected moods after all the tracks, in the order they were first added, none twice. */
  function MoodsFound(tracks: seq<Track>): (moods: seq<Mood>)
    ensures NoDuplicates(moods)
  {
    if |tracks| == 0 then []
    else
      var before := MoodsFound(tracks[..|tracks| - 1]);
      var hit := MatchedMoods(tracks[|tracks| - 1]);
      AddMoodsSpec(before, hit, |Moods|);
      AddMoods(before, hit, |Moods|)
  }

  /** One more track: its matched moods are added after the moods of the tracks before it. */
  lemma MoodsFoundAppend(tracks: seq<Track>, t: Track)
    ensures MoodsFound(tracks + [t]) == AddMoods(MoodsFound(tracks), MatchedMoods(t), |Moods|)
  {
    assert (tracks + [t])[..|tracks|] == tracks;
  }

  predicate NoDuplicates<T(==)>(s: seq<T>)
  {
    forall i, j :: 0 <= i < j < |s| ==> s[i] != s[j]
  }

  lemma {:induction false} AddMoodsSpec(moods: seq<Mood>, hit: set<Mood>, j: nat)
    requires j <= |Moods|
    requires NoDuplicates(moods)
    ensures NoDuplicates(AddMoods(moods, hit, j))
    ensures forall m :: m in AddMoods(moods, hit, j) <==> m in moods || (m in Moods[..j] && m in hit)
  {
    if j > 0 {
      AddMoodsSpec(moods, hit, j - 1);
      assert Moods[..j] == Moods[..j - 1] + [Moods[j - 1]];
    }
  }

  /** Every mood that some track's text mentions is reported, exactly once, and no other. */
  lemma {:induction false} MoodsFoundSpec(tracks: seq<Track>)
    ensures NoDuplicates(MoodsFound(tracks))
    ensures forall m :: m in MoodsFound(tracks) <==> exists t :: t in tracks && MoodMatches(t, m)
  {
    if |tracks| > 0 {
      var prefix, t := tracks[..|tracks| - 1], tracks[|tracks| - 1];
      assert tracks == prefix + [t];
      MoodsFoundSpec(prefix);
      AddMoodsSpec(MoodsFound(prefix), MatchedMoods(t), |Moods|);
      assert Moods[..|Moods|] == Moods;
      MoodsListed();
    }
  }

  /**
   * The classifier's nested loop: for every track, every genre of the table whose keywords its
   * text contains is counted once, and every mood whose keywords it contains is added to the set.
   */
  method DetectGenresAndMoods(tracks: seq<Track>) returns (counts: GenreCounts, moods: seq<Mood>)
    ensures counts == Tally(tracks)
    ensures moods == MoodsFound(tracks)
  {
    counts, moods := [], [];
    for i := 0 to |tracks|
      invariant counts == Tally(tracks[..i])
      invariant moods == MoodsFound(tracks[..i])
    {
      var prefix := tracks[..i];
      assert tracks[..i + 1] == prefix + [tracks[i]];
      TallyAppend(prefix, tracks[i]);
      MoodsFoundAppend(prefix, tracks[i]);
      counts := CountGenres(counts, tracks[i]);
      moods := AddTrackMoods(moods, tracks[i]);
    }
    assert tracks[..|tracks|] == tracks;
  }

  /** The loop over the genre table for one track. */
  method CountGenres(before: GenreCounts, track: Track) returns (counts: GenreCounts)
    ensures counts == TallyGenres(before, MatchedGenres(track), |Genres|)
  {
    counts := before;
    for j := 0 to |Genres|
      invariant counts == TallyGenres(before, MatchedGenres(track), j)
    {
      var genre := Genres[j];
      var matched := AnyIncludes(SearchText(track), GenreKeywords(genre));
      assert matched == (genre in MatchedGenres(track));
      if matched {
        counts := Increment(counts, genre);
      }
    }
  }

  /** The loop over the mood table for one track. */
  method AddTrackMoods(before: seq<Mood>, track: Track) returns (moods: seq<Mood>)
    ensures moods == AddMoods(before, MatchedMoods(track), |Moods|)
  {
    moods := before;
    for j := 0 to |Moods|
      invariant moods == AddMoods(before, MatchedMoods(track), j)
    {
      var mood := Moods[j];
      var matched := AnyIncludes(SearchText(track), MoodKeywords(mood));
      assert matched == (mood in MatchedMoods(track));
      if matched && mood !in moods {
        moods := moods + [mood];
      }
    }
  }
}
