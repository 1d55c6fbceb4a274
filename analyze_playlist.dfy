/**
 * The `analyze-playlist` edge function: validates the posted playlist, classifies its tracks,
 * falls back to fixed genre counts when no genre keyword matched, and recommends books.
 */
module AnalyzePlaylist {
  import opened Tracks
  import opened Http
  import opened KeywordClassifier
  import opened BookRecommender

  /** The JSON values the request body's two fields can hold. */
  datatype JsValue = Undefined | Null | Bool(b: bool) | Number(n: int) | Str(s: string) | TrackArray(tracks: seq<Track>) | Object

  /** JavaScript truthiness: `undefined`, `null`, `false`, `0` and `""` are falsy. */
  predicate Truthy(v: JsValue)
  {
    match v
    case Undefined => false
    case Null => false
    case Bool(b) => b
    case Number(n) => n != 0
    case Str(s) => s != []
    case TrackArray(_) => true
    case Object => true
  }

  /** A pre-flight request, or a POST whose JSON body holds `playlistName` and `tracks`. */
  datatype AnalyzeRequest = Options | Post(playlistName: JsValue, tracks: JsValue)

  /** The `analysis` object of a successful answer. */
  datatype Analysis = Analysis(genres: GenreCounts, moods: seq<Mood>, bookRecommendations: seq<BookEntry>)

  const InvalidPlaylistData := "Invalid playlist data"

  /**
   * The genre counts used when no genre matched: Pop, Rock and Alternative with 40%, 30% and 30%
   * of the number of tracks, rounded down. The source multiplies by the floating-point numbers
   * 0.4 and 0.3; the integer quotients here are the exact values those products approximate.
   */
  function Fallback(n: nat): (counts: GenreCounts)
    ensures |counts| == 3 && DistinctKeys(counts)
    ensures forall i :: 0 <= i < |counts| ==> counts[i].1 <= n
  {
    [(Pop, n * 4 / 10), (Rock, n * 3 / 10), (Alternative, n * 3 / 10)]
  }

  /** Accepted: a truthy name and an array of tracks (an empty array included). */
  predicate ValidBody(playlistName: JsValue, tracks: JsValue)
  {
    Truthy(playlistName) && Truthy(tracks) && tracks.TrackArray?
  }

  /** The analysis of an accepted list of tracks. */
  function Analyze(tracks: seq<Track>): Analysis
  {
    var counts := Tally(tracks);
    var genres := if |counts| == 0 then Fallback(|tracks|) else counts;
    Analysis(genres, MoodsFound(tracks), Recommendations(genres))
  }

  /**
   * The answer: the pre-flight, the validation error exactly for a POST whose body is refused,
   * or an analysis that always reports some genre, moods without repetition and two to four books.
   */
  function AnalyzeResult(req: AnalyzeRequest): (r: Response<Analysis>)
    ensures r.Error? <==> req.Post? && !ValidBody(req.playlistName, req.tracks)
    ensures r.Json? ==>
      |r.body.genres| > 0 && NoDuplicates(r.body.moods) && 2 <= |r.body.bookRecommendations| <= 4
  {
    match req
    case Options => Preflight
    case Post(name, tracks) =>
      if !ValidBody(name, tracks) then Error(InvalidPlaylistData) else Json(Analyze(tracks.tracks))
  }

  /** The handler: validation, the classifier's loop, the fallback keys, the recommendations. */
  method HandleAnalyzeRequest(req: AnalyzeRequest) returns (resp: Response<Analysis>)
    ensures resp == AnalyzeResult(req)
  {
    if req.Options? {
      return Preflight;
    }
    if !Truthy(req.playlistName) || !Truthy(req.tracks) || !req.tracks.TrackArray? {
      return Error(InvalidPlaylistData);
    }
    var tracks := req.tracks.tracks;
    var genreCounts, moods := DetectGenresAndMoods(tracks);
    if |genreCounts| == 0 {
      genreCounts := genreCounts + [(Pop, |tracks| * 4 / 10)];
      genreCounts := genreCounts + [(Rock, |tracks| * 3 / 10)];
      genreCounts := genreCounts + [(Alternative, |tracks| * 3 / 10)];
      assert genreCounts == Fallback(|tracks|);
    }
    var books := GenerateBookRecommendations(genreCounts, moods);
    resp := Json(Analysis(genreCounts, moods, books));
  }

  /**
   * A POST is refused with status 400 and "Invalid playlist data" exactly when the name is falsy
   * or `tracks` is not an array; an empty array with a name is analysed.
   */
  lemma ValidationRule(name: JsValue, tracks: JsValue)
    ensures Status(AnalyzeResult(Post(name, tracks))) == 400 <==> !Truthy(name) || !tracks.TrackArray?
    ensures !Truthy(name) || !tracks.TrackArray? ==> AnalyzeResult(Post(name, tracks)) == Error(InvalidPlaylistData)
    ensures Truthy(name) ==> AnalyzeResult(Post(name, TrackArray([]))).Json?
  {
  }

  /**
   * The reported genres: the keyword counts when some track matched a genre keyword, and the
   * fallback counts exactly when none did.
   */
  lemma GenresReported(tracks: seq<Track>)
    ensures (forall t, g :: t in tracks ==> !GenreMatches(t, g)) ==> Analyze(tracks).genres == Fallback(|tracks|)
    ensures (exists t, g :: t in tracks && GenreMatches(t, g)) ==> Analyze(tracks).genres == Tally(tracks)
    ensures Analyze(tracks).moods == MoodsFound(tracks)
  {
    NoGenreDetected(tracks);
  }

  /**
   * The fallback genres, in insertion order Pop, Rock, Alternative: the counts never exceed the
   * number of tracks, and Pop's is at least the other two, which are equal.
   */
  lemma FallbackSpec(n: nat)
    ensures Keys(Fallback(n)) == [Pop, Rock, Alternative]
    ensures Fallback(n)[0].1 + Fallback(n)[1].1 + Fallback(n)[2].1 <= n
    ensures Fallback(n)[0].1 >= Fallback(n)[1].1 == Fallback(n)[2].1
  {
  }

  /**
   * When the fallback applies, the top genres are Pop, Rock, Alternative (Rock before Alternative
   * by insertion order, as their counts tie), and the four books are Pop's two then Rock's two.
   */
  lemma FallbackRecommendations(n: nat)
    ensures TopGenres(Fallback(n)) == [Pop, Rock, Alternative]
    ensures Recommendations(Fallback(n)) == [SevenHusbands, DaisyJones, HighFidelity, JustKids]
  {
    var f := Fallback(n);
    var p, r, a := f[0], f[1], f[2];
    assert f[..2] == [p, r] && f[..1] == [p] && f[..0] == [];
    assert SortByCount([p]) == [p];
    assert SortByCount([p, r]) == Insert(r, [p]) == [p, r];
    assert [p, r][1..] == [r];
    assert Insert(a, [r]) == [r, a];
    assert SortByCount(f) == Insert(a, [p, r]) == [p, r, a];
    assert TopEntries(f) == [p, r, a];
    var top := [Pop, Rock, Alternative];
    assert top[..2] == [Pop, Rock] && top[..1] == [Pop] && top[..0] == [];
    assert GenreBooks([Pop]) == [SevenHusbands, DaisyJones];
    assert GenreBooks([Pop, Rock]) == [SevenHusbands, DaisyJones, HighFidelity, JustKids];
    assert GenreBooks(top) == [SevenHusbands, DaisyJones, HighFidelity, JustKids, NorwegianWood, PerksOfBeingAWallflower];
  }
}
