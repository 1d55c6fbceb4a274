/**
 * The analysis function's `generateBookRecommendations`: the three genres with the highest counts
 * (a stable sort, so ties keep their insertion order) contribute up to two books each from a fixed
 * table; two general books are added when fewer than three were found, and at most four are kept.
 */
module BookRecommender {
  import opened Wrappers
  import opened KeywordClassifier

  /** A book as it appears in the response. */
  datatype Book = Book(title: string, author: string, reason: string, genre: string)

  /** The books the function can recommend. */
  datatype BookEntry =
    | HighFidelity | JustKids | SevenHusbands | DaisyJones | HateUGive | BornACrime
    | Neuromancer | KlaraAndTheSun | JazzNovel | ParisWife | Goldfinch | SongOfAchilles
    | NorwegianWood | PerksOfBeingAWallflower | MidnightLibrary | Circe

  function Details(b: BookEntry): Book
  {
    match b
    case HighFidelity => Book("High Fidelity", "Nick Hornby",
      "A perfect match for rock music lovers - follows a record store owner obsessed with music and relationships.",
      "Contemporary Fiction")
    case JustKids => Book("Just Kids", "Patti Smith",
      "A memoir about the punk rock scene and artistic rebellion in New York.",
      "Memoir")
    case SevenHusbands => Book("The Seven Husbands of Evelyn Hugo", "Taylor Jenkins Reid",
      "Glamorous, dramatic, and captivating - just like pop music's biggest hits.",
      "Contemporary Fiction")
    case DaisyJones => Book("Daisy Jones & The Six", "Taylor Jenkins Reid",
      "About a fictional 70s rock band - captures the drama and passion of the music world.",
      "Historical Fiction")
    case HateUGive => Book("The Hate U Give", "Angie Thomas",
      "Powerful storytelling that addresses social issues, matching hip hop's lyrical depth.",
      "Young Adult")
    case BornACrime => Book("Born a Crime", "Trevor Noah",
      "Sharp wit and social commentary, similar to the best hip hop narratives.",
      "Memoir")
    case Neuromancer => Book("Neuromancer", "William Gibson",
      "Cyberpunk classic that matches the futuristic, synthetic feel of electronic music.",
      "Science Fiction")
    case KlaraAndTheSun => Book("Klara and the Sun", "Kazuo Ishiguro",
      "Explores AI and technology with the same precision as electronic music production.",
      "Literary Fiction")
    case JazzNovel => Book("Jazz", "Toni Morrison",
      "A novel that captures the rhythm and improvisation of jazz music in its narrative style.",
      "Literary Fiction")
    case ParisWife => Book("The Paris Wife", "Paula McLain",
      "Set in 1920s Paris during the jazz age, following Hemingway's first wife.",
      "Historical Fiction")
    case Goldfinch => Book("The Goldfinch", "Donna Tartt",
      "Epic, complex, and beautifully composed - like a classical symphony in novel form.",
      "Literary Fiction")
    case SongOfAchilles => Book("The Song of Achilles", "Madeline Miller",
      "Timeless, elegant storytelling that matches classical music's enduring beauty.",
      "Historical Fiction")
    case NorwegianWood => Book("Norwegian Wood", "Haruki Murakami",
      "Unconventional narrative style that matches alternative music's experimental nature.",
      "Literary Fiction")
    case PerksOfBeingAWallflower => Book("The Perks of Being a Wallflower", "Stephen Chbosky",
      "Coming-of-age story with the same introspective quality as alternative music.",
      "Young Adult")
    case MidnightLibrary => Book("The Midnight Library", "Matt Haig",
      "A philosophical novel about life's possibilities - perfect for any music lover seeking meaning.",
      "Contemporary Fiction")
    case Circe => Book("Circe", "Madeline Miller",
      "Lyrical and powerful storytelling that resonates like your favorite songs.",
      "Mythology")
  }

  /** The book table; genres without an entry (Country, R&B, Indie) contribute no books. */
  function BookTable(g: Genre): Option<seq<BookEntry>>
  {
    match g
    case Rock => Some([HighFidelity, JustKids])
    case Pop => Some([SevenHusbands, DaisyJones])
    case HipHop => Some([HateUGive, BornACrime])
    case Electronic => Some([Neuromancer, KlaraAndTheSun])
    case Jazz => Some([JazzNovel, ParisWife])
    case Classical => Some([Goldfinch, SongOfAchilles])
    case Alternative => Some([NorwegianWood, PerksOfBeingAWallflower])
    case Country => None
    case RnB => None
    case Indie => None
  }

  /** The books added when the genres gave fewer than three. */
  const GeneralBooks: seq<BookEntry> := [MidnightLibrary, Circe]

  function Min(a: int, b: int): int
  {
    if a <= b then a else b
  }

  // ---------------------------------------------------------------------------------------------
  // `Object.entries(genres).sort(([, a], [, b]) => b - a)`: a stable sort by non-increasing count.

  predicate SortedByCount(s: GenreCounts)
  {
    forall i, j :: 0 <= i < j < |s| ==> s[i].1 >= s[j].1
  }

  /** The entries with count `c`, in their order. */
  function WithCount(s: GenreCounts, c: nat): GenreCounts
  {
    if |s| == 0 then [] else (if s[0].1 == c then [s[0]] else []) + WithCount(s[1..], c)
  }

  /** Place `x` after every entry whose count is at least its own: one entry more, `x` among them. */
  function Insert(x: (Genre, nat), s: GenreCounts): (r: GenreCounts)
    ensures |r| == |s| + 1 && x in r
  {
    if |s| == 0 then [x]
    else if s[0].1 >= x.1 then [s[0]] + Insert(x, s[1..])
    else [x] + s
  }

  /** Insertion sort, from the last entry back: as many entries as the input. */
  function SortByCount(s: GenreCounts): (r: GenreCounts)
    ensures |r| == |s|
  {
    if |s| == 0 then [] else Insert(s[|s| - 1], SortByCount(s[..|s| - 1]))
  }

  lemma {:induction false} WithCountAppend(s: GenreCounts, x: (Genre, nat), c: nat)
    ensures WithCount(s + [x], c) == WithCount(s, c) + if x.1 == c then [x] else []
  {
    if |s| > 0 {
      assert (s + [x])[1..] == s[1..] + [x];
      WithCountAppend(s[1..], x, c);
    }
  }

  lemma {:induction false} WithCountBelow(s: GenreCounts, c: nat)
    requires SortedByCount(s) && |s| > 0 && s[0].1 < c
    ensures WithCount(s, c) == []
  {
    if |s| > 1 {
      WithCountBelow(s[1..], c);
    }
  }

  lemma {:induction false} InsertMultiset(x: (Genre, nat), s: GenreCounts)
    ensures multiset(Insert(x, s)) == multiset(s) + multiset{x}
  {
    if |s| > 0 && s[0].1 >= x.1 {
      InsertMultiset(x, s[1..]);
      assert s == [s[0]] + s[1..];
    }
  }

  /** Inserting keeps every count below a bound that `x` and all of `s` are below. */
  lemma {:induction false} InsertBounded(x: (Genre, nat), s: GenreCounts, bound: nat)
    requires x.1 <= bound && forall i :: 0 <= i < |s| ==> s[i].1 <= bound
    ensures forall i :: 0 <= i < |Insert(x, s)| ==> Insert(x, s)[i].1 <= bound
  {
    if |s| > 0 && s[0].1 >= x.1 {
      InsertBounded(x, s[1..], bound);
    }
  }

  lemma {:induction false} InsertSorted(x: (Genre, nat), s: GenreCounts)
    requires SortedByCount(s)
    ensures SortedByCount(Insert(x, s))
  {
    if |s| > 0 && s[0].1 >= x.1 {
      InsertSorted(x, s[1..]);
      InsertBounded(x, s[1..], s[0].1);
      var r := Insert(x, s[1..]);
      forall i, j | 0 <= i < j < |r| + 1 ensures ([s[0]] + r)[i].1 >= ([s[0]] + r)[j].1 {
        assert ([s[0]] + r)[j] == r[j - 1];
        if i > 0 {
          assert ([s[0]] + r)[i] == r[i - 1];
        }
      }
    }
  }

  lemma {:induction false} InsertWithCount(x: (Genre, nat), s: GenreCounts, c: nat)
    requires SortedByCount(s)
    ensures WithCount(Insert(x, s), c) == WithCount(s, c) + if x.1 == c then [x] else []
  {
    var t := if x.1 == c then [x] else [];
    if |s| == 0 {
      assert Insert(x, s) == [x];
    } else if s[0].1 >= x.1 {
      var r := Insert(x, s[1..]);
      var h := if s[0].1 == c then [s[0]] else [];
      assert ([s[0]] + r)[1..] == r;
      assert WithCount(Insert(x, s), c) == h + WithCount(r, c);
      InsertWithCount(x, s[1..], c);
      assert WithCount(s, c) == h + WithCount(s[1..], c);
      assert h + (WithCount(s[1..], c) + t) == (h + WithCount(s[1..], c)) + t;
    } else {
      assert ([x] + s)[1..] == s;
      assert WithCount(Insert(x, s), c) == t + WithCount(s, c);
      if x.1 == c {
        WithCountBelow(s, c);
        assert t + [] == [] + t;
      } else {
        assert [] + WithCount(s, c) == WithCount(s, c) + [];
      }
    }
  }

  /**
   * The sort's result is ordered by non-increasing count, holds the same entries, and keeps the
   * entries of each count in their original (insertion) order.
   */
  lemma {:induction false} SortByCountSpec(s: GenreCounts)
    ensures SortedByCount(SortByCount(s))
    ensures multiset(SortByCount(s)) == multiset(s)
    ensures forall c :: WithCount(SortByCount(s), c) == WithCount(s, c)
  {
    if |s| > 0 {
      var prefix, x := s[..|s| - 1], s[|s| - 1];
      assert s == prefix + [x];
      SortByCountSpec(prefix);
      InsertSorted(x, SortByCount(prefix));
      InsertMultiset(x, SortByCount(prefix));
      forall c ensures WithCount(SortByCount(s), c) == WithCount(s, c) {
        InsertWithCount(x, SortByCount(prefix), c);
        WithCountAppend(prefix, x, c);
      }
    }
  }

  /** The entries of the (at most) three genres with the highest counts. */
  function TopEntries(genres: GenreCounts): (top: GenreCounts)
    ensures |top| == Min(3, |genres|)
  {
    var sorted := SortByCount(genres);
    sorted[..Min(3, |sorted|)]
  }

  /** `.slice(0, 3).map(([genre]) => genre)`. */
  function TopGenres(genres: GenreCounts): seq<Genre>
  {
    Keys(TopEntries(genres))
  }

  lemma {:induction false} WithCountPrefix(s: GenreCounts, m: nat, c: nat)
    requires m <= |s|
    ensures WithCount(s[..m], c) <= WithCount(s, c)
  {
    if m > 0 {
      assert s[..m][1..] == s[1..][..m - 1];
      WithCountPrefix(s[1..], m - 1, c);
    }
  }

  /** A prefix of a sorted permutation: no entry outside the prefix has a higher count than one in it. */
  lemma PrefixOfSorted(sorted: GenreCounts, genres: GenreCounts, m: nat)
    requires SortedByCount(sorted) && multiset(sorted) == multiset(genres) && m <= |sorted|
    ensures multiset(sorted[..m]) <= multiset(genres)
    ensures forall e, i :: e in genres && e !in sorted[..m] && 0 <= i < m ==> sorted[i].1 >= e.1
  {
    assert sorted == sorted[..m] + sorted[m..];
    forall e, i | e in genres && e !in sorted[..m] && 0 <= i < m
      ensures sorted[i].1 >= e.1
    {
      assert e in multiset(sorted);
      var k :| 0 <= k < |sorted| && sorted[k] == e;
      assert k >= m;
    }
  }

  /**
   * The top genres: at most three, by non-increasing count; no entry left out has a higher count
   * than one kept; and for each count the kept entries are the first ones of that count in
   * insertion order.
   */
  lemma TopEntriesSpec(genres: GenreCounts)
    ensures |TopEntries(genres)| == Min(3, |genres|)
    ensures SortedByCount(TopEntries(genres))
    ensures multiset(TopEntries(genres)) <= multiset(genres)
    ensures forall e, i :: e in genres && e !in TopEntries(genres) && 0 <= i < |TopEntries(genres)| ==>
      TopEntries(genres)[i].1 >= e.1
    ensures forall c :: WithCount(TopEntries(genres), c) <= WithCount(genres, c)
  {
    var sorted := SortByCount(genres);
    SortByCountSpec(genres);
    assert |sorted| == |genres| by {
      assert |multiset(sorted)| == |multiset(genres)|;
    }
    var m := Min(3, |sorted|);
    assert TopEntries(genres) == sorted[..m];
    PrefixOfSorted(sorted, genres, m);
    forall c ensures WithCount(sorted[..m], c) <= WithCount(genres, c) {
      WithCountPrefix(sorted, m, c);
    }
  }

  // ---------------------------------------------------------------------------------------------
  // Recommendations.

  /** `genreToBooks[genre].slice(0, 2)` for a genre in the table, nothing otherwise. */
  function BooksOf(g: Genre): seq<BookEntry>
  {
    match BookTable(g)
    case Some(books) => books[..Min(2, |books|)]
    case None => []
  }

  /** The books of the given genres, in the genres' order: at most two for each genre. */
  function GenreBooks(top: seq<Genre>): (books: seq<BookEntry>)
    ensures |books| <= 2 * |top|
  {
    if |top| == 0 then [] else GenreBooks(top[..|top| - 1]) + BooksOf(top[|top| - 1])
  }

  /**
   * The genre books, padded with the general books when fewer than three, cut at four: never
   * fewer than two books and never more than four.
   */
  function Recommendations(genres: GenreCounts): (books: seq<BookEntry>)
    ensures 2 <= |books| <= 4
  {
    var books := GenreBooks(TopGenres(genres));
    var padded := if |books| < 3 then books + GeneralBooks else books;
    padded[..Min(4, |padded|)]
  }

  /** Each genre gives two books or none; the genres without a table entry give none. */
  lemma BooksOfSpec(g: Genre)
    ensures |BooksOf(g)| == 0 || |BooksOf(g)| == 2
    ensures BooksOf(g) == [] <==> g == Country || g == RnB || g == Indie
  {
  }

  lemma {:induction false} GenreBooksSpec(top: seq<Genre>)
    ensures |GenreBooks(top)| % 2 == 0 && |GenreBooks(top)| <= 2 * |top|
    ensures forall b :: b in GenreBooks(top) <==> exists g :: g in top && b in BooksOf(g)
  {
    if |top| > 0 {
      var prefix, g := top[..|top| - 1], top[|top| - 1];
      assert top == prefix + [g];
      GenreBooksSpec(prefix);
      BooksOfSpec(g);
    }
  }

  /**
   * The recommendations: always two or four books; the genre books in top-genre order, followed
   * by the two general books exactly when fewer than three genre books were found, cut at four.
   */
  lemma RecommendationsSpec(genres: GenreCounts)
    ensures |Recommendations(genres)| == 2 || |Recommendations(genres)| == 4
    ensures |GenreBooks(TopGenres(genres))| < 3 ==>
      Recommendations(genres) == GenreBooks(TopGenres(genres)) + GeneralBooks
    ensures |GenreBooks(TopGenres(genres))| >= 3 ==>
      Recommendations(genres) == GenreBooks(TopGenres(genres))[..4]
  {
    var top := TopGenres(genres);
    assert |top| <= 3;
    var books := GenreBooks(top);
    GenreBooksSpec(top);
    var padded := if |books| < 3 then books + GeneralBooks else books;
    assert Recommendations(genres) == padded[..Min(4, |padded|)];
    if |books| < 3 {
      assert |padded| == 2 || |padded| == 4;
      assert padded[..|padded|] == padded;
    } else {
      assert |padded| >= 4;
    }
  }

  /** Every recommended book is a general book or a book of one of the top genres. */
  lemma RecommendationsFromTopGenres(genres: GenreCounts)
    ensures forall b :: b in Recommendations(genres) ==>
      b in GeneralBooks || exists g :: g in TopGenres(genres) && b in BooksOf(g)
  {
    var top := TopGenres(genres);
    var books := GenreBooks(top);
    GenreBooksSpec(top);
    RecommendationsSpec(genres);
    forall b | b in Recommendations(genres)
      ensures b in GeneralBooks || exists g :: g in top && b in BooksOf(g)
    {
      if |books| >= 3 {
        assert books == books[..4] + books[4..];
        assert b in books;
      } else {
        assert b in books || b in GeneralBooks;
      }
    }
  }

  /**
   * `generateBookRecommendations(genres, moods)`: the push loop over the top genres, the padding
   * and the cut. The moods are not read: the result is determined by the genre counts alone.
   */
  method GenerateBookRecommendations(genres: GenreCounts, moods: seq<Mood>) returns (recs: seq<BookEntry>)
    ensures recs == Recommendations(genres)
  {
    var top := TopGenres(genres);
    recs := [];
    for i := 0 to |top|
      invariant recs == GenreBooks(top[..i])
    {
      assert top[..i + 1][..i] == top[..i];
      match BookTable(top[i]) {
        case Some(books) =>
          recs := recs + books[..Min(2, |books|)];
        case None =>
      }
    }
    assert top[..|top|] == top;
    if |recs| < 3 {
      recs := recs + GeneralBooks;
    }
    recs := recs[..Min(4, |recs|)];
  }
}
