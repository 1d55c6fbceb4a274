/**
 * The analyzer page's free-text playlist parser (`parsePlaylistData`) and the guard that runs
 * before an analysis is requested.
 */
module PlaylistParser {
  import opened JsString
  import opened Tracks

  const DashSeparator := " - "
  const BySeparator := " by "
  const UnknownArtist := "Unknown Artist"

  /**
   * `data.split('\n').filter(line => line.trim())`: the non-blank lines, none of which holds a
   * line break.
   */
  function NonBlankLines(data: string): (lines: seq<string>)
    ensures forall i :: 0 <= i < |lines| ==> Trim(lines[i]) != [] && '\n' !in lines[i]
  {
    var all := Split(data, '\n');
    var kept := KeepNonBlank(all);
    assert forall i :: 0 <= i < |kept| ==> '\n' !in kept[i] by {
      forall i | 0 <= i < |kept| ensures '\n' !in kept[i] {
        KeptLineIsInput(all, kept[i]);
        var j :| 0 <= j < |all| && all[j] == kept[i];
      }
    }
    kept
  }

  /** The lines whose trim is non-empty, in their order: never more lines, and none blank. */
  function KeepNonBlank(ls: seq<string>): (kept: seq<string>)
    ensures |kept| <= |ls|
    ensures forall i :: 0 <= i < |kept| ==> Trim(kept[i]) != []
  {
    if |ls| == 0 then []
    else (if Trim(ls[0]) != [] then [ls[0]] else []) + KeepNonBlank(ls[1..])
  }

  lemma {:induction false} KeptLineIsInput(ls: seq<string>, l: string)
    requires l in KeepNonBlank(ls)
    ensures l in ls
  {
    if l != ls[0] {
      assert KeepNonBlank(ls) == (if Trim(ls[0]) != [] then [ls[0]] else []) + KeepNonBlank(ls[1..]);
      KeptLineIsInput(ls[1..], l);
    }
  }

  /**
   * The filter keeps exactly the lines whose trim is non-empty: every kept line is one of the
   * input lines and is not blank, and every non-blank input line is kept, as often as it occurs.
   */
  lemma {:induction false} KeepNonBlankMembers(ls: seq<string>)
    ensures forall l :: l in KeepNonBlank(ls) <==> l in ls && Trim(l) != []
    ensures forall l :: multiset(KeepNonBlank(ls))[l] == if Trim(l) != [] then multiset(ls)[l] else 0
  {
    if |ls| > 0 {
      var rest := KeepNonBlank(ls[1..]);
      KeepNonBlankMembers(ls[1..]);
      var head := if Trim(ls[0]) != [] then [ls[0]] else [];
      assert KeepNonBlank(ls) == head + rest;
      assert ls == [ls[0]] + ls[1..];
      forall l ensures l in KeepNonBlank(ls) <==> l in ls && Trim(l) != [] {
        assert l in ls <==> l == ls[0] || l in ls[1..];
        assert l in head + rest <==> l in head || l in rest;
      }
      forall l ensures multiset(KeepNonBlank(ls))[l] == if Trim(l) != [] then multiset(ls)[l] else 0 {
        assert multiset(head + rest)[l] == multiset(head)[l] + multiset(rest)[l];
        assert multiset(ls)[l] == multiset([ls[0]])[l] + multiset(ls[1..])[l];
      }
    }
  }

  /**
   * The filter keeps the lines' order: filtering two blocks of lines one after the other is
   * filtering each block and putting the results one after the other.
   */
  lemma {:induction false} KeepNonBlankAppend(a: seq<string>, b: seq<string>)
    ensures KeepNonBlank(a + b) == KeepNonBlank(a) + KeepNonBlank(b)
  {
    if |a| == 0 {
      assert a + b == b;
    } else {
      assert (a + b)[0] == a[0] && (a + b)[1..] == a[1..] + b;
      KeepNonBlankAppend(a[1..], b);
    }
  }

  /**
   * One line as a track: `Artist - Song` takes priority over `Song by Artist`; a line with
   * neither separator is a bare title by the unknown artist. Only the first two pieces of a
   * split are kept, and both fields are trimmed: trimming them again changes nothing.
   */
  function ParseLine(line: string): (t: Track)
    ensures Trim(t.name) == t.name && Trim(t.artist) == t.artist
  {
    if Includes(line, DashSeparator) then
      var pieces := SplitLimit2(line, DashSeparator);
      TrimIdempotent(pieces[0]);
      TrimIdempotent(pieces[1]);
      Track(Trim(pieces[1]), Trim(pieces[0]))
    else if Includes(line, BySeparator) then
      var pieces := SplitLimit2(line, BySeparator);
      TrimIdempotent(pieces[0]);
      TrimIdempotent(pieces[1]);
      Track(Trim(pieces[0]), Trim(pieces[1]))
    else
      TrimIdempotent(line);
      TrimIdempotent(UnknownArtist);
      Track(Trim(line), Trim(UnknownArtist))
  }

  /**
   * A line with ` - `: the artist is the text before the first ` - `, the name the text after it
   * up to the next ` - ` (or to the end), both trimmed.
   */
  lemma DashRule(line: string, a: string, b: string)
    requires FirstTwoPieces(line, DashSeparator, a, b)
    ensures ParseLine(line) == Track(Trim(b), Trim(a))
  {
    assert OccursAt(line, DashSeparator, |a|);
    var pieces := SplitLimit2(line, DashSeparator);
    SplitLimit2Pieces(line, DashSeparator);
    FirstTwoPiecesUnique(line, DashSeparator, a, b, pieces[0], pieces[1]);
  }

  /**
   * A line with ` by ` and no ` - `: the name is the text before the first ` by `, the artist the
   * text after it up to the next ` by ` (or to the end), both trimmed.
   */
  lemma ByRule(line: string, a: string, b: string)
    requires !Includes(line, DashSeparator)
    requires FirstTwoPieces(line, BySeparator, a, b)
    ensures ParseLine(line) == Track(Trim(a), Trim(b))
  {
    assert OccursAt(line, BySeparator, |a|);
    var pieces := SplitLimit2(line, BySeparator);
    SplitLimit2Pieces(line, BySeparator);
    FirstTwoPiecesUnique(line, BySeparator, a, b, pieces[0], pieces[1]);
  }

  /** A line with neither separator is a bare title, trimmed, by "Unknown Artist". */
  lemma BareTitleRule(line: string)
    requires !Includes(line, DashSeparator) && !Includes(line, BySeparator)
    ensures ParseLine(line) == Track(Trim(line), UnknownArtist)
  {
    UnknownArtistTrimmed();
  }

  lemma UnknownArtistTrimmed()
    ensures Trim(UnknownArtist) == UnknownArtist
  {
    assert UnknownArtist[0] == 'U' && UnknownArtist[|UnknownArtist| - 1] == 't';
    TrimOfTrimmed(UnknownArtist);
  }

  /** The tracks of the given lines, one per line, in order. */
  function ParseLines(lines: seq<string>): (tracks: seq<Track>)
    ensures |tracks| == |lines|
  {
    if |lines| == 0 then [] else ParseLines(lines[..|lines| - 1]) + [ParseLine(lines[|lines| - 1])]
  }

  lemma {:induction false} ParseLinesAt(lines: seq<string>, k: nat)
    requires k < |lines|
    ensures ParseLines(lines)[k] == ParseLine(lines[k])
  {
    if k < |lines| - 1 {
      ParseLinesAt(lines[..|lines| - 1], k);
    }
  }

  /** The body of the parser's loop: `artist` and `name` are reassigned by the first rule that applies. */
  method ParseTrackLine(line: string) returns (track: Track)
    ensures track == ParseLine(line)
  {
    var artist, name := "", "";
    if Includes(line, DashSeparator) {
      var pieces := SplitLimit2(line, DashSeparator);
      artist, name := pieces[0], pieces[1];
    } else if Includes(line, BySeparator) {
      var pieces := SplitLimit2(line, BySeparator);
      name, artist := pieces[0], pieces[1];
    } else {
      name := line;
      artist := UnknownArtist;
    }
    track := Track(Trim(name), Trim(artist));
  }

  /**
   * `parsePlaylistData(data)`: exactly one track per line whose trim is non-empty, in the order
   * of the lines.
   */
  method ParsePlaylistData(data: string) returns (tracks: seq<Track>)
    ensures tracks == ParseLines(NonBlankLines(data))
    ensures |tracks| == |NonBlankLines(data)|
    ensures forall i :: 0 <= i < |tracks| ==> tracks[i] == ParseLine(NonBlankLines(data)[i])
  {
    var lines := NonBlankLines(data);
    tracks := [];
    for i := 0 to |lines|
      invariant tracks == ParseLines(lines[..i])
    {
      var track := ParseTrackLine(lines[i]);
      ParseLinesStep(lines, i);
      tracks := tracks + [track];
    }
    assert lines[..|lines|] == lines;
    ParseLinesEach(lines);
  }

  lemma ParseLinesStep(lines: seq<string>, i: nat)
    requires i < |lines|
    ensures ParseLines(lines[..i + 1]) == ParseLines(lines[..i]) + [ParseLine(lines[i])]
  {
    assert lines[..i + 1][..i] == lines[..i];
  }

  /** Every line becomes the track at its own index. */
  lemma ParseLinesEach(lines: seq<string>)
    ensures forall k :: 0 <= k < |lines| ==> ParseLines(lines)[k] == ParseLine(lines[k])
  {
    forall k | 0 <= k < |lines| ensures ParseLines(lines)[k] == ParseLine(lines[k]) {
      ParseLinesAt(lines, k);
    }
  }

  /**
   * `A - B - C`: for pieces without a `-`, the artist is the first piece and the name the second;
   * the third piece is discarded.
   */
  lemma ExtraPiecesDiscarded(a: string, b: string, c: string)
    requires '-' !in a && '-' !in b
    ensures ParseLine(a + DashSeparator + b + DashSeparator + c) == Track(Trim(b), Trim(a))
  {
    var line := a + DashSeparator + b + DashSeparator + c;
    var p := |a| + 3;
    assert line[..|a|] == a;
    assert line[p..p + |b|] == b;
    assert OccursAt(line, DashSeparator, |a|) by { assert line[|a|..p] == DashSeparator; }
    assert OccursAt(line, DashSeparator, p + |b|) by { assert line[p + |b|..p + |b| + 3] == DashSeparator; }
    NoDashBefore(line, a, 0);
    NoDashBefore(line, b, p);
    DashRule(line, a, b);
  }

  /**
   * Where `piece` stands in `line` at `from`, followed by a space, and has no `-`: no ` - ` starts
   * inside it.
   */
  lemma NoDashBefore(line: string, piece: string, from: nat)
    requires '-' !in piece
    requires from + |piece| < |line| && line[from..from + |piece|] == piece && line[from + |piece|] == ' '
    ensures forall k :: from <= k < from + |piece| ==> !OccursAt(line, DashSeparator, k)
  {
    forall k | from <= k < from + |piece| ensures !OccursAt(line, DashSeparator, k) {
      var next := k + 1;
      assert line[next] != '-' by {
        if next < from + |piece| {
          var x := next - from;
          assert line[next] == line[from..from + |piece|][x] == piece[x];
          assert piece[x] in piece;
        }
      }
      if k + 3 <= |line| {
        assert line[k..k + 3][1] == line[next];
        assert line[k..k + 3] != DashSeparator by { assert DashSeparator[1] == '-'; }
      }
    }
  }

  /** What the analyzer does when asked to analyze: refuse, fail, or send the parsed tracks on. */
  datatype Submission = MissingInformation | NoValidTracks | Submit(playlistName: string, tracks: seq<Track>)

  /**
   * `analyzePlaylist`: a blank name or blank data is refused before parsing; an empty parse is an
   * error; otherwise the parsed tracks are submitted under the given name.
   */
  method AnalyzePlaylist(playlistName: string, playlistData: string) returns (outcome: Submission)
    ensures outcome.MissingInformation? <==> Trim(playlistName) == [] || Trim(playlistData) == []
    ensures outcome.NoValidTracks? ==> NonBlankLines(playlistData) == []
    ensures outcome.Submit? ==>
      outcome.playlistName == playlistName && outcome.tracks == ParseLines(NonBlankLines(playlistData))
  {
    if Trim(playlistName) == [] || Trim(playlistData) == [] {
      return MissingInformation;
    }
    var tracks := ParsePlaylistData(playlistData);
    if |tracks| == 0 {
      return NoValidTracks;
    }
    outcome := Submit(playlistName, tracks);
  }

  /** Lines that are all white space joined by a white-space character are all white space. */
  lemma {:induction false} JoinOfWhiteSpace(parts: seq<string>, c: char)
    requires IsWhiteSpace(c)
    requires forall i :: 0 <= i < |parts| ==> AllWhiteSpace(parts[i])
    ensures AllWhiteSpace(Join(parts, c))
  {
    if |parts| > 1 {
      JoinOfWhiteSpace(parts[1..], c);
      WhiteSpaceConcat(parts[0], [c]);
      WhiteSpaceConcat(parts[0] + [c], Join(parts[1..], c));
    }
  }

  /**
   * Data with a non-white-space character has a non-blank line, so it parses to at least one
   * track: once the guard has passed, the "no valid tracks" error cannot happen.
   */
  lemma NonBlankDataHasTrack(data: string)
    requires Trim(data) != []
    ensures |NonBlankLines(data)| > 0
    ensures |ParseLines(NonBlankLines(data))| > 0
  {
    var lines := Split(data, '\n');
    JoinSplit(data, '\n');
    if forall i :: 0 <= i < |lines| ==> Trim(lines[i]) == [] {
      JoinOfWhiteSpace(lines, '\n');
      assert false;
    }
    var i :| 0 <= i < |lines| && Trim(lines[i]) != [];
    KeepNonBlankMembers(lines);
    assert lines[i] in NonBlankLines(data);
  }
}
