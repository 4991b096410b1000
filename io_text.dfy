/*
 * Text helpers of Dungeon_Crawler/io.cpp that compute rather than draw:
 * the word wrapping of `split`, `is_vowel`, and the terrain-to-glyph
 * switches of the map displays.
 */
module IoText {
  import opened Grid

  /** The string with every newline replaced by a space. */
  function Normalize(s: string): (r: string)
    ensures |r| == |s|
    ensures forall i :: 0 <= i < |s| ==> r[i] == (if s[i] == '\n' then ' ' else s[i])
  {
    seq(|s|, i requires 0 <= i < |s| => if s[i] == '\n' then ' ' else s[i])
  }

  /**
   * boost::split with is_any_of(" "): the pieces between single spaces.
   * Two spaces in a row give an empty piece, and the empty string gives
   * one empty piece.
   */
  function SplitOn(s: string): (ws: seq<string>)
    ensures |ws| >= 1
  {
    if s == [] then [""]
    else
      var rest := SplitOn(s[1..]);
      if s[0] == ' ' then [""] + rest else [[s[0]] + rest[0]] + rest[1..]
  }

  /** The words, each followed by one space. */
  function JoinSpaced(ws: seq<string>): string {
    if ws == [] then "" else ws[0] + " " + JoinSpaced(ws[1..])
  }

  function Concat(lines: seq<string>): string {
    if lines == [] then "" else lines[0] + Concat(lines[1..])
  }

  lemma {:induction false} JoinSpacedAppend(a: seq<string>, b: seq<string>)
    ensures JoinSpaced(a + b) == JoinSpaced(a) + JoinSpaced(b)
  {
    if a == [] {
      assert a + b == b;
    } else {
      assert (a + b)[1..] == a[1..] + b;
      JoinSpacedAppend(a[1..], b);
    }
  }

  /** Taking one more word adds it and its space at the end. */
  lemma JoinSpacedExtend(words: seq<string>, i: nat, j: nat)
    requires i <= j < |words|
    ensures JoinSpaced(words[i..j + 1]) == JoinSpaced(words[i..j]) + words[j] + " "
  {
    assert words[i..j + 1] == words[i..j] + [words[j]];
    JoinSpacedAppend(words[i..j], [words[j]]);
    assert [words[j]][1..] == [];
  }

  /** Joining the pieces of a split with spaces gives back the string, plus a space. */
  lemma {:induction false} JoinSplitOn(s: string)
    ensures JoinSpaced(SplitOn(s)) == s + " "
  {
    if s != [] {
      var rest := SplitOn(s[1..]);
      JoinSplitOn(s[1..]);
      if s[0] == ' ' {
        assert ([""] + rest)[1..] == rest;
      } else {
        assert ([[s[0]] + rest[0]] + rest[1..])[1..] == rest[1..];
        calc {
          JoinSpaced([[s[0]] + rest[0]] + rest[1..]);
          [s[0]] + rest[0] + " " + JoinSpaced(rest[1..]);
          [s[0]] + JoinSpaced(rest);
          [s[0]] + s[1..] + " ";
        }
        assert [s[0]] + s[1..] == s;
      }
    }
  }

  /** Every word leaves room for its trailing space on a line shorter than n. */
  predicate WordsFit(words: seq<string>, n: int) {
    forall i :: 0 <= i < |words| ==> |words[i]| <= n - 2
  }

  /**
   * Where the line that starts with word j ends, when `used` characters of
   * it are taken: words are added, each with a space, while the line stays
   * shorter than n.
   */
  function LineEnd(words: seq<string>, j: nat, n: int, used: int): (e: nat)
    requires j <= |words|
    decreases |words| - j
    ensures j <= e <= |words|
    ensures j < |words| && used + |words[j]| + 1 < n ==> j < e
  {
    if j < |words| && used + |words[j]| + 1 < n then LineEnd(words, j + 1, n, used + |words[j]| + 1)
    else j
  }

  /** The line LineEnd builds is shorter than n, and the word after it would not have fitted. */
  lemma {:induction false} LineEndFits(words: seq<string>, j: nat, n: int, used: int)
    requires j <= |words|
    decreases |words| - j
    ensures var e := LineEnd(words, j, n, used);
      (used < n ==> used + |JoinSpaced(words[j..e])| < n) &&
      (e < |words| ==> used + |JoinSpaced(words[j..e])| + |words[e]| + 1 >= n)
  {
    var e := LineEnd(words, j, n, used);
    if j < |words| && used + |words[j]| + 1 < n {
      LineEndFits(words, j + 1, n, used + |words[j]| + 1);
      assert words[j..e] == [words[j]] + words[j + 1..e];
    } else {
      assert words[j..j] == [];
    }
  }

  /** One step of the packing loop: the word at j is added, or the line ends at j. */
  lemma LineEndStep(words: seq<string>, j: nat, n: int, used: int)
    requires j <= |words|
    ensures j < |words| && used + |words[j]| + 1 < n ==>
      LineEnd(words, j, n, used) == LineEnd(words, j + 1, n, used + |words[j]| + 1)
    ensures !(j < |words| && used + |words[j]| + 1 < n) ==> LineEnd(words, j, n, used) == j
  {
  }

  /** The lines split returns for the words from index j on. */
  function Lines(words: seq<string>, j: nat, n: int): seq<string>
    requires j <= |words| && WordsFit(words, n)
    decreases |words| - j
  {
    if j == |words| then []
    else
      var e := LineEnd(words, j, n, 0);
      [JoinSpaced(words[j..e])] + Lines(words, e, n)
  }

  /** The lines, put back together, are the words each followed by a space. */
  lemma {:induction false} LinesConcat(words: seq<string>, j: nat, n: int)
    requires j <= |words| && WordsFit(words, n)
    ensures Concat(Lines(words, j, n)) == JoinSpaced(words[j..])
    decreases |words| - j
  {
    if j < |words| {
      var e := LineEnd(words, j, n, 0);
      LinesConcat(words, e, n);
      assert words[j..] == words[j..e] + words[e..];
      JoinSpacedAppend(words[j..e], words[e..]);
    }
  }

  /**
   * Every line is shorter than n and not empty, and the first word of the
   * next line would not have fitted on it.
   */
  predicate Wrapped(ls: seq<string>, n: int) {
    (forall k :: 0 <= k < |ls| ==> 0 < |ls[k]| < n) &&
    (forall k :: 0 <= k < |ls| - 1 ==> |ls[k]| + |SplitOn(ls[k + 1])[0]| + 1 >= n)
  }

  /** The lines split produces are wrapped. */
  lemma {:induction false} LinesShape(words: seq<string>, j: nat, n: int)
    requires j <= |words| && WordsFit(words, n)
    requires forall i :: 0 <= i < |words| ==> ' ' !in words[i]
    ensures Wrapped(Lines(words, j, n), n)
    decreases |words| - j
  {
    if j < |words| {
      var e := LineEnd(words, j, n, 0);
      LineEndFits(words, j, n, 0);
      LinesShape(words, e, n);
      var ls := Lines(words, j, n);
      var rest := Lines(words, e, n);
      assert ls == [JoinSpaced(words[j..e])] + rest;
      assert words[j..e] == [words[j]] + words[j + 1..e];
      forall k | 0 <= k < |ls|
        ensures 0 < |ls[k]| < n
      {
        if k > 0 {
          assert ls[k] == rest[k - 1];
        }
      }
      forall k | 0 <= k < |ls| - 1
        ensures |ls[k]| + |SplitOn(ls[k + 1])[0]| + 1 >= n
      {
        if k > 0 {
          assert ls[k] == rest[k - 1] && ls[k + 1] == rest[k];
        } else {
          var next := LineEnd(words, e, n, 0);
          assert words[e..next] == [words[e]] + words[e + 1..next];
          FirstWordOfLine(words[e], words[e + 1..next]);
          assert ls[1] == rest[0] == JoinSpaced(words[e..next]);
        }
      }
    }
  }

  /** Splitting a line on spaces gives its first word first. */
  lemma {:induction false} FirstWordOfLine(w: string, rest: seq<string>)
    requires ' ' !in w
    ensures SplitOn(JoinSpaced([w] + rest))[0] == w
  {
    assert ([w] + rest)[1..] == rest;
    FirstPiece(w, JoinSpaced(rest));
  }

  lemma {:induction false} FirstPiece(w: string, tail: string)
    requires ' ' !in w
    ensures SplitOn(w + " " + tail)[0] == w
  {
    if w != [] {
      assert (w + " " + tail)[1..] == w[1..] + " " + tail;
      FirstPiece(w[1..], tail);
    }
  }

  /** No piece of a split contains a space. */
  lemma {:induction false} SplitOnPiecesHaveNoSpace(s: string)
    ensures forall i :: 0 <= i < |SplitOn(s)| ==> ' ' !in SplitOn(s)[i]
  {
    if s != [] {
      SplitOnPiecesHaveNoSpace(s[1..]);
    }
  }

  /** The lines of a whole string give it back with a trailing space, and are wrapped. */
  lemma SplitLines(str: string, n: int)
    requires WordsFit(SplitOn(str), n)
    ensures Concat(Lines(SplitOn(str), 0, n)) == str + " "
    ensures Wrapped(Lines(SplitOn(str), 0, n), n)
  {
    var words := SplitOn(str);
    LinesConcat(words, 0, n);
    assert words[0..] == words;
    JoinSplitOn(str);
    SplitOnPiecesHaveNoSpace(str);
    LinesShape(words, 0, n);
  }

  /**
   * The inner loop of split: words are added to the line, each followed by
   * a space, while the count of characters, the new word and its space
   * included, stays below n.  A word is never left out of an empty line.
   */
  method FillLine(words: seq<string>, start: nat, n: int) returns (line: string, j: nat)
    requires start < |words| && WordsFit(words, n)
    ensures start < j == LineEnd(words, start, n, 0) <= |words|
    ensures line == JoinSpaced(words[start..j])
  {
    ghost var e := LineEnd(words, start, n, 0);
    assert start < e by {
      assert |words[start]| <= n - 2;
    }
    var numChars := 0;
    line := "";
    j := start;
    ghost var full := false;
    while numChars <= n && j < |words|
      invariant start <= j <= |words|
      invariant line == JoinSpaced(words[start..j])
      invariant !full ==> numChars == |line| < n && e == LineEnd(words, j, n, numChars)
      invariant full ==> numChars >= n && j < |words| && e == j
      decreases |words| - j, n + 1 - numChars
    {
      LineEndStep(words, j, n, numChars);
      numChars := numChars + |words[j]| + 1;
      if numChars >= n {
        full := true;
        continue;
      }
      JoinSpacedExtend(words, start, j);
      line := line + words[j] + " ";
      j := j + 1;
    }
    LineEndStep(words, j, n, numChars);
  }

  /**
   * split(string, n): newlines become spaces, the string is cut into words
   * at single spaces, and the words are packed greedily onto lines shorter
   * than n, each word followed by a space.  A word longer than n - 2 never
   * fits on a fresh line and the loop would run forever, so every word must
   * fit.  The lines put together give back the string with one trailing
   * space.
   */
  method Split(s: string, n: int) returns (ret: seq<string>)
    requires WordsFit(SplitOn(Normalize(s)), n)
    ensures ret == Lines(SplitOn(Normalize(s)), 0, n)
    ensures Concat(ret) == Normalize(s) + " "
    ensures Wrapped(ret, n)
  {
    var str := s;
    for index := 0 to |str|
      invariant |str| == |s|
      invariant forall i :: 0 <= i < index ==> str[i] == Normalize(s)[i]
      invariant forall i :: index <= i < |s| ==> str[i] == s[i]
    {
      if str[index] == '\n' {
        str := str[index := ' '];
      }
    }
    assert str == Normalize(s);
    var words := SplitOn(str);
    assert |words[0]| <= n - 2;
    ret := [];
    var j := 0;
    while j < |words|
      invariant 0 <= j <= |words|
      invariant Lines(words, 0, n) == ret + Lines(words, j, n)
    {
      var line;
      ghost var start := j;
      line, j := FillLine(words, j, n);
      assert Lines(words, start, n) == [line] + Lines(words, j, n);
      ret := ret + [line];
    }
    SplitLines(str, n);
  }

  /** is_vowel: a, e, i, o or u, in either case: a lower-case vowel once case is folded. */
  predicate IsVowel(c: char): (b: bool)
    ensures b <==> ToLower(c) in "aeiou"
  {
    c == 'a' || c == 'e' || c == 'i' || c == 'o' || c == 'u' ||
    c == 'A' || c == 'E' || c == 'I' || c == 'O' || c == 'U'
  }

  function ToLower(c: char): char {
    if 'A' <= c <= 'Z' then (c as int - 'A' as int + 'a' as int) as char else c
  }

  /**
   * The terrain switch of io_display and io_teleport_pc: the glyph of a
   * terrain the PC knows.  Every terrain kind has a glyph; '0' marks one
   * the switch does not list.
   */
  function TerrainGlyph(t: Terrain): (c: char)
    ensures c in " .#*<>+0"
    ensures c == '0' <==> t == Stairs
  {
    match t
    case Wall | WallImmutable | Unknown => ' '
    case Floor | FloorRoom => '.'
    case FloorHall => '#'
    case Debug => '*'
    case StairsUp => '<'
    case StairsDown => '>'
    case Marketplace => '+'
    case _ => '0'
  }

  /** The terrain switch of io_display_no_fog, which has no case for ter_unknown. */
  function NoFogGlyph(t: Terrain): (c: char)
    ensures c in " .#*<>+0"
  {
    match t
    case Wall | WallImmutable => ' '
    case Floor | FloorRoom => '.'
    case FloorHall => '#'
    case Debug => '*'
    case StairsUp => '<'
    case StairsDown => '>'
    case Marketplace => '+'
    case _ => '0'
  }

  /** The two switches agree on every terrain but ter_unknown, which the no-fog map draws as '0'. */
  lemma GlyphTablesAgree(t: Terrain)
    ensures t != Unknown ==> NoFogGlyph(t) == TerrainGlyph(t)
    ensures TerrainGlyph(Unknown) == ' ' && NoFogGlyph(Unknown) == '0'
  {
  }

  /** Which terrains each glyph stands for: walls and unknown cells are blank. */
  lemma GlyphClasses(t: Terrain)
    ensures TerrainGlyph(t) == ' ' <==> t == Wall || t == WallImmutable || t == Unknown
    ensures TerrainGlyph(t) == '.' <==> t == Floor || t == FloorRoom
    ensures TerrainGlyph(t) == '#' <==> t == FloorHall
    ensures TerrainGlyph(t) == '*' <==> t == Debug
    ensures TerrainGlyph(t) == '<' <==> t == StairsUp
    ensures TerrainGlyph(t) == '>' <==> t == StairsDown
    ensures TerrainGlyph(t) == '+' <==> t == Marketplace
  {
  }
}
