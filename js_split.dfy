/** JavaScript's `String.prototype.split` with a one-character separator,
    which the posts handler uses to take the Authorization header apart. */
module JsSplit {

  /** `pieces.join(sep)`: the pieces with one separator between neighbours. */
  function Join(pieces: seq<string>, sep: char): string
    requires |pieces| >= 1
  {
    if |pieces| == 1 then pieces[0] else pieces[0] + [sep] + Join(pieces[1..], sep)
  }

  /** `s.split(sep)`: every occurrence of `sep` ends a piece, so the empty
      string gives one empty piece and two adjacent separators give an empty
      piece between them. The pieces never contain `sep`, and joining them
      gives `s` back. */
  function Split(s: string, sep: char): (pieces: seq<string>)
    ensures |pieces| >= 1
    ensures forall i :: 0 <= i < |pieces| ==> sep !in pieces[i]
    ensures Join(pieces, sep) == s
    decreases |s|
  {
    if s == [] then [[]]
    else
      var rest := Split(s[1..], sep);
      if s[0] == sep then
        assert ([[]] + rest)[1..] == rest;
        [[]] + rest
      else
        var first := [s[0]] + rest[0];
        assert ([first] + rest[1..])[1..] == rest[1..];
        assert |rest| > 1 ==> rest == [rest[0]] + rest[1..];
        [first] + rest[1..]
  }

  /** The longest prefix of `s` that does not contain `sep`. */
  function Word(s: string, sep: char): (w: string)
    ensures |w| <= |s| && w == s[..|w|]
    ensures sep !in w
    ensures |w| == |s| || s[|w|] == sep
  {
    if s == [] || s[0] == sep then [] else [s[0]] + Word(s[1..], sep)
  }

  /** A prefix without `sep` is the word of `s` exactly when `s` ends or
      has a separator right after it. */
  lemma WordIs(s: string, sep: char, w: string)
    requires sep !in w
    ensures Word(s, sep) == w <==> (s == w || (|s| > |w| && s[..|w|] == w && s[|w|] == sep))
  {
  }

  /** The word is empty exactly when `s` is empty or starts with `sep`. */
  lemma WordEmpty(s: string, sep: char)
    ensures Word(s, sep) == [] <==> (s == [] || s[0] == sep)
  {
  }

  /** `s.split(sep)` is the only sequence of at least one piece, none
      containing `sep`, that joins back to `s`: it is fixed by those two
      facts. */
  lemma {:induction false} SplitUnique(pieces: seq<string>, s: string, sep: char)
    requires |pieces| >= 1
    requires forall i :: 0 <= i < |pieces| ==> sep !in pieces[i]
    requires Join(pieces, sep) == s
    ensures pieces == Split(s, sep)
    decreases |s|
  {
    if |pieces| == 1 {
      SplitNoSep(s, sep);
    } else {
      var tail := Join(pieces[1..], sep);
      assert s == pieces[0] + [sep] + tail;
      if pieces[0] == [] {
        assert s[0] == sep && s[1..] == tail;
        SplitUnique(pieces[1..], tail, sep);
        assert pieces == [[]] + pieces[1..];
      } else {
        var c := pieces[0][0];
        assert c in pieces[0];
        assert s[0] == c && c != sep;
        var shorter := [pieces[0][1..]] + pieces[1..];
        forall i | 0 <= i < |shorter|
          ensures sep !in shorter[i]
        {
          if i == 0 {
            assert forall x :: x in pieces[0][1..] ==> x in pieces[0];
          } else {
            assert shorter[i] == pieces[i];
          }
        }
        assert shorter[1..] == pieces[1..];
        assert Join(shorter, sep) == pieces[0][1..] + [sep] + tail;
        assert s[1..] == pieces[0][1..] + [sep] + tail;
        SplitUnique(shorter, s[1..], sep);
        assert pieces[0] == [c] + pieces[0][1..];
        assert pieces == [[c] + shorter[0]] + shorter[1..];
      }
    }
  }

  /** A string without `sep` splits into itself. */
  lemma {:induction false} SplitNoSep(s: string, sep: char)
    requires sep !in s
    ensures Split(s, sep) == [s]
    decreases |s|
  {
    if s != [] {
      assert s[0] in s;
      assert forall x :: x in s[1..] ==> x in s;
      SplitNoSep(s[1..], sep);
      assert s == [s[0]] + s[1..];
    }
  }

  /** Splitting at the first separator: the word before it, then the
      pieces of what follows it. */
  lemma SplitAtFirstSep(s: string, sep: char)
    requires sep in s
    ensures |Word(s, sep)| < |s|
    ensures Split(s, sep) == [Word(s, sep)] + Split(s[|Word(s, sep)| + 1..], sep)
  {
    var w := Word(s, sep);
    var rest := s[|w| + 1..];
    var pieces := [w] + Split(rest, sep);
    assert pieces[1..] == Split(rest, sep);
    assert Join(pieces, sep) == w + [sep] + rest;
    assert s == s[..|w|] + [s[|w|]] + rest;
    SplitUnique(pieces, s, sep);
  }

  /** The first piece of `s.split(sep)` is the word of `s`; there is a
      second piece exactly when `s` contains `sep`, and it is the word that
      follows the first separator. */
  lemma SplitFirstTwo(s: string, sep: char)
    ensures Split(s, sep)[0] == Word(s, sep)
    ensures |Split(s, sep)| >= 2 <==> sep in s
    ensures sep in s ==>
      |Word(s, sep)| < |s| && Split(s, sep)[1] == Word(s[|Word(s, sep)| + 1..], sep)
  {
    if sep in s {
      var rest := s[|Word(s, sep)| + 1..];
      SplitAtFirstSep(s, sep);
      if sep in rest {
        SplitAtFirstSep(rest, sep);
      } else {
        SplitNoSep(rest, sep);
        WordIs(rest, sep, rest);
      }
    } else {
      SplitNoSep(s, sep);
      WordIs(s, sep, s);
    }
  }
}
