/**
 * The JavaScript string operations the route parser relies on, for strings
 * modelled as sequences of characters: `String.prototype.split` with a
 * one-character separator, its inverse (joining with that separator), and
 * `toUpperCase` restricted to ASCII letters.
 */
module Strings {

  /** Number of occurrences of c in s. */
  function Occurrences(s: string, c: char): nat {
    if |s| == 0 then 0
    else (if s[0] == c then 1 else 0) + Occurrences(s[1..], c)
  }

  /**
   * `s.split(sep)` for a one-character separator: the maximal runs between
   * separators, in order, including empty runs at either end, so that even
   * the empty string gives one (empty) piece.
   */
  function Split(s: string, sep: char): (pieces: seq<string>)
    ensures |pieces| == Occurrences(s, sep) + 1
    ensures forall i :: 0 <= i < |pieces| ==> sep !in pieces[i]
    decreases |s|
  {
    if |s| == 0 then [""]
    else
      var rest := Split(s[1..], sep);
      if s[0] == sep then [""] + rest
      else [[s[0]] + rest[0]] + rest[1..]
  }

  /** The pieces laid end to end with sep between neighbours. */
  function Join(pieces: seq<string>, sep: char): string
    requires |pieces| >= 1
  {
    if |pieces| == 1 then pieces[0]
    else pieces[0] + [sep] + Join(pieces[1..], sep)
  }

  /** Joining the pieces of a split gives the original string back. */
  lemma {:induction false} JoinSplit(s: string, sep: char)
    ensures Join(Split(s, sep), sep) == s
  {
    if |s| > 0 {
      var rest := Split(s[1..], sep);
      JoinSplit(s[1..], sep);
      if s[0] == sep {
        assert ([""] + rest)[1..] == rest;
        assert s == [sep] + s[1..];
      } else if |rest| > 1 {
        assert ([[s[0]] + rest[0]] + rest[1..])[1..] == rest[1..];
        assert s == [s[0]] + s[1..];
      } else {
        assert s == [s[0]] + s[1..];
      }
    }
  }

  /** A separator-free prefix extends the first piece of what follows it. */
  lemma {:induction false} SplitPrefix(p: string, t: string, sep: char)
    requires sep !in p
    ensures Split(p + t, sep) == [p + Split(t, sep)[0]] + Split(t, sep)[1..]
  {
    if |p| > 0 {
      SplitPrefix(p[1..], t, sep);
      assert (p + t)[1..] == p[1..] + t;
      assert [p[0]] + (p[1..] + Split(t, sep)[0]) == p + Split(t, sep)[0];
    } else {
      var pieces := Split(t, sep);
      assert p + t == t;
      assert p + pieces[0] == pieces[0];
      assert [pieces[0]] + pieces[1..] == pieces;
    }
  }

  /** Splitting separator-free pieces joined by the separator gives the pieces back. */
  lemma {:induction false} SplitJoin(pieces: seq<string>, sep: char)
    requires |pieces| >= 1
    requires forall i :: 0 <= i < |pieces| ==> sep !in pieces[i]
    ensures Split(Join(pieces, sep), sep) == pieces
  {
    if |pieces| == 1 {
      SplitPrefix(pieces[0], "", sep);
      assert pieces[0] + "" == pieces[0];
    } else {
      var tail := Join(pieces[1..], sep);
      SplitJoin(pieces[1..], sep);
      SplitPrefix(pieces[0], [sep] + tail, sep);
      assert ([sep] + tail)[1..] == tail;
      assert Split([sep] + tail, sep) == [""] + pieces[1..];
      assert pieces[0] + [sep] + tail == pieces[0] + ([sep] + tail);
      assert pieces[0] + "" == pieces[0];
      assert ([""] + pieces[1..])[1..] == pieces[1..];
      assert pieces == [pieces[0]] + pieces[1..];
    }
  }

  /** Characters that upper-casing neither produces from nor turns into something else. */
  predicate IsNotLetter(c: char) {
    !('a' <= c <= 'z') && !('A' <= c <= 'Z')
  }

  /** ASCII `toUpperCase` of one character. */
  function UpperChar(c: char): char {
    if 'a' <= c <= 'z' then (c as int - 32) as char else c
  }

  /** ASCII `toUpperCase`: lower-case letters become upper-case, all else stays. */
  function ToUpper(s: string): (u: string)
    ensures |u| == |s|
    ensures forall i :: 0 <= i < |s| ==> !('a' <= u[i] <= 'z')
    ensures forall i :: 0 <= i < |s| ==>
      if 'a' <= s[i] <= 'z' then u[i] as int == s[i] as int - 32 && 'A' <= u[i] <= 'Z' else u[i] == s[i]
  {
    seq(|s|, i requires 0 <= i < |s| => UpperChar(s[i]))
  }

  /** Upper-casing twice is upper-casing once. */
  lemma ToUpperIdempotent(s: string)
    ensures ToUpper(ToUpper(s)) == ToUpper(s)
  {
  }

  /** Upper-casing works character by character, so it distributes over concatenation. */
  lemma ToUpperConcat(a: string, b: string)
    ensures ToUpper(a + b) == ToUpper(a) + ToUpper(b)
  {
    assert |ToUpper(a + b)| == |ToUpper(a) + ToUpper(b)|;
    forall i | 0 <= i < |a + b|
      ensures ToUpper(a + b)[i] == (ToUpper(a) + ToUpper(b))[i]
    {
      if i < |a| {
        assert (a + b)[i] == a[i];
      } else {
        assert (a + b)[i] == b[i - |a|];
      }
    }
  }

  /** A character that is not a letter occurs after upper-casing exactly where it did before. */
  lemma ToUpperKeepsNonLetters(s: string, c: char)
    requires IsNotLetter(c)
    ensures c in ToUpper(s) <==> c in s
  {
    var u := ToUpper(s);
    if c in u {
      var i :| 0 <= i < |u| && u[i] == c;
      assert s[i] == c;
    }
    if c in s {
      var i :| 0 <= i < |s| && s[i] == c;
      assert u[i] == c;
    }
  }

  /** Every piece upper-cased. */
  function MapToUpper(pieces: seq<string>): (r: seq<string>)
    ensures |r| == |pieces|
  {
    seq(|pieces|, i requires 0 <= i < |pieces| => ToUpper(pieces[i]))
  }

  /** Upper-casing a joined string upper-cases each piece, when sep is not a letter. */
  lemma {:induction false} ToUpperJoin(pieces: seq<string>, sep: char)
    requires |pieces| >= 1 && IsNotLetter(sep)
    ensures ToUpper(Join(pieces, sep)) == Join(MapToUpper(pieces), sep)
  {
    if |pieces| > 1 {
      ToUpperJoin(pieces[1..], sep);
      ToUpperConcat(pieces[0] + [sep], Join(pieces[1..], sep));
      ToUpperConcat(pieces[0], [sep]);
      assert MapToUpper(pieces)[1..] == MapToUpper(pieces[1..]);
    }
  }

  /** Splitting commutes with upper-casing for a separator that is not a letter. */
  lemma SplitToUpper(s: string, sep: char)
    requires IsNotLetter(sep)
    ensures Split(ToUpper(s), sep) == MapToUpper(Split(s, sep))
  {
    var pieces := Split(s, sep);
    JoinSplit(s, sep);
    ToUpperJoin(pieces, sep);
    var upper := MapToUpper(pieces);
    forall i | 0 <= i < |upper|
      ensures sep !in upper[i]
    {
      ToUpperKeepsNonLetters(pieces[i], sep);
    }
    SplitJoin(upper, sep);
  }
}
