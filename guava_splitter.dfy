/**
 * Guava's `Splitter.on(sep).trimResults().omitEmptyStrings()`, as used for the `services`
 * attribute: split at every separator, trim each piece by `CharMatcher.whitespace()`, and
 * drop the pieces that trimming leaves empty.
 */
module GuavaSplitter {

  /** `CharMatcher.whitespace()`: the Unicode White_Space property, as of Unicode 6.3 and
      later (without U+180E). It differs from
      `Character.isWhitespace`: it includes U+0085 and the no-break spaces U+00A0, U+2007
      and U+202F, and excludes the controls U+001C to U+001F. */
  predicate GuavaWhitespace(c: char) {
    || ('\t' <= c <= '\r')
    || c == ' '
    || c == '\U{85}' || c == '\U{A0}'
    || c == '\U{1680}'
    || ('\U{2000}' <= c <= '\U{200A}')
    || c == '\U{2028}' || c == '\U{2029}'
    || c == '\U{202F}' || c == '\U{205F}' || c == '\U{3000}'
  }

  /** The first index at or after `i` that holds no whitespace (or `|s|`): everything
      skipped on the way is whitespace. */
  function SkipLeading(s: string, i: nat): (e: nat)
    requires i <= |s|
    ensures i <= e <= |s|
    ensures forall k | i <= k < e :: GuavaWhitespace(s[k])
    ensures e == |s| || !GuavaWhitespace(s[e])
    decreases |s| - i
  {
    if i < |s| && GuavaWhitespace(s[i]) then SkipLeading(s, i + 1) else i
  }

  /** The smallest index `b` at or after `lo` such that `s[b..j]` is all whitespace: the
      character before `b`, if any after `lo`, is not whitespace. */
  function SkipTrailing(s: string, lo: nat, j: nat): (b: nat)
    requires lo <= j <= |s|
    ensures lo <= b <= j
    ensures forall k | b <= k < j :: GuavaWhitespace(s[k])
    ensures b == lo || !GuavaWhitespace(s[b - 1])
    decreases j - lo
  {
    if j > lo && GuavaWhitespace(s[j - 1]) then SkipTrailing(s, lo, j - 1) else j
  }

  /** `CharMatcher.whitespace().trimFrom(s)`: the slice of `s` between its first and last
      non-whitespace characters; empty exactly when `s` is all whitespace. */
  function Trim(s: string): (r: string)
    ensures r == [] <==> forall i | 0 <= i < |s| :: GuavaWhitespace(s[i])
    ensures r != [] ==> !GuavaWhitespace(r[0]) && !GuavaWhitespace(r[|r| - 1])
  {
    var i := SkipLeading(s, 0);
    var j := SkipTrailing(s, i, |s|);
    assert s[i..j] == [] ==> forall k | 0 <= k < |s| :: GuavaWhitespace(s[k]) by {
      if s[i..j] == [] {
        assert i == j;
      }
    }
    s[i..j]
  }

  /** `Splitter.on(sep).split(s)`: the pieces between separators, in order, empty pieces
      included; there is always at least one piece. */
  function Split(s: string, sep: char): (r: seq<string>)
    ensures |r| >= 1
  {
    if |s| == 0 then [""]
    else
      var rest := Split(s[1..], sep);
      if s[0] == sep then [""] + rest
      else [[s[0]] + rest[0]] + rest[1..]
  }

  /** The inverse of `Split`: the pieces rejoined with the separator between them. */
  function Join(pieces: seq<string>, sep: char): (r: string)
    requires |pieces| >= 1
  {
    if |pieces| == 1 then pieces[0] else pieces[0] + [sep] + Join(pieces[1..], sep)
  }

  /** `trimResults().omitEmptyStrings()` applied to the pieces, in order. */
  function TrimOmitEmpty(pieces: seq<string>): (r: seq<string>)
    ensures |r| <= |pieces|
  {
    if pieces == [] then []
    else
      var t := Trim(pieces[0]);
      (if t == [] then [] else [t]) + TrimOmitEmpty(pieces[1..])
  }

  /** The whole splitter chain. */
  function SplitTrimOmitEmpty(s: string, sep: char): seq<string> {
    TrimOmitEmpty(Split(s, sep))
  }

  /** No piece holds the separator. */
  lemma {:induction false} SplitPiecesLackSeparator(s: string, sep: char)
    ensures forall k | 0 <= k < |Split(s, sep)| :: sep !in Split(s, sep)[k]
  {
    if |s| > 0 {
      SplitPiecesLackSeparator(s[1..], sep);
      var rest := Split(s[1..], sep);
      if s[0] != sep {
        assert forall k | 1 <= k < |Split(s, sep)| :: Split(s, sep)[k] == rest[k];
        assert sep !in [s[0]] + rest[0];
      }
    }
  }

  /** The name of a piece that survives `trimResults().omitEmptyStrings()`. */
  predicate IsTrimmedName(name: string) {
    name != [] && !GuavaWhitespace(name[0]) && !GuavaWhitespace(name[|name| - 1])
  }

  /** Every character of the string is whitespace. */
  predicate AllGuavaWhitespace(p: string) {
    forall i | 0 <= i < |p| :: GuavaWhitespace(p[i])
  }

  /** Text of separators and whitespace splits into pieces of whitespace only. */
  lemma {:induction false} SplitOfSeparatorsAndBlanks(s: string, sep: char)
    requires forall i | 0 <= i < |s| :: s[i] == sep || GuavaWhitespace(s[i])
    ensures forall k | 0 <= k < |Split(s, sep)| :: AllGuavaWhitespace(Split(s, sep)[k])
  {
    if |s| > 0 {
      var rest := Split(s[1..], sep);
      SplitOfSeparatorsAndBlanks(s[1..], sep);
      if s[0] == sep {
        assert Split(s, sep) == [""] + rest;
      } else {
        assert Split(s, sep) == [[s[0]] + rest[0]] + rest[1..];
        assert AllGuavaWhitespace([s[0]] + rest[0]) by {
          assert AllGuavaWhitespace(rest[0]);
        }
      }
    }
  }

  /** Pieces of whitespace only all trim to nothing and are dropped. */
  lemma {:induction false} TrimOmitEmptyOfBlankPieces(pieces: seq<string>)
    requires forall k | 0 <= k < |pieces| :: AllGuavaWhitespace(pieces[k])
    ensures TrimOmitEmpty(pieces) == []
  {
    if pieces != [] {
      assert AllGuavaWhitespace(pieces[0]);
      assert Trim(pieces[0]) == [];
      TrimOmitEmptyOfBlankPieces(pieces[1..]);
    }
  }

  /** Rejoining the pieces gives back the input. */
  lemma {:induction false} JoinSplit(s: string, sep: char)
    ensures Join(Split(s, sep), sep) == s
  {
    if |s| > 0 {
      var rest := Split(s[1..], sep);
      JoinSplit(s[1..], sep);
      if s[0] == sep {
        assert Split(s, sep)[1..] == rest;
      } else if |rest| > 1 {
        var r := Split(s, sep);
        assert r[1..] == rest[1..];
        assert Join(rest, sep) == rest[0] + [sep] + Join(rest[1..], sep);
        assert s == [s[0]] + s[1..];
      } else {
        assert Join(rest, sep) == rest[0];
        assert s == [s[0]] + s[1..];
      }
    }
  }

  /** Splitting text whose first `|x|` characters hold no separator extends the first piece. */
  lemma {:induction false} SplitPrefix(x: string, t: string, sep: char)
    requires sep !in x
    ensures Split(x + t, sep) == [x + Split(t, sep)[0]] + Split(t, sep)[1..]
  {
    if x != [] {
      assert x[0] in x;
      SplitPrefix(x[1..], t, sep);
      var inner := Split(x[1..] + t, sep);
      assert (x + t)[0] == x[0] && (x + t)[1..] == x[1..] + t;
      assert Split(x + t, sep) == [[x[0]] + inner[0]] + inner[1..];
      assert inner[0] == x[1..] + Split(t, sep)[0];
      assert inner[1..] == Split(t, sep)[1..];
      assert [x[0]] + (x[1..] + Split(t, sep)[0]) == x + Split(t, sep)[0];
    } else {
      assert x + t == t;
      assert x + Split(t, sep)[0] == Split(t, sep)[0];
      assert Split(t, sep) == [Split(t, sep)[0]] + Split(t, sep)[1..];
    }
  }

  /** Splitting pieces joined by a separator none of them holds gives back the pieces. */
  lemma {:induction false} SplitJoin(pieces: seq<string>, sep: char)
    requires |pieces| >= 1
    requires forall k | 0 <= k < |pieces| :: sep !in pieces[k]
    ensures Split(Join(pieces, sep), sep) == pieces
  {
    if |pieces| == 1 {
      SplitPrefix(pieces[0], "", sep);
      assert Split("", sep) == [""];
      assert pieces[0] + "" == pieces[0];
    } else {
      var tail := Join(pieces[1..], sep);
      SplitJoin(pieces[1..], sep);
      assert pieces[0] + [sep] + tail == pieces[0] + ([sep] + tail);
      assert Join(pieces, sep) == pieces[0] + [sep] + tail;
      SplitPrefix(pieces[0], [sep] + tail, sep);
      assert ([sep] + tail)[0] == sep && ([sep] + tail)[1..] == tail;
      assert Split([sep] + tail, sep) == [""] + Split(tail, sep);
      assert pieces[0] + "" == pieces[0];
      assert pieces == [pieces[0]] + pieces[1..];
    }
  }

  /** A name survives `TrimOmitEmpty` exactly when it is non-empty and is the trimmed form
      of some piece. */
  lemma {:induction false} TrimOmitEmptyMembership(pieces: seq<string>, name: string)
    ensures name in TrimOmitEmpty(pieces) <==>
      name != [] && exists k | 0 <= k < |pieces| :: Trim(pieces[k]) == name
  {
    if pieces != [] {
      var t := Trim(pieces[0]);
      var head := if t == [] then [] else [t];
      var rest := TrimOmitEmpty(pieces[1..]);
      assert TrimOmitEmpty(pieces) == head + rest;
      TrimOmitEmptyMembership(pieces[1..], name);
      if name in head + rest {
        if name in head {
          assert Trim(pieces[0]) == name;
        } else {
          assert name in rest;
          var k :| 0 <= k < |pieces[1..]| && Trim(pieces[1..][k]) == name;
          assert Trim(pieces[k + 1]) == name;
        }
      }
      if name != [] && exists k | 0 <= k < |pieces| :: Trim(pieces[k]) == name {
        var k :| 0 <= k < |pieces| && Trim(pieces[k]) == name;
        if k == 0 {
          assert name in head;
        } else {
          assert pieces[1..][k - 1] == pieces[k];
          assert name in rest;
        }
      }
    }
  }

  /** Every name that survives is non-empty and starts and ends with non-whitespace. */
  lemma TrimOmitEmptyYieldsTrimmedNames(pieces: seq<string>, name: string)
    requires name in TrimOmitEmpty(pieces)
    ensures IsTrimmedName(name)
  {
    TrimOmitEmptyMembership(pieces, name);
    var k :| 0 <= k < |pieces| && Trim(pieces[k]) == name;
  }

  /** Trimming never changes a string that starts and ends with non-whitespace. */
  lemma TrimKeepsTrimmed(s: string)
    requires IsTrimmedName(s)
    ensures Trim(s) == s
  {
  }

  /** `Trim` keeps the slice `s[i..j]` and drops only whitespace before `i` and after `j`;
      with the ensures of `Trim` this fixes its value. */
  lemma TrimIsSlice(s: string) returns (i: nat, j: nat)
    ensures i <= j <= |s| && Trim(s) == s[i..j]
    ensures forall k | 0 <= k < i :: GuavaWhitespace(s[k])
    ensures forall k | j <= k < |s| :: GuavaWhitespace(s[k])
  {
    i := SkipLeading(s, 0);
    j := SkipTrailing(s, i, |s|);
  }

  /** Trimming only drops characters: every character of the result occurs in the input. */
  lemma TrimKeepsChars(s: string, c: char)
    requires c in Trim(s)
    ensures c in s
  {
    var i := SkipLeading(s, 0);
    var j := SkipTrailing(s, i, |s|);
    var k :| 0 <= k < j - i && s[i..j][k] == c;
    assert s[i + k] == c;
  }

  /** Pieces that are already trimmed and non-empty all survive, in order. */
  lemma {:induction false} TrimOmitEmptyKeepsTrimmed(pieces: seq<string>)
    requires forall k | 0 <= k < |pieces| :: IsTrimmedName(pieces[k])
    ensures TrimOmitEmpty(pieces) == pieces
  {
    if pieces != [] {
      TrimKeepsTrimmed(pieces[0]);
      TrimOmitEmptyKeepsTrimmed(pieces[1..]);
      assert pieces == [pieces[0]] + pieces[1..];
    }
  }
}
