/**
 * The string operations the marketplace uses: `split(',')`, `trim()`,
 * `toLowerCase()` and `includes(...)`, with the JavaScript meaning of each,
 * and the parser that turns the comma-separated skills field into tags.
 */
module Text {

  /** Number of occurrences of `c` in `s`. */
  function Count(s: string, c: char): nat
  {
    if s == [] then 0 else (if s[0] == c then 1 else 0) + Count(s[1..], c)
  }

  // ---------------------------------------------------------------------------
  // `s.split(sep)` for a one-character separator

  /** The pieces between separators, in order; like JavaScript, the empty
      string splits into one empty piece and a separator at either end yields
      an empty piece there. */
  function Split(s: string, sep: char): (pieces: seq<string>)
    ensures |pieces| == Count(s, sep) + 1
    ensures forall k :: 0 <= k < |pieces| ==> sep !in pieces[k]
  {
    if s == [] then [[]]
    else
      var rest := Split(s[1..], sep);
      if s[0] == sep then [[]] + rest
      else [[s[0]] + rest[0]] + rest[1..]
  }

  /** `pieces.join(sep)`. */
  function Join(pieces: seq<string>, sep: char): string
  {
    if pieces == [] then []
    else if |pieces| == 1 then pieces[0]
    else pieces[0] + [sep] + Join(pieces[1..], sep)
  }

  /** Splitting loses nothing: joining the pieces back gives the input. */
  lemma {:induction false} JoinSplit(s: string, sep: char)
    ensures Join(Split(s, sep), sep) == s
  {
    if s != [] {
      var rest := Split(s[1..], sep);
      JoinSplit(s[1..], sep);
      if s[0] == sep {
        assert Split(s, sep) == [[]] + rest;
        assert s == [] + [sep] + s[1..];
      } else {
        var pieces := Split(s, sep);
        assert pieces == [[s[0]] + rest[0]] + rest[1..];
        if |rest| == 1 {
          assert s == [s[0]] + rest[0];
        } else {
          assert pieces[1..] == rest[1..];
          assert Join(rest, sep) == rest[0] + [sep] + Join(rest[1..], sep);
          assert s == [s[0]] + s[1..];
        }
      }
    }
  }

  /** Splitting a piece followed by the separator peels that piece off. */
  lemma {:induction false} SplitAfterPiece(p: string, sep: char, t: string)
    requires sep !in p
    ensures Split(p + [sep] + t, sep) == [p] + Split(t, sep)
  {
    if p == [] {
      assert [] + [sep] + t == [sep] + t;
      assert ([sep] + t)[1..] == t;
    } else {
      SplitAfterPiece(p[1..], sep, t);
      assert (p + [sep] + t)[1..] == p[1..] + [sep] + t;
      assert [p[0]] + p[1..] == p;
    }
  }

  /** The other direction: pieces that hold no separator come back from
      splitting what they join to. */
  lemma {:induction false} SplitJoin(pieces: seq<string>, sep: char)
    requires |pieces| >= 1
    requires forall k :: 0 <= k < |pieces| ==> sep !in pieces[k]
    ensures Split(Join(pieces, sep), sep) == pieces
  {
    if |pieces| == 1 {
      SplitPlain(pieces[0], sep);
    } else {
      SplitJoin(pieces[1..], sep);
      SplitAfterPiece(pieces[0], sep, Join(pieces[1..], sep));
      assert [pieces[0]] + pieces[1..] == pieces;
    }
  }

  /** A string without the separator is a single piece. */
  lemma {:induction false} SplitPlain(s: string, sep: char)
    requires sep !in s
    ensures Split(s, sep) == [s]
  {
    if s != [] {
      SplitPlain(s[1..], sep);
      assert [s[0]] + s[1..] == s;
    }
  }

  // ---------------------------------------------------------------------------
  // `s.trim()`: strips ECMAScript WhiteSpace and LineTerminator characters

  /** ECMAScript WhiteSpace (tab, vertical tab, form feed, the byte-order
      mark and the space separators of category Zs) and LineTerminator (line
      feed, carriage return, line and paragraph separators). */
  const Spaces: set<char> := {
    '\U{9}', '\U{B}', '\U{C}', '\U{FEFF}',
    '\U{20}', '\U{A0}', '\U{1680}',
    '\U{2000}', '\U{2001}', '\U{2002}', '\U{2003}', '\U{2004}', '\U{2005}',
    '\U{2006}', '\U{2007}', '\U{2008}', '\U{2009}', '\U{200A}',
    '\U{202F}', '\U{205F}', '\U{3000}',
    '\U{A}', '\U{D}', '\U{2028}', '\U{2029}'
  }

  predicate IsSpace(c: char)
  {
    c in Spaces
  }

  /** Drops the leading white space: what is left is a suffix of `s`, what
      went was all white space, and it starts with a non-space if anything. */
  function TrimStart(s: string): (r: string)
    ensures |r| <= |s| && r == s[|s| - |r|..]
    ensures forall k :: 0 <= k < |s| - |r| ==> IsSpace(s[k])
    ensures r != [] ==> !IsSpace(r[0])
  {
    if s != [] && IsSpace(s[0]) then TrimStart(s[1..]) else s
  }

  /** Drops the trailing white space: a prefix of `s` is left, the part
      removed was white space, and it ends with a non-space if anything. */
  function TrimEnd(s: string): (r: string)
    ensures |r| <= |s| && r == s[..|r|]
    ensures forall k :: |r| <= k < |s| ==> IsSpace(s[k])
    ensures r != [] ==> !IsSpace(r[|r| - 1])
  {
    if s != [] && IsSpace(s[|s| - 1]) then TrimEnd(s[..|s| - 1]) else s
  }

  function Trim(s: string): string
  {
    TrimEnd(TrimStart(s))
  }

  /** `r` is the slice `s[i..j]` and everything outside it is white space. */
  ghost predicate MiddleSlice(s: string, r: string, i: int, j: int)
  {
    && 0 <= i <= j <= |s| && r == s[i..j]
    && (forall k :: 0 <= k < i ==> IsSpace(s[k]))
    && (forall k :: j <= k < |s| ==> IsSpace(s[k]))
  }

  /** `trim()` returns the middle slice `s[i..j]` of its input: everything
      cut away is white space and neither end of the result is. */
  lemma TrimIsMiddle(s: string)
    ensures exists i, j :: MiddleSlice(s, Trim(s), i, j)
    ensures Trim(s) != [] ==> !IsSpace(Trim(s)[0]) && !IsSpace(Trim(s)[|Trim(s)| - 1])
  {
    var t := TrimStart(s);
    var i := |s| - |t|;
    TrimEndOfSuffix(s, i);
    assert MiddleSlice(s, Trim(s), i, i + |Trim(s)|);
  }

  /** Trimming the end of the suffix `s[i..]` leaves a slice `s[i..j]` with
      only white space after it in `s`. */
  lemma TrimEndOfSuffix(s: string, i: nat)
    requires i <= |s|
    ensures i + |TrimEnd(s[i..])| <= |s|
    ensures TrimEnd(s[i..]) == s[i..i + |TrimEnd(s[i..])|]
    ensures forall k :: i + |TrimEnd(s[i..])| <= k < |s| ==> IsSpace(s[k])
  {
    var t := s[i..];
    var j := i + |TrimEnd(t)|;
    forall k | j <= k < |s| ensures IsSpace(s[k]) {
      assert s[k] == t[k - i];
    }
  }

  /** Trimming twice is trimming once. */
  lemma TrimIdempotent(s: string)
    ensures Trim(Trim(s)) == Trim(s)
  {
    var t := Trim(s);
    TrimIsMiddle(s);
    assert t != [] ==> !IsSpace(t[0]);
    assert TrimStart(t) == t;
    assert t != [] ==> !IsSpace(t[|t| - 1]);
    assert TrimEnd(t) == t;
  }

  /** Trimming only removes characters, so no separator appears that was
      not there. */
  lemma TrimKeepsOut(s: string, c: char)
    requires c !in s
    ensures c !in Trim(s)
  {
    TrimIsMiddle(s);
  }

  // ---------------------------------------------------------------------------
  // The skills field: split at every comma, each piece trimmed

  function ParseSkills(text: string): seq<string>
  {
    var pieces := Split(text, ',');
    seq(|pieces|, k requires 0 <= k < |pieces| => Trim(pieces[k]))
  }

  /** `tag` is `piece` with white space cut away at either end only. */
  ghost predicate TagOfPiece(piece: string, tag: string)
  {
    exists i, j :: MiddleSlice(piece, tag, i, j)
  }

  /** The parser yields one tag per comma-separated piece (one more than
      there are commas, so never none): tag k is piece k with the white
      space at its two ends cut away, so it holds no comma and trimming it
      again changes nothing. */
  lemma ParseSkillsShape(text: string)
    ensures |ParseSkills(text)| == |Split(text, ',')| == Count(text, ',') + 1
    ensures forall k :: 0 <= k < |ParseSkills(text)| ==>
      TagOfPiece(Split(text, ',')[k], ParseSkills(text)[k])
    ensures forall k :: 0 <= k < |ParseSkills(text)| ==>
      ',' !in ParseSkills(text)[k] && Trim(ParseSkills(text)[k]) == ParseSkills(text)[k]
  {
    var pieces := Split(text, ',');
    forall k | 0 <= k < |ParseSkills(text)|
      ensures TagOfPiece(pieces[k], ParseSkills(text)[k])
      ensures ',' !in ParseSkills(text)[k] && Trim(ParseSkills(text)[k]) == ParseSkills(text)[k]
    {
      TrimIsMiddle(pieces[k]);
      TrimKeepsOut(pieces[k], ',');
      TrimIdempotent(pieces[k]);
    }
  }

  // ---------------------------------------------------------------------------
  // `toLowerCase()` and `includes(...)`

  function LowerChar(c: char): char
  {
    if 'A' <= c <= 'Z' then (c as int + 32) as char else c
  }

  function ToLower(s: string): string
  {
    seq(|s|, k requires 0 <= k < |s| => LowerChar(s[k]))
  }

  /** A lower-cased string has no upper-case letter left and lowering it
      again changes nothing. */
  lemma ToLowerIdempotent(s: string)
    ensures forall k :: 0 <= k < |s| ==> !('A' <= ToLower(s)[k] <= 'Z')
    ensures ToLower(ToLower(s)) == ToLower(s)
  {
  }

  /** `hay.includes(needle)`: the needle starts at some position of the hay. */
  predicate Contains(hay: string, needle: string)
  {
    needle <= hay || (hay != [] && Contains(hay[1..], needle))
  }

  /** The needle occurs in the hay starting at position `i`. */
  ghost predicate OccursAt(hay: string, needle: string, i: int)
  {
    0 <= i && i + |needle| <= |hay| && hay[i..i + |needle|] == needle
  }

  /** `includes` holds exactly when the needle occurs at some position. */
  lemma {:induction false} ContainsIff(hay: string, needle: string)
    ensures Contains(hay, needle) <==> exists i :: OccursAt(hay, needle, i)
  {
    if Contains(hay, needle) {
      if needle <= hay {
        assert OccursAt(hay, needle, 0);
      } else {
        ContainsIff(hay[1..], needle);
        var i :| OccursAt(hay[1..], needle, i);
        assert hay[1..][i..i + |needle|] == hay[i + 1..i + 1 + |needle|];
        assert OccursAt(hay, needle, i + 1);
      }
    }
    if exists i :: OccursAt(hay, needle, i) {
      var i :| OccursAt(hay, needle, i);
      if i == 0 {
        assert needle <= hay;
      } else {
        assert hay[1..][i - 1..i - 1 + |needle|] == hay[i..i + |needle|];
        assert OccursAt(hay[1..], needle, i - 1);
        ContainsIff(hay[1..], needle);
      }
    }
  }
}
