/**
 * The String.prototype operations the analyzers and the vector codec use:
 * trim, trimStart, trimEnd, split with a string separator and Array.prototype.join.
 * Strings are sequences of characters.
 */
module JsString {

  /** WhiteSpace and LineTerminator code points: what trim() removes and what
      parseInt and Number skip (ECMAScript 2023, sections 12.2 and 12.3). */
  predicate IsWhite(c: char) {
    || c == '\t' || c == '\n' || c == '\U{000B}' || c == '\U{000C}' || c == '\r' || c == ' '
    || c == '\U{00A0}' || c == '\U{1680}' || ('\U{2000}' <= c <= '\U{200A}')
    || c == '\U{2028}' || c == '\U{2029}' || c == '\U{202F}' || c == '\U{205F}'
    || c == '\U{3000}' || c == '\U{FEFF}'
  }

  predicate AllWhite(s: string) {
    forall k :: 0 <= k < |s| ==> IsWhite(s[k])
  }

  /** Neither the first nor the last character is white space. */
  predicate IsTrimmed(s: string) {
    s == [] || (!IsWhite(s[0]) && !IsWhite(s[|s| - 1]))
  }

  /** String.prototype.trimStart: s without its leading white space. */
  function TrimStart(s: string): (r: string)
    ensures |r| <= |s|
    decreases |s|
  {
    if s != [] && IsWhite(s[0]) then TrimStart(s[1..]) else s
  }

  /** trimStart keeps the longest suffix that does not start with white space. */
  lemma {:induction false} TrimStartCutsWhite(s: string)
    ensures TrimStart(s) == s[|s| - |TrimStart(s)|..]
    ensures AllWhite(s[..|s| - |TrimStart(s)|])
    ensures TrimStart(s) == [] || !IsWhite(TrimStart(s)[0])
    decreases |s|
  {
    if s != [] && IsWhite(s[0]) {
      TrimStartCutsWhite(s[1..]);
      WhiteBeforeSuffix(s, TrimStart(s[1..]));
    }
  }

  /** A string that does not start with white space is its own trimStart. */
  lemma TrimStartOfNonWhite(s: string)
    requires s != [] && !IsWhite(s[0])
    ensures TrimStart(s) == s
  {
  }

  lemma WhiteBeforeSuffix(s: string, r: string)
    requires s != [] && IsWhite(s[0]) && |r| < |s|
    requires r == s[1..][|s| - 1 - |r|..] && AllWhite(s[1..][..|s| - 1 - |r|])
    ensures r == s[|s| - |r|..] && AllWhite(s[..|s| - |r|])
  {
    assert s[..|s| - |r|] == [s[0]] + s[1..][..|s| - 1 - |r|];
  }

  /** String.prototype.trimEnd: s without its trailing white space. */
  function TrimEnd(s: string): (r: string)
    ensures |r| <= |s|
    decreases |s|
  {
    if s != [] && IsWhite(s[|s| - 1]) then TrimEnd(s[..|s| - 1]) else s
  }

  /** trimEnd keeps the longest prefix that does not end with white space. */
  lemma {:induction false} TrimEndCutsWhite(s: string)
    ensures TrimEnd(s) == s[..|TrimEnd(s)|]
    ensures AllWhite(s[|TrimEnd(s)|..])
    ensures TrimEnd(s) == [] || !IsWhite(TrimEnd(s)[|TrimEnd(s)| - 1])
    decreases |s|
  {
    if s != [] && IsWhite(s[|s| - 1]) {
      TrimEndCutsWhite(s[..|s| - 1]);
      WhiteAfterPrefix(s, TrimEnd(s[..|s| - 1]));
    }
  }

  lemma WhiteAfterPrefix(s: string, r: string)
    requires s != [] && IsWhite(s[|s| - 1]) && |r| < |s|
    requires r == s[..|s| - 1][..|r|] && AllWhite(s[..|s| - 1][|r|..])
    ensures r == s[..|r|] && AllWhite(s[|r|..])
  {
    assert s[|r|..] == s[..|s| - 1][|r|..] + [s[|s| - 1]];
  }

  /** r is a contiguous piece of s with only white space on either side of it. */
  predicate WhiteAround(s: string, r: string) {
    exists i :: 0 <= i <= |s| - |r| && r == s[i..i + |r|] && AllWhite(s[..i]) && AllWhite(s[i + |r|..])
  }

  /** String.prototype.trim: a contiguous piece of s, with only white space cut off
      on either side, that neither starts nor ends with white space. */
  function Trim(s: string): (r: string)
    ensures IsTrimmed(r) && WhiteAround(s, r)
  {
    var t := TrimStart(s);
    var r := TrimEnd(t);
    TrimStartCutsWhite(s);
    TrimEndCutsWhite(t);
    WhiteOnBothSides(s, t, r);
    r
  }

  /** Cutting white space off the front of s and then off the back leaves a piece
      of s with only white space around it, which starts where the front cut ends. */
  lemma WhiteOnBothSides(s: string, t: string, r: string)
    requires |t| <= |s| && t == s[|s| - |t|..] && AllWhite(s[..|s| - |t|])
    requires t == [] || !IsWhite(t[0])
    requires |r| <= |t| && r == t[..|r|] && AllWhite(t[|r|..])
    requires r == [] || !IsWhite(r[|r| - 1])
    ensures WhiteAround(s, r) && IsTrimmed(r)
  {
    var i := |s| - |t|;
    assert r == s[i..i + |r|];
    assert s[i + |r|..] == t[|r|..];
    if r != [] {
      assert r[0] == t[0];
    }
  }

  lemma {:induction false} TrimStartSkipsWhite(w: string, s: string)
    requires AllWhite(w)
    ensures TrimStart(w + s) == TrimStart(s)
    decreases |w|
  {
    if w != [] {
      assert (w + s)[1..] == w[1..] + s;
      TrimStartSkipsWhite(w[1..], s);
    } else {
      assert w + s == s;
    }
  }

  lemma {:induction false} TrimEndSkipsWhite(s: string, w: string)
    requires AllWhite(w)
    ensures TrimEnd(s + w) == TrimEnd(s)
    decreases |w|
  {
    if w != [] {
      assert (s + w)[..|s + w| - 1] == s + w[..|w| - 1];
      TrimEndSkipsWhite(s, w[..|w| - 1]);
    } else {
      assert s + w == s;
    }
  }

  /** Trim is characterised by its result alone: cutting white space off both ends
      of a trimmed string gives that string back. */
  lemma {:induction false} TrimUnique(w1: string, t: string, w2: string)
    requires AllWhite(w1) && AllWhite(w2) && IsTrimmed(t)
    ensures Trim(w1 + t + w2) == t
  {
    assert w1 + t + w2 == w1 + (t + w2);
    TrimStartSkipsWhite(w1, t + w2);
    if t == [] {
      assert t + w2 == w2;
    } else {
      assert TrimStart(t + w2) == t + w2;
      TrimEndSkipsWhite(t, w2);
    }
  }

  /** A string that neither starts nor ends with white space is its own trim. */
  lemma {:induction false} TrimOfTrimmed(s: string)
    requires IsTrimmed(s)
    ensures Trim(s) == s
  {
    assert [] + s + [] == s;
    TrimUnique([], s, []);
  }

  /** trim() is idempotent. */
  lemma {:induction false} TrimIdempotent(s: string)
    ensures Trim(Trim(s)) == Trim(s)
  {
    var t := Trim(s);
    assert [] + t + [] == t;
    TrimUnique([], t, []);
  }

  /** A string of white space only trims to the empty string. */
  lemma {:induction false} TrimAllWhite(s: string)
    requires AllWhite(s)
    ensures Trim(s) == ""
  {
    assert s + "" + "" == s;
    TrimUnique(s, "", "");
  }

  /** sep occurs in s at index i. */
  predicate OccursAt(s: string, sep: string, i: int) {
    0 <= i && i + |sep| <= |s| && s[i..i + |sep|] == sep
  }

  /** sep occurs nowhere in s. */
  predicate Free(s: string, sep: string) {
    forall i :: 0 <= i < |s| ==> !OccursAt(s, sep, i)
  }

  /** The first character of sep does not occur again in sep (true of ", " and ","),
      so two occurrences of sep can never overlap. */
  predicate Unbordered(sep: string) {
    forall k :: 0 < k < |sep| ==> sep[k] != sep[0]
  }

  /** String.prototype.split with a non-empty string separator and no limit: the
      pieces between the occurrences of sep found scanning from the left. */
  function Split(s: string, sep: string): (pieces: seq<string>)
    requires sep != []
    ensures pieces != []
    decreases |s|
  {
    if s == [] then [""]
    else if OccursAt(s, sep, 0) then [""] + Split(s[|sep|..], sep)
    else
      var rest := Split(s[1..], sep);
      [[s[0]] + rest[0]] + rest[1..]
  }

  /** Array.prototype.join over strings. */
  function Join(pieces: seq<string>, sep: string): (r: string)
    ensures |pieces| > 0 ==> pieces[0] <= r
    ensures |pieces| > 1 ==> pieces[0] + sep <= r
  {
    if |pieces| == 0 then ""
    else if |pieces| == 1 then pieces[0]
    else pieces[0] + sep + Join(pieces[1..], sep)
  }

  /** The number of occurrences of sep that split uses, counted from the left
      without overlap. */
  function CountSeparators(s: string, sep: string): nat
    requires sep != []
    decreases |s|
  {
    if s == [] then 0
    else if OccursAt(s, sep, 0) then 1 + CountSeparators(s[|sep|..], sep)
    else CountSeparators(s[1..], sep)
  }

  lemma {:induction false} JoinCons(c: char, rest: seq<string>, sep: string)
    requires rest != []
    ensures Join([[c] + rest[0]] + rest[1..], sep) == [c] + Join(rest, sep)
  {
    var ps := [[c] + rest[0]] + rest[1..];
    if |rest| > 1 {
      assert ps[1..] == rest[1..];
    }
  }

  /** Joining the pieces of a split with the same separator gives the string back. */
  lemma {:induction false} JoinSplit(s: string, sep: string)
    requires sep != []
    ensures Join(Split(s, sep), sep) == s
    decreases |s|
  {
    if s == [] {
    } else if OccursAt(s, sep, 0) {
      JoinSplit(s[|sep|..], sep);
      JoinSplitAtSeparator(s, sep);
    } else {
      JoinSplit(s[1..], sep);
      JoinSplitAtChar(s, sep);
    }
  }

  /** Split when sep occurs at the start of s: an empty first piece. */
  lemma SplitAtSeparator(s: string, sep: string)
    requires sep != [] && s != [] && OccursAt(s, sep, 0)
    ensures Split(s, sep) == [""] + Split(s[|sep|..], sep)
  {
  }

  /** Split when sep does not occur at the start of s: the first character joins
      the first piece of the rest. */
  lemma SplitAtChar(s: string, sep: string)
    requires sep != [] && s != [] && !OccursAt(s, sep, 0)
    ensures Split(s, sep) == [[s[0]] + Split(s[1..], sep)[0]] + Split(s[1..], sep)[1..]
  {
  }

  lemma JoinSplitAtSeparator(s: string, sep: string)
    requires sep != [] && s != [] && OccursAt(s, sep, 0)
    requires Join(Split(s[|sep|..], sep), sep) == s[|sep|..]
    ensures Join(Split(s, sep), sep) == s
  {
    SplitAtSeparator(s, sep);
    JoinEmptyFirst(Split(s[|sep|..], sep), sep);
    assert s == sep + s[|sep|..];
  }

  lemma JoinEmptyFirst(rest: seq<string>, sep: string)
    requires rest != []
    ensures Join([""] + rest, sep) == sep + Join(rest, sep)
  {
    var ps := [""] + rest;
    assert ps[1..] == rest;
  }

  lemma JoinSplitAtChar(s: string, sep: string)
    requires sep != [] && s != [] && !OccursAt(s, sep, 0)
    requires Join(Split(s[1..], sep), sep) == s[1..]
    ensures Join(Split(s, sep), sep) == s
  {
    SplitAtChar(s, sep);
    JoinCons(s[0], Split(s[1..], sep), sep);
    assert s == [s[0]] + s[1..];
  }

  /** There is one more piece than there are separators. */
  lemma {:induction false} SplitLength(s: string, sep: string)
    requires sep != []
    ensures |Split(s, sep)| == CountSeparators(s, sep) + 1
    decreases |s|
  {
    if s == [] {
    } else if OccursAt(s, sep, 0) {
      SplitLength(s[|sep|..], sep);
    } else {
      SplitLength(s[1..], sep);
    }
  }

  /** No piece of a split contains the separator. */
  lemma {:induction false} SplitPiecesFree(s: string, sep: string)
    requires sep != []
    ensures forall p <- Split(s, sep) :: Free(p, sep)
    decreases |s|
  {
    if s == [] {
      assert Free("", sep);
    } else if OccursAt(s, sep, 0) {
      SplitPiecesFree(s[|sep|..], sep);
      assert Free("", sep);
    } else {
      var rest := Split(s[1..], sep);
      SplitPiecesFree(s[1..], sep);
      SplitFirstPiece(s[1..], sep);
      FreeCons(s, rest[0], sep);
      assert Split(s, sep) == [[s[0]] + rest[0]] + rest[1..];
    }
  }

  /** The first piece of a split is a prefix of the string. */
  lemma {:induction false} SplitFirstPiece(s: string, sep: string)
    requires sep != []
    ensures Split(s, sep)[0] <= s
    decreases |s|
  {
    if s != [] && !OccursAt(s, sep, 0) {
      SplitFirstPiece(s[1..], sep);
      SplitAtChar(s, sep);
      assert s == [s[0]] + s[1..];
    }
  }

  /** Putting the first character of s in front of a sep-free prefix of s[1..]
      keeps it sep-free when sep does not occur at the start of s. */
  lemma FreeCons(s: string, piece: string, sep: string)
    requires sep != [] && s != [] && !OccursAt(s, sep, 0)
    requires piece <= s[1..] && Free(piece, sep)
    ensures Free([s[0]] + piece, sep)
  {
    var p := [s[0]] + piece;
    forall i | 0 <= i < |p|
      ensures !OccursAt(p, sep, i)
    {
      if i == 0 {
        if |sep| <= |p| {
          assert p[i..i + |sep|] == s[i..i + |sep|];
        }
      } else {
        assert !OccursAt(piece, sep, i - 1);
        if i + |sep| <= |p| {
          assert p[i..i + |sep|] == piece[i - 1..i - 1 + |sep|];
        }
      }
    }
  }

  /** A string without the separator splits into itself. */
  lemma {:induction false} SplitOfFree(s: string, sep: string)
    requires sep != [] && Free(s, sep)
    ensures Split(s, sep) == [s]
    decreases |s|
  {
    assert !OccursAt(s, sep, 0);
    if s != [] {
      forall i | 0 <= i < |s[1..]| ensures !OccursAt(s[1..], sep, i) {
        assert !OccursAt(s, sep, i + 1);
        if i + 1 + |sep| <= |s| {
          assert s[i + 1..i + 1 + |sep|] == s[1..][i..i + |sep|];
        }
      }
      SplitOfFree(s[1..], sep);
      assert [s[0]] + s[1..] == s;
    }
  }

  /** Splitting p + t when no occurrence of sep starts inside p: p is glued to the
      first piece of t. */
  lemma {:induction false} SplitPrefix(p: string, t: string, sep: string)
    requires sep != []
    requires forall i :: 0 <= i < |p| ==> !OccursAt(p + t, sep, i)
    ensures Split(p + t, sep) == [p + Split(t, sep)[0]] + Split(t, sep)[1..]
    decreases |p|
  {
    var st := Split(t, sep);
    if p == [] {
      assert p + t == t;
      assert p + st[0] == st[0];
      assert [st[0]] + st[1..] == st;
    } else {
      NoOccurrenceInTail(p, t, sep);
      SplitPrefix(p[1..], t, sep);
      SplitPrefixStep(p, t, sep);
    }
  }

  lemma NoOccurrenceInTail(p: string, t: string, sep: string)
    requires sep != [] && p != []
    requires forall i :: 0 <= i < |p| ==> !OccursAt(p + t, sep, i)
    ensures forall i :: 0 <= i < |p[1..]| ==> !OccursAt(p[1..] + t, sep, i)
  {
    var s := p + t;
    var q := p[1..];
    forall i | 0 <= i < |q|
      ensures !OccursAt(q + t, sep, i)
    {
      assert !OccursAt(s, sep, i + 1);
      if i + 1 + |sep| <= |s| {
        assert s[i + 1..i + 1 + |sep|] == (q + t)[i..i + |sep|];
      }
    }
  }

  lemma SplitPrefixStep(p: string, t: string, sep: string)
    requires sep != [] && p != [] && !OccursAt(p + t, sep, 0)
    requires Split(p[1..] + t, sep) == [p[1..] + Split(t, sep)[0]] + Split(t, sep)[1..]
    ensures Split(p + t, sep) == [p + Split(t, sep)[0]] + Split(t, sep)[1..]
  {
    SplitAtCharOfConcat(p, t, sep);
    GlueFirst(p, Split(p + t, sep), Split(p[1..] + t, sep), Split(t, sep));
  }

  lemma SplitAtCharOfConcat(p: string, t: string, sep: string)
    requires sep != [] && p != [] && !OccursAt(p + t, sep, 0)
    ensures Split(p + t, sep) == [[p[0]] + Split(p[1..] + t, sep)[0]] + Split(p[1..] + t, sep)[1..]
  {
    var s := p + t;
    SplitAtChar(s, sep);
    assert s[1..] == p[1..] + t;
  }

  /** Gluing the first character of p to the first piece of pieces whose first
      piece was already glued to the rest of p. */
  lemma GlueFirst(p: string, pieces: seq<string>, r: seq<string>, st: seq<string>)
    requires p != [] && st != []
    requires r == [p[1..] + st[0]] + st[1..] && pieces == [[p[0]] + r[0]] + r[1..]
    ensures pieces == [p + st[0]] + st[1..]
  {
    assert r[0] == p[1..] + st[0] && r[1..] == st[1..];
    assert [p[0]] + (p[1..] + st[0]) == p + st[0];
  }

  /** With an unbordered separator, no occurrence straddles a sep-free piece and
      the separator that follows it. */
  lemma {:induction false} NoStraddle(p: string, sep: string, rest: string)
    requires sep != [] && Free(p, sep) && Unbordered(sep)
    ensures forall i :: 0 <= i < |p| ==> !OccursAt(p + sep + rest, sep, i)
  {
    var s := p + sep + rest;
    forall i | 0 <= i < |p|
      ensures !OccursAt(s, sep, i)
    {
      if i + |sep| <= |p| {
        assert !OccursAt(p, sep, i);
        assert s[i..i + |sep|] == p[i..i + |sep|];
      } else if i + |sep| <= |s| {
        var j := |p| - i;
        assert s[i..i + |sep|][j] == s[|p|] == sep[0] != sep[j];
      }
    }
  }

  /** Splitting inverts joining, provided no piece contains the separator and
      the separator cannot overlap itself. */
  lemma {:induction false} SplitJoin(pieces: seq<string>, sep: string)
    requires sep != [] && Unbordered(sep)
    requires pieces != []
    requires forall p <- pieces :: Free(p, sep)
    ensures Split(Join(pieces, sep), sep) == pieces
    decreases |pieces|
  {
    if |pieces| == 1 {
      SplitOfFree(pieces[0], sep);
    } else {
      var p := pieces[0];
      var rest := Join(pieces[1..], sep);
      var t := sep + rest;
      assert Join(pieces, sep) == p + t;
      NoStraddle(p, sep, rest);
      assert p + sep + rest == p + t;
      SplitPrefix(p, t, sep);
      assert OccursAt(t, sep, 0);
      assert t[|sep|..] == rest;
      assert Split(t, sep) == [""] + Split(rest, sep);
      SplitJoin(pieces[1..], sep);
      assert Split(t, sep) == [""] + pieces[1..];
      assert Split(p + t, sep) == [p + ""] + pieces[1..];
      assert p + "" == p;
      assert [p] + pieces[1..] == pieces;
    }
  }
}
