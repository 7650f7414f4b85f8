/**
 * serializeVector and deserializeVector: an embedding vector as text in the
 * database's array literal form, "{1,2,3}", and back.
 */
module VectorUtils {
  import opened JsString
  import opened JsNumber

  predicate IsBrace(c: char) {
    c == '{' || c == '}'
  }

  /** A character String(n) can produce for an integer n. */
  predicate IsNumeralChar(c: char) {
    c == '-' || IsDecimalDigit(c)
  }

  function Numerals(vector: seq<int>): (strs: seq<string>)
    ensures |strs| == |vector|
  {
    seq(|vector|, i requires 0 <= i < |vector| => DecimalString(vector[i]))
  }

  /** `{${vector.join(',')}}`: the elements in decimal, separated by commas with no
      spaces, between braces. */
  function Serialize(vector: seq<int>): (s: string)
    ensures |s| >= 2 && s[0] == '{' && s[|s| - 1] == '}'
  {
    "{" + Join(Numerals(vector), ",") + "}"
  }

  /** vectorStr.replace(/[{}]/g, ''): every brace removed, wherever it stands. */
  function RemoveBraces(s: string): (r: string)
    ensures |r| <= |s|
    ensures forall k :: 0 <= k < |r| ==> !IsBrace(r[k])
  {
    if s == [] then []
    else (if IsBrace(s[0]) then [] else [s[0]]) + RemoveBraces(s[1..])
  }

  /** .split(',').map(Number): one number per comma-separated piece of the text
      without braces; an empty piece is 0. */
  function Deserialize(s: string): (v: seq<NumberValue>)
    ensures |v| == CountSeparators(RemoveBraces(s), ",") + 1
  {
    var pieces := Split(RemoveBraces(s), ",");
    SplitLength(RemoveBraces(s), ",");
    seq(|pieces|, i requires 0 <= i < |pieces| => ToNumber(pieces[i]))
  }

  /** The integers of a vector as Number values. */
  function Ints(vector: seq<int>): seq<NumberValue> {
    seq(|vector|, i requires 0 <= i < |vector| => Int(vector[i]))
  }

  lemma {:induction false} RemoveBracesConcat(a: string, b: string)
    ensures RemoveBraces(a + b) == RemoveBraces(a) + RemoveBraces(b)
    decreases |a|
  {
    if a != [] {
      assert (a + b)[1..] == a[1..] + b;
      RemoveBracesConcat(a[1..], b);
    } else {
      assert a + b == b;
    }
  }

  lemma {:induction false} RemoveBracesOfBraceless(s: string)
    requires forall k :: 0 <= k < |s| ==> !IsBrace(s[k])
    ensures RemoveBraces(s) == s
    decreases |s|
  {
    if s != [] {
      RemoveBracesOfBraceless(s[1..]);
    }
  }

  /** A brace anywhere in the text is ignored. */
  lemma BraceAnywhereIgnored(a: string, c: char, b: string)
    requires IsBrace(c)
    ensures Deserialize(a + [c] + b) == Deserialize(a + b)
  {
    RemoveBracesConcat(a + [c], b);
    RemoveBracesConcat(a, [c]);
    RemoveBracesConcat(a, b);
    assert RemoveBraces([c]) == [];
    assert RemoveBraces(a) + [] == RemoveBraces(a);
  }

  /** A piece that is empty or white space only, such as the one between two
      adjacent commas, reads as 0. */
  lemma BlankPiecesAreZero(s: string)
    ensures var pieces := Split(RemoveBraces(s), ",");
      forall i :: 0 <= i < |pieces| && AllWhite(pieces[i]) ==> Deserialize(s)[i] == Int(0)
  {
    var pieces := Split(RemoveBraces(s), ",");
    SplitLength(RemoveBraces(s), ",");
    forall i | 0 <= i < |pieces| && AllWhite(pieces[i]) ensures Deserialize(s)[i] == Int(0) {
      TrimAllWhite(pieces[i]);
    }
  }

  lemma DecimalStringChars(n: int)
    ensures forall k :: 0 <= k < |DecimalString(n)| ==> IsNumeralChar(DecimalString(n)[k])
  {
    if n < 0 {
      var d := DecimalDigits(-n);
      assert DecimalString(n) == "-" + d;
      forall k | 1 <= k < |DecimalString(n)| ensures IsNumeralChar(DecimalString(n)[k]) {
        assert DecimalString(n)[k] == d[k - 1];
      }
    }
  }

  /** Every character of numerals joined by commas is a comma or a numeral character. */
  lemma {:induction false} JoinedNumeralChars(strs: seq<string>)
    requires forall p <- strs :: forall k :: 0 <= k < |p| ==> IsNumeralChar(p[k])
    ensures forall k :: 0 <= k < |Join(strs, ",")| ==> IsNumeralChar(Join(strs, ",")[k]) || Join(strs, ",")[k] == ','
    decreases |strs|
  {
    if strs != [] {
      assert strs[0] in strs;
    }
    if |strs| > 1 {
      JoinedNumeralChars(strs[1..]);
      var rest := Join(strs[1..], ",");
      var j := strs[0] + "," + rest;
      assert Join(strs, ",") == j;
      var p0 := strs[0];
      assert forall k :: 0 <= k < |p0| ==> IsNumeralChar(p0[k]);
      forall k | 0 <= k < |j| ensures IsNumeralChar(j[k]) || j[k] == ',' {
        if k < |p0| {
          assert j[k] == p0[k];
          assert IsNumeralChar(p0[k]);
        } else if k == |p0| {
          assert j[k] == ',';
        } else {
          assert j[k] == rest[k - |p0| - 1];
          assert IsNumeralChar(rest[k - |p0| - 1]) || rest[k - |p0| - 1] == ',';
        }
      }
    }
  }

  lemma NumeralsChars(vector: seq<int>)
    ensures forall p <- Numerals(vector) :: forall k :: 0 <= k < |p| ==> IsNumeralChar(p[k])
  {
    forall i | 0 <= i < |vector| ensures forall k :: 0 <= k < |Numerals(vector)[i]| ==> IsNumeralChar(Numerals(vector)[i][k]) {
      DecimalStringChars(vector[i]);
    }
  }

  /** The serialized text is braces, commas, minus signs and digits only: no spaces. */
  lemma SerializedChars(vector: seq<int>)
    ensures var s := Serialize(vector);
      forall k :: 0 <= k < |s| ==> IsBrace(s[k]) || s[k] == ',' || IsNumeralChar(s[k])
  {
    NumeralsChars(vector);
    JoinedNumeralChars(Numerals(vector));
    var j := Join(Numerals(vector), ",");
    var s := Serialize(vector);
    assert s == "{" + j + "}";
    forall k | 0 <= k < |s| ensures IsBrace(s[k]) || s[k] == ',' || IsNumeralChar(s[k]) {
      if 0 < k < |s| - 1 {
        assert s[k] == j[k - 1];
      }
    }
  }

  /** Removing the braces of a serialized vector leaves the numerals joined by commas. */
  lemma InnerText(vector: seq<int>)
    ensures RemoveBraces(Serialize(vector)) == Join(Numerals(vector), ",")
  {
    var j := Join(Numerals(vector), ",");
    NumeralsChars(vector);
    JoinedNumeralChars(Numerals(vector));
    RemoveBracesConcat("{" + j, "}");
    RemoveBracesConcat("{", j);
    forall k | 0 <= k < |j| ensures !IsBrace(j[k]) {
      assert IsNumeralChar(j[k]) || j[k] == ',';
    }
    RemoveBracesOfBraceless(j);
    assert RemoveBraces("{") == [] && RemoveBraces("}") == [];
    assert [] + j + [] == j;
  }

  /** No numeral holds a comma. */
  lemma NumeralsFree(vector: seq<int>)
    ensures forall p <- Numerals(vector) :: Free(p, ",")
  {
    NumeralsChars(vector);
    forall p <- Numerals(vector) ensures Free(p, ",") {
      forall i | 0 <= i < |p| ensures !OccursAt(p, ",", i) {
        assert IsNumeralChar(p[i]);
        assert p[i..i + 1][0] == p[i];
      }
    }
  }

  /** Every non-empty integer vector comes back from its text. */
  lemma VectorRoundTrip(vector: seq<int>)
    requires vector != []
    ensures Deserialize(Serialize(vector)) == Ints(vector)
  {
    var strs := Numerals(vector);
    assert Split(RemoveBraces(Serialize(vector)), ",") == strs by {
      InnerText(vector);
      NumeralsFree(vector);
      assert Unbordered(",");
      SplitJoin(strs, ",");
    }
    ReadNumerals(Serialize(vector), vector);
  }

  /** Text whose pieces are the numerals of a vector reads back as the vector. */
  lemma ReadNumerals(s: string, vector: seq<int>)
    requires Split(RemoveBraces(s), ",") == Numerals(vector)
    ensures Deserialize(s) == Ints(vector)
  {
    NumeralsRead(vector);
  }

  /** Number reads each numeral back as its integer. */
  lemma NumeralsRead(vector: seq<int>)
    ensures forall i :: 0 <= i < |vector| ==> ToNumber(Numerals(vector)[i]) == Int(vector[i])
  {
    forall i | 0 <= i < |vector| ensures ToNumber(Numerals(vector)[i]) == Int(vector[i]) {
      ToNumberDecimalString(vector[i]);
    }
  }

  /** The empty vector does not come back: "{}" holds one empty piece, and
      Number("") is 0. */
  lemma EmptyVectorDoesNotRoundTrip()
    ensures Serialize([]) == "{}"
    ensures Deserialize(Serialize([])) == [Int(0)]
  {
    assert Join(Numerals([]), ",") == "";
    assert Serialize([]) == "{}";
    InnerText([]);
    assert Trim("") == "" by { TrimOfTrimmed(""); }
  }

  /** The decoding the round trip needs: text without any number in it (only
      braces) is the empty vector. */
  function DeserializeVector(s: string): (v: seq<NumberValue>)
    ensures RemoveBraces(s) != "" ==> v == Deserialize(s)
    ensures RemoveBraces(s) == "" ==> v == []
    ensures v == [] <==> RemoveBraces(s) == ""
  {
    if RemoveBraces(s) == "" then [] else Deserialize(s)
  }

  /** With the empty case decoded as the empty vector, every integer vector comes
      back from its text. */
  lemma VectorRoundTripCorrected(vector: seq<int>)
    ensures DeserializeVector(Serialize(vector)) == Ints(vector)
  {
    InnerText(vector);
    if vector == [] {
      assert Join(Numerals([]), ",") == "";
    } else {
      var strs := Numerals(vector);
      assert |Join(strs, ",")| >= |strs[0]| > 0 by {
        if |strs| > 1 { assert Join(strs, ",") == strs[0] + "," + Join(strs[1..], ","); }
      }
      VectorRoundTrip(vector);
    }
  }
}
