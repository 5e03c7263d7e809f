/**
 The JavaScript string built-ins the two components rely on, stated over
 `seq<char>`: `toLowerCase` (ASCII letters only), `includes` and `trim`.
 */
module Text {

  // ---------------------------------------------------------------------
  // toLowerCase, restricted to the ASCII letters A-Z
  // ---------------------------------------------------------------------

  predicate IsAsciiUpper(c: char) {
    'A' <= c <= 'Z'
  }

  /** Maps an ASCII capital to its small letter and leaves every other character alone. */
  function LowerChar(c: char): (d: char)
    ensures !IsAsciiUpper(d)
    ensures IsAsciiUpper(c) ==> 'a' <= d <= 'z' && d as int - 'a' as int == c as int - 'A' as int
    ensures !IsAsciiUpper(c) ==> d == c
  {
    if IsAsciiUpper(c) then (c as int - 'A' as int + 'a' as int) as char else c
  }

  /** `s.toLowerCase()` for text whose only letters needing a case change are ASCII. */
  function Lower(s: string): (r: string)
    ensures |r| == |s|
    ensures forall i :: 0 <= i < |s| ==> r[i] == LowerChar(s[i])
  {
    if s == [] then [] else [LowerChar(s[0])] + Lower(s[1..])
  }

  /** Lowercasing twice is lowercasing once. */
  lemma LowerIdempotent(s: string)
    ensures Lower(Lower(s)) == Lower(s)
  {
    assert forall i :: 0 <= i < |s| ==> Lower(Lower(s))[i] == Lower(s)[i];
  }

  /** A lowercased string has no ASCII capital left in it. */
  lemma LowerHasNoCapitals(s: string)
    ensures forall i :: 0 <= i < |Lower(s)| ==> !IsAsciiUpper(Lower(s)[i])
  {
  }

  // ---------------------------------------------------------------------
  // includes
  // ---------------------------------------------------------------------

  /** `key` occurs in `s` starting at index `i`. */
  ghost predicate OccursAt(s: string, key: string, i: int) {
    0 <= i && i + |key| <= |s| && s[i..i + |key|] == key
  }

  /** `s.includes(key)`: `key` is a prefix of `s` or of one of its suffixes. */
  predicate Includes(s: string, key: string)
    ensures Includes(s, key) ==> |key| <= |s|
    ensures key <= s ==> Includes(s, key)
    decreases |s|
  {
    key <= s || (s != [] && Includes(s[1..], key))
  }

  /** `Includes` holds exactly when `key` occurs somewhere in `s`. */
  lemma {:induction false} IncludesIff(s: string, key: string)
    ensures Includes(s, key) <==> exists i :: OccursAt(s, key, i)
    decreases |s|
  {
    if key <= s {
      assert OccursAt(s, key, 0);
    } else if s == [] {
      forall i | OccursAt(s, key, i) ensures false {
      }
    } else {
      IncludesIff(s[1..], key);
      forall j | OccursAt(s[1..], key, j) ensures OccursAt(s, key, j + 1) {
        OccursShift(s, key, j + 1);
      }
      forall i | OccursAt(s, key, i) ensures OccursAt(s[1..], key, i - 1) {
        assert i != 0;
        OccursShift(s, key, i);
      }
    }
  }

  /** Past the first character, an occurrence in `s` is one in `s[1..]`, one place earlier. */
  lemma OccursShift(s: string, key: string, i: int)
    requires s != [] && 1 <= i
    ensures OccursAt(s, key, i) <==> OccursAt(s[1..], key, i - 1)
  {
    if i + |key| <= |s| {
      assert s[1..][i - 1..i - 1 + |key|] == s[i..i + |key|];
    }
  }

  /** Every string includes the empty string. */
  lemma IncludesEmpty(s: string)
    ensures Includes(s, "")
  {
  }

  // ---------------------------------------------------------------------
  // trim
  // ---------------------------------------------------------------------

  /**
   The characters `String.prototype.trim` removes: the ECMAScript WhiteSpace
   (tab, vertical tab, form feed, the byte order mark and the Unicode space
   separators) and LineTerminator (line feed, carriage return, line and
   paragraph separator) code points.
   */
  predicate IsWhiteSpace(c: char) {
    || c == '\t' || c == '\U{000B}' || c == '\U{000C}' || c == ' ' || c == '\U{00A0}'
    || c == '\U{FEFF}' || c == '\U{1680}' || ('\U{2000}' <= c <= '\U{200A}')
    || c == '\U{202F}' || c == '\U{205F}' || c == '\U{3000}'
    || c == '\n' || c == '\r' || c == '\U{2028}' || c == '\U{2029}'
  }

  /** Drops the leading white space: the result is the longest suffix of `s` that starts with non-white space. */
  function TrimStart(s: string): (r: string)
    ensures |r| <= |s| && r == s[|s| - |r|..]
    ensures r == [] || !IsWhiteSpace(r[0])
    ensures forall i :: 0 <= i < |s| - |r| ==> IsWhiteSpace(s[i])
  {
    if s != [] && IsWhiteSpace(s[0]) then TrimStart(s[1..]) else s
  }

  /** Drops the trailing white space: the result is the longest prefix of `s` that ends with non-white space. */
  function TrimEnd(s: string): (r: string)
    ensures |r| <= |s| && r == s[..|r|]
    ensures r == [] || !IsWhiteSpace(r[|r| - 1])
    ensures forall i :: |r| <= i < |s| ==> IsWhiteSpace(s[i])
  {
    if s != [] && IsWhiteSpace(s[|s| - 1]) then TrimEnd(s[..|s| - 1]) else s
  }

  /** `s.trim()`: no longer than `s`, with no white space left at either end. */
  function Trim(s: string): (r: string)
    ensures |r| <= |s|
    ensures r == [] || (!IsWhiteSpace(r[0]) && !IsWhiteSpace(r[|r| - 1]))
  {
    TrimEnd(TrimStart(s))
  }

  /** `s.trim() === ''` exactly when every character of `s` is white space. */
  lemma TrimEmptyIff(s: string)
    ensures Trim(s) == [] <==> forall i :: 0 <= i < |s| ==> IsWhiteSpace(s[i])
  {
    if Trim(s) == [] {
      assert TrimStart(s) == [];
    }
    if forall i :: 0 <= i < |s| ==> IsWhiteSpace(s[i]) {
      TrimStartAllWhiteSpace(s);
    }
  }

  lemma {:induction false} TrimStartAllWhiteSpace(s: string)
    requires forall i :: 0 <= i < |s| ==> IsWhiteSpace(s[i])
    ensures TrimStart(s) == []
    decreases |s|
  {
    if s != [] {
      TrimStartAllWhiteSpace(s[1..]);
    }
  }

  /** Trimming keeps a contiguous piece of the input, with no white space at either end. */
  lemma TrimIsInnerPiece(s: string)
    ensures exists i :: OccursAt(s, Trim(s), i)
    ensures Trim(s) == [] || (!IsWhiteSpace(Trim(s)[0]) && !IsWhiteSpace(Trim(s)[|Trim(s)| - 1]))
  {
    var t := TrimStart(s);
    var r := TrimEnd(t);
    assert r == Trim(s);
    var i := |s| - |t|;
    assert s[i..i + |r|] == t[..|r|];
    assert OccursAt(s, r, i);
    assert |r| > 0 ==> r[0] == t[0];
  }
}
