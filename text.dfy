/**
 * The JavaScript string operations the core uses: `trim`, `toLowerCase`,
 * `includes`, `startsWith` (Dafny's prefix test `<=`) and `split("@")[0]`.
 */
module Text {

  /**
   * The characters `String.prototype.trim` strips that can occur in typed text:
   * the ASCII white space, no-break space, the byte-order mark and the two line
   * separators.
   */
  predicate IsWhitespace(c: char)
  {
    c == ' ' || c == '\t' || c == '\n' || c == '\r' || c == '\U{000B}' || c == '\U{000C}'
    || c == '\U{00A0}' || c == '\U{FEFF}' || c == '\U{2028}' || c == '\U{2029}'
  }

  function TrimStart(s: string): (r: string)
    ensures |r| <= |s| && r == s[|s| - |r|..]
    ensures r != [] ==> !IsWhitespace(r[0])
    ensures forall i :: 0 <= i < |s| - |r| ==> IsWhitespace(s[i])
  {
    if s != [] && IsWhitespace(s[0]) then TrimStart(s[1..]) else s
  }

  function TrimEnd(s: string): (r: string)
    ensures |r| <= |s| && r == s[..|r|]
    ensures r != [] ==> !IsWhitespace(r[|r| - 1])
    ensures forall i :: |r| <= i < |s| ==> IsWhitespace(s[i])
  {
    if s != [] && IsWhitespace(s[|s| - 1]) then TrimEnd(s[..|s| - 1]) else s
  }

  function Trim(s: string): string
  {
    TrimEnd(TrimStart(s))
  }

  /** `!s.trim()`: the value is empty once white space is stripped. */
  predicate IsBlank(s: string)
  {
    Trim(s) == ""
  }

  lemma {:induction false} TrimStartOfWhitespace(s: string)
    requires forall i :: 0 <= i < |s| ==> IsWhitespace(s[i])
    ensures TrimStart(s) == ""
  {
    if s != [] {
      TrimStartOfWhitespace(s[1..]);
    }
  }

  /** A value is blank exactly when every character in it is white space. */
  lemma BlankIffAllWhitespace(s: string)
    ensures IsBlank(s) <==> forall i :: 0 <= i < |s| ==> IsWhitespace(s[i])
  {
    var t := TrimStart(s);
    if forall i :: 0 <= i < |s| ==> IsWhitespace(s[i]) {
      TrimStartOfWhitespace(s);
    }
    if IsBlank(s) {
      assert |TrimEnd(t)| == 0;
      assert t == [];
    }
  }

  function LowerChar(c: char): char
  {
    if 'A' <= c <= 'Z' then (c as int + 32) as char else c
  }

  /** `toLowerCase`, for the Latin letters A to Z. */
  function ToLower(s: string): (r: string)
    ensures |r| == |s|
    ensures forall i :: 0 <= i < |s| ==> r[i] == LowerChar(s[i])
  {
    if s == [] then [] else [LowerChar(s[0])] + ToLower(s[1..])
  }

  /** Lowering an already lowered string changes nothing. */
  lemma ToLowerIdempotent(s: string)
    ensures ToLower(ToLower(s)) == ToLower(s)
  {
    var l := ToLower(s);
    forall i | 0 <= i < |s| ensures ToLower(l)[i] == l[i] {
      assert l[i] == LowerChar(s[i]);
    }
  }

  /** `hay.includes(needle)`. */
  predicate Includes(hay: string, needle: string)
  {
    needle <= hay || (hay != [] && Includes(hay[1..], needle))
  }

  predicate OccursAt(hay: string, needle: string, i: int)
  {
    0 <= i && i + |needle| <= |hay| && hay[i..i + |needle|] == needle
  }

  /** `includes` finds the needle at some position of the haystack. */
  lemma {:induction false} IncludesIffOccurs(hay: string, needle: string)
    ensures Includes(hay, needle) <==> exists i :: OccursAt(hay, needle, i)
  {
    if needle <= hay {
      assert OccursAt(hay, needle, 0);
    } else if hay != [] {
      IncludesIffOccurs(hay[1..], needle);
      if Includes(hay[1..], needle) {
        var j :| OccursAt(hay[1..], needle, j);
        assert hay[j + 1..j + 1 + |needle|] == hay[1..][j..j + |needle|];
        assert OccursAt(hay, needle, j + 1);
      }
      if exists i :: OccursAt(hay, needle, i) {
        var i :| OccursAt(hay, needle, i);
        assert i != 0;
        assert hay[1..][i - 1..i - 1 + |needle|] == hay[i..i + |needle|];
        assert OccursAt(hay[1..], needle, i - 1);
      }
    }
  }

  /** Every string includes the empty string. */
  lemma IncludesEmpty(hay: string)
    ensures Includes(hay, "")
  {
  }

  /** `s.split(sep)[0]`: the text before the first separator, or all of it. */
  function BeforeFirst(s: string, sep: char): (r: string)
    ensures r <= s
    ensures sep !in r
    ensures r == s || s[|r|] == sep
  {
    if s == [] || s[0] == sep then [] else [s[0]] + BeforeFirst(s[1..], sep)
  }
}
