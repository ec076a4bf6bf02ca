/**
 * The string primitives the view code leans on: `toLowerCase` (restricted to
 * ASCII letters), `includes`, `startsWith`, `trim` and `String(n)` for integers.
 */
module Text {

  function LowerChar(c: char): char {
    if 'A' <= c <= 'Z' then (c as int + 32) as char else c
  }

  /** `s.toLowerCase()` on the ASCII letters; every other character is kept. */
  function Lower(s: string): (r: string)
    ensures |r| == |s|
    ensures forall i :: 0 <= i < |s| ==> r[i] == LowerChar(s[i])
  {
    if s == [] then [] else [LowerChar(s[0])] + Lower(s[1..])
  }

  /** `s.startsWith(p)`. */
  predicate StartsWith(s: string, p: string) {
    p == [] || (s != [] && s[0] == p[0] && StartsWith(s[1..], p[1..]))
  }

  /** `s.includes(t)`: some suffix of `s` starts with `t`. */
  predicate Includes(s: string, t: string) {
    StartsWith(s, t) || (s != [] && Includes(s[1..], t))
  }

  /** `t` occurs in `s` starting at index `i`. */
  ghost predicate OccursAt(s: string, t: string, i: int) {
    0 <= i && i + |t| <= |s| && s[i..i + |t|] == t
  }

  lemma {:induction false} StartsWithIsPrefix(s: string, p: string)
    ensures StartsWith(s, p) <==> p <= s
  {
    if p != [] && s != [] {
      StartsWithIsPrefix(s[1..], p[1..]);
      if p <= s {
        assert p[1..] <= s[1..];
      }
      if s[0] == p[0] && p[1..] <= s[1..] {
        assert p == [p[0]] + p[1..];
      }
    }
  }

  /** An occurrence in the tail of `s` is an occurrence in `s`, one position later, and back. */
  lemma OccursInTail(s: string, t: string, i: int)
    requires s != [] && 0 <= i
    ensures OccursAt(s[1..], t, i) <==> OccursAt(s, t, i + 1)
  {
    if i + |t| <= |s| - 1 {
      assert s[1..][i..i + |t|] == s[i + 1..i + 1 + |t|];
    }
  }

  /** `includes` agrees with the definition by occurrence positions. */
  lemma {:induction false} IncludesIffOccurs(s: string, t: string)
    ensures Includes(s, t) <==> exists i :: OccursAt(s, t, i)
  {
    StartsWithIsPrefix(s, t);
    if t <= s {
      assert OccursAt(s, t, 0);
    } else if s != [] {
      IncludesIffOccurs(s[1..], t);
      if Includes(s[1..], t) {
        var i :| OccursAt(s[1..], t, i);
        OccursInTail(s, t, i);
      } else {
        forall i | OccursAt(s, t, i) && i > 0 ensures OccursAt(s[1..], t, i - 1) {
          OccursInTail(s, t, i - 1);
        }
      }
    }
  }

  /** Every string includes the empty string, so an empty search keeps everything. */
  lemma {:induction false} IncludesEmpty(s: string)
    ensures Includes(s, "")
  {
  }

  /** The characters `String.prototype.trim` removes that this model knows. */
  predicate IsWhiteSpace(c: char) {
    c == ' ' || c == '\t' || c == '\n' || c == '\r' || c == '\U{B}' || c == '\U{C}'
    || c == '\U{A0}' || c == '\U{FEFF}' || c == '\U{2028}' || c == '\U{2029}'
  }

  function TrimStart(s: string): string {
    if s != [] && IsWhiteSpace(s[0]) then TrimStart(s[1..]) else s
  }

  function TrimEnd(s: string): string {
    if s != [] && IsWhiteSpace(s[|s| - 1]) then TrimEnd(s[..|s| - 1]) else s
  }

  /** `s.trim()`. */
  function Trim(s: string): string {
    TrimEnd(TrimStart(s))
  }

  ghost predicate AllWhiteSpace(s: string) {
    forall k :: 0 <= k < |s| ==> IsWhiteSpace(s[k])
  }

  lemma {:induction false} TrimStartShape(s: string)
    ensures exists i :: 0 <= i <= |s| && TrimStart(s) == s[i..] && AllWhiteSpace(s[..i])
    ensures TrimStart(s) != [] ==> !IsWhiteSpace(TrimStart(s)[0])
  {
    if s != [] && IsWhiteSpace(s[0]) {
      TrimStartShape(s[1..]);
      var i :| 0 <= i <= |s[1..]| && TrimStart(s[1..]) == s[1..][i..] && AllWhiteSpace(s[1..][..i]);
      assert s[1..][i..] == s[i + 1..];
      var cut := s[..i + 1];
      forall k | 0 <= k < |cut| ensures IsWhiteSpace(cut[k]) {
        if k > 0 {
          assert cut[k] == s[1..][..i][k - 1];
        }
      }
      assert TrimStart(s) == s[i + 1..] && AllWhiteSpace(s[..i + 1]);
    } else {
      assert TrimStart(s) == s[0..] && AllWhiteSpace(s[..0]);
    }
  }

  lemma {:induction false} TrimEndShape(s: string)
    ensures exists j :: 0 <= j <= |s| && TrimEnd(s) == s[..j] && AllWhiteSpace(s[j..])
    ensures TrimEnd(s) != [] ==> !IsWhiteSpace(TrimEnd(s)[|TrimEnd(s)| - 1])
  {
    if s != [] && IsWhiteSpace(s[|s| - 1]) {
      var s' := s[..|s| - 1];
      TrimEndShape(s');
      var j :| 0 <= j <= |s'| && TrimEnd(s') == s'[..j] && AllWhiteSpace(s'[j..]);
      assert s'[..j] == s[..j];
      var cut := s[j..];
      forall k | 0 <= k < |cut| ensures IsWhiteSpace(cut[k]) {
        if k < |s'| - j {
          assert cut[k] == s'[j..][k];
        }
      }
      assert TrimEnd(s) == s[..j] && AllWhiteSpace(s[j..]);
    } else {
      assert TrimEnd(s) == s[..|s|] && AllWhiteSpace(s[|s|..]);
    }
  }

  /** `trim` returns a slice of `s` and everything cut away is white space. */
  lemma TrimIsSlice(s: string)
    ensures exists i, j :: 0 <= i <= j <= |s| && Trim(s) == s[i..j]
                           && AllWhiteSpace(s[..i]) && AllWhiteSpace(s[j..])
  {
    TrimStartShape(s);
    var i :| 0 <= i <= |s| && TrimStart(s) == s[i..] && AllWhiteSpace(s[..i]);
    var t := s[i..];
    TrimEndShape(t);
    var j :| 0 <= j <= |t| && TrimEnd(t) == t[..j] && AllWhiteSpace(t[j..]);
    assert t[..j] == s[i..i + j];
    assert t[j..] == s[i + j..];
    assert Trim(s) == s[i..i + j] && AllWhiteSpace(s[i + j..]);
  }

  /** The result of `trim` neither begins nor ends with white space. */
  lemma TrimEnds(s: string)
    ensures Trim(s) != [] ==> !IsWhiteSpace(Trim(s)[0]) && !IsWhiteSpace(Trim(s)[|Trim(s)| - 1])
  {
    var t := TrimStart(s);
    TrimStartShape(s);
    TrimEndShape(t);
    var j :| 0 <= j <= |t| && TrimEnd(t) == t[..j] && AllWhiteSpace(t[j..]);
    if Trim(s) != [] {
      assert Trim(s)[0] == t[0];
    }
  }

  /**
   * `trim` removes exactly the leading and trailing white space: the result is
   * a slice of `s`, everything cut away is white space, and the result
   * neither begins nor ends with white space.
   */
  lemma TrimShape(s: string)
    ensures exists i, j :: 0 <= i <= j <= |s| && Trim(s) == s[i..j]
                           && AllWhiteSpace(s[..i]) && AllWhiteSpace(s[j..])
    ensures Trim(s) != [] ==> !IsWhiteSpace(Trim(s)[0]) && !IsWhiteSpace(Trim(s)[|Trim(s)| - 1])
  {
    TrimIsSlice(s);
    TrimEnds(s);
  }

  /** A name is blank after trimming exactly when all of it is white space. */
  lemma TrimEmptyIff(s: string)
    ensures Trim(s) == [] <==> AllWhiteSpace(s)
  {
    TrimShape(s);
    var i, j :| 0 <= i <= j <= |s| && Trim(s) == s[i..j]
                && AllWhiteSpace(s[..i]) && AllWhiteSpace(s[j..]);
    if Trim(s) == [] {
      forall k | 0 <= k < |s| ensures IsWhiteSpace(s[k]) {
        if k < i { assert s[..i][k] == s[k]; } else { assert s[j..][k - j] == s[k]; }
      }
    }
  }

  function DigitChar(d: nat): char
    requires d < 10
  {
    "0123456789"[d]
  }

  function NatToString(n: nat): (r: string)
    ensures r != []
  {
    if n < 10 then [DigitChar(n)] else NatToString(n / 10) + [DigitChar(n % 10)]
  }

  /** `String(n)` for an integer-valued number. */
  function IntToString(i: int): string {
    if i < 0 then "-" + NatToString(-i) else NatToString(i)
  }
}
